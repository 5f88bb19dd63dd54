# Active configured projects and graph dependency resolution

A model of two pieces of the managed project system for Visual Studio.

**The active configured projects provider** decides which configurations of a project are
active. A project configuration maps dimension names (Configuration, Platform,
TargetFramework, ...) to values. A configuration is a candidate for the active solution
configuration when it matches it, ordinally, on every dimension of the active configuration
whose name is not ignored. The ignored names come from the dimension providers and are
compared ignoring case. As the provider runs today, the multi-candidate filter is commented
out: with an active solution configuration, the active configurations are the project's
active configuration alone. Otherwise there is no result. Each active configuration is
loaded into a configured project, in order. The projects are then put in a map: keyed by
target framework when every project is cross-targeting, else the first project under the
empty key.

**The graph action handler base** declines every graph request and change by default. It
resolves the dependency a graph node stands for. The node's Assembly part is the project
path. The id is either the node's explicit dependency id or its File part, stripped of the
project folder (matched ignoring case) and of the backslashes after it. The id is looked up
in the current snapshot of the provider registered for the project.

Host services are parameters:
- the two reads of the active configuration (through `_services` and `_project.Services`);
- the dimension providers' names, in import order;
- the project loader, a function from configuration to configured project;
- the aggregate snapshot provider's lookup, a function from project path to provider;
- `Path.GetDirectoryName`, a function returning none for a root path.

Stand-ins for helpers that are not part of this model:
- `IsCrossTargeting()` is "the configuration has a TargetFramework dimension".
- `OrdinalIgnoreCase` upper-cases ASCII letters only (`OrdinalStrings.FoldChar`).
- `StringComparers.ConfigurationDimensionNames` is not part of this model; it is assumed to
  be the same case-insensitive comparison, since dimension names are unioned ignoring case.
- `FindDependency` is a lookup by exact id in the snapshot's dependencies.
- A configured project is a value: equal values mean the same object. The same object always
  carries the same configuration; `instance` tells apart objects loaded for equal configurations.

Where the documentation and the code differ, the model follows the code:
- Only `'\\'` is trimmed after the project folder, so `/repo/app/libs/foo.dll` under folder
  `/repo/app` gives `/libs/foo.dll`, not `libs/foo.dll` (`GraphActions.ForwardSlashIsKept`).
- A missing File part with no explicit id throws instead of resolving to nothing (see Findings).
- The active configurations are the active configuration alone; the documented
  multi-candidate filter is modelled as the disabled `FilterKnown`.
- The map of active projects throws a null reference fault when there is no active solution
  configuration, because the null projects are dereferenced.
- `ImmutableDictionary.Builder.Add` throws only when the key is present with a different
  value. So a repeated target framework faults only when the two projects differ.

## Model

| member | source | states |
|---|---|---|
| ActiveConfiguredProjects.IsActiveConfigurationCandidate | src/Microsoft.VisualStudio.ProjectSystem.Managed/ProjectSystem/ActiveConfiguredProjectsProvider.cs:155-170 | the loop answers true exactly when every non-ignored dimension of the active configuration is present in the other configuration with an ordinally equal value |
| ActiveConfiguredProjects.MissingDimensionIsNoCandidate | src/Microsoft.VisualStudio.ProjectSystem.Managed/ProjectSystem/ActiveConfiguredProjectsProvider.cs:157-166 | a configuration lacking, or differing on, a non-ignored dimension of the active configuration is never a candidate |
| ActiveConfiguredProjects.ExtraDimensionsDoNotMatter | src/Microsoft.VisualStudio.ProjectSystem.Managed/ProjectSystem/ActiveConfiguredProjectsProvider.cs:157-166 | adding or changing a dimension that the active configuration lacks or ignores leaves the verdict unchanged |
| ActiveConfiguredProjects.CandidateOfItself | src/Microsoft.VisualStudio.ProjectSystem.Managed/ProjectSystem/ActiveConfiguredProjectsProvider.cs:159-169 | every configuration is a candidate for itself, whatever is ignored |
| ActiveConfiguredProjects.CandidateMonotonicInIgnored | src/Microsoft.VisualStudio.ProjectSystem.Managed/ProjectSystem/ActiveConfiguredProjectsProvider.cs:159-169 | ignoring more dimension names never turns a candidate into a non-candidate |
| ActiveConfiguredProjects.FilterKnown | src/Microsoft.VisualStudio.ProjectSystem.Managed/ProjectSystem/ActiveConfiguredProjectsProvider.cs:131-137 | the disabled filter keeps exactly the known configurations that are candidates, and no more than there are known ones |
| ActiveConfiguredProjects.FilterKnownIsSubMultiset | src/Microsoft.VisualStudio.ProjectSystem.Managed/ProjectSystem/ActiveConfiguredProjectsProvider.cs:131-137 | the disabled filter keeps each known configuration at most as often as it occurs among the known ones |
| ActiveConfiguredProjects.CrossTargetingExample | src/Microsoft.VisualStudio.ProjectSystem.Managed/ProjectSystem/ActiveConfiguredProjectsProvider.cs:17-39 | with TargetFramework ignored and Debug/AnyCPU/net45 active, the four known configurations filter to Debug/AnyCPU/net45 and Debug/AnyCPU/net46 |
| ActiveConfiguredProjects.SingleTargetingExample | src/Microsoft.VisualStudio.ProjectSystem.Managed/ProjectSystem/ActiveConfiguredProjectsProvider.cs:40-55 | with nothing ignored and Debug/AnyCPU active, Debug/AnyCPU and Release/AnyCPU filter to Debug/AnyCPU |
| ActiveConfiguredProjects.DimensionNamesOf | src/Microsoft.VisualStudio.ProjectSystem.Managed/ProjectSystem/ActiveConfiguredProjectsProvider.cs:143-153 | the set contains a name exactly when some provider's name equals it ignoring case; it stores only provider names, no two equal ignoring case |
| ActiveConfiguredProjects.GetDimensionNames | src/Microsoft.VisualStudio.ProjectSystem.Managed/ProjectSystem/ActiveConfiguredProjectsProvider.cs:143-153 | the loop builds that set: every provider's name is contained, nothing else is, and duplicates under the comparer are collapsed |
| ActiveConfiguredProjects.GetActiveProjectConfigurations | src/Microsoft.VisualStudio.ProjectSystem.Managed/ProjectSystem/ActiveConfiguredProjectsProvider.cs:117-141 | no result exactly when there is no active solution configuration; otherwise the one-element sequence of the project's active configuration, with the ignored dimension names |
| ActiveConfiguredProjects.LivePathWithinDisabledFilter | src/Microsoft.VisualStudio.ProjectSystem.Managed/ProjectSystem/ActiveConfiguredProjectsProvider.cs:126-139 | a known active configuration is among what the disabled filter keeps, so the live result is a subset of the documented one |
| ActiveConfiguredProjects.LoadConfiguredProjects | src/Microsoft.VisualStudio.ProjectSystem.Managed/ProjectSystem/ActiveConfiguredProjectsProvider.cs:100-114 | no result exactly when there are no configurations; otherwise same length, element i is the loader applied to configuration i, dimension names unchanged |
| ActiveConfiguredProjects.GetActiveConfiguredProjects | src/Microsoft.VisualStudio.ProjectSystem.Managed/ProjectSystem/ActiveConfiguredProjectsProvider.cs:98-115 | no result exactly when there is no active solution configuration; otherwise the loaded project of the active configuration alone |
| ActiveConfiguredProjects.BuildProjectsMap | src/Microsoft.VisualStudio.ProjectSystem.Managed/ProjectSystem/ActiveConfiguredProjectsProvider.cs:77-95 | null projects fault; all cross-targeting without a clash gives keys exactly the target frameworks, each mapped to its project; a clash of two different projects faults naming a clashing key; otherwise exactly the first project under the empty key |
| ActiveConfiguredProjects.CrossTargetingMapExample | src/Microsoft.VisualStudio.ProjectSystem.Managed/ProjectSystem/ActiveConfiguredProjectsProvider.cs:81-88 | two cross-targeting projects for net45 and net46 give exactly the map net45 to the first and net46 to the second |
| ActiveConfiguredProjects.GetActiveConfiguredProjectsMap | src/Microsoft.VisualStudio.ProjectSystem.Managed/ProjectSystem/ActiveConfiguredProjectsProvider.cs:75-96 | faults with no active solution configuration; otherwise a one-entry map holding the active project, keyed by its target framework if it is cross-targeting and by the empty string if not |
| GraphActions.BaseHandlerDeclines | src/Microsoft.VisualStudio.ProjectSystem.Managed.VS/ProjectSystem/VS/Tree/Dependencies/GraphNodes/Actions/GraphActionHandlerBase.cs:30-48 | the base handler cannot handle any request or change and handles none |
| GraphActions.TrimLeadingBackslashes | src/Microsoft.VisualStudio.ProjectSystem.Managed.VS/ProjectSystem/VS/Tree/Dependencies/GraphNodes/Actions/GraphActionHandlerBase.cs:70 | the result is a suffix of the input, everything removed is a backslash, and it does not start with a backslash |
| GraphActions.StripProjectFolder | src/Microsoft.VisualStudio.ProjectSystem.Managed.VS/ProjectSystem/VS/Tree/Dependencies/GraphNodes/Actions/GraphActionHandlerBase.cs:67-71 | the id is a suffix of the file no longer than it; if the file starts with the folder ignoring case, the id follows the folder and only backslashes, and does not start with one; otherwise it is the file |
| GraphActions.ForwardSlashIsKept | src/Microsoft.VisualStudio.ProjectSystem.Managed.VS/ProjectSystem/VS/Tree/Dependencies/GraphNodes/Actions/GraphActionHandlerBase.cs:70 | a forward slash after the project folder is not trimmed |
| GraphActions.CaseInsensitiveStripExample | src/Microsoft.VisualStudio.ProjectSystem.Managed.VS/ProjectSystem/VS/Tree/Dependencies/GraphNodes/Actions/GraphActionHandlerBase.cs:68-70 | a folder differing only in letter case is stripped, and the backslash after it trimmed |
| GraphActions.GetDependencyById | src/Microsoft.VisualStudio.ProjectSystem.Managed.VS/ProjectSystem/VS/Tree/Dependencies/GraphNodes/Actions/GraphActionHandlerBase.cs:83-96 | no registered provider gives no snapshot and no dependency; otherwise the snapshot is the provider's current one, and a dependency is found exactly when that snapshot holds the id, and it is the one stored there |
| GraphActions.IdFromFile | src/Microsoft.VisualStudio.ProjectSystem.Managed.VS/ProjectSystem/VS/Tree/Dependencies/GraphNodes/Actions/GraphActionHandlerBase.cs:67-70 | a null File part faults with a null reference, a null folder with a null argument; with both present it succeeds with the stripped file |
| GraphActions.GetDependency | src/Microsoft.VisualStudio.ProjectSystem.Managed.VS/ProjectSystem/VS/Tree/Dependencies/GraphNodes/Actions/GraphActionHandlerBase.cs:50-81 | a null or empty project path resolves to nothing; an explicit id is looked up unchanged whatever the File part; without one, a null File part faults, and otherwise the stripped File part is looked up |
| GraphActions.MissingIdNeverFailsSoftly | src/Microsoft.VisualStudio.ProjectSystem.Managed.VS/ProjectSystem/VS/Tree/Dependencies/GraphNodes/Actions/GraphActionHandlerBase.cs:64-77 | with no explicit id, resolution succeeds only for nodes that have a File part, so the null check of the id never fires |
| GraphActions.NullFileFaults | src/Microsoft.VisualStudio.ProjectSystem.Managed.VS/ProjectSystem/VS/Tree/Dependencies/GraphNodes/Actions/GraphActionHandlerBase.cs:64-68 | a node with a project path, no explicit id and no File part faults with a null reference |
| GraphActions.GetDependencyOrNone | src/Microsoft.VisualStudio.ProjectSystem.Managed.VS/ProjectSystem/VS/Tree/Dependencies/GraphNodes/Actions/GraphActionHandlerBase.cs:74-77 | a node without any id resolves to nothing, it never faults with a null reference, and it agrees with the code otherwise |
| GraphActions.CorrectedAgreesWhereWrittenSucceeds | src/Microsoft.VisualStudio.ProjectSystem.Managed.VS/ProjectSystem/VS/Tree/Dependencies/GraphNodes/Actions/GraphActionHandlerBase.cs:74-80 | wherever the code as written succeeds, the corrected resolution gives the same result |

## Left out

- Asynchrony, `ConfigureAwait`, scheduling and single-flight loading: the loader is a plain function, so loading the same configuration twice gives the same project by construction.
- MEF composition: the dimension providers are a given sequence of names; import ordering and capability filtering are not modelled. `ViewProviders` and `Builder` play no part in the logic.
- The second read of the active configuration (through `_project.Services`) is taken to be non-null; a null there is not modelled.
- Dimension dictionaries are looked up by exact key; any key comparer of the host's `ProjectConfiguration.Dimensions` is not modelled.
- Ignore-case comparison folds ASCII letters only; other Unicode case mappings are not modelled.
- `Path.GetDirectoryName` is a parameter; its exceptions for invalid paths are not modelled.
- The graph model is reduced to optional strings for the Assembly part, the File part and the dependency id property.
- `GetSnapshot` has no contract of its own; what it returns is stated by `GetDependencyById`.
- The change forwarder `ActiveConfiguredProjectsLoader.cs` is not part of this model: it is dataflow plumbing with a no-op handler.
- The check that at least one active configuration exists (line 139) always holds on the live path; it is an assertion inside `GetActiveProjectConfigurations`.

## Findings

| source | as written | input that shows it | evidently intended | confidence | as-written member | corrected member |
|---|---|---|---|---|---|---|
| src/Microsoft.VisualStudio.ProjectSystem.Managed.VS/ProjectSystem/VS/Tree/Dependencies/GraphNodes/Actions/GraphActionHandlerBase.cs:67-68 | with no explicit id, `StartsWith` is called on the File part even when it is null, so the null check of the id at line 74 can never fire | a node with Assembly `C:\repo\app\app.csproj`, no dependency id property and no File part | no id resolves softly to no dependency and no snapshot | high, not executed | GraphActions.NullFileFaults | GraphActions.GetDependencyOrNone |
