/**
 * The active configured projects provider of the managed project system.
 *
 * A project configuration is a map from dimension name (Configuration, Platform,
 * TargetFramework, ...) to value. The provider decides which configurations of a project
 * are active for the active solution configuration, loads the configured project of each,
 * and exposes them as a map keyed by target framework.
 *
 * Host services are parameters: the two reads of the active configuration (through
 * `_services` and through `_project.Services`), the names of the dimension providers in
 * their import order, and the project loader.
 */
module ActiveConfiguredProjects {
  import opened Wrappers
  import opened OrdinalStrings

  const TargetFrameworkProperty: string := "TargetFramework"

  /** A project configuration, identified by its dimensions. */
  datatype ProjectConfiguration = ProjectConfiguration(dimensions: map<string, string>)

  /**
   * A loaded configured project. Two values are equal exactly when they stand for the same
   * object; the same object always carries the same configuration, and `instance` tells
   * apart objects loaded for equal configurations.
   */
  datatype ConfiguredProject = ConfiguredProject(configuration: ProjectConfiguration, instance: nat)

  /**
   * An immutable hash set of dimension names under the case-insensitive dimension-name
   * comparer: `elements` holds the stored representatives, and membership is decided by
   * the comparer, not by ordinal equality.
   */
  datatype DimensionNameSet = DimensionNameSet(elements: set<string>) {
    predicate Contains(name: string)
    {
      exists e :: e in elements && EqualsIgnoreCase(e, name)
    }
  }

  /** The objects found active, in order, with the dimension names that may vary among them. */
  datatype ActiveConfiguredObjects<T> = ActiveConfiguredObjects(objects: seq<T>, dimensionNames: DimensionNameSet)

  /** Faults raised by building the map of active configured projects. */
  datatype MapFault =
    | NullReference              // the active configured projects were null
    | DuplicateKey(key: string)  // two different projects were added under one target framework

  // ---------------------------------------------------------------------------------------
  // Candidate selection
  // ---------------------------------------------------------------------------------------

  /**
   * `configuration` matches `active` on every dimension of `active` that is not ignored:
   * it has that dimension, with an ordinally equal value. Dimensions that only
   * `configuration` has play no part.
   */
  predicate IsCandidate(active: ProjectConfiguration, configuration: ProjectConfiguration, ignored: DimensionNameSet)
  {
    forall name :: name in active.dimensions && !ignored.Contains(name) ==>
      name in configuration.dimensions && configuration.dimensions[name] == active.dimensions[name]
  }

  /**
   * The loop of IsActiveConfigurationCandidate: walks the active solution configuration's
   * dimensions, skips ignored names, and stops at the first dimension that is missing from
   * `configuration` or has another value there.
   */
  method IsActiveConfigurationCandidate(activeSolutionConfiguration: ProjectConfiguration, configuration: ProjectConfiguration,
                                        ignoredDimensionNames: DimensionNameSet)
    returns (isCandidate: bool)
    ensures isCandidate <==> IsCandidate(activeSolutionConfiguration, configuration, ignoredDimensionNames)
  {
    var dimensions := activeSolutionConfiguration.dimensions;
    var remaining := dimensions.Keys;
    while remaining != {}
      invariant remaining <= dimensions.Keys
      invariant forall name :: name in dimensions && name !in remaining && !ignoredDimensionNames.Contains(name) ==>
        name in configuration.dimensions && configuration.dimensions[name] == dimensions[name]
      decreases remaining
    {
      var name :| name in remaining;
      if !ignoredDimensionNames.Contains(name) {
        if name !in configuration.dimensions || dimensions[name] != configuration.dimensions[name] {
          return false;
        }
      }
      remaining := remaining - {name};
    }
    return true;
  }

  /** A configuration that lacks a dimension that the active one has and does not ignore is never a candidate. */
  lemma MissingDimensionIsNoCandidate(active: ProjectConfiguration, configuration: ProjectConfiguration,
                                      ignored: DimensionNameSet, name: string)
    requires name in active.dimensions && !ignored.Contains(name)
    requires name !in configuration.dimensions || configuration.dimensions[name] != active.dimensions[name]
    ensures !IsCandidate(active, configuration, ignored)
  {
  }

  /** Dimensions that only the other configuration has, or that are ignored, never change the verdict. */
  lemma ExtraDimensionsDoNotMatter(active: ProjectConfiguration, configuration: ProjectConfiguration,
                                   ignored: DimensionNameSet, name: string, value: string)
    requires name !in active.dimensions || ignored.Contains(name)
    ensures IsCandidate(active, ProjectConfiguration(configuration.dimensions[name := value]), ignored)
        <==> IsCandidate(active, configuration, ignored)
  {
  }

  /** Every configuration is a candidate for itself, whatever is ignored. */
  lemma CandidateOfItself(configuration: ProjectConfiguration, ignored: DimensionNameSet)
    ensures IsCandidate(configuration, configuration, ignored)
  {
  }

  /** Ignoring more dimension names never turns a candidate into a non-candidate. */
  lemma CandidateMonotonicInIgnored(active: ProjectConfiguration, configuration: ProjectConfiguration,
                                    smaller: DimensionNameSet, larger: DimensionNameSet)
    requires forall name :: smaller.Contains(name) ==> larger.Contains(name)
    requires IsCandidate(active, configuration, smaller)
    ensures IsCandidate(active, configuration, larger)
  {
  }

  /**
   * The multi-candidate filter, which the provider has DISABLED: it is commented out in
   * GetActiveProjectConfigurationsAsync. It keeps the known configurations that are
   * candidates for the active solution configuration.
   */
  function FilterKnown(known: seq<ProjectConfiguration>, active: ProjectConfiguration, ignored: DimensionNameSet)
    : (candidates: seq<ProjectConfiguration>)
    ensures |candidates| <= |known|
    ensures forall c :: c in candidates <==> c in known && IsCandidate(active, c, ignored)
  {
    if known == [] then []
    else
      var rest := FilterKnown(known[1..], active, ignored);
      if IsCandidate(active, known[0], ignored) then [known[0]] + rest else rest
  }

  /** The filter keeps each known configuration at most as often as it is known. */
  lemma {:induction false} FilterKnownIsSubMultiset(known: seq<ProjectConfiguration>, active: ProjectConfiguration,
                                                    ignored: DimensionNameSet)
    ensures multiset(FilterKnown(known, active, ignored)) <= multiset(known)
  {
    if known != [] {
      FilterKnownIsSubMultiset(known[1..], active, ignored);
      assert known == [known[0]] + known[1..];
    }
  }

  function Configuration3(configuration: string, platform: string, targetFramework: string): ProjectConfiguration
  {
    ProjectConfiguration(map["Configuration" := configuration, "Platform" := platform, TargetFrameworkProperty := targetFramework])
  }

  function Configuration2(configuration: string, platform: string): ProjectConfiguration
  {
    ProjectConfiguration(map["Configuration" := configuration, "Platform" := platform])
  }

  /**
   * The cross-targeting example of the provider's comment: with TargetFramework ignored and
   * Debug|AnyCPU|net45 active, the filter keeps the two Debug configurations.
   */
  lemma CrossTargetingExample()
    ensures FilterKnown([Configuration3("Debug", "AnyCPU", "net45"), Configuration3("Debug", "AnyCPU", "net46"),
                         Configuration3("Release", "AnyCPU", "net45"), Configuration3("Release", "AnyCPU", "net46")],
                        Configuration3("Debug", "AnyCPU", "net45"), DimensionNameSet({TargetFrameworkProperty}))
         == [Configuration3("Debug", "AnyCPU", "net45"), Configuration3("Debug", "AnyCPU", "net46")]
  {
    var debug45, debug46 := Configuration3("Debug", "AnyCPU", "net45"), Configuration3("Debug", "AnyCPU", "net46");
    var release45, release46 := Configuration3("Release", "AnyCPU", "net45"), Configuration3("Release", "AnyCPU", "net46");
    var ignored := DimensionNameSet({TargetFrameworkProperty});
    assert !ignored.Contains("Configuration") by {
      assert |Fold(TargetFrameworkProperty)| != |Fold("Configuration")|;
    }
    assert "Debug" != "Release";
    MissingDimensionIsNoCandidate(debug45, release45, ignored, "Configuration");
    MissingDimensionIsNoCandidate(debug45, release46, ignored, "Configuration");
    assert IsCandidate(debug45, debug46, ignored) by {
      assert ignored.Contains(TargetFrameworkProperty);
    }
    CandidateOfItself(debug45, ignored);
    FilterKeepsFirstTwo(debug45, debug46, release45, release46, debug45, ignored);
  }

  /** The filter on four configurations of which only the first two are candidates. */
  lemma FilterKeepsFirstTwo(a: ProjectConfiguration, b: ProjectConfiguration, c: ProjectConfiguration, d: ProjectConfiguration,
                            active: ProjectConfiguration, ignored: DimensionNameSet)
    requires IsCandidate(active, a, ignored) && IsCandidate(active, b, ignored)
    requires !IsCandidate(active, c, ignored) && !IsCandidate(active, d, ignored)
    ensures FilterKnown([a, b, c, d], active, ignored) == [a, b]
  {
    FilterKnownCons(d, [], active, ignored);
    FilterKnownCons(c, [d], active, ignored);
    FilterKnownCons(b, [c, d], active, ignored);
    FilterKnownCons(a, [b, c, d], active, ignored);
  }

  /** One step of the filter: the head is kept exactly when it is a candidate. */
  lemma FilterKnownCons(head: ProjectConfiguration, rest: seq<ProjectConfiguration>,
                        active: ProjectConfiguration, ignored: DimensionNameSet)
    ensures FilterKnown([head] + rest, active, ignored)
         == (if IsCandidate(active, head, ignored) then [head] else []) + FilterKnown(rest, active, ignored)
  {
    assert ([head] + rest)[1..] == rest;
  }

  /**
   * The non-cross-targeting example of the provider's comment: with nothing ignored and
   * Debug|AnyCPU active, the filter keeps Debug|AnyCPU alone.
   */
  lemma SingleTargetingExample()
    ensures FilterKnown([Configuration2("Debug", "AnyCPU"), Configuration2("Release", "AnyCPU")],
                        Configuration2("Debug", "AnyCPU"), DimensionNameSet({}))
         == [Configuration2("Debug", "AnyCPU")]
  {
    var active := Configuration2("Debug", "AnyCPU");
    assert "Debug" != "Release";
    MissingDimensionIsNoCandidate(active, Configuration2("Release", "AnyCPU"), DimensionNameSet({}), "Configuration");
    CandidateOfItself(active, DimensionNameSet({}));
  }

  // ---------------------------------------------------------------------------------------
  // Ignored dimension names
  // ---------------------------------------------------------------------------------------

  /**
   * The set that adding the provider names one by one to a case-insensitive hash set
   * yields: a name whose equal (ignoring case) is already stored is not added again.
   */
  function DimensionNamesOf(providerNames: seq<string>): (names: set<string>)
    ensures forall name :: DimensionNameSet(names).Contains(name) <==>
      exists i :: 0 <= i < |providerNames| && EqualsIgnoreCase(providerNames[i], name)
    ensures forall e :: e in names ==> e in providerNames
    ensures forall e1, e2 :: e1 in names && e2 in names && EqualsIgnoreCase(e1, e2) ==> e1 == e2
  {
    if providerNames == [] then {}
    else
      var init := providerNames[..|providerNames| - 1];
      var last := providerNames[|providerNames| - 1];
      var previous := DimensionNamesOf(init);
      assert forall i :: 0 <= i < |init| ==> providerNames[i] == init[i];
      ContainsAfterAdd(previous, last);
      if DimensionNameSet(previous).Contains(last) then previous else previous + {last}
  }

  /** Adding `last` to a name set makes exactly the names equal to it (ignoring case) contained in addition. */
  lemma ContainsAfterAdd(previous: set<string>, last: string)
    ensures forall name :: DimensionNameSet(previous + {last}).Contains(name) <==>
      DimensionNameSet(previous).Contains(name) || EqualsIgnoreCase(last, name)
  {
  }

  /**
   * GetDimensionNames: the union of every dimension provider's name, under the
   * case-insensitive dimension-name comparer.
   */
  method GetDimensionNames(dimensionProviders: seq<string>) returns (names: DimensionNameSet)
    ensures names.elements == DimensionNamesOf(dimensionProviders)
    ensures forall name :: names.Contains(name) <==>
      exists i :: 0 <= i < |dimensionProviders| && EqualsIgnoreCase(dimensionProviders[i], name)
    ensures forall e1, e2 :: e1 in names.elements && e2 in names.elements && EqualsIgnoreCase(e1, e2) ==> e1 == e2
  {
    var builder: set<string> := {};
    for i := 0 to |dimensionProviders|
      invariant builder == DimensionNamesOf(dimensionProviders[..i])
    {
      assert dimensionProviders[..i + 1][..i] == dimensionProviders[..i];
      if !DimensionNameSet(builder).Contains(dimensionProviders[i]) {
        builder := builder + {dimensionProviders[i]};
      }
    }
    assert dimensionProviders[..|dimensionProviders|] == dimensionProviders;
    names := DimensionNameSet(builder);
  }

  // ---------------------------------------------------------------------------------------
  // Active configurations and configured projects
  // ---------------------------------------------------------------------------------------

  /**
   * GetActiveProjectConfigurationsAsync as it runs: no result while there is no active
   * solution configuration; otherwise the project's active configuration alone, with the
   * ignored dimension names. `solutionActive` is the read through `_services`,
   * `projectActive` the later read through `_project.Services`.
   */
  method GetActiveProjectConfigurations(solutionActive: Option<ProjectConfiguration>, projectActive: ProjectConfiguration,
                                        dimensionProviders: seq<string>)
    returns (r: Option<ActiveConfiguredObjects<ProjectConfiguration>>)
    ensures r.None? <==> solutionActive.None?
    ensures r.Some? ==> r.value.objects == [projectActive]
    ensures r.Some? ==> r.value.dimensionNames.elements == DimensionNamesOf(dimensionProviders)
  {
    if solutionActive.None? {
      return None;
    }
    var builder: seq<ProjectConfiguration> := [];
    var dimensionNames := GetDimensionNames(dimensionProviders);
    builder := builder + [projectActive];
    assert |builder| > 0;
    return Some(ActiveConfiguredObjects(builder, dimensionNames));
  }

  /**
   * When both reads of the active configuration agree and it is a known configuration,
   * what the live path returns is among what the disabled filter would return.
   */
  lemma LivePathWithinDisabledFilter(active: ProjectConfiguration, known: seq<ProjectConfiguration>,
                                     dimensionProviders: seq<string>)
    requires active in known
    ensures active in FilterKnown(known, active, DimensionNameSet(DimensionNamesOf(dimensionProviders)))
  {
    CandidateOfItself(active, DimensionNameSet(DimensionNamesOf(dimensionProviders)));
  }

  /**
   * The loading loop of GetActiveConfiguredProjectsAsync: no result for no configurations;
   * otherwise each configuration loaded in order, with the dimension names passed through.
   */
  method LoadConfiguredProjects(configurations: Option<ActiveConfiguredObjects<ProjectConfiguration>>,
                                load: ProjectConfiguration -> ConfiguredProject)
    returns (r: Option<ActiveConfiguredObjects<ConfiguredProject>>)
    ensures r.None? <==> configurations.None?
    ensures r.Some? ==> |r.value.objects| == |configurations.value.objects|
    ensures r.Some? ==> forall i :: 0 <= i < |r.value.objects| ==> r.value.objects[i] == load(configurations.value.objects[i])
    ensures r.Some? ==> r.value.dimensionNames == configurations.value.dimensionNames
  {
    if configurations.None? {
      return None;
    }
    var objects := configurations.value.objects;
    var builder: seq<ConfiguredProject> := [];
    for i := 0 to |objects|
      invariant |builder| == i
      invariant forall k :: 0 <= k < i ==> builder[k] == load(objects[k])
    {
      var project := load(objects[i]);
      builder := builder + [project];
    }
    return Some(ActiveConfiguredObjects(builder, configurations.value.dimensionNames));
  }

  /** GetActiveConfiguredProjectsAsync: the active configurations, each loaded. */
  method GetActiveConfiguredProjects(solutionActive: Option<ProjectConfiguration>, projectActive: ProjectConfiguration,
                                     dimensionProviders: seq<string>, load: ProjectConfiguration -> ConfiguredProject)
    returns (r: Option<ActiveConfiguredObjects<ConfiguredProject>>)
    ensures r.None? <==> solutionActive.None?
    ensures r.Some? ==> r.value.objects == [load(projectActive)]
    ensures r.Some? ==> r.value.dimensionNames.elements == DimensionNamesOf(dimensionProviders)
  {
    var configurations := GetActiveProjectConfigurations(solutionActive, projectActive, dimensionProviders);
    r := LoadConfiguredProjects(configurations, load);
  }

  // ---------------------------------------------------------------------------------------
  // The map of active configured projects
  // ---------------------------------------------------------------------------------------

  /**
   * Stand-in for `ProjectConfiguration.IsCrossTargeting()`: the configuration has a
   * TargetFramework dimension.
   */
  predicate IsCrossTargeting(configuration: ProjectConfiguration)
  {
    TargetFrameworkProperty in configuration.dimensions
  }

  predicate AllCrossTargeting(projects: seq<ConfiguredProject>)
  {
    forall i :: 0 <= i < |projects| ==> IsCrossTargeting(projects[i].configuration)
  }

  function TargetFramework(project: ConfiguredProject): string
    requires IsCrossTargeting(project.configuration)
  {
    project.configuration.dimensions[TargetFrameworkProperty]
  }

  /** Two different projects of `projects` share the target framework `key`. */
  predicate ConflictOn(projects: seq<ConfiguredProject>, key: string)
    requires AllCrossTargeting(projects)
  {
    exists i, j :: 0 <= i < |projects| && 0 <= j < |projects| &&
      TargetFramework(projects[i]) == key && TargetFramework(projects[j]) == key && projects[i] != projects[j]
  }

  predicate HasConflict(projects: seq<ConfiguredProject>)
    requires AllCrossTargeting(projects)
  {
    exists i :: 0 <= i < |projects| && ConflictOn(projects, TargetFramework(projects[i]))
  }

  /** A map holding every project under its target framework, and nothing else, has those keys and admits no clash. */
  lemma KeyedByTargetFramework(objects: seq<ConfiguredProject>, m: map<string, ConfiguredProject>)
    requires AllCrossTargeting(objects)
    requires forall k :: 0 <= k < |objects| ==> TargetFramework(objects[k]) in m && m[TargetFramework(objects[k])] == objects[k]
    requires forall key :: key in m ==> exists k :: 0 <= k < |objects| && TargetFramework(objects[k]) == key
    ensures m.Keys == set i | 0 <= i < |objects| :: TargetFramework(objects[i])
    ensures !HasConflict(objects)
  {
  }

  /**
   * The body of GetActiveConfiguredProjectsMapAsync after the projects are known. If every
   * project is cross-targeting, each is added under its target framework, and adding a
   * different project under a key already present faults. Otherwise the first project is
   * the only entry, under the empty key. Null projects fault on dereference.
   */
  method BuildProjectsMap(projects: Option<ActiveConfiguredObjects<ConfiguredProject>>)
    returns (r: Result<map<string, ConfiguredProject>, MapFault>)
    ensures projects.None? ==> r == Failure(NullReference)
    ensures projects.Some? && AllCrossTargeting(projects.value.objects) && !HasConflict(projects.value.objects) ==>
      var objects := projects.value.objects;
      && r.Success?
      && r.value.Keys == (set i | 0 <= i < |objects| :: TargetFramework(objects[i]))
      && forall i :: 0 <= i < |objects| ==> r.value[TargetFramework(objects[i])] == objects[i]
    ensures projects.Some? && AllCrossTargeting(projects.value.objects) && HasConflict(projects.value.objects) ==>
      r.Failure? && r.error.DuplicateKey? && ConflictOn(projects.value.objects, r.error.key)
    ensures projects.Some? && !AllCrossTargeting(projects.value.objects) ==>
      |projects.value.objects| > 0 && r == Success(map["" := projects.value.objects[0]])
  {
    if projects.None? {
      return Failure(NullReference);
    }
    var objects := projects.value.objects;
    var isCrossTargeting := forall i :: 0 <= i < |objects| ==> IsCrossTargeting(objects[i].configuration);
    if isCrossTargeting {
      var builder: map<string, ConfiguredProject> := map[];
      for i := 0 to |objects|
        invariant forall k :: 0 <= k < i ==> TargetFramework(objects[k]) in builder && builder[TargetFramework(objects[k])] == objects[k]
        invariant forall key :: key in builder ==> exists k :: 0 <= k < i && TargetFramework(objects[k]) == key
      {
        var targetFramework := objects[i].configuration.dimensions[TargetFrameworkProperty];
        if targetFramework in builder && builder[targetFramework] != objects[i] {
          var k :| 0 <= k < i && TargetFramework(objects[k]) == targetFramework;
          assert ConflictOn(objects, targetFramework);
          return Failure(DuplicateKey(targetFramework));
        }
        builder := builder[targetFramework := objects[i]];
      }
      KeyedByTargetFramework(objects, builder);
      return Success(builder);
    } else {
      return Success(map["" := objects[0]]);
    }
  }

  /** The cross-targeting example: two active projects, keyed by their target frameworks. */
  method CrossTargetingMapExample() returns (r: Result<map<string, ConfiguredProject>, MapFault>)
    ensures r == Success(map["net45" := ConfiguredProject(Configuration3("Debug", "AnyCPU", "net45"), 1),
                             "net46" := ConfiguredProject(Configuration3("Debug", "AnyCPU", "net46"), 2)])
  {
    var net45 := ConfiguredProject(Configuration3("Debug", "AnyCPU", "net45"), 1);
    var net46 := ConfiguredProject(Configuration3("Debug", "AnyCPU", "net46"), 2);
    var projects := ActiveConfiguredObjects([net45, net46], DimensionNameSet({TargetFrameworkProperty}));
    var objects := projects.objects;
    assert AllCrossTargeting(objects);
    assert TargetFramework(net45) == "net45" && TargetFramework(net46) == "net46" && "net45" != "net46";
    assert !HasConflict(objects);
    r := BuildProjectsMap(Some(projects));
    var keys := set i | 0 <= i < |objects| :: TargetFramework(objects[i]);
    assert TargetFramework(objects[0]) in keys && TargetFramework(objects[1]) in keys;
    assert r.value.Keys == {"net45", "net46"};
    assert r.value["net45"] == net45 && r.value["net46"] == net46;
    assert r.value == map["net45" := net45, "net46" := net46];
  }

  /**
   * GetActiveConfiguredProjectsMapAsync as it runs: it faults when there is no active
   * solution configuration; otherwise the one active project is keyed by its target
   * framework when it is cross-targeting and by the empty string when it is not.
   */
  method GetActiveConfiguredProjectsMap(solutionActive: Option<ProjectConfiguration>, projectActive: ProjectConfiguration,
                                        dimensionProviders: seq<string>, load: ProjectConfiguration -> ConfiguredProject)
    returns (r: Result<map<string, ConfiguredProject>, MapFault>)
    ensures solutionActive.None? ==> r == Failure(NullReference)
    ensures solutionActive.Some? && IsCrossTargeting(load(projectActive).configuration) ==>
      r == Success(map[TargetFramework(load(projectActive)) := load(projectActive)])
    ensures solutionActive.Some? && !IsCrossTargeting(load(projectActive).configuration) ==>
      r == Success(map["" := load(projectActive)])
  {
    var projects := GetActiveConfiguredProjects(solutionActive, projectActive, dimensionProviders, load);
    r := BuildProjectsMap(projects);
    if projects.Some? && IsCrossTargeting(load(projectActive).configuration) {
      var project := load(projectActive);
      var objects := projects.value.objects;
      assert objects == [project];
      assert !HasConflict(objects);
      var keys := set i | 0 <= i < |objects| :: TargetFramework(objects[i]);
      assert TargetFramework(objects[0]) in keys;
      assert keys == {TargetFramework(project)};
      assert r.value == map[TargetFramework(project) := project];
    }
  }
}
