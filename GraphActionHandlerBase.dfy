/**
 * The base class of the dependencies graph action handlers.
 *
 * A handler declines every graph request and every change by default. Its one piece of
 * logic resolves the dependency a graph node stands for: the node's id names the project
 * (its Assembly part) and either carries an explicit dependency id or a File part from
 * which a project-relative id is derived; the id is then looked up in the current
 * dependencies snapshot of that project.
 *
 * The graph model is reduced to optional strings, and the host's services to parameters:
 * `registry` is the aggregate snapshot provider's `GetSnapshotProvider`, and
 * `getDirectoryName` is `Path.GetDirectoryName` (None for a root path).
 */
module GraphActions {
  import opened Wrappers
  import opened OrdinalStrings

  /** The parts of a graph node that the handler reads. */
  datatype GraphNode = GraphNode(
    assembly: Option<string>,      // the Assembly part of the node id: the project path
    file: Option<string>,          // the File part of the node id
    dependencyId: Option<string>)  // the DependencyIdProperty of the node

  datatype GraphContext = GraphContext(inputNodes: seq<GraphNode>)

  datatype Dependency = Dependency(id: string, caption: string)

  /** A dependencies snapshot, reduced to its dependencies by id. */
  datatype Snapshot = Snapshot(dependencies: map<string, Dependency>)

  datatype SnapshotChangedEventArgs = SnapshotChangedEventArgs(snapshot: Snapshot)

  datatype SnapshotProvider = SnapshotProvider(currentSnapshot: Option<Snapshot>)

  /** The two results of GetDependency: the return value and the `out snapshot` parameter. */
  datatype Resolution = Resolution(dependency: Option<Dependency>, snapshot: Option<Snapshot>)

  /** The exceptions GetDependency can raise. */
  datatype Fault =
    | NullReference  // StartsWith called on a null File part
    | ArgumentNull   // StartsWith called with a null project folder

  // ---------------------------------------------------------------------------------------
  // Default handler behaviour
  // ---------------------------------------------------------------------------------------

  function CanHandleRequest(graphContext: GraphContext): bool
  {
    false
  }

  function CanHandleChanges(): bool
  {
    false
  }

  function HandleRequest(graphContext: GraphContext): bool
  {
    false
  }

  function HandleChanges(graphContext: GraphContext, changes: SnapshotChangedEventArgs): bool
  {
    false
  }

  /** The base handler claims no request and no change, and handles none. */
  lemma BaseHandlerDeclines(graphContext: GraphContext, changes: SnapshotChangedEventArgs)
    ensures !CanHandleRequest(graphContext) && !CanHandleChanges()
    ensures !HandleRequest(graphContext) && !HandleChanges(graphContext, changes)
  {
  }

  // ---------------------------------------------------------------------------------------
  // Deriving the dependency id from the File part
  // ---------------------------------------------------------------------------------------

  /** `s.TrimStart('\\')`: `s` without its leading backslashes. */
  function TrimLeadingBackslashes(s: string): (r: string)
    ensures |r| <= |s| && r == s[|s| - |r|..]
    ensures forall i :: 0 <= i < |s| - |r| ==> s[i] == '\\'
    ensures r == [] || r[0] != '\\'
  {
    if s != [] && s[0] == '\\' then TrimLeadingBackslashes(s[1..]) else s
  }

  /**
   * The id derived from a File part: when the file starts with the project folder
   * (ignoring case) what follows the folder, without leading backslashes; otherwise the
   * file unchanged.
   */
  function StripProjectFolder(file: string, projectFolder: string): (id: string)
    ensures |id| <= |file| && id == file[|file| - |id|..]
    ensures StartsWithIgnoreCase(file, projectFolder) ==>
      && |projectFolder| <= |file| - |id|
      && (forall i :: |projectFolder| <= i < |file| - |id| ==> file[i] == '\\')
      && (id == [] || id[0] != '\\')
    ensures !StartsWithIgnoreCase(file, projectFolder) ==> id == file
  {
    if StartsWithIgnoreCase(file, projectFolder) then TrimLeadingBackslashes(file[|projectFolder|..]) else file
  }

  /** Only backslashes are trimmed: a forward slash after the project folder stays. */
  lemma ForwardSlashIsKept()
    ensures StripProjectFolder("/repo/app/libs/foo.dll", "/repo/app") == "/libs/foo.dll"
  {
    assert StartsWithIgnoreCase("/repo/app/libs/foo.dll", "/repo/app") by {
      assert "/repo/app/libs/foo.dll"[..9] == "/repo/app";
    }
    assert "/repo/app/libs/foo.dll"[9..] == "/libs/foo.dll";
  }

  /** The folder prefix is matched ignoring case, and the separator after it is trimmed. */
  lemma CaseInsensitiveStripExample()
    ensures StripProjectFolder("c:\\app\\x.dll", "C:\\App") == "x.dll"
  {
    var file := "c:\\app\\x.dll";
    var folder := "C:\\App";
    assert file[..6] == "c:\\app";
    assert Fold("c:\\app") == "C:\\APP" by {
      assert FoldChar('c') == 'C' && FoldChar('a') == 'A' && FoldChar('p') == 'P';
    }
    assert Fold(folder) == "C:\\APP" by {
      assert FoldChar('C') == 'C' && FoldChar('A') == 'A' && FoldChar('p') == 'P';
    }
    assert StartsWithIgnoreCase(file, folder);
    assert file[6..] == "\\x.dll";
    assert "\\x.dll"[1..] == "x.dll";
    assert TrimLeadingBackslashes("x.dll") == "x.dll";
  }

  // ---------------------------------------------------------------------------------------
  // Resolving the dependency
  // ---------------------------------------------------------------------------------------

  /** GetSnapshot: the current snapshot of the provider registered for the project, if any. */
  function GetSnapshot(registry: string -> Option<SnapshotProvider>, projectPath: string): Option<Snapshot>
  {
    match registry(projectPath)
    case None => None
    case Some(provider) => provider.currentSnapshot
  }

  /** `snapshot.FindDependency(id)`: the dependency with that id, or none. */
  function FindDependency(snapshot: Snapshot, id: string): Option<Dependency>
  {
    if id in snapshot.dependencies then Some(snapshot.dependencies[id]) else None
  }

  /**
   * GetDependency by project path and id: the snapshot is the registered provider's current
   * one, and the dependency is looked up in that same snapshot. Nothing faults: with no
   * provider or no snapshot both results are none.
   */
  function GetDependencyById(registry: string -> Option<SnapshotProvider>, projectPath: string, dependencyId: string)
    : (r: Resolution)
    ensures registry(projectPath).None? ==> r == Resolution(None, None)
    ensures registry(projectPath).Some? ==> r.snapshot == registry(projectPath).value.currentSnapshot
    ensures r.dependency.Some? <==> r.snapshot.Some? && dependencyId in r.snapshot.value.dependencies
    ensures r.dependency.Some? ==> r.dependency.value == r.snapshot.value.dependencies[dependencyId]
  {
    var snapshot := GetSnapshot(registry, projectPath);
    Resolution(if snapshot.None? then None else FindDependency(snapshot.value, dependencyId), snapshot)
  }

  /**
   * The id GetDependency looks up when the node carries no explicit id: derived from the
   * File part. A null File part faults on `StartsWith`, and so does a null project folder.
   */
  function IdFromFile(file: Option<string>, projectFolder: Option<string>): (r: Result<string, Fault>)
    ensures file.None? ==> r == Failure(NullReference)
    ensures file.Some? && projectFolder.None? ==> r == Failure(ArgumentNull)
    ensures file.Some? && projectFolder.Some? ==> r == Success(StripProjectFolder(file.value, projectFolder.value))
    ensures r.Success? ==> file.Some? && projectFolder.Some?
  {
    if file.None? then Failure(NullReference)
    else if projectFolder.None? then Failure(ArgumentNull)
    else Success(StripProjectFolder(file.value, projectFolder.value))
  }

  /**
   * GetDependency by graph node, AS WRITTEN. A node with no (or an empty) project path
   * resolves to nothing; an explicit id is used unchanged; otherwise the id comes from
   * the File part, and a missing File part faults before the null check of the id.
   */
  function GetDependency(registry: string -> Option<SnapshotProvider>, getDirectoryName: string -> Option<string>,
                         node: GraphNode): (r: Result<Resolution, Fault>)
    ensures (node.assembly.None? || node.assembly.value == "") ==> r == Success(Resolution(None, None))
    ensures node.assembly.Some? && node.assembly.value != "" && node.dependencyId.Some? ==>
      r == Success(GetDependencyById(registry, node.assembly.value, node.dependencyId.value))
    ensures node.assembly.Some? && node.assembly.value != "" && node.dependencyId.None? && node.file.None? ==>
      r == Failure(NullReference)
    ensures node.assembly.Some? && node.assembly.value != "" && node.dependencyId.None? && node.file.Some? ==>
      match getDirectoryName(node.assembly.value)
      case None => r == Failure(ArgumentNull)
      case Some(folder) => r == Success(GetDependencyById(registry, node.assembly.value, StripProjectFolder(node.file.value, folder)))
  {
    if node.assembly.None? || node.assembly.value == "" then Success(Resolution(None, None))
    else
      var projectPath := node.assembly.value;
      var projectFolder := getDirectoryName(projectPath);
      var id := if node.dependencyId.Some? then Success(node.dependencyId.value) else IdFromFile(node.file, projectFolder);
      match id
      case Failure(fault) => Failure(fault)
      case Success(dependencyId) => Success(GetDependencyById(registry, projectPath, dependencyId))
  }

  /**
   * The soft failure for a missing id is unreachable as written: whenever a node with a
   * project path and no explicit id resolves without a fault, it had a File part.
   */
  lemma MissingIdNeverFailsSoftly(registry: string -> Option<SnapshotProvider>, getDirectoryName: string -> Option<string>,
                                  node: GraphNode)
    requires node.assembly.Some? && node.assembly.value != "" && node.dependencyId.None?
    ensures GetDependency(registry, getDirectoryName, node).Success? ==> node.file.Some?
  {
  }

  /** A concrete node that shows the fault: a project path, no explicit id, no File part. */
  lemma NullFileFaults(registry: string -> Option<SnapshotProvider>, getDirectoryName: string -> Option<string>)
    ensures GetDependency(registry, getDirectoryName, GraphNode(Some("C:\\repo\\app\\app.csproj"), None, None))
         == Failure(NullReference)
  {
  }

  /**
   * GetDependency by graph node, CORRECTED: a node from which no id can be determined
   * resolves softly to nothing, as the null check of the id intends. Everything else is as
   * written.
   */
  function GetDependencyOrNone(registry: string -> Option<SnapshotProvider>, getDirectoryName: string -> Option<string>,
                               node: GraphNode): (r: Result<Resolution, Fault>)
    ensures node.dependencyId.None? && node.file.None? ==> r == Success(Resolution(None, None))
    ensures r != Failure(NullReference)
    ensures !(node.dependencyId.None? && node.file.None?) ==> r == GetDependency(registry, getDirectoryName, node)
  {
    if node.assembly.None? || node.assembly.value == "" then Success(Resolution(None, None))
    else if node.dependencyId.None? && node.file.None? then Success(Resolution(None, None))
    else GetDependency(registry, getDirectoryName, node)
  }

  /** Where the code as written succeeds, the corrected resolution gives the same answer. */
  lemma CorrectedAgreesWhereWrittenSucceeds(registry: string -> Option<SnapshotProvider>,
                                            getDirectoryName: string -> Option<string>, node: GraphNode)
    ensures GetDependency(registry, getDirectoryName, node).Success? ==>
      GetDependencyOrNone(registry, getDirectoryName, node) == GetDependency(registry, getDirectoryName, node)
  {
  }
}
