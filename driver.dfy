/**
 * The generator's entry point for one group: it resolves the handler name of
 * every route, in route order, before it merges the group, so a rejected
 * annotation stops the run before the destination file is created or opened.
 */
module Driver {
  import opened Wrappers
  import opened Routes
  import opened Naming
  import opened Merge

  /** The error of the first route, in route order, whose handler name cannot be resolved. */
  function FirstNameError(routes: seq<Route>, folder: string): Option<NameError>
    decreases |routes|
  {
    if routes == [] then None
    else
      match HandlerName(routes[0], folder)
      case Err(e) => Some(e)
      case Ok(_) => FirstNameError(routes[1..], folder)
  }

  /** The names resolve without error exactly when every route's base name does. */
  lemma {:induction false} FirstNameErrorResolves(routes: seq<Route>, folder: string)
    ensures FirstNameError(routes, folder).None? <==> AllResolve(routes)
    decreases |routes|
  {
    if routes != [] {
      var rest := routes[1..];
      FirstNameErrorResolves(rest, folder);
      assert forall i :: 0 <= i < |rest| ==> rest[i] == routes[i + 1];
      if AllResolve(rest) && HandlerBaseName(routes[0]).Ok? {
        forall i | 0 <= i < |routes| ensures HandlerBaseName(routes[i]).Ok? {
          if i > 0 { assert routes[i] == rest[i - 1]; }
        }
      }
    }
  }

  /** The reported error is that of the first route whose annotation is missing or invalid. */
  lemma {:induction false} FirstNameErrorAt(routes: seq<Route>, folder: string, n: nat)
    requires n < |routes| && AllResolve(routes[..n]) && HandlerBaseName(routes[n]).Err?
    ensures FirstNameError(routes, folder) == Some(HandlerBaseName(routes[n]).error)
    decreases n
  {
    if n > 0 {
      var rest := routes[1..];
      assert routes[..n][0] == routes[0];
      assert HandlerBaseName(routes[0]).Ok?;
      assert rest[n - 1] == routes[n];
      forall i | 0 <= i < n - 1 ensures HandlerBaseName(rest[i]).Ok? {
        assert rest[i] == routes[..n][i + 1];
      }
      assert AllResolve(rest[..n - 1]);
      FirstNameErrorAt(rest, folder, n - 1);
    }
  }

  /**
   * One group of `main`: a group without routes is skipped; otherwise the
   * folder is chosen from the first route, every route's handler name is
   * resolved in that folder, and only then is the group merged.
   */
  function RunGroupSpec(file: FileState, group: Group, parentPkg: string, c: Collaborators): MergeOutcome
  {
    if group.routes == [] then MergeOutcome(file, None)
    else
      var folder := HandlerFolderPath(group, group.routes[0]);
      match FirstNameError(group.routes, folder)
      case Some(e) => MergeOutcome(file, Some(NameFailure(e)))
      case None => MergeSpec(file, folder, group, parentPkg, c)
  }

  /** `main`'s loop body for one group, acting on the group's `handlers` file. */
  method RunGroup(file: VirtualFile, group: Group, parentPkg: string, c: Collaborators)
    returns (err: Option<MergeError>)
    modifies file
    ensures MergeOutcome(file.State(), err) == RunGroupSpec(old(file.State()), group, parentPkg, c)
  {
    if |group.routes| == 0 {
      return None;
    }
    var folder := HandlerFolderPath(group, group.routes[0]);
    var i := 0;
    while i < |group.routes|
      invariant 0 <= i <= |group.routes|
      invariant FirstNameError(group.routes, folder) == FirstNameError(group.routes[i..], folder)
    {
      var name := HandlerName(group.routes[i], folder);
      if name.Err? {
        return Some(NameFailure(name.error));
      }
      assert group.routes[i..][1..] == group.routes[i + 1..];
      i := i + 1;
    }
    err := Gen(file, folder, group, parentPkg, c);
  }

  /**
   * A route with a missing or invalid handler annotation stops the group with
   * the first such route's error, and the destination file is left exactly as
   * it was: not created, not written.
   */
  lemma RejectedAnnotationLeavesFileUntouched(
    file: FileState, group: Group, parentPkg: string, c: Collaborators, n: nat)
    requires n < |group.routes| && AllResolve(group.routes[..n]) && HandlerBaseName(group.routes[n]).Err?
    ensures RunGroupSpec(file, group, parentPkg, c) ==
      MergeOutcome(file, Some(NameFailure(HandlerBaseName(group.routes[n]).error)))
  {
    FirstNameErrorAt(group.routes, HandlerFolderPath(group, group.routes[0]), n);
  }

  /** When every route resolves, the group is merged into the folder of its first route. */
  lemma ResolvedGroupIsMerged(file: FileState, group: Group, parentPkg: string, c: Collaborators)
    requires group.routes != [] && AllResolve(group.routes)
    ensures RunGroupSpec(file, group, parentPkg, c) ==
      MergeSpec(file, HandlerFolderPath(group, group.routes[0]), group, parentPkg, c)
  {
    FirstNameErrorResolves(group.routes, HandlerFolderPath(group, group.routes[0]));
  }

  /**
   * Run from the entry point, a group whose `handlers` file is missing either
   * fails before the file is created or is merged without error: no empty
   * file is left behind.
   */
  lemma MissingFileNeverLeftEmpty(file: FileState, group: Group, parentPkg: string, c: Collaborators)
    requires !file.present
    ensures RunGroupSpec(file, group, parentPkg, c).error.Some? ==> RunGroupSpec(file, group, parentPkg, c).file == file
    ensures RunGroupSpec(file, group, parentPkg, c).file.present ==> RunGroupSpec(file, group, parentPkg, c).error.None?
  {
    if group.routes != [] {
      var folder := HandlerFolderPath(group, group.routes[0]);
      FirstNameErrorResolves(group.routes, folder);
      if AllResolve(group.routes) {
        FoldFails(ContextFor(file, folder, group, parentPkg, c), c, group.routes);
      }
    }
  }
}
