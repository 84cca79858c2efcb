/**
 * The per-group merge: for each route of a group, skip it when the existing
 * `handlers` file already declares its handler, otherwise render the handler
 * and gather its imports; then assemble the new block, put the import header
 * in front only for a new file, append the block to the original content and
 * write the file back.
 */
module Merge {
  import opened Wrappers
  import opened GoStrings
  import opened Routes
  import opened Naming
  import opened Imports

  /** The fields the handler template is executed with. */
  datatype Handler = Handler(
    handlerName: string,
    requestType: string,
    logicType: string,
    call: string,
    hasResp: bool,
    hasRequest: bool)

  /**
   * What the merge calls but this model does not: executing the (possibly
   * overridden) handler template, executing the import-header template and
   * undoing its `&#34;` escaping, `go/format`'s `Source` (None on a
   * formatting error), and parsing a Go file into the names of its top-level
   * function declarations (Err with the parser's message when it does not
   * parse).
   */
  datatype Collaborators = Collaborators(
    render: Handler -> string,
    renderHeader: string -> string,
    goFormat: string -> Option<string>,
    parse: string -> Result<set<string>, string>)

  /** Why a group's merge is abandoned. */
  datatype MergeError =
    | NameFailure(nameError: NameError)
    | ParseFailure(message: string)

  /**
   * What stays fixed while the routes of one group are merged: the folder of
   * the destination file, the group, the parent package, whether the file
   * existed before, and what parsing its content gives.
   */
  datatype MergeContext = MergeContext(
    folder: string,
    group: Group,
    parentPkg: string,
    existed: bool,
    declared: Result<set<string>, string>)

  /** The rendered handler functions and the imports gathered so far. */
  datatype Pending = Pending(funcs: seq<string>, imports: seq<string>)

  /**
   * The template fields for one resolved route whose handler is called
   * `handler`; the logic name cannot fail once the handler name did not.
   */
  function Describe(route: Route, handler: string): (r: Handler)
    requires HandlerBaseName(route).Ok?
    ensures r.handlerName == handler
  {
    Handler(
      handler,
      Title(route.requestType),
      Title(LogicName(route).value),
      Title(TrimSuffix(handler, HANDLER_SUFFIX)),
      |route.responseType| > 0,
      |route.requestType| > 0)
  }

  /** Upper-casing the first character twice is upper-casing it once. */
  lemma UpperFirstIdempotent(s: string)
    ensures UpperFirst(UpperFirst(s)) == UpperFirst(s)
  {
  }

  /**
   * The descriptor of a resolved route: the call is the base name with its
   * first letter upper-cased, whatever the folder, the logic type is that call
   * followed by `Logic`, and the two flags say whether the route has a
   * request and a response type.
   */
  lemma DescriptorNames(route: Route, folder: string)
    requires HandlerBaseName(route).Ok?
    ensures HandlerName(route, folder).Ok?
    ensures
      var base := HandlerBaseName(route).value;
      var h := Describe(route, HandlerName(route, folder).value);
      && h.handlerName == HandlerName(route, folder).value
      && h.call == UpperFirst(base)
      && h.logicType == h.call + LOGIC_SUFFIX
      && h.requestType == Title(route.requestType)
      && (h.hasRequest <==> route.requestType != "")
      && (h.hasResp <==> route.responseType != "")
  {
    BaseNameShape(route);
    HandlerNameShape(route, folder);
    LogicNameShape(route);
    var base := HandlerBaseName(route).value;
    var name := HandlerName(route, folder).value;
    var h := Describe(route, name);
    SuffixesAreLetters();
    UpperFirstKeepsSuffix(base, HANDLER_SUFFIX);
    UpperFirstKeepsSuffix(base, LOGIC_SUFFIX);
    var stem := if IsCustomFolder(folder) then UpperFirst(base) else base;
    assert name == stem + HANDLER_SUFFIX;
    assert TrimSuffix(name, HANDLER_SUFFIX) == stem by {
      var t := TrimSuffix(name, HANDLER_SUFFIX);
      assert t + HANDLER_SUFFIX == stem + HANDLER_SUFFIX;
      assert t == (t + HANDLER_SUFFIX)[..|t|];
      assert stem == (stem + HANDLER_SUFFIX)[..|stem|];
    }
    assert AllLetterOrDigit(stem) by {
      if IsCustomFolder(folder) {
        TitleOfIdentifier(base);
      }
    }
    TitleOfIdentifier(stem);
    UpperFirstIdempotent(base);
    AppendLetterOrDigit(base, LOGIC_SUFFIX);
    TitleOfIdentifier(base + LOGIC_SUFFIX);
  }

  /** The existing file already declares `name`: the check that skips a route. */
  predicate AlreadyDeclared(ctx: MergeContext, name: string)
    ensures AlreadyDeclared(ctx, name) ==> ctx.existed
    ensures ctx.existed && ctx.declared.Ok? ==> (AlreadyDeclared(ctx, name) <==> name in ctx.declared.value)
  {
    ctx.existed && ctx.declared.Ok? && name in ctx.declared.value
  }

  /** One iteration of the route loop. */
  function Step(ctx: MergeContext, c: Collaborators, p: Pending, route: Route): Result<Pending, MergeError>
  {
    match HandlerName(route, ctx.folder)
    case Err(e) => Err(NameFailure(e))
    case Ok(name) =>
      if ctx.existed && ctx.declared.Err? then Err(ParseFailure(ctx.declared.error))
      else if AlreadyDeclared(ctx, name) then Ok(p)
      else
        var h := Describe(route, name);
        Ok(Pending(p.funcs + [c.render(h)], AddNew(p.imports, HandlerImports(ctx.group, route, ctx.parentPkg))))
  }

  /** The route loop over `routes`, stopping at the first error. */
  function Fold(ctx: MergeContext, c: Collaborators, routes: seq<Route>): Result<Pending, MergeError>
    decreases |routes|
  {
    if routes == [] then Ok(Pending([], []))
    else
      match Fold(ctx, c, routes[..|routes| - 1])
      case Err(e) => Err(e)
      case Ok(p) => Step(ctx, c, p, routes[|routes| - 1])
  }

  /** Once the loop has failed, later routes do not change the outcome. */
  lemma {:induction false} FoldErrorPersists(ctx: MergeContext, c: Collaborators, routes: seq<Route>, n: nat)
    requires n <= |routes| && Fold(ctx, c, routes[..n]).Err?
    ensures Fold(ctx, c, routes) == Fold(ctx, c, routes[..n])
    decreases |routes|
  {
    if n == |routes| {
      assert routes[..n] == routes;
    } else {
      var front := routes[..|routes| - 1];
      assert front[..n] == routes[..n];
      FoldErrorPersists(ctx, c, front, n);
    }
  }

  /**
   * The import loop of one route: each item not yet in `imports` is appended
   * (the source's `stringx.Contains` guard).
   */
  method AppendNew(imports: seq<string>, items: seq<string>) returns (r: seq<string>)
    ensures r == AddNew(imports, items)
  {
    r := imports;
    var k := 0;
    while k < |items|
      invariant 0 <= k <= |items|
      invariant r == AddNew(imports, items[..k])
    {
      assert items[..k + 1][..k] == items[..k];
      if items[k] !in r {
        r := r + [items[k]];
      }
      k := k + 1;
    }
    assert items[..k] == items;
  }

  /**
   * One pass of the route loop's body: resolve the handler name, skip a
   * handler the existing file declares, otherwise render the handler and
   * gather its imports.
   */
  method MergeRoute(ctx: MergeContext, c: Collaborators, p: Pending, route: Route) returns (r: Result<Pending, MergeError>)
    ensures r == Step(ctx, c, p, route)
  {
    var handler := HandlerName(route, ctx.folder);
    if handler.Err? {
      return Err(NameFailure(handler.error));
    }
    var name := handler.value;
    if ctx.existed {
      match ctx.declared
      case Err(message) =>
        return Err(ParseFailure(message));
      case Ok(declared) =>
        if name in declared {
          return Ok(p);
        }
    }
    var funcs := p.funcs + [c.render(Describe(route, name))];
    var imports := AppendNew(p.imports, HandlerImports(ctx.group, route, ctx.parentPkg));
    r := Ok(Pending(funcs, imports));
  }

  /**
   * The route loop of the merge (the source's `for _, route := range routes`),
   * stopping at the first error.
   */
  method MergeRoutes(ctx: MergeContext, c: Collaborators, routes: seq<Route>) returns (r: Result<Pending, MergeError>)
    ensures r == Fold(ctx, c, routes)
  {
    var p := Pending([], []);
    var i := 0;
    while i < |routes|
      invariant 0 <= i <= |routes|
      invariant Fold(ctx, c, routes[..i]) == Ok(p)
    {
      assert routes[..i + 1][..i] == routes[..i];
      var step := MergeRoute(ctx, c, p, routes[i]);
      if step.Err? {
        FoldErrorPersists(ctx, c, routes, i + 1);
        return step;
      }
      p := step.value;
      i := i + 1;
    }
    assert routes[..i] == routes;
    r := Ok(p);
  }

  // ---------------------------------------------------------------------------
  // Reference view of the loop: which routes are synthesised, what they give.

  /** Every route carries a valid handler annotation. */
  predicate AllResolve(routes: seq<Route>)
  {
    forall i :: 0 <= i < |routes| ==> HandlerBaseName(routes[i]).Ok?
  }

  lemma AllResolvePrefix(routes: seq<Route>, n: nat)
    requires AllResolve(routes) && n <= |routes|
    ensures AllResolve(routes[..n])
  {
    forall i | 0 <= i < n ensures HandlerBaseName(routes[..n][i]).Ok? {
      assert routes[..n][i] == routes[i];
    }
  }

  /** A non-empty sequence is its front followed by its last element. */
  lemma SplitLast<T>(s: seq<T>)
    requires s != []
    ensures s == s[..|s| - 1] + [s[|s| - 1]]
    ensures forall i :: 0 <= i < |s| - 1 ==> s[..|s| - 1][i] == s[i]
  {
  }

  /** All routes resolve exactly when the front does and the last one does. */
  lemma AllResolveSplit(routes: seq<Route>)
    requires routes != []
    ensures AllResolve(routes) <==>
      AllResolve(routes[..|routes| - 1]) && HandlerBaseName(routes[|routes| - 1]).Ok?
  {
    var front := routes[..|routes| - 1];
    if AllResolve(front) && HandlerBaseName(routes[|routes| - 1]).Ok? {
      forall i | 0 <= i < |routes| ensures HandlerBaseName(routes[i]).Ok? {
        if i < |front| { assert routes[i] == front[i]; }
      }
    }
    if AllResolve(routes) {
      AllResolvePrefix(routes, |routes| - 1);
    }
  }

  /** The handler name of a resolved route. */
  function NameOf(route: Route, folder: string): string
    requires HandlerBaseName(route).Ok?
  {
    HandlerName(route, folder).value
  }

  /**
   * The routes that get a new handler, in route order: those whose handler
   * the existing file does not already declare.
   */
  function Selected(ctx: MergeContext, routes: seq<Route>): (r: seq<Route>)
    requires AllResolve(routes)
    ensures AllResolve(r)
    ensures forall route :: route in r ==> route in routes && !AlreadyDeclared(ctx, NameOf(route, ctx.folder))
    ensures forall i :: 0 <= i < |routes| && !AlreadyDeclared(ctx, NameOf(routes[i], ctx.folder)) ==> routes[i] in r
    ensures !ctx.existed ==> r == routes
    decreases |routes|
  {
    if routes == [] then []
    else
      var front := routes[..|routes| - 1];
      var last := routes[|routes| - 1];
      AllResolvePrefix(routes, |routes| - 1);
      SplitLast(routes);
      Selected(ctx, front) + (if AlreadyDeclared(ctx, NameOf(last, ctx.folder)) then [] else [last])
  }

  /** The rendered handler of each route, in order. */
  function RenderAll(ctx: MergeContext, c: Collaborators, routes: seq<Route>): (r: seq<string>)
    requires AllResolve(routes)
    ensures |r| == |routes|
    ensures forall i :: 0 <= i < |routes| ==> r[i] == c.render(Describe(routes[i], NameOf(routes[i], ctx.folder)))
    decreases |routes|
  {
    if routes == [] then []
    else
      var last := routes[|routes| - 1];
      AllResolvePrefix(routes, |routes| - 1);
      RenderAll(ctx, c, routes[..|routes| - 1]) + [c.render(Describe(last, NameOf(last, ctx.folder)))]
  }

  /** Every route's import list, concatenated in route order. */
  function ImportsOf(ctx: MergeContext, routes: seq<Route>): seq<string>
    decreases |routes|
  {
    if routes == [] then []
    else ImportsOf(ctx, routes[..|routes| - 1]) + HandlerImports(ctx.group, routes[|routes| - 1], ctx.parentPkg)
  }

  /** An import is gathered exactly when some route in the list needs it. */
  lemma {:induction false} ImportsOfMembers(ctx: MergeContext, routes: seq<Route>, x: string)
    ensures x in ImportsOf(ctx, routes) <==>
      exists i :: 0 <= i < |routes| && x in HandlerImports(ctx.group, routes[i], ctx.parentPkg)
    decreases |routes|
  {
    if routes != [] {
      var front := routes[..|routes| - 1];
      ImportsOfMembers(ctx, front, x);
      assert forall i :: 0 <= i < |front| ==> front[i] == routes[i];
    }
  }

  /**
   * When every route resolves and the existing file, if any, parses, the loop
   * renders exactly the selected routes in order and gathers their imports
   * without duplicates in first-seen order.
   */
  lemma {:induction false} FoldSucceeds(ctx: MergeContext, c: Collaborators, routes: seq<Route>)
    requires AllResolve(routes)
    requires ctx.existed && routes != [] ==> ctx.declared.Ok?
    ensures Fold(ctx, c, routes) ==
      Ok(Pending(RenderAll(ctx, c, Selected(ctx, routes)), AddNew([], ImportsOf(ctx, Selected(ctx, routes)))))
    decreases |routes|, 1
  {
    if routes != [] {
      FoldSucceedsStep(ctx, c, routes);
    }
  }

  /** The inductive step of `FoldSucceeds`: one more route at the end. */
  lemma FoldSucceedsStep(ctx: MergeContext, c: Collaborators, routes: seq<Route>)
    requires routes != [] && AllResolve(routes)
    requires ctx.existed ==> ctx.declared.Ok?
    ensures Fold(ctx, c, routes) ==
      Ok(Pending(RenderAll(ctx, c, Selected(ctx, routes)), AddNew([], ImportsOf(ctx, Selected(ctx, routes)))))
    decreases |routes|, 0
  {
    AllResolvePrefix(routes, |routes| - 1);
    FoldSucceeds(ctx, c, routes[..|routes| - 1]);
    var front := routes[..|routes| - 1];
    var last := routes[|routes| - 1];
    var sel := Selected(ctx, front);
    var p := Pending(RenderAll(ctx, c, sel), AddNew([], ImportsOf(ctx, sel)));
    assert Fold(ctx, c, routes) == Step(ctx, c, p, last);
    var name := NameOf(last, ctx.folder);
    assert HandlerName(last, ctx.folder) == Ok(name);
    if AlreadyDeclared(ctx, name) {
      assert Step(ctx, c, p, last) == Ok(p);
      assert Selected(ctx, routes) == sel;
    } else {
      var items := HandlerImports(ctx.group, last, ctx.parentPkg);
      assert Selected(ctx, routes) == sel + [last];
      SelectedExtends(ctx, c, sel, last);
      AddNewAppend([], ImportsOf(ctx, sel), items);
    }
  }

  /** Selecting one more route extends the rendered functions and the concatenated imports by its own. */
  lemma SelectedExtends(ctx: MergeContext, c: Collaborators, sel: seq<Route>, last: Route)
    requires AllResolve(sel) && HandlerBaseName(last).Ok?
    ensures AllResolve(sel + [last])
    ensures RenderAll(ctx, c, sel + [last]) ==
      RenderAll(ctx, c, sel) + [c.render(Describe(last, NameOf(last, ctx.folder)))]
    ensures ImportsOf(ctx, sel + [last]) == ImportsOf(ctx, sel) + HandlerImports(ctx.group, last, ctx.parentPkg)
  {
    var sel' := sel + [last];
    SplitLast(sel');
    AllResolveSplit(sel');
  }

  /**
   * The loop fails exactly when some route's handler annotation is missing or
   * invalid, or when the file existed and does not parse.
   */
  lemma {:induction false} FoldFails(ctx: MergeContext, c: Collaborators, routes: seq<Route>)
    ensures Fold(ctx, c, routes).Err? <==>
      !AllResolve(routes) || (ctx.existed && routes != [] && ctx.declared.Err?)
    decreases |routes|
  {
    if routes != [] {
      var front := routes[..|routes| - 1];
      var last := routes[|routes| - 1];
      FoldFails(ctx, c, front);
      AllResolveSplit(routes);
    }
  }

  /**
   * The first route with a bad handler annotation decides the error, unless
   * an existing unparsable file already failed at the first route.
   */
  lemma FirstNameErrorReported(ctx: MergeContext, c: Collaborators, routes: seq<Route>, n: nat)
    requires n < |routes| && AllResolve(routes[..n]) && HandlerBaseName(routes[n]).Err?
    requires ctx.existed && ctx.declared.Err? ==> n == 0
    ensures Fold(ctx, c, routes) == Err(NameFailure(HandlerBaseName(routes[n]).error))
  {
    var front := routes[..n];
    assert routes[..n + 1][..n] == front;
    assert routes[..n + 1][n] == routes[n];
    FoldFails(ctx, c, front);
    FoldErrorPersists(ctx, c, routes, n + 1);
  }

  /** An existing file that does not parse aborts the loop at its first resolved route. */
  lemma UnparsableFileReported(ctx: MergeContext, c: Collaborators, routes: seq<Route>)
    requires routes != [] && HandlerBaseName(routes[0]).Ok?
    requires ctx.existed && ctx.declared.Err?
    ensures Fold(ctx, c, routes) == Err(ParseFailure(ctx.declared.error))
  {
    assert routes[..1][..0] == [];
    assert routes[..1][0] == routes[0];
    FoldErrorPersists(ctx, c, routes, 1);
  }

  /**
   * The gathered imports of a loop that succeeds (every route resolves and an
   * existing file parses): no string twice, in first-seen order, and an
   * import is there exactly when some synthesised route needs it, so a
   * skipped route contributes nothing.
   */
  lemma ImportsDeduplicated(ctx: MergeContext, c: Collaborators, routes: seq<Route>, x: string)
    requires AllResolve(routes)
    requires ctx.existed && routes != [] ==> ctx.declared.Ok?
    ensures Fold(ctx, c, routes).Ok?
    ensures
      var imports := Fold(ctx, c, routes).value.imports;
      var sel := Selected(ctx, routes);
      && NoDuplicates(imports)
      && FirstSeenOrder(imports, ImportsOf(ctx, sel))
      && (x in imports <==> exists i :: 0 <= i < |sel| && x in HandlerImports(ctx.group, sel[i], ctx.parentPkg))
  {
    FoldSucceeds(ctx, c, routes);
    var sel := Selected(ctx, routes);
    AddNewFirstSeen([], ImportsOf(ctx, sel));
    assert [] + ImportsOf(ctx, sel) == ImportsOf(ctx, sel);
    AddNewMembers([], ImportsOf(ctx, sel));
    ImportsOfMembers(ctx, sel, x);
  }

  // ---------------------------------------------------------------------------
  // Output assembly and the destination file.

  const IMPORT_SEPARATOR := "\n\t"
  const FUNC_SEPARATOR := "\n\n"

  /** Formatting is cosmetic: when `go/format` fails the code is kept as it is. */
  function FormatCode(goFormat: string -> Option<string>, code: string): (r: string)
    ensures goFormat(code).None? ==> r == code
    ensures goFormat(code).Some? ==> r == goFormat(code).value
  {
    match goFormat(code)
    case None => code
    case Some(formatted) => formatted
  }

  /** The formatted new block: the import header when the file is new, then the functions. */
  function NewBlock(c: Collaborators, existed: bool, p: Pending): (r: string)
    ensures existed ==> r == FormatCode(c.goFormat, Join(p.funcs, FUNC_SEPARATOR))
    ensures !existed ==>
      r == FormatCode(c.goFormat, c.renderHeader(Join(p.imports, IMPORT_SEPARATOR)) + Join(p.funcs, FUNC_SEPARATOR))
  {
    assert "" + Join(p.funcs, FUNC_SEPARATOR) == Join(p.funcs, FUNC_SEPARATOR);
    var header := if existed then "" else c.renderHeader(Join(p.imports, IMPORT_SEPARATOR));
    FormatCode(c.goFormat, header + Join(p.funcs, FUNC_SEPARATOR))
  }

  /** The text written back: the original content and a newline before the block, when there is content. */
  function Output(c: Collaborators, existed: bool, content: string, p: Pending): (r: string)
    ensures HasPrefix(r, content)
    ensures |content| > 0 ==> |r| > |content| && r[|content|] == '\n' && r[|content| + 1..] == NewBlock(c, existed, p)
    ensures |content| == 0 ==> r == NewBlock(c, existed, p)
  {
    var block := NewBlock(c, existed, p);
    if |content| > 0 then content + "\n" + block else block
  }

  /** A destination file: whether it exists and its content. */
  datatype FileState = FileState(present: bool, content: string)

  /**
   * Writing `text` at offset 0 of a file opened read-write without
   * truncation: the text replaces the start and a longer old tail is kept.
   */
  function WriteAt(previous: string, text: string): (r: string)
    ensures HasPrefix(r, text)
    ensures |r| == if |text| < |previous| then |previous| else |text|
    ensures |text| < |previous| ==> r[|text|..] == previous[|text|..]
  {
    if |text| < |previous| then text + previous[|text|..] else text
  }

  /** What the merge leaves: the file and the error that stopped it, if any. */
  datatype MergeOutcome = MergeOutcome(file: FileState, error: Option<MergeError>)

  /** The context of the route loop for `file` after a missing file has been created empty. */
  function ContextFor(file: FileState, folder: string, group: Group, parentPkg: string, c: Collaborators): MergeContext
  {
    var content := if file.present then file.content else "";
    MergeContext(folder, group, parentPkg, file.present, c.parse(content))
  }

  /** The whole merge of one group into `file`, as a function of the file before it. */
  function MergeSpec(file: FileState, folder: string, group: Group, parentPkg: string, c: Collaborators): MergeOutcome
  {
    var content := if file.present then file.content else "";
    match Fold(ContextFor(file, folder, group, parentPkg, c), c, group.routes)
    case Err(e) => MergeOutcome(FileState(true, content), Some(e))
    case Ok(p) => MergeOutcome(FileState(true, WriteAt(content, Output(c, file.present, content, p))), None)
  }

  /** The destination file, changed in place by the merge. */
  class VirtualFile {
    var present: bool
    var content: string

    constructor (present: bool, content: string)
      ensures this.present == present && this.content == content
    {
      this.present := present;
      this.content := content;
    }

    function State(): FileState
      reads this
    {
      FileState(present, content)
    }

    /** `os.Create`: the file exists and is empty. */
    method Create()
      modifies this
      ensures present && content == ""
    {
      present := true;
      content := "";
    }

    /** `WriteString` on a file opened with `O_RDWR` and positioned at its start. */
    method WriteString(text: string)
      modifies this
      ensures present == old(present)
      ensures content == WriteAt(old(content), text)
    {
      content := WriteAt(content, text);
    }
  }

  /**
   * `gen`: creates the file when it is missing, runs the route loop, and on
   * success writes the assembled text back over the file.
   */
  method Gen(file: VirtualFile, folder: string, group: Group, parentPkg: string, c: Collaborators)
    returns (err: Option<MergeError>)
    modifies file
    ensures MergeOutcome(file.State(), err) == MergeSpec(old(file.State()), folder, group, parentPkg, c)
  {
    var existed := file.present;
    if !existed {
      file.Create();
    }
    var ctx := MergeContext(folder, group, parentPkg, existed, c.parse(file.content));
    var r := MergeRoutes(ctx, c, group.routes);
    if r.Err? {
      return Some(r.error);
    }
    var content := file.content;
    var text := Output(c, existed, content, r.value);
    file.WriteString(text);
    err := None;
  }

  // ---------------------------------------------------------------------------
  // Properties of the whole merge.

  /** The written text is never shorter than the content, so no stale tail survives the write. */
  lemma MergeWritesWholeOutput(file: FileState, folder: string, group: Group, parentPkg: string, c: Collaborators)
    requires MergeSpec(file, folder, group, parentPkg, c).error.None?
    ensures
      var content := if file.present then file.content else "";
      var p := Fold(ContextFor(file, folder, group, parentPkg, c), c, group.routes).value;
      MergeSpec(file, folder, group, parentPkg, c).file == FileState(true, Output(c, file.present, content, p))
  {
  }

  /**
   * The import header is rendered only for a file that did not exist; an
   * existing file gets its original content, a newline and the formatted
   * functions.
   */
  lemma HeaderOnlyWhenNew(file: FileState, folder: string, group: Group, parentPkg: string, c: Collaborators)
    requires MergeSpec(file, folder, group, parentPkg, c).error.None?
    ensures
      var p := Fold(ContextFor(file, folder, group, parentPkg, c), c, group.routes).value;
      var written := MergeSpec(file, folder, group, parentPkg, c).file.content;
      && (!file.present ==>
            written == FormatCode(c.goFormat, c.renderHeader(Join(p.imports, IMPORT_SEPARATOR)) + Join(p.funcs, FUNC_SEPARATOR)))
      && (file.present && file.content != "" ==>
            written == file.content + "\n" + FormatCode(c.goFormat, Join(p.funcs, FUNC_SEPARATOR)))
      && (file.present && file.content == "" ==>
            written == FormatCode(c.goFormat, Join(p.funcs, FUNC_SEPARATOR)))
  {
    MergeWritesWholeOutput(file, folder, group, parentPkg, c);
    assert "" + Join(Fold(ContextFor(file, folder, group, parentPkg, c), c, group.routes).value.funcs, FUNC_SEPARATOR)
      == Join(Fold(ContextFor(file, folder, group, parentPkg, c), c, group.routes).value.funcs, FUNC_SEPARATOR);
  }

  /** Nothing already in an existing file is altered: its content stays a prefix, on success and on failure. */
  lemma OriginalContentKept(file: FileState, folder: string, group: Group, parentPkg: string, c: Collaborators)
    requires file.present
    ensures HasPrefix(MergeSpec(file, folder, group, parentPkg, c).file.content, file.content)
  {
    var out := MergeSpec(file, folder, group, parentPkg, c);
    if out.error.None? {
      MergeWritesWholeOutput(file, folder, group, parentPkg, c);
      var w := out.file.content;
      if file.content != "" {
        assert w[..|file.content|] == file.content;
      }
    }
  }

  /**
   * A failed merge writes nothing; a missing file has nevertheless been
   * created empty before the routes were looked at.
   */
  lemma FailureWritesNothing(file: FileState, folder: string, group: Group, parentPkg: string, c: Collaborators)
    requires MergeSpec(file, folder, group, parentPkg, c).error.Some?
    ensures MergeSpec(file, folder, group, parentPkg, c).file ==
      FileState(true, if file.present then file.content else "")
  {
  }

  /**
   * Re-running on an existing non-empty file that already declares every
   * handler adds no function, yet the written file still grows by a newline
   * and the formatter's output for empty input.
   */
  lemma NothingNewStillAppends(file: FileState, folder: string, group: Group, parentPkg: string, c: Collaborators)
    requires file.present && file.content != ""
    requires AllResolve(group.routes)
    requires c.parse(file.content).Ok?
    requires forall i :: 0 <= i < |group.routes| ==> HandlerName(group.routes[i], folder).value in c.parse(file.content).value
    ensures MergeSpec(file, folder, group, parentPkg, c).error.None?
    ensures MergeSpec(file, folder, group, parentPkg, c).file.content == file.content + "\n" + FormatCode(c.goFormat, "")
    ensures MergeSpec(file, folder, group, parentPkg, c).file.content != file.content
  {
    var ctx := ContextFor(file, folder, group, parentPkg, c);
    FoldSucceeds(ctx, c, group.routes);
    var sel := Selected(ctx, group.routes);
    assert sel == [];
    MergeWritesWholeOutput(file, folder, group, parentPkg, c);
    var out := MergeSpec(file, folder, group, parentPkg, c).file.content;
    assert |out| > |file.content|;
  }

  /**
   * When Go's parser rejects an empty file, a merge that failed on a new file
   * leaves an empty `handlers` file behind, and every later merge whose first
   * route resolves then fails to parse it.
   */
  lemma FailedRunBlocksRetry(
    folder: string, group1: Group, group2: Group, parentPkg: string, c: Collaborators)
    requires c.parse("").Err?
    requires MergeSpec(FileState(false, ""), folder, group1, parentPkg, c).error.Some?
    requires group2.routes != [] && HandlerBaseName(group2.routes[0]).Ok?
    ensures
      var left := MergeSpec(FileState(false, ""), folder, group1, parentPkg, c).file;
      && left == FileState(true, "")
      && MergeSpec(left, folder, group2, parentPkg, c).error == Some(ParseFailure(c.parse("").error))
  {
    var left := FileState(true, "");
    UnparsableFileReported(ContextFor(left, folder, group2, parentPkg, c), c, group2.routes);
  }
}
