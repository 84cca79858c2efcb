/**
 * Where a route's handler goes and what it is called: the folder chosen from
 * the `server.group` annotations, and the handler and logic names derived from
 * the `server.handler` annotation.
 */
module Naming {
  import opened Wrappers
  import opened GoStrings
  import opened Routes

  const INTERNAL := "internal/"
  const HANDLER_DIR := INTERNAL + "handler"
  const LOGIC_DIR := INTERNAL + "logic"
  const TYPES_PACKET := "types"
  const TYPES_DIR := INTERNAL + TYPES_PACKET
  const CONTEXT_DIR := INTERNAL + "svc"

  const HANDLER_SUFFIX := "Handler"
  const LOWER_HANDLER_SUFFIX := "handler"
  const LOGIC_SUFFIX := "Logic"

  /** The two ways a route's handler annotation can be rejected. */
  datatype NameError =
    | MissingHandler(path: string)
    | InvalidHandler(path: string, handler: string)

  /** The error text the generator reports; Go's `%q` quoting is shown without its escapes. */
  function Message(e: NameError): (r: string)
    ensures e.MissingHandler? ==> InfixAt(r, e.path, 32) && |r| == 33 + |e.path|
    ensures e.InvalidHandler? ==> InfixAt(r, e.path, 7) && InfixAt(r, e.handler, 18 + |e.path|)
    ensures e.MissingHandler? ==> r[0] == 'm'
    ensures e.InvalidHandler? ==> r[0] == 'r'
  {
    match e
    case MissingHandler(path) => "missing handler annotation for \"" + path + "\""
    case InvalidHandler(path, handler) =>
      "route [" + path + "] handler [" + handler
      + "] invalid, handler name should only contains letter or digit"
  }

  /** Every error message names the route, and a rejected value is quoted in it too. */
  lemma MessageNamesRoute(e: NameError)
    ensures Contains(Message(e), e.path)
    ensures e.InvalidHandler? ==> Contains(Message(e), e.handler)
  {
    var m := Message(e);
    match e
    case MissingHandler(path) =>
      assert InfixAt(m, path, 32);
    case InvalidHandler(path, handler) =>
      assert InfixAt(m, path, 7);
      assert InfixAt(m, handler, 18 + |path|);
  }

  /** The raw `server.handler` annotation of a route. */
  function HandlerAnnotation(route: Route): Option<string>
  {
    AnnotationValue(route.annotations, SERVER, HANDLER_PROPERTY)
  }

  /** `s` is `r` with one trailing `suffix` taken off when it has one. */
  ghost predicate StrippedOnce(s: string, suffix: string, r: string)
  {
    if HasSuffix(s, suffix) then r + suffix == s else r == s
  }

  /** White space trimmed, then one trailing `handler` and then one trailing `Handler` taken off. */
  function StripHandlerSuffixes(h: string): (r: string)
    ensures |TrimSpace(h)| - |r| in {0, |HANDLER_SUFFIX|, |LOWER_HANDLER_SUFFIX| + |HANDLER_SUFFIX|}
  {
    StripHandlerSuffixesShape(h);
    TrimSuffix(TrimSuffix(TrimSpace(h), LOWER_HANDLER_SUFFIX), HANDLER_SUFFIX)
  }

  /**
   * After trimming white space, one trailing `handler` is taken off when there
   * is one, and then one trailing `Handler`; the result is a prefix of the
   * trimmed annotation.
   */
  lemma StripHandlerSuffixesShape(h: string)
    ensures
      var t := TrimSpace(h);
      var mid := TrimSuffix(t, LOWER_HANDLER_SUFFIX);
      var r := TrimSuffix(mid, HANDLER_SUFFIX);
      && StrippedOnce(t, LOWER_HANDLER_SUFFIX, mid)
      && StrippedOnce(mid, HANDLER_SUFFIX, r)
      && HasPrefix(t, r)
  {
    var t := TrimSpace(h);
    var mid := TrimSuffix(t, LOWER_HANDLER_SUFFIX);
    TrimSuffixShape(t, LOWER_HANDLER_SUFFIX);
    TrimSuffixShape(mid, HANDLER_SUFFIX);
  }

  /**
   * The validated base of a route's handler name: the annotation must exist
   * and hold only letters and digits; then white space is trimmed, and one
   * trailing `handler` and after it one trailing `Handler` are dropped.
   */
  function HandlerBaseName(route: Route): (r: Result<string, NameError>)
    ensures r.Err? ==> r.error.path == route.path
  {
    match HandlerAnnotation(route)
    case None => Err(MissingHandler(route.path))
    case Some(h) =>
      if !AllLetterOrDigit(h) then Err(InvalidHandler(route.path, h))
      else Ok(StripHandlerSuffixes(h))
  }

  /**
   * A base name is rejected exactly when the annotation is missing or holds a
   * character that is neither a letter nor a digit; an accepted one is made of
   * letters and digits, and is the annotation with at most one trailing
   * `handler` and then at most one trailing `Handler` removed (trimming white
   * space changes nothing on such a name).
   */
  lemma BaseNameShape(route: Route)
    ensures HandlerAnnotation(route).None? ==> HandlerBaseName(route) == Err(MissingHandler(route.path))
    ensures HandlerAnnotation(route).Some? ==>
      (HandlerBaseName(route).Err? <==> !AllLetterOrDigit(HandlerAnnotation(route).value))
    ensures HandlerBaseName(route).Ok? ==>
      var h := HandlerAnnotation(route).value;
      var base := HandlerBaseName(route).value;
      && AllLetterOrDigit(h)
      && AllLetterOrDigit(base)
      && StrippedOnce(h, LOWER_HANDLER_SUFFIX, TrimSuffix(h, LOWER_HANDLER_SUFFIX))
      && StrippedOnce(TrimSuffix(h, LOWER_HANDLER_SUFFIX), HANDLER_SUFFIX, base)
  {
    if HandlerBaseName(route).Ok? {
      var h := HandlerAnnotation(route).value;
      assert AllLetterOrDigit(h);
      forall i | 0 <= i < |h| ensures !IsSpace(h[i]) {
        assert IsLetterOrDigit(h[i]);
      }
      TrimSpaceNoSpace(h);
      var mid := TrimSuffix(h, LOWER_HANDLER_SUFFIX);
      var base := TrimSuffix(mid, HANDLER_SUFFIX);
      assert HandlerBaseName(route).value == base;
      forall i | 0 <= i < |base| ensures IsLetterOrDigit(base[i]) {
        assert base[i] == mid[i] == h[i];
      }
    }
  }

  /** The fixed suffixes are letters only. */
  lemma SuffixesAreLetters()
    ensures AllLetterOrDigit(HANDLER_SUFFIX) && AllLetterOrDigit(LOGIC_SUFFIX)
  {
    assert HANDLER_SUFFIX == ['H', 'a', 'n', 'd', 'l', 'e', 'r'];
    assert LOGIC_SUFFIX == ['L', 'o', 'g', 'i', 'c'];
  }

  /** Whether the handler lives outside the default handler folder, which makes its name exported. */
  predicate IsCustomFolder(folder: string)
  {
    folder != HANDLER_DIR
  }

  /**
   * The handler function's name: base name plus `Handler`, and title-cased
   * when the folder is not the default one.
   */
  function HandlerName(route: Route, folder: string): (r: Result<string, NameError>)
    ensures r.Err? <==> HandlerBaseName(route).Err?
    ensures r.Err? ==> r.error == HandlerBaseName(route).error
  {
    match HandlerBaseName(route)
    case Err(e) => Err(e)
    case Ok(base) =>
      var handler := base + HANDLER_SUFFIX;
      if IsCustomFolder(folder) then Ok(Title(handler)) else Ok(handler)
  }

  /** The logic type's name: the same base name plus `Logic`. */
  function LogicName(route: Route): (r: Result<string, NameError>)
    ensures r.Err? <==> HandlerBaseName(route).Err?
    ensures r.Err? ==> r.error == HandlerBaseName(route).error
  {
    match HandlerBaseName(route)
    case Err(e) => Err(e)
    case Ok(base) => Ok(base + LOGIC_SUFFIX)
  }

  /** A route without a `server.handler` annotation gets no name, and the error names its path. */
  lemma MissingAnnotationReported(route: Route, folder: string)
    requires HandlerAnnotation(route).None?
    ensures HandlerName(route, folder) == Err(MissingHandler(route.path))
    ensures LogicName(route) == Err(MissingHandler(route.path))
    ensures Contains(Message(HandlerName(route, folder).error), route.path)
  {
    MessageNamesRoute(MissingHandler(route.path));
  }

  /**
   * A handler annotation is accepted exactly when all its characters are
   * letters or digits; a rejection names both the route and the value.
   */
  lemma InvalidCharacterReported(route: Route, folder: string)
    requires HandlerAnnotation(route).Some?
    ensures HandlerName(route, folder).Err? <==>
      exists i :: 0 <= i < |HandlerAnnotation(route).value| && !IsLetterOrDigit(HandlerAnnotation(route).value[i])
    ensures HandlerName(route, folder).Err? ==>
      && HandlerName(route, folder).error == InvalidHandler(route.path, HandlerAnnotation(route).value)
      && Contains(Message(HandlerName(route, folder).error), route.path)
      && Contains(Message(HandlerName(route, folder).error), HandlerAnnotation(route).value)
  {
    var r := HandlerName(route, folder);
    if r.Err? {
      MessageNamesRoute(r.error);
    }
  }

  /**
   * Every accepted name is made of letters and digits and ends in `Handler`;
   * it is the base name followed by `Handler`, with its first character
   * upper-cased exactly when the folder is a custom one.
   */
  lemma HandlerNameShape(route: Route, folder: string)
    requires HandlerBaseName(route).Ok?
    ensures HandlerName(route, folder).Ok?
    ensures
      var plain := HandlerBaseName(route).value + HANDLER_SUFFIX;
      var name := HandlerName(route, folder).value;
      && name == (if IsCustomFolder(folder) then UpperFirst(plain) else plain)
      && AllLetterOrDigit(name)
      && HasSuffix(name, HANDLER_SUFFIX)
      && |name| == |plain|
      && name[1..] == plain[1..]
  {
    var base := HandlerBaseName(route).value;
    BaseNameShape(route);
    SuffixesAreLetters();
    AppendLetterOrDigit(base, HANDLER_SUFFIX);
    UpperFirstKeepsSuffix(base, HANDLER_SUFFIX);
    TitleOfIdentifier(base + HANDLER_SUFFIX);
  }

  /** The logic name is the base name followed by `Logic`, still letters and digits. */
  lemma LogicNameShape(route: Route)
    requires HandlerBaseName(route).Ok?
    ensures LogicName(route).Ok?
    ensures LogicName(route).value == HandlerBaseName(route).value + LOGIC_SUFFIX
    ensures AllLetterOrDigit(LogicName(route).value)
    ensures HasSuffix(LogicName(route).value, LOGIC_SUFFIX)
  {
    BaseNameShape(route);
    SuffixesAreLetters();
    AppendLetterOrDigit(HandlerBaseName(route).value, LOGIC_SUFFIX);
  }

  /** The value of the route's `server.group` annotation, else the group's, else nothing. */
  function GroupAnnotation(group: Group, route: Route): (r: Option<string>)
    ensures AnnotationKey(SERVER, GROUP_PROPERTY) in route.annotations ==>
      r == Some(route.annotations[AnnotationKey(SERVER, GROUP_PROPERTY)])
    ensures AnnotationKey(SERVER, GROUP_PROPERTY) !in route.annotations ==>
      r == AnnotationValue(group.annotations, SERVER, GROUP_PROPERTY)
  {
    match AnnotationValue(route.annotations, SERVER, GROUP_PROPERTY)
    case Some(v) => Some(v)
    case None => AnnotationValue(group.annotations, SERVER, GROUP_PROPERTY)
  }

  /** One leading and one trailing `/` removed. */
  function TrimSlashes(v: string): (r: string)
    ensures |r| <= |v|
  {
    TrimSuffix(TrimPrefix(v, "/"), "/")
  }

  /**
   * The value is the trimmed segment with the one leading `/` that was
   * removed, if any, in front, and the one trailing `/` that was removed, if
   * any, behind.
   */
  lemma TrimSlashesShape(v: string)
    ensures v == (if HasPrefix(v, "/") then "/" else "") + TrimSlashes(v)
              + (if HasSuffix(TrimPrefix(v, "/"), "/") then "/" else "")
  {
    var slash := "/";
    var t := TrimPrefix(v, slash);
    var r := TrimSuffix(t, slash);
    TrimPrefixShape(v, slash);
    TrimSuffixShape(t, slash);
    var pre := if HasPrefix(v, slash) then slash else "";
    var suf := if HasSuffix(t, slash) then slash else "";
    assert t == r + suf;
    assert v == pre + t;
    assert pre + r + suf == pre + (r + suf);
  }

  /** `path.Join` of a root and one segment, without `path.Clean`'s rewriting. */
  function PathJoin(root: string, segment: string): (r: string)
    ensures segment == "" ==> r == root
    ensures segment != "" ==>
      && |r| == |root| + 1 + |segment|
      && r[..|root|] == root && r[|root|] == '/' && r[|root| + 1..] == segment
  {
    if segment == "" then root else root + "/" + segment
  }

  /**
   * The folder under `root` that the group annotation selects: the root itself
   * when there is no annotation or it is empty, `/` or `//`, otherwise the root
   * joined with the trimmed annotation.
   */
  function FolderPath(root: string, group: Group, route: Route): (r: string)
    ensures GroupAnnotation(group, route).None? ==> r == root
    ensures GroupAnnotation(group, route).Some? ==>
      var segment := TrimSlashes(GroupAnnotation(group, route).value);
      && (segment == "" ==> r == root)
      && (segment != "" ==> HasPrefix(r, root + "/") && r[|root| + 1..] == segment)
    ensures r == root || HasPrefix(r, root + "/")
  {
    match GroupAnnotation(group, route)
    case None => root
    case Some(v) => PathJoin(root, TrimSlashes(v))
  }

  /** The folder that holds a route's handler: under `internal/handler`. */
  function HandlerFolderPath(group: Group, route: Route): (r: string)
    ensures r == HANDLER_DIR || HasPrefix(r, HANDLER_DIR + "/")
  {
    FolderPath(HANDLER_DIR, group, route)
  }

  /** The folder of the logic package a route's handler imports: under `internal/logic`. */
  function LogicFolderPath(group: Group, route: Route): (r: string)
    ensures r == LOGIC_DIR || HasPrefix(r, LOGIC_DIR + "/")
  {
    FolderPath(LOGIC_DIR, group, route)
  }

  /** The route's own `server.group` annotation wins over the group's. */
  lemma RouteAnnotationWins(root: string, group1: Group, group2: Group, route: Route)
    requires AnnotationKey(SERVER, GROUP_PROPERTY) in route.annotations
    ensures FolderPath(root, group1, route) == FolderPath(root, group2, route)
  {
  }

  /** With no `server.group` annotation anywhere, the folders are the fixed defaults. */
  lemma DefaultFolders(group: Group, route: Route)
    requires AnnotationKey(SERVER, GROUP_PROPERTY) !in route.annotations
    requires AnnotationKey(SERVER, GROUP_PROPERTY) !in group.annotations
    ensures HandlerFolderPath(group, route) == "internal/handler"
    ensures LogicFolderPath(group, route) == "internal/logic"
  {
  }

  /** A handler's folder and its logic package's folder carry the same sub-path. */
  lemma HandlerAndLogicFoldersAgree(group: Group, route: Route)
    ensures HandlerFolderPath(group, route)[|HANDLER_DIR|..] == LogicFolderPath(group, route)[|LOGIC_DIR|..]
  {
  }

  /** A `server.group` of `/` or `//` selects the default folder, so the handler name keeps its case. */
  lemma SlashOnlyGroupIsDefault(group: Group, route: Route)
    requires GroupAnnotation(group, route) == Some("/") || GroupAnnotation(group, route) == Some("//")
    ensures HandlerFolderPath(group, route) == HANDLER_DIR
    ensures !IsCustomFolder(HandlerFolderPath(group, route))
  {
  }
}
