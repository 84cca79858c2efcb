/**
 * A worked instance: a group annotated `server.group: order` with one route
 * whose handler annotation is `create`.
 */
module Example {
  import opened Wrappers
  import opened GoStrings
  import opened Routes
  import opened Naming

  const CREATE_ROUTE := Route("/order", map[AnnotationKey(SERVER, HANDLER_PROPERTY) := "create"], "CreateReq", "CreateResp")
  const ORDER_GROUP := Group(map[AnnotationKey(SERVER, GROUP_PROPERTY) := "order"], [CREATE_ROUTE])

  /** The base name of `create` is `create` itself. */
  lemma ExampleBaseName()
    ensures HandlerBaseName(CREATE_ROUTE) == Ok("create")
  {
    var h := "create";
    assert HandlerAnnotation(CREATE_ROUTE) == Some(h);
    assert AllLetterOrDigit(h);
    BaseNameShape(CREATE_ROUTE);
    TrimSpaceNoSpace(h);
    assert !HasSuffix(h, LOWER_HANDLER_SUFFIX);
    assert !HasSuffix(h, HANDLER_SUFFIX);
  }

  /** The group annotation puts the handler under `internal/handler/order` and its logic under `internal/logic/order`. */
  lemma ExampleFolders()
    ensures HandlerFolderPath(ORDER_GROUP, CREATE_ROUTE) == "internal/handler/order"
    ensures LogicFolderPath(ORDER_GROUP, CREATE_ROUTE) == "internal/logic/order"
  {
    assert GroupAnnotation(ORDER_GROUP, CREATE_ROUTE) == Some("order");
    assert TrimSlashes("order") == "order";
    FolderSpellings();
  }

  /** The example's folders, spelled out. */
  lemma FolderSpellings()
    ensures PathJoin(HANDLER_DIR, "order") == "internal/handler/order"
    ensures PathJoin(LOGIC_DIR, "order") == "internal/logic/order"
  {
  }

  /** The spellings the example's names come to. */
  lemma CreateSpellings()
    ensures UpperFirst("create" + HANDLER_SUFFIX) == "CreateHandler"
    ensures "create" + LOGIC_SUFFIX == "createLogic"
  {
    assert "create" + HANDLER_SUFFIX == "createHandler";
  }

  /** In that custom folder the handler is exported: `CreateHandler`, not `createHandler`; the logic type is `createLogic`. */
  lemma ExampleNames()
    ensures HandlerName(CREATE_ROUTE, "internal/handler/order") == Ok("CreateHandler")
    ensures LogicName(CREATE_ROUTE) == Ok("createLogic")
  {
    ExampleBaseName();
    assert IsCustomFolder("internal/handler/order");
    HandlerNameShape(CREATE_ROUTE, "internal/handler/order");
    CreateSpellings();
  }
}
