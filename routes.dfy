/**
 * The slice of goctl's API description that the handler merger reads: groups
 * of routes, each carrying annotations such as `server.handler` and
 * `server.group`.
 */
module Routes {
  import opened Wrappers

  /** An annotation is addressed by its category (`server`) and its key (`handler`, `group`). */
  datatype AnnotationKey = AnnotationKey(category: string, key: string)

  type Annotations = map<AnnotationKey, string>

  /**
   * One endpoint.  `requestType` and `responseType` are the type names; an
   * empty name means the route has no request or no response body.
   */
  datatype Route = Route(
    path: string,
    annotations: Annotations,
    requestType: string,
    responseType: string)

  /** A bundle of routes sharing annotations. */
  datatype Group = Group(annotations: Annotations, routes: seq<Route>)

  const SERVER := "server"
  const HANDLER_PROPERTY := "handler"
  const GROUP_PROPERTY := "group"

  /** The value annotated under `category.key`, if there is one. */
  function AnnotationValue(annotations: Annotations, category: string, key: string): (r: Option<string>)
    ensures r.Some? <==> AnnotationKey(category, key) in annotations
    ensures r.Some? ==> r.value == annotations[AnnotationKey(category, key)]
  {
    var k := AnnotationKey(category, key);
    if k in annotations then Some(annotations[k]) else None
  }
}
