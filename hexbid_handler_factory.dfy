/**
 * Routing: the server's handler factory maps a request path to one of the
 * registered handlers, or to the default (404) handler.
 */
module HexbidHandlerFactory {

  /** The handlers the factory can return. */
  datatype Handler = Health | Var | Bid | Default

  const HEALTH_PATH: string := "/health"
  const VAR_PATH: string := "/var"
  const BID_PATH: string := "/bid"

  /** The registry built once in the constructor and never changed. */
  const REGISTRY: map<string, Handler> := map[HEALTH_PATH := Health, VAR_PATH := Var, BID_PATH := Bid]

  /** `getHandler`: the registered handler for a path, looked up by exact
      string equality, or a fresh default handler for any other path. */
  function GetHandler(path: string): (h: Handler)
    ensures h == Bid <==> path == BID_PATH
    ensures h == Health <==> path == HEALTH_PATH
    ensures h == Var <==> path == VAR_PATH
    ensures h == Default <==> path !in {BID_PATH, HEALTH_PATH, VAR_PATH}
  {
    if path in REGISTRY then REGISTRY[path] else Default
  }

  /** Matching is exact and case-sensitive: other spellings, and paths with
      a trailing slash, fall to the default handler. */
  lemma ExactMatchOnly()
    ensures GetHandler("/bid") == Bid && GetHandler("/health") == Health && GetHandler("/var") == Var
    ensures GetHandler("random") == Default
    ensures GetHandler("/BID") == Default
    ensures GetHandler("/bid/") == Default
    ensures GetHandler("") == Default
  {
    assert "/BID"[1] != "/bid"[1];
  }
}
