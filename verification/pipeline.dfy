/** One request through the application: the before filter, then either its
    halt or the routes, then the after filter, which runs in every case.
    `routes` stands for everything the routes do with a request that reaches
    them; `digest` for the URL digest. */
module Pipeline {
  import opened Types
  import opened Cache
  import Tenancy
  import Redirect

  /** The reply of the error handler to a fault. */
  const ServerErrorBody := "{\"error\":\"server error\"}"

  /** The response sent and the store afterwards. The response is the before
      filter's halt (405, the error handler's 500 for a store fault, or the
      cached body), or else the routes' answer under the context the filter
      set up. The after filter then runs on the response actually sent, with
      the key the before filter recorded (none when it halted before the
      lookup). */
  function Handle(cfg: Config, digest: string -> Key, store: Store, req: Request,
                  routes: (Request, Context) -> Response): (out: (Response, Store))
    ensures var o := Before(cfg, digest, store, req);
            && (o.Halt405? ==> out.0 == Response(405, false, None, ""))
            && (o.StoreFault? ==> out.0 == Response(500, false, None, ServerErrorBody))
            && (o.CacheHit? ==> out.0 == Response(200, true, None, o.body))
            && (o.Continue? ==> out.0 == routes(req, o.ctx))
    ensures out.1 == After(cfg, if req.verb == "GET" then CacheKey(cfg, digest, req) else None, req, out.0, store)
  {
    match Before(cfg, digest, store, req)
    case Halt405 =>
      var resp := Response(405, false, None, "");
      (resp, After(cfg, None, req, resp, store))
    case StoreFault =>
      var resp := Response(500, false, None, ServerErrorBody);
      (resp, After(cfg, CacheKey(cfg, digest, req), req, resp, store))
    case CacheHit(key, body) =>
      var resp := Response(200, true, None, body);
      (resp, After(cfg, Some(key), req, resp, store))
    case Continue(ctx) =>
      var resp := routes(req, ctx);
      (resp, After(cfg, ctx.cacheKey, req, resp, store))
  }

  /** A request that misses the cache and reaches the routes. */
  predicate Misses(cfg: Config, digest: string -> Key, store: Store, req: Request)
  {
    Before(cfg, digest, store, req).Continue?
  }

  /** A non-GET request is answered 405 with an empty body before the cache or
      a connection is touched: the answer is the same whatever the store holds
      and whatever the routes would do, and the store is left alone. */
  lemma NonGetHalts405(cfg: Config, digest: string -> Key, store: Store, other: Store, req: Request,
                       routes: (Request, Context) -> Response, otherRoutes: (Request, Context) -> Response)
    requires req.verb != "GET"
    ensures Handle(cfg, digest, store, req, routes).0 == Response(405, false, None, "")
    ensures Handle(cfg, digest, store, req, routes).0 == Handle(cfg, digest, other, req, otherRoutes).0
    ensures Handle(cfg, digest, store, req, routes).1 == store
  {
  }

  /** On a hit the stored body is served verbatim with status 200 and the
      `Cache-Hit` header; the routes are never consulted (no tenant is
      selected), and the store is not rewritten. */
  lemma HitServesStoredBody(cfg: Config, digest: string -> Key, entries: map<Key, Entry>, req: Request,
                            routes: (Request, Context) -> Response, otherRoutes: (Request, Context) -> Response)
    requires LooksUp(cfg, req) && digest(req.url) in entries
    ensures Handle(cfg, digest, Up(entries), req, routes).0 == Response(200, true, None, entries[digest(req.url)].body)
    ensures Handle(cfg, digest, Up(entries), req, routes) == Handle(cfg, digest, Up(entries), req, otherRoutes)
    ensures Handle(cfg, digest, Up(entries), req, routes).1 == Up(entries)
  {
  }

  /** A request that reaches the routes does so with the tenant of its mount
      point and the key recorded by the before filter. */
  lemma RoutesSeeSelectedTenant(cfg: Config, digest: string -> Key, store: Store, req: Request,
                                routes: (Request, Context) -> Response)
    requires Misses(cfg, digest, store, req)
    ensures Handle(cfg, digest, store, req, routes).0
         == routes(req, Context(Tenancy.SelectTenant(req.scriptName), CacheKey(cfg, digest, req)))
  {
  }

  /** The store changes exactly when a GET request missed, the routes answered
      200 without the `Cache-Hit` header, caching is on and the path is neither
      the root nor empty; the change overwrites the entry under the digest of
      the URL with the body and the configured expiry, and touches no other
      key. */
  lemma StoreWrittenExactlyOnEligibleMiss(cfg: Config, digest: string -> Key, store: Store, req: Request,
                                          routes: (Request, Context) -> Response)
    ensures var (resp, after) := Handle(cfg, digest, store, req, routes);
            after != store <==>
              (&& Misses(cfg, digest, store, req)
               && StoreEligible(cfg, req, resp)
               && store.Up?
               && (digest(req.url) in store.entries ==> store.entries[digest(req.url)] != Entry(resp.body, cfg.caching.value.expires)))
    ensures var (resp, after) := Handle(cfg, digest, store, req, routes);
            Misses(cfg, digest, store, req) && StoreEligible(cfg, req, resp) && store.Up? ==>
              after == Up(store.entries[digest(req.url) := Entry(resp.body, cfg.caching.value.expires)])
  {
  }

  /** The root path and the empty path are never stored, whatever the routes
      answer; the empty path is still looked up, so an entry some other
      request left under its URL's key is served as a hit. */
  lemma RootAndEmptyPathNeverStored(cfg: Config, digest: string -> Key, store: Store, req: Request,
                                    routes: (Request, Context) -> Response)
    requires req.pathInfo == "/" || req.pathInfo == ""
    ensures Handle(cfg, digest, store, req, routes).1 == store
    ensures req.pathInfo == "" && req.verb == "GET" && CachingOn(cfg) && store.Up? && digest(req.url) in store.entries ==>
      Handle(cfg, digest, store, req, routes).0 == Response(200, true, None, store.entries[digest(req.url)].body)
  {
  }

  /** Read-through round trip: after an eligible miss has been stored, the
      same URL is served from the cache with exactly the body the routes
      produced, marked as a hit, whatever the routes would answer now, and
      the store stays as it is. */
  lemma SecondRequestHits(cfg: Config, digest: string -> Key, store: Store, req: Request,
                          routes: (Request, Context) -> Response, laterRoutes: (Request, Context) -> Response)
    requires Misses(cfg, digest, store, req) && store.Up?
    requires StoreEligible(cfg, req, Handle(cfg, digest, store, req, routes).0)
    ensures var (first, stored) := Handle(cfg, digest, store, req, routes);
            Handle(cfg, digest, stored, req, laterRoutes) == (Response(200, true, None, first.body), stored)
  {
  }

  /** Code behaviour with an unreachable store: every request that would look
      up the cache faults with 500 instead of degrading to a miss. */
  lemma DownStoreFaults(cfg: Config, digest: string -> Key, req: Request, routes: (Request, Context) -> Response)
    requires LooksUp(cfg, req)
    ensures Handle(cfg, digest, Down, req, routes) == (Response(500, false, None, ServerErrorBody), Down)
  {
  }

  /** With the redirect route in front of the routes, a redirect answer is
      never stored. */
  lemma RedirectsNeverStored(cfg: Config, digest: string -> Key, store: Store, req: Request,
                             unescape: string -> string, next: (Request, Context) -> Response)
    requires Redirect.Decide(req, unescape).RedirectTo?
    ensures Handle(cfg, digest, store, req, (r, c) => Redirect.Route(r, c, unescape, next)).1 == store
  {
  }
}
