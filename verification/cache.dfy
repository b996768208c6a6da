/** The response cache: the before filter (method check, cache lookup,
    connection selection) and the after filter (store-on-miss), as pure step
    functions over an explicit store value. The key is an opaque digest of
    the full request URL, passed in as `digest`. */
module Cache {
  import opened Types
  import Tenancy

  /** One stored response: the body and the expiry it was written with. */
  datatype Entry = Entry(body: string, expires: int)

  /** The shared key-value store, or `Down` when it cannot be reached. */
  datatype Store = Up(entries: map<Key, Entry>) | Down

  /** The configuration has a caching section and the feature flag is on. */
  predicate CachingOn(cfg: Config)
  {
    cfg.caching.Some? && cfg.useRedis
  }

  /** The key the before filter records for this request: the digest of the
      whole URL, computed only when caching is on and the path is not the
      root. Nothing but the URL enters the digest, so the query string is
      taken as written, without reordering its parameters. */
  function CacheKey(cfg: Config, digest: string -> Key, req: Request): (k: Option<Key>)
    ensures k.Some? <==> CachingOn(cfg) && req.pathInfo != "/"
    ensures k.Some? ==> k.value == digest(req.url)
  {
    if CachingOn(cfg) && req.pathInfo != "/" then Some(digest(req.url)) else None
  }

  /** What the before filter decides. `CacheHit` carries the key it looked up
      and the stored body; `StoreFault` is the store raising during the
      lookup; `Continue` carries the request context for the routes. */
  datatype BeforeOutcome =
    | Halt405
    | StoreFault
    | CacheHit(key: Key, body: string)
    | Continue(ctx: Context)

  /** The lookup happens for GET requests when caching is on and the path is
      not the root; note that the empty path is looked up. */
  predicate LooksUp(cfg: Config, req: Request)
  {
    req.verb == "GET" && CachingOn(cfg) && req.pathInfo != "/"
  }

  function Before(cfg: Config, digest: string -> Key, store: Store, req: Request): (o: BeforeOutcome)
    ensures o.Halt405? <==> req.verb != "GET"
    ensures o.StoreFault? <==> LooksUp(cfg, req) && store.Down?
    ensures o.CacheHit? <==> LooksUp(cfg, req) && store.Up? && digest(req.url) in store.entries
    ensures o.CacheHit? ==> o.key == digest(req.url) && o.body == store.entries[o.key].body
    ensures o.Continue? ==> o.ctx == Context(Tenancy.SelectTenant(req.scriptName), CacheKey(cfg, digest, req))
  {
    if req.verb != "GET" then Halt405
    else
      var key := CacheKey(cfg, digest, req);
      if key.Some? && store.Down? then StoreFault
      else if key.Some? && key.value in store.entries then CacheHit(key.value, store.entries[key.value].body)
      else Continue(Context(Tenancy.SelectTenant(req.scriptName), key))
  }

  /** The after filter's guard, all five conjuncts: caching on, no
      `Cache-Hit` header, status exactly 200, and a path that is neither the
      root nor empty. A GET request that passes it is one the before filter
      looked up, so a key was recorded for it. */
  predicate StoreEligible(cfg: Config, req: Request, resp: Response)
    ensures StoreEligible(cfg, req, resp) && req.verb == "GET" ==> LooksUp(cfg, req)
  {
    && CachingOn(cfg)
    && !resp.cacheHit
    && resp.status == 200
    && req.pathInfo != "/"
    && req.pathInfo != ""
  }

  /** The after filter. When its guard holds it overwrites the entry under the
      recorded key with the response body and the configured expiry; every
      other key is left as it was, and when the guard fails nothing changes. */
  function After(cfg: Config, key: Option<Key>, req: Request, resp: Response, store: Store): (s: Store)
    ensures s != store ==> StoreEligible(cfg, req, resp) && key.Some? && store.Up?
    ensures StoreEligible(cfg, req, resp) && key.Some? && store.Up? ==>
      && s.Up?
      && s.entries.Keys == store.entries.Keys + {key.value}
      && s.entries[key.value] == Entry(resp.body, cfg.caching.value.expires)
      && (forall k :: k in store.entries && k != key.value ==> s.entries[k] == store.entries[k])
  {
    if StoreEligible(cfg, req, resp) && key.Some? && store.Up? then
      Up(store.entries[key.value := Entry(resp.body, cfg.caching.value.expires)])
    else store
  }

  /** The lookup depends on the URL alone: two looked-up requests with the
      same URL either both hit, with the same body, or both miss, whatever
      their mount points; the query string is part of the URL as written. */
  lemma SameUrlSameLookup(cfg: Config, digest: string -> Key, store: Store, r1: Request, r2: Request)
    requires LooksUp(cfg, r1) && LooksUp(cfg, r2) && r1.url == r2.url
    ensures Before(cfg, digest, store, r1).CacheHit? <==> Before(cfg, digest, store, r2).CacheHit?
    ensures Before(cfg, digest, store, r1).CacheHit? ==> Before(cfg, digest, store, r1) == Before(cfg, digest, store, r2)
    ensures CacheKey(cfg, digest, r1) == CacheKey(cfg, digest, r2)
  {
  }
}
