/** Values shared by every part of the gateway model: requests, responses,
    configuration, and the per-request context the before filter sets up.
    The source keeps configuration and the active connection in process-wide
    globals; here they are explicit values threaded through each call. */
module Types {

  datatype Option<+T> = None | Some(value: T)

  /** The two backing-store connection profiles, named as in the
      configuration file: `fb` is the primary tenant, `slb` the secondary. */
  datatype Tenant = Fb | Slb

  /** Connection parameters of one tenant (only the fields the routes read). */
  datatype Profile = Profile(host: string, database: string)

  /** The `caching` section of the configuration: the expiry, in seconds,
      handed to every cache write. */
  datatype CacheSettings = CacheSettings(expires: int)

  /** Immutable configuration. `caching` is `None` when the configuration
      file has no caching section; `useRedis` is the process feature flag. */
  datatype Config = Config(caching: Option<CacheSettings>, useRedis: bool, fb: Profile, slb: Profile)

  /** A cache key: the hex digest of a request URL. */
  type Key = string

  /** The parts of a Rack request the core reads; `verb` is the request
      method, and `queryString` is `None` when the environment carries no
      query string at all. */
  datatype Request = Request(verb: string, scriptName: string, pathInfo: string, queryString: Option<string>, url: string)

  /** The parts of a response the filters read or set: status, whether the
      `Cache-Hit` header is present, the redirect target, and the first
      body chunk. */
  datatype Response = Response(status: int, cacheHit: bool, location: Option<string>, body: string)

  /** Per-request state established by the before filter: the tenant whose
      connection is active and the cache key, when one was computed. */
  datatype Context = Context(tenant: Tenant, cacheKey: Option<Key>)
}
