# FishBase API request pipeline, in Dafny

This project models the request pipeline of the FishBase / SeaLifeBase
read-only JSON API (`api.rb`). The application is a Sinatra app with one
before filter and one after filter around a fixed set of routes. The model
covers:

- the **before filter**: non-GET requests are refused with 405, a response
  cache keyed by a digest of the full request URL is read, and the backing
  store connection is chosen by mount point;
- the **after filter**: a 200 response is stored on a cache miss;
- the **trailing-slash redirect** route;
- the **route listing** of `/heartbeat`;
- the **filter-pattern construction** of `/listfields`;
- the **reply envelope** `{count, returned, data, error}` of the
  model-generated entity routes.

Everything is a pure function over immutable values:

- The cache store is a `map<Key, Entry>`, or `Down` when it cannot be reached.
- The URL digest (MD5 in the source) is an opaque function parameter
  `digest: string -> Key`.
- The routes behind the filters are a function parameter
  `routes: (Request, Context) -> Response`.
- The per-request tenant and cache key, which the source keeps in instance
  variables and globals, travel in an explicit `Context` value.

Modules, one per file:

- `Types`: requests, responses, configuration, tenants, context.
- `Strings`: Ruby `gsub`, `split`, `join` and `downcase` on `seq<char>`.
- `Tenancy`: tenant selection, landing page, status probe.
- `Cache`: the before and after filters.
- `Redirect`: the trailing-slash route.
- `Heartbeat`: the route listing and the entity route patterns.
- `Envelope`: the reply body and the entity routes.
- `ListFields`: the `/listfields` route.
- `Pipeline`: one request end to end, and the ordering and
  "nothing else changes" properties.

Behaviours of the code worth knowing, each proved about the model:

- **Unreachable cache store.** The cache lookup raises inside the before
  filter, and the error handler answers 500. No request that would look up
  the cache is served (`Pipeline.DownStoreFaults`).
- **Utility routes in the listing.** The `/heartbeat` listing starts with four
  utility routes: `/docs/:table?`, `/heartbeat`, `/mysqlping` and
  `/listfields` (`Heartbeat.RouteListing`).
- **Tenant selection.** The tenant is chosen from the mount point
  (`script_name`), not from a segment of the path (`Tenancy.SelectTenant`).

## Model

| member | source | states |
|---|---|---|
| Tenancy.SelectTenant | api.rb:45 | Tenant selection is total: `slb` exactly when the mount point is `/sealifebase`, `fb` for every other mount point |
| Tenancy.ProfileFor | api.rb:46 | The connection is opened with the configuration profile of the selected tenant |
| Tenancy.LandingPage | api.rb:88-92 | The landing route sends one of the two index pages |
| Tenancy.LandingPageFollowsTenant | api.rb:89 | The SeaLifeBase index page is sent exactly when the secondary tenant would be selected |
| Tenancy.MysqlPing | api.rb:112-117 | The status probe reports the server up, with the host of the tenant selected for this request |
| Cache.CacheKey | api.rb:34-36 | A key is recorded only when caching is configured, the flag is on and the path is not `/`; it is the digest of the URL alone |
| Cache.Before | api.rb:19-47 | The before filter halts with 405 exactly for non-GET requests. It faults exactly when a lookup meets an unreachable store. It serves a hit exactly when a GET with caching on and a path other than `/` finds its key, returning the stored body. Otherwise it continues with the mount point's tenant and the recorded key |
| Cache.SameUrlSameLookup | api.rb:36-39 | Two looked-up requests with the same URL get the same key and the same lookup result, whatever their mount points; the query string enters the key as written |
| Cache.StoreEligible | api.rb:51-56 | The after filter's five guards; any GET request that passes them is one the before filter looked up, so a key was recorded for it |
| Cache.After | api.rb:49-60 | The store changes only under all five guards and a recorded key. The change overwrites that key with the body and the configured expiry and keeps every other entry |
| Pipeline.Handle | api.rb:19-74 | The response is the before filter's halt (405, the error handler's 500 on a store fault, or the cached body) or else the routes' answer under the context it set up. The after filter runs on every path, on the response actually sent, with the key the before filter recorded |
| Pipeline.NonGetHalts405 | api.rb:29-31 | A non-GET request gets an empty 405 whatever the store and the routes are, and the store is unchanged |
| Pipeline.HitServesStoredBody | api.rb:34-40 | A hit is answered 200 with the stored body and the `Cache-Hit` header, independently of the routes, and the store is unchanged |
| Pipeline.RoutesSeeSelectedTenant | api.rb:44-46 | A request that misses reaches the routes with the tenant of its mount point and its recorded key |
| Pipeline.StoreWrittenExactlyOnEligibleMiss | api.rb:51-58 | The store changes if and only if a GET request missed, the routes answered 200 without `Cache-Hit`, caching is on, the path is neither `/` nor empty, and the new entry differs from the old one. The result is then the old store with the URL's key overwritten |
| Pipeline.RootAndEmptyPathNeverStored | api.rb:35 | The paths `/` and empty are never stored; the empty path is still looked up, so an entry already under its URL's key is served as a hit |
| Pipeline.SecondRequestHits | api.rb:36-39 | After an eligible miss is stored, the same URL is served as a hit with exactly the body first produced, whatever the routes would answer now, and the store stays as it is |
| Pipeline.DownStoreFaults | api.rb:37 | With the store unreachable, every request that would look up the cache is answered 500 and nothing is stored |
| Pipeline.RedirectsNeverStored | api.rb:78-84 | With the redirect route in front of the routes, a redirect answer never changes the store |
| Redirect.Decide | api.rb:78-84 | A redirect is issued exactly when the raw path is `/`, something, then a non-`/` last character, and the query string is absent or empty. The target is the mount point, the URI-unescaped captured path and `/` |
| Redirect.Route | api.rb:78-84 | A redirect answers 302 with the target as location; otherwise the request goes on to the later routes unchanged |
| Redirect.RedirectTargetIsStable | api.rb:78-80 | The target path ends in `/` whatever the unescaping produced, so following the redirect does not redirect again |
| Redirect.QueryStringDecides | api.rb:79-83 | For a path without a trailing slash, the route passes exactly when a non-empty query string is present |
| Heartbeat.Entry | api.rb:97 | An entry starts with `/`, ends with `?<params>`, and is four characters longer exactly for a model with a primary key |
| Heartbeat.EntityEntries | api.rb:96-98 | One listing entry per model, in catalog order |
| Heartbeat.RouteListing | api.rb:95-100 | The listing has the four utility routes first, then one entry per model, so its length is the number of models plus four |
| Heartbeat.ParseEntryInvertsEntry | api.rb:97 | An entry is `/`, the lower-cased name, `/:id` exactly when the model has a primary key, and `?<params>`; reading it back recovers the name and the flag |
| Heartbeat.ListingDescribesModels | api.rb:96-99 | No utility route reads as a model entry, and entry 4 + i describes model i |
| Heartbeat.PatternAgreesWithListing | api.rb:134 | A model's registered route pattern accepts an `:id` exactly when its listing entry advertises one |
| Heartbeat.EntityRoutePattern | api.rb:134 | A route pattern starts with `/`, the lower-cased name and `/?`, followed by `:id?/?` only for a model with a primary key |
| Envelope.Failure | api.rb:139-140 | Every rescued fault becomes a 400 with zero counts, null data and the fault's message |
| Envelope.EntityReply | api.rb:134-141 | Status is 200 exactly when the query returned rows and its count succeeded. Then `count` is the unlimited count, `returned` the number of rows and `data` the rows. An empty result gives 400 with `no results found`, even if the count would have failed. A raised query or count gives 400 with its message. Every reply has the well-formed shape |
| ListFields.Anchor | api.rb:125 | Each alternative becomes `^alternative$`, in order |
| ListFields.Alternatives | api.rb:124-125 | The alternatives are the filter's fields split on commas and pipes alike, trailing empty ones dropped; none contains a separator and the last is not empty |
| ListFields.FilterPattern | api.rb:123-125 | Without `exact`, the pattern is as long as the filter and contains no comma |
| ListFields.LoosePatternAlternatives | api.rb:124 | Without `exact`, the pattern's pipe-separated alternatives are exactly the filter's fields split on commas and pipes alike, empty ones (trailing ones included) kept; the exact case's alternatives are these with the trailing empty ones dropped |
| ListFields.ExactPatternAlternatives | api.rb:125 | With `exact`, splitting the pattern on the pipe character gives exactly the anchored alternatives. The alternatives are the comma- or pipe-separated fields with trailing empty ones dropped. With no alternatives the pattern is empty |
| ListFields.KeepMatching | api.rb:126 | The kept columns are exactly the matching ones, each as many times as it occurs, in their original order: entries are only removed |
| ListFields.ListFieldsReply | api.rb:120-129 | The reply is a 200 whose count equals returned, drawn from the selected tenant's database. With no `fields` it keeps everything; with `fields` it keeps exactly the columns whose names match the pattern, with their multiplicities and order, `exact` honoured for any value |
| Strings.Replace | api.rb:124 | `gsub` of one character: same length, each occurrence replaced, every other character kept |
| Strings.SplitAll | api.rb:125 | Splitting yields at least one field, no field contains the separator or any character absent from the input, and a string without the separator is its own only field |
| Strings.JoinSplitAll | api.rb:125 | Joining the fields of a split with the separator gives back the original string |
| Strings.SplitAllJoin | api.rb:125 | Splitting a join of separator-free fields gives back exactly those fields |
| Strings.Join | api.rb:125 | `join` puts the separator in the result exactly when there are at least two separator-free fields; the result's length is the fields' total plus one per gap |
| Strings.DropTrailingEmpty | api.rb:125 | Ruby's `split` keeps a prefix of the fields, drops only empty ones, and ends with a non-empty field |
| Strings.RubySplit | api.rb:125 | No field of Ruby's `split` contains the separator |
| Strings.Downcase | api.rb:97 | `downcase` keeps the length and lower-cases each ASCII letter |

## Left out

- The Redis client is left out: connection handling, TTL expiry timing, and the window between `exists` and `get` in which an entry may expire. An entry's expiry is recorded in the store but never acts. Presence is plain map membership, as with a boolean `exists`.
- MD5 hashing is left out; the digest is the opaque parameter `digest`.
- ActiveRecord is left out: `establish_connection`, `Models.endpoint`, `Models.list_fields` and schema introspection. Query outcomes are the inputs `Envelope.Query` and the `catalog` function, and connection selection is the `Context.tenant` value.
- Regular-expression matching is the parameter `matches`. An invalid pattern (which would raise and give 500) and unescaped metacharacters in field names are not modelled.
- File I/O is left out: the landing page `send_file` (only the choice of page is modelled), the `/docs` CSV reads and their 404, and YAML configuration loading.
- Sinatra is left out: route matching, JSON serialisation, the fixed response headers and cache-control settings, static-file serving ahead of the filters, and the absolute-URI rewriting of redirect locations. The 404 handler is also left out; its status is not 200, so it is never stored.
- Redirect.Decide: the regular expression `(/.*[^/])$` is modelled for paths without line feeds. Ruby's `.` and `$` treat a line feed specially, and a request line cannot carry a raw one. Sinatra's URI-unescaping of the capture is the opaque parameter `unescape`, not a definition.
- Cache.After: when all five guards hold but no key was recorded, the source would write under a nil key. The model leaves the store unchanged there. `Pipeline.StoreWrittenExactlyOnEligibleMiss` shows that this case cannot arise within one request.
- Strings.Downcase: only ASCII letters are lower-cased. Model names are Ruby constant names.
- The process-wide globals (`$route`, `$use_redis`, the shared connection) and concurrency are left out. Configuration and tenant are explicit per-request values instead.
