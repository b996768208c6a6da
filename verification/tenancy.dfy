/** Tenant selection from the mount point (`script_name`), and the two
    routes whose only logic is the tenant: the landing page choice and the
    database status probe. */
module Tenancy {
  import opened Types

  /** The mount point under which the secondary tenant is served. */
  const SeaLifeBaseMount := "/sealifebase"

  /** Total: the secondary tenant exactly for the SeaLifeBase mount point,
      the primary tenant for every other mount point, the empty one
      included. */
  function SelectTenant(scriptName: string): (t: Tenant)
    ensures t == Slb <==> scriptName == SeaLifeBaseMount
  {
    if scriptName == SeaLifeBaseMount then Slb else Fb
  }

  /** The configuration entry `db[tenant]` that the connection is opened
      with. */
  function ProfileFor(cfg: Config, t: Tenant): (p: Profile)
    ensures t == Fb ==> p == cfg.fb
    ensures t == Slb ==> p == cfg.slb
  {
    match t
    case Fb => cfg.fb
    case Slb => cfg.slb
  }

  /** The static page the landing route sends, chosen by mount point. */
  function LandingPage(scriptName: string): (page: string)
    ensures page == "/index_sb.html" || page == "/index.html"
  {
    if scriptName == SeaLifeBaseMount then "/index_sb.html" else "/index.html"
  }

  /** The landing page and the connection agree: the SeaLifeBase page is sent
      exactly when the secondary tenant is selected. */
  lemma LandingPageFollowsTenant(scriptName: string)
    ensures LandingPage(scriptName) == "/index_sb.html" <==> SelectTenant(scriptName) == Slb
  {
  }

  /** The status probe's report: the server is up and the host is the one of
      the tenant the before filter selected for this request. */
  datatype Ping = Ping(serverUp: bool, host: string)

  function MysqlPing(cfg: Config, ctx: Context): (r: Ping)
    ensures r.serverUp
    ensures ctx.tenant == Slb ==> r.host == cfg.slb.host
    ensures ctx.tenant == Fb ==> r.host == cfg.fb.host
  {
    Ping(true, ProfileFor(cfg, ctx.tenant).host)
  }
}
