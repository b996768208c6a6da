/** The route listing served by `/heartbeat`, built from the catalog of
    models, and the path pattern each model's route is registered under. */
module Heartbeat {
  import opened Types
  import opened Strings

  /** One catalog entry: the model's constant name and whether its table
      declares a primary key. */
  datatype ModelInfo = ModelInfo(name: string, hasPrimaryKey: bool)

  /** The utility routes listed ahead of the model routes. */
  const FixedRoutes: seq<string> := ["/docs/:table?", "/heartbeat", "/mysqlping", "/listfields"]

  const IdSegment := "/:id"
  const ParamsSuffix := "?<params>"

  /** A character of a Ruby constant name. */
  predicate IsNameChar(c: char)
  {
    ('a' <= c <= 'z') || ('A' <= c <= 'Z') || ('0' <= c <= '9') || c == '_'
  }

  /** Model names are Ruby constant names: letters, digits and underscores. */
  predicate ValidModelName(name: string)
  {
    forall i :: 0 <= i < |name| ==> IsNameChar(name[i])
  }

  /** The listing entry of one model: a slash, the lower-cased name, `/:id`
      for a model with a primary key, and the `?<params>` suffix. */
  function Entry(m: ModelInfo): (e: string)
    ensures |e| == 1 + |m.name| + (if m.hasPrimaryKey then |IdSegment| else 0) + |ParamsSuffix|
    ensures e[0] == '/' && EndsWith(e, ParamsSuffix)
  {
    "/" + Downcase(m.name) + (if m.hasPrimaryKey then IdSegment else "") + ParamsSuffix
  }

  /** One entry per model, in catalog order. */
  function EntityEntries(models: seq<ModelInfo>): (es: seq<string>)
    ensures |es| == |models|
    ensures forall i :: 0 <= i < |models| ==> es[i] == Entry(models[i])
  {
    if |models| == 0 then [] else [Entry(models[0])] + EntityEntries(models[1..])
  }

  /** The `routes` list of the heartbeat reply: the four utility routes, then
      one entry per model in catalog order. */
  function RouteListing(models: seq<ModelInfo>): (routes: seq<string>)
    ensures |routes| == |models| + 4
    ensures routes[..4] == FixedRoutes
    ensures forall i :: 0 <= i < |models| ==> routes[i + 4] == Entry(models[i])
  {
    FixedRoutes + EntityEntries(models)
  }

  /** Reads a listing entry back: the lower-cased model name and whether the
      `/:id` segment is present; `None` for strings that are not model
      entries. */
  function ParseEntry(e: string): Option<(string, bool)>
  {
    if |e| >= 1 + |ParamsSuffix| && e[0] == '/' && EndsWith(e, ParamsSuffix) then
      var core := e[1..|e| - |ParamsSuffix|];
      if EndsWith(core, IdSegment) then Some((core[..|core| - |IdSegment|], true))
      else Some((core, false))
    else None
  }

  /** Lower-casing keeps a constant name free of slashes and question marks. */
  lemma DowncaseKeepsNameChars(name: string)
    requires ValidModelName(name)
    ensures ValidModelName(Downcase(name))
  {
    var d := Downcase(name);
    forall i | 0 <= i < |d|
      ensures IsNameChar(d[i])
    {
      assert IsNameChar(name[i]);
    }
  }

  /** Reading an entry back recovers the lower-cased name and the primary-key
      flag: the entry carries `/:id` exactly when the model has a primary key. */
  lemma ParseEntryInvertsEntry(m: ModelInfo)
    requires ValidModelName(m.name)
    ensures ParseEntry(Entry(m)) == Some((Downcase(m.name), m.hasPrimaryKey))
  {
    var n := Downcase(m.name);
    DowncaseKeepsNameChars(m.name);
    var seg := if m.hasPrimaryKey then IdSegment else "";
    var e := Entry(m);
    assert e == "/" + (n + seg) + ParamsSuffix;
    assert e[|e| - |ParamsSuffix|..] == ParamsSuffix;
    var core := e[1..|e| - |ParamsSuffix|];
    assert core == n + seg;
    if m.hasPrimaryKey {
      assert core[|core| - |IdSegment|..] == IdSegment;
      assert core[..|core| - |IdSegment|] == n;
    } else {
      assert core == n;
      if |n| >= |IdSegment| {
        assert IsNameChar(n[|n| - 4]);
        assert core[|core| - |IdSegment|..][0] != IdSegment[0];
      }
      assert !EndsWith(core, IdSegment);
    }
  }

  /** The whole listing: the utility routes are not read as model entries, and
      entry 4 + i describes model i, so the listing has one model entry per
      catalog model, in order. */
  lemma ListingDescribesModels(models: seq<ModelInfo>)
    requires forall i :: 0 <= i < |models| ==> ValidModelName(models[i].name)
    ensures |RouteListing(models)| == |models| + 4
    ensures forall i :: 0 <= i < 4 ==> ParseEntry(RouteListing(models)[i]) == None
    ensures forall i :: 0 <= i < |models| ==>
      ParseEntry(RouteListing(models)[i + 4]) == Some((Downcase(models[i].name), models[i].hasPrimaryKey))
  {
    var routes := RouteListing(models);
    assert !EndsWith(FixedRoutes[0], ParamsSuffix);
    assert !EndsWith(FixedRoutes[1], ParamsSuffix);
    assert !EndsWith(FixedRoutes[2], ParamsSuffix);
    assert !EndsWith(FixedRoutes[3], ParamsSuffix);
    forall i | 0 <= i < 4
      ensures ParseEntry(routes[i]) == None
    {
      assert routes[i] == FixedRoutes[i];
    }
    forall i | 0 <= i < |models|
      ensures ParseEntry(routes[i + 4]) == Some((Downcase(models[i].name), models[i].hasPrimaryKey))
    {
      ParseEntryInvertsEntry(models[i]);
    }
  }

  /** The Sinatra path pattern a model's route is registered under: the
      optional `:id` capture is present exactly for models with a primary
      key. */
  function EntityRoutePattern(m: ModelInfo): (p: string)
    ensures |p| == |m.name| + 3 + (if m.hasPrimaryKey then 6 else 0)
    ensures p[..|m.name| + 3] == "/" + Downcase(m.name) + "/?"
  {
    "/" + Downcase(m.name) + "/?" + (if m.hasPrimaryKey then ":id?/?" else "")
  }

  /** The registered pattern accepts an id exactly when the listing advertises
      one. */
  lemma PatternAgreesWithListing(m: ModelInfo)
    requires ValidModelName(m.name)
    ensures EndsWith(EntityRoutePattern(m), ":id?/?") <==> ParseEntry(Entry(m)).value.1
  {
    ParseEntryInvertsEntry(m);
    var n := Downcase(m.name);
    DowncaseKeepsNameChars(m.name);
    var p := EntityRoutePattern(m);
    if m.hasPrimaryKey {
      assert p == ("/" + n + "/?") + ":id?/?";
      assert p[|p| - 6..] == ":id?/?";
    } else {
      assert p == "/" + n + "/?";
      if |n| > 0 {
        assert p[|p| - 3] == n[|n| - 1];
        assert IsNameChar(n[|n| - 1]);
      }
      assert p[|p| - 3] != '?';
      assert !EndsWith(p, ":id?/?");
    }
  }
}
