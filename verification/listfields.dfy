/** The `/listfields` route: the filter string becomes a regular expression
    and the columns of the selected tenant's database are kept when their
    names match it. Regular-expression matching itself is the parameter
    `matches(name, pattern)`; only the construction of the pattern is
    modelled. */
module ListFields {
  import opened Types
  import opened Strings
  import opened Envelope
  import Tenancy

  /** One column description; the route reads only its name. */
  datatype Column = Column(columnName: string, attributes: map<string, string>)

  /** Each alternative wrapped as `^alternative$`. */
  function Anchor(alts: seq<string>): (r: seq<string>)
    ensures |r| == |alts|
    ensures forall i :: 0 <= i < |alts| ==> r[i] == "^" + alts[i] + "$"
  {
    if |alts| == 0 then [] else ["^" + alts[0] + "$"] + Anchor(alts[1..])
  }

  /** The alternatives the filter string names: commas and pipes both
      separate them, and empty alternatives at the end are dropped. No
      alternative contains either separator, and the last one is not empty. */
  function Alternatives(fields: string): (alts: seq<string>)
    ensures forall a :: a in alts ==> ',' !in a && '|' !in a
    ensures |alts| > 0 ==> alts[|alts| - 1] != ""
    ensures alts == DropTrailingEmpty(SplitAtEither(fields, ',', '|'))
  {
    var piped := Replace(fields, ',', '|');
    var all := SplitAll(piped, '|');
    SplitAllOfReplace(fields, ',', '|');
    assert forall a :: a in DropTrailingEmpty(all) ==> a in all;
    RubySplit(piped, '|')
  }

  /** Reference split for the filter string read directly: fields between
      occurrences of either of two separators, empty ones included. */
  function SplitAtEither(s: string, a: char, b: char): (parts: seq<string>)
    ensures |parts| >= 1
  {
    if |s| == 0 then [""]
    else
      var rest := SplitAtEither(s[1..], a, b);
      if s[0] == a || s[0] == b then [""] + rest
      else [[s[0]] + rest[0]] + rest[1..]
  }

  /** Turning every `a` into `b` and splitting on `b` splits the original
      string on both `a` and `b`. */
  lemma {:induction false} SplitAllOfReplace(s: string, a: char, b: char)
    ensures SplitAll(Replace(s, a, b), b) == SplitAtEither(s, a, b)
    decreases |s|
  {
    if |s| > 0 {
      var r := Replace(s, a, b);
      assert r[1..] == Replace(s[1..], a, b);
      SplitAllOfReplace(s[1..], a, b);
    }
  }

  /** The pattern built from the `fields` parameter: commas turned into
      pipes, and with `exact` each alternative anchored at both ends. */
  function FilterPattern(fields: string, exact: bool): (pattern: string)
    ensures !exact ==> |pattern| == |fields| && ',' !in pattern
  {
    if exact then Join(Anchor(Alternatives(fields)), '|') else Replace(fields, ',', '|')
  }

  /** Without `exact` the alternatives of the pattern are the fields of the
      filter string split on commas and pipes alike, the empty ones kept
      (trailing ones included, unlike the exact case). */
  lemma LoosePatternAlternatives(fields: string)
    ensures SplitAll(FilterPattern(fields, false), '|') == SplitAtEither(fields, ',', '|')
    ensures Alternatives(fields) == DropTrailingEmpty(SplitAll(FilterPattern(fields, false), '|'))
  {
    SplitAllOfReplace(fields, ',', '|');
  }

  /** With `exact`, splitting the pattern on pipes gives back exactly the
      anchored alternatives, in order; when the filter names no alternative
      at all (it is empty or only separators) the pattern is empty. */
  lemma ExactPatternAlternatives(fields: string)
    ensures Alternatives(fields) == [] ==> FilterPattern(fields, true) == ""
    ensures Alternatives(fields) != [] ==>
      SplitAll(FilterPattern(fields, true), '|') == Anchor(Alternatives(fields))
  {
    var alts := Alternatives(fields);
    var anchored := Anchor(alts);
    if alts != [] {
      forall p | p in anchored
        ensures '|' !in p
      {
        var i :| 0 <= i < |anchored| && anchored[i] == p;
        assert alts[i] in alts;
        assert p == "^" + alts[i] + "$";
      }
      SplitAllJoin(anchored, '|');
    }
  }

  /** `a` is `b` with some elements removed, order kept. */
  predicate IsSubsequence<T(==)>(a: seq<T>, b: seq<T>)
    decreases |b|
  {
    if |a| == 0 then true
    else if |b| == 0 then false
    else (a[0] == b[0] && IsSubsequence(a[1..], b[1..])) || IsSubsequence(a, b[1..])
  }

  /** `keep_if` with the column-name match: the columns kept are exactly the
      matching ones, each as often as it occurs, in their original order. */
  function KeepMatching(cols: seq<Column>, pattern: string, matches: (string, string) -> bool): (kept: seq<Column>)
    ensures |kept| <= |cols|
    ensures IsSubsequence(kept, cols)
    ensures forall c :: multiset(kept)[c] == (if matches(c.columnName, pattern) then multiset(cols)[c] else 0)
    ensures forall c :: c in kept <==> c in cols && matches(c.columnName, pattern)
  {
    if |cols| == 0 then []
    else
      var rest := KeepMatching(cols[1..], pattern, matches);
      assert cols == [cols[0]] + cols[1..];
      if matches(cols[0].columnName, pattern) then
        assert ([cols[0]] + rest)[1..] == rest;
        [cols[0]] + rest
      else rest
  }

  /** The route's reply. `catalog` lists the columns of a database; it is
      asked for the database of the tenant the before filter selected.
      `fields` and `exact` are the query parameters; `exact` counts when it is
      present at all, whatever its value. */
  function ListFieldsReply(cfg: Config, ctx: Context, fields: Option<string>, exact: Option<string>,
                           catalog: string -> seq<Column>, matches: (string, string) -> bool): (r: Reply<Column>)
    ensures WellFormed(r) && r.status == 200
    ensures r.body.count == r.body.returned
    ensures var all := catalog(Tenancy.ProfileFor(cfg, ctx.tenant).database);
            && IsSubsequence(r.body.data.value, all)
            && (fields.None? ==> r.body.data.value == all)
            && (fields.Some? ==>
                  forall c :: multiset(r.body.data.value)[c]
                           == if matches(c.columnName, FilterPattern(fields.value, exact.Some?))
                              then multiset(all)[c] else 0)
  {
    var all := catalog(Tenancy.ProfileFor(cfg, ctx.tenant).database);
    var data := if fields.None? then all else KeepMatching(all, FilterPattern(fields.value, exact.Some?), matches);
    SubsequenceOfItself(all);
    Reply(200, Body(|data|, |data|, Some(data), None))
  }

  /** Keeping every element is a subsequence. */
  lemma {:induction false} SubsequenceOfItself<T>(s: seq<T>)
    ensures IsSubsequence(s, s)
    decreases |s|
  {
    if |s| > 0 {
      SubsequenceOfItself(s[1..]);
    }
  }
}
