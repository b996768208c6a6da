/** The Ruby string operations the routes use, on `seq<char>`:
    `gsub` of one character, `split` on a one-character separator, `join`,
    and ASCII `downcase`. */
module Strings {

  /** `s.gsub(from, to)` for one-character patterns. */
  function Replace(s: string, from: char, to: char): (r: string)
    ensures |r| == |s|
    ensures forall i :: 0 <= i < |s| ==> r[i] == (if s[i] == from then to else s[i])
    ensures from != to ==> from !in r
  {
    if |s| == 0 then ""
    else [if s[0] == from then to else s[0]] + Replace(s[1..], from, to)
  }

  /** Every field between occurrences of `sep`, empty ones included:
      a string with n separators has n + 1 fields. */
  function SplitAll(s: string, sep: char): (parts: seq<string>)
    ensures |parts| >= 1
    ensures forall p :: p in parts ==> sep !in p
    ensures sep !in s ==> parts == [s]
    ensures forall p :: p in parts ==> forall c :: c in p ==> c in s
  {
    if |s| == 0 then [""]
    else
      var rest := SplitAll(s[1..], sep);
      assert forall c :: c in s[1..] ==> c in s;
      if s[0] == sep then [""] + rest
      else
        assert s == [s[0]] + s[1..];
        assert rest[0] in rest;
        var head := [s[0]] + rest[0];
        assert forall c :: c in head ==> c in s;
        assert forall p :: p in [head] + rest[1..] ==> p == head || p in rest;
        [head] + rest[1..]
  }

  /** Fields glued back together with `sep` between neighbours (Ruby's
      `join`): the separator appears in the result exactly when there are at
      least two fields free of it, and the result is as long as the fields
      together plus one separator between each neighbouring pair. */
  function Join(parts: seq<string>, sep: char): (r: string)
    ensures (forall p :: p in parts ==> sep !in p) ==> (sep in r <==> |parts| >= 2)
    ensures |parts| >= 1 ==> |r| == TotalLength(parts) + |parts| - 1
  {
    if |parts| == 0 then ""
    else if |parts| == 1 then parts[0]
    else parts[0] + [sep] + Join(parts[1..], sep)
  }

  /** The lengths of all the strings in `parts`, added up. */
  function TotalLength(parts: seq<string>): nat
  {
    if |parts| == 0 then 0 else |parts[0]| + TotalLength(parts[1..])
  }

  /** Drops empty strings from the end of `parts`, as Ruby's `split` does
      when it is given no limit. */
  function DropTrailingEmpty(parts: seq<string>): (r: seq<string>)
    ensures |r| <= |parts| && r == parts[..|r|]
    ensures |r| > 0 ==> r[|r| - 1] != ""
    ensures forall i :: |r| <= i < |parts| ==> parts[i] == ""
  {
    if |parts| > 0 && parts[|parts| - 1] == "" then DropTrailingEmpty(parts[..|parts| - 1])
    else parts
  }

  /** Ruby's `s.split(sep)` for a one-character separator other than a space. */
  function RubySplit(s: string, sep: char): (parts: seq<string>)
    ensures forall p :: p in parts ==> sep !in p
  {
    var all := SplitAll(s, sep);
    var r := DropTrailingEmpty(all);
    assert forall p :: p in r ==> p in all;
    r
  }

  /** Splitting and joining again gives back the original string. */
  lemma {:induction false} JoinSplitAll(s: string, sep: char)
    ensures Join(SplitAll(s, sep), sep) == s
    decreases |s|
  {
    if |s| > 0 {
      var rest := SplitAll(s[1..], sep);
      JoinSplitAll(s[1..], sep);
      if s[0] == sep {
        assert SplitAll(s, sep) == [""] + rest;
        assert ([""] + rest)[1..] == rest;
        assert s == [sep] + s[1..];
      } else {
        var parts := SplitAll(s, sep);
        assert parts == [[s[0]] + rest[0]] + rest[1..];
        if |rest| == 1 {
          assert s == [s[0]] + rest[0];
        } else {
          assert parts[1..] == rest[1..];
          assert Join(rest, sep) == rest[0] + [sep] + Join(rest[1..], sep);
          assert s == [s[0]] + s[1..];
        }
      }
    }
  }

  /** A field free of the separator followed by a separator is peeled off
      as the first field. */
  lemma {:induction false} SplitAllAfterField(a: string, sep: char, b: string)
    requires sep !in a
    ensures SplitAll(a + [sep] + b, sep) == [a] + SplitAll(b, sep)
    decreases |a|
  {
    var s := a + [sep] + b;
    if |a| == 0 {
      assert s == [sep] + b;
      assert s[1..] == b;
    } else {
      assert s[1..] == a[1..] + [sep] + b;
      SplitAllAfterField(a[1..], sep, b);
      assert [a[0]] + a[1..] == a;
    }
  }

  /** Joining fields free of the separator and splitting again gives back
      exactly those fields. */
  lemma {:induction false} SplitAllJoin(parts: seq<string>, sep: char)
    requires |parts| >= 1
    requires forall p :: p in parts ==> sep !in p
    ensures SplitAll(Join(parts, sep), sep) == parts
    decreases |parts|
  {
    if |parts| == 1 {
      assert parts[0] in parts;
      assert parts == [parts[0]];
    } else {
      assert parts[0] in parts;
      assert forall p :: p in parts[1..] ==> p in parts;
      SplitAllJoin(parts[1..], sep);
      SplitAllAfterField(parts[0], sep, Join(parts[1..], sep));
      assert parts == [parts[0]] + parts[1..];
    }
  }

  predicate IsUpper(c: char) { 'A' <= c <= 'Z' }

  /** Ruby's `downcase` on one character, for ASCII letters. */
  function LowerChar(c: char): (d: char)
    ensures IsUpper(c) ==> d as int == c as int + 32
    ensures !IsUpper(c) ==> d == c
  {
    if IsUpper(c) then (c as int + 32) as char else c
  }

  /** Ruby's `downcase` restricted to ASCII letters. */
  function Downcase(s: string): (r: string)
    ensures |r| == |s|
    ensures forall i :: 0 <= i < |s| ==> r[i] == LowerChar(s[i])
  {
    if |s| == 0 then "" else [LowerChar(s[0])] + Downcase(s[1..])
  }

  predicate EndsWith(s: string, suffix: string)
  {
    |suffix| <= |s| && s[|s| - |suffix|..] == suffix
  }
}
