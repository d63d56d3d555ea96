/** Delimited multi-value lists as the storefront keeps them in one query
    parameter: `String.prototype.split(d)`, `Array.prototype.join(d)` and the
    `.filter(Boolean)` that drops empty segments. */
module Delimited {
  import opened Seqs

  /** `s.split(d)`: the segments between occurrences of `d`; an empty string gives `[""]`. */
  function Split(s: string, d: char): (parts: seq<string>)
    ensures |parts| >= 1
    ensures forall i :: 0 <= i < |parts| ==> d !in parts[i]
  {
    if s == [] then [[]]
    else
      var rest := Split(s[1..], d);
      if s[0] == d then [[]] + rest
      else [[s[0]] + rest[0]] + rest[1..]
  }

  /** `parts.join(d)`. */
  function Join(parts: seq<string>, d: char): string {
    if |parts| == 0 then []
    else if |parts| == 1 then parts[0]
    else parts[0] + [d] + Join(parts[1..], d)
  }

  predicate NonEmpty(s: string) {
    s != []
  }

  /** `s.split(d).filter(Boolean)`. */
  function Parse(s: string, d: char): (r: seq<string>)
    ensures forall i :: 0 <= i < |r| ==> r[i] != [] && d !in r[i]
  {
    Filter(NonEmpty, Split(s, d))
  }

  /** Splitting `p + [c] + t` when `p` has no `c` in it yields `p` followed by the segments of `t`. */
  lemma {:induction false} SplitPrefix(p: string, t: string, d: char)
    requires d !in p
    ensures Split(p + [d] + t, d) == [p] + Split(t, d)
  {
    if p == [] {
      assert [] + [d] + t == [d] + t;
      assert ([d] + t)[1..] == t;
    } else {
      SplitPrefix(p[1..], t, d);
      var s := p + [d] + t;
      assert s[0] == p[0] && s[1..] == p[1..] + [d] + t;
      var rest := Split(s[1..], d);
      assert rest[0] == p[1..] && rest[1..] == Split(t, d);
      assert [p[0]] + p[1..] == p;
    }
  }

  /** A string without `d` is a single segment. */
  lemma {:induction false} SplitWithout(p: string, d: char)
    requires d !in p
    ensures Split(p, d) == [p]
  {
    if p != [] {
      SplitWithout(p[1..], d);
      assert [p[0]] + p[1..] == p;
    }
  }

  /** Splitting undoes joining segments that do not contain the delimiter. */
  lemma {:induction false} SplitJoin(parts: seq<string>, d: char)
    requires |parts| >= 1
    requires forall i :: 0 <= i < |parts| ==> d !in parts[i]
    ensures Split(Join(parts, d), d) == parts
  {
    if |parts| == 1 {
      SplitWithout(parts[0], d);
    } else {
      SplitJoin(parts[1..], d);
      SplitPrefix(parts[0], Join(parts[1..], d), d);
      assert [parts[0]] + parts[1..] == parts;
    }
  }

  /** Joining undoes splitting: no character of `s` is lost or added. */
  lemma {:induction false} JoinSplit(s: string, d: char)
    ensures Join(Split(s, d), d) == s
  {
    if s != [] {
      var rest := Split(s[1..], d);
      JoinSplit(s[1..], d);
      if s[0] == d {
        assert Split(s, d) == [[]] + rest;
        assert ([[]] + rest)[1..] == rest;
        assert [d] + s[1..] == s;
      } else {
        var parts := [[s[0]] + rest[0]] + rest[1..];
        assert Split(s, d) == parts;
        if |rest| == 1 {
          assert [s[0]] + s[1..] == s;
        } else {
          assert parts[1..] == rest[1..];
          assert Join(rest, d) == rest[0] + [d] + Join(rest[1..], d);
          assert [s[0]] + s[1..] == s;
        }
      }
    }
  }

  /** Joining non-empty values free of `d` and parsing the result gives the values back,
      including the empty list, which joins to the empty string. */
  lemma ParseJoin(values: seq<string>, d: char)
    requires forall i :: 0 <= i < |values| ==> values[i] != [] && d !in values[i]
    ensures Parse(Join(values, d), d) == values
  {
    if values != [] {
      SplitJoin(values, d);
      FilterAll(NonEmpty, values);
    }
  }
}
