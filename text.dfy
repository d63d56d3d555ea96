/** ASCII text primitives behind the storefront's string handling: the `\s`
    character class, `toLowerCase`, `trim`, the replacement of whitespace
    runs (`replace(/\s+/g, c)`) and `includes`. Only ASCII is modelled: a
    character outside 'A'..'Z' is left unchanged by lower-casing, and the
    whitespace class is the six ASCII characters JavaScript puts in `\s`. */
module Text {

  /** `\s` restricted to ASCII: space, tab, line feed, vertical tab, form feed, carriage return. */
  predicate IsSpace(c: char) {
    c == ' ' || '\t' <= c <= '\r'
  }

  predicate IsUpper(c: char) {
    'A' <= c <= 'Z'
  }

  function ToLower(c: char): (d: char)
    ensures !IsUpper(d)
    ensures IsSpace(d) <==> IsSpace(c)
  {
    if IsUpper(c) then (c as int + 32) as char else c
  }

  /** `s.toLowerCase()` on ASCII. */
  function Lower(s: string): string {
    seq(|s|, i requires 0 <= i < |s| => ToLower(s[i]))
  }

  /** Lower-casing keeps the length, leaves no upper case, keeps whitespace where it was, and
      changes nothing in a string without upper case. */
  lemma LowerEffect(s: string)
    ensures |Lower(s)| == |s|
    ensures forall i :: 0 <= i < |s| ==> !IsUpper(Lower(s)[i]) && (IsSpace(Lower(s)[i]) <==> IsSpace(s[i]))
    ensures (forall i :: 0 <= i < |s| ==> !IsUpper(s[i])) ==> Lower(s) == s
  {
  }

  /** The suffix left after removing leading whitespace (`trimStart`). */
  function SkipSpaces(s: string): (r: string)
    ensures |r| <= |s| && r == s[|s| - |r|..]
    ensures r == [] || !IsSpace(r[0])
    ensures forall i :: 0 <= i < |s| - |r| ==> IsSpace(s[i])
  {
    if s != [] && IsSpace(s[0]) then SkipSpaces(s[1..]) else s
  }

  /** The prefix left after removing trailing whitespace (`trimEnd`). */
  function TrimEnd(s: string): (r: string)
    ensures |r| <= |s| && r == s[..|r|]
    ensures r == [] || !IsSpace(r[|r| - 1])
    ensures forall i :: |r| <= i < |s| ==> IsSpace(s[i])
  {
    if s != [] && IsSpace(s[|s| - 1]) then TrimEnd(s[..|s| - 1]) else s
  }

  /** `s.trim()`. */
  function Trim(s: string): string {
    TrimEnd(SkipSpaces(s))
  }

  /** `s.replace(/\s+/g, c)`: every maximal run of whitespace becomes the single character `c`. */
  function ReplaceRuns(s: string, c: char): (r: string)
    ensures |r| <= |s|
    ensures r == [] <==> s == []
    ensures forall x :: x in r ==> x == c || (x in s && !IsSpace(x))
    decreases |s|
  {
    if s == [] then []
    else if IsSpace(s[0]) then
      var t := SkipSpaces(s[1..]);
      assert forall x :: x in t ==> x in s;
      [c] + ReplaceRuns(t, c)
    else
      assert forall x :: x in s[1..] ==> x in s;
      [s[0]] + ReplaceRuns(s[1..], c)
  }

  /** Whitespace is only the plain space, and never two spaces in a row. */
  ghost predicate SingleSpaced(s: string) {
    && (forall i :: 0 <= i < |s| && IsSpace(s[i]) ==> s[i] == ' ')
    && (forall i :: 0 <= i < |s| - 1 ==> !(s[i] == ' ' && s[i + 1] == ' '))
  }

  /** Putting a character in front of a single-spaced string keeps it single-spaced when the
      character is no whitespace other than ' ' and does not make two spaces in a row. */
  lemma ConsSingleSpaced(x: char, t: string)
    requires SingleSpaced(t)
    requires IsSpace(x) ==> x == ' '
    requires x == ' ' && t != [] ==> t[0] != ' '
    ensures SingleSpaced([x] + t)
  {
    var r := [x] + t;
    forall i | 0 < i < |r| ensures r[i] == t[i - 1] {
    }
  }

  /** Collapsing runs into one space leaves a single-spaced string. */
  lemma {:induction false} CollapseIsSingleSpaced(s: string)
    ensures SingleSpaced(ReplaceRuns(s, ' '))
    decreases |s|
  {
    if s != [] {
      if IsSpace(s[0]) {
        var t := SkipSpaces(s[1..]);
        CollapseIsSingleSpaced(t);
        var rest := ReplaceRuns(t, ' ');
        if t != [] {
          assert rest == [t[0]] + ReplaceRuns(t[1..], ' ');
        }
        assert ReplaceRuns(s, ' ') == [' '] + rest;
        ConsSingleSpaced(' ', rest);
      } else {
        CollapseIsSingleSpaced(s[1..]);
        assert ReplaceRuns(s, ' ') == [s[0]] + ReplaceRuns(s[1..], ' ');
        ConsSingleSpaced(s[0], ReplaceRuns(s[1..], ' '));
      }
    }
  }

  /** On a single-spaced string, replacing runs replaces each space by `c` and nothing else. */
  lemma {:induction false} ReplaceRunsOfSingleSpaced(s: string, c: char)
    requires SingleSpaced(s)
    ensures |ReplaceRuns(s, c)| == |s|
    ensures forall i :: 0 <= i < |s| ==> ReplaceRuns(s, c)[i] == if s[i] == ' ' then c else s[i]
    decreases |s|
  {
    if s != [] {
      var tail := s[1..];
      assert SingleSpaced(tail) by {
        forall i | 0 <= i < |tail| ensures tail[i] == s[i + 1] {
        }
      }
      ReplaceRunsOfSingleSpaced(tail, c);
      var rest := ReplaceRuns(tail, c);
      var head := if s[0] == ' ' then c else s[0];
      if IsSpace(s[0]) {
        assert tail != [] ==> !IsSpace(tail[0]);
        assert SkipSpaces(tail) == tail;
      }
      assert ReplaceRuns(s, c) == [head] + rest;
      forall i | 0 < i < |s| ensures ReplaceRuns(s, c)[i] == if s[i] == ' ' then c else s[i] {
        assert ReplaceRuns(s, c)[i] == rest[i - 1] && s[i] == tail[i - 1];
      }
    }
  }

  /** The result of `trim` starts and ends with a non-whitespace character. */
  lemma TrimEnds(s: string)
    ensures Trim(s) != [] ==> !IsSpace(Trim(s)[0]) && !IsSpace(Trim(s)[|Trim(s)| - 1])
  {
    var t := SkipSpaces(s);
    if Trim(s) != [] {
      assert Trim(s)[0] == t[0];
    }
  }

  /** Every character of `trim(s)` is a character of `s`. */
  lemma TrimKeepsCharacters(s: string)
    ensures forall i :: 0 <= i < |Trim(s)| ==> Trim(s)[i] in s
  {
    var t := SkipSpaces(s);
    var r := Trim(s);
    forall i | 0 <= i < |r| ensures r[i] in s {
      assert r[i] == t[i] == s[|s| - |t| + i];
    }
  }

  /** Trimming cuts a slice out of `s`, so it keeps `s` single-spaced. */
  lemma TrimKeepsSingleSpaced(s: string)
    requires SingleSpaced(s)
    ensures SingleSpaced(Trim(s))
  {
    var t := SkipSpaces(s);
    assert SingleSpaced(t);
  }

  /** `trim` leaves a string without leading or trailing whitespace unchanged. */
  lemma TrimUnchanged(s: string)
    requires s == [] || (!IsSpace(s[0]) && !IsSpace(s[|s| - 1]))
    ensures Trim(s) == s
  {
  }

  /** `hay.includes(needle)`. */
  function Contains(hay: string, needle: string): bool {
    needle <= hay || (hay != [] && Contains(hay[1..], needle))
  }
}
