/** `pickRandomElmsNoDupe` (scripts/globals.js): a Fisher–Yates shuffle of a copy of the
    array, then its first `count` elements. `Math.floor(Math.random() * (i + 1))` is
    replaced by `draws[i]`, a given index with `0 <= draws[i] <= i`. */
module RandomSample {
  import opened Seqs

  /** `Math.min(Math.max(count, 0), length)`. */
  function SampleSize(count: int, length: nat): (c: nat)
    ensures c <= length
    ensures count <= 0 ==> c == 0
    ensures 0 <= count <= length ==> c == count
    ensures count >= length ==> c == length
  {
    if count <= 0 then 0 else if count <= length then count else length
  }

  /** The draws the loop may consume: one index in `[0, i]` for every `i >= 1`. */
  ghost predicate ValidDraws(draws: seq<int>, n: nat) {
    |draws| == n && forall i :: 1 <= i < n ==> 0 <= draws[i] <= i
  }

  /** `[copy[i], copy[j]] = [copy[j], copy[i]]`. */
  function Swap<T>(s: seq<T>, i: nat, j: nat): (r: seq<T>)
    requires i < |s| && j < |s|
    ensures |r| == |s|
    ensures r[i] == s[j] && r[j] == s[i]
    ensures forall k :: 0 <= k < |s| && k != i && k != j ==> r[k] == s[k]
  {
    s[i := s[j]][j := s[i]]
  }

  /** The copy once the loop has swapped positions `i`, `i - 1`, ..., `1`, in that order. */
  function ShuffleDown<T>(s: seq<T>, draws: seq<int>, i: int): (r: seq<T>)
    requires ValidDraws(draws, |s|) && i < |s|
    ensures |r| == |s|
    decreases i
  {
    if i <= 0 then s else ShuffleDown(Swap(s, i, draws[i]), draws, i - 1)
  }

  /** The whole shuffle: the loop from the last index down to 1. */
  function Shuffle<T>(s: seq<T>, draws: seq<int>): (r: seq<T>)
    requires ValidDraws(draws, |s|)
    ensures |r| == |s|
  {
    ShuffleDown(s, draws, |s| - 1)
  }

  /** A swap is a permutation. */
  lemma SwapPermutes<T>(s: seq<T>, i: nat, j: nat)
    requires i < |s| && j < |s|
    ensures multiset(Swap(s, i, j)) == multiset(s)
  {
    var t := s[i := s[j]];
    assert multiset(t) == multiset(s) - multiset{s[i]} + multiset{s[j]};
  }

  /** A swap keeps a sequence free of duplicates. */
  lemma SwapKeepsDistinct<T>(s: seq<T>, i: nat, j: nat)
    requires i < |s| && j < |s| && Distinct(s)
    ensures Distinct(Swap(s, i, j))
  {
    var r := Swap(s, i, j);
    forall a, b | 0 <= a < b < |r| ensures r[a] != r[b] {
      var a' := if a == i then j else if a == j then i else a;
      var b' := if b == i then j else if b == j then i else b;
      assert r[a] == s[a'] && r[b] == s[b'];
    }
  }

  /** The shuffle is a permutation of its input, and keeps a duplicate-free input free of duplicates. */
  lemma ShuffleDownPermutes<T>(s: seq<T>, draws: seq<int>, i: int)
    requires ValidDraws(draws, |s|) && i < |s|
    ensures multiset(ShuffleDown(s, draws, i)) == multiset(s)
    ensures Distinct(s) ==> Distinct(ShuffleDown(s, draws, i))
  {
    ShuffleDownKeepsMultiset(s, draws, i);
    if Distinct(s) {
      ShuffleDownKeepsDistinct(s, draws, i);
    }
  }

  lemma {:induction false} ShuffleDownKeepsMultiset<T>(s: seq<T>, draws: seq<int>, i: int)
    requires ValidDraws(draws, |s|) && i < |s|
    ensures multiset(ShuffleDown(s, draws, i)) == multiset(s)
    decreases i
  {
    if i > 0 {
      SwapPermutes(s, i, draws[i]);
      ShuffleDownKeepsMultiset(Swap(s, i, draws[i]), draws, i - 1);
    }
  }

  lemma {:induction false} ShuffleDownKeepsDistinct<T>(s: seq<T>, draws: seq<int>, i: int)
    requires ValidDraws(draws, |s|) && i < |s| && Distinct(s)
    ensures Distinct(ShuffleDown(s, draws, i))
    decreases i
  {
    if i > 0 {
      SwapKeepsDistinct(s, i, draws[i]);
      ShuffleDownKeepsDistinct(Swap(s, i, draws[i]), draws, i - 1);
    }
  }

  /** A draw sequence that always picks the current index leaves the order unchanged. */
  lemma {:induction false} IdentityDrawsKeepOrder<T>(s: seq<T>, draws: seq<int>, i: int)
    requires ValidDraws(draws, |s|) && i < |s|
    requires forall k :: 1 <= k < |s| ==> draws[k] == k
    ensures ShuffleDown(s, draws, i) == s
    decreases i
  {
    if i > 0 {
      assert Swap(s, i, draws[i]) == s;
      IdentityDrawsKeepOrder(s, draws, i - 1);
    }
  }

  /** Any prefix of the shuffle draws each element at most as often as the input holds it,
      and has no duplicates when the input has none. */
  lemma ShuffledPrefix<T>(s: seq<T>, draws: seq<int>, c: nat)
    requires ValidDraws(draws, |s|) && c <= |s|
    ensures multiset(Shuffle(s, draws)[..c]) <= multiset(s)
    ensures Distinct(s) ==> Distinct(Shuffle(s, draws)[..c])
  {
    var shuffled := Shuffle(s, draws);
    var r := shuffled[..c];
    ShuffleDownPermutes(s, draws, |s| - 1);
    assert shuffled == r + shuffled[c..];
    assert multiset(shuffled) == multiset(r) + multiset(shuffled[c..]);
    assert forall x, y :: 0 <= x < y < |r| ==> r[x] == shuffled[x] && r[y] == shuffled[y];
  }

  /** `pickRandomElmsNoDupe(array, count)`: the first `SampleSize(count, n)` elements of the
      shuffled copy. `a` itself is only read. */
  method PickRandomNoDupe<T(==)>(a: array<T>, count: int, draws: seq<int>) returns (r: seq<T>)
    requires ValidDraws(draws, a.Length)
    ensures |r| == SampleSize(count, a.Length)
    ensures r == Shuffle(a[..], draws)[..|r|]
    ensures multiset(r) <= multiset(a[..])
    ensures Distinct(a[..]) ==> Distinct(r)
  {
    var c := SampleSize(count, a.Length);
    var copy := new T[a.Length](k requires 0 <= k < a.Length reads a => a[k]);
    assert copy[..] == a[..];
    var i := copy.Length - 1;
    while i > 0
      invariant -1 <= i < copy.Length
      invariant ShuffleDown(copy[..], draws, i) == Shuffle(a[..], draws)
      decreases i
    {
      var j := draws[i];
      ghost var before := copy[..];
      copy[i], copy[j] := copy[j], copy[i];
      assert copy[..] == Swap(before, i, j);
      i := i - 1;
    }
    r := copy[..c];
    ShuffledPrefix(a[..], draws, c);
  }
}
