/** Kotlin's list library functions used by the modelled code: `filter`, `find`,
    `minByOrNull` and `maxByOrNull`. */
module Lists {

  import opened Wrappers

  /** Kotlin's `filter`: the elements satisfying `keep`, in order. */
  function Filter<T>(s: seq<T>, keep: T -> bool): (r: seq<T>)
    ensures |r| <= |s|
    ensures forall i :: 0 <= i < |r| ==> keep(r[i])
    decreases |s|
  {
    if s == [] then []
    else (if keep(s[0]) then [s[0]] else []) + Filter(s[1..], keep)
  }

  /** Every element of a filtered sequence comes from the input. */
  lemma {:induction false} FilterFrom<T>(s: seq<T>, keep: T -> bool, j: nat)
    requires j < |Filter(s, keep)|
    ensures exists i :: 0 <= i < |s| && s[i] == Filter(s, keep)[j]
    decreases |s|
  {
    var r := Filter(s, keep);
    if keep(s[0]) && j == 0 {
      assert s[0] == r[0];
    } else {
      var j' := if keep(s[0]) then j - 1 else j;
      FilterFrom(s[1..], keep, j');
      var i :| 0 <= i < |s[1..]| && s[1..][i] == Filter(s[1..], keep)[j'];
      assert s[i + 1] == r[j];
    }
  }

  /** An element of the input that satisfies `keep` is in the filtered sequence. */
  lemma {:induction false} FilterKeeps<T>(s: seq<T>, keep: T -> bool, i: nat)
    requires i < |s| && keep(s[i])
    ensures exists j :: 0 <= j < |Filter(s, keep)| && Filter(s, keep)[j] == s[i]
    decreases |s|
  {
    var r := Filter(s, keep);
    if i == 0 {
      assert r[0] == s[0];
    } else {
      FilterKeeps(s[1..], keep, i - 1);
      var j :| 0 <= j < |Filter(s[1..], keep)| && Filter(s[1..], keep)[j] == s[1..][i - 1];
      var j' := if keep(s[0]) then j + 1 else j;
      assert r[j'] == s[i];
    }
  }

  /** Kotlin's `find`: the first element satisfying `p`, or `null`. */
  function Find<T>(s: seq<T>, p: T -> bool): (r: Option<T>)
    ensures r.None? <==> forall i :: 0 <= i < |s| ==> !p(s[i])
    ensures r.Some? ==> exists i :: 0 <= i < |s| && s[i] == r.value && p(s[i])
                                    && forall j :: 0 <= j < i ==> !p(s[j])
    decreases |s|
  {
    if s == [] then None
    else if p(s[0]) then Some(s[0])
    else
      var r := Find(s[1..], p);
      assert forall i :: 1 <= i < |s| ==> s[i] == s[1..][i - 1];
      r
  }

  /** The position `minByOrNull` picks in a non-empty list: the first element
      whose key is smallest (Kotlin replaces its candidate only on a strictly
      smaller key). */
  function FirstMinIndex<T>(s: seq<T>, key: T -> int): (i: nat)
    requires |s| > 0
    ensures i < |s|
    ensures forall j :: 0 <= j < |s| ==> key(s[i]) <= key(s[j])
    ensures forall j :: 0 <= j < i ==> key(s[j]) > key(s[i])
    decreases |s|
  {
    if |s| == 1 then 0
    else
      var m := 1 + FirstMinIndex(s[1..], key);
      assert s[m] == s[1..][m - 1];
      assert forall j :: 1 <= j < |s| ==> s[j] == s[1..][j - 1];
      if key(s[0]) <= key(s[m]) then 0 else m
  }

  /** The position `maxByOrNull` picks in a non-empty list: the first element
      whose key is largest. */
  function FirstMaxIndex<T>(s: seq<T>, key: T -> int): (i: nat)
    requires |s| > 0
    ensures i < |s|
    ensures forall j :: 0 <= j < |s| ==> key(s[j]) <= key(s[i])
    ensures forall j :: 0 <= j < i ==> key(s[j]) < key(s[i])
    decreases |s|
  {
    if |s| == 1 then 0
    else
      var m := 1 + FirstMaxIndex(s[1..], key);
      assert s[m] == s[1..][m - 1];
      assert forall j :: 1 <= j < |s| ==> s[j] == s[1..][j - 1];
      if key(s[0]) >= key(s[m]) then 0 else m
  }

  /** Kotlin's `minByOrNull`: the first element of smallest key. */
  function MinByOrNull<T>(s: seq<T>, key: T -> int): (r: Option<T>)
    ensures r.None? <==> s == []
    ensures r.Some? ==> exists i :: 0 <= i < |s| && s[i] == r.value && forall j :: 0 <= j < i ==> key(s[j]) > key(r.value)
    ensures r.Some? ==> forall j :: 0 <= j < |s| ==> key(r.value) <= key(s[j])
  {
    if s == [] then None else Some(s[FirstMinIndex(s, key)])
  }

  /** Kotlin's `maxByOrNull`: the first element of largest key. */
  function MaxByOrNull<T>(s: seq<T>, key: T -> int): (r: Option<T>)
    ensures r.None? <==> s == []
    ensures r.Some? ==> exists i :: 0 <= i < |s| && s[i] == r.value && forall j :: 0 <= j < i ==> key(s[j]) < key(r.value)
    ensures r.Some? ==> forall j :: 0 <= j < |s| ==> key(s[j]) <= key(r.value)
  {
    if s == [] then None else Some(s[FirstMaxIndex(s, key)])
  }

  /** Membership in a filtered sequence. */
  lemma {:induction false} FilterIn<T>(s: seq<T>, keep: T -> bool, x: T)
    ensures x in Filter(s, keep) <==> x in s && keep(x)
    decreases |s|
  {
    if s != [] {
      FilterIn(s[1..], keep, x);
      assert s == [s[0]] + s[1..];
    }
  }

  /** Filtering with a predicate that holds everywhere in `s` changes nothing. */
  lemma {:induction false} FilterAll<T>(s: seq<T>, keep: T -> bool)
    requires forall i :: 0 <= i < |s| ==> keep(s[i])
    ensures Filter(s, keep) == s
    decreases |s|
  {
    if s != [] {
      FilterAll(s[1..], keep);
      assert s == [s[0]] + s[1..];
    }
  }

  /** Two filters that split `keep` into disjoint halves split its result: as
      multisets, the two halves add up to the whole. */
  lemma {:induction false} FilterPartition<T>(s: seq<T>, keep: T -> bool, left: T -> bool, right: T -> bool)
    requires forall i :: 0 <= i < |s| ==> (keep(s[i]) <==> left(s[i]) || right(s[i]))
    requires forall i :: 0 <= i < |s| ==> !(left(s[i]) && right(s[i]))
    ensures multiset(Filter(s, left)) + multiset(Filter(s, right)) == multiset(Filter(s, keep))
    decreases |s|
  {
    if s != [] {
      FilterPartition(s[1..], keep, left, right);
    }
  }

  /** A filter keeps every occurrence of what it keeps and none of the rest. */
  lemma {:induction false} FilterMultiplicity<T>(s: seq<T>, keep: T -> bool, x: T)
    ensures multiset(Filter(s, keep))[x] == if keep(x) then multiset(s)[x] else 0
    decreases |s|
  {
    if s != [] {
      FilterMultiplicity(s[1..], keep, x);
      assert s == [s[0]] + s[1..];
    }
  }

  /** `a` is `b` with some elements removed, the rest in the same order. */
  ghost predicate SubsequenceOf<T>(a: seq<T>, b: seq<T>)
    decreases |b|
  {
    if a == [] then true
    else if b == [] then false
    else (a[0] == b[0] && SubsequenceOf(a[1..], b[1..])) || SubsequenceOf(a, b[1..])
  }

  /** A filter keeps the relative order of what it keeps. */
  lemma {:induction false} FilterSubsequence<T>(s: seq<T>, keep: T -> bool)
    ensures SubsequenceOf(Filter(s, keep), s)
    decreases |s|
  {
    if s != [] {
      FilterSubsequence(s[1..], keep);
      var r := Filter(s, keep);
      if keep(s[0]) {
        assert r[0] == s[0] && r[1..] == Filter(s[1..], keep);
      } else {
        assert r == Filter(s[1..], keep);
      }
    }
  }

  /** Filtering distributes over concatenation. */
  lemma {:induction false} FilterConcat<T>(a: seq<T>, b: seq<T>, keep: T -> bool)
    ensures Filter(a + b, keep) == Filter(a, keep) + Filter(b, keep)
    decreases |a|
  {
    if a == [] {
      assert a + b == b;
    } else {
      FilterConcat(a[1..], b, keep);
      assert (a + b)[1..] == a[1..] + b;
    }
  }

  /** Kotlin's `map`. */
  function Map<T, U>(s: seq<T>, f: T -> U): (r: seq<U>)
    ensures |r| == |s| && forall i :: 0 <= i < |s| ==> r[i] == f(s[i])
  {
    seq(|s|, i requires 0 <= i < |s| => f(s[i]))
  }

  lemma MapConcat<T, U>(a: seq<T>, b: seq<T>, f: T -> U)
    ensures Map(a + b, f) == Map(a, f) + Map(b, f)
  {
  }

  /** Filtering and then mapping a sequence that grows by one element. */
  lemma MapFilterSnoc<T, U>(s: seq<T>, x: T, keep: T -> bool, f: T -> U)
    ensures Map(Filter(s + [x], keep), f) == Map(Filter(s, keep), f) + (if keep(x) then [f(x)] else [])
  {
    FilterConcat(s, [x], keep);
    assert Filter([x], keep) == (if keep(x) then [x] else []) + Filter([x][1..], keep);
    MapConcat(Filter(s, keep), Filter([x], keep), f);
  }

  /** What `keep` accepts and what it rejects add up to the whole sequence. */
  lemma {:induction false} FilterComplement<T>(s: seq<T>, keep: T -> bool, drop: T -> bool)
    requires forall i :: 0 <= i < |s| ==> (drop(s[i]) <==> !keep(s[i]))
    ensures |Filter(s, keep)| + |Filter(s, drop)| == |s|
    decreases |s|
  {
    if s != [] {
      FilterComplement(s[1..], keep, drop);
    }
  }
}
