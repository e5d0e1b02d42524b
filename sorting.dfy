/** Kotlin's `sortedBy` and `sortedByDescending` over nullable `Comparable` keys.

    Both are stable sorts. Keys compare as Kotlin's `compareValues` does: `null`
    is below every non-null key, numbers by value, strings by character code
    lexicographically. `sortedByDescending` is the same stable sort with the
    comparator reversed. */
module Sorting {

  import opened Lists

  /** A sort key: `null`, an `Int`, a `Double` (without NaN) or a `String`. */
  datatype Key = Null | Num(n: int) | Real(r: real) | Str(s: string)

  /** Lexicographic order of strings by character code (`String.compareTo`). */
  predicate StrLe(a: string, b: string)
    decreases |a|
  {
    if a == [] then true
    else if b == [] then false
    else if a[0] != b[0] then a[0] < b[0]
    else StrLe(a[1..], b[1..])
  }

  function Rank(k: Key): nat {
    match k
    case Null => 0
    case Num(_) => 1
    case Real(_) => 2
    case Str(_) => 3
  }

  /** `compareValues(a, b) <= 0`. Keys of different kinds never meet in the
      modelled code; they are ordered by kind only to keep the order total. */
  predicate KeyLe(a: Key, b: Key) {
    if Rank(a) != Rank(b) then Rank(a) < Rank(b)
    else match a
      case Null => true
      case Num(x) => x <= b.n
      case Real(x) => x <= b.r
      case Str(x) => StrLe(x, b.s)
  }

  lemma {:induction false} StrLeTotal(a: string, b: string)
    ensures StrLe(a, b) || StrLe(b, a)
    decreases |a|
  {
    if a != [] && b != [] && a[0] == b[0] {
      StrLeTotal(a[1..], b[1..]);
    }
  }

  lemma {:induction false} StrLeAntisymmetric(a: string, b: string)
    requires StrLe(a, b) && StrLe(b, a)
    ensures a == b
    decreases |a|
  {
    if a != [] && b != [] {
      StrLeAntisymmetric(a[1..], b[1..]);
      assert a == [a[0]] + a[1..] && b == [b[0]] + b[1..];
    }
  }

  lemma {:induction false} StrLeTransitive(a: string, b: string, c: string)
    requires StrLe(a, b) && StrLe(b, c)
    ensures StrLe(a, c)
    decreases |a|
  {
    if a != [] && b != [] && c != [] && a[0] == b[0] && b[0] == c[0] {
      StrLeTransitive(a[1..], b[1..], c[1..]);
    }
  }

  lemma {:induction false} StrLeReflexive(a: string)
    ensures StrLe(a, a)
    decreases |a|
  {
    if a != [] {
      StrLeReflexive(a[1..]);
    }
  }

  lemma KeyLeTotal(a: Key, b: Key)
    ensures KeyLe(a, b) || KeyLe(b, a)
  {
    if a.Str? && b.Str? {
      StrLeTotal(a.s, b.s);
    }
  }

  lemma KeyLeAntisymmetric(a: Key, b: Key)
    requires KeyLe(a, b) && KeyLe(b, a)
    ensures a == b
  {
    if a.Str? && b.Str? {
      StrLeAntisymmetric(a.s, b.s);
    }
  }

  lemma KeyLeTransitive(a: Key, b: Key, c: Key)
    requires KeyLe(a, b) && KeyLe(b, c)
    ensures KeyLe(a, c)
  {
    if a.Str? && b.Str? && c.Str? {
      StrLeTransitive(a.s, b.s, c.s);
    }
  }

  lemma KeyLeReflexive(a: Key)
    ensures KeyLe(a, a)
  {
    if a.Str? {
      StrLeReflexive(a.s);
    }
  }

  /** May a key `a` stand before a key `b` in the result? */
  predicate Before(a: Key, b: Key, descending: bool) {
    if descending then KeyLe(b, a) else KeyLe(a, b)
  }

  ghost predicate Sorted<T>(s: seq<T>, key: T -> Key, descending: bool) {
    forall i, j :: 0 <= i < j < |s| ==> Before(key(s[i]), key(s[j]), descending)
  }

  /** In an ascending order, the elements with a null key come before all others. */
  lemma NullsFirst<T>(s: seq<T>, key: T -> Key)
    requires Sorted(s, key, false)
    ensures forall i, j :: 0 <= i < |s| && 0 <= j < |s| && key(s[i]) == Null && key(s[j]) != Null ==> i < j
  {
  }

  /** The elements of `s` whose key is `k`, in their order in `s`. */
  function WithKey<T>(s: seq<T>, key: T -> Key, k: Key): seq<T>
    decreases |s|
  {
    if s == [] then []
    else (if key(s[0]) == k then [s[0]] else []) + WithKey(s[1..], key, k)
  }

  /** A stable sort keeps, for every key, the order of the elements with that key. */
  ghost predicate StableFor<T>(input: seq<T>, output: seq<T>, key: T -> Key) {
    forall k :: WithKey(output, key, k) == WithKey(input, key, k)
  }

  /** Places `x` in front of the first element of `ys` that it may stand before. */
  function Insert<T>(x: T, ys: seq<T>, key: T -> Key, descending: bool): (r: seq<T>)
    ensures |r| == |ys| + 1
    ensures multiset(r) == multiset(ys) + multiset{x}
    decreases |ys|
  {
    if ys == [] then [x]
    else if Before(key(x), key(ys[0]), descending) then [x] + ys
    else
      var r := [ys[0]] + Insert(x, ys[1..], key, descending);
      assert ys == [ys[0]] + ys[1..];
      r
  }

  /** Sorts `xs` by `key`, ascending or descending, keeping equal keys in input order. */
  function SortBy<T>(xs: seq<T>, key: T -> Key, descending: bool): (r: seq<T>)
    ensures multiset(r) == multiset(xs)
    decreases |xs|
  {
    if xs == [] then []
    else
      assert xs == [xs[0]] + xs[1..];
      Insert(xs[0], SortBy(xs[1..], key, descending), key, descending)
  }

  /** `SortBy` is a stable sort: its result is ordered, and for every key the
      elements with that key keep their input order. */
  lemma {:induction false} SortByCorrect<T>(xs: seq<T>, key: T -> Key, descending: bool)
    ensures Sorted(SortBy(xs, key, descending), key, descending)
    ensures StableFor(xs, SortBy(xs, key, descending), key)
    decreases |xs|
  {
    if xs != [] {
      var rest := SortBy(xs[1..], key, descending);
      SortByCorrect(xs[1..], key, descending);
      InsertSorted(xs[0], rest, key, descending);
      forall k ensures WithKey(SortBy(xs, key, descending), key, k) == WithKey(xs, key, k) {
        InsertWithKey(xs[0], rest, key, descending, k);
        assert WithKey(xs, key, k) == (if key(xs[0]) == k then [xs[0]] else []) + WithKey(xs[1..], key, k);
      }
    }
  }

  lemma {:induction false} BeforeTotal(a: Key, b: Key, descending: bool)
    ensures Before(a, b, descending) || Before(b, a, descending)
  {
    KeyLeTotal(a, b);
  }

  lemma {:induction false} BeforeTransitive(a: Key, b: Key, c: Key, descending: bool)
    requires Before(a, b, descending) && Before(b, c, descending)
    ensures Before(a, c, descending)
  {
    if descending { KeyLeTransitive(c, b, a); } else { KeyLeTransitive(a, b, c); }
  }

  /** Inserting into a sorted sequence keeps it sorted. */
  lemma {:induction false} InsertSorted<T>(x: T, ys: seq<T>, key: T -> Key, descending: bool)
    requires Sorted(ys, key, descending)
    ensures Sorted(Insert(x, ys, key, descending), key, descending)
    decreases |ys|
  {
    if ys == [] {
      assert Insert(x, ys, key, descending) == [x];
    } else if Before(key(x), key(ys[0]), descending) {
      assert Insert(x, ys, key, descending) == [x] + ys;
      forall j | 0 <= j < |ys| ensures Before(key(x), key(ys[j]), descending) {
        if j > 0 { BeforeTransitive(key(x), key(ys[0]), key(ys[j]), descending); }
      }
      SortedCons(x, ys, key, descending);
    } else {
      BeforeTotal(key(x), key(ys[0]), descending);
      var tail := Insert(x, ys[1..], key, descending);
      assert Insert(x, ys, key, descending) == [ys[0]] + tail;
      InsertSorted(x, ys[1..], key, descending);
      forall j | 0 <= j < |tail| ensures Before(key(ys[0]), key(tail[j]), descending) {
        assert tail[j] in multiset(tail);
        assert tail[j] in multiset(ys[1..]) + multiset{x};
        if tail[j] in multiset(ys[1..]) {
          var m :| 0 <= m < |ys[1..]| && ys[1..][m] == tail[j];
          assert ys[m + 1] == tail[j];
        }
      }
      SortedCons(ys[0], tail, key, descending);
    }
  }

  /** A sorted sequence stays sorted with an element in front that comes before
      all of its elements. */
  lemma SortedCons<T>(y: T, t: seq<T>, key: T -> Key, descending: bool)
    requires Sorted(t, key, descending)
    requires forall j :: 0 <= j < |t| ==> Before(key(y), key(t[j]), descending)
    ensures Sorted([y] + t, key, descending)
  {
    var r := [y] + t;
    forall i, j | 0 <= i < j < |r| ensures Before(key(r[i]), key(r[j]), descending) {
      if i == 0 { assert r[j] == t[j - 1]; } else { assert r[i] == t[i - 1] && r[j] == t[j - 1]; }
    }
  }

  /** Inserting `x` adds it in front of the elements with its key, and nowhere else. */
  lemma {:induction false} InsertWithKey<T>(x: T, ys: seq<T>, key: T -> Key, descending: bool, k: Key)
    ensures WithKey(Insert(x, ys, key, descending), key, k)
         == (if key(x) == k then [x] else []) + WithKey(ys, key, k)
    decreases |ys|
  {
    if ys == [] {
      WithKeyCons(x, [], key, k);
    } else {
      InsertShape(x, ys, key, descending);
      if Insert(x, ys, key, descending) == [x] + ys {
        WithKeyCons(x, ys, key, k);
      } else {
        assert [ys[0]] + ys[1..] == ys;
        InsertWithKey(x, ys[1..], key, descending, k);
        PassOver(ys[0], x, Insert(x, ys[1..], key, descending), ys[1..], key, k);
      }
    }
  }

  /** `Insert` either puts `x` in front, or passes over a first element whose key
      differs from that of `x`. */
  lemma InsertShape<T>(x: T, ys: seq<T>, key: T -> Key, descending: bool)
    requires ys != []
    ensures Insert(x, ys, key, descending) == [x] + ys
         || (key(ys[0]) != key(x) && Insert(x, ys, key, descending) == [ys[0]] + Insert(x, ys[1..], key, descending))
  {
    if !Before(key(x), key(ys[0]), descending) {
      NotBeforeDistinct(key(x), key(ys[0]), descending);
    }
  }

  /** Two sequences of which one is empty can be swapped in front of a third. */
  lemma SwapEmpty<T>(a: seq<T>, b: seq<T>, c: seq<T>)
    requires a == [] || b == []
    ensures a + (b + c) == b + (a + c)
  {
    if a == [] { assert a + (b + c) == b + c; } else { assert b + (a + c) == a + c; }
  }

  /** Putting `y` in front of both sides keeps `x` in front of the elements with
      its key, when `y` has a different key. */
  lemma PassOver<T>(y: T, x: T, t: seq<T>, s: seq<T>, key: T -> Key, k: Key)
    requires key(y) != key(x)
    requires WithKey(t, key, k) == (if key(x) == k then [x] else []) + WithKey(s, key, k)
    ensures WithKey([y] + t, key, k) == (if key(x) == k then [x] else []) + WithKey([y] + s, key, k)
  {
    WithKeyCons(y, t, key, k);
    WithKeyCons(y, s, key, k);
    SwapEmpty(if key(y) == k then [y] else [], if key(x) == k then [x] else [], WithKey(s, key, k));
  }

  /** A key that does not come before another is not equal to it. */
  lemma NotBeforeDistinct(a: Key, b: Key, descending: bool)
    requires !Before(a, b, descending)
    ensures a != b
  {
    KeyLeReflexive(a);
  }

  /** Picking the elements with one key from a sequence with one element in front. */
  lemma WithKeyCons<T>(y: T, s: seq<T>, key: T -> Key, k: Key)
    ensures WithKey([y] + s, key, k) == (if key(y) == k then [y] else []) + WithKey(s, key, k)
  {
    assert ([y] + s)[1..] == s;
  }

  /** A filter keeps the elements of a sorted sequence in sorted order. */
  lemma {:induction false} FilterSorted<T>(s: seq<T>, keep: T -> bool, key: T -> Key, descending: bool)
    requires Sorted(s, key, descending)
    ensures Sorted(Filter(s, keep), key, descending)
    decreases |s|
  {
    if s != [] {
      FilterSorted(s[1..], keep, key, descending);
      var rest := Filter(s[1..], keep);
      forall j | 0 <= j < |rest| ensures Before(key(s[0]), key(rest[j]), descending) {
        FilterFrom(s[1..], keep, j);
      }
    }
  }

  /** Picking the elements with one key and filtering can be done in either order. */
  lemma {:induction false} WithKeyFilter<T>(s: seq<T>, keep: T -> bool, key: T -> Key, k: Key)
    ensures WithKey(Filter(s, keep), key, k) == Filter(WithKey(s, key, k), keep)
    decreases |s|
  {
    if s != [] {
      WithKeyFilter(s[1..], keep, key, k);
      var head := if keep(s[0]) then [s[0]] else [];
      assert Filter(s, keep) == head + Filter(s[1..], keep);
      WithKeyConcat(head, Filter(s[1..], keep), key, k);
      var picked := if key(s[0]) == k then [s[0]] else [];
      FilterConcat(picked, WithKey(s[1..], key, k), keep);
    }
  }

  lemma {:induction false} WithKeyConcat<T>(a: seq<T>, b: seq<T>, key: T -> Key, k: Key)
    ensures WithKey(a + b, key, k) == WithKey(a, key, k) + WithKey(b, key, k)
    decreases |a|
  {
    if a == [] {
      assert a + b == b;
    } else {
      WithKeyConcat(a[1..], b, key, k);
      assert [a[0]] + a[1..] == a;
      assert a + b == [a[0]] + (a[1..] + b);
      WithKeyCons(a[0], a[1..] + b, key, k);
      WithKeyCons(a[0], a[1..], key, k);
      var head := if key(a[0]) == k then [a[0]] else [];
      assert head + (WithKey(a[1..], key, k) + WithKey(b, key, k))
          == (head + WithKey(a[1..], key, k)) + WithKey(b, key, k);
    }
  }

  /** Filtering a stable sort's output is stable against the filtered input. */
  lemma FilterStable<T>(input: seq<T>, output: seq<T>, keep: T -> bool, key: T -> Key)
    requires StableFor(input, output, key)
    ensures StableFor(Filter(input, keep), Filter(output, keep), key)
  {
    forall k ensures WithKey(Filter(output, keep), key, k) == WithKey(Filter(input, keep), key, k) {
      WithKeyFilter(output, keep, key, k);
      WithKeyFilter(input, keep, key, k);
    }
  }
}
