/** Strings as Kotlin's string library uses them in the modelled code:
    substring search, case-insensitive comparison, `replace` and `Int.toString()`.

    Case-insensitive comparison takes the case-folding function as a parameter
    `fold`. Kotlin's `ignoreCase` compares two characters as equal when they are
    equal, when their upper-case forms are equal, or when the lower-case forms of
    their upper-case forms are equal; that is exactly `fold(a) == fold(b)` for
    `fold(c) = lowercase(uppercase(c))`. */
module Text {

  import opened Wrappers

  predicate IsPrefix(p: string, s: string) {
    |p| <= |s| && s[..|p|] == p
  }

  /** Kotlin's `s.contains(key)`: `key` occurs somewhere in `s`. */
  predicate Contains(s: string, key: string)
    decreases |s|
  {
    IsPrefix(key, s) || (|s| > 0 && Contains(s[1..], key))
  }

  /** `Contains` agrees with "there is a position where `key` occurs". */
  lemma {:induction false} ContainsAt(s: string, key: string)
    ensures Contains(s, key) <==> exists i :: 0 <= i <= |s| - |key| && IsPrefix(key, s[i..])
    decreases |s|
  {
    assert s[0..] == s;
    if |s| > 0 {
      ContainsAt(s[1..], key);
      if Contains(s[1..], key) {
        var i :| 0 <= i <= |s[1..]| - |key| && IsPrefix(key, s[1..][i..]);
        assert s[1..][i..] == s[i + 1..];
      }
      if exists i :: 0 <= i <= |s| - |key| && IsPrefix(key, s[i..]) {
        var i :| 0 <= i <= |s| - |key| && IsPrefix(key, s[i..]);
        if i > 0 {
          assert s[1..][i - 1..] == s[i..];
          assert IsPrefix(key, s[1..][i - 1..]);
        }
      }
    }
  }

  /** The empty key is contained in every string. */
  lemma ContainsEmpty(s: string)
    ensures Contains(s, "")
  {
    assert IsPrefix("", s);
  }

  /** Every character of `s` passed through `fold`. */
  function Fold(s: string, fold: char -> char): (r: string)
    ensures |r| == |s|
    ensures forall i :: 0 <= i < |s| ==> r[i] == fold(s[i])
  {
    seq(|s|, i requires 0 <= i < |s| => fold(s[i]))
  }

  /** Kotlin's `s.contains(key, ignoreCase = true)`. */
  predicate ContainsIgnoreCase(s: string, key: string, fold: char -> char) {
    Contains(Fold(s, fold), Fold(key, fold))
  }

  /** Kotlin's `a.equals(b, ignoreCase = true)`. */
  predicate EqualsIgnoreCase(a: string, b: string, fold: char -> char) {
    Fold(a, fold) == Fold(b, fold)
  }

  /** An exact occurrence is also a case-insensitive one. */
  lemma {:induction false} ContainsThenContainsIgnoreCase(s: string, key: string, fold: char -> char)
    requires Contains(s, key)
    ensures ContainsIgnoreCase(s, key, fold)
    decreases |s|
  {
    var fs, fk := Fold(s, fold), Fold(key, fold);
    if IsPrefix(key, s) {
      assert fs[..|fk|] == Fold(s[..|key|], fold);
      assert IsPrefix(fk, fs);
    } else {
      ContainsThenContainsIgnoreCase(s[1..], key, fold);
      assert Fold(s[1..], fold) == fs[1..];
    }
  }

  /** Kotlin's `s.replace(pattern, replacement)`: every occurrence of `pattern`,
      found left to right without overlap, is replaced. */
  function ReplaceAll(s: string, pattern: string, replacement: string): string
    requires |pattern| > 0
    decreases |s|
  {
    if |s| < |pattern| then s
    else if IsPrefix(pattern, s) then replacement + ReplaceAll(s[|pattern|..], pattern, replacement)
    else [s[0]] + ReplaceAll(s[1..], pattern, replacement)
  }

  /** A string that does not contain the pattern comes back unchanged. */
  lemma {:induction false} ReplaceAllAbsent(s: string, pattern: string, replacement: string)
    requires |pattern| > 0 && !Contains(s, pattern)
    ensures ReplaceAll(s, pattern, replacement) == s
    decreases |s|
  {
    if |s| >= |pattern| {
      ReplaceAllAbsent(s[1..], pattern, replacement);
      assert [s[0]] + s[1..] == s;
    }
  }

  /** A string that is exactly the pattern becomes exactly the replacement. */
  lemma ReplaceAllWhole(pattern: string, replacement: string)
    requires |pattern| > 0
    ensures ReplaceAll(pattern, pattern, replacement) == replacement
  {
    assert IsPrefix(pattern, pattern);
    assert pattern[|pattern|..] == [];
  }

  /** A key whose first character does not occur in `s` is not contained in `s`. */
  lemma {:induction false} NotContainsFirst(s: string, key: string)
    requires |key| > 0 && key[0] !in s
    ensures !Contains(s, key)
    decreases |s|
  {
    if |s| > 0 {
      assert key[0] !in s[1..] by {
        forall i | 0 <= i < |s[1..]| ensures s[1..][i] != key[0] {
          assert s[1..][i] == s[i + 1];
        }
      }
      NotContainsFirst(s[1..], key);
    }
  }

  /** Replacement goes through a text free of the pattern's first character, then
      replaces the occurrence that follows it. */
  lemma {:induction false} ReplaceAllAfterPlain(a: string, pattern: string, b: string, replacement: string)
    requires |pattern| > 0 && pattern[0] !in a
    ensures ReplaceAll(a + pattern + b, pattern, replacement) == a + replacement + ReplaceAll(b, pattern, replacement)
    decreases |a|
  {
    var s := a + pattern + b;
    if |a| == 0 {
      assert s == pattern + b;
      assert IsPrefix(pattern, s);
      assert s[|pattern|..] == b;
    } else {
      var a' := a[1..];
      assert pattern[0] !in a' by {
        forall i | 0 <= i < |a'| ensures a'[i] != pattern[0] {
          assert a'[i] == a[i + 1];
        }
      }
      assert s[1..] == a' + pattern + b;
      assert !IsPrefix(pattern, s) by {
        assert s[0] == a[0];
      }
      calc {
        ReplaceAll(s, pattern, replacement);
        [s[0]] + ReplaceAll(s[1..], pattern, replacement);
        { ReplaceAllAfterPlain(a', pattern, b, replacement); }
        [a[0]] + (a' + replacement + ReplaceAll(b, pattern, replacement));
        { assert [a[0]] + a' == a; }
        a + replacement + ReplaceAll(b, pattern, replacement);
      }
    }
  }

  /** A text that starts with a plain character string free of the pattern's
      first character, followed by one free of the pattern, is free of it. */
  lemma {:induction false} ContainsAfterPlain(a: string, t: string, pattern: string)
    requires |pattern| > 0 && pattern[0] !in a && !Contains(t, pattern)
    ensures !Contains(a + t, pattern)
    decreases |a|
  {
    if |a| > 0 {
      assert pattern[0] !in a[1..] by {
        forall i | 0 <= i < |a[1..]| ensures a[1..][i] != pattern[0] {
          assert a[1..][i] == a[i + 1];
        }
      }
      ContainsAfterPlain(a[1..], t, pattern);
      assert (a + t)[1..] == a[1..] + t;
      assert (a + t)[0] == a[0];
    } else {
      assert a + t == t;
    }
  }

  /** A prefix of the replaced text that avoids the replacement's first
      character was already a prefix of the original text. */
  lemma {:induction false} ReplaceAllKeepsPlainPrefix(t: string, u: string, pattern: string, replacement: string)
    requires |pattern| > 0 && |replacement| > 0 && replacement[0] !in t
    requires IsPrefix(t, ReplaceAll(u, pattern, replacement))
    ensures IsPrefix(t, u)
    decreases |u|
  {
    var r := ReplaceAll(u, pattern, replacement);
    if |u| < |pattern| {
    } else if IsPrefix(pattern, u) {
      assert r[..|replacement|] == replacement;
    } else if |t| > 0 {
      var r' := ReplaceAll(u[1..], pattern, replacement);
      assert r == [u[0]] + r';
      assert replacement[0] !in t[1..] by {
        forall i | 0 <= i < |t[1..]| ensures t[1..][i] != replacement[0] {
          assert t[1..][i] == t[i + 1];
        }
      }
      assert IsPrefix(t[1..], r') by {
        assert r'[..|t| - 1] == r[1..|t|];
      }
      ReplaceAllKeepsPlainPrefix(t[1..], u[1..], pattern, replacement);
      assert u[..|t|] == [u[0]] + u[1..][..|t| - 1];
      assert t == [t[0]] + t[1..];
    }
  }

  /** When neither of the pattern and the replacement contains the other's first
      character, no occurrence of the pattern survives the replacement. */
  lemma {:induction false} ReplaceAllRemovesAll(s: string, pattern: string, replacement: string)
    requires |pattern| > 0 && |replacement| > 0
    requires pattern[0] !in replacement && replacement[0] !in pattern
    ensures !Contains(ReplaceAll(s, pattern, replacement), pattern)
    decreases |s|
  {
    var r := ReplaceAll(s, pattern, replacement);
    if |s| < |pattern| {
      ContainsAt(r, pattern);
    } else if IsPrefix(pattern, s) {
      ReplaceAllRemovesAll(s[|pattern|..], pattern, replacement);
      ContainsAfterPlain(replacement, ReplaceAll(s[|pattern|..], pattern, replacement), pattern);
    } else {
      var r' := ReplaceAll(s[1..], pattern, replacement);
      assert r == [s[0]] + r';
      ReplaceAllRemovesAll(s[1..], pattern, replacement);
      assert r[1..] == r';
      if IsPrefix(pattern, r) {
        var t := pattern[1..];
        assert replacement[0] !in t by {
          forall i | 0 <= i < |t| ensures t[i] != replacement[0] {
            assert t[i] == pattern[i + 1];
          }
        }
        assert IsPrefix(t, r') by {
          assert r'[..|t|] == r[1..|pattern|];
        }
        assert s[..|pattern|] == [s[0]] + s[1..][..|t|];
        ReplaceAllKeepsPlainPrefix(t, s[1..], pattern, replacement);
        assert false;
      }
    }
  }

  /** A pattern whose first character occurs nowhere else in it does not start
      inside a pattern-free text and run on into a following occurrence. */
  lemma NoOverlapBeforeFree(a: string, pattern: string, rest: string)
    requires |a| > 0 && |pattern| > 0 && pattern[0] !in pattern[1..] && !Contains(a, pattern)
    ensures !IsPrefix(pattern, a + pattern + rest)
  {
    var s := a + pattern + rest;
    if |a| >= |pattern| {
      assert s[..|pattern|] == a[..|pattern|];
    } else {
      assert s[|a|] == pattern[0];
      assert pattern[1..][|a| - 1] == pattern[|a|];
    }
  }

  /** For a pattern whose first character occurs nowhere else in it, replacement
      goes through any text free of the pattern, then replaces the occurrence
      that follows. */
  lemma {:induction false} ReplaceAllAfterFree(a: string, pattern: string, b: string, replacement: string)
    requires |pattern| > 0 && pattern[0] !in pattern[1..] && !Contains(a, pattern)
    ensures ReplaceAll(a + pattern + b, pattern, replacement) == a + replacement + ReplaceAll(b, pattern, replacement)
    decreases |a|
  {
    var s := a + pattern + b;
    if |a| == 0 {
      assert s == pattern + b;
      assert IsPrefix(pattern, s);
      assert s[|pattern|..] == b;
    } else {
      var a' := a[1..];
      var tail := ReplaceAll(b, pattern, replacement);
      assert s[1..] == a' + pattern + b;
      assert !Contains(a', pattern);
      NoOverlapBeforeFree(a, pattern, b);
      ReplaceAllAfterFree(a', pattern, b, replacement);
      assert ReplaceAll(s, pattern, replacement) == [a[0]] + ReplaceAll(s[1..], pattern, replacement);
      assert [a[0]] + (a' + replacement + tail) == a + replacement + tail by {
        assert [a[0]] + a' == a;
      }
    }
  }

  predicate IsDigit(c: char) {
    '0' <= c <= '9'
  }

  function DigitChar(d: nat): (c: char)
    requires d < 10
    ensures IsDigit(c)
  {
    "0123456789"[d]
  }

  /** Decimal digits of a natural number, without leading zeros. */
  function NatToString(n: nat): (r: string)
    ensures |r| > 0 && forall i :: 0 <= i < |r| ==> IsDigit(r[i])
    ensures |r| > 1 ==> r[0] != '0'
    decreases n
  {
    if n < 10 then [DigitChar(n)] else NatToString(n / 10) + [DigitChar(n % 10)]
  }

  /** Kotlin's `Int.toString()` (also what a string template prints). */
  function IntToString(x: int): (r: string)
    ensures |r| > 0
    ensures x < 0 <==> r[0] == '-'
  {
    if x < 0 then "-" + NatToString(-x) else NatToString(x)
  }

  /** What a string template prints for a nullable `Int`. */
  function OptIntToString(x: Option<int>): string {
    match x
    case Some(v) => IntToString(v)
    case None => "null"
  }

  /** What a string template prints for a nullable `String`. */
  function OptToString(s: Option<string>): string {
    s.GetOr("null")
  }
}
