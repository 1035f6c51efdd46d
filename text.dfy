/**
 * The ordinal string operations of .NET that the manager commands use:
 * `string.Contains(string)`, `string.Replace(string, string)`,
 * `string.Replace(char, char)` and `string.ToLower()`.
 * Strings are sequences of Unicode characters; `Utf16Length` gives the
 * length .NET reports, which counts UTF-16 code units.
 */
module Text {

  /** `p` occurs in `s` at index `i`. */
  predicate OccursAt(s: string, i: int, p: string)
  {
    0 <= i && i + |p| <= |s| && s[i..i + |p|] == p
  }

  /** `s.Contains(p)`, ordinal comparison. */
  predicate Contains(s: string, p: string)
  {
    exists i | 0 <= i <= |s| :: OccursAt(s, i, p)
  }

  /** Index of the first occurrence of `p` in `s` at or after `k`, or -1. */
  function IndexOfFrom(s: string, p: string, k: nat): (r: int)
    requires k <= |s|
    ensures r == -1 || k <= r
    ensures r == -1 ==> forall i :: k <= i ==> !OccursAt(s, i, p)
    ensures r >= 0 ==> OccursAt(s, r, p) && forall i :: k <= i < r ==> !OccursAt(s, i, p)
    decreases |s| - k
  {
    if k + |p| > |s| then -1
    else if s[k..k + |p|] == p then k
    else IndexOfFrom(s, p, k + 1)
  }

  /** `s.IndexOf(p)`: the first index at which `p` occurs, or -1 when it does not occur. */
  function IndexOf(s: string, p: string): (r: int)
    ensures r == -1 <==> !Contains(s, p)
    ensures r >= 0 ==> OccursAt(s, r, p) && forall i :: 0 <= i < r ==> !OccursAt(s, i, p)
  {
    IndexOfFrom(s, p, 0)
  }

  /**
   * `s.Replace(p, r)`: scans `s` from the left and puts `r` in place of every
   * non-overlapping occurrence of `p`; the inserted text is not scanned again.
   * .NET refuses an empty `p`, hence the precondition.
   */
  function Replace(s: string, p: string, r: string): string
    requires |p| > 0
    decreases |s|
  {
    if |s| < |p| then s
    else if s[..|p|] == p then r + Replace(s[|p|..], p, r)
    else [s[0]] + Replace(s[1..], p, r)
  }

  /** A prefix in which `p` does not start is copied unchanged. */
  lemma {:induction false} ReplaceSplit(a: string, b: string, p: string, r: string)
    requires |p| > 0
    requires forall i :: 0 <= i < |a| ==> !OccursAt(a + b, i, p)
    ensures Replace(a + b, p, r) == a + Replace(b, p, r)
    decreases |a|
  {
    if a == [] {
      assert a + b == b;
    } else {
      var s := a + b;
      assert !OccursAt(s, 0, p);
      if |s| < |p| {
        assert Replace(b, p, r) == b;
        assert Replace(s, p, r) == s;
      } else {
        assert s[..|p|] != p;
        assert s[1..] == a[1..] + b;
        forall i | 0 <= i < |a[1..]| ensures !OccursAt(a[1..] + b, i, p) {
          assert !OccursAt(s, i + 1, p);
          if i + |p| <= |a[1..] + b| {
            assert (a[1..] + b)[i..i + |p|] == s[i + 1..i + 1 + |p|];
          }
        }
        ReplaceSplit(a[1..], b, p, r);
        calc {
          Replace(s, p, r);
          [s[0]] + Replace(s[1..], p, r);
          [a[0]] + (a[1..] + Replace(b, p, r));
          { assert [a[0]] + a[1..] == a; }
          a + Replace(b, p, r);
        }
      }
    }
  }

  /** Without an occurrence of `p`, `Replace` is the identity. */
  lemma ReplaceAbsent(s: string, p: string, r: string)
    requires |p| > 0 && !Contains(s, p)
    ensures Replace(s, p, r) == s
  {
    assert s + [] == s;
    ReplaceSplit(s, [], p, r);
  }

  /** An occurrence at the very start is replaced. */
  lemma ReplaceAtStart(s: string, p: string, r: string)
    requires |p| > 0 && OccursAt(s, 0, p)
    ensures Replace(s, p, r) == r + Replace(s[|p|..], p, r)
  {
    assert s[..|p|] == p;
  }

  /** The first occurrence of `p` is the first one replaced. */
  lemma {:induction false} ReplaceFirst(s: string, j: nat, p: string, r: string)
    requires |p| > 0 && OccursAt(s, j, p)
    requires forall i :: 0 <= i < j ==> !OccursAt(s, i, p)
    ensures Replace(s, p, r) == s[..j] + r + Replace(s[j + |p|..], p, r)
  {
    var a, b := s[..j], s[j..];
    assert a + b == s;
    forall i | 0 <= i < |a| ensures !OccursAt(a + b, i, p) {
      assert !OccursAt(s, i, p);
    }
    ReplaceSplit(a, b, p, r);
    assert OccursAt(b, 0, p) by { assert b[0..|p|] == s[j..j + |p|]; }
    ReplaceAtStart(b, p, r);
    assert b[|p|..] == s[j + |p|..];
  }

  /**
   * `r` is non-empty and cannot be the middle or the end of an occurrence of `q`
   * reaching into it from the left, nor the start of one: whatever is put in
   * place of a match, no occurrence of `q` straddles it.
   */
  predicate Separated(r: string, q: string)
  {
    |r| > 0 && |q| > 0 && r[0] !in q && q[0] !in r
  }

  /**
   * No occurrence of `q` starts inside `x + m` when `x` has none and `m` is
   * separated from `q`: it would have to hold `m[0]` or start inside `m`.
   */
  lemma NoOccurrenceBefore(x: string, m: string, y: string, q: string)
    requires Separated(m, q) && !Contains(x, q)
    ensures forall i :: 0 <= i < |x| + |m| ==> !OccursAt(x + m + y, i, q)
  {
    var s := x + m + y;
    var j := |x|;
    forall i | 0 <= i < |x| + |m| && i + |q| <= |s| ensures !OccursAt(s, i, q) {
      var w := s[i..i + |q|];
      if i + |q| <= j {
        assert w == x[i..i + |q|];
        assert !OccursAt(x, i, q);
      } else if i < j {
        // the window holds m[0], which is not a character of q
        assert w[j - i] == m[0];
      } else {
        // the window starts inside m, and q does not start with a character of m
        assert w[0] == m[i - j];
      }
    }
  }

  /** Gluing two texts without `q` around a separated `m` makes no occurrence of `q`. */
  lemma ConcatSeparated(x: string, m: string, y: string, q: string)
    requires Separated(m, q) && !Contains(x, q) && !Contains(y, q)
    ensures !Contains(x + m + y, q)
  {
    NoOccurrenceBefore(x, m, y, q);
    var s := x + m + y;
    var k := |x| + |m|;
    forall i | k <= i && i + |q| <= |s| ensures !OccursAt(s, i, q) {
      assert s[i..i + |q|] == y[i - k..i - k + |q|];
      assert !OccursAt(y, i - k, q);
    }
  }

  /** `Replace` leaves a text without `p` unchanged up to a separated `m`. */
  lemma ReplaceAfterSeparated(x: string, m: string, y: string, p: string, r: string)
    requires Separated(m, p) && !Contains(x, p)
    ensures Replace(x + m + y, p, r) == x + m + Replace(y, p, r)
  {
    NoOccurrenceBefore(x, m, y, p);
    assert x + m + y == (x + m) + y;
    ReplaceSplit(x + m, y, p, r);
  }

  /**
   * After `Replace(s, p, r)` with a separated `r`, `q` does not occur: either
   * `q` is `p` itself (every occurrence was replaced) or `q` did not occur in `s`
   * to begin with (the replacement does not make a new one).
   */
  lemma {:induction false} ReplaceLeavesNo(s: string, p: string, r: string, q: string)
    requires |p| > 0 && Separated(r, q)
    requires q == p || !Contains(s, q)
    ensures !Contains(Replace(s, p, r), q)
    decreases |s|
  {
    var j := IndexOf(s, p);
    if j < 0 {
      ReplaceAbsent(s, p, r);
    } else {
      var rest := s[j + |p|..];
      ReplaceFirst(s, j, p, r);
      forall i | OccursAt(s[..j], i, q) ensures false {
        assert s[..j][i..i + |q|] == s[i..i + |q|];
        assert OccursAt(s, i, q);
      }
      if q != p {
        forall i | OccursAt(rest, i, q) ensures false {
          assert j + |p| + i + |q| <= |s|;
          assert rest[i..i + |q|] == s[j + |p| + i..j + |p| + i + |q|];
          assert OccursAt(s, j + |p| + i, q);
        }
      }
      ReplaceLeavesNo(rest, p, r, q);
      ConcatSeparated(s[..j], r, Replace(rest, p, r), q);
    }
  }

  /** A prefix none of whose characters starts `p` is copied unchanged. */
  lemma ReplaceAfterPlain(a: string, b: string, p: string, r: string)
    requires |p| > 0 && p[0] !in a
    ensures Replace(a + b, p, r) == a + Replace(b, p, r)
  {
    forall i | 0 <= i < |a| ensures !OccursAt(a + b, i, p) {
      assert (a + b)[i] == a[i];
    }
    ReplaceSplit(a, b, p, r);
  }

  /** When `p` does not start inside `a`, it occurs in `a + b` exactly when it occurs in `b`. */
  lemma ContainsAfter(a: string, b: string, p: string)
    requires forall i :: 0 <= i < |a| ==> !OccursAt(a + b, i, p)
    ensures Contains(a + b, p) <==> Contains(b, p)
  {
    var s, k := a + b, |a|;
    if Contains(b, p) {
      var i :| 0 <= i <= |b| && OccursAt(b, i, p);
      assert s[k + i..k + i + |p|] == b[i..i + |p|];
      assert OccursAt(s, k + i, p);
    }
    if Contains(s, p) {
      var i :| 0 <= i <= |s| && OccursAt(s, i, p);
      assert b[i - k..i - k + |p|] == s[i..i + |p|];
      assert OccursAt(b, i - k, p);
    }
  }

  /** A string none of whose characters starts `p` does not contain `p`. */
  lemma AbsentByFirstChar(s: string, p: string)
    requires |p| > 0 && p[0] !in s
    ensures !Contains(s, p)
  {
  }

  /** `s.Replace(a, b)` for characters. */
  function ReplaceChar(s: string, a: char, b: char): (r: string)
    ensures |r| == |s|
    ensures forall i :: 0 <= i < |s| ==> r[i] == if s[i] == a then b else s[i]
  {
    if s == [] then [] else [if s[0] == a then b else s[0]] + ReplaceChar(s[1..], a, b)
  }

  /**
   * Lower-case mapping of one character: Latin A-Z and the Cyrillic capitals
   * U+0410..U+042F; every other character is its own lower case here.
   */
  function LowerChar(c: char): char
  {
    if 'A' <= c <= 'Z' then (c as int + 32) as char
    else if 'А' <= c <= 'Я' then (c as int + 32) as char
    else c
  }

  /** `s.ToLower()`. */
  function ToLower(s: string): (r: string)
    ensures |r| == |s|
    ensures forall i :: 0 <= i < |s| ==> r[i] == LowerChar(s[i])
  {
    if s == [] then [] else [LowerChar(s[0])] + ToLower(s[1..])
  }

  /** The UTF-16 code units of `c`: two (a surrogate pair) outside the Basic Multilingual Plane. */
  function Utf16Units(c: char): (n: nat)
    ensures n == 1 || n == 2
  {
    if c as int >= 0x1_0000 then 2 else 1
  }

  /** `s.Length`: the number of UTF-16 code units of `s`. */
  function Utf16Length(s: string): (n: nat)
    ensures |s| <= n <= 2 * |s|
  {
    if s == [] then 0 else Utf16Units(s[0]) + Utf16Length(s[1..])
  }

  lemma {:induction false} Utf16LengthConcat(a: string, b: string)
    ensures Utf16Length(a + b) == Utf16Length(a) + Utf16Length(b)
    decreases |a|
  {
    if a != [] {
      assert (a + b)[1..] == a[1..] + b;
      Utf16LengthConcat(a[1..], b);
    } else {
      assert a + b == b;
    }
  }

  /** Text made of Basic Multilingual Plane characters has one code unit per character. */
  lemma {:induction false} Utf16LengthBmp(s: string)
    requires forall i :: 0 <= i < |s| ==> s[i] as int < 0x1_0000
    ensures Utf16Length(s) == |s|
    decreases |s|
  {
    if s != [] {
      Utf16LengthBmp(s[1..]);
    }
  }

  /**
   * The longest prefix of `s` made of whole characters and at most `n` UTF-16
   * code units: `s[0..n]` in .NET, except that a surrogate pair cut in two is
   * left out whole.
   */
  function Utf16Prefix(s: string, n: nat): (r: string)
    ensures r <= s && Utf16Length(r) <= n
    ensures r == s || Utf16Length(r) + Utf16Units(s[|r|]) > n
    decreases |s|
  {
    if s == [] || Utf16Units(s[0]) > n then []
    else
      var rest := Utf16Prefix(s[1..], n - Utf16Units(s[0]));
      assert ([s[0]] + rest)[1..] == rest;
      [s[0]] + rest
  }

  /** Text made only of characters outside the Basic Multilingual Plane has two code units per character. */
  lemma {:induction false} Utf16LengthAstral(s: string)
    requires forall i :: 0 <= i < |s| ==> s[i] as int >= 0x1_0000
    ensures Utf16Length(s) == 2 * |s|
    decreases |s|
  {
    if s != [] {
      Utf16LengthAstral(s[1..]);
    }
  }
}
