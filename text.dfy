/**
 * The string operations of Python that the server relies on: substring
 * tests, `str.replace(pat, "")`, the ordering of `<` on `str`, zero-padded
 * decimal formatting and `list.sort(reverse=True)` on a list of strings.
 */
module Text {

  // ---------------------------------------------------------------------------
  // Prefixes, suffixes and substrings
  // ---------------------------------------------------------------------------

  /** Python's `s.endswith(suffix)`. */
  predicate EndsWith(s: string, suffix: string) {
    |suffix| <= |s| && s[|s| - |suffix|..] == suffix
  }

  /** Python's `sub in s`, scanning start positions from the left. */
  predicate Contains(s: string, sub: string)
    decreases |s|
  {
    sub <= s || (s != [] && Contains(s[1..], sub))
  }

  /** `sub` occurs in `s` starting at index `i`. */
  predicate OccursAt(s: string, sub: string, i: int) {
    0 <= i <= |s| - |sub| && s[i..i + |sub|] == sub
  }

  /** `Contains` agrees with the textbook definition: some window of `s` equals `sub`. */
  lemma {:induction false} ContainsIffOccurs(s: string, sub: string)
    ensures Contains(s, sub) <==> exists i :: OccursAt(s, sub, i)
    decreases |s|
  {
    if sub <= s {
      assert OccursAt(s, sub, 0);
    } else if s != [] {
      ContainsIffOccurs(s[1..], sub);
      assert !OccursAt(s, sub, 0);
      forall i | OccursAt(s, sub, i) ensures OccursAt(s[1..], sub, i - 1) {
        OccursShift(s, sub, i - 1);
      }
      forall j | OccursAt(s[1..], sub, j) ensures OccursAt(s, sub, j + 1) {
        OccursShift(s, sub, j);
      }
    }
  }

  /** A window one position further into `s` is a window of `s` without its first character. */
  lemma OccursShift(s: string, sub: string, i: int)
    requires s != [] && i >= 0
    ensures OccursAt(s, sub, i + 1) <==> OccursAt(s[1..], sub, i)
  {
    if i + |sub| <= |s| - 1 {
      assert s[1..][i..i + |sub|] == s[i + 1..i + 1 + |sub|];
    }
  }

  /** A string that lacks the first character of `sub` cannot contain `sub`. */
  lemma {:induction false} NotContainsWithoutFirstChar(s: string, sub: string)
    requires sub != [] && sub[0] !in s
    ensures !Contains(s, sub)
    decreases |s|
  {
    if s != [] {
      assert s[0] != sub[0];
      NotContainsWithoutFirstChar(s[1..], sub);
    }
  }

  /**
   * Python's `s.replace(pat, "")`: one left-to-right pass that deletes every
   * non-overlapping occurrence of `pat`.
   */
  function RemoveAll(s: string, pat: string): (r: string)
    requires pat != []
    ensures |r| <= |s|
    decreases |s|
  {
    if s == [] then []
    else if pat <= s then RemoveAll(s[|pat|..], pat)
    else [s[0]] + RemoveAll(s[1..], pat)
  }

  /** A string in which `pat` does not occur is left as it is. */
  lemma {:induction false} RemoveAllAbsent(s: string, pat: string)
    requires pat != [] && !Contains(s, pat)
    ensures RemoveAll(s, pat) == s
    decreases |s|
  {
    if s != [] {
      RemoveAllAbsent(s[1..], pat);
      assert [s[0]] + s[1..] == s;
    }
  }

  /** A leading occurrence of `pat` is deleted and the rest is scanned on. */
  lemma RemoveAllLeading(pat: string, rest: string)
    requires pat != []
    ensures RemoveAll(pat + rest, pat) == RemoveAll(rest, pat)
  {
    assert (pat + rest)[|pat|..] == rest;
  }

  // ---------------------------------------------------------------------------
  // Python's ordering of `str` (code point by code point)
  // ---------------------------------------------------------------------------

  /** Python's `a < b` on strings: a proper prefix, or smaller at the first difference. */
  predicate LexLess(a: string, b: string)
    decreases |a|
  {
    b != [] && (a == [] || a[0] < b[0] || (a[0] == b[0] && LexLess(a[1..], b[1..])))
  }

  lemma {:induction false} LexLessIrreflexive(a: string)
    ensures !LexLess(a, a)
    decreases |a|
  {
    if a != [] { LexLessIrreflexive(a[1..]); }
  }

  lemma {:induction false} LexLessAsymmetric(a: string, b: string)
    ensures !(LexLess(a, b) && LexLess(b, a))
    decreases |a|
  {
    if a != [] && b != [] && a[0] == b[0] { LexLessAsymmetric(a[1..], b[1..]); }
  }

  lemma {:induction false} LexLessTransitive(a: string, b: string, c: string)
    requires LexLess(a, b) && LexLess(b, c)
    ensures LexLess(a, c)
    decreases |a|
  {
    if a != [] && a[0] == b[0] && b[0] == c[0] { LexLessTransitive(a[1..], b[1..], c[1..]); }
  }

  /** Two different strings are always ordered one way or the other. */
  lemma {:induction false} LexLessTotal(a: string, b: string)
    ensures a == b || LexLess(a, b) || LexLess(b, a)
    decreases |a|
  {
    if a != [] && b != [] && a[0] == b[0] {
      LexLessTotal(a[1..], b[1..]);
      if a[1..] == b[1..] {
        assert a == [a[0]] + a[1..] && b == [b[0]] + b[1..];
      }
    }
  }

  /** Comparing two concatenations whose first parts have equal length compares part by part. */
  lemma {:induction false} LexLessConcat(a1: string, a2: string, b1: string, b2: string)
    requires |a1| == |b1|
    ensures LexLess(a1 + a2, b1 + b2) <==> LexLess(a1, b1) || (a1 == b1 && LexLess(a2, b2))
    decreases |a1|
  {
    if a1 == [] {
      assert a1 + a2 == a2 && b1 + b2 == b2;
    } else {
      LexLessConcat(a1[1..], a2, b1[1..], b2);
      assert (a1 + a2)[1..] == a1[1..] + a2 && (b1 + b2)[1..] == b1[1..] + b2;
      assert a1 == b1 <==> a1[0] == b1[0] && a1[1..] == b1[1..];
    }
  }

  // ---------------------------------------------------------------------------
  // Decimal formatting
  // ---------------------------------------------------------------------------

  function Pow10(w: nat): (p: nat)
    ensures p >= 1
  {
    if w == 0 then 1 else 10 * Pow10(w - 1)
  }

  function DigitChar(d: int): char
    requires 0 <= d < 10
  {
    (48 + d) as char
  }

  /** The last `w` decimal digits of `n`, zero-padded (`%02d`, `%04d`). */
  function Pad(n: nat, w: nat): (r: string)
    ensures |r| == w
  {
    if w == 0 then [] else Pad(n / 10, w - 1) + [DigitChar(n % 10)]
  }

  /**
   * For numbers that fit in `w` digits, zero-padded formatting is injective and
   * the string order of the digits is the numeric order.
   */
  lemma {:induction false} PadOrder(a: nat, b: nat, w: nat)
    requires a < Pow10(w) && b < Pow10(w)
    ensures Pad(a, w) == Pad(b, w) <==> a == b
    ensures LexLess(Pad(a, w), Pad(b, w)) <==> a < b
  {
    if w == 0 {
    } else {
      var qa, qb, ra, rb := a / 10, b / 10, a % 10, b % 10;
      assert a == 10 * qa + ra && b == 10 * qb + rb;
      assert qa < Pow10(w - 1) && qb < Pow10(w - 1);
      PadOrder(qa, qb, w - 1);
      LexLessConcat(Pad(qa, w - 1), [DigitChar(ra)], Pad(qb, w - 1), [DigitChar(rb)]);
      var pa, pb := Pad(qa, w - 1) + [DigitChar(ra)], Pad(qb, w - 1) + [DigitChar(rb)];
      assert pa == pb <==> Pad(qa, w - 1) == Pad(qb, w - 1) && DigitChar(ra) == DigitChar(rb) by {
        if pa == pb {
          assert pa[..w - 1] == Pad(qa, w - 1) && pb[..w - 1] == Pad(qb, w - 1);
          assert pa[w - 1] == DigitChar(ra) && pb[w - 1] == DigitChar(rb);
        }
      }
    }
  }

  /** Python's `str(n)` for a non-negative integer. */
  function NatToString(n: nat): (r: string)
    ensures r != []
  {
    if n < 10 then [DigitChar(n)] else NatToString(n / 10) + [DigitChar(n % 10)]
  }

  /** Python's `str(i)`. */
  function IntToString(i: int): (r: string)
    ensures r != []
  {
    if i < 0 then "-" + NatToString(-i) else NatToString(i)
  }

  // ---------------------------------------------------------------------------
  // list.sort(reverse=True) on strings
  // ---------------------------------------------------------------------------

  /** Non-increasing in Python's string order. */
  ghost predicate SortedDescending(s: seq<string>) {
    forall i, j :: 0 <= i < j < |s| ==> !LexLess(s[i], s[j])
  }

  /** `y` is not below any element of `s`. */
  ghost predicate AtLeastAll(y: string, s: seq<string>) {
    forall j :: 0 <= j < |s| ==> !LexLess(y, s[j])
  }

  lemma ConsSorted(y: string, s: seq<string>)
    requires SortedDescending(s) && AtLeastAll(y, s)
    ensures SortedDescending([y] + s)
  {
    forall i, j | 0 <= i < j < |s| + 1 ensures !LexLess(([y] + s)[i], ([y] + s)[j]) {
      if i > 0 { assert ([y] + s)[i] == s[i - 1]; }
      assert ([y] + s)[j] == s[j - 1];
    }
  }

  /** Places `x` before the first element that is not greater than it. */
  function InsertDescending(x: string, s: seq<string>): (r: seq<string>)
    ensures multiset(r) == multiset(s) + multiset{x}
  {
    if s == [] then [x]
    else if !LexLess(x, s[0]) then [x] + s
    else
      assert s == [s[0]] + s[1..];
      [s[0]] + InsertDescending(x, s[1..])
  }

  /** Inserting into a descending list keeps it descending. */
  lemma {:induction false} InsertKeepsSorted(x: string, s: seq<string>)
    requires SortedDescending(s)
    ensures SortedDescending(InsertDescending(x, s))
  {
    if s == [] {
    } else if !LexLess(x, s[0]) {
      forall j | 0 <= j < |s| ensures !LexLess(x, s[j]) {
        if LexLess(x, s[j]) {
          LexLessTotal(s[0], s[j]);
          if s[0] != s[j] && !LexLess(s[0], s[j]) {
            LexLessTransitive(x, s[j], s[0]);
          }
        }
      }
      ConsSorted(x, s);
    } else {
      var tail := InsertDescending(x, s[1..]);
      InsertKeepsSorted(x, s[1..]);
      forall j | 0 <= j < |tail| ensures !LexLess(s[0], tail[j]) {
        var y := tail[j];
        assert y in multiset(tail);
        if y == x {
          LexLessAsymmetric(x, s[0]);
        } else {
          assert y in multiset(s[1..]);
          var k :| 0 <= k < |s[1..]| && s[1..][k] == y;
          assert s[k + 1] == y;
        }
      }
      ConsSorted(s[0], tail);
    }
  }

  /** The model of `list.sort(reverse=True)`: descending order, same elements. */
  function SortDescending(s: seq<string>): (r: seq<string>)
    ensures SortedDescending(r)
    ensures multiset(r) == multiset(s)
    ensures |r| == |s|
  {
    if s == [] then []
    else
      assert s == [s[0]] + s[1..];
      var rest := SortDescending(s[1..]);
      InsertKeepsSorted(s[0], rest);
      var r := InsertDescending(s[0], rest);
      assert |r| == |multiset(r)|;
      r
  }
}
