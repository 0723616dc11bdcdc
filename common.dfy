/** Helpers shared by every view: the `Option` wrapper, JavaScript's
    `Number.prototype.toString` and `String.prototype.padStart` on naturals,
    `String.prototype.includes`, an ASCII `toLowerCase`, and
    `Array.prototype.filter` / `reduce` over sequences. */
module Common {

  datatype Option<+T> = None | Some(value: T)

  // ---------------------------------------------------------------------------
  // Decimal digits, toString and padStart
  // ---------------------------------------------------------------------------

  predicate IsDigit(c: char) {
    '0' <= c <= '9'
  }

  predicate AllDigits(s: string) {
    forall i :: 0 <= i < |s| ==> IsDigit(s[i])
  }

  function DigitChar(d: nat): (c: char)
    requires d < 10
    ensures IsDigit(c)
  {
    (('0' as int) + d) as char
  }

  function DigitValue(c: char): nat
    requires IsDigit(c)
  {
    (c as int) - ('0' as int)
  }

  /** `n.toString()` for a natural number: its decimal digits, no leading zero. */
  function NatToString(n: nat): (s: string)
    ensures |s| >= 1 && AllDigits(s)
    ensures n < 10 <==> |s| == 1
    ensures 10 <= n < 100 ==> |s| == 2
    ensures 100 <= n < 1000 ==> |s| == 3
    ensures n >= 1000 ==> |s| >= 4
  {
    if n < 10 then [DigitChar(n)] else NatToString(n / 10) + [DigitChar(n % 10)]
  }

  /** The number a string of decimal digits denotes (leading zeros allowed). */
  function DigitsValue(s: string): nat
    requires AllDigits(s)
  {
    if s == [] then 0 else DigitsValue(s[..|s| - 1]) * 10 + DigitValue(s[|s| - 1])
  }

  /** Reading back the digits that `NatToString` writes gives the number again. */
  lemma {:induction false} NatToStringRoundTrip(n: nat)
    ensures DigitsValue(NatToString(n)) == n
  {
    var s := NatToString(n);
    if n < 10 {
      assert s[..0] == [];
    } else {
      NatToStringRoundTrip(n / 10);
      assert s[..|s| - 1] == NatToString(n / 10);
    }
  }

  lemma NatToStringInjective(a: nat, b: nat)
    requires NatToString(a) == NatToString(b)
    ensures a == b
  {
    NatToStringRoundTrip(a);
    NatToStringRoundTrip(b);
  }

  function Repeat(c: char, k: nat): (s: string)
    ensures |s| == k && forall i :: 0 <= i < k ==> s[i] == c
  {
    if k == 0 then [] else [c] + Repeat(c, k - 1)
  }

  /** `s.padStart(width, c)`: `s` itself when it is already `width` long or
      longer, otherwise `s` with copies of `c` in front up to `width`. */
  function PadStart(s: string, width: nat, c: char): (r: string)
  {
    if |s| >= width then s else Repeat(c, width - |s|) + s
  }

  lemma PadStartShape(s: string, width: nat, c: char)
    ensures |PadStart(s, width, c)| == if |s| >= width then |s| else width
    ensures exists k: nat :: PadStart(s, width, c) == Repeat(c, k) + s
  {
    if |s| >= width {
      assert PadStart(s, width, c) == Repeat(c, 0) + s;
    }
  }

  /** Leading zeros do not change the value of a digit string. */
  lemma {:induction false} LeadingZerosValue(k: nat, s: string)
    requires AllDigits(s)
    ensures AllDigits(Repeat('0', k) + s)
    ensures DigitsValue(Repeat('0', k) + s) == DigitsValue(s)
    decreases |s|, k
  {
    var z := Repeat('0', k);
    var t := z + s;
    assert AllDigits(t) by {
      forall i | 0 <= i < |t| ensures IsDigit(t[i]) {
        if i < k { assert t[i] == z[i]; } else { assert t[i] == s[i - k]; }
      }
    }
    if s == [] {
      assert t == z;
      if k > 0 {
        assert z[..k - 1] == Repeat('0', k - 1) + [];
        LeadingZerosValue(k - 1, []);
      }
    } else {
      var s' := s[..|s| - 1];
      assert t[..|t| - 1] == Repeat('0', k) + s';
      LeadingZerosValue(k, s');
    }
  }

  /** `n.toString().padStart(3, '0')`, the id suffix used by every store. */
  function Pad3(n: nat): (s: string)
    ensures AllDigits(s)
    ensures n < 1000 ==> |s| == 3
    ensures n >= 1000 ==> s == NatToString(n)
  {
    var d := NatToString(n);
    LeadingZerosValue(if |d| >= 3 then 0 else 3 - |d|, d);
    PadStart(d, 3, '0')
  }

  /** Parsing the padded digits gives the number back, so `Pad3` never maps
      two numbers to the same text. */
  lemma Pad3RoundTrip(n: nat)
    ensures DigitsValue(Pad3(n)) == n
  {
    var d := NatToString(n);
    NatToStringRoundTrip(n);
    if |d| < 3 {
      LeadingZerosValue(3 - |d|, d);
    }
  }

  lemma Pad3Injective(a: nat, b: nat)
    requires Pad3(a) == Pad3(b)
    ensures a == b
  {
    Pad3RoundTrip(a);
    Pad3RoundTrip(b);
  }

  /** Ids of the form `prefix + pad3(n)` are distinct for distinct `n`. */
  lemma PrefixedPad3Injective(prefix: string, a: nat, b: nat)
    requires prefix + Pad3(a) == prefix + Pad3(b)
    ensures a == b
  {
    assert Pad3(a) == (prefix + Pad3(a))[|prefix|..];
    assert Pad3(b) == (prefix + Pad3(b))[|prefix|..];
    Pad3Injective(a, b);
  }

  lemma PrefixedNatInjective(prefix: string, a: nat, b: nat)
    requires prefix + NatToString(a) == prefix + NatToString(b)
    ensures a == b
  {
    assert NatToString(a) == (prefix + NatToString(a))[|prefix|..];
    assert NatToString(b) == (prefix + NatToString(b))[|prefix|..];
    NatToStringInjective(a, b);
  }

  /** A date built as `` `${prefix}${day}`.padStart(10, '0') ``, as the
      progress, inspection and workshop views write it: the padding goes in
      front of the whole text, not in front of the day. */
  function DateStampAsWritten(prefix: string, day: nat): string {
    PadStart(prefix + NatToString(day), 10, '0')
  }

  /** The evidently intended date: the day padded to two digits. */
  function DateStamp(prefix: string, day: nat): string {
    prefix + PadStart(NatToString(day), 2, '0')
  }

  /** The day 1 of December 2025 comes out as "02025-12-1" and the day 1 of
      February 2026 as "02026-02-1": the year itself is shifted and the day
      keeps one digit. */
  lemma DateStampAsWrittenShiftsYear()
    ensures DateStampAsWritten("2025-12-", 1) == "02025-12-1"
    ensures DateStamp("2025-12-", 1) == "2025-12-01"
    ensures DateStampAsWritten("2026-02-", 1) == "02026-02-1"
    ensures DateStamp("2026-02-", 1) == "2026-02-01"
  {
    assert NatToString(1) == "1";
    assert Repeat('0', 1) == "0";
  }

  /** The intended date keeps the prefix, has a two-digit day for days below
      100, and the day can be read back from it; for two-digit days the text
      as written coincides with it. */
  lemma DateStampCorrect(prefix: string, day: nat)
    requires day < 100
    ensures |DateStamp(prefix, day)| == |prefix| + 2
    ensures DateStamp(prefix, day)[..|prefix|] == prefix
    ensures AllDigits(DateStamp(prefix, day)[|prefix|..])
    ensures DigitsValue(DateStamp(prefix, day)[|prefix|..]) == day
    ensures |prefix| == 8 && day >= 10 ==> DateStampAsWritten(prefix, day) == DateStamp(prefix, day)
  {
    var d := NatToString(day);
    NatToStringRoundTrip(day);
    var k := if |d| >= 2 then 0 else 2 - |d|;
    LeadingZerosValue(k, d);
    assert PadStart(d, 2, '0') == Repeat('0', k) + d;
    assert DateStamp(prefix, day)[|prefix|..] == PadStart(d, 2, '0');
  }

  // ---------------------------------------------------------------------------
  // Substring search (`includes`) and ASCII lower-casing
  // ---------------------------------------------------------------------------

  predicate OccursAt(s: string, t: string, i: nat) {
    i + |t| <= |s| && s[i..i + |t|] == t
  }

  /** `s.includes(t)`: `t` occurs somewhere in `s`. */
  predicate Contains(s: string, t: string)
    decreases |s|
  {
    (|t| <= |s| && s[..|t|] == t) || (|s| > 0 && Contains(s[1..], t))
  }

  /** A copy of `t` at any position is found by `Contains`. */
  lemma {:induction false} OccursImpliesContains(s: string, t: string, i: nat)
    requires OccursAt(s, t, i)
    ensures Contains(s, t)
    decreases i
  {
    if i == 0 {
      assert s[..|t|] == s[0..|t|];
    } else {
      assert s[1..][i - 1..i - 1 + |t|] == s[i..i + |t|];
      OccursImpliesContains(s[1..], t, i - 1);
    }
  }

  /** What `Contains` finds is a copy of `t` at some position. */
  lemma {:induction false} ContainsImpliesOccurs(s: string, t: string) returns (i: nat)
    requires Contains(s, t)
    ensures OccursAt(s, t, i)
    decreases |s|
  {
    if |t| <= |s| && s[..|t|] == t {
      i := 0;
      assert s[0..|t|] == s[..|t|];
    } else {
      var j := ContainsImpliesOccurs(s[1..], t);
      assert s[1..][j..j + |t|] == s[j + 1..j + 1 + |t|];
      i := j + 1;
    }
  }

  /** `Contains` agrees with the direct definition: some position of `s` starts
      a copy of `t`. */
  lemma ContainsIff(s: string, t: string)
    ensures Contains(s, t) <==> exists i: nat :: OccursAt(s, t, i)
  {
    if Contains(s, t) {
      var i := ContainsImpliesOccurs(s, t);
    }
    if exists i: nat :: OccursAt(s, t, i) {
      var i: nat :| OccursAt(s, t, i);
      OccursImpliesContains(s, t, i);
    }
  }

  /** The empty string occurs in every string, so an empty search term keeps
      every row of every filter. */
  lemma ContainsEmpty(s: string)
    ensures Contains(s, "")
  {
    assert s[..0] == "";
  }

  /** ASCII `toLowerCase` on one character; every other character is kept. */
  function LowerChar(c: char): char {
    if 'A' <= c <= 'Z' then (c as int + 32) as char else c
  }

  function Lower(s: string): (r: string)
    ensures |r| == |s| && forall i :: 0 <= i < |s| ==> r[i] == LowerChar(s[i])
  {
    if s == [] then [] else [LowerChar(s[0])] + Lower(s[1..])
  }

  lemma LowerIdempotent(s: string)
    ensures Lower(Lower(s)) == Lower(s)
  {
    assert forall i :: 0 <= i < |s| ==> LowerChar(LowerChar(s[i])) == LowerChar(s[i]);
  }

  /** A case-sensitive hit is also a hit of the case-insensitive search. */
  lemma ContainsLower(s: string, t: string)
    requires Contains(s, t)
    ensures Contains(Lower(s), Lower(t))
  {
    var i := ContainsImpliesOccurs(s, t);
    assert Lower(s)[i..i + |t|] == Lower(t);
    OccursImpliesContains(Lower(s), Lower(t), i);
  }

  // ---------------------------------------------------------------------------
  // filter and reduce
  // ---------------------------------------------------------------------------

  /** `s.filter(p)`. */
  function Filter<T(==)>(s: seq<T>, p: T -> bool): (r: seq<T>)
    ensures |r| <= |s|
    ensures forall i :: 0 <= i < |r| ==> r[i] in s && p(r[i])
    ensures forall i :: 0 <= i < |s| && p(s[i]) ==> s[i] in r
  {
    if s == [] then [] else (if p(s[0]) then [s[0]] else []) + Filter(s[1..], p)
  }

  /** `a` is `b` with some elements removed and the rest in their order. */
  predicate IsSubsequence<T(==)>(a: seq<T>, b: seq<T>)
    decreases |b|
  {
    if a == [] then true
    else if b == [] then false
    else if a[0] == b[0] then IsSubsequence(a[1..], b[1..])
    else IsSubsequence(a, b[1..])
  }

  lemma {:induction false} FilterIsSubsequence<T>(s: seq<T>, p: T -> bool)
    ensures IsSubsequence(Filter(s, p), s)
  {
    if s != [] {
      FilterIsSubsequence(s[1..], p);
      var rest := Filter(s[1..], p);
      if p(s[0]) {
        assert Filter(s, p) == [s[0]] + rest;
        assert ([s[0]] + rest)[1..] == rest;
      } else {
        assert Filter(s, p) == rest;
        SubsequenceSkip(rest, s);
      }
    }
  }

  /** Skipping the head of `b` keeps a subsequence of its tail a subsequence. */
  lemma {:induction false} SubsequenceSkip<T>(a: seq<T>, b: seq<T>)
    requires b != [] && IsSubsequence(a, b[1..])
    ensures IsSubsequence(a, b)
    decreases |b|, |a|
  {
    if a != [] && a[0] == b[0] {
      // IsSubsequence(a, b[1..]) with a[0] == b[0] implies IsSubsequence(a[1..], b[1..])
      SubsequenceTail(a, b[1..]);
    }
  }

  lemma {:induction false} SubsequenceTail<T>(a: seq<T>, b: seq<T>)
    requires a != [] && IsSubsequence(a, b)
    ensures IsSubsequence(a[1..], b)
    decreases |b|, |a|
  {
    if b == [] {
    } else if a[0] == b[0] {
      SubsequenceSkip(a[1..], b);
    } else {
      SubsequenceTail(a, b[1..]);
      SubsequenceSkip(a[1..], b);
    }
  }

  /** A filter that keeps every element returns the list unchanged. */
  lemma {:induction false} FilterKeepsAll<T>(s: seq<T>, p: T -> bool)
    requires forall i :: 0 <= i < |s| ==> p(s[i])
    ensures Filter(s, p) == s
  {
    if s != [] {
      FilterKeepsAll(s[1..], p);
    }
  }

  lemma {:induction false} FilterAppend<T>(s: seq<T>, t: seq<T>, p: T -> bool)
    ensures Filter(s + t, p) == Filter(s, p) + Filter(t, p)
  {
    if s == [] {
      assert s + t == t;
    } else {
      assert (s + t)[1..] == s[1..] + t;
      FilterAppend(s[1..], t, p);
    }
  }

  /** The length of `s.filter(p)` after prepending one element. */
  lemma FilterPrependLength<T>(x: T, s: seq<T>, p: T -> bool)
    ensures |Filter([x] + s, p)| == |Filter(s, p)| + (if p(x) then 1 else 0)
  {
    assert ([x] + s)[1..] == s;
  }

  /** Two predicates that agree on every element filter alike. */
  lemma {:induction false} FilterAgreeing<T>(s: seq<T>, p: T -> bool, q: T -> bool)
    requires forall i :: 0 <= i < |s| ==> p(s[i]) == q(s[i])
    ensures Filter(s, p) == Filter(s, q)
  {
    if s != [] {
      FilterAgreeing(s[1..], p, q);
    }
  }

  /** `xs.reduce((acc, x) => acc + x, 0)` over integers. */
  function Sum(xs: seq<int>): int {
    if xs == [] then 0 else xs[0] + Sum(xs[1..])
  }

  lemma {:induction false} SumAppend(xs: seq<int>, ys: seq<int>)
    ensures Sum(xs + ys) == Sum(xs) + Sum(ys)
  {
    if xs == [] {
      assert xs + ys == ys;
    } else {
      assert (xs + ys)[1..] == xs[1..] + ys;
      SumAppend(xs[1..], ys);
    }
  }

  /** A sum of terms each between `lo` and `hi` lies between `|xs| * lo` and
      `|xs| * hi`. */
  lemma {:induction false} SumBounds(xs: seq<int>, lo: int, hi: int)
    requires forall i :: 0 <= i < |xs| ==> lo <= xs[i] <= hi
    ensures |xs| * lo <= Sum(xs) <= |xs| * hi
  {
    if xs != [] {
      SumBounds(xs[1..], lo, hi);
    }
  }

  lemma MulMono(a: int, b: int, d: nat)
    requires a <= b
    ensures a * d <= b * d
  {
    assert b * d - a * d == (b - a) * d;
  }

  /** Integer division against a whole bound: `n / d >= k` exactly when
      `n >= k * d`. */
  lemma DivAtLeast(n: nat, d: nat, k: nat)
    requires d > 0
    ensures n / d >= k <==> n >= k * d
  {
    var q := n / d;
    assert q * d <= n < q * d + d;
    if q >= k {
      MulMono(k, q, d);
    } else {
      MulMono(q + 1, k, d);
    }
  }
}
