/** Backup numbers: decimal numerals of any length. */
module Digits {
  import opened Names
  import opened Spec

  function DigitOf(ch: char): (v: nat)
    requires IsDigit(ch)
    ensures v <= 9
  {
    ch as int - '0' as int
  }

  function CharOf(v: nat): (ch: char)
    requires v <= 9
    ensures IsDigit(ch) && DigitOf(ch) == v
  {
    (v + '0' as int) as char
  }

  predicate AllDigits(d: string) { forall k :: 0 <= k < |d| ==> IsDigit(d[k]) }

  /** The number a numeral stands for. */
  function Value(d: string): nat
    requires AllDigits(d)
  {
    if d == [] then 0 else 10 * Value(d[..|d| - 1]) + DigitOf(d[|d| - 1])
  }

  function Pow10(n: nat): (r: nat)
    ensures r >= 1
  {
    if n == 0 then 1 else 10 * Pow10(n - 1)
  }

  lemma MulTen(x: nat, y: nat)
    ensures 10 * (x * y) == x * (10 * y)
  {}

  lemma ValueStep(d: string)
    requires AllDigits(d) && d != []
    ensures AllDigits(d[..|d| - 1]) && Value(d) == 10 * Value(d[..|d| - 1]) + DigitOf(d[|d| - 1])
  {}

  /** A numeral cut in two: the first part counts in units of the second. */
  lemma {:induction false} ValueSplit(d: string, i: nat)
    requires AllDigits(d) && i <= |d|
    ensures AllDigits(d[..i]) && AllDigits(d[i..])
    ensures Value(d) == Value(d[..i]) * Pow10(|d| - i) + Value(d[i..])
  {
    if i == |d| {
      assert d[..i] == d && d[i..] == [];
    } else {
      hide Value;
      var e := d[..|d| - 1];
      ValueSplit(e, i);
      ValueStep(d);
      ValueStep(d[i..]);
      assert e[..i] == d[..i];
      assert d[i..][..|d| - i - 1] == e[i..];
      MulTen(Value(d[..i]), Pow10(|e| - i));
    }
  }

  lemma {:induction false} ValueBound(d: string)
    requires AllDigits(d)
    ensures Value(d) < Pow10(|d|)
  {
    if d != [] { ValueBound(d[..|d| - 1]); }
  }

  lemma {:induction false} ZerosValue(d: string)
    requires forall k :: 0 <= k < |d| ==> d[k] == '0'
    ensures AllDigits(d) && Value(d) == 0
  {
    if d != [] { ZerosValue(d[..|d| - 1]); }
  }

  lemma {:induction false} NinesValue(d: string)
    requires forall k :: 0 <= k < |d| ==> d[k] == '9'
    ensures AllDigits(d) && Value(d) == Pow10(|d|) - 1
  {
    if d != [] { NinesValue(d[..|d| - 1]); }
  }

  /** A canonical numeral of n digits is at least 10^(n-1). */
  lemma CanonicalLow(d: string)
    requires Canonical(d)
    ensures AllDigits(d) && Value(d) >= Pow10(|d| - 1)
  {
    ValueSplit(d, 1);
    FirstDigit(d);
    hide Value, Pow10;
    MulMonotone(1, DigitOf(d[0]), Pow10(|d| - 1));
  }

  lemma FirstDigit(d: string)
    requires AllDigits(d) && d != []
    ensures AllDigits(d[..1]) && Value(d[..1]) == DigitOf(d[0])
  {
    assert d[..1][..0] == [];
  }

  lemma MulMonotone(x: nat, y: nat, z: nat)
    requires x <= y
    ensures x * z <= y * z
  {}

  lemma MulSucc(x: nat, z: nat)
    ensures (x + 1) * z == x * z + z
  {}

  lemma {:induction false} Pow10Monotone(m: nat, n: nat)
    requires m <= n
    ensures Pow10(m) <= Pow10(n)
  {
    if m < n { Pow10Monotone(m, n - 1); }
  }

  /** Turning a run of nines into zeros and adding one to the digit before it. */
  lemma {:induction false} CarryValue(d: string, e: string, i: nat)
    requires |d| == |e| && i < |d| && AllDigits(d)
    requires DigitOf(d[i]) < 9
    requires forall k :: i < k < |d| ==> d[k] == '9' && e[k] == '0'
    requires e[..i] == d[..i] && e[i] == CharOf(DigitOf(d[i]) + 1)
    ensures AllDigits(e) && Value(e) == Value(d) + 1
  {
    forall k | 0 <= k < |e| ensures IsDigit(e[k]) {
      if k < i { assert e[k] == e[..i][k] == d[..i][k]; }
    }
    var m := |d| - 1;
    if i == m {
      assert d[..m] == e[..m];
    } else {
      assert d[..m][..i] == d[..i] && e[..m][..i] == e[..i];
      CarryValue(d[..m], e[..m], i);
    }
  }

  /** A carry out of all nines: one more digit. */
  lemma OverflowValue(n: nat, e: string)
    requires |e| == n + 1 && e[0] == '1' && forall k :: 1 <= k < |e| ==> e[k] == '0'
    ensures AllDigits(e) && Value(e) == Pow10(n)
  {
    ZerosValue(e[1..]);
    ValueSplit(e, 1);
    assert Value(e[..1]) == 1 by { assert e[..1][..0] == []; }
  }

  /** digits_inc: the numeral of the next number, in place, growing if it must. */
  method Increment(digits: string) returns (r: string)
    requires Canonical(digits)
    ensures Canonical(r) && Value(r) == Value(digits) + 1
  {
    var d := digits;
    var i := |d|;
    while i > 0
      invariant 0 <= i <= |d| == |digits|
      invariant d[..i] == digits[..i]
      invariant forall k :: i <= k < |d| ==> d[k] == '0' && digits[k] == '9'
    {
      assert d[i - 1] == d[..i][i - 1] == digits[..i][i - 1];
      if d[i - 1] != '9' {
        r := d[i - 1 := CharOf(DigitOf(d[i - 1]) + 1)];
        assert r[..i - 1] == digits[..i][..i - 1];
        CarryValue(digits, r, i - 1);
        assert i > 1 ==> r[0] == r[..i - 1][0];
        return;
      }
      d := d[i - 1 := '0'];
      assert d[..i - 1] == digits[..i][..i - 1];
      i := i - 1;
    }
    r := "1" + d;
    OverflowValue(|d|, r);
    NinesValue(digits);
  }

  /* ----- comparing ----- */

  /** strcmp on equal lengths: -1, 0 or 1. */
  function Strcmp(a: string, b: string): (r: int)
    requires |a| == |b|
    ensures -1 <= r <= 1
  {
    if a == [] then 0
    else if a[0] < b[0] then -1
    else if a[0] > b[0] then 1
    else Strcmp(a[1..], b[1..])
  }

  function Compare(a: string, b: string): int {
    if |a| < |b| then -1 else if |a| > |b| then 1 else Strcmp(a, b)
  }

  function Sign(x: int): int { if x < 0 then -1 else if x > 0 then 1 else 0 }

  lemma {:induction false} StrcmpIsNumeric(a: string, b: string)
    requires |a| == |b| && AllDigits(a) && AllDigits(b)
    ensures Strcmp(a, b) == Sign(Value(a) - Value(b))
  {
    if a != [] {
      hide Value, Pow10;
      ValueSplit(a, 1);
      ValueSplit(b, 1);
      FirstDigit(a);
      FirstDigit(b);
      ValueBound(a[1..]);
      ValueBound(b[1..]);
      var p := Pow10(|a| - 1);
      var x, y := DigitOf(a[0]), DigitOf(b[0]);
      if x < y {
        MulMonotone(x + 1, y, p);
        MulSucc(x, p);
      } else if x > y {
        MulMonotone(y + 1, x, p);
        MulSucc(y, p);
      } else {
        StrcmpIsNumeric(a[1..], b[1..]);
      }
    }
  }

  /** digits_cmp orders canonical numerals as numbers. */
  lemma CompareIsNumeric(a: string, b: string)
    requires Canonical(a) && Canonical(b)
    ensures Compare(a, b) == Sign(Value(a) - Value(b))
  {
    if |a| == |b| {
      StrcmpIsNumeric(a, b);
    } else if |a| < |b| {
      ValueBound(a);
      CanonicalLow(b);
      Pow10Monotone(|a|, |b| - 1);
    } else {
      ValueBound(b);
      CanonicalLow(a);
      Pow10Monotone(|b|, |a| - 1);
    }
  }

  lemma {:induction false} StrcmpZero(a: string, b: string)
    requires |a| == |b| && Strcmp(a, b) == 0
    ensures a == b
  {
    if a != [] {
      StrcmpZero(a[1..], b[1..]);
      assert a == [a[0]] + a[1..] && b == [b[0]] + b[1..];
    }
  }

  /** Canonical numerals of one number are one numeral. */
  lemma ValueInjective(a: string, b: string)
    requires Canonical(a) && Canonical(b) && Value(a) == Value(b)
    ensures a == b
  {
    CompareIsNumeric(a, b);
    StrcmpZero(a, b);
  }

  /* ----- backup names ----- */

  /** backup_split: the base and the number of base.~n~, n from 1 up. */
  method Split(name: string) returns (r: Option<(string, string)>)
    ensures r.Some? ==>
              && r.value.0 != [] && Canonical(r.value.1)
              && name == NumberedBackup(r.value.0, r.value.1)
    ensures r == None ==> forall base, d :: base != [] && Canonical(d) ==> name != NumberedBackup(base, d)
  {
    if |name| < 5 || name[|name| - 1] != '~' {
      forall base: string, d: string | base != [] && Canonical(d) ensures name != NumberedBackup(base, d) {
        NumberedShape(base, d);
      }
      return None;
    }
    var end := |name| - 1;
    var p := end;
    while p > 0 && IsDigit(name[p - 1])
      invariant 0 <= p <= end
      invariant forall k :: p <= k < end ==> IsDigit(name[k])
    {
      p := p - 1;
    }
    forall base: string, d: string | base != [] && Canonical(d) && name == NumberedBackup(base, d)
      ensures p == |base| + 2 && d == name[p..end] && base == name[..p - 2]
      ensures p < end && name[p] != '0' && p >= 3 && name[p - 1] == '~' && name[p - 2] == '.'
    {
      NumberedShape(base, d);
      RunStart(name, base, d, p, end);
    }
    if p == end || name[p] == '0' || p < 3 || name[p - 1] != '~' || name[p - 2] != '.' {
      return None;
    }
    r := Some((name[..p - 2], name[p..end]));
    assert forall k :: 0 <= k < end - p ==> IsDigit(name[p..end][k]);
    assert name == name[..p - 2] + [name[p - 2], name[p - 1]] + name[p..end] + [name[end]];
  }

  lemma NumberedShape(base: string, d: string)
    requires Canonical(d)
    ensures
      var name := NumberedBackup(base, d);
      && |name| == |base| + |d| + 3 && name[|name| - 1] == '~'
      && name[|base|] == '.' && name[|base| + 1] == '~'
      && name[|base| + 2..|name| - 1] == d && name[..|base|] == base
  {}

  lemma RunStart(name: string, base: string, d: string, p: nat, end: nat)
    requires Canonical(d) && name == NumberedBackup(base, d)
    requires p <= end == |name| - 1 && forall k :: p <= k < end ==> IsDigit(name[k])
    requires p == 0 || !IsDigit(name[p - 1])
    ensures p == |base| + 2
  {
    NumberedShape(base, d);
    var s := |base| + 2;
    assert !IsDigit(name[s - 1]);
    assert forall k :: s <= k < end ==> name[k] == d[k - s];
  }

  /** A name splits in at most one way. */
  lemma NumberedInjective(base: string, d: string, base': string, d': string)
    requires Canonical(d) && Canonical(d')
    requires NumberedBackup(base, d) == NumberedBackup(base', d')
    ensures base == base' && d == d'
  {
    var name := NumberedBackup(base, d);
    NumberedShape(base, d);
    NumberedShape(base', d');
    assert forall k :: |base| + 2 <= k < |name| - 1 ==> name[k] == d[k - |base| - 2];
    RunStart(name, base, d, |base| + 2, |name| - 1);
    RunStart(name, base', d', |base| + 2, |name| - 1);
  }
}
