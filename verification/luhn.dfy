/** The payment card check of packages/scanner/src/entropy.ts. */
module Luhn {
  import opened Numbers
  import opened Strings

  function Digits(candidate: string): (r: string)
    ensures AllDigits(r)
  {
    if candidate == "" then ""
    else
      var front, last := Digits(candidate[..|candidate| - 1]), candidate[|candidate| - 1];
      if IsDigit(last) then front + [last] else front
  }

  predicate Starts(digits: string, prefix: string) { prefix <= digits }

  predicate Between(digits: string, from: nat, to: nat, width: nat)
    requires width <= |digits|
  {
    from <= Value(digits[..width]) <= to
  }

  /** A length and a prefix that some card scheme has assigned. */
  predicate MatchesKnownIssuer(digits: string)
    requires |digits| >= 13
  {
    var n := |digits|;
    || (n in {13, 16, 19} && Starts(digits, "4"))
    || (n == 16 && (Between(digits, 51, 55, 2) || Between(digits, 2221, 2720, 4)))
    || (n == 15 && (Starts(digits, "34") || Starts(digits, "37")))
    || (n == 14 && (Between(digits, 300, 305, 3) || Starts(digits, "3095") || Starts(digits, "36")
                    || Starts(digits, "38") || Starts(digits, "39")))
    || (n in {16, 19} && (Starts(digits, "6011") || Starts(digits, "65") || Between(digits, 644, 649, 3)
                          || Between(digits, 622126, 622925, 6)))
    || (16 <= n <= 19 && Between(digits, 3528, 3589, 4))
    || (16 <= n <= 19 && Starts(digits, "62"))
  }

  /** What a digit adds; every second one from the right is doubled and its digits summed. */
  function Weight(d: nat, double: bool): nat {
    if !double then d else if 2 * d > 9 then 2 * d - 9 else 2 * d
  }

  predicate Doubled(digits: string, i: nat)
    requires i < |digits|
  {
    (|digits| - 1 - i) % 2 == 1
  }

  function SumFrom(digits: string, i: nat): nat
    requires AllDigits(digits) && i <= |digits|
    decreases |digits| - i
  {
    if i == |digits| then 0 else Weight(DigitValue(digits[i]), Doubled(digits, i)) + SumFrom(digits, i + 1)
  }

  predicate Valid(candidate: string) {
    var digits := Digits(candidate);
    && 13 <= |digits| <= 19 && digits[0] != '0' && MatchesKnownIssuer(digits)
    && SumFrom(digits, 0) % 10 == 0
  }

  method IsLuhnValid(candidate: string) returns (valid: bool)
    ensures valid == Valid(candidate)
  {
    hide MatchesKnownIssuer;
    var digits := Digits(candidate);
    if |digits| < 13 || |digits| > 19 { return false; }
    if digits[0] == '0' { return false; }
    if !MatchesKnownIssuer(digits) { return false; }
    var sum := 0;
    var double := false;
    var i := |digits|;
    while i > 0
      invariant 0 <= i <= |digits| && double == ((|digits| - i) % 2 == 1)
      invariant sum == SumFrom(digits, i)
    {
      i := i - 1;
      var d := DigitValue(digits[i]);
      if double {
        d := d * 2;
        if d > 9 { d := d - 9; }
      }
      sum := sum + d;
      double := !double;
    }
    valid := sum % 10 == 0;
  }

  lemma {:induction false} OnlyDigits(s: string)
    requires AllDigits(s)
    ensures Digits(s) == s
  {
    if s == "" {
    } else {
      OnlyDigits(s[..|s| - 1]);
    }
  }

  // ---------- One wrong digit ----------

  lemma {:induction false} WeightsDiffer(c: nat, d: nat, double: bool)
    requires c < 10 && d < 10 && c != d
    ensures -10 < Weight(c, double) - Weight(d, double) < 10
    ensures Weight(c, double) != Weight(d, double)
  {
  }

  lemma {:induction false} DigitsDiffer(c: char, d: char)
    requires IsDigit(c) && IsDigit(d) && c != d
    ensures DigitValue(c) != DigitValue(d)
  {
  }

  lemma {:induction false} SumWithOneDifference(s: string, t: string, i: nat, j: nat)
    requires AllDigits(s) && AllDigits(t) && DifferAt(s, t, i) && j <= |s|
    ensures SumFrom(s, j) - SumFrom(t, j)
         == if j <= i then Weight(DigitValue(s[i]), Doubled(s, i)) - Weight(DigitValue(t[i]), Doubled(s, i)) else 0
    decreases |s| - j
  {
    hide Weight, DigitValue;
    if j == |s| {
    } else {
      SumWithOneDifference(s, t, i, j + 1);
    }
  }

  lemma {:induction false} NotCongruent(a: nat, b: nat)
    requires a != b && -10 < a - b < 10
    ensures a % 10 != b % 10
  {
    assert a % 10 == a - 10 * (a / 10) && b % 10 == b - 10 * (b / 10);
  }

  /** Two accepted digit strings never differ in exactly one digit. */
  lemma {:induction false} WrongDigitCaught(s: string, t: string, i: nat)
    requires AllDigits(s) && AllDigits(t) && DifferAt(s, t, i)
    ensures !(Valid(s) && Valid(t))
  {
    hide SumFrom, Weight, MatchesKnownIssuer, Digits;
    OnlyDigits(s);
    OnlyDigits(t);
    SumWithOneDifference(s, t, i, 0);
    DigitsDiffer(s[i], t[i]);
    WeightsDiffer(DigitValue(s[i]), DigitValue(t[i]), Doubled(s, i));
    NotCongruent(SumFrom(s, 0), SumFrom(t, 0));
  }

  // ---------- Two digits swapped ----------

  function PairSum(c: nat, d: nat, firstDoubled: bool): nat { Weight(c, firstDoubled) + Weight(d, !firstDoubled) }

  lemma {:induction false} PairsDiffer(c: nat, d: nat, double: bool)
    requires c < 10 && d < 10
    ensures -10 < PairSum(c, d, double) - PairSum(d, c, double) < 10
    ensures PairSum(c, d, double) == PairSum(d, c, double) <==> c == d || (c == 0 && d == 9) || (c == 9 && d == 0)
  {
  }

  lemma {:induction false} SumWithSwap(s: string, t: string, i: nat, j: nat)
    requires AllDigits(s) && AllDigits(t) && Swapped(s, t, i) && j <= |s| && j != i + 1
    ensures SumFrom(s, j) - SumFrom(t, j)
         == if j <= i then PairSum(DigitValue(s[i]), DigitValue(s[i + 1]), Doubled(s, i))
                           - PairSum(DigitValue(s[i + 1]), DigitValue(s[i]), Doubled(s, i)) else 0
    decreases |s| - j
  {
    hide Weight, DigitValue;
    if j == i {
      SumWithSwap(s, t, i, i + 2);
      SwapHere(s, t, i);
    } else if j < |s| {
      SumWithSwap(s, t, i, j + 1);
    }
  }

  lemma {:induction false} SwapHere(s: string, t: string, i: nat)
    requires AllDigits(s) && AllDigits(t) && Swapped(s, t, i)
    ensures SumFrom(s, i) == PairSum(DigitValue(s[i]), DigitValue(s[i + 1]), Doubled(s, i)) + SumFrom(s, i + 2)
    ensures SumFrom(t, i) == PairSum(DigitValue(s[i + 1]), DigitValue(s[i]), Doubled(s, i)) + SumFrom(t, i + 2)
  {
    hide Weight, DigitValue;
    assert Doubled(s, i + 1) == !Doubled(s, i);
    assert SumFrom(s, i) == Weight(DigitValue(s[i]), Doubled(s, i)) + SumFrom(s, i + 1);
    assert SumFrom(t, i) == Weight(DigitValue(t[i]), Doubled(t, i)) + SumFrom(t, i + 1);
  }

  /** Exchanging two neighbouring digits changes the check sum modulo ten, unless they are equal or
      are 0 and 9. */
  lemma {:induction false} SwapChangesSum(s: string, t: string, i: nat)
    requires AllDigits(s) && AllDigits(t) && Swapped(s, t, i)
    ensures SumFrom(s, 0) % 10 == SumFrom(t, 0) % 10 <==>
      s[i] == s[i + 1] || (s[i] == '0' && s[i + 1] == '9') || (s[i] == '9' && s[i + 1] == '0')
  {
    hide SumFrom, PairSum;
    SumWithSwap(s, t, i, 0);
    PairsDiffer(DigitValue(s[i]), DigitValue(s[i + 1]), Doubled(s, i));
    if SumFrom(s, 0) != SumFrom(t, 0) { NotCongruent(SumFrom(s, 0), SumFrom(t, 0)); }
    if s[i] != s[i + 1] { DigitsDiffer(s[i], s[i + 1]); }
  }

  /** Two accepted digit strings never differ by one swap of neighbours other than 0 with 9. */
  lemma {:induction false} SwapCaught(s: string, t: string, i: nat)
    requires AllDigits(s) && AllDigits(t) && Swapped(s, t, i) && s[i] != s[i + 1]
    requires !(s[i] == '0' && s[i + 1] == '9') && !(s[i] == '9' && s[i + 1] == '0')
    ensures !(Valid(s) && Valid(t))
  {
    hide SumFrom, MatchesKnownIssuer, Digits;
    OnlyDigits(s);
    OnlyDigits(t);
    SwapChangesSum(s, t, i);
  }
}
