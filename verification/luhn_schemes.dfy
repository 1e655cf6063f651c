/** The card check of packages/scanner/src/entropy.ts against the tables it stands for: the issuer ranges as
    numbers, and the check sum of ISO/IEC 7812-1. */
module LuhnSchemes {
  import opened Numbers
  import opened Luhn

  // ---------- Digits ----------

  /** Everything but the ten digits is dropped. */
  lemma {:induction false} DigitsOneMore(front: string, c: char)
    ensures Digits("") == ""
    ensures Digits(front + [c]) == if 48 <= c as int <= 57 then Digits(front) + [c] else Digits(front)
  {
    assert (front + [c])[..|front|] == front;
  }

  // ---------- Issuers ----------

  /** Card numbers of these lengths whose first `width` digits are a number from `low` to `high`. */
  datatype Range = Range(lengths: set<nat>, width: nat, low: nat, high: nat)

  const RANGES: seq<Range> := [
    Range({13, 16, 19}, 1, 4, 4),
    Range({16}, 2, 51, 55), Range({16}, 4, 2221, 2720),
    Range({15}, 2, 34, 34), Range({15}, 2, 37, 37),
    Range({14}, 3, 300, 305), Range({14}, 4, 3095, 3095), Range({14}, 2, 36, 36), Range({14}, 2, 38, 39),
    Range({16, 19}, 4, 6011, 6011), Range({16, 19}, 2, 65, 65), Range({16, 19}, 3, 644, 649),
    Range({16, 17, 18, 19}, 4, 3528, 3589), Range({16, 17, 18, 19}, 2, 62, 62)
  ]

  predicate InRange(digits: string, r: Range) {
    |digits| in r.lengths && r.width <= |digits| && r.low <= Value(digits[..r.width]) <= r.high
  }

  predicate IsAssigned(digits: string) { exists k :: 0 <= k < |RANGES| && InRange(digits, RANGES[k]) }

  lemma {:induction false} ValueLess(digits: string)
    requires AllDigits(digits)
    ensures Value(digits) < Pow10(|digits|)
    decreases |digits|
  {
    if digits != "" { ValueLess(digits[..|digits| - 1]); }
  }

  lemma {:induction false} LastDigit(s: string)
    requires AllDigits(s) && s != ""
    ensures AllDigits(s[..|s| - 1]) && IsDigit(s[|s| - 1]) && Value(s) == 10 * Value(s[..|s| - 1]) + DigitValue(s[|s| - 1])
  {
  }

  /** Two numerals of one length with one value are the same. */
  lemma {:induction false} SameNumeral(a: string, b: string)
    requires AllDigits(a) && AllDigits(b) && |a| == |b| && Value(a) == Value(b)
    ensures a == b
    decreases |a|
  {
    hide Value, AllDigits;
    if a == "" {
    } else {
      var n := |a| - 1;
      LastDigit(a);
      LastDigit(b);
      assert DigitValue(a[n]) == DigitValue(b[n]) && Value(a[..n]) == Value(b[..n]);
      SameNumeral(a[..n], b[..n]);
      assert a == a[..n] + [a[n]] && b == b[..n] + [b[n]];
    }
  }

  lemma {:induction false} StartsIs(digits: string, prefix: string)
    requires AllDigits(digits) && AllDigits(prefix) && |prefix| <= |digits|
    ensures Starts(digits, prefix) <==> Value(digits[..|prefix|]) == Value(prefix)
  {
    hide Value;
    var head := digits[..|prefix|];
    if Starts(digits, prefix) { assert head == prefix; }
    if Value(head) == Value(prefix) {
      SameNumeral(head, prefix);
      assert digits == prefix + digits[|prefix|..];
    }
  }

  lemma {:induction false} Snoc(front: string, c: char)
    requires IsDigit(c)
    ensures Value(front + [c]) == 10 * Value(front) + DigitValue(c)
  {
    assert (front + [c])[..|front|] == front;
  }

  lemma {:induction false} TwoDigitsAre(a: char, b: char)
    requires IsDigit(a) && IsDigit(b)
    ensures Value([a]) == DigitValue(a) && Value([a, b]) == 10 * DigitValue(a) + DigitValue(b)
  {
    hide Value;
    NothingIsZero();
    Snoc("", a);
    Snoc([a], b);
    assert "" + [a] == [a] && [a] + [b] == [a, b];
  }

  lemma {:induction false} NothingIsZero()
    ensures Value("") == 0
  {
  }

  lemma {:induction false} FourDigitsAre(a: char, b: char, c: char, d: char)
    requires IsDigit(a) && IsDigit(b) && IsDigit(c) && IsDigit(d)
    ensures Value([a, b, c, d]) == 1000 * DigitValue(a) + 100 * DigitValue(b) + 10 * DigitValue(c) + DigitValue(d)
  {
    hide Value;
    TwoDigitsAre(a, b);
    Snoc([a, b], c);
    Snoc([a, b, c], d);
    assert [a, b] + [c] == [a, b, c] && [a, b, c] + [d] == [a, b, c, d];
  }

  lemma {:induction false} PrefixValues()
    ensures Value("4") == 4 && Value("34") == 34 && Value("37") == 37 && Value("36") == 36 && Value("38") == 38
    ensures Value("39") == 39 && Value("65") == 65 && Value("62") == 62 && Value("3095") == 3095 && Value("6011") == 6011
  {
    hide Value;
    TwoDigitsAre('4', '4');
    TwoDigitsAre('3', '4');
    TwoDigitsAre('3', '7');
    TwoDigitsAre('3', '6');
    TwoDigitsAre('3', '8');
    TwoDigitsAre('3', '9');
    TwoDigitsAre('6', '5');
    TwoDigitsAre('6', '2');
    FourDigitsAre('3', '0', '9', '5');
    FourDigitsAre('6', '0', '1', '1');
  }

  /** The prefixes of the check are these numbers. */
  lemma {:induction false} PrefixesAre(digits: string)
    requires AllDigits(digits) && |digits| >= 13
    ensures var two, four := Value(digits[..2]), Value(digits[..4]);
      && (Starts(digits, "4") <==> Value(digits[..1]) == 4)
      && (Starts(digits, "34") <==> two == 34) && (Starts(digits, "37") <==> two == 37) && (Starts(digits, "36") <==> two == 36)
      && (Starts(digits, "38") <==> two == 38) && (Starts(digits, "39") <==> two == 39) && (Starts(digits, "65") <==> two == 65)
      && (Starts(digits, "62") <==> two == 62) && (Starts(digits, "3095") <==> four == 3095) && (Starts(digits, "6011") <==> four == 6011)
  {
    hide Value, Starts;
    PrefixValues();
    StartsIs(digits, "4");
    StartsIs(digits, "34");
    StartsIs(digits, "37");
    StartsIs(digits, "36");
    StartsIs(digits, "38");
    StartsIs(digits, "39");
    StartsIs(digits, "65");
    StartsIs(digits, "62");
    StartsIs(digits, "3095");
    StartsIs(digits, "6011");
  }

  /** A number from 622126 to 622925 starts with 62. */
  lemma {:induction false} SixStartWithTwo(digits: string)
    requires AllDigits(digits) && |digits| >= 13
    ensures Between(digits, 622126, 622925, 6) ==> Value(digits[..2]) == 62
  {
    hide Value;
    var d := digits[..6];
    Cut(d, 5);
    Cut(d, 4);
    Cut(d, 3);
    Cut(d, 2);
    assert d[..6] == digits[..6] && d[..2] == digits[..2];
  }

  lemma {:induction false} Cut(digits: string, k: nat)
    requires AllDigits(digits) && k < |digits|
    ensures 10 * Value(digits[..k]) <= Value(digits[..k + 1]) < 10 * Value(digits[..k]) + 10
  {
    assert digits[..k + 1] == digits[..k] + [digits[k]];
    Snoc(digits[..k], digits[k]);
  }

  /** The check knows exactly the assigned ranges. */
  lemma {:induction false} KnownIssuers(digits: string)
    requires AllDigits(digits) && 13 <= |digits|
    ensures MatchesKnownIssuer(digits) <==> IsAssigned(digits)
  {
    hide Value, Starts;
    PrefixesAre(digits);
    SixStartWithTwo(digits);
    var n := |digits|;
    var rs := RANGES;
    if MatchesKnownIssuer(digits) {
      var k := if n in {13, 16, 19} && Starts(digits, "4") then 0
        else if n == 16 && Between(digits, 51, 55, 2) then 1
        else if n == 16 && Between(digits, 2221, 2720, 4) then 2
        else if n == 15 && Starts(digits, "34") then 3
        else if n == 15 then 4
        else if n == 14 && Between(digits, 300, 305, 3) then 5
        else if n == 14 && Starts(digits, "3095") then 6
        else if n == 14 && Starts(digits, "36") then 7
        else if n == 14 then 8
        else if n in {16, 19} && Starts(digits, "6011") then 9
        else if n in {16, 19} && Starts(digits, "65") then 10
        else if n in {16, 19} && Between(digits, 644, 649, 3) then 11
        else if Between(digits, 3528, 3589, 4) then 12
        else 13;
      assert InRange(digits, rs[k]);
    }
  }

  // ---------- The check sum ----------

  /** The digits of a number below twenty, added up. */
  function CrossSum(n: nat): nat { n / 10 + n % 10 }

  /** From the right: a digit as it is, the next one doubled and its digits added up, and so on. */
  function LuhnSum(digits: string): nat
    requires AllDigits(digits)
  {
    if digits == "" then 0
    else
      var n := |digits|;
      DigitValue(digits[n - 1])
      + if n == 1 then 0 else CrossSum(2 * DigitValue(digits[n - 2])) + LuhnSum(digits[..n - 2])
  }

  lemma {:induction false} WeightIs(d: nat)
    requires d < 10
    ensures Weight(d, false) == d && Weight(d, true) == CrossSum(2 * d)
  {
  }

  /** The part of the sum that the front contributes, an even number of digits standing behind it. */
  lemma {:induction false} SumOfFront(digits: string, i: nat, n: nat)
    requires AllDigits(digits) && i <= n <= |digits| && (|digits| - n) % 2 == 0
    ensures SumFrom(digits, i) == SumFrom(digits[..n], i) + SumFrom(digits, n)
    decreases n - i
  {
    hide Weight;
    if i < n {
      SumOfFront(digits, i + 1, n);
      assert Doubled(digits, i) == Doubled(digits[..n], i);
    }
  }

  /** The loop's sum is that of the standard. */
  lemma {:induction false} SumIsLuhn(digits: string)
    requires AllDigits(digits)
    ensures SumFrom(digits, 0) == LuhnSum(digits)
    decreases |digits|
  {
    hide Weight, CrossSum;
    var n := |digits|;
    if n == 0 {
    } else if n == 1 {
      WeightIs(DigitValue(digits[0]));
      assert SumFrom(digits, 1) == 0;
    } else {
      SumIsLuhn(digits[..n - 2]);
      SumOfFront(digits, 0, n - 2);
      WeightIs(DigitValue(digits[n - 1]));
      WeightIs(DigitValue(digits[n - 2]));
      assert SumFrom(digits, n) == 0;
      assert SumFrom(digits, n - 1) == Weight(DigitValue(digits[n - 1]), false) + SumFrom(digits, n);
      assert SumFrom(digits, n - 2) == Weight(DigitValue(digits[n - 2]), true) + SumFrom(digits, n - 1);
    }
  }

  /** Accepted are exactly the candidates whose digits are an assigned number with a sum divisible by ten. */
  lemma {:induction false} ValidIs(candidate: string)
    ensures var digits := Digits(candidate);
      Valid(candidate) <==> 13 <= |digits| <= 19 && digits[0] != '0' && IsAssigned(digits) && LuhnSum(digits) % 10 == 0
  {
    hide Digits, MatchesKnownIssuer, IsAssigned, SumFrom, LuhnSum;
    var digits := Digits(candidate);
    SumIsLuhn(digits);
    if |digits| >= 13 { KnownIssuers(digits); }
  }
}
