/** Which exchange of two neighbours the IBAN check of packages/scanner/src/scanner.ts lets through. The fourth
    and the fifth character are no neighbours in the stream: one ends up last and the other first. */
module IbanSwaps {
  import opened Numbers
  import opened Strings
  import opened Iban

  predicate IsAlnumChar(c: char) { IsDigit(c) || IsLetter(c) }

  // ---------- The first and the last character apart ----------

  function Width(c: char): nat { if IsLetter(c) then 2 else 1 }

  /** How many digits the first `n` characters are written with. */
  function Digits(s: string, n: nat): nat
    requires n <= |s|
  {
    if n == 0 then 0 else Digits(s, n - 1) + Width(s[n - 1])
  }

  lemma {:induction false} ValueStep(s: string, n: nat)
    requires 0 < n <= |s| && IsAlnum(s)
    ensures Value(Expanded(s, n)) == Factor(s[n - 1]) * Value(Expanded(s, n - 1)) + CodeOf(s[n - 1])
  {
    hide Value, Shown;
    ShownValue(Expanded(s, n - 1), s[n - 1]);
  }

  lemma {:induction false} DigitsStep(s: string, n: nat)
    requires 0 < n <= |s|
    ensures Pow10(Digits(s, n)) == Factor(s[n - 1]) * Pow10(Digits(s, n - 1))
  {
    var k := Digits(s, n - 1);
    assert Pow10(k + 1) == 10 * Pow10(k) && Pow10(k + 2) == 10 * Pow10(k + 1);
  }

  lemma {:induction false} Regroup(f: int, c: int, p: int, v: int, d: int)
    ensures f * (c * p + v) + d == c * (f * p) + (f * v + d)
  {
    assert f * (c * p) == c * (f * p);
  }

  lemma {:induction false} HeadApart(c: char, m: string, n: nat)
    requires n <= |m| && IsAlnum(m) && IsAlnumChar(c)
    ensures IsAlnum([c] + m) && Value(Expanded([c] + m, n + 1)) == CodeOf(c) * Pow10(Digits(m, n)) + Value(Expanded(m, n))
  {
    hide Value, Expanded, Digits, Pow10;
    var s := [c] + m;
    ValueStep(s, n + 1);
    if n == 0 {
      NoDigits(s);
      NoDigits(m);
    } else {
      HeadApart(c, m, n - 1);
      ValueStep(m, n);
      DigitsStep(m, n);
      Regroup(Factor(m[n - 1]), CodeOf(c), Pow10(Digits(m, n - 1)), Value(Expanded(m, n - 1)), CodeOf(m[n - 1]));
    }
  }

  lemma {:induction false} NoDigits(s: string)
    requires IsAlnum(s)
    ensures Value(Expanded(s, 0)) == 0 && Pow10(Digits(s, 0)) == 1
  {
  }

  lemma {:induction false} FrontOnly(s: string, c: char, n: nat)
    requires n <= |s| && IsAlnum(s) && IsAlnumChar(c)
    ensures IsAlnum(s + [c]) && Expanded(s + [c], n) == Expanded(s, n)
  {
    hide Shown;
    if n == 0 {
    } else {
      FrontOnly(s, c, n - 1);
    }
  }

  /** The number of a stream: `m` between a first and a last character, of which the last weighs `f`. */
  function Stream(f: int, first: int, p: int, m: int, last: int): int { f * (first * p + m) + last }

  lemma {:induction false} StreamNat(f: nat, first: nat, p: nat, m: nat, last: nat)
    ensures Stream(f, first, p, m, last) >= 0 && f * p >= 0
  {
    assert first * p >= 0;
  }

  /** What the check computes for a stream, by its first character, its last one, and those between. */
  lemma {:induction false} EndsApart(first: char, m: string, last: char)
    requires IsAlnum(m) && IsAlnumChar(first) && IsAlnumChar(last)
    ensures var s := [first] + m + [last];
      && IsAlnum(s)
      && Remainder(s, |s|) == Stream(Factor(last), CodeOf(first), Pow10(Digits(m, |m|)), Value(Expanded(m, |m|)), CodeOf(last)) % 97
  {
    hide Value, Expanded, Digits, Pow10, Remainder, Factor;
    var s := [first] + m + [last];
    HeadApart(first, m, |m|);
    FrontOnly([first] + m, last, |m| + 1);
    StreamIsWhole(s, |s|);
    ValueStep(s, |s|);
  }

  // ---------- Powers of ten modulo 97 ----------

  lemma {:induction false} PowerSum(j: nat, k: nat)
    ensures Pow10(j + k) == Pow10(j) * Pow10(k)
    decreases k
  {
    if k == 0 {
    } else {
      PowerSum(j, k - 1);
      assert Pow10(j) * (10 * Pow10(k - 1)) == 10 * (Pow10(j) * Pow10(k - 1));
    }
  }

  lemma {:induction false} ModProduct(a: nat, b: nat)
    ensures (a * b) % 97 == ((a % 97) * (b % 97)) % 97
  {
    var q, r, p, s := a / 97, a % 97, b / 97, b % 97;
    assert a * b == (97 * q + r) * (97 * p + s) == 97 * (q * (97 * p + s) + r * p) + r * s;
    ModShift(r * s, q * (97 * p + s) + r * p);
  }

  lemma {:induction false} PowerMod(j: nat, k: nat)
    ensures Pow10(j + k) % 97 == ((Pow10(j) % 97) * (Pow10(k) % 97)) % 97
  {
    hide Pow10;
    PowerSum(j, k);
    ModProduct(Pow10(j), Pow10(k));
  }

  lemma {:induction false} PowerValue(j: nat, k: nat, a: nat, b: nat, c: nat)
    requires Pow10(j) % 97 == a && Pow10(k) % 97 == b && (a * b) % 97 == c
    ensures Pow10(j + k) % 97 == c
  {
    hide Pow10;
    PowerMod(j, k);
  }

  lemma {:induction false} SquarePower()
    ensures Pow10(0) % 97 == 1 && Pow10(2) % 97 == 3
  {
    assert Pow10(1) == 10 * Pow10(0) && Pow10(2) == 10 * Pow10(1);
  }

  /** The powers that a smaller period of the powers of ten would make one. */
  lemma {:induction false} LandmarkPowers()
    ensures Pow10(32) % 97 == 61 && Pow10(48) % 97 == 96 && Pow10(64) % 97 == 35 && Pow10(96) % 97 == 1
  {
    hide Pow10;
    SquarePower();
    PowerValue(2, 2, 3, 3, 9);
    PowerValue(4, 4, 9, 9, 81);
    PowerValue(8, 8, 81, 81, 62);
    PowerValue(16, 16, 62, 62, 61);
    PowerValue(16, 32, 62, 61, 96);
    PowerValue(32, 32, 61, 61, 35);
    PowerValue(48, 48, 96, 96, 1);
  }

  lemma {:induction false} OnesRepeat(k: nat, m: nat)
    requires Pow10(k) % 97 == 1
    ensures Pow10(m * k) % 97 == 1
    decreases m
  {
    hide Pow10;
    SquarePower();
    if m == 0 {
      assert m * k == 0;
    } else {
      OnesRepeat(k, m - 1);
      PowerMod((m - 1) * k, k);
      assert (m - 1) * k + k == m * k;
    }
  }

  lemma {:induction false} Wraps(q: nat, r: nat)
    ensures Pow10(96 * q + r) % 97 == Pow10(r) % 97
  {
    hide Pow10;
    LandmarkPowers();
    OnesRepeat(96, q);
    PowerMod(q * 96, r);
  }

  lemma {:induction false} EvenFactor(k: nat, m: nat, a: nat)
    requires Pow10(k) % 97 == 1 && m * k == 48 * a
    ensures a == 2 * (a / 2)
  {
    hide Pow10;
    OnesRepeat(k, m);
    Wraps(a / 2, 48);
    LandmarkPowers();
  }

  lemma {:induction false} MultipleOf32(k: nat)
    requires Pow10(k) % 97 == 1
    ensures k % 32 == 0
  {
    hide Pow10;
    EvenFactor(k, 48, k);
    var a := k / 2;
    EvenFactor(k, 24, a);
    var b := a / 2;
    EvenFactor(k, 12, b);
    var c := b / 2;
    EvenFactor(k, 6, c);
    var d := c / 2;
    EvenFactor(k, 3, d);
  }

  lemma {:induction false} NotOneBefore(k: nat)
    requires 0 < k < 96
    ensures Pow10(k) % 97 != 1
  {
    hide Pow10;
    LandmarkPowers();
    if Pow10(k) % 97 == 1 { MultipleOf32(k); }
  }

  /** Ten is a primitive root of 97: its powers come back to one every 96th time only. */
  lemma {:induction false} OneEvery96(k: nat)
    ensures Pow10(k) % 97 == 1 <==> k % 96 == 0
  {
    hide Pow10;
    SquarePower();
    Wraps(k / 96, k % 96);
    if k % 96 != 0 { NotOneBefore(k % 96); }
  }

  /** 97 is prime. */
  lemma {:induction false} Prime(a: nat, b: int, k: int) returns (j: int)
    requires 0 < a < 36 && a * b == 97 * k
    ensures b == 97 * j
  {
    if a == 1 {
      j := k;
    } else {
      var q, r := 97 / a, 97 % a;
      NoDivisor(a);
      assert r * b == 97 * b - q * (a * b) == 97 * (b - q * k) by {
        assert 97 == q * a + r;
        assert q * (a * b) == (q * a) * b;
        assert q * (97 * k) == 97 * (q * k);
      }
      j := Prime(r, b, b - q * k);
    }
  }

  lemma {:induction false} NoDivisor(a: nat)
    requires 2 <= a < 36
    ensures 0 < 97 % a < a
  {
  }

  // ---------- The fourth and the fifth character exchanged ----------

  /** What lies between them in the stream. */
  function Middle(s: string): (m: string)
    requires |s| >= 5
    ensures |m| == |s| - 2
  {
    s[5..] + s[..3]
  }

  function MiddleDigits(s: string): nat
    requires |s| >= 5
  {
    Digits(Middle(s), |s| - 2)
  }

  lemma {:induction false} StreamOf(s: string)
    requires |s| >= 5
    ensures Rearranged(s) == [s[4]] + Middle(s) + [s[3]]
  {
    assert s[4..] == [s[4]] + s[5..] && s[..4] == s[..3] + [s[3]];
  }

  /** The remainders of both, by the two characters and what they enclose. */
  lemma {:induction false} BothRemainders(s: string, t: string)
    requires IsAlnum(s) && IsAlnum(t) && Swapped(s, t, 3)
    ensures IsAlnum(Middle(s))
    ensures var x, y, p, m := CodeOf(s[3]), CodeOf(s[4]), Pow10(MiddleDigits(s)), Value(Expanded(Middle(s), |s| - 2));
      && Remainder(Rearranged(s), |s|) == Stream(Factor(s[3]), y, p, m, x) % 97
      && Remainder(Rearranged(t), |t|) == Stream(Factor(s[4]), x, p, m, y) % 97
  {
    hide Remainder, Expanded, Rearranged, Value, Pow10, Digits, Factor, CodeOf, Stream;
    assert Middle(t) == Middle(s);
    StreamOf(s);
    StreamOf(t);
    EndsApart(s[4], Middle(s), s[3]);
    EndsApart(t[4], Middle(s), t[3]);
  }

  lemma {:induction false} SameKindTexts(f: int, x: int, y: int, p: int, m: int)
    ensures Stream(f, y, p, m, x) - Stream(f, x, p, m, y) == (y - x) * (f * p - 1)
  {
    assert f * (y * p + m) == y * (f * p) + f * m && f * (x * p + m) == x * (f * p) + f * m;
    assert (y - x) * (f * p - 1) == y * (f * p) - x * (f * p) - (y - x);
  }

  lemma {:induction false} SameRest(u: int, v: int, k: int)
    requires u - v == 97 * k && u >= 0 && v >= 0
    ensures u % 97 == v % 97
  {
    if k >= 0 { ModShift(v, k); } else { ModShift(u, -k); }
  }

  /** A product with a small number is a multiple of 97 only if the other factor is. */
  lemma {:induction false} DifferenceGone(x: nat, y: nat, q: nat, k: int)
    requires x < 36 && y < 36 && x != y && q >= 1 && (y - x) * (q - 1) == 97 * k
    ensures q % 97 == 1
  {
    var j: int;
    if y > x {
      j := Prime(y - x, q - 1, k);
    } else {
      Negated(y - x, q - 1);
      j := Prime(x - y, q - 1, -k);
    }
    SameRest(q, 1, j);
  }

  lemma {:induction false} Negated(a: int, b: int)
    ensures (-a) * b == -(a * b)
  {
  }

  lemma {:induction false} ProductGone(u: nat, v: nat, x: nat, y: nat, q: nat)
    requires x < 36 && y < 36 && q >= 1 && u - v == (y - x) * (q - 1)
    ensures u % 97 == v % 97 <==> x == y || q % 97 == 1
  {
    if x == y {
      SameRest(u, v, 0);
    } else if u % 97 == v % 97 {
      var k := SameRemainder(u, v);
      DifferenceGone(x, y, q, k);
    } else if q % 97 == 1 {
      var k := SameRemainder(q, 1);
      Multiplied(y - x, k);
      SameRest(u, v, (y - x) * k);
    }
  }

  lemma {:induction false} Multiplied(a: int, k: int)
    ensures a * (97 * k) == 97 * (a * k)
  {
  }

  lemma {:induction false} SameKindRemainders(f: nat, x: nat, y: nat, p: nat, m: nat)
    requires x < 36 && y < 36 && f * p >= 1
    ensures Stream(f, y, p, m, x) % 97 == Stream(f, x, p, m, y) % 97 <==> x == y || (f * p) % 97 == 1
  {
    hide Stream;
    SameKindTexts(f, x, y, p, m);
    StreamNat(f, y, p, m, x);
    StreamNat(f, x, p, m, y);
    ProductGone(Stream(f, y, p, m, x), Stream(f, x, p, m, y), x, y, f * p);
  }

  /** Two digits, or two letters: the exchange is missed exactly when they are equal or the digits between
      them and of one of them are a multiple of 96 in number. */
  lemma {:induction false} SameKindFourth(s: string, t: string)
    requires IsAlnum(s) && IsAlnum(t) && Swapped(s, t, 3) && SameKind(s[3], s[4])
    ensures Remainder(Rearranged(s), |s|) == Remainder(Rearranged(t), |t|)
       <==> s[3] == s[4] || (MiddleDigits(s) + Width(s[3])) % 96 == 0
  {
    hide Remainder, Rearranged, Value, Expanded, Digits, Middle, Stream;
    BothRemainders(s, t);
    var d := MiddleDigits(s);
    var x, y, p, m := CodeOf(s[3]), CodeOf(s[4]), Pow10(d), Value(Expanded(Middle(s), |s| - 2));
    SameKindRemainders(Factor(s[3]), x, y, p, m);
    assert Pow10(d + 1) == 10 * p && Pow10(d + 2) == 10 * Pow10(d + 1);
    OneEvery96(d + Width(s[3]));
  }

  lemma {:induction false} MixedTexts(x: int, y: int, p: int, m: int)
    ensures Stream(100, y, p, m, x) - Stream(10, x, p, m, y) == 90 * m + (y * (100 * p - 1) - x * (10 * p - 1))
  {
    assert y * (100 * p - 1) == 100 * (y * p) - y && x * (10 * p - 1) == 10 * (x * p) - x;
  }

  /** The remainder that all between a letter and a digit must have for their exchange to be missed. */
  function MissedRemainder(letter: char, digit: char, digits: nat): int {
    (14 * (CodeOf(digit) * (100 * Pow10(digits) - 1) - CodeOf(letter) * (10 * Pow10(digits) - 1))) % 97
  }

  lemma {:induction false} ModAny(m: int, k: int)
    ensures (m + 97 * k) % 97 == m % 97
  {
    var q := (m + 97 * k) / 97;
    assert m - 97 * (q - k) == (m + 97 * k) % 97;
    assert (q - k) == m / 97;
  }

  lemma {:induction false} MixedRemainders(x: nat, y: nat, p: nat, m: nat)
    ensures Stream(100, y, p, m, x) % 97 == Stream(10, x, p, m, y) % 97
       <==> m % 97 == (14 * (y * (100 * p - 1) - x * (10 * p - 1))) % 97
  {
    hide Stream;
    var u, v, c := Stream(100, y, p, m, x), Stream(10, x, p, m, y), y * (100 * p - 1) - x * (10 * p - 1);
    MixedTexts(x, y, p, m);
    StreamNat(100, y, p, m, x);
    StreamNat(10, x, p, m, y);
    SameRests(u, v, m, c);
  }

  lemma {:induction false} SameRests(u: nat, v: nat, m: nat, c: int)
    requires u - v == 90 * m + c
    ensures u % 97 == v % 97 <==> m % 97 == (14 * c) % 97
  {
    if u % 97 == v % 97 {
      var k := SameRemainder(u, v);
      assert 14 * c == m + 97 * (14 * k - 13 * m);
      ModAny(m, 14 * k - 13 * m);
    }
    if m % 97 == (14 * c) % 97 {
      var k := m / 97 - (14 * c) / 97;
      SameRest(u, v, 13 * c + 90 * k);
    }
  }

  /** A letter and a digit: of the 97 remainders that what lies between them can have, one lets the exchange
      through. */
  lemma {:induction false} MixedFourth(s: string, t: string)
    requires IsAlnum(s) && IsAlnum(t) && Swapped(s, t, 3) && IsLetter(s[3]) && IsDigit(s[4])
    ensures IsAlnum(Middle(s))
    ensures Remainder(Rearranged(s), |s|) == Remainder(Rearranged(t), |t|)
       <==> Remainder(Middle(s), |s| - 2) == MissedRemainder(s[3], s[4], MiddleDigits(s))
  {
    hide Remainder, Rearranged, Value, Expanded, Digits, Middle, Stream;
    BothRemainders(s, t);
    var x, y, p, m := CodeOf(s[3]), CodeOf(s[4]), Pow10(MiddleDigits(s)), Value(Expanded(Middle(s), |s| - 2));
    StreamIsWhole(Middle(s), |s| - 2);
    MixedRemainders(x, y, p, m);
  }

  // ---------- Every exchange of neighbours ----------

  /** The exchange of the characters at `i` and `i + 1` leaves the remainder as it was. */
  predicate Missed(s: string, i: nat)
    requires i + 1 < |s| && IsAlnum(s)
  {
    if i != 3 then Unnoticed(s[i], s[i + 1])
    else if IsLetter(s[3]) == IsLetter(s[4]) then s[3] == s[4] || (MiddleDigits(s) + Width(s[3])) % 96 == 0
    else if IsLetter(s[3]) then Remainder(Middle(s), |s| - 2) == MissedRemainder(s[3], s[4], MiddleDigits(s))
    else Remainder(Middle(s), |s| - 2) == MissedRemainder(s[4], s[3], MiddleDigits(s))
  }

  lemma {:induction false} FourthDecides(s: string, t: string)
    requires IsAlnum(s) && IsAlnum(t) && Swapped(s, t, 3)
    ensures Remainder(Rearranged(s), |s|) == Remainder(Rearranged(t), |t|) <==> Missed(s, 3)
  {
    hide Remainder, Rearranged, Digits, MissedRemainder;
    if IsLetter(s[3]) == IsLetter(s[4]) {
      SameKindFourth(s, t);
    } else if IsLetter(s[3]) {
      MixedFourth(s, t);
    } else {
      MixedFourth(t, s);
      assert Middle(t) == Middle(s);
    }
  }

  /** An accepted value with two neighbours exchanged is accepted again exactly when the exchange is missed. */
  lemma {:induction false} SwapDecides(s: string, t: string, i: nat)
    requires IsAlnum(s) && IsAlnum(t) && Swapped(s, t, i) && Plausible(s)
    ensures Plausible(t) <==> Missed(s, i)
  {
    hide Remainder, Rearranged, Unnoticed, Middle, Digits, MissedRemainder;
    if i == 3 {
      FourthDecides(s, t);
    } else {
      RearrangedAlnum(s);
      RearrangedAlnum(t);
      SwapRearranged(s, t, i);
      var cut := if |s| < 4 then |s| else 4;
      SwapChangesRemainder(Rearranged(s), Rearranged(t), if i < cut then |s| - cut + i else i - cut);
    }
  }

  /** A value as the rule's pattern, packages/scanner/src/rules.ts:201, captures it. */
  predicate Captured(s: string) {
    15 <= |s| <= 34 && IsAlnum(s) && IsLetter(s[0]) && IsLetter(s[1]) && IsDigit(s[2]) && IsDigit(s[3])
  }

  lemma {:induction false} DigitsBound(s: string, n: nat)
    requires n <= |s|
    ensures n <= Digits(s, n) <= 2 * n
  {
    if n == 0 {
    } else {
      DigitsBound(s, n - 1);
    }
  }

  /** Among the values that the pattern captures, the exchange of any two neighbours is missed exactly when they
      are equal, or are B and 1, M and 2, or X and 3. */
  lemma {:induction false} CapturedSwapDecides(s: string, t: string, i: nat)
    requires Captured(s) && Captured(t) && Swapped(s, t, i) && Plausible(s)
    ensures Plausible(t) <==> Unnoticed(s[i], s[i + 1])
  {
    hide Remainder, Rearranged, Digits, Middle;
    SwapDecides(s, t, i);
    if i == 3 {
      assert s[4] == t[3] && IsDigit(s[3]) && IsDigit(s[4]);
      DigitsBound(Middle(s), |s| - 2);
    }
  }

  lemma {:induction false} RemainderStep(s: string, n: nat, r: nat, c: char, q: nat)
    requires n < |s| && Remainder(s, n) == r && r < 97 && s[n] == c && IsAlnumChar(c) && q == (Factor(c) * r + CodeOf(c)) % 97
    ensures Remainder(s, n + 1) == q
  {
    hide Feed;
    SmallMod(r);
    FeedIsMod(r, c);
  }

  lemma {:induction false} NothingFed(s: string)
    ensures Remainder(s, 0) == 0
  {
  }

  lemma {:induction false} FirstShows()
    ensures Plausible("0290B")
  {
    var s := "B0290";
    assert Rearranged("0290B") == s;
    hide Remainder, Rearranged, Feed;
    NothingFed(s);
    RemainderStep(s, 0, 0, 'B', 11);
    RemainderStep(s, 1, 11, '0', 13);
    RemainderStep(s, 2, 13, '2', 35);
    RemainderStep(s, 3, 35, '9', 68);
    RemainderStep(s, 4, 68, '0', 1);
  }

  lemma {:induction false} SecondShows()
    ensures Plausible("029B0")
  {
    var s := "0029B";
    assert Rearranged("029B0") == s;
    hide Remainder, Rearranged, Feed;
    NothingFed(s);
    RemainderStep(s, 0, 0, '0', 0);
    RemainderStep(s, 1, 0, '0', 0);
    RemainderStep(s, 2, 0, '2', 2);
    RemainderStep(s, 3, 2, '9', 29);
    RemainderStep(s, 4, 29, 'B', 1);
  }

  /** A letter and a digit at the fourth and fifth place may be exchanged unnoticed though they are no such pair. */
  lemma {:induction false} FourthShows()
    ensures Plausible("0290B") && Plausible("029B0") && Swapped("0290B", "029B0", 3) && !Unnoticed('0', 'B')
  {
    hide Plausible;
    FirstShows();
    SecondShows();
  }
}
