/** The IBAN check of packages/scanner/src/scanner.ts: ISO/IEC 7064 MOD 97-10, one digit at a time. */
module Iban {
  import opened Numbers
  import opened Strings

  predicate IsLetter(c: char) { 'A' <= c <= 'Z' }

  predicate IsAlnum(s: string) { forall i :: 0 <= i < |s| ==> IsDigit(s[i]) || IsLetter(s[i]) }

  predicate SameKind(c: char, d: char) { (IsDigit(c) && IsDigit(d)) || (IsLetter(c) && IsLetter(d)) }

  /** The number a letter or digit stands for; any other character counts by its code. */
  function CodeOf(c: char): int { if IsLetter(c) then c as int - 55 else c as int - 48 }

  /** `a % 97` with the sign of `a`. */
  function Rem97(a: int): int { if a >= 0 then a % 97 else -((-a) % 97) }

  /** The remainder of the runtime: it has the sign of the dividend, so it is negative for one below zero. */
  lemma {:induction false} RemainderHasSign(a: int)
    ensures var r := Rem97(a); -97 < r < 97 && (r > 0 ==> a > 0) && (r < 0 ==> a < 0) && (a - r) % 97 == 0
  {
    var b := if a >= 0 then a else -a;
    assert b == 97 * (b / 97) + b % 97;
    MultipleOf97(b / 97);
    MultipleOf97(-(b / 97));
  }

  lemma {:induction false} MultipleOf97(q: int)
    ensures (97 * q) % 97 == 0
  {
  }

  /** The remainder after one more character: a letter is two digits. */
  function Feed(r: int, c: char): int {
    if IsLetter(c) then Rem97(Rem97(r * 10 + CodeOf(c) / 10) * 10 + CodeOf(c) % 10)
    else Rem97(r * 10 + CodeOf(c))
  }

  function Remainder(s: string, n: nat): int
    requires n <= |s|
  {
    if n == 0 then 0 else Feed(Remainder(s, n - 1), s[n - 1])
  }

  function Rearranged(value: string): string {
    var cut := if |value| < 4 then |value| else 4;
    value[cut..] + value[..cut]
  }

  predicate Plausible(value: string) { Remainder(Rearranged(value), |value|) == 1 }

  method IsPlausibleIban(value: string) returns (plausible: bool)
    ensures plausible == Plausible(value)
  {
    hide Feed;
    var rearranged := Rearranged(value);
    assert |rearranged| == |value|;
    var remainder := 0;
    for i := 0 to |rearranged|
      invariant remainder == Remainder(rearranged, i)
    {
      remainder := FeedDigits(remainder, rearranged[i]);
    }
    plausible := remainder == 1;
  }

  method FeedDigits(before: int, ch: char) returns (remainder: int)
    ensures remainder == Feed(before, ch)
  {
    remainder := before;
    var code := ch as int;
    var digits := [ch];
    if 65 <= code <= 90 {
      TwoDigits(code - 55);
      digits := Decimal(code - 55);
    }
    var k := 0;
    while k < |digits|
      invariant k <= |digits|
      invariant k == 0 ==> remainder == before
      invariant !IsLetter(ch) ==> digits == [ch] && (k == 1 ==> remainder == Feed(before, ch))
      invariant IsLetter(ch) ==> digits == [Digit(CodeOf(ch) / 10), Digit(CodeOf(ch) % 10)]
      invariant IsLetter(ch) && k == 1 ==> remainder == Rem97(before * 10 + CodeOf(ch) / 10)
      invariant IsLetter(ch) && k == 2 ==> remainder == Feed(before, ch)
    {
      remainder := Rem97(remainder * 10 + (digits[k] as int - 48));
      k := k + 1;
    }
  }

  lemma {:induction false} TwoDigits(n: nat)
    requires 10 <= n < 100
    ensures Decimal(n) == [Digit(n / 10), Digit(n % 10)]
  {
  }

  // ---------- The streamed remainder is that of the whole number ----------

  /** The digits with every letter written as its number, A as 10 to Z as 35. */
  function Expanded(s: string, n: nat): string
    requires n <= |s| && IsAlnum(s)
  {
    if n == 0 then ""
    else Expanded(s, n - 1) + Shown(s[n - 1])
  }

  function Shown(c: char): string { if IsLetter(c) then Decimal(CodeOf(c)) else [c] }

  /** The letters are A to Z by their codes, and are shown as the numbers from 10 to 35; a digit is shown as it is. */
  lemma {:induction false} ShownIs(c: char)
    ensures IsLetter(c) <==> 65 <= c as int <= 90
    ensures 65 <= c as int <= 90 ==>
      var place := c as int - 65; Shown(c) == [(48 + (place + 10) / 10) as char, (48 + (place + 10) % 10) as char]
    ensures 48 <= c as int <= 57 ==> Shown(c) == [c] && CodeOf(c) == c as int - 48
  {
    if IsLetter(c) { TwoDigits(CodeOf(c)); }
  }

  lemma {:induction false} ShownValue(front: string, c: char)
    requires IsDigit(c) || IsLetter(c)
    ensures Value(front + Shown(c)) == if IsLetter(c) then 100 * Value(front) + CodeOf(c) else 10 * Value(front) + CodeOf(c)
  {
    hide Value, Decimal;
    if IsLetter(c) {
      var v := CodeOf(c);
      TwoDigits(v);
      ValueAppend(front, Digit(v / 10));
      ValueAppend(front + [Digit(v / 10)], Digit(v % 10));
      assert front + Decimal(v) == front + [Digit(v / 10)] + [Digit(v % 10)];
    } else {
      ValueAppend(front, c);
    }
  }

  lemma {:induction false} ValueAppend(digits: string, d: char)
    requires IsDigit(d)
    ensures Value(digits + [d]) == 10 * Value(digits) + DigitValue(d)
  {
    assert (digits + [d])[..|digits|] == digits;
  }

  lemma {:induction false} FeedIsMod(x: nat, c: char)
    requires IsDigit(c) || IsLetter(c)
    ensures Feed(x % 97, c) == (if IsLetter(c) then 100 * x + CodeOf(c) else 10 * x + CodeOf(c)) % 97
    ensures 0 <= Feed(x % 97, c) < 97
  {
    var r := x % 97;
    if IsLetter(c) {
      var v := CodeOf(c);
      ModStep(x, v / 10);
      ModStep(10 * x + v / 10, v % 10);
    } else {
      ModStep(x, CodeOf(c));
    }
  }

  lemma {:induction false} ModStep(x: nat, d: nat)
    ensures ((x % 97) * 10 + d) % 97 == (10 * x + d) % 97
  {
    var q, r := x / 97, x % 97;
    assert 10 * x + d == 97 * (10 * q) + (10 * r + d);
    ModShift(10 * r + d, 10 * q);
  }

  lemma {:induction false} ModShift(a: nat, k: nat)
    ensures (97 * k + a) % 97 == a % 97
  {
    if k == 0 {
    } else {
      ModShift(a, k - 1);
      assert 97 * k + a == 97 * (k - 1) + a + 97;
    }
  }

  /** The loop computes the remainder of the expanded number. */
  lemma {:induction false} StreamIsWhole(s: string, n: nat)
    requires n <= |s| && IsAlnum(s)
    ensures Remainder(s, n) == Value(Expanded(s, n)) % 97
  {
    hide Feed, Shown, Value;
    if n == 0 {
      NothingShown();
    } else {
      StreamIsWhole(s, n - 1);
      FeedIsMod(Value(Expanded(s, n - 1)), s[n - 1]);
      ShownValue(Expanded(s, n - 1), s[n - 1]);
    }
  }

  lemma {:induction false} NothingShown()
    ensures Value("") % 97 == 0
  {
  }

  /** Accepted are exactly the values whose rearranged, expanded number is one modulo 97. */
  lemma {:induction false} PlausibleIsOneMod97(value: string)
    requires IsAlnum(value)
    ensures IsAlnum(Rearranged(value))
    ensures Plausible(value) <==> Value(Expanded(Rearranged(value), |value|)) % 97 == 1
  {
    hide Remainder, Expanded, Value;
    RearrangedAlnum(value);
    StreamIsWhole(Rearranged(value), |value|);
  }

  // ---------- Errors that are always caught ----------

  lemma {:induction false} RemainderRange(s: string, n: nat)
    requires n <= |s| && IsAlnum(s)
    ensures 0 <= Remainder(s, n) < 97
  {
    StreamIsWhole(s, n);
  }

  lemma {:induction false} SameRemainder(u: nat, v: nat) returns (k: int)
    requires u % 97 == v % 97
    ensures u - v == 97 * k
  {
    k := u / 97 - v / 97;
  }

  lemma {:induction false} TenInvertible(x: int, k: int)
    requires 10 * x == 97 * k && -97 < x < 97
    ensures x == 0
  {
    assert k == 10 * (3 * (x - 9 * k) - 2 * k);
  }

  lemma {:induction false} HundredInvertible(x: int, k: int)
    requires 100 * x == 97 * k && -97 < x < 97
    ensures x == 0
  {
    var m := x - 32 * (k - x);
    assert k - x == 3 * m;
    assert x == 97 * m;
  }

  /** Different remainders stay different: 10 and 100 have inverses modulo 97. */
  lemma {:induction false} FeedInjective(r: nat, q: nat, c: char)
    requires r < 97 && q < 97 && r != q && (IsDigit(c) || IsLetter(c))
    ensures Feed(r, c) != Feed(q, c)
  {
    hide Feed;
    SmallMod(r);
    SmallMod(q);
    FeedIsMod(r, c);
    FeedIsMod(q, c);
    if Feed(r, c) == Feed(q, c) {
      if IsLetter(c) {
        var k := SameRemainder(100 * r + CodeOf(c), 100 * q + CodeOf(c));
        HundredInvertible(r - q, k);
      } else {
        var k := SameRemainder(10 * r + CodeOf(c), 10 * q + CodeOf(c));
        TenInvertible(r - q, k);
      }
    }
  }

  lemma {:induction false} SmallMod(r: nat)
    requires r < 97
    ensures r % 97 == r
  {
  }

  /** Different characters of one kind lead to different remainders. */
  lemma {:induction false} FeedDistinguishes(r: nat, c: char, d: char)
    requires r < 97 && c != d && SameKind(c, d)
    ensures Feed(r, c) != Feed(r, d)
  {
    hide Feed;
    SmallMod(r);
    FeedIsMod(r, c);
    FeedIsMod(r, d);
    var x := if IsLetter(c) then 100 * r else 10 * r;
    if Feed(r, c) == Feed(r, d) {
      var k := SameRemainder(x + CodeOf(c), x + CodeOf(d));
    }
  }

  lemma {:induction false} OneDifference(s: string, t: string, i: nat, n: nat)
    requires IsAlnum(s) && IsAlnum(t) && DifferAt(s, t, i) && SameKind(s[i], t[i]) && n <= |s|
    ensures Remainder(s, n) == Remainder(t, n) <==> n <= i
  {
    hide Feed;
    if n == 0 {
    } else {
      OneDifference(s, t, i, n - 1);
      RemainderRange(s, n - 1);
      RemainderRange(t, n - 1);
      if n - 1 == i {
        FeedDistinguishes(Remainder(s, n - 1), s[i], t[i]);
      } else if n - 1 > i {
        FeedInjective(Remainder(s, n - 1), Remainder(t, n - 1), s[n - 1]);
      }
    }
  }

  lemma {:induction false} RearrangedAt(value: string, i: nat)
    requires i < |value|
    ensures var cut := if |value| < 4 then |value| else 4;
      var at := if i < cut then |value| - cut + i else i - cut;
      |Rearranged(value)| == |value| && at < |value| && Rearranged(value)[at] == value[i]
  {
  }

  lemma {:induction false} RearrangedAlnum(value: string)
    requires IsAlnum(value)
    ensures IsAlnum(Rearranged(value)) && |Rearranged(value)| == |value|
  {
  }

  /** No two accepted strings, of any length, differ in one character of the same kind. */
  lemma {:induction false} SubstitutionCaught(s: string, t: string, i: nat)
    requires IsAlnum(s) && IsAlnum(t) && DifferAt(s, t, i) && SameKind(s[i], t[i])
    ensures !(Plausible(s) && Plausible(t))
  {
    hide Feed, Remainder, Rearranged;
    RearrangedAlnum(s);
    RearrangedAlnum(t);
    RearrangedAt(s, i);
    RearrangedAt(t, i);
    var cut := if |s| < 4 then |s| else 4;
    var at := if i < cut then |s| - cut + i else i - cut;
    forall j | 0 <= j < |s| && j != at ensures Rearranged(s)[j] == Rearranged(t)[j] {
      var k := if j < |s| - cut then j + cut else j - (|s| - cut);
      RearrangedAt(s, k);
      RearrangedAt(t, k);
    }
    OneDifference(Rearranged(s), Rearranged(t), at, |s|);
  }

  // ---------- Two neighbours swapped ----------

  /** A letter and a digit that may change places unnoticed. */
  predicate Twins(c: char, d: char) { (c == 'B' && d == '1') || (c == 'M' && d == '2') || (c == 'X' && d == '3') }

  predicate Unnoticed(c: char, d: char) { c == d || Twins(c, d) || Twins(d, c) }

  lemma {:induction false} TwinsAre(c: char, d: char)
    ensures Twins(c, d) <==> IsLetter(c) && IsDigit(d) && CodeOf(c) == 11 * CodeOf(d)
  {
  }

  function Factor(c: char): nat { if IsLetter(c) then 100 else 10 }

  lemma {:induction false} FeedTwo(r: nat, c: char, d: char)
    requires r < 97 && (IsDigit(c) || IsLetter(c)) && (IsDigit(d) || IsLetter(d))
    ensures Feed(Feed(r, c), d) == (Factor(d) * (Factor(c) * r + CodeOf(c)) + CodeOf(d)) % 97
  {
    hide Feed;
    SmallMod(r);
    FeedIsMod(r, c);
    FeedIsMod(Factor(c) * r + CodeOf(c), d);
  }

  lemma {:induction false} NineInvertible(x: int, k: int)
    requires 9 * x == 97 * k && -97 < x < 97
    ensures x == 0
  {
    var m := 54 * k - 5 * x;
    assert x == 97 * m;
  }

  lemma {:induction false} NinetyNineInvertible(x: int, k: int)
    requires 99 * x == 97 * k && -97 < x < 97
    ensures x == 0
  {
    var m := k - x;
    assert 2 * x == 97 * m;
    assert x == 97 * (x - 48 * m);
  }

  lemma {:induction false} SameFactor(f: nat, r: nat, x: nat, y: nat)
    requires (f == 10 && x < 10 && y < 10) || (f == 100 && 10 <= x < 36 && 10 <= y < 36)
    requires (f * (f * r + x) + y) % 97 == (f * (f * r + y) + x) % 97
    ensures x == y
  {
    if f == 10 {
      var k := SameRemainder(10 * (10 * r + x) + y, 10 * (10 * r + y) + x);
      NineInvertible(x - y, k);
    } else {
      var k := SameRemainder(100 * (100 * r + x) + y, 100 * (100 * r + y) + x);
      NinetyNineInvertible(x - y, k);
    }
  }

  lemma {:induction false} OtherFactor(r: nat, letter: nat, digit: nat)
    requires 10 <= letter < 36 && digit < 10
    requires (10 * (100 * r + letter) + digit) % 97 == (100 * (10 * r + digit) + letter) % 97
    ensures letter == 11 * digit
  {
    var k := SameRemainder(10 * (100 * r + letter) + digit, 100 * (10 * r + digit) + letter);
    NineInvertible(letter - 11 * digit, k);
  }

  lemma {:induction false} PairsCongruent(r: nat, c: char, d: char)
    requires r < 97 && (IsDigit(c) || IsLetter(c)) && (IsDigit(d) || IsLetter(d))
    requires Feed(Feed(r, c), d) == Feed(Feed(r, d), c)
    ensures Unnoticed(c, d)
  {
    hide Feed, Twins;
    FeedTwo(r, c, d);
    FeedTwo(r, d, c);
    TwinsAre(c, d);
    TwinsAre(d, c);
    if IsLetter(c) == IsLetter(d) {
      SameFactor(Factor(c), r, CodeOf(c), CodeOf(d));
    } else if IsLetter(c) {
      OtherFactor(r, CodeOf(c), CodeOf(d));
    } else {
      OtherFactor(r, CodeOf(d), CodeOf(c));
    }
  }

  lemma {:induction false} PairFed(r: nat, c: char, d: char)
    requires r < 97 && (IsDigit(c) || IsLetter(c)) && (IsDigit(d) || IsLetter(d))
    ensures Feed(Feed(r, c), d) == Feed(Feed(r, d), c) <==> Unnoticed(c, d)
  {
    hide Feed, Twins;
    TwinsAre(c, d);
    TwinsAre(d, c);
    if Feed(Feed(r, c), d) == Feed(Feed(r, d), c) { PairsCongruent(r, c, d); }
    if Unnoticed(c, d) {
      FeedTwo(r, c, d);
      FeedTwo(r, d, c);
    }
  }

  lemma {:induction false} AfterSwap(s: string, t: string, i: nat, n: nat)
    requires IsAlnum(s) && IsAlnum(t) && Swapped(s, t, i) && n <= |s| && n != i + 1
    ensures Remainder(s, n) == Remainder(t, n) <==> n <= i || Unnoticed(s[i], s[i + 1])
    decreases n
  {
    hide Feed, Unnoticed;
    if n == 0 {
    } else if n == i + 2 {
      AfterSwap(s, t, i, i);
      RemainderRange(s, i);
      PairFed(Remainder(s, i), s[i], s[i + 1]);
    } else {
      AfterSwap(s, t, i, n - 1);
      RemainderRange(s, n - 1);
      RemainderRange(t, n - 1);
      if Remainder(s, n - 1) != Remainder(t, n - 1) { FeedInjective(Remainder(s, n - 1), Remainder(t, n - 1), s[n - 1]); }
    }
  }

  /** Exchanging two neighbours in the stream keeps the remainder exactly when they are equal, or are B
      and 1, M and 2, or X and 3. */
  lemma {:induction false} SwapChangesRemainder(s: string, t: string, i: nat)
    requires IsAlnum(s) && IsAlnum(t) && Swapped(s, t, i)
    ensures Remainder(s, |s|) == Remainder(t, |t|) <==> Unnoticed(s[i], s[i + 1])
  {
    AfterSwap(s, t, i, |s|);
  }

  lemma {:induction false} SwapRearranged(s: string, t: string, i: nat)
    requires Swapped(s, t, i) && i != 3
    ensures var cut := if |s| < 4 then |s| else 4;
      var at := if i < cut then |s| - cut + i else i - cut;
      && Swapped(Rearranged(s), Rearranged(t), at)
      && Rearranged(s)[at] == s[i] && Rearranged(s)[at + 1] == s[i + 1]
  {
    hide Rearranged;
    var cut := if |s| < 4 then |s| else 4;
    var at := if i < cut then |s| - cut + i else i - cut;
    RearrangedAt(s, i);
    RearrangedAt(s, i + 1);
    RearrangedAt(t, i);
    RearrangedAt(t, i + 1);
    forall j | 0 <= j < |s| && j != at && j != at + 1 ensures Rearranged(s)[j] == Rearranged(t)[j] {
      var k := if j < |s| - cut then j + cut else j - (|s| - cut);
      RearrangedAt(s, k);
      RearrangedAt(t, k);
    }
  }
}
