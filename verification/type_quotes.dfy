/** Quoted types, brackets and plain text, with the characters written out: what the canonicaliser of
    packages/analyzer-typescript/src/type-text.ts takes for a quotation, for a bracket, and for neither. */
module TypeQuotes {
  import opened Strings
  import opened TypeText
  import opened TypeLexis
  import opened TypeGrammar
  import opened TypeCanonicity
  import opened TypeTokens
  import opened TypeShapes
  import opened TypeTheorems
  import opened TypeReplace
  import opened TypeContexts
  import opened TypeWords

  // ---------- Quotations ----------

  predicate IsMarkOfQuote(q: char) { q == '"' || q == '\'' || q == '`' }

  /** A value between quotes: the quote itself and the backslash are written with a backslash before them. */
  function Escaped(value: string, q: char): string {
    if value == "" then ""
    else (if value[0] == q || value[0] == '\\' then ['\\', value[0]] else [value[0]]) + Escaped(value[1..], q)
  }

  function Quotation(value: string, q: char): string { [q] + Escaped(value, q) + [q] }

  lemma {:induction false} EscapedCloses(s: string, q: char, i: nat, value: string)
    requires i <= |s| && s[i..] == Escaped(value, q) + [q] && q != '\\'
    ensures ClosesAt(s, q, i)
    decreases |value|
  {
    assert s[i] == s[i..][0];
    if value == "" {
      assert |s[i..]| == 1;
    } else {
      var head := if value[0] == q || value[0] == '\\' then ['\\', value[0]] else [value[0]];
      assert s[i..] == head + (Escaped(value[1..], q) + [q]);
      assert s[i + |head|..] == s[i..][|head|..] == Escaped(value[1..], q) + [q];
      EscapedCloses(s, q, i + |head|, value[1..]);
    }
  }

  lemma {:induction false} QuotationIsLiteral(value: string, q: char)
    requires IsMarkOfQuote(q)
    ensures IsLiteral(Quotation(value, q))
  {
    hide Escaped, ClosesAt;
    var s := Quotation(value, q);
    assert s[1..] == Escaped(value, q) + [q];
    EscapedCloses(s, q, 1, value);
  }

  function Quoted(value: string, q: char): Type { Flat([Literal(Quotation(value, q))]) }

  lemma {:induction false} QuotedIsAtom(value: string, q: char)
    requires IsMarkOfQuote(q)
    ensures var t := Quoted(value, q); IsAtom(t) && Print(t) == Quotation(value, q) && Expect(t) == Quotation(value, q)
  {
    hide Escaped, IsLiteral, Unparted, Quotation;
    var it := Literal(Quotation(value, q));
    QuotationIsLiteral(value, q);
    QuotationIsTrimmed(value, q);
    OneItem(it);
    OneLexItem(it);
    FreeUnparted([Str(Quotation(value, q))]);
    OneToken(Str(Quotation(value, q)));
  }

  lemma {:induction false} OneToken(x: Lex)
    ensures ShowAll([x]) == Show(x)
  {
    hide Show;
    assert [x][1..] == [];
  }

  lemma {:induction false} QuotationIsTrimmed(value: string, q: char)
    requires IsMarkOfQuote(q)
    ensures Trimmed(Quotation(value, q))
  {
    hide Escaped;
  }

  // ---------- Atoms ----------

  /** A text that is one member wherever it stands, and what it is normalised to. */
  ghost predicate IsMember(text: string, result: string) {
    exists t {:trigger IsAtom(t)} :: IsAtom(t) && Print(t) == text && Expect(t) == result
  }

  /** Any value between any of the three quotes is one member, whatever it holds. */
  lemma {:induction false} QuotationIsMember(value: string, q: char)
    requires IsMarkOfQuote(q)
    ensures IsMember(Quotation(value, q), Quotation(value, q))
  {
    hide IsAtom, Print, Expect, Quoted;
    QuotedIsAtom(value, q);
  }

  /** Text in which no character has a part in the grammar. */
  lemma {:induction false} WordIsMember(s: string)
    requires IsWord(s)
    ensures IsMember(s, s)
  {
    hide IsAtom, Print, Expect, Word;
    WordIsAtom(s);
    WordShown(s);
  }

  ghost predicate IsPair(open: char, close: char) {
    (open, close) in [('{', '}'), ('(', ')'), ('[', ']'), ('<', '>')]
  }

  /** Between brackets of one of the four kinds: the inside is normalised by itself and its separators do not
      reach outside. */
  lemma {:induction false} BracketedIsMember(open: char, close: char, t: Type)
    requires IsPair(open, close) && Ok(t) && Trimmed(Print(t)) && (open == '<' ==> !EndsInEquals(LexType(t)))
    ensures IsMember([open] + Print(t) + [close], [open] + NormaliseTypeText(Print(t)) + [close])
  {
    hide Ok, LexType, ShowAll, NormaliseTypeText, Trimmed, NoTop, Expect, Print, Unparted, EndsInEquals, LexPadded;
    var p := Bare(t);
    BareTokens(t);
    PaddedShown(p);
    assert "" + Print(t) + "" == Print(t);
    BareExpected(t);
    PairIs(open, close);
    BareIsOk(t);
    BracketedReads(open, p);
    NormalisesText(t);
    BracketedAtom(open, p);
  }

  lemma {:induction false} BracketedAtom(open: char, p: Padded)
    requires var t := Bracketed(open, p); Ok(t) && Free(LexType(t), EVERYTHING) && Trimmed(Print(t))
    ensures IsAtom(Bracketed(open, p))
  {
    hide Ok, LexType, NoTop, Print, Trimmed;
  }

  lemma {:induction false} BareIsOk(t: Type)
    requires Ok(t) && Trimmed(Print(t))
    ensures PaddedOk(Bare(t))
  {
    hide Ok, Print;
  }

  lemma {:induction false} BareExpected(t: Type)
    ensures ExpectPadded(Bare(t)) == Expect(t)
  {
    hide Expect;
    assert "" + Expect(t) + "" == Expect(t);
  }

  lemma {:induction false} PairIs(open: char, close: char)
    requires IsPair(open, close)
    ensures IsOpener(open) && CloserOf(open) == close
  {
  }

  // ---------- Alone, and in a union ----------

  /** A member alone is normalised by itself. */
  lemma {:induction false} MemberAlone(text: string, result: string)
    requires IsMember(text, result)
    ensures NormaliseTypeText(text) == result
  {
    hide Ok, LexType, NormaliseTypeText, Expect, Print;
    var t :| IsAtom(t) && Print(t) == text && Expect(t) == result;
    NormalisesText(t);
  }

  ghost predicate AreMembers(texts: seq<string>, results: seq<string>) {
    |texts| == |results| && forall k :: 0 <= k < |texts| ==> IsMember(texts[k], results[k])
  }

  lemma {:induction false} MembersAreAtoms(texts: seq<string>, results: seq<string>) returns (ts: seq<Type>)
    requires AreMembers(texts, results)
    ensures AreAtoms(ts) && |ts| == |texts| && forall k :: 0 <= k < |ts| ==> Print(ts[k]) == texts[k] && Expect(ts[k]) == results[k]
    decreases |texts|
  {
    hide IsAtom, Print, Expect;
    if texts == [] {
      ts := [];
    } else {
      assert IsMember(texts[0], results[0]);
      var t :| IsAtom(t) && Print(t) == texts[0] && Expect(t) == results[0];
      forall k | 0 <= k < |texts[1..]| ensures IsMember(texts[1..][k], results[1..][k]) { assert IsMember(texts[k + 1], results[k + 1]); }
      var rest := MembersAreAtoms(texts[1..], results[1..]);
      ts := [t] + rest;
      assert ts[1..] == rest;
      forall k | 0 <= k < |ts| ensures Print(ts[k]) == texts[k] && Expect(ts[k]) == results[k] {
        if k > 0 { assert ts[k] == rest[k - 1] && texts[k] == texts[1..][k - 1] && results[k] == results[1..][k - 1]; }
      }
    }
  }

  /** Two or more members with bars between them come out in code-unit order, a bar between spaces before each
      but the first. */
  lemma {:induction false} MembersSorted(texts: seq<string>, results: seq<string>)
    requires AreMembers(texts, results) && |texts| >= 2
    ensures NormaliseTypeText(Join(texts, "|")) == Join(Sort(results), " | ")
  {
    hide AreMembers, IsAtom, Print, Expect, Ok, LexType, NormaliseTypeText, Join, Sort, AreAtoms, Listed, NoTop, Bares;
    var ts := MembersAreAtoms(texts, results);
    TextsCount(texts, results);
    UnionOfOk(ts);
    UnionOfShown(ts, texts);
    BaresExpected(ts, results);
    UnionExpected(UnionOf(ts));
    NormalisesText(UnionOf(ts));
    ListedJoins(texts);
  }

  lemma {:induction false} TextsCount(texts: seq<string>, results: seq<string>)
    requires AreMembers(texts, results)
    ensures |texts| == |results|
  {
  }

  lemma {:induction false} ListedJoins(texts: seq<string>)
    ensures Listed(texts) == Join(texts, "|")
  {
    if |texts| > 1 { ListedJoins(texts[1..]); }
  }

  /** A value between quotes is copied, whatever stands in it. */
  lemma {:induction false} QuotationKept(value: string, q: char)
    requires IsMarkOfQuote(q)
    ensures NormaliseTypeText(Quotation(value, q)) == Quotation(value, q)
  {
    hide IsMember, Quotation, NormaliseTypeText;
    QuotationIsMember(value, q);
    MemberAlone(Quotation(value, q), Quotation(value, q));
  }

  function Quotations(values: seq<string>, q: char): (r: seq<string>)
    ensures |r| == |values| && forall k :: 0 <= k < |r| ==> r[k] == Quotation(values[k], q)
  {
    if values == [] then [] else [Quotation(values[0], q)] + Quotations(values[1..], q)
  }

  /** White space alone is copied. */
  lemma {:induction false} BlankKept(text: string)
    requires forall i :: 0 <= i < |text| ==> IsSpace(text[i])
    ensures NormaliseTypeText(text) == text
  {
    TrimIsEmpty(text);
  }

  /** A value without quote and backslash is written as it is. */
  lemma {:induction false} NothingEscaped(value: string, q: char)
    requires q !in value && '\\' !in value
    ensures Escaped(value, q) == value && Quotation(value, q) == [q] + value + [q]
  {
    if value != "" {
      assert value[0] in value && value == [value[0]] + value[1..];
      NothingEscaped(value[1..], q);
    }
  }

  /** A union of values between quotes is put in order, and no value is taken apart. */
  lemma {:induction false} QuotationsSorted(values: seq<string>, q: char)
    requires IsMarkOfQuote(q) && |values| >= 2
    ensures NormaliseTypeText(Join(Quotations(values, q), "|")) == Join(Sort(Quotations(values, q)), " | ")
  {
    hide IsMember, Quotation, NormaliseTypeText, Join, Sort;
    var texts := Quotations(values, q);
    forall k | 0 <= k < |texts| ensures IsMember(texts[k], texts[k]) { QuotationIsMember(values[k], q); }
    MembersSorted(texts, texts);
  }

  /** Text without any of the grammar's characters is copied. */
  lemma {:induction false} WordKept(s: string)
    requires IsWord(s)
    ensures NormaliseTypeText(s) == s
  {
    hide IsMember, IsWord, NormaliseTypeText;
    WordIsMember(s);
    MemberAlone(s, s);
  }

  /** A union of two words between brackets of any of the four kinds is put in order there. */
  lemma {:induction false} BracketsSort(open: char, close: char, a: string, b: string)
    requires IsPair(open, close) && IsWord(a) && IsWord(b) && (open == '<' ==> b[|b| - 1] != '=')
    ensures NormaliseTypeText([open] + (a + "|" + b) + [close]) == [open] + Join(Sort([a, b]), " | ") + [close]
  {
    hide IsMember, IsWord, NormaliseTypeText, Ok, Print, LexType, ExpectBodies, Expect, Sort, Join, NoTop, EndsInEquals, Word;
    var t := UnionOf([Word(a), Word(b)]);
    TwoWords(a, b);
    PairNormalised(a, b);
    PairTrimmed(a, b);
    if open == '<' { PairEnds(a, b); }
    BracketedIsMember(open, close, t);
    MemberAlone([open] + Print(t) + [close], [open] + NormaliseTypeText(Print(t)) + [close]);
  }

  lemma {:induction false} PairTrimmed(a: string, b: string)
    requires IsWord(a) && IsWord(b)
    ensures Trimmed(a + "|" + b)
  {
  }

  lemma {:induction false} PairEnds(a: string, b: string)
    requires IsWord(a) && IsWord(b) && b[|b| - 1] != '='
    ensures !EndsInEquals(LexType(UnionOf([Word(a), Word(b)])))
  {
    hide IsOrdinary, LexType;
    PairTokens(a, b);
    BareTokens(UnionOf([Word(a), Word(b)]));
    var xs := Chars(a) + [Ch('|')] + Chars(b);
    CharsShown(b);
    assert xs[|xs| - 1] == Chars(b)[|b| - 1];
  }
}
