/** When normalising a normalised text changes it, packages/analyzer-typescript/src/type-text.ts. */
module TypeIdempotence {
  import opened Strings
  import opened TypeText
  import opened TypeLexis
  import opened TypeGrammar
  import opened TypeTokens
  import opened TypeShapes
  import opened TypeSplits
  import opened TypeTheorems
  import opened TypeCanonTree
  import opened TypeCanonStands
  import opened TypeCanonOk
  import opened TypeGrowth

  /** Where sorting moves no separator into a union, normalising twice is normalising once exactly for the types
      without white space alone between brackets. Each such character comes out twice, so another pass adds
      twice as many again. */
  lemma {:induction false} Idempotence(t: Type)
    requires Ok(t) && Clean(t) && UnionsSettled(t)
    ensures NormaliseTypeText(NormaliseTypeText(Print(t))) == NormaliseTypeText(Print(t)) <==> Blanks(t) == 0
    ensures |NormaliseTypeText(NormaliseTypeText(Print(t)))| == |NormaliseTypeText(Print(t))| + 2 * Blanks(t)
  {
    hide NormaliseTypeText, Ok, Clean, Canon, Expect, Print, Blanks, LexType, UnionsSettled;
    CanonStands(t);
    CanonOk(t);
    NormalisesText(t);
    NormalisesText(Canon(t));
    Grows(t);
    if Blanks(t) == 0 { Settles(t); }
  }

  // ---------- White space alone between brackets ----------

  lemma {:induction false} BlankBracket(space: string)
    requires AllSpace(space)
    ensures var t := Flat([Hollow('{', space)]);
      Ok(t) && Print(t) == "{" + space + "}" && Expect(t) == "{" + space + space + "}"
  {
    hide AllSpace, NoTop, Chars, ItemsOk, LexItems, ExpectItems, ShowAll, Free;
    BlankItem(space);
    CharsShown(space);
    OneGroup('{', Chars(space));
    GroupFree('{', Chars(space), [LIST]);
    GroupFree('{', Chars(space), [COLON, Arrow, BAR, AMPERSAND]);
    assert LIST in [LIST];
    FreeUnparted([Group('{', Chars(space))]);
    BlankTexts(space);
  }

  lemma {:induction false} BlankTexts(space: string)
    ensures ['{'] + (space + space) + ['}'] + "" == "{" + space + space + "}" && ['{'] + space + ['}'] == "{" + space + "}"
  {
  }

  lemma {:induction false} BlankItem(space: string)
    requires AllSpace(space)
    ensures var items := [Hollow('{', space)];
      && LexItems(items) == [Group('{', Chars(space))] && ItemsOk(items)
      && ExpectItems(items) == ['{'] + (space + space) + ['}'] + ""
  {
    hide Chars, IsSpace;
    var items := [Hollow('{', space)];
    assert items[1..] == [];
  }

  lemma {:induction false} OneGroup(open: char, inner: seq<Lex>)
    ensures ShowAll([Group(open, inner)]) == [open] + ShowAll(inner) + [CloserOf(open)]
  {
    var xs := [Group(open, inner)];
    assert ShowAll(xs[1..]) == "";
    assert ShowAll(xs) == Show(xs[0]) + ShowAll(xs[1..]);
  }

  /** White space alone between brackets doubles every time. */
  lemma {:induction false} BlankBracketGrows(space: string)
    requires AllSpace(space)
    ensures NormaliseTypeText("{" + space + "}") == "{" + space + space + "}"
  {
    hide NormaliseTypeText, Ok, Print, Expect;
    BlankBracket(space);
    NormalisesText(Flat([Hollow('{', space)]));
  }

  // ---------- A union member that ends in `=` ----------

  /** A bracket that never closes holds the rest of the text. */
  lemma {:induction false} OpenBracket(xs: seq<Lex>)
    requires LexedAll(xs)
    ensures Normalise("<" + ShowAll(xs)) == "<" + Keep(ShowAll(xs))
  {
    hide Keep, ShowAll, LexedAll, SplitListing, Members;
    var text := "<" + ShowAll(xs);
    NothingTop(xs, LIST);
    NothingTop(xs, QUESTION);
    NothingTop(xs, COLON);
    NothingTop(xs, Arrow);
    NothingTop(xs, BAR);
    NothingTop(xs, AMPERSAND);
    OnePiece(text);
    ReadFlat(text);
    RestIsInside(xs);
  }

  lemma {:induction false} AfterBracket(xs: seq<Lex>)
    requires LexedAll(xs)
    ensures var text := "<" + ShowAll(xs); At(text, 1, ShowAll(xs)) && SafeEnd(xs, text, 1 + |ShowAll(xs)|)
  {
  }

  lemma {:induction false} NothingTop(xs: seq<Lex>, needle: Needle)
    requires LexedAll(xs)
    ensures TopIndex("<" + ShowAll(xs), needle) == -1
  {
    hide ShowAll, LexedAll, NoTop;
    var text := "<" + ShowAll(xs);
    AfterBracket(xs);
    FindSkips(text, 1, xs, needle, 1);
    assert !IsQuote(text[0]) && !ArrowAt(text, 0) && IsOpener(text[0]);
  }

  lemma {:induction false} OnePiece(text: string)
    requires TopIndex(text, LIST) == TopIndex(text, QUESTION) == TopIndex(text, COLON) == TopIndex(text, Arrow) == -1
    requires TopIndex(text, BAR) == TopIndex(text, AMPERSAND) == -1
    ensures Tight(text) && |Members(text, BAR)| <= 1 && |Members(text, AMPERSAND)| <= 1
  {
    hide Find;
  }

  lemma {:induction false} RestIsInside(xs: seq<Lex>)
    requires LexedAll(xs)
    ensures var text := "<" + ShowAll(xs); DescendFrom(Deeper(|text|), text, 0) == "<" + Keep(ShowAll(xs))
  {
    hide ShowAll, LexedAll, Keep, CloseFrom;
    var text := "<" + ShowAll(xs);
    AfterBracket(xs);
    CloseSkips(text, 1, xs, '<', 1);
    assert CloseFrom(text, '<', |text|, 1) == |text| by { AtTheEnd(text); }
    assert !IsQuote(text[0]) && !ArrowAt(text, 0) && IsOpener(text[0]);
    assert text[1..|text|] == ShowAll(xs);
    assert Deeper(|text|)(ShowAll(xs)) == Keep(ShowAll(xs));
  }

  lemma {:induction false} AtTheEnd(text: string)
    ensures CloseFrom(text, '<', |text|, 1) == |text|
  {
  }
}
