/** A text has one reading as tokens, and tokens one cut at the first of a kind. */
module TypeInjective {
  import opened TypeText
  import opened TypeLexis
  import opened TypeTokens

  // ---------- The first token of a text ----------

  /** What the first characters say about the first token. */
  ghost predicate Begins(text: string, x: Lex) {
    && |Show(x)| <= |text| && text[..|Show(x)|] == Show(x) && text != ""
    && match x
       case Ch(c) => text[0] == c && !IsQuote(c) && !IsOpener(c) && !ArrowAt(text, 0)
       case Fat => ArrowAt(text, 0) && text[0] == '='
       case Str(s) => IsQuote(text[0]) && StringEnd(text, 0) == |s|
       case Group(open, inner) =>
         && text[0] == open && IsOpener(open)
         && CloseFrom(text, open, 1, 1) == 1 + |ShowAll(inner)| < |text| && text[1..1 + |ShowAll(inner)|] == ShowAll(inner)
  }

  lemma {:induction false} FirstToken(xs: seq<Lex>)
    requires xs != [] && LexedAll(xs)
    ensures Begins(ShowAll(xs), xs[0]) && ShowAll(xs)[|Show(xs[0])|..] == ShowAll(xs[1..])
  {
    hide StringEnd, CloseFrom, ShowAll;
    var text, x := ShowAll(xs), xs[0];
    AtWhole(text);
    AtTail(text, 0, xs);
    ShowStep(xs);
    ShowFirst(x);
    match x
    case Ch(c) => CharSpan(text, 0, c);
    case Fat => ArrowSpan(text, 0);
    case Str(s) =>
      LiteralSpan(text, 0, s);
      LiteralShown(s);
    case Group(open, inner) => GroupSpan(text, 0, open, inner);
  }

  lemma {:induction false} LiteralShown(s: string)
    ensures Show(Str(s)) == s
  {
  }

  lemma {:induction false} SameToken(text: string, x: Lex, y: Lex)
    requires Begins(text, x) && Begins(text, y)
    ensures x == y || (x.Group? && y.Group? && x.open == y.open && ShowAll(x.inner) == ShowAll(y.inner))
  {
    hide StringEnd, CloseFrom, ShowAll;
    if x.Str? && y.Str? { assert x.s == text[..|x.s|] == text[..|y.s|] == y.s; }
  }

  /** Different tokens print different texts. */
  lemma {:induction false} ShowInjective(xs: seq<Lex>, ys: seq<Lex>)
    requires LexedAll(xs) && LexedAll(ys) && ShowAll(xs) == ShowAll(ys)
    ensures xs == ys
    decreases xs, 0
  {
    hide ShowAll, Show, Begins;
    if xs == [] || ys == [] {
      NothingShown(xs);
      NothingShown(ys);
    } else {
      FirstToken(xs);
      FirstToken(ys);
      SameToken(ShowAll(xs), xs[0], ys[0]);
      if xs[0].Group? {
        ShowInjective(xs[0].inner, ys[0].inner);
      }
      assert xs[0] == ys[0];
      ShowInjective(xs[1..], ys[1..]);
      assert xs == [xs[0]] + xs[1..] && ys == [ys[0]] + ys[1..];
    }
  }

  lemma {:induction false} NothingShown(xs: seq<Lex>)
    requires LexedAll(xs)
    ensures ShowAll(xs) == "" <==> xs == []
  {
    hide LexedAll, Lexed;
    ShownEnds(xs);
  }

  // ---------- Cuts ----------

  /** Where the first hit stands. */
  function FirstAt(xs: seq<Lex>, needle: Needle): (k: nat)
    ensures k <= |xs|
  {
    if xs == [] || Hits(xs[0], needle) then 0 else 1 + FirstAt(xs[1..], needle)
  }

  lemma {:induction false} FirstAtIs(xs: seq<Lex>, x: Lex, ys: seq<Lex>, needle: Needle)
    requires NoTop(xs, needle) && Hits(x, needle)
    ensures FirstAt(xs + [x] + ys, needle) == |xs|
  {
    hide Hits;
    var all := xs + [x] + ys;
    if xs == [] {
      assert all[0] == x;
    } else {
      assert all[0] == xs[0] && all[1..] == xs[1..] + [x] + ys;
      FirstAtIs(xs[1..], x, ys, needle);
    }
  }

  /** Tokens are cut in one way at the first one that hits the needle. */
  lemma {:induction false} CutUnique(xs: seq<Lex>, x: Lex, ys: seq<Lex>, xs': seq<Lex>, x': Lex, ys': seq<Lex>, needle: Needle)
    requires NoTop(xs, needle) && Hits(x, needle) && NoTop(xs', needle) && Hits(x', needle)
    requires xs + [x] + ys == xs' + [x'] + ys'
    ensures xs == xs' && x == x' && ys == ys'
  {
    hide NoTop, Hits, FirstAt;
    FirstAtIs(xs, x, ys, needle);
    FirstAtIs(xs', x', ys', needle);
    var all := xs + [x] + ys;
    assert xs == all[..|xs|] && x == all[|xs|] && ys == all[|xs| + 1..];
    assert xs' == all[..|xs|] && x' == all[|xs|] && ys' == all[|xs| + 1..];
  }
}
