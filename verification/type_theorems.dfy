/** Canonicity of NormaliseTypeText on the printed types of TypeGrammar. */
module TypeTheorems {
  import opened Strings
  import opened TypeText
  import opened TypeLexis
  import opened TypeGrammar
  import opened TypeCanonicity
  import opened TypeTokens
  import opened TypeShapes
  import opened TypeSplits

  // ---------- The text reads back as the tree ----------

  lemma {:induction false} Normalises(t: Type)
    requires Ok(t)
    ensures Normalise(Print(t)) == Expect(t)
    decreases t, 3
  {
    match t
    case Flat(_) => NormalisesFlat(t);
    case Intersection(_) => NormalisesIntersection(t);
    case Union(_, _) => NormalisesUnion(t);
    case Function(_, _) => NormalisesFunction(t);
    case Labelled(_, _) => NormalisesLabelled(t);
    case Conditional(_, _, _) => NormalisesConditional(t);
    case List(_, _) => NormalisesList(t);
  }

  lemma {:induction false} KeepPadded(p: Padded)
    requires PaddedOk(p)
    ensures Keep(ShowAll(LexPadded(p))) == ExpectPadded(p)
    decreases p, 4
  {
    hide ShowAll, LexPadded, Ok, AllSpace, Trimmed, Normalise, LexType, Expect, Framed;
    OkFramed(p);
    PaddedTrim(p);
    BodyIsOk(p);
    Normalises(p.body);
    KeepOf(ShowAll(LexPadded(p)), p.lead, Print(p.body), p.trail);
  }

  lemma {:induction false} NormalisesAll(ps: seq<Padded>, bound: nat)
    requires AllOk(ps) || PartsOk(ps)
    requires forall b :: b in Bodies(ps) ==> |b| < bound
    ensures NormaliseAll(Bodies(ps), bound) == ExpectBodies(ps)
    decreases ps, 0
  {
    hide Ok, Normalise, Expect, Print, AllSpace, Trimmed;
    if ps == [] {
    } else {
      BodyOfFirst(ps);
      Normalises(ps[0].body);
      var rest := Bodies(ps)[1..];
      assert rest == Bodies(ps[1..]);
      forall b | b in rest ensures |b| < bound { assert b in Bodies(ps); }
      NormalisesAll(ps[1..], bound);
    }
  }

  lemma {:induction false} BodyOfFirst(ps: seq<Padded>)
    requires ps != [] && (AllOk(ps) || PartsOk(ps))
    ensures Ok(ps[0].body) && (AllOk(ps[1..]) || PartsOk(ps[1..]))
  {
    hide Ok;
    if AllOk(ps) { assert PaddedOk(ps[0]); }
  }

  lemma {:induction false} KeepOf(raw: string, lead: string, body: string, trail: string)
    requires Leading(raw) == lead && Trim(raw) == body && Trailing(raw) == trail
    ensures Keep(raw) == lead + (if body == "" then "" else Normalise(body)) + trail
  {
  }

  /** Blank text is all leading and all trailing white space, so it is written twice. */
  lemma {:induction false} KeepBlank(space: string)
    requires AllSpace(space)
    ensures Keep(ShowAll(Chars(space))) == space + space
  {
    hide Keep, ShowAll, Trim, Leading, Trailing;
    CharsShown(space);
    AllSpacePads(space);
    KeepOf(space, space, "", space);
  }

  /** The inside of a bracketed region comes out as expected. */
  predicate Kept(inside: string -> string, it: Item) {
    match it
    case Bracket(_, inner) => inside(ShowAll(LexPadded(inner))) == ExpectPadded(inner)
    case Hollow(_, space) => inside(ShowAll(Chars(space))) == space + space
    case _ => true
  }

  predicate KeptAll(inside: string -> string, items: seq<Item>) {
    items == [] || (Kept(inside, items[0]) && KeptAll(inside, items[1..]))
  }

  lemma {:induction false} RewritesItems(inside: string -> string, rewrite: Lex -> string, items: seq<Item>)
    requires KeptAll(inside, items) && Rewrites(inside, rewrite)
    ensures MapAll(rewrite, LexItems(items)) == ExpectItems(items)
  {
    if items == [] {
    } else {
      RewritesItem(inside, rewrite, items[0]);
      assert LexItems(items)[1..] == LexItems(items[1..]);
      RewritesItems(inside, rewrite, items[1..]);
    }
  }

  lemma {:induction false} RewritesItem(inside: string -> string, rewrite: Lex -> string, it: Item)
    requires Kept(inside, it) && Rewrites(inside, rewrite)
    ensures rewrite(LexItem(it)) == ExpectItem(it)
  {
    assert rewrite(LexItem(it)) == Rewrite(inside, LexItem(it));
  }

  /** Regions of the items are rewritten, what follows them is copied. */
  lemma {:induction false} DescendsWhole(inside: string -> string, items: seq<Item>, more: string)
    requires KeptAll(inside, items) && LexedAll(LexItems(items)) && LexedAll(Chars(more))
    ensures DescendFrom(inside, ShowAll(LexItems(items)) + more, 0) == ExpectItems(items) + more
  {
    hide LexedAll, KeptAll, Rewrite, ShowAll, DescendFrom, MapAll, LexItems, ExpectItems;
    var rewrite := (x: Lex) => Rewrite(inside, x);
    var xs, ys := LexItems(items), Chars(more);
    LexedAppend(xs, ys);
    ShowAppend(xs, ys);
    CharsShown(more);
    DescendsAll(inside, rewrite, xs + ys);
    MapAppend(rewrite, xs, ys);
    RewritesItems(inside, rewrite, items);
    RewritesChars(inside, rewrite, more);
  }

  lemma {:induction false} RewritesChars(inside: string -> string, rewrite: Lex -> string, s: string)
    requires Rewrites(inside, rewrite)
    ensures MapAll(rewrite, Chars(s)) == s
  {
    if s == "" {
    } else {
      RewritesChars(inside, rewrite, s[1..]);
      assert rewrite(Ch(s[0])) == Rewrite(inside, Ch(s[0])) == [s[0]];
      assert Chars(s)[1..] == Chars(s[1..]);
    }
  }

  /** Regions shorter than the bound are rewritten as expected. */
  lemma {:induction false} ItemsKept(items: seq<Item>, bound: nat)
    requires ItemsOk(items) && |ShowAll(LexItems(items))| <= bound
    ensures KeptAll(Deeper(bound), items)
    decreases items, 0
  {
    if items == [] {
    } else {
      assert LexItems(items)[0] == LexItem(items[0]) && LexItems(items)[1..] == LexItems(items[1..]);
      ItemKept(items[0], bound);
      ItemsKept(items[1..], bound);
    }
  }

  lemma {:induction false} DeeperKeeps(raw: string, bound: nat)
    requires |raw| < bound
    ensures Deeper(bound)(raw) == Keep(raw)
  {
    hide Keep;
  }

  lemma {:induction false} InsideShorter(open: char, inner: seq<Lex>)
    ensures |ShowAll(inner)| < |Show(Group(open, inner))|
  {
    hide ShowAll;
  }

  lemma {:induction false} ItemKept(it: Item, bound: nat)
    requires ItemOk(it) && |Show(LexItem(it))| <= bound
    ensures Kept(Deeper(bound), it)
    decreases it, 6
  {
    hide Keep, Deeper, Show, ShowAll, LexPadded, PaddedOk, AllSpace, ExpectPadded;
    match it
    case Bracket(open, inner) =>
      InsideShorter(open, LexPadded(inner));
      DeeperKeeps(ShowAll(LexPadded(inner)), bound);
      KeepPadded(inner);
    case Hollow(open, space) =>
      InsideShorter(open, Chars(space));
      DeeperKeeps(ShowAll(Chars(space)), bound);
      KeepBlank(space);
    case _ =>
  }

  lemma {:induction false} NormalisesFlat(t: Type)
    requires t.Flat? && Ok(t)
    ensures Normalise(Print(t)) == Expect(t)
    decreases t, 2
  {
    hide LexedAll, NoTop, Tight, Members, DescendFrom, LexItems, ShowAll, ItemsOk, KeptAll, Unparted;
    var xs, text := LexItems(t.items), Print(t);
    ItemsLexed(t.items);
    TightShown(xs);
    OneMember(xs, BAR);
    OneMember(xs, AMPERSAND);
    ReadFlat(text);
    ItemsKept(t.items, |text|);
    NothingLexed();
    DescendsWhole(Deeper(|text|), t.items, "");
    assert text + "" == text && ExpectItems(t.items) + "" == ExpectItems(t.items);
  }

  lemma {:induction false} NormalisesIntersection(t: Type)
    requires t.Intersection? && Ok(t)
    ensures Normalise(Print(t)) == Expect(t)
    decreases t, 2
  {
    hide LexedAll, NoTop, Tight, Members, LexAll, JoinLex, ShowAll, AllOk, AllFree, ExpectBodies, NormaliseAll, Join,
      Unparted, AllFramed;
    var ps, needles := t.members, [COLON, Arrow, BAR, AMPERSAND];
    OkLexed(t);
    FreeEach(ps, needles, COLON);
    FreeEach(ps, needles, Arrow);
    FreeEach(ps, needles, BAR);
    FreeEach(ps, needles, AMPERSAND);
    JoinNoTop(LexAll(ps), '&', COLON);
    JoinNoTop(LexAll(ps), '&', Arrow);
    JoinNoTop(LexAll(ps), '&', BAR);
    TightShown(LexType(t));
    OneMember(LexType(t), BAR);
    AllOkFramed(ps);
    MembersFound(ps, '&');
    ReadIntersection(Print(t));
    NormalisesAll(ps, |Print(t)|);
  }

  lemma {:induction false} UnionTight(t: Type)
    requires t.Union? && Ok(t)
    ensures Tight(Print(t)) && NoTopEach(LexAll(t.members), BAR)
  {
    hide LexedAll, NoTop, Tight, LexAll, JoinLex, ShowAll, AllOk, AllFree, AllSpace, Unparted;
    OkLexed(t);
    FreeEach(t.members, [COLON, Arrow, BAR], BAR);
    UnionPartsFree(t, COLON);
    UnionPartsFree(t, Arrow);
    TightShown(LexType(t));
  }

  lemma {:induction false} UnionPartsFree(t: Type, needle: Needle)
    requires t.Union? && Ok(t) && needle in [COLON, Arrow]
    ensures NoTop(LexType(t), needle)
  {
    hide Unparted;
    FreeEach(t.members, [COLON, Arrow, BAR], needle);
    if t.bar.Some? { SpaceNoTop(t.bar.value, needle); }
    if t.bar.Some? {
      assert UnionParts(t)[1..] == LexAll(t.members);
    } else {
      assert UnionParts(t) == LexAll(t.members);
    }
    JoinNoTop(UnionParts(t), '|', needle);
  }

  lemma {:induction false} UnionMembers(t: Type)
    requires t.Union? && Ok(t) && NoTopEach(LexAll(t.members), BAR)
    ensures Members(Print(t), BAR) == Bodies(t.members)
  {
    hide AllOk, AllFree, AllSpace, LexAll, JoinLex, ShowAll, NoTopEach, Unparted, AllFramed;
    AllOkFramed(t.members);
    if t.bar.Some? {
      BarredMembersFound(t.bar.value, t.members);
    } else {
      assert UnionParts(t) == LexAll(t.members);
      MembersFound(t.members, '|');
    }
  }

  lemma {:induction false} NormalisesUnion(t: Type)
    requires t.Union? && Ok(t)
    ensures Normalise(Print(t)) == Expect(t)
    decreases t, 2
  {
    hide Tight, Members, LexType, LexAll, ShowAll, AllOk, AllFree, AllSpace, ExpectBodies, NormaliseAll, Join, Sort,
      NoTopEach, Unparted;
    UnionTight(t);
    UnionMembers(t);
    ReadUnion(Print(t));
    NormalisesAll(t.members, |Print(t)|);
  }

  lemma {:induction false} NoTopAround(xs: seq<Lex>, x: Lex, ys: seq<Lex>, needle: Needle)
    requires NoTop(xs, needle) && NoTop(ys, needle) && !Hits(x, needle)
    ensures NoTop(xs + [x] + ys, needle)
  {
  }

  lemma {:induction false} CutAround(xs: seq<Lex>, x: Lex, ys: seq<Lex>)
    ensures var text, n := ShowAll(xs + [x] + ys), |ShowAll(xs)|;
      && n + |Show(x)| <= |text|
      && text[..n] == ShowAll(xs) && text[..n + |Show(x)|] == ShowAll(xs) + Show(x)
      && text[n + |Show(x)|..] == ShowAll(ys)
      && text == ShowAll(xs) + (Show(x) + ShowAll(ys))
  {
    hide ShowAll, Show;
    ShowSplit(xs, x, ys);
    ThreePieces(ShowAll(xs), Show(x), ShowAll(ys));
  }

  lemma {:induction false} ThreePieces(a: string, b: string, c: string)
    ensures var s, n := a + (b + c), |a|;
      s[..n] == a && s[..n + |b|] == a + b && s[n + |b|..] == c
  {
  }

  lemma {:induction false} FunctionLexed(t: Type)
    requires t.Function? && Ok(t)
    ensures var xs, ys := LexItems(t.params), LexPadded(t.result);
      && LexedAll(xs) && LexedAll(ys) && LexedAll(xs + [Fat] + ys) && LexType(t) == xs + [Fat] + ys
      && NoTop(xs, Arrow) && Unparted(xs + [Fat] + ys) && NoTop(xs + [Fat] + ys, COLON)
  {
    hide LexedAll, NoTop, ItemsOk, PaddedOk, LexItems, LexPadded, Unparted;
    OkLexed(t);
    ItemsLexed(t.params);
    PaddedLexed(t.result);
    NoTopAround(LexItems(t.params), Fat, LexPadded(t.result), COLON);
  }

  lemma {:induction false} FunctionFound(t: Type)
    requires t.Function? && Ok(t)
    ensures var text, n := Print(t), |ShowAll(LexItems(t.params))|;
      && Unlisted(text) && ConditionalParts(text) == None && TopIndex(text, COLON) == -1 && TopIndex(text, Arrow) == n
      && n + 2 <= |text| && text[..n] == ShowAll(LexItems(t.params)) && text[n + 2..] == ShowAll(LexPadded(t.result))
    ensures LexedAll(LexItems(t.params))
  {
    hide LexedAll, NoTop, ShowAll, Unlisted, ConditionalParts, TopIndex, Ok, LexType, LexItems, LexPadded, Unparted;
    FunctionLexed(t);
    NotAList(LexType(t));
    ArrowFound(LexItems(t.params), LexPadded(t.result));
  }

  lemma {:induction false} ArrowFound(xs: seq<Lex>, zs: seq<Lex>)
    requires LexedAll(xs) && LexedAll(zs) && LexedAll(xs + [Fat] + zs)
    requires NoTop(xs, Arrow) && NoTop(xs + [Fat] + zs, COLON)
    ensures var text, n := ShowAll(xs + [Fat] + zs), |ShowAll(xs)|;
      && ConditionalParts(text) == None && TopIndex(text, COLON) == -1 && TopIndex(text, Arrow) == n
      && n + 2 <= |text| && text[..n] == ShowAll(xs) && text[n + 2..] == ShowAll(zs)
  {
    hide LexedAll, NoTop, ShowAll, ConditionalParts, TopIndex;
    NotConditional(xs + [Fat] + zs);
    FindNone(xs + [Fat] + zs, COLON);
    CutAround(xs, Fat, zs);
    FindFirst(ShowAll(xs + [Fat] + zs), xs, Fat, zs, Arrow);
  }

  lemma {:induction false} NormalisesFunction(t: Type)
    requires t.Function? && Ok(t)
    ensures Normalise(Print(t)) == Expect(t)
    decreases t, 2
  {
    hide Normalise, DescendFrom, TopIndex, Unlisted, ConditionalParts, LexedAll, ShowAll, LexType, LexItems,
      LexPadded, ItemsOk, PaddedOk, KeptAll, Keep, ExpectPadded, NoTop, ExpectItems, Deeper, Unparted;
    var text, name := Print(t), ShowAll(LexItems(t.params));
    FunctionFound(t);
    ReadFunction(text, |name|);
    ItemsKept(t.params, |text|);
    NothingLexed();
    DescendsWhole(Deeper(|text|), t.params, "");
    assert name + "" == name && ExpectItems(t.params) + "" == ExpectItems(t.params);
    KeepPadded(t.result);
  }

  lemma {:induction false} ColonLexed()
    ensures LexedAll(Chars(":")) && Chars(":") == [Ch(':')]
  {
    assert Chars(":")[1..] == [];
  }

  lemma {:induction false} NothingLexed()
    ensures LexedAll(Chars(""))
  {
  }

  /** A labelled member is not a conditional type: either no `?` stands at the top level, or the
      first one is followed by the label's colon. */
  lemma {:induction false} LabelNotConditional(t: Type)
    requires t.Labelled? && Ok(t)
    ensures ConditionalParts(Print(t)) == None
  {
    hide LexedAll, PaddedOk, ItemsOk, LexItems, LexPadded, ShowAll, IsLabel, Unparted, NoTop, ConditionalParts;
    OkLexed(t);
    LabelText(LexItems(t.name), LexPadded(t.value));
  }

  lemma {:induction false} LabelText(xs: seq<Lex>, ys: seq<Lex>)
    requires LexedAll(xs + [Ch(':')] + ys) && IsLabel(xs, ys)
    ensures ConditionalParts(ShowAll(xs + [Ch(':')] + ys)) == None
  {
    hide LexedAll;
    var whole := xs + [Ch(':')] + ys;
    if NoTop(xs, QUESTION) && NoTop(ys, QUESTION) {
      NoTopAround(xs, Ch(':'), ys, QUESTION);
      FindNone(whole, QUESTION);
    } else {
      var k := |xs| - 1;
      assert whole[..k] == xs[..k] && whole[k] == Ch('?') && whole[k + 1..] == [Ch(':')] + ys;
      SplitHere(whole, k);
      FindFirst(ShowAll(whole), whole[..k], whole[k], whole[k + 1..], QUESTION);
      assert ShowAll(whole[k + 1..]) == ":" + ShowAll(whole[k + 1..][1..]);
    }
  }

  lemma {:induction false} LabelledFound(t: Type)
    requires t.Labelled? && Ok(t)
    ensures var text, name := Print(t), ShowAll(LexItems(t.name));
      && Unlisted(text) && TopIndex(text, COLON) == |name| && |name| < |text|
      && text[..|name| + 1] == name + ":" && text[|name| + 1..] == ShowAll(LexPadded(t.value))
  {
    hide LexedAll, NoTop, ShowAll, Unlisted, TopIndex, ItemsOk, PaddedOk, LexItems, LexPadded, Unparted, IsLabel;
    var xs, ys := LexItems(t.name), LexPadded(t.value);
    OkLexed(t);
    ItemsLexed(t.name);
    PaddedLexed(t.value);
    NotAList(LexType(t));
    CutAround(xs, Ch(':'), ys);
    FindFirst(Print(t), xs, Ch(':'), ys, COLON);
  }

  lemma {:induction false} NormalisesLabelled(t: Type)
    requires t.Labelled? && Ok(t)
    ensures Normalise(Print(t)) == Expect(t)
    decreases t, 2
  {
    hide Normalise, DescendFrom, TopIndex, Unlisted, ConditionalParts, LexedAll, ShowAll, LexType, LexItems,
      LexPadded, ItemsOk, PaddedOk, KeptAll, Keep, ExpectPadded, NoTop, IsLabel, Unparted;
    var text, name := Print(t), ShowAll(LexItems(t.name));
    LabelledFound(t);
    LabelNotConditional(t);
    ReadLabelled(text, |name|);
    ItemsLexed(t.name);
    ItemsKept(t.name, |text|);
    ColonLexed();
    DescendsWhole(Deeper(|text|), t.name, ":");
    KeepPadded(t.value);
  }

  lemma {:induction false} FirstIsNotColon(xs: seq<Lex>)
    requires xs != [] && LexedAll(xs) && NoTop(xs, COLON)
    ensures ShowAll(xs) != "" && ShowAll(xs)[0] != ':'
  {
    assert !Hits(xs[0], COLON);
    ShowFirst(xs[0]);
  }

  /** Where a text is cut at the first token that hits the needle. */
  lemma {:induction false} FirstCut(xs: seq<Lex>, x: Lex, ys: seq<Lex>, needle: Needle)
    requires LexedAll(xs) && Lexed(x) && LexedAll(ys) && x.Ch?
    requires NoTop(xs, needle) && Hits(x, needle)
    ensures var text, n := ShowAll(xs + [x] + ys), |ShowAll(xs)|;
      TopIndex(text, needle) == n < |text| && text[..n] == ShowAll(xs) && text[n + 1..] == ShowAll(ys)
  {
    CutAround(xs, x, ys);
    FindFirst(ShowAll(xs + [x] + ys), xs, x, ys, needle);
  }

  lemma {:induction false} ConditionalAt(text: string, q: nat, after: string, c: nat)
    requires TopIndex(text, QUESTION) == q < |text| && text[q + 1..] == after
    requires after != "" && after[0] != ':' && TopIndex(after, COLON) == c < |after|
    ensures ConditionalParts(text) == Some((text[..q], after[..c], after[c + 1..]))
  {
    assert text[q + 1] == after[0];
  }

  lemma {:induction false} MarkLexed(c: char)
    requires Lexed(Ch(c))
    ensures LexedAll([Ch(c)])
  {
    assert [Ch(c)][1..] == [];
  }

  lemma {:induction false} ConditionalFound(check: seq<Lex>, yes: seq<Lex>, no: seq<Lex>)
    requires LexedAll(check) && LexedAll(yes) && LexedAll(no) && yes != []
    requires NoTop(check, QUESTION) && NoTop(yes, COLON)
    ensures ConditionalParts(ShowAll(check + [Ch('?')] + (yes + [Ch(':')] + no)))
         == Some((ShowAll(check), ShowAll(yes), ShowAll(no)))
  {
    hide ConditionalParts, TopIndex, ShowAll, LexedAll, NoTop;
    var branches := yes + [Ch(':')] + no;
    var after := ShowAll(branches);
    MarkLexed(':');
    MarkLexed('?');
    LexedThree(yes, [Ch(':')], no);
    FirstCut(yes, Ch(':'), no, COLON);
    FirstCut(check, Ch('?'), branches, QUESTION);
    FirstIsNotColon(yes);
    assert after[0] == after[..|ShowAll(yes)|][0];
    ConditionalAt(ShowAll(check + [Ch('?')] + branches), |ShowAll(check)|, after, |ShowAll(yes)|);
  }

  lemma {:induction false} BranchesFound(t: Type)
    requires t.Conditional? && Ok(t)
    ensures Unlisted(Print(t))
    ensures ConditionalParts(Print(t))
         == Some((ShowAll(LexPadded(t.check)), ShowAll(LexPadded(t.yes)), ShowAll(LexPadded(t.no))))
  {
    hide LexedAll, NoTop, ShowAll, Unlisted, ConditionalParts, PaddedOk, LexPadded, Unparted;
    OkLexed(t);
    PaddedLexed(t.check);
    PaddedLexed(t.yes);
    PaddedLexed(t.no);
    NotAList(LexType(t));
    PaddedNotEmpty(t.yes);
    ConditionalFound(LexPadded(t.check), LexPadded(t.yes), LexPadded(t.no));
  }

  lemma {:induction false} PaddedNotEmpty(p: Padded)
    requires PaddedOk(p)
    ensures LexPadded(p) != []
  {
    hide LexType, Ok;
    PaddedShown(p);
  }

  lemma {:induction false} NormalisesConditional(t: Type)
    requires t.Conditional? && Ok(t)
    ensures Normalise(Print(t)) == Expect(t)
    decreases t, 2
  {
    hide Normalise, Unlisted, ConditionalParts, ShowAll, LexType, LexPadded, PaddedOk, Keep, ExpectPadded, NoTop,
      Unparted;
    BranchesFound(t);
    ReadConditional(Print(t), ShowAll(LexPadded(t.check)), ShowAll(LexPadded(t.yes)), ShowAll(LexPadded(t.no)));
    KeepPadded(t.check);
    KeepPadded(t.yes);
    KeepPadded(t.no);
  }

  lemma {:induction false} ListReads(t: Type)
    requires t.List? && Ok(t)
    ensures SplitListing(Print(t)) == Listing(Bodies(t.parts), t.separators)
  {
    hide ShowAll, LexPadded, NoTop, PartsOk, SeparatorsOk, SolidParts, Trim, SplitListing, LexAll, JoinList, Unparted;
    var ps := t.parts;
    PartsLexed(ps);
    LexAllFront(ps);
    FreeEach(ps[..|ps| - 1], [LIST], LIST);
    LexAllAt(ps, |ps| - 1);
    PartsShown(ps);
    LexAllTail(ps);
    ListRead(LexAll(ps), t.separators);
  }

  lemma {:induction false} LexAllFront(ps: seq<Padded>)
    requires ps != []
    ensures LexAll(ps[..|ps| - 1]) == LexAll(ps)[..|ps| - 1]
  {
    hide LexPadded;
    if |ps| == 1 {
    } else {
      LexAllFront(ps[1..]);
      assert ps[..|ps| - 1][1..] == ps[1..][..|ps| - 2];
    }
  }

  lemma {:induction false} LexAllTail(ps: seq<Padded>)
    requires ps != []
    ensures LexAll(ps)[1..] == LexAll(ps[1..])
  {
    hide LexPadded;
  }

  lemma {:induction false} ListIsLong(t: Type)
    requires t.List? && Ok(t)
    ensures |t.parts| >= 2 && |t.parts| == |t.separators| + 1 && PartsOk(t.parts)
  {
    hide PartsOk, AllFree, SeparatorsOk, SolidParts, Trim, LexAll, Print, Unparted;
  }

  lemma {:induction false} NormalisesList(t: Type)
    requires t.List? && Ok(t)
    ensures Normalise(Print(t)) == Expect(t)
    decreases t, 2
  {
    hide Print, PartsOk, SplitListing, ExpectBodies, NormaliseAll, Rejoin, Ok, Bodies;
    ListIsLong(t);
    ListReads(t);
    ReadList(Print(t));
    NormalisesAll(t.parts, |Print(t)|);
  }

  // ---------- Main results ----------

  function Plains(s: string): (items: seq<Item>)
    ensures |items| == |s|
  {
    if s == "" then [] else [Plain(s[0])] + Plains(s[1..])
  }

  predicate PlainText(s: string) { forall k :: 0 <= k < |s| ==> Lexed(Ch(s[k])) }

  lemma {:induction false} PlainsShown(s: string)
    requires PlainText(s)
    ensures LexItems(Plains(s)) == Chars(s) && ExpectItems(Plains(s)) == s && ItemsOk(Plains(s))
  {
    if s == "" {
    } else {
      assert Lexed(Ch(s[0])) && PlainText(s[1..]);
      assert Plains(s)[1..] == Plains(s[1..]);
      PlainsShown(s[1..]);
    }
  }

  /** Blank text would be left alone even without the test for it. */
  lemma {:induction false} BlankNormalises(s: string)
    requires AllSpace(s)
    ensures Normalise(s) == s
  {
    var t := Flat(Plains(s));
    assert PlainText(s) by {
      forall k | 0 <= k < |s| ensures Lexed(Ch(s[k])) { assert IsSpace(s[k]); }
    }
    PlainsShown(s);
    CharsShown(s);
    SpaceNoTop(s, LIST);
    SpaceNoTop(s, COLON);
    SpaceNoTop(s, Arrow);
    SpaceNoTop(s, BAR);
    SpaceNoTop(s, AMPERSAND);
    FreeUnparted(Chars(s));
    assert Print(t) == s;
    Normalises(t);
  }

  /** The text of every tree of the grammar is read back as that tree. */
  lemma {:induction false} NormalisesText(t: Type)
    requires Ok(t)
    ensures NormaliseTypeText(Print(t)) == Expect(t)
  {
    hide Normalise, Ok, Print, Expect, Trim;
    Normalises(t);
    if Trim(Print(t)) == "" {
      TrimIsEmpty(Print(t));
      BlankNormalises(Print(t));
    }
  }

  /** Two printings of one type agree: permuting the members of any unions, at any depth, and
      respacing them, leaves the normalised text unchanged. */
  lemma {:induction false} Canonicity(t: Type, u: Type)
    requires Ok(t) && Ok(u) && Same(t, u)
    ensures NormaliseTypeText(Print(t)) == NormaliseTypeText(Print(u))
  {
    NormalisesText(t);
    NormalisesText(u);
    SameExpect(t, u);
  }
}
