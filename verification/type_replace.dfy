/** What fills a place in a larger type may be replaced by any type that reads as well. */
module TypeReplace {
  import opened Strings
  import opened TypeText
  import opened TypeLexis
  import opened TypeGrammar
  import opened TypeCanonicity
  import opened TypeTokens
  import opened TypeShapes
  import opened TypeTheorems
  import opened TypeCanonTree
  import opened TypeCanonStands
  import opened TypeCanonOk
  import opened TypeComplete
  import opened TypeContexts

  // ---------- Tokens that read as well ----------

  ghost predicate Keeps(xs: seq<Lex>, ys: seq<Lex>) { Follows(xs, ys) && (Unparted(xs) ==> Unparted(ys)) }

  /** `w` may stand wherever `t` stands. */
  ghost predicate Replaces(t: Type, w: Type) {
    Ok(w) && Clean(w) && Keeps(LexType(t), LexType(w)) && (t.List? <==> w.List?)
  }

  ghost predicate ReplacesPadded(p: Padded, q: Padded) {
    && PaddedOk(q) && Clean(q.body) && Keeps(LexPadded(p), LexPadded(q))
    && (SolidEnd(LexType(p.body)) && !EndsInEquals(LexType(p.body)) ==> !EndsInEquals(LexType(q.body)))
    && (EndsInEquals(LexPadded(q)) ==> EndsInEquals(LexPadded(p)))
  }

  lemma {:induction false} KeepsItself(xs: seq<Lex>)
    ensures Keeps(xs, xs)
  {
    hide Follows;
    FollowsItself(xs);
  }

  lemma {:induction false} KeepsAppend(xs: seq<Lex>, xs': seq<Lex>, ys: seq<Lex>, ys': seq<Lex>)
    requires Keeps(xs, xs') && Keeps(ys, ys')
    ensures Keeps(xs + ys, xs' + ys')
  {
    hide NoTop, SolidStart, SolidEnd, EndsInEquals, SomeSolid, IsNeedle, Unparted;
    FollowsAppend(xs, xs', ys, ys');
    UnpartedAppend(xs, ys);
    UnpartedAppend(xs', ys');
    ListNeedle();
  }

  lemma {:induction false} AlikeKeeps(xs: seq<Lex>, ys: seq<Lex>)
    requires AllAlike(xs, ys)
    ensures Keeps(xs, ys)
  {
    hide Follows, AllAlike, Unparted;
    AlikeFollows(xs, ys);
    if Unparted(xs) { AlikeUnparted(xs, ys); }
  }

  lemma {:induction false} PaddedReplaced(p: Padded, w: Type)
    requires PaddedOk(p) && Replaces(p.body, w)
    ensures ReplacesPadded(p, Padded(p.lead, w, p.trail))
  {
    hide LexType, Follows, Ok, LexedAll, Unparted, Clean, ShowAll, EndsInEquals, SolidEnd, AllSpace, SolidStart, LexPadded;
    var q := Padded(p.lead, w, p.trail);
    OkLexed(w);
    PaddedFollows(p, w);
    PaddedUnparted(p);
    PaddedUnparted(q);
    OkFramed(p);
    PaddedEnds(p);
    PaddedEnds(q);
    TrimmedEnds(LexType(p.body));
    FollowEnds(LexType(p.body), LexType(w));
    SpaceAtEnd(q);
  }

  lemma {:induction false} FollowEnds(xs: seq<Lex>, ys: seq<Lex>)
    requires Follows(xs, ys)
    ensures SolidEnd(xs) && !EndsInEquals(xs) ==> !EndsInEquals(ys)
  {
    hide EndsInEquals, SolidEnd, SomeSolid, NoTop, IsNeedle;
  }

  lemma {:induction false} SpaceAtEnd(p: Padded)
    requires AllSpace(p.trail)
    ensures p.trail != "" ==> !EndsInEquals(LexPadded(p))
  {
    hide LexType, AllSpace;
    CharsShown(p.trail);
    SolidAppend(Chars(p.lead) + LexType(p.body), Chars(p.trail));
    SpaceEnds(p.trail);
  }

  // ---------- Regions ----------

  lemma {:induction false} LexItemsAppend(xs: seq<Item>, ys: seq<Item>)
    ensures LexItems(xs + ys) == LexItems(xs) + LexItems(ys)
  {
    hide LexItem;
    if xs == [] {
      assert xs + ys == ys;
    } else {
      LexItemsAppend(xs[1..], ys);
      assert (xs + ys)[1..] == xs[1..] + ys;
    }
  }

  lemma {:induction false} RegionTokens(r: Region, t: Type)
    ensures LexItems(PlugRegion(r, t)) == LexItems(r.front) + [Group(r.open, LexPadded(PlugSlot(r.slot, t)))] + LexItems(r.back)
  {
    hide LexPadded, LexItems, PlugSlot;
    var it := Bracket(r.open, PlugSlot(r.slot, t));
    LexItemsAppend(r.front + [it], r.back);
    LexItemsAppend(r.front, [it]);
    OneLexItem(it);
  }

  lemma {:induction false} OneLexItem(it: Item)
    ensures LexItems([it]) == [LexItem(it)]
  {
    assert [it][1..] == [];
  }

  lemma {:induction false} RegionAlike(r: Region, t: Type, w: Type)
    ensures AllAlike(LexItems(PlugRegion(r, t)), LexItems(PlugRegion(r, w)))
  {
    hide LexPadded, LexItems, PlugSlot, PlugRegion;
    RegionTokens(r, t);
    RegionTokens(r, w);
  }

  lemma {:induction false} RegionReplaced(r: Region, t: Type, w: Type)
    requires ItemsOk(PlugRegion(r, t)) && CleanItems(PlugRegion(r, t))
    requires ReplacesPadded(PlugSlot(r.slot, t), PlugSlot(r.slot, w))
    ensures ItemsOk(PlugRegion(r, w)) && CleanItems(PlugRegion(r, w))
  {
    hide LexPadded, LexItems, PlugSlot, PaddedOk, Keeps, EndsInEquals, SolidEnd, ItemsOk, CleanItems, LexType, Clean;
    var it, it' := Bracket(r.open, PlugSlot(r.slot, t)), Bracket(r.open, PlugSlot(r.slot, w));
    OneItem(it);
    OneItem(it');
    ItemsAppend(r.front, [it]);
    ItemsAppend(r.front + [it], r.back);
    ItemsAppend(r.front, [it']);
    ItemsAppend(r.front + [it'], r.back);
  }

  /** A region with one type in its place keeps what it had with another. */
  lemma {:induction false} RegionKept(r: Region, t: Type, w: Type)
    requires ItemsOk(PlugRegion(r, t)) && CleanItems(PlugRegion(r, t)) && Replaces(Plug(r.slot.inside, t), Plug(r.slot.inside, w))
    ensures ItemsOk(PlugRegion(r, w)) && CleanItems(PlugRegion(r, w))
    ensures AllAlike(LexItems(PlugRegion(r, t)), LexItems(PlugRegion(r, w)))
    ensures Keeps(LexItems(PlugRegion(r, t)), LexItems(PlugRegion(r, w))) && Follows(LexItems(PlugRegion(r, t)), LexItems(PlugRegion(r, w)))
  {
    hide LexItems, PlugRegion, ItemsOk, CleanItems, AllAlike, ReplacesPadded, PaddedOk, Unparted, LexPadded, Replaces, Follows, Plug;
    RegionOk(r, t);
    PaddedReplaced(PlugSlot(r.slot, t), Plug(r.slot.inside, w));
    RegionReplaced(r, t, w);
    RegionAlike(r, t, w);
    AlikeKeeps(LexItems(PlugRegion(r, t)), LexItems(PlugRegion(r, w)));
  }

  // ---------- Members ----------

  lemma {:induction false} AllAppend(ps: seq<Padded>, qs: seq<Padded>)
    ensures AllOk(ps + qs) <==> AllOk(ps) && AllOk(qs)
    ensures PartsOk(ps + qs) <==> PartsOk(ps) && PartsOk(qs)
    ensures CleanAll(ps + qs) <==> CleanAll(ps) && CleanAll(qs)
    ensures NoneEndsInEquals(ps + qs) <==> NoneEndsInEquals(ps) && NoneEndsInEquals(qs)
  {
    hide PaddedOk, Ok, Clean, EndsInEquals, LexType;
    if ps == [] {
      assert ps + qs == qs;
    } else {
      AllAppend(ps[1..], qs);
      assert (ps + qs)[1..] == ps[1..] + qs;
    }
  }

  /** What holds of the members around a place holds again with another one in it. */
  lemma {:induction false} AllReplaced(a: seq<Padded>, p: Padded, q: Padded, b: seq<Padded>)
    requires CleanAll(a + [p] + b) && Clean(q.body)
    ensures CleanAll(a + [q] + b)
    ensures AllOk(a + [p] + b) && PaddedOk(q) ==> AllOk(a + [q] + b) && PaddedOk(p)
    ensures PartsOk(a + [p] + b) && q.lead == "" && q.trail == "" && Ok(q.body) ==> PartsOk(a + [q] + b)
    ensures NoneEndsInEquals(a + [p] + b) && !EndsInEquals(LexType(q.body)) ==> NoneEndsInEquals(a + [q] + b)
    ensures NoneEndsInEquals(a + [p] + b) ==> !EndsInEquals(LexType(p.body))
  {
    hide PaddedOk, Ok, Clean, EndsInEquals, LexType;
    AllAppend(a + [p], b);
    AllAppend(a, [p]);
    AllAppend(a + [q], b);
    AllAppend(a, [q]);
    assert [p][1..] == [] && [q][1..] == [];
  }

  lemma {:induction false} FreeReplaced(a: seq<Padded>, p: Padded, q: Padded, b: seq<Padded>, needles: seq<Needle>)
    requires AllFree(a + [p] + b, needles) && Follows(LexPadded(p), LexPadded(q)) && Needles(needles)
    ensures AllFree(a + [q] + b, needles)
  {
    hide LexPadded, NoTop, Follows, IsNeedle;
    var ps, qs := a + [p] + b, a + [q] + b;
    forall k | 0 <= k < |qs| ensures Free(LexPadded(qs[k]), needles) {
      assert Free(LexPadded(ps[k]), needles);
      if k == |a| { FreeStays(LexPadded(p), LexPadded(q), needles); } else { assert qs[k] == ps[k]; }
    }
  }

  lemma {:induction false} JoinReplaced(a: seq<Padded>, p: Padded, q: Padded, b: seq<Padded>, c: char)
    requires Keeps(LexPadded(p), LexPadded(q))
    ensures Keeps(JoinLex(LexAll(a + [p] + b), c), JoinLex(LexAll(a + [q] + b), c))
    decreases |a|
  {
    hide LexPadded, Keeps, JoinLex, LexAll;
    if a == [] {
      assert a + [p] + b == [p] + b && a + [q] + b == [q] + b;
      if b == [] {
        assert [p] + b == [p] && [q] + b == [q];
        JoinedOne(p, c);
        JoinedOne(q, c);
      } else {
        JoinedCons(p, b, c);
        JoinedCons(q, b, c);
        KeepsItself([Ch(c)] + JoinLex(LexAll(b), c));
        KeepsAppend(LexPadded(p), LexPadded(q), [Ch(c)] + JoinLex(LexAll(b), c), [Ch(c)] + JoinLex(LexAll(b), c));
        Associative(LexPadded(p), [Ch(c)], JoinLex(LexAll(b), c));
        Associative(LexPadded(q), [Ch(c)], JoinLex(LexAll(b), c));
      }
    } else {
      var ps, qs := a[1..] + [p] + b, a[1..] + [q] + b;
      JoinReplaced(a[1..], p, q, b, c);
      assert a + [p] + b == [a[0]] + ps && a + [q] + b == [a[0]] + qs;
      JoinedCons(a[0], ps, c);
      JoinedCons(a[0], qs, c);
      KeepsItself(LexPadded(a[0]) + [Ch(c)]);
      KeepsAppend(LexPadded(a[0]) + [Ch(c)], LexPadded(a[0]) + [Ch(c)], JoinLex(LexAll(ps), c), JoinLex(LexAll(qs), c));
    }
  }

  // ---------- One level ----------

  /** What the place holds on both sides, and that one may replace the other there. */
  ghost predicate InnerReplaces(c: Context, t: Type, w: Type) {
    Fits(c, t) && Replaces(Plug(Inner(c), t), Plug(Inner(c), w))
  }

  lemma {:induction false} FlatReplaced(c: Context, t: Type, w: Type)
    requires c.InFlat? && InnerReplaces(c, t, w)
    ensures Fits(c, w) && Replaces(Plug(c, t), Plug(c, w))
  {
    hide LexItems, PlugRegion, NoTop, ItemsOk, CleanItems, AllAlike, Unparted, Follows;
    var r, needles := c.region, [COLON, Arrow, BAR, AMPERSAND];
    RegionKept(r, t, w);
    NeedlesAre(needles);
    FreeStays(LexItems(PlugRegion(r, t)), LexItems(PlugRegion(r, w)), needles);
  }

  /** What a function type or a labelled type is known to be like. */
  lemma {:induction false} PairGiven(t: Type)
    requires (t.Function? || t.Labelled?) && Ok(t) && Clean(t)
    ensures Unparted(LexType(t))
    ensures t.Function? ==> ItemsOk(t.params) && CleanItems(t.params) && Free(LexItems(t.params), [COLON, Arrow])
    ensures t.Function? ==> PaddedOk(t.result) && Clean(t.result.body) && Free(LexPadded(t.result), [COLON])
    ensures t.Labelled? ==> ItemsOk(t.name) && CleanItems(t.name) && Free(LexItems(t.name), [COLON])
    ensures t.Labelled? ==> PaddedOk(t.value) && Clean(t.value.body) && IsLabel(LexItems(t.name), LexPadded(t.value))
  {
    hide LexType, Unparted, ItemsOk, CleanItems, LexItems, NoTop, PaddedOk, Clean, LexPadded, IsLabel;
    CleanPair(t);
  }

  lemma {:induction false} CleanPair(t: Type)
    ensures t.Function? ==> (Clean(t) <==> CleanItems(t.params) && Clean(t.result.body))
    ensures t.Labelled? ==> (Clean(t) <==> CleanItems(t.name) && Clean(t.value.body))
  {
    hide CleanItems;
  }

  lemma {:induction false} FunctionFits(was: Type, params: seq<Item>, result: Padded)
    requires was.Function? && Unparted(LexType(was)) && Keeps(LexItems(was.params), LexItems(params)) && Keeps(LexPadded(was.result), LexPadded(result))
    requires ItemsOk(params) && CleanItems(params) && Free(LexItems(params), [COLON, Arrow])
    requires PaddedOk(result) && Clean(result.body) && Free(LexPadded(result), [COLON])
    ensures Ok(Function(params, result)) && Clean(Function(params, result)) && Replaces(was, Function(params, result))
  {
    hide LexItems, LexPadded, Unparted, Follows, ItemsOk, CleanItems, NoTop, PaddedOk, Clean;
    KeepsItself([Fat]);
    KeepsAppend(LexItems(was.params), LexItems(params), [Fat], [Fat]);
    KeepsAppend(LexItems(was.params) + [Fat], LexItems(params) + [Fat], LexPadded(was.result), LexPadded(result));
    CleanPair(Function(params, result));
  }

  lemma {:induction false} LabelFits(was: Type, name: seq<Item>, value: Padded)
    requires was.Labelled? && Unparted(LexType(was)) && Keeps(LexItems(was.name), LexItems(name)) && Keeps(LexPadded(was.value), LexPadded(value))
    requires ItemsOk(name) && CleanItems(name) && Free(LexItems(name), [COLON])
    requires PaddedOk(value) && Clean(value.body) && IsLabel(LexItems(name), LexPadded(value))
    ensures Ok(Labelled(name, value)) && Clean(Labelled(name, value)) && Replaces(was, Labelled(name, value))
  {
    hide LexItems, LexPadded, Unparted, Follows, ItemsOk, CleanItems, NoTop, PaddedOk, Clean, IsLabel;
    KeepsItself([Ch(':')]);
    KeepsAppend(LexItems(was.name), LexItems(name), [Ch(':')], [Ch(':')]);
    KeepsAppend(LexItems(was.name) + [Ch(':')], LexItems(name) + [Ch(':')], LexPadded(was.value), LexPadded(value));
    CleanPair(Labelled(name, value));
  }

  lemma {:induction false} ParamsReplaced(c: Context, t: Type, w: Type)
    requires c.InParams? && InnerReplaces(c, t, w)
    ensures Fits(c, w) && Replaces(Plug(c, t), Plug(c, w))
  {
    hide LexItems, PlugRegion, NoTop, ItemsOk, CleanItems, AllAlike, PaddedOk, Unparted, LexPadded, Follows, Ok, Clean, Keeps, LexType;
    var r, needles := c.region, [COLON, Arrow];
    PairGiven(Plug(c, t));
    RegionKept(r, t, w);
    NeedlesAre(needles);
    FreeStays(LexItems(PlugRegion(r, t)), LexItems(PlugRegion(r, w)), needles);
    KeepsItself(LexPadded(c.result));
    FunctionFits(Plug(c, t), PlugRegion(r, w), c.result);
  }

  lemma {:induction false} NameReplaced(c: Context, t: Type, w: Type)
    requires c.InName? && InnerReplaces(c, t, w)
    ensures Fits(c, w) && Replaces(Plug(c, t), Plug(c, w))
  {
    hide LexItems, PlugRegion, NoTop, ItemsOk, CleanItems, AllAlike, PaddedOk, Unparted, LexPadded, Follows, IsLabel, Ok, Clean, Keeps, LexType;
    var r, needles := c.region, [COLON];
    PairGiven(Plug(c, t));
    RegionKept(r, t, w);
    var xs, ys := LexItems(PlugRegion(r, t)), LexItems(PlugRegion(r, w));
    NeedlesAre(needles);
    FreeStays(xs, ys, needles);
    FollowsItself(LexPadded(c.value));
    KeepsItself(LexPadded(c.value));
    LabelStays(xs, ys, LexPadded(c.value), LexPadded(c.value));
    LabelFits(Plug(c, t), PlugRegion(r, w), c.value);
  }

  lemma {:induction false} SlotReplaced(s: Slot, t: Type, w: Type)
    requires PaddedOk(PlugSlot(s, t)) && Replaces(Plug(s.inside, t), Plug(s.inside, w))
    ensures ReplacesPadded(PlugSlot(s, t), PlugSlot(s, w))
  {
    hide LexType, Keeps, Ok, Clean, LexPadded, EndsInEquals, SolidEnd, Trimmed, AllSpace, Plug;
    PaddedReplaced(PlugSlot(s, t), Plug(s.inside, w));
  }

  lemma {:induction false} ResultReplaced(c: Context, t: Type, w: Type)
    requires c.InResult? && InnerReplaces(c, t, w)
    ensures Fits(c, w) && Replaces(Plug(c, t), Plug(c, w))
  {
    hide LexItems, NoTop, ItemsOk, CleanItems, PaddedOk, Unparted, LexPadded, Follows, EndsInEquals, SolidEnd, Ok, Clean, Keeps, LexType, PlugSlot;
    var p, q := PlugSlot(c.slot, t), PlugSlot(c.slot, w);
    PairGiven(Plug(c, t));
    SlotReplaced(c.slot, t, w);
    FollowsOf(p, q);
    NeedlesAre([COLON]);
    FreeStays(LexPadded(p), LexPadded(q), [COLON]);
    KeepsItself(LexItems(c.params));
    FunctionFits(Plug(c, t), c.params, q);
  }

  lemma {:induction false} AllAlikeItself(xs: seq<Lex>)
    ensures AllAlike(xs, xs)
  {
  }

  lemma {:induction false} ValueReplaced(c: Context, t: Type, w: Type)
    requires c.InValue? && InnerReplaces(c, t, w)
    ensures Fits(c, w) && Replaces(Plug(c, t), Plug(c, w))
  {
    hide LexItems, NoTop, ItemsOk, CleanItems, PaddedOk, Unparted, LexPadded, Follows, EndsInEquals, SolidEnd, IsLabel, AllAlike, Ok, Clean, Keeps,
      LexType, PlugSlot;
    var xs, p, q := LexItems(c.name), PlugSlot(c.slot, t), PlugSlot(c.slot, w);
    PairGiven(Plug(c, t));
    SlotReplaced(c.slot, t, w);
    FollowsOf(p, q);
    AllAlikeItself(xs);
    LabelStays(xs, xs, LexPadded(p), LexPadded(q));
    KeepsItself(xs);
    LabelFits(Plug(c, t), c.name, q);
  }

  lemma {:induction false} BranchesKept(a: seq<Lex>, a': seq<Lex>, b: seq<Lex>, b': seq<Lex>, c: seq<Lex>, c': seq<Lex>)
    requires Keeps(a, a') && Keeps(b, b') && Keeps(c, c')
    ensures Keeps(a + [Ch('?')] + (b + [Ch(':')] + c), a' + [Ch('?')] + (b' + [Ch(':')] + c'))
  {
    hide Keeps;
    KeepsItself([Ch('?')]);
    KeepsItself([Ch(':')]);
    KeepsAppend(b, b', [Ch(':')], [Ch(':')]);
    KeepsAppend(b + [Ch(':')], b' + [Ch(':')], c, c');
    KeepsAppend(a, a', [Ch('?')], [Ch('?')]);
    KeepsAppend(a + [Ch('?')], a' + [Ch('?')], b + [Ch(':')] + c, b' + [Ch(':')] + c');
  }

  /** What a conditional type is known to be like. */
  lemma {:induction false} BranchesGiven(t: Type)
    requires t.Conditional? && Ok(t) && Clean(t)
    ensures Unparted(LexType(t)) && PaddedOk(t.check) && PaddedOk(t.yes) && PaddedOk(t.no)
    ensures Free(LexPadded(t.check), [QUESTION]) && Free(LexPadded(t.yes), [COLON])
    ensures Clean(t.check.body) && Clean(t.yes.body) && Clean(t.no.body)
  {
    hide LexType, Unparted, NoTop, PaddedOk, Clean, LexPadded;
    CleanBranches(t);
  }

  lemma {:induction false} CleanBranches(t: Type)
    requires t.Conditional?
    ensures Clean(t) <==> Clean(t.check.body) && Clean(t.yes.body) && Clean(t.no.body)
  {
  }

  lemma {:induction false} BranchesFit(was: Type, check: Padded, yes: Padded, no: Padded)
    requires was.Conditional? && Unparted(LexType(was)) && PaddedOk(check) && PaddedOk(yes) && PaddedOk(no)
    requires Free(LexPadded(check), [QUESTION]) && Free(LexPadded(yes), [COLON]) && Clean(check.body) && Clean(yes.body) && Clean(no.body)
    requires Keeps(LexPadded(was.check), LexPadded(check)) && Keeps(LexPadded(was.yes), LexPadded(yes)) && Keeps(LexPadded(was.no), LexPadded(no))
    ensures var t := Conditional(check, yes, no); Ok(t) && Clean(t) && Replaces(was, t)
  {
    hide LexPadded, Unparted, Follows, NoTop, PaddedOk, Clean;
    BranchesKept(LexPadded(was.check), LexPadded(check), LexPadded(was.yes), LexPadded(yes), LexPadded(was.no), LexPadded(no));
    CleanBranches(Conditional(check, yes, no));
  }

  lemma {:induction false} BranchReplaced(c: Context, t: Type, w: Type)
    requires (c.InCheck? || c.InYes? || c.InNo?) && InnerReplaces(c, t, w)
    ensures Fits(c, w) && Replaces(Plug(c, t), Plug(c, w))
  {
    hide NoTop, PaddedOk, Unparted, LexPadded, Follows, EndsInEquals, SolidEnd, Ok, Clean, Keeps, LexType, PlugSlot;
    var p, q := PlugSlot(c.slot, t), PlugSlot(c.slot, w);
    BranchesGiven(Plug(c, t));
    SlotReplaced(c.slot, t, w);
    FollowsOf(p, q);
    NeedlesAre([COLON]);
    ListNeedle();
    match c
    case InCheck(_, yes, no) =>
      KeepsItself(LexPadded(yes));
      KeepsItself(LexPadded(no));
      FreeStays(LexPadded(p), LexPadded(q), [QUESTION]);
      BranchesFit(Plug(c, t), q, yes, no);
    case InYes(check, _, no) =>
      KeepsItself(LexPadded(check));
      KeepsItself(LexPadded(no));
      FreeStays(LexPadded(p), LexPadded(q), [COLON]);
      BranchesFit(Plug(c, t), check, q, no);
    case InNo(check, yes, _) =>
      KeepsItself(LexPadded(check));
      KeepsItself(LexPadded(yes));
      BranchesFit(Plug(c, t), check, yes, q);
  }

  lemma {:induction false} UnionTokens(bar: Option<string>, ps: seq<Padded>, qs: seq<Padded>)
    requires ps != [] && qs != [] && Keeps(JoinLex(LexAll(ps), '|'), JoinLex(LexAll(qs), '|'))
    ensures Keeps(LexType(Union(bar, ps)), LexType(Union(bar, qs)))
  {
    hide Keeps, JoinLex, LexAll, LexType;
    UnionShape(bar, ps);
    UnionShape(bar, qs);
    var front := if bar.Some? then Chars(bar.value) + [Ch('|')] else [];
    KeepsItself(front);
    KeepsAppend(front, front, JoinLex(LexAll(ps), '|'), JoinLex(LexAll(qs), '|'));
  }

  lemma {:induction false} MembersReplaced(c: Context, t: Type, w: Type)
    requires (c.InUnion? || c.InIntersection?) && InnerReplaces(c, t, w)
    ensures Fits(c, w) && Replaces(Plug(c, t), Plug(c, w))
  {
    hide AllOk, AllFree, CleanAll, NoneEndsInEquals, LexType, Unparted, LexPadded, PaddedOk, Keeps, EndsInEquals, JoinLex, LexAll, Clean,
      PlugSlot, Ok, SolidEnd, AllSpace;
    var p, q := PlugSlot(c.slot, t), PlugSlot(c.slot, w);
    var ps, qs := c.before + [p] + c.after, c.before + [q] + c.after;
    InnerFits(c, t);
    MembersGiven(c, t);
    SlotReplaced(c.slot, t, w);
    MemberSolid(p);
    AllReplaced(c.before, p, q, c.after);
    PlugMembers(c, t);
    PlugMembers(c, w);
    if c.InUnion? {
      NeedlesAre([COLON, Arrow, BAR]);
      FollowsOf(p, q);
      FreeReplaced(c.before, p, q, c.after, [COLON, Arrow, BAR]);
      JoinReplaced(c.before, p, q, c.after, '|');
      UnionTokens(c.bar, ps, qs);
      UnionFits(c.bar, qs, ps);
    } else {
      NeedlesAre([COLON, Arrow, BAR, AMPERSAND]);
      FollowsOf(p, q);
      FreeReplaced(c.before, p, q, c.after, [COLON, Arrow, BAR, AMPERSAND]);
      JoinReplaced(c.before, p, q, c.after, '&');
      PlainIntersection(ps);
      PlainIntersection(qs);
      IntersectionFits(qs, ps);
    }
  }

  lemma {:induction false} PlugMembers(c: Context, t: Type)
    requires c.InUnion? || c.InIntersection?
    ensures var ps := c.before + [PlugSlot(c.slot, t)] + c.after;
      (c.InUnion? ==> Plug(c, t) == Union(c.bar, ps)) && (c.InIntersection? ==> Plug(c, t) == Intersection(ps))
  {
    hide PlugSlot;
  }

  /** What a union or an intersection with a place in it is known to be like. */
  lemma {:induction false} MembersGiven(c: Context, t: Type)
    requires (c.InUnion? || c.InIntersection?) && Fits(c, t)
    ensures var ps := c.before + [PlugSlot(c.slot, t)] + c.after;
      && |ps| >= 2 && AllOk(ps) && CleanAll(ps) && PaddedOk(PlugSlot(c.slot, t)) && Unparted(LexType(Plug(c, t)))
      && (c.InUnion? ==> NoneEndsInEquals(ps) && AllFree(ps, [COLON, Arrow, BAR]) && (c.bar.Some? ==> AllSpace(c.bar.value)))
      && (c.InIntersection? ==> AllFree(ps, [COLON, Arrow, BAR, AMPERSAND]))
  {
    hide AllOk, AllFree, CleanAll, NoneEndsInEquals, LexType, Unparted, PaddedOk, PlugSlot, AllSpace;
    var ps := c.before + [PlugSlot(c.slot, t)] + c.after;
    AllAppend(c.before + [PlugSlot(c.slot, t)], c.after);
    AllAppend(c.before, [PlugSlot(c.slot, t)]);
    FirstOk([PlugSlot(c.slot, t)]);
  }

  lemma {:induction false} FirstOk(ps: seq<Padded>)
    requires ps != []
    ensures AllOk(ps) ==> PaddedOk(ps[0])
    ensures PartsOk(ps) ==> ps[0].lead == "" && ps[0].trail == "" && Ok(ps[0].body)
  {
    hide PaddedOk, Ok;
  }

  lemma {:induction false} MemberSolid(p: Padded)
    requires PaddedOk(p)
    ensures SolidEnd(LexType(p.body))
  {
    hide Ok, LexType, SolidEnd, SolidStart;
    MemberEnds(p.body);
  }

  lemma {:induction false} FollowsOf(p: Padded, q: Padded)
    requires ReplacesPadded(p, q)
    ensures Follows(LexPadded(p), LexPadded(q)) && Keeps(LexPadded(p), LexPadded(q))
  {
    hide LexPadded, Follows, Unparted, PaddedOk, Clean, LexType;
  }

  lemma {:induction false} UnionFits(bar: Option<string>, qs: seq<Padded>, ps: seq<Padded>)
    requires |qs| >= 2 && AllOk(qs) && AllFree(qs, [COLON, Arrow, BAR]) && CleanAll(qs) && NoneEndsInEquals(qs)
    requires bar.Some? ==> AllSpace(bar.value)
    requires Unparted(LexType(Union(bar, ps))) && Keeps(LexType(Union(bar, ps)), LexType(Union(bar, qs)))
    ensures Ok(Union(bar, qs)) && Clean(Union(bar, qs)) && Replaces(Union(bar, ps), Union(bar, qs))
  {
    hide AllOk, AllFree, CleanAll, NoneEndsInEquals, LexType, Unparted, AllSpace, Follows;
  }

  lemma {:induction false} IntersectionFits(qs: seq<Padded>, ps: seq<Padded>)
    requires |qs| >= 2 && AllOk(qs) && AllFree(qs, [COLON, Arrow, BAR, AMPERSAND]) && CleanAll(qs)
    requires Unparted(LexType(Intersection(ps))) && Keeps(LexType(Intersection(ps)), LexType(Intersection(qs)))
    ensures Ok(Intersection(qs)) && Clean(Intersection(qs)) && Replaces(Intersection(ps), Intersection(qs))
  {
    hide AllOk, AllFree, CleanAll, LexType, Unparted, Follows;
  }

  // ---------- Parts of a list ----------

  lemma {:induction false} PartGiven(c: Context, t: Type)
    requires c.InPart? && Fits(c, t)
    ensures var ps := c.before + [PlugSlot(c.slot, t)] + c.after;
      && PartsOk(ps) && CleanAll(ps) && c.slot.lead == "" && c.slot.trail == "" && Unparted(LexPadded(Last(ps)))
      && |ps| == |c.separators| + 1 && !Unparted(LexType(Plug(c, t))) && PartsOk(c.before) && PartsOk(c.after) && Ok(Plug(c.slot.inside, t))
  {
    hide PartsOk, AllFree, CleanAll, LexType, Unparted, LexPadded, SolidParts, SeparatorsOk, Trim, Print, LexAll, Plug;
    var p := PlugSlot(c.slot, t);
    PlugPart(c, t);
    TopShows(Plug(c, t));
    AllAppend(c.before + [p], c.after);
    AllAppend(c.before, [p]);
    FirstOk([p]);
  }

  lemma {:induction false} PlugPart(c: Context, t: Type)
    requires c.InPart?
    ensures Plug(c, t) == List(c.before + [PlugSlot(c.slot, t)] + c.after, c.separators)
  {
    hide PlugSlot;
  }

  lemma {:induction false} PartsFollowAround(a: seq<Padded>, p: Padded, q: Padded, b: seq<Padded>)
    requires PartsOk(a) && PartsOk(b) && Follows(LexPadded(p), LexPadded(q)) && LexedAll(LexPadded(p)) && LexedAll(LexPadded(q))
    ensures PartsFollow(a + [p] + b, a + [q] + b)
  {
    hide LexPadded, LexedAll, Follows;
    var ps, qs := a + [p] + b, a + [q] + b;
    EachLexed(a);
    EachLexed(b);
    forall k | 0 <= k < |ps|
      ensures Follows(LexPadded(ps[k]), LexPadded(qs[k])) && LexedAll(LexPadded(ps[k])) && LexedAll(LexPadded(qs[k]))
    {
      if k < |a| {
        assert ps[k] == a[k] == qs[k];
        FollowsItself(LexPadded(a[k]));
      } else if k > |a| {
        assert ps[k] == b[k - |a| - 1] == qs[k];
        FollowsItself(LexPadded(ps[k]));
      }
    }
  }

  lemma {:induction false} EachLexed(ps: seq<Padded>)
    requires PartsOk(ps)
    ensures forall k :: 0 <= k < |ps| ==> LexedAll(LexPadded(ps[k]))
  {
    hide Ok, LexType, LexPadded, LexedAll;
    if ps == [] {
    } else {
      OkLexed(ps[0].body);
      PartText(ps[0]);
      EachLexed(ps[1..]);
      forall k | 0 <= k < |ps| ensures LexedAll(LexPadded(ps[k])) {
        if k > 0 { assert ps[k] == ps[1..][k - 1]; }
      }
    }
  }

  lemma {:induction false} LastKept(a: seq<Padded>, p: Padded, q: Padded, b: seq<Padded>)
    requires Keeps(LexPadded(p), LexPadded(q)) && Unparted(LexPadded(Last(a + [p] + b)))
    ensures Unparted(LexPadded(Last(a + [q] + b)))
  {
    hide LexPadded, Follows, Unparted;
    if b == [] {
      assert a + [p] + b == a + [p] && a + [q] + b == a + [q];
    } else {
      assert Last(a + [p] + b) == Last(b) == Last(a + [q] + b);
    }
  }

  lemma {:induction false} PartReplaced(c: Context, t: Type, w: Type)
    requires c.InPart? && InnerReplaces(c, t, w)
    ensures Fits(c, w) && Replaces(Plug(c, t), Plug(c, w))
  {
    hide PartsOk, CleanAll, LexType, Unparted, LexPadded, LexedAll, PartsFollow, Ok, Clean, Plug, JoinList, LexAll, Keeps, Follows;
    var x, y, p, q := Plug(c.slot.inside, t), Plug(c.slot.inside, w), PlugSlot(c.slot, t), PlugSlot(c.slot, w);
    var ps, qs := c.before + [p] + c.after, c.before + [q] + c.after;
    PartGiven(c, t);
    PlugPart(c, t);
    PlugPart(c, w);
    ReplacedPart(p, q);
    AllReplaced(c.before, p, q, c.after);
    PartsFollowAround(c.before, p, q, c.after);
    LastKept(c.before, p, q, c.after);
    ListIsOk(Plug(c, t), qs);
    ListFits(ps, qs, c.separators);
  }

  lemma {:induction false} ReplacedPart(p: Padded, q: Padded)
    requires p.lead == "" && p.trail == "" && q.lead == "" && q.trail == "" && Ok(p.body) && Replaces(p.body, q.body)
    ensures Follows(LexPadded(p), LexPadded(q)) && Keeps(LexPadded(p), LexPadded(q))
    ensures LexedAll(LexPadded(p)) && LexedAll(LexPadded(q)) && Ok(q.body) && Clean(q.body)
  {
    hide LexType, LexPadded, LexedAll, Follows, Unparted, Ok, Clean;
    PartText(p);
    PartText(q);
    OkLexed(p.body);
    OkLexed(q.body);
  }

  lemma {:induction false} ListFits(ps: seq<Padded>, qs: seq<Padded>, separators: seq<string>)
    requires PartsFollow(ps, qs) && |ps| == |separators| + 1 && CleanAll(qs)
    requires Ok(List(qs, separators)) && !Unparted(LexType(List(ps, separators)))
    ensures Clean(List(qs, separators)) && Replaces(List(ps, separators), List(qs, separators))
  {
    hide PartsFollow, JoinList, LexAll, Ok, Follows, Unparted, CleanAll;
    ListFollows(ps, qs, separators);
  }

  // ---------- Every context ----------

  lemma {:induction false} LevelReplaced(c: Context, t: Type, w: Type)
    requires InnerReplaces(c, t, w)
    ensures Fits(c, w) && Replaces(Plug(c, t), Plug(c, w))
  {
    hide InnerReplaces, Fits, Replaces, Plug;
    match c
    case Here => HereReplaced(t, w);
    case InFlat(_) => FlatReplaced(c, t, w);
    case InParams(_, _) => ParamsReplaced(c, t, w);
    case InResult(_, _) => ResultReplaced(c, t, w);
    case InName(_, _) => NameReplaced(c, t, w);
    case InValue(_, _) => ValueReplaced(c, t, w);
    case InPart(_, _, _, _) => PartReplaced(c, t, w);
    case InIntersection(_, _, _) => MembersReplaced(c, t, w);
    case InUnion(_, _, _, _) => MembersReplaced(c, t, w);
    case _ => BranchReplaced(c, t, w);
  }

  lemma {:induction false} HereReplaced(t: Type, w: Type)
    requires InnerReplaces(Here, t, w)
    ensures Fits(Here, w) && Replaces(Plug(Here, t), Plug(Here, w))
  {
    hide Ok, Clean, Keeps;
  }

  /** What fits a place may be replaced there by whatever reads as well. */
  lemma {:induction false} ContextReplaced(c: Context, t: Type, w: Type)
    requires Fits(c, t) && Replaces(t, w)
    ensures Fits(c, w) && Replaces(Plug(c, t), Plug(c, w))
    decreases c
  {
    hide Fits, Replaces, Plug;
    if c.Here? {
      HereIs(t);
      HereIs(w);
    } else {
      InnerFits(c, t);
      ContextReplaced(Inner(c), t, w);
      IsInnerReplaces(c, t, w);
      LevelReplaced(c, t, w);
    }
  }

  lemma {:induction false} IsInnerReplaces(c: Context, t: Type, w: Type)
    requires Fits(c, t) && Replaces(Plug(Inner(c), t), Plug(Inner(c), w))
    ensures InnerReplaces(c, t, w)
  {
  }

  lemma {:induction false} HereIs(t: Type)
    ensures Plug(Here, t) == t && (Fits(Here, t) <==> Ok(t) && Clean(t)) && (forall u :: Replaces(u, t) ==> Ok(t) && Clean(t))
  {
    hide Ok, Clean, Keeps;
  }

  /** The same type in one place makes the same whole. */
  lemma {:induction false} ContextSame(c: Context, t: Type, u: Type)
    requires Fits(c, t) && Fits(c, u) && Same(t, u)
    ensures Same(Plug(c, t), Plug(c, u))
  {
    hide Ok, Clean, Same, Plug, NormaliseTypeText, Print, Expect;
    ExpectEverywhere(c, t, u);
    Canonicity(t, u);
    Everywhere(c, t, u);
    Complete(Plug(c, t), Plug(c, u));
  }
}
