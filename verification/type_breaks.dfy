/** Sorting may move a union's last member, with its separator, to the front: then the separator stands
    before a bar in the normalised text, and nowhere else does a part of a list begin with a bar. */
module TypeBreaks {
  import opened Strings
  import opened TypeText
  import opened TypeLexis
  import opened TypeGrammar
  import opened TypeCanonicity
  import opened TypeTokens
  import opened TypeShapes
  import opened TypeSplits
  import opened TypeCanonTree
  import opened TypeCanonStands
  import opened TypeCanonOk
  import opened TypeCanonShapes

  // ---------- A separator before a bar ----------

  predicate Quiet(xs: seq<Lex>) { NoTop(xs, LIST) && NoTop(xs, COLON) && NoTop(xs, Arrow) }

  /** The only separator stands at `k`, a space and a bar after it, and the rest is part of a union. */
  predicate BrokenAt(xs: seq<Lex>, k: nat) {
    && k + 2 < |xs| && Hits(xs[k], LIST) && xs[k + 1] == Ch(' ') && xs[k + 2] == Ch('|')
    && NoTop(xs[..k], LIST) && Quiet(xs[k + 3..])
  }

  ghost predicate Cut(xs: seq<Lex>) { Unparted(xs) || exists k: nat :: BrokenAt(xs, k) }

  lemma {:induction false} BrokenBehind(xs: seq<Lex>, ys: seq<Lex>, k: nat)
    requires NoTop(xs, LIST) && BrokenAt(ys, k)
    ensures BrokenAt(xs + ys, |xs| + k)
  {
    hide NoTop, Hits;
    var all := xs + ys;
    assert all[|xs| + k] == ys[k] && all[|xs| + k + 1] == ys[k + 1] && all[|xs| + k + 2] == ys[k + 2];
    assert all[..|xs| + k] == xs + ys[..k];
    NoTopAppend(xs, ys[..k], LIST);
    assert all[|xs| + k + 3..] == ys[k + 3..];
  }

  lemma {:induction false} BrokenBefore(xs: seq<Lex>, ys: seq<Lex>, k: nat)
    requires BrokenAt(xs, k) && Quiet(ys)
    ensures BrokenAt(xs + ys, k)
  {
    hide NoTop, Hits;
    var all := xs + ys;
    assert all[k] == xs[k] && all[k + 1] == xs[k + 1] && all[k + 2] == xs[k + 2] && all[..k] == xs[..k];
    assert all[k + 3..] == xs[k + 3..] + ys;
    NoTopAppend(xs[k + 3..], ys, LIST);
    NoTopAppend(xs[k + 3..], ys, COLON);
    NoTopAppend(xs[k + 3..], ys, Arrow);
  }

  lemma {:induction false} CutBehind(xs: seq<Lex>, ys: seq<Lex>)
    requires NoTop(xs, LIST) && Cut(ys)
    ensures Cut(xs + ys)
  {
    hide NoTop, BrokenAt, Unparted, SomeSolid;
    if Unparted(ys) {
      FreeUnparted(xs);
      UnpartedAppend(xs, ys);
    } else {
      var k: nat :| BrokenAt(ys, k);
      BrokenBehind(xs, ys, k);
    }
  }

  lemma {:induction false} SpaceQuiet(s: string)
    requires AllSpace(s)
    ensures Quiet(Chars(s))
  {
    SpaceNoTop(s, LIST);
    SpaceNoTop(s, COLON);
    SpaceNoTop(s, Arrow);
  }

  lemma {:induction false} CutBefore(xs: seq<Lex>, s: string)
    requires AllSpace(s) && Cut(xs)
    ensures Cut(xs + Chars(s))
  {
    hide NoTop, BrokenAt, Unparted, SomeSolid, AllSpace, Quiet;
    SpaceQuiet(s);
    SpaceUnparted(s);
    if Unparted(xs) {
      UnpartedAppend(xs, Chars(s));
    } else {
      var k: nat :| BrokenAt(xs, k);
      BrokenBefore(xs, Chars(s), k);
    }
  }

  lemma {:induction false} NotBroken(xs: seq<Lex>)
    requires Cut(xs) && NoTop(xs, BAR)
    ensures Unparted(xs)
  {
    hide Unparted, Quiet;
    forall k: nat ensures !BrokenAt(xs, k) {
      if k + 2 < |xs| { assert !Hits(xs[k + 2], BAR); }
    }
  }

  // ---------- Joined members ----------

  /** At most one of the types ends in a separator. */
  ghost predicate OneMark(ts: seq<Type>) {
    ts == [] || ((NoTop(LexType(ts[0]), LIST) || NoMark(ts[1..])) && OneMark(ts[1..]))
  }

  ghost predicate NoMark(ts: seq<Type>) { forall t :: t in ts ==> NoTop(LexType(t), LIST) }

  lemma {:induction false} InsertMark(t: Type, ts: seq<Type>)
    requires OneMark(ts) && (NoTop(LexType(t), LIST) || NoMark(ts))
    ensures OneMark(InsertType(t, ts))
  {
    hide LexType, NoTop, Leq, Print;
    if ts == [] {
      assert [t][1..] == [];
    } else if Leq(Print(t), Print(ts[0])) {
      assert ([t] + ts)[1..] == ts;
    } else {
      InsertMark(t, ts[1..]);
      var r := InsertType(t, ts);
      assert r[0] == ts[0] && r[1..] == InsertType(t, ts[1..]);
      if !NoTop(LexType(ts[0]), LIST) {
        assert ts[0] in ts;
        assert NoMark(r[1..]);
      }
    }
  }

  lemma {:induction false} SortMark(ts: seq<Type>)
    requires OneMark(ts)
    ensures OneMark(SortTypes(ts))
  {
    hide LexType, NoTop, InsertType;
    if ts == [] {
    } else {
      SortMark(ts[1..]);
      InsertMark(ts[0], SortTypes(ts[1..]));
    }
  }

  /** What the members of a normalised union are like. */
  ghost predicate JoinsWell(ts: seq<Type>) {
    AreMembers(ts, [COLON, Arrow]) && forall k :: 0 <= k < |ts| ==> Unparted(LexType(ts[k]))
  }

  lemma {:induction false} JoinsTail(ts: seq<Type>)
    requires ts != [] && JoinsWell(ts)
    ensures IsMember(ts[0], [COLON, Arrow]) && Unparted(LexType(ts[0])) && JoinsWell(ts[1..])
  {
    hide IsMember, Unparted, LexType;
    MembersTail(ts, [COLON, Arrow]);
    forall k | 0 <= k < |ts[1..]| ensures Unparted(LexType(ts[1..][k])) { assert ts[1..][k] == ts[k + 1]; }
  }

  lemma {:induction false} RestQuiet(ts: seq<Type>)
    requires ts != [] && JoinsWell(ts) && NoMark(ts)
    ensures Quiet(JoinLex(LexAll(Spaced(ts, false)), '|'))
  {
    hide LexType, NoTop, JoinLex, LexAll, Spaced, LexedAll, Print, Unparted;
    forall k | 0 <= k < |ts| ensures NoTop(LexType(ts[k]), COLON) && NoTop(LexType(ts[k]), Arrow) {
      var needles := [COLON, Arrow];
      assert IsMember(ts[k], needles) && COLON in needles && Arrow in needles;
    }
    assert IsNeedle(LIST) && IsNeedle(COLON) && IsNeedle(Arrow);
    SpacedNoTop(ts, false, '|', LIST);
    SpacedNoTop(ts, false, '|', COLON);
    SpacedNoTop(ts, false, '|', Arrow);
  }

  /** A trimmed text that ends in a separator, then a space and a bar. */
  lemma {:induction false} MarkThenBar(lead: string, xs: seq<Lex>, rest: seq<Lex>)
    requires AllSpace(lead) && LexedAll(xs) && Unparted(xs) && SolidEnd(xs) && !NoTop(xs, LIST) && Quiet(rest)
    ensures Cut(Chars(lead) + xs + Chars(" ") + [Ch('|')] + rest)
  {
    hide LexedAll, NoTop, AllSpace, Quiet, Unparted, SolidEnd;
    var before, mark, after := MarkSplit(xs);
    NothingAfter(before, mark, after);
    var all := Chars(lead) + xs + Chars(" ") + [Ch('|')] + rest;
    var k := |lead| + |before|;
    SpaceNoTop(lead, LIST);
    NoTopAppend(Chars(lead), before, LIST);
    OneSpace();
    assert all[..k] == Chars(lead) + before;
    assert all[k] == Ch(mark) && all[k + 1] == Ch(' ') && all[k + 2] == Ch('|') && all[k + 3..] == rest;
    MarkIsHit(mark);
    assert BrokenAt(all, k);
  }

  lemma {:induction false} MarkIsHit(mark: char)
    requires IsMark(mark)
    ensures Hits(Ch(mark), LIST)
  {
  }

  lemma {:induction false} OneSpace()
    ensures Chars(" ") == [Ch(' ')]
  {
    assert " "[1..] == "";
  }

  lemma {:induction false} NothingAfter(before: seq<Lex>, mark: char, after: string)
    requires AllSpace(after)
    ensures SolidEnd(before + ([Ch(mark)] + Chars(after))) ==> after == ""
  {
    var all := before + ([Ch(mark)] + Chars(after));
    CharsShown(after);
    if after != "" {
      assert all[|all| - 1] == Chars(after)[|after| - 1];
      assert IsSpace(after[|after| - 1]);
    }
  }

  lemma {:induction false} JoinCuts(ts: seq<Type>, first: bool)
    requires ts != [] && JoinsWell(ts) && OneMark(ts)
    ensures Cut(JoinLex(LexAll(Spaced(ts, first)), '|'))
    decreases |ts|
  {
    hide LexType, LexPadded, NoTop, JoinLex, LexAll, Spaced, LexedAll, ShowAll, Unparted, SolidEnd, SolidStart, Quiet, Free, AreMembers,
      BrokenAt;
    var p := FirstOf(ts, first);
    SpacedCons(ts, first);
    JoinsTail(ts);
    if |ts| == 1 {
      JoinedOne(p, '|');
      PaddedUnparted(p);
    } else {
      var rest := JoinLex(LexAll(Spaced(ts[1..], false)), '|');
      JoinedCons(p, Spaced(ts[1..], false), '|');
      if NoTop(LexType(ts[0]), LIST) {
        JoinCuts(ts[1..], false);
        ListNeedle();
        PaddedFree(p, LIST);
        assert !Hits(Ch('|'), LIST);
        OneNoTop(Ch('|'), LIST);
        NoTopAppend(LexPadded(p), [Ch('|')], LIST);
        CutBehind(LexPadded(p) + [Ch('|')], rest);
      } else {
        RestQuiet(ts[1..]);
        TrimmedEnds(LexType(ts[0]));
        MarkThenBar(p.lead, LexType(ts[0]), rest);
        PaddedTokens(p);
      }
    }
  }

  lemma {:induction false} PaddedTokens(p: Padded)
    ensures LexPadded(p) == Chars(p.lead) + LexType(p.body) + Chars(p.trail)
  {
  }

  // ---------- The normalised text of a type that is no list ----------

  lemma {:induction false} PartCuts(p: Padded)
    requires PaddedOk(p) && Clean(p.body) && Unparted(LexPadded(p))
    ensures Cut(LexPadded(CanonPadded(p)))
    decreases p, 0
  {
    hide Ok, LexType, LexPadded, Unparted, AllSpace, Cut, Canon, Clean, Trimmed, NoTop;
    BodyIsOk(p);
    BodyNoList(p);
    CanonCuts(p.body);
    var q := CanonPadded(p);
    SpaceNoTop(q.lead, LIST);
    CutBehind(Chars(q.lead), LexType(q.body));
    CutBefore(Chars(q.lead) + LexType(q.body), q.trail);
    PaddedTokens(q);
  }

  /** Items before a solid token, in front of a part. */
  lemma {:induction false} HeadCuts(items: seq<Item>, x: Lex, p: Padded)
    requires ItemsOk(items) && CleanItems(items) && x in [Fat, Ch(':')] && Unparted(LexItems(items) + [x] + LexPadded(p))
    requires PaddedOk(p) && Clean(p.body)
    ensures Cut(LexItems(CanonItems(items)) + [x] + LexPadded(CanonPadded(p)))
    decreases p, 1
  {
    hide ItemsOk, CleanItems, NoTop, LexPadded, Unparted, PaddedOk, Cut, Clean, AllAlike;
    assert SolidLex(x) && !Hits(x, LIST) by { SolidMark(x); }
    UnpartedAround(LexItems(items), x, LexPadded(p));
    ListNeedle();
    assert Free(LexItems(items), [LIST]);
    ItemsFree(items, [LIST]);
    assert LIST in [LIST];
    PartCuts(p);
    OneNoTop(x, LIST);
    NoTopAppend(LexItems(CanonItems(items)), [x], LIST);
    CutBehind(LexItems(CanonItems(items)) + [x], LexPadded(CanonPadded(p)));
  }

  lemma {:induction false} SolidMark(x: Lex)
    requires x in [Fat, Ch(':'), Ch('?')]
    ensures SolidLex(x) && !Hits(x, LIST)
  {
  }

  lemma {:induction false} FreePart(p: Padded)
    requires PaddedOk(p) && Clean(p.body) && NoTop(LexPadded(p), LIST)
    ensures NoTop(LexPadded(CanonPadded(p)), LIST)
  {
    hide Ok, LexType, Follows, LexPadded, NoTop, Canon, Clean, Expect, LexedAll;
    BodyIsOk(p);
    CanonStands(p.body);
    PaddedStands(p, Canon(p.body));
    ListNeedle();
    assert Free(LexPadded(p), [LIST]) && LIST in [LIST];
    FreeStays(LexPadded(p), LexPadded(CanonPadded(p)), [LIST]);
  }

  lemma {:induction false} ConditionalCuts(t: Type)
    requires t.Conditional? && Ok(t) && Clean(t)
    ensures Cut(Canonical(t))
    decreases t, 0
  {
    hide NoTop, PaddedOk, LexPadded, Unparted, Cut;
    ConditionalUnparted(LexPadded(t.check), LexPadded(t.yes), LexPadded(t.no));
    FreePart(t.check);
    FreePart(t.yes);
    PartCuts(t.no);
    var check, yes, no := LexPadded(CanonPadded(t.check)), LexPadded(CanonPadded(t.yes)), LexPadded(CanonPadded(t.no));
    SolidMark(Ch('?'));
    SolidMark(Ch(':'));
    OneNoTop(Ch('?'), LIST);
    OneNoTop(Ch(':'), LIST);
    NoTopAppend(yes, [Ch(':')], LIST);
    NoTopAppend(check, [Ch('?')], LIST);
    CutBehind(yes + [Ch(':')], no);
    CutBehind(check + [Ch('?')], yes + [Ch(':')] + no);
  }

  lemma {:induction false} MemberCuts(p: Padded, needles: seq<Needle>)
    requires PaddedOk(p) && Clean(p.body) && Free(LexPadded(p), needles) && BAR in needles && Unparted(LexPadded(p))
    ensures Unparted(Canonical(p.body)) && (NoTop(LexPadded(p), LIST) ==> NoTop(Canonical(p.body), LIST))
    decreases p, 0
  {
    hide Ok, LexType, LexPadded, Unparted, AllSpace, Cut, Canon, Clean, Trimmed, NoTop;
    BodyIsOk(p);
    BodyNoList(p);
    CanonCuts(p.body);
    BodyFree(p, BAR);
    CanonHides(p.body, BAR);
    NotBroken(Canonical(p.body));
    if NoTop(LexPadded(p), LIST) {
      BodyFree(p, LIST);
      CanonHides(p.body, LIST);
    }
  }

  /** The canonical members one by one: only the last may end in a separator. */
  lemma {:induction false} MembersCut(ps: seq<Padded>, needles: seq<Needle>)
    requires ps != [] && AllOk(ps) && CleanAll(ps) && AllFree(ps, needles) && BAR in needles
    requires AllFree(ps[..|ps| - 1], [LIST]) && Unparted(LexPadded(Last(ps)))
    ensures var ts := CanonBodies(ps); OneMark(ts) && forall k :: 0 <= k < |ts| ==> Unparted(LexType(ts[k]))
    decreases ps, 0
  {
    hide LexPadded, Unparted, NoTop, PaddedOk, Clean, Canon, LexType;
    var ts := CanonBodies(ps);
    assert Free(LexPadded(ps[0]), needles);
    if |ps| == 1 {
      MemberCuts(ps[0], needles);
      assert ts == [Canon(ps[0].body)] && ts[1..] == [];
    } else {
      FrontFree(ps);
      FreeUnparted(LexPadded(ps[0]));
      MemberCuts(ps[0], needles);
      assert AllFree(ps[1..], needles);
      MembersCut(ps[1..], needles);
      assert ts[1..] == CanonBodies(ps[1..]) && ts[0] == Canon(ps[0].body);
      forall k | 0 <= k < |ts| ensures Unparted(LexType(ts[k])) {
        if k > 0 { assert ts[k] == ts[1..][k - 1]; }
      }
    }
  }

  lemma {:induction false} IntersectionCuts(t: Type)
    requires t.Intersection? && Ok(t) && Clean(t)
    ensures Cut(Canonical(t))
    decreases t, 0
  {
    hide AllOk, AllFree, CleanAll, AreMembers, Spaced, LexType, Prints, AllStand, Unparted, Needles, AllFramed, JoinLex, LexAll,
      LexPadded, ExpectBodies, Join, OneMark, CanonBodies, Expect, FrontUncut;
    var ps, needles := t.members, [COLON, Arrow, BAR, AMPERSAND];
    IntersectionFacts(t);
    NeedlesAre(needles);
    MembersStand(ps, needles);
    PlainIntersection(ps);
    JoinUnparted(ps, '&');
    MembersCut(ps, needles);
    var ts := CanonBodies(ps);
    SpacedFramed(ts, true, needles);
    FrontStands(ps, ts);
    SpacedUnparted(ts);
    JoinUnparted(Spaced(ts, true), '&');
    PlainIntersection(Spaced(ts, true));
  }

  lemma {:induction false} SortedJoinsWell(ts: seq<Type>, needles: seq<Needle>)
    requires AreMembers(ts, needles) && COLON in needles && Arrow in needles
    requires forall k :: 0 <= k < |ts| ==> Unparted(LexType(ts[k]))
    ensures JoinsWell(SortTypes(ts))
  {
    hide LexedAll, LexType, NoTop, Print, Unparted, SortTypes;
    var sorted := SortTypes(ts);
    forall k | 0 <= k < |sorted| ensures IsMember(sorted[k], [COLON, Arrow]) && Unparted(LexType(sorted[k])) {
      var j := IndexIn(ts, sorted, k);
      assert IsMember(ts[j], needles);
    }
  }

  lemma {:induction false} UnionCuts(t: Type)
    requires t.Union? && Ok(t) && Clean(t)
    ensures Cut(Canonical(t))
    decreases t, 0
  {
    hide AllOk, AllFree, CleanAll, AreMembers, Spaced, LexType, Prints, AllStand, Unparted, Needles, JoinLex, LexAll, LexPadded,
      ExpectBodies, Join, Sort, OneMark, CanonBodies, Expect, SortTypes, NoneEndsInEquals, JoinsWell, Cut, AllSpace;
    var ps, needles := t.members, [COLON, Arrow, BAR];
    UnionFacts(t);
    NeedlesAre(needles);
    MembersStand(ps, needles);
    assert t == Union(t.bar, ps);
    UnionUnparted(t.bar, ps);
    MembersCut(ps, needles);
    var ts := CanonBodies(ps);
    SortedJoinsWell(ts, needles);
    SortMark(ts);
    JoinCuts(SortTypes(ts), true);
    PlainUnion(Spaced(SortTypes(ts), true));
  }

  /** In the normalised text of a type that is no list, a separator is followed by white space alone or
      stands before a bar. */
  lemma {:induction false} CanonCuts(t: Type)
    requires Ok(t) && Clean(t) && !t.List?
    ensures Cut(Canonical(t))
    decreases t, 1
  {
    hide NoTop, PaddedOk, LexPadded, Unparted, Cut, ItemsOk, CleanItems, AllAlike, AllOk, AllFree, CleanAll, LexAll, JoinLex, Spaced,
      NoneEndsInEquals;
    match t
    case Flat(items) =>
      ItemsStand(items);
      AlikeUnparted(LexItems(items), LexItems(CanonItems(items)));
      WholeIsCut(Canonical(t));
    case Intersection(_) => IntersectionCuts(t);
    case Union(_, _) => UnionCuts(t);
    case Function(params, result) => HeadCuts(params, Fat, result);
    case Labelled(name, value) => HeadCuts(name, Ch(':'), value);
    case Conditional(_, _, _) => ConditionalCuts(t);
  }

  lemma {:induction false} WholeIsCut(xs: seq<Lex>)
    requires Unparted(xs)
    ensures Cut(xs)
  {
  }
}
