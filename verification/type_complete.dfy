/** The normalised text of a type determines the type up to the order of union members. */
module TypeComplete {
  import opened Strings
  import opened TypeText
  import opened TypeLexis
  import opened TypeGrammar
  import opened TypeCanonicity
  import opened TypeTokens
  import opened TypeShapes
  import opened TypeSplits
  import opened TypeTheorems
  import opened TypeCanonTree
  import opened TypeCanonStands
  import opened TypeCanonOk
  import opened TypeCanonShapes
  import opened TypeBreaks
  import opened TypeInjective
  import opened TypeRecovered
  import opened TypeLists

  // ---------- From texts to tokens ----------

  lemma {:induction false} SameTokens(t: Type, u: Type)
    requires Ok(t) && Ok(u) && Clean(t) && Clean(u) && Expect(t) == Expect(u)
    ensures Canonical(t) == Canonical(u)
  {
    hide Ok, Clean, Canon, LexType, Expect, ShowAll, LexedAll, Follows;
    CanonStands(t);
    CanonStands(u);
    ShowInjective(Canonical(t), Canonical(u));
  }

  lemma {:induction false} CanonPads(p: Padded)
    requires PaddedOk(p) && Clean(p.body)
    ensures var text := ShowAll(LexPadded(CanonPadded(p)));
      Leading(text) == p.lead && Trim(text) == Expect(p.body) && Trailing(text) == p.trail
  {
    hide Ok, Clean, Canon, LexType, LexPadded, Expect, ShowAll, LexedAll, Follows, Leading, Trim, Trailing, Framed, AllSpace, Trimmed;
    BodyIsOk(p);
    CanonStands(p.body);
    PaddedStands(p, Canon(p.body));
    PaddedTrim(CanonPadded(p));
  }

  lemma {:induction false} PadsUnique(p: Padded, q: Padded)
    requires PaddedOk(p) && PaddedOk(q) && Clean(p.body) && Clean(q.body)
    requires LexPadded(CanonPadded(p)) == LexPadded(CanonPadded(q))
    ensures p.lead == q.lead && p.trail == q.trail && Expect(p.body) == Expect(q.body) && Ok(p.body) && Ok(q.body)
  {
    hide Ok, Clean, LexPadded, Expect, ShowAll, AllSpace, Trimmed, Leading, Trim, Trailing;
    CanonPads(p);
    CanonPads(q);
  }

  // ---------- Items ----------

  lemma {:induction false} DecodePadded(p: Padded, q: Padded)
    requires PaddedOk(p) && PaddedOk(q) && Clean(p.body) && Clean(q.body)
    requires LexPadded(CanonPadded(p)) == LexPadded(CanonPadded(q))
    ensures SamePadded(p, q)
    decreases p, 0
  {
    hide Ok, Clean, LexPadded, Expect, AllSpace, Trimmed, Same;
    PadsUnique(p, q);
    Decode(p.body, q.body);
  }

  lemma {:induction false} DecodeItems(xs: seq<Item>, ys: seq<Item>)
    requires ItemsOk(xs) && ItemsOk(ys) && CleanItems(xs) && CleanItems(ys)
    requires LexItems(CanonItems(xs)) == LexItems(CanonItems(ys))
    ensures SameItems(xs, ys)
    decreases xs, 0
  {
    hide ItemOk, CleanItem, LexItem, CanonItem, SameItem;
    assert |LexItems(CanonItems(xs))| == |xs| && |LexItems(CanonItems(ys))| == |ys|;
    if xs == [] {
    } else {
      FirstItem(xs);
      FirstItem(ys);
      DecodeItem(xs[0], ys[0]);
      DecodeItems(xs[1..], ys[1..]);
    }
  }

  lemma {:induction false} FirstItem(xs: seq<Item>)
    requires xs != []
    ensures LexItems(CanonItems(xs))[0] == LexItem(CanonItem(xs[0])) && LexItems(CanonItems(xs))[1..] == LexItems(CanonItems(xs[1..]))
  {
    hide LexItem, CanonItem;
    assert CanonItems(xs)[1..] == CanonItems(xs[1..]);
  }

  lemma {:induction false} BracketIsSolid(inner: Padded, space: string)
    requires PaddedOk(inner) && Clean(inner.body) && AllSpace(space)
    ensures LexPadded(CanonPadded(inner)) != Chars(space)
  {
    hide Ok, Clean, Canon, LexType, LexPadded, Expect, ShowAll, LexedAll, Follows, AllSpace, Leading, Trim, Trailing;
    CanonPads(inner);
    CharsShown(space);
    AllSpacePads(space);
    BodyIsOk(inner);
    CanonStands(inner.body);
    PaddedStands(inner, Canon(inner.body));
  }

  lemma {:induction false} TwiceUnique(s: string, s': string)
    requires s + s == s' + s'
    ensures s == s'
  {
    assert |s| == |s'|;
    assert (s + s)[..|s|] == s && (s' + s')[..|s|] == s';
  }

  lemma {:induction false} DecodeItem(x: Item, y: Item)
    requires ItemOk(x) && ItemOk(y) && CleanItem(x) && CleanItem(y) && LexItem(CanonItem(x)) == LexItem(CanonItem(y))
    ensures SameItem(x, y)
    decreases x, 1
  {
    hide PaddedOk, Clean, LexPadded, AllSpace, SamePadded, CanonPadded, EndsInEquals;
    if x.Bracket? && y.Bracket? {
      DecodePadded(x.inner, y.inner);
    } else if x.Bracket? && y.Hollow? {
      SpaceAppend(y.space, y.space);
      BracketIsSolid(x.inner, y.space + y.space);
    } else if x.Hollow? && y.Bracket? {
      SpaceAppend(x.space, x.space);
      BracketIsSolid(y.inner, x.space + x.space);
    } else if x.Hollow? && y.Hollow? {
      CharsShown(x.space + x.space);
      CharsShown(y.space + y.space);
      TwiceUnique(x.space, y.space);
    }
  }

  // ---------- Functions, labels, conditionals ----------

  lemma {:induction false} DecodeFunction(t: Type, u: Type)
    requires t.Function? && u.Function? && Ok(t) && Ok(u) && Clean(t) && Clean(u) && Canonical(t) == Canonical(u)
    ensures Same(t, u)
    decreases t, 0
  {
    hide ItemsOk, PaddedOk, CleanItems, NoTop, LexItems, LexPadded, SameItems, SamePadded, Unparted, AllAlike, Needles;
    var needles := [COLON, Arrow];
    NeedlesAre(needles);
    ItemsFree(t.params, needles);
    ItemsFree(u.params, needles);
    assert needles[1] == Arrow;
    MarksHit();
    CutUnique(LexItems(CanonItems(t.params)), Fat, LexPadded(CanonPadded(t.result)),
              LexItems(CanonItems(u.params)), Fat, LexPadded(CanonPadded(u.result)), Arrow);
    DecodeItems(t.params, u.params);
    DecodePadded(t.result, u.result);
  }

  lemma {:induction false} DecodeLabel(t: Type, u: Type)
    requires t.Labelled? && u.Labelled? && Ok(t) && Ok(u) && Clean(t) && Clean(u) && Canonical(t) == Canonical(u)
    ensures Same(t, u)
    decreases t, 0
  {
    hide ItemsOk, PaddedOk, CleanItems, NoTop, LexItems, LexPadded, SameItems, SamePadded, Unparted, AllAlike, Needles, IsLabel;
    var needles := [COLON];
    NeedlesAre(needles);
    ItemsFree(t.name, needles);
    ItemsFree(u.name, needles);
    assert needles[0] == COLON;
    MarksHit();
    CutUnique(LexItems(CanonItems(t.name)), Ch(':'), LexPadded(CanonPadded(t.value)),
              LexItems(CanonItems(u.name)), Ch(':'), LexPadded(CanonPadded(u.value)), COLON);
    DecodeItems(t.name, u.name);
    DecodePadded(t.value, u.value);
  }

  lemma {:induction false} PartFree(p: Padded, n: Needle)
    requires PaddedOk(p) && Clean(p.body) && Free(LexPadded(p), [n]) && IsNeedle(n)
    ensures NoTop(LexPadded(CanonPadded(p)), n) && LexPadded(CanonPadded(p)) != []
  {
    hide Ok, LexType, LexPadded, NoTop, Canon, Clean, Expect, LexedAll, AllSpace, Trim, SolidStart, SolidEnd, SomeSolid, EndsInEquals;
    BodyIsOk(p);
    CanonStands(p.body);
    PaddedStands(p, Canon(p.body));
    OneNeedle(n);
    FreeStays(LexPadded(p), LexPadded(CanonPadded(p)), [n]);
    FramedNotEmpty(CanonPadded(p));
  }

  lemma {:induction false} OneNeedle(n: Needle)
    ensures n in [n]
  {
  }

  lemma {:induction false} FramedNotEmpty(p: Padded)
    requires Framed(p)
    ensures LexPadded(p) != []
  {
    hide LexType, ShowAll, LexedAll;
    TrimmedEnds(LexType(p.body));
  }

  /** A colon right after the first question mark, or no question mark. */
  predicate Optional(xs: seq<Lex>) {
    var k := FirstAt(xs, QUESTION);
    k == |xs| || (k + 1 < |xs| && xs[k + 1] == Ch(':'))
  }

  lemma {:induction false} NoneAt(xs: seq<Lex>, needle: Needle)
    requires NoTop(xs, needle)
    ensures FirstAt(xs, needle) == |xs|
  {
    hide Hits;
    if xs == [] {
    } else {
      NoneAt(xs[1..], needle);
    }
  }

  lemma {:induction false} LabelIsOptional(name: seq<Lex>, value: seq<Lex>)
    requires IsLabel(name, value)
    ensures Optional(name + [Ch(':')] + value)
  {
    hide FirstAt;
    var all := name + [Ch(':')] + value;
    if NoTop(name, QUESTION) && NoTop(value, QUESTION) {
      NoTopAround(name, Ch(':'), value, QUESTION);
      NoneAt(all, QUESTION);
    } else {
      var front := name[..|name| - 1];
      assert name == front + [Ch('?')];
      assert all == front + [Ch('?')] + ([Ch(':')] + value);
      FirstAtIs(front, Ch('?'), [Ch(':')] + value, QUESTION);
    }
  }

  lemma {:induction false} BranchIsNotOptional(check: seq<Lex>, yes: seq<Lex>, no: seq<Lex>)
    requires NoTop(check, QUESTION) && NoTop(yes, COLON) && yes != []
    ensures !Optional(check + [Ch('?')] + (yes + [Ch(':')] + no))
  {
    hide FirstAt;
    var all := check + [Ch('?')] + (yes + [Ch(':')] + no);
    FirstAtIs(check, Ch('?'), yes + [Ch(':')] + no, QUESTION);
    assert all[|check| + 1] == yes[0];
    assert !Hits(yes[0], COLON);
  }

  lemma {:induction false} CanonOptional(t: Type)
    requires Ok(t) && Clean(t)
    ensures t.Labelled? ==> Optional(Canonical(t))
    ensures t.Conditional? ==> !Optional(Canonical(t))
  {
    hide ItemsOk, PaddedOk, CleanItems, NoTop, LexItems, LexPadded, Unparted, AllAlike, IsLabel, Optional, Follows, LexedAll, ExpectPadded,
      Framed, Expect;
    match t
    case Labelled(name, value) =>
      ItemsStand(name);
      BodyIsOk(value);
      CanonStands(value.body);
      PaddedStands(value, Canon(value.body));
      LabelStays(LexItems(name), LexItems(CanonItems(name)), LexPadded(value), LexPadded(CanonPadded(value)));
      LabelIsOptional(LexItems(CanonItems(name)), LexPadded(CanonPadded(value)));
    case Conditional(check, yes, no) =>
      PartFree(check, QUESTION);
      PartFree(yes, COLON);
      BranchIsNotOptional(LexPadded(CanonPadded(check)), LexPadded(CanonPadded(yes)), LexPadded(CanonPadded(no)));
    case _ =>
  }

  lemma {:induction false} DecodeConditional(t: Type, u: Type)
    requires t.Conditional? && u.Conditional? && Ok(t) && Ok(u) && Clean(t) && Clean(u) && Canonical(t) == Canonical(u)
    ensures Same(t, u)
    decreases t, 0
  {
    hide PaddedOk, NoTop, LexPadded, SamePadded, Unparted;
    PartFree(t.check, QUESTION);
    PartFree(u.check, QUESTION);
    PartFree(t.yes, COLON);
    PartFree(u.yes, COLON);
    MarksHit();
    QuestionHits();
    var a, b, c := LexPadded(CanonPadded(t.check)), LexPadded(CanonPadded(t.yes)), LexPadded(CanonPadded(t.no));
    var a', b', c' := LexPadded(CanonPadded(u.check)), LexPadded(CanonPadded(u.yes)), LexPadded(CanonPadded(u.no));
    CutUnique(a, Ch('?'), b + [Ch(':')] + c, a', Ch('?'), b' + [Ch(':')] + c', QUESTION);
    CutUnique(b, Ch(':'), c, b', Ch(':'), c', COLON);
    DecodePadded(t.check, u.check);
    DecodePadded(t.yes, u.yes);
    DecodePadded(t.no, u.no);
  }

  lemma {:induction false} QuestionHits()
    ensures Hits(Ch('?'), QUESTION)
  {
  }

  // ---------- Members ----------

  ghost predicate BodiesGood(ps: seq<Padded>) { forall k :: 0 <= k < |ps| ==> Ok(ps[k].body) && Clean(ps[k].body) }

  lemma {:induction false} GoodBodies(ps: seq<Padded>)
    requires (AllOk(ps) || PartsOk(ps)) && CleanAll(ps)
    ensures BodiesGood(ps)
  {
    hide Ok, Clean;
    if ps == [] {
    } else {
      BodyOfFirst(ps);
      GoodBodies(ps[1..]);
      forall k | 0 <= k < |ps| ensures Ok(ps[k].body) && Clean(ps[k].body) {
        if k > 0 { assert ps[k] == ps[1..][k - 1]; }
      }
    }
  }

  lemma {:induction false} DecodeBodies(ps: seq<Padded>, qs: seq<Padded>)
    requires BodiesGood(ps) && BodiesGood(qs) && ExpectBodies(ps) == ExpectBodies(qs)
    ensures SameBodies(ps, qs)
    decreases ps, 0
  {
    hide Ok, Clean, Expect, Same;
    assert |ExpectBodies(ps)| == |ps| && |ExpectBodies(qs)| == |qs|;
    if ps == [] {
    } else {
      assert ExpectBodies(ps)[1..] == ExpectBodies(ps[1..]) && ExpectBodies(qs)[1..] == ExpectBodies(qs[1..]);
      Decode(ps[0].body, qs[0].body);
      DecodeBodies(ps[1..], qs[1..]);
    }
  }

  lemma {:induction false} ExpectAt(ps: seq<Padded>, k: nat)
    requires k < |ps|
    ensures ExpectBodies(ps)[k] == Expect(ps[k].body)
    decreases k
  {
    hide Expect;
    if k == 0 {
    } else {
      ExpectAt(ps[1..], k - 1);
    }
  }

  lemma {:induction false} FindBody(ps: seq<Padded>, x: string) returns (j: nat)
    requires x in multiset(ExpectBodies(ps))
    ensures j < |ps| && Expect(ps[j].body) == x
  {
    hide Expect, ExpectBodies;
    j :| 0 <= j < |ps| && ExpectBodies(ps)[j] == x;
    ExpectAt(ps, j);
  }

  lemma {:induction false} GoodWithout(qs: seq<Padded>, j: nat)
    requires BodiesGood(qs) && j < |qs|
    ensures BodiesGood(qs[..j] + qs[j + 1..])
  {
    hide Ok, Clean;
    var rest := qs[..j] + qs[j + 1..];
    forall k | 0 <= k < |rest| ensures Ok(rest[k].body) && Clean(rest[k].body) {
      assert rest[k] == qs[if k < j then k else k + 1];
    }
  }

  lemma {:induction false} DecodeBag(ps: seq<Padded>, qs: seq<Padded>)
    requires BodiesGood(ps) && BodiesGood(qs) && multiset(ExpectBodies(ps)) == multiset(ExpectBodies(qs))
    ensures SameBag(ps, qs)
    decreases ps, 0
  {
    hide Ok, Clean, Expect, Same, ExpectBodies;
    assert |multiset(ExpectBodies(ps))| == |ps| && |multiset(ExpectBodies(qs))| == |qs|;
    if ps == [] {
    } else {
      FirstExpected(ps);
      var x := Expect(ps[0].body);
      assert x in multiset(ExpectBodies(qs));
      var j := FindBody(qs, x);
      Decode(ps[0].body, qs[j].body);
      ExpectBagRemove(qs, j);
      var rest := qs[..j] + qs[j + 1..];
      GoodWithout(qs, j);
      BagLess(multiset(ExpectBodies(ps[1..])), multiset(ExpectBodies(rest)), x);
      assert BodiesGood(ps[1..]) by { GoodWithout(ps, 0); assert ps[..0] + ps[1..] == ps[1..]; }
      DecodeBag(ps[1..], rest);
    }
  }

  lemma {:induction false} BagLess(a: multiset<string>, b: multiset<string>, x: string)
    requires multiset{x} + a == b + multiset{x}
    ensures a == b
  {
    assert a == (multiset{x} + a) - multiset{x} && b == (b + multiset{x}) - multiset{x};
  }

  // ---------- Lists ----------

  lemma {:induction false} StartIsNoBar(t: Type)
    requires Ok(t) && Clean(t) && t.Union?
    ensures Canonical(t) != [] && Canonical(t)[0] != Ch('|')
  {
    hide AllOk, AllFree, CleanAll, AreMembers, Spaced, LexType, Prints, AllStand, Unparted, Needles, JoinLex, LexAll, LexPadded,
      ExpectBodies, Join, Sort, CanonBodies, Expect, SortTypes, NoneEndsInEquals, NoTop;
    var ps, needles := t.members, [COLON, Arrow, BAR];
    UnionFacts(t);
    NeedlesAre(needles);
    MembersStand(ps, needles);
    var sorted := SortTypes(CanonBodies(ps));
    SortedMembers(CanonBodies(ps), needles);
    PlainUnion(Spaced(sorted, true));
    MembersTail(sorted, needles);
    assert needles[2] == BAR;
    FirstOfJoin(sorted);
  }

  lemma {:induction false} FirstOfJoin(ts: seq<Type>)
    requires |ts| >= 2 && LexedAll(LexType(ts[0])) && Trimmed(Print(ts[0])) && NoTop(LexType(ts[0]), BAR)
    ensures var xs := JoinLex(LexAll(Spaced(ts, true)), '|'); xs != [] && xs[0] != Ch('|')
  {
    hide LexType, LexPadded, JoinLex, LexAll, Spaced, LexedAll, ShowAll;
    var p := FirstOf(ts, true);
    SpacedCons(ts, true);
    JoinedCons(p, Spaced(ts[1..], false), '|');
    TrimmedEnds(LexType(ts[0]));
    PaddedTokens(p);
    assert Chars("") + LexType(ts[0]) == LexType(ts[0]);
    assert LexPadded(p)[0] == LexType(ts[0])[0];
    assert !Hits(LexType(ts[0])[0], BAR);
  }

  lemma {:induction false} NoBarPart(t: Type)
    requires Ok(t) && Clean(t) && !t.List?
    ensures !BarPart(Canonical(t))
  {
    hide Ok, Clean, Canonical;
    if Quiet(Canonical(t)) {
      IsLabelled(t);
      IsFunction(t);
      IsUnion(t);
      if t.Union? { StartIsNoBar(t); }
    }
  }

  lemma {:induction false} FrontStays(ps: seq<Padded>, qs: seq<Padded>)
    requires ps != [] && PartsFollow(ps, qs) && AllFree(ps[..|ps| - 1], [LIST])
    ensures NoTopEach(LexAll(qs)[..|qs| - 1], LIST)
  {
    hide LexPadded, Follows, LexedAll, NoTop, LexAll, NoTopEach, IsNeedle;
    var n := |ps| - 1;
    ListNeedle();
    forall k | 0 <= k < |qs[..n]| ensures Free(LexPadded(qs[..n][k]), [LIST]) {
      assert Free(LexPadded(ps[..n][k]), [LIST]) && ps[..n][k] == ps[k] && qs[..n][k] == qs[k];
      FreeStays(LexPadded(ps[k]), LexPadded(qs[k]), [LIST]);
    }
    FreeEach(qs[..n], [LIST], LIST);
    LexAllFront(qs);
  }

  lemma {:induction false} ListSolid(t: Type)
    requires t.List? && Ok(t)
    ensures |t.parts| >= 2 && AllFree(t.parts[..|t.parts| - 1], [LIST]) && SolidParts(LexAll(t.parts[1..]))
  {
    hide PartsOk, AllFree, SeparatorsOk, SolidParts, LexAll, Trim, Print, Unparted;
  }

  lemma {:induction false} CanonPartsGood(t: Type)
    requires t.List? && Ok(t) && Clean(t)
    ensures PartsGood(LexAll(CanonParts(t.parts)), t.separators)
    ensures Canonical(t) == JoinList(LexAll(CanonParts(t.parts)), t.separators)
  {
    hide LexPadded, Follows, LexedAll, PartsOk, CleanAll, PartsFollow, Ok, LexType, Unparted, LexedParts, ExpectBodies, Canon,
      JoinList, SeparatorsOk, Rejoin, Clean, Expect, SolidParts, AllFree, NoTopEach, Cut, BarPart, SomeSolid, LexAll, CanonParts;
    var ps, qs := t.parts, CanonParts(t.parts);
    ListFacts(t);
    ListSolid(t);
    PartsStand(ps);
    FrontStays(ps, qs);
    FollowTail(ps, qs);
    SolidPartsStay(ps[1..], qs[1..]);
    LexAllTail(qs);
    LastPartSolid(t);
    LastFollows(ps, qs);
    ListLast(t);
    LastClean(ps);
    CanonCuts(Last(ps).body);
    NoBarPart(Last(ps).body);
    LexAllAt(qs, |qs| - 1);
    CanonAt(ps, |ps| - 1);
    PartText(Last(qs));
  }

  lemma {:induction false} LastClean(ps: seq<Padded>)
    requires ps != [] && CleanAll(ps)
    ensures Clean(Last(ps).body)
  {
    hide Clean;
    if |ps| == 1 {
    } else {
      LastClean(ps[1..]);
    }
  }

  lemma {:induction false} PartTexts(ps: seq<Padded>)
    requires PartsOk(ps) && CleanAll(ps)
    ensures forall k :: 0 <= k < |ps| ==> ShowAll(LexAll(CanonParts(ps))[k]) == ExpectBodies(ps)[k]
  {
    hide LexPadded, Follows, LexedAll, PartsOk, CleanAll, PartsFollow, LexedParts, ExpectBodies, LexAll, CanonParts;
    PartsStand(ps);
    forall k | 0 <= k < |ps| ensures ShowAll(LexAll(CanonParts(ps))[k]) == ExpectBodies(ps)[k] { LexAllAt(CanonParts(ps), k); }
  }

  lemma {:induction false} DecodeList(t: Type, u: Type)
    requires t.List? && u.List? && Ok(t) && Ok(u) && Clean(t) && Clean(u) && Canonical(t) == Canonical(u)
    ensures Same(t, u)
    decreases t, 0
  {
    hide Ok, Clean, PartsGood, LexAll, CanonParts, JoinList, ExpectBodies, SameBodies, BodiesGood, PartsOk, CleanAll, LexType, Canonical;
    CanonPartsGood(t);
    CanonPartsGood(u);
    var parts, parts' := LexAll(CanonParts(t.parts)), LexAll(CanonParts(u.parts));
    PartsUnique(parts, t.separators, parts', u.separators);
    ListFacts(t);
    ListFacts(u);
    PartTexts(t.parts);
    PartTexts(u.parts);
    assert |t.parts| == |parts| == |u.parts|;
    assert ExpectBodies(t.parts) == ExpectBodies(u.parts);
    GoodBodies(t.parts);
    GoodBodies(u.parts);
    DecodeBodies(t.parts, u.parts);
  }

  lemma {:induction false} ListOrNot(t: Type, u: Type)
    requires t.List? && !u.List? && Ok(t) && Ok(u) && Clean(t) && Clean(u)
    ensures Canonical(t) != Canonical(u)
  {
    hide Ok, Clean, PartsGood, LexAll, CanonParts, JoinList, LexType, Cut, Canonical;
    CanonPartsGood(t);
    ListIsLong(t);
    CanonCuts(u);
    OneOrMore(Canonical(u), LexAll(CanonParts(t.parts)), t.separators);
  }

  // ---------- Main results ----------

  lemma {:induction false} MembersGood(t: Type)
    requires (t.Union? || t.Intersection?) && Ok(t) && Clean(t)
    ensures BodiesGood(t.members)
  {
    hide AllOk, AllFree, CleanAll, NoneEndsInEquals, BodiesGood, Unparted, LexType;
    GoodBodies(t.members);
  }

  /** Types with the same normalised text are the same but for the order of union members. */
  lemma {:induction false} Decode(t: Type, u: Type)
    requires Ok(t) && Ok(u) && Clean(t) && Clean(u) && Expect(t) == Expect(u)
    ensures Same(t, u)
    decreases t, 1
  {
    hide Ok, Clean, Canonical, Expect, ExpectBodies, SameBag, SameBodies, SameItems, SamePadded, BodiesGood, Optional;
    SameTokens(t, u);
    if t.List? && u.List? {
      DecodeList(t, u);
    } else if t.List? {
      ListOrNot(t, u);
    } else if u.List? {
      ListOrNot(u, t);
    } else {
      KindShows(t, u);
      match t
      case Flat(_) => DecodeFlat(t, u);
      case Intersection(_) =>
        ExpectedIntersections(t, u);
        MembersGood(t);
        MembersGood(u);
        DecodeBodies(t.members, u.members);
      case Union(_, _) =>
        ExpectedUnions(t, u);
        MembersGood(t);
        MembersGood(u);
        DecodeBag(t.members, u.members);
      case Function(_, _) => DecodeFunction(t, u);
      case Labelled(_, _) =>
        CanonOptional(t);
        CanonOptional(u);
        DecodeLabel(t, u);
      case Conditional(_, _, _) =>
        CanonOptional(t);
        CanonOptional(u);
        DecodeConditional(t, u);
    }
  }

  lemma {:induction false} DecodeFlat(t: Type, u: Type)
    requires t.Flat? && u.Flat? && Ok(t) && Ok(u) && Clean(t) && Clean(u) && Canonical(t) == Canonical(u)
    ensures Same(t, u)
    decreases t, 0
  {
    hide ItemsOk, CleanItems, NoTop, LexItems, SameItems, Unparted;
    DecodeItems(t.items, u.items);
  }

  /** Two printed types have one normalised text exactly when they are the same type but for the order
      and the spacing of union members, at any depth. */
  lemma {:induction false} Complete(t: Type, u: Type)
    requires Ok(t) && Ok(u) && Clean(t) && Clean(u)
    ensures NormaliseTypeText(Print(t)) == NormaliseTypeText(Print(u)) <==> Same(t, u)
  {
    hide Ok, Clean, Print, Expect, Same, NormaliseTypeText;
    NormalisesText(t);
    NormalisesText(u);
    if Same(t, u) { SameExpect(t, u); }
    if Expect(t) == Expect(u) { Decode(t, u); }
  }
}
