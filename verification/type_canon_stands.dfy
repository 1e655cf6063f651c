/** The normalised text of a tree is the printed text of its canonical tree. */
module TypeCanonStands {
  import opened Strings
  import opened TypeText
  import opened TypeLexis
  import opened TypeGrammar
  import opened TypeCanonicity
  import opened TypeTokens
  import opened TypeShapes
  import opened TypeSplits
  import opened TypeCanonTree

  /** `c` prints what `t` is expected to normalise to, and its tokens read as well. */
  ghost predicate Stands(t: Type, c: Type) {
    LexedAll(LexType(c)) && Print(c) == Expect(t) && Follows(LexType(t), LexType(c))
  }

  ghost predicate StandsPadded(p: Padded, q: Padded) {
    && Framed(q) && ShowAll(LexPadded(q)) == ExpectPadded(p)
    && Follows(LexPadded(p), LexPadded(q)) && q.lead == p.lead && q.trail == p.trail
  }

  ghost predicate AllStand(ps: seq<Padded>, ts: seq<Type>) {
    |ps| == |ts| && forall k :: 0 <= k < |ps| ==> Stands(ps[k].body, ts[k])
  }

  // ---------- Padding ----------

  lemma {:induction false} PaddedFollows(p: Padded, c: Type)
    requires PaddedOk(p) && LexedAll(LexType(c)) && Follows(LexType(p.body), LexType(c))
    ensures Framed(Padded(p.lead, c, p.trail)) && Follows(LexPadded(p), LexPadded(Padded(p.lead, c, p.trail)))
  {
    hide LexType, Follows, Ok, LexedAll;
    OkLexed(p.body);
    FollowsText(LexType(p.body), LexType(c));
    FollowsItself(Chars(p.lead));
    FollowsItself(Chars(p.trail));
    FollowsAppend(Chars(p.lead), Chars(p.lead), LexType(p.body), LexType(c));
    FollowsAppend(Chars(p.lead) + LexType(p.body), Chars(p.lead) + LexType(c), Chars(p.trail), Chars(p.trail));
  }

  lemma {:induction false} PaddedStands(p: Padded, c: Type)
    requires PaddedOk(p) && Stands(p.body, c)
    ensures StandsPadded(p, Padded(p.lead, c, p.trail)) && LexedAll(LexPadded(Padded(p.lead, c, p.trail)))
  {
    hide LexType, LexPadded, Follows, Expect, PaddedOk, Framed, LexedAll;
    PaddedFollows(p, c);
    FramedLexed(Padded(p.lead, c, p.trail));
    PaddedShown(Padded(p.lead, c, p.trail));
  }

  lemma {:induction false} FreeStays(xs: seq<Lex>, ys: seq<Lex>, needles: seq<Needle>)
    requires Follows(xs, ys) && Free(xs, needles) && forall n :: n in needles ==> IsNeedle(n)
    ensures Free(ys, needles)
  {
  }

  // ---------- Items ----------

  predicate Alike(x: Lex, y: Lex) { x == y || (x.Group? && y.Group?) }

  predicate AllAlike(xs: seq<Lex>, ys: seq<Lex>) {
    |xs| == |ys| && forall k :: 0 <= k < |xs| ==> Alike(xs[k], ys[k])
  }

  lemma {:induction false} AlikeFollows(xs: seq<Lex>, ys: seq<Lex>)
    requires AllAlike(xs, ys)
    ensures Follows(xs, ys)
  {
    forall n | IsNeedle(n) && NoTop(xs, n) ensures NoTop(ys, n) {
      forall k | 0 <= k < |ys| ensures !Hits(ys[k], n) { assert !Hits(xs[k], n); }
    }
    if SomeSolid(xs) {
      var k :| 0 <= k < |xs| && SolidLex(xs[k]);
      assert SolidLex(ys[k]);
    }
  }

  /** A region that does not end in `=` still does not. */
  lemma {:induction false} EndStays(p: Padded, q: Padded)
    requires PaddedOk(p) && StandsPadded(p, q) && !EndsInEquals(LexPadded(p))
    ensures !EndsInEquals(LexPadded(q))
  {
    hide LexType, Ok, Expect, NoTop, SomeSolid, SolidStart, IsNeedle, LexedAll;
    if p.trail == "" {
      OkLexed(p.body);
      ShownEnds(LexType(p.body));
      SolidAppend(Chars(p.lead), LexType(p.body));
      SolidAppend(Chars(p.lead) + LexType(p.body), Chars(p.trail));
    } else {
      CharsShown(p.trail);
      assert IsSpace(p.trail[|p.trail| - 1]);
      SolidAppend(Chars(q.lead) + LexType(q.body), Chars(q.trail));
    }
  }

  lemma {:induction false} ItemsStand(items: seq<Item>)
    requires ItemsOk(items) && CleanItems(items)
    ensures var canon := CanonItems(items);
      && LexedAll(LexItems(canon)) && ShowAll(LexItems(canon)) == ExpectItems(items)
      && AllAlike(LexItems(items), LexItems(canon))
    decreases items, 0
  {
    hide ItemOk, ExpectItem, CanonItem, LexItem, Show, Alike, Lexed;
    if items == [] {
    } else {
      ItemStands(items[0]);
      ItemsStand(items[1..]);
      var canon := CanonItems(items);
      assert canon[1..] == CanonItems(items[1..]);
      assert LexItems(canon)[1..] == LexItems(canon[1..]) && LexItems(canon)[0] == LexItem(canon[0]);
      AlikeCons(LexItem(items[0]), LexItem(canon[0]), LexItems(items[1..]), LexItems(canon[1..]));
    }
  }

  lemma {:induction false} AlikeCons(x: Lex, y: Lex, xs: seq<Lex>, ys: seq<Lex>)
    requires Alike(x, y) && AllAlike(xs, ys)
    ensures AllAlike([x] + xs, [y] + ys)
  {
  }

  lemma {:induction false} ItemStands(it: Item)
    requires ItemOk(it) && CleanItem(it)
    ensures var canon := CanonItem(it);
      && Lexed(LexItem(canon)) && Show(LexItem(canon)) == ExpectItem(it)
      && Alike(LexItem(it), LexItem(canon))
    decreases it, 1
  {
    hide Follows, LexType, LexPadded, Ok, PaddedOk, ExpectPadded, Clean, EndsInEquals, LexedAll;
    match it
    case Bracket(open, inner) =>
      BracketStands(open, inner);
    case Hollow(open, space) =>
      SpaceAppend(space, space);
      SpaceLexed(space + space);
      CharsShown(space + space);
      SpaceEnds(space + space);
    case _ =>
  }

  lemma {:induction false} SpaceEnds(s: string)
    requires AllSpace(s)
    ensures !EndsInEquals(Chars(s))
  {
    CharsShown(s);
    if s != "" { assert IsSpace(s[|s| - 1]); }
  }

  lemma {:induction false} BracketStands(open: char, inner: Padded)
    requires ItemOk(Bracket(open, inner)) && Clean(inner.body)
    ensures var it, canon := Bracket(open, inner), Bracket(open, CanonPadded(inner));
      && Lexed(LexItem(canon)) && Show(LexItem(canon)) == ExpectItem(it)
    decreases inner, 5
  {
    hide Follows, LexType, LexPadded, Ok, PaddedOk, ExpectPadded, Clean, EndsInEquals, LexedAll;
    BodyIsOk(inner);
    CanonStands(inner.body);
    PaddedStands(inner, Canon(inner.body));
    if open == '<' { EndStays(inner, CanonPadded(inner)); }
  }

  lemma {:induction false} CanonStands(t: Type)
    requires Ok(t) && Clean(t)
    ensures Stands(t, Canon(t))
    decreases t, 3
  {
    hide Stands;
    match t
    case Flat(_) => FlatStands(t);
    case Intersection(_) => IntersectionStands(t);
    case Union(_, _) => UnionStands(t);
    case Function(_, _) => FunctionStands(t);
    case Labelled(_, _) => LabelledStands(t);
    case Conditional(_, _, _) => ConditionalStands(t);
    case List(_, _) => ListStands(t);
  }

  lemma {:induction false} FlatStands(t: Type)
    requires t.Flat? && Ok(t) && Clean(t)
    ensures Stands(t, Canon(t))
    decreases t, 2
  {
    hide NoTop, AllAlike, ItemsOk, Follows, Unparted, LexedAll;
    ItemsStand(t.items);
    AlikeFollows(LexItems(t.items), LexItems(CanonItems(t.items)));
  }

  lemma {:induction false} FunctionStands(t: Type)
    requires t.Function? && Ok(t) && Clean(t)
    ensures Stands(t, Canon(t))
    decreases t, 2
  {
    hide NoTop, AllAlike, ItemsOk, PaddedOk, Follows, LexPadded, ExpectPadded, Unparted, LexedAll;
    var xs, ys := LexItems(t.params), LexItems(CanonItems(t.params));
    var result := CanonPadded(t.result);
    ItemsStand(t.params);
    AlikeFollows(xs, ys);
    BodyIsOk(t.result);
    CanonStands(t.result.body);
    PaddedStands(t.result, Canon(t.result.body));
    MarksLexed();
    LexedThree(ys, [Fat], LexPadded(result));
    FollowsItself([Fat]);
    FollowsAppend(xs, ys, [Fat], [Fat]);
    FollowsAppend(xs + [Fat], ys + [Fat], LexPadded(t.result), LexPadded(result));
    ShowSplit(ys, Fat, LexPadded(result));
    assert ExpectItems(t.params) + ("=>" + ExpectPadded(t.result)) == ExpectItems(t.params) + "=>" + ExpectPadded(t.result);
  }

  lemma {:induction false} LabelledStands(t: Type)
    requires t.Labelled? && Ok(t) && Clean(t)
    ensures Stands(t, Canon(t))
    decreases t, 2
  {
    hide NoTop, AllAlike, ItemsOk, PaddedOk, Follows, LexPadded, ExpectPadded, IsLabel, Unparted, LexedAll;
    var xs, ys := LexItems(t.name), LexItems(CanonItems(t.name));
    var value := CanonPadded(t.value);
    ItemsStand(t.name);
    AlikeFollows(xs, ys);
    BodyIsOk(t.value);
    CanonStands(t.value.body);
    PaddedStands(t.value, Canon(t.value.body));
    MarksLexed();
    LexedThree(ys, [Ch(':')], LexPadded(value));
    FollowsItself([Ch(':')]);
    FollowsAppend(xs, ys, [Ch(':')], [Ch(':')]);
    FollowsAppend(xs + [Ch(':')], ys + [Ch(':')], LexPadded(t.value), LexPadded(value));
    ShowSplit(ys, Ch(':'), LexPadded(value));
    assert ExpectItems(t.name) + (":" + ExpectPadded(t.value)) == ExpectItems(t.name) + ":" + ExpectPadded(t.value);
  }

  lemma {:induction false} ThreeShown(a: seq<Lex>, b: seq<Lex>, c: seq<Lex>)
    ensures ShowAll(a + [Ch('?')] + (b + [Ch(':')] + c)) == ShowAll(a) + "?" + ShowAll(b) + ":" + ShowAll(c)
  {
    hide ShowAll;
    ShowSplit(a, Ch('?'), b + [Ch(':')] + c);
    ShowSplit(b, Ch(':'), c);
    var x, y, z := ShowAll(a), ShowAll(b), ShowAll(c);
    assert x + ("?" + (y + (":" + z))) == x + "?" + y + ":" + z;
  }

  lemma {:induction false} ThreeFollow(a: seq<Lex>, a': seq<Lex>, b: seq<Lex>, b': seq<Lex>, c: seq<Lex>, c': seq<Lex>)
    requires Follows(a, a') && Follows(b, b') && Follows(c, c')
    ensures Follows(a + [Ch('?')] + (b + [Ch(':')] + c), a' + [Ch('?')] + (b' + [Ch(':')] + c'))
    ensures ShowAll(a' + [Ch('?')] + (b' + [Ch(':')] + c')) == ShowAll(a') + "?" + ShowAll(b') + ":" + ShowAll(c')
  {
    hide Follows, ShowAll;
    FollowsItself([Ch('?')]);
    FollowsItself([Ch(':')]);
    FollowsAppend(b, b', [Ch(':')], [Ch(':')]);
    FollowsAppend(b + [Ch(':')], b' + [Ch(':')], c, c');
    FollowsAppend(a, a', [Ch('?')], [Ch('?')]);
    FollowsAppend(a + [Ch('?')], a' + [Ch('?')], b + [Ch(':')] + c, b' + [Ch(':')] + c');
    ThreeShown(a', b', c');
  }

  lemma {:induction false} ConditionalStands(t: Type)
    requires t.Conditional? && Ok(t) && Clean(t)
    ensures Stands(t, Canon(t))
    decreases t, 2
  {
    hide NoTop, PaddedOk, Follows, LexPadded, ExpectPadded, Unparted, LexedAll;
    var check, yes, no := CanonPadded(t.check), CanonPadded(t.yes), CanonPadded(t.no);
    BodyIsOk(t.check);
    BodyIsOk(t.yes);
    BodyIsOk(t.no);
    CanonStands(t.check.body);
    CanonStands(t.yes.body);
    CanonStands(t.no.body);
    PaddedStands(t.check, Canon(t.check.body));
    PaddedStands(t.yes, Canon(t.yes.body));
    PaddedStands(t.no, Canon(t.no.body));
    MarksLexed();
    LexedThree(LexPadded(yes), [Ch(':')], LexPadded(no));
    LexedThree(LexPadded(check), [Ch('?')], LexPadded(yes) + [Ch(':')] + LexPadded(no));
    ThreeFollow(LexPadded(t.check), LexPadded(check), LexPadded(t.yes), LexPadded(yes), LexPadded(t.no), LexPadded(no));
  }

  // ---------- Members ----------

  ghost predicate Needles(needles: seq<Needle>) { forall n :: n in needles ==> IsNeedle(n) }

  /** What a canonical member is like. */
  ghost predicate IsMember(c: Type, needles: seq<Needle>) {
    LexedAll(LexType(c)) && Trimmed(Print(c)) && Free(LexType(c), needles)
  }

  ghost predicate AreMembers(ts: seq<Type>, needles: seq<Needle>) {
    forall k :: 0 <= k < |ts| ==> IsMember(ts[k], needles)
  }

  lemma {:induction false} MemberStands(p: Padded, needles: seq<Needle>)
    requires PaddedOk(p) && Clean(p.body) && Free(LexPadded(p), needles) && Needles(needles)
    requires Stands(p.body, Canon(p.body))
    ensures IsMember(Canon(p.body), needles) && Expect(p.body) == Print(Canon(p.body))
  {
    hide LexType, LexPadded, NoTop, IsNeedle, Expect, Canon, Clean, Ok, LexedAll;
    forall n | n in needles ensures NoTop(LexType(p.body), n) { BodyFree(p, n); }
    hide Free;
    FreeStays(LexType(p.body), LexType(Canon(p.body)), needles);
    PaddedStands(p, Canon(p.body));
  }

  lemma {:induction false} MembersStand(ps: seq<Padded>, needles: seq<Needle>)
    requires AllOk(ps) && CleanAll(ps) && AllFree(ps, needles) && Needles(needles)
    ensures var ts := CanonBodies(ps);
      AllStand(ps, ts) && AreMembers(ts, needles) && ExpectBodies(ps) == Prints(ts)
    decreases ps, 0
  {
    hide Free, PaddedOk, Clean, Needles, IsMember, Stands, Print, Expect;
    if ps == [] {
    } else {
      assert Free(LexPadded(ps[0]), needles);
      assert AllFree(ps[1..], needles);
      BodyIsOk(ps[0]);
      CanonStands(ps[0].body);
      MemberStands(ps[0], needles);
      MembersStand(ps[1..], needles);
      var ts := CanonBodies(ps);
      assert ts[1..] == CanonBodies(ps[1..]);
      forall k | 0 <= k < |ps| ensures Stands(ps[k].body, ts[k]) && IsMember(ts[k], needles) {
        if k > 0 { assert ps[1..][k - 1] == ps[k] && ts[1..][k - 1] == ts[k]; }
      }
    }
  }

  lemma {:induction false} SortedMembers(ts: seq<Type>, needles: seq<Needle>)
    requires AreMembers(ts, needles)
    ensures AreMembers(SortTypes(ts), needles)
  {
    hide IsMember, SortTypes;
    var sorted := SortTypes(ts);
    forall k | 0 <= k < |sorted| ensures IsMember(sorted[k], needles) {
      assert sorted[k] in sorted;
      assert sorted[k] in ts;
    }
  }

  lemma {:induction false} MembersTail(ts: seq<Type>, needles: seq<Needle>)
    requires AreMembers(ts, needles) && ts != []
    ensures IsMember(ts[0], needles) && AreMembers(ts[1..], needles)
  {
    hide IsMember;
  }

  function FirstOf(ts: seq<Type>, first: bool): Padded
    requires ts != []
  {
    Padded(if first then "" else " ", ts[0], if |ts| == 1 then "" else " ")
  }

  lemma {:induction false} FirstIsFramed(ts: seq<Type>, first: bool, needles: seq<Needle>)
    requires ts != [] && IsMember(ts[0], needles) && Needles(needles)
    ensures Framed(FirstOf(ts, first)) && Free(LexPadded(FirstOf(ts, first)), needles)
  {
    hide NoTop, LexType, LexPadded, LexedAll, ShowAll, IsNeedle;
    var p := FirstOf(ts, first);
    forall n | n in needles ensures NoTop(LexPadded(p), n) { PaddedFree(p, n); }
  }

  lemma {:induction false} SpacedFramed(ts: seq<Type>, first: bool, needles: seq<Needle>)
    requires AreMembers(ts, needles) && Needles(needles)
    ensures AllFramed(Spaced(ts, first)) && AllFree(Spaced(ts, first), needles)
    decreases |ts|
  {
    hide Framed, Free, Needles, Expect, Print, LexPadded;
    if ts == [] {
    } else {
      MembersTail(ts, needles);
      FirstIsFramed(ts, first, needles);
      SpacedFramed(ts[1..], false, needles);
      var r := Spaced(ts, first);
      assert r == [FirstOf(ts, first)] + Spaced(ts[1..], false);
      assert r[1..] == Spaced(ts[1..], false);
      forall k | 0 <= k < |r| ensures Framed(r[k]) && Free(LexPadded(r[k]), needles) {
        if k > 0 { assert r[k] == r[1..][k - 1]; }
      }
    }
  }

  /** The tokens of the joined members. */
  lemma {:induction false} SpacedLexed(ts: seq<Type>, c: char, needles: seq<Needle>)
    requires AreMembers(ts, needles) && Needles(needles) && Lexed(Ch(c))
    ensures LexedAll(JoinLex(LexAll(Spaced(ts, true)), c))
  {
    hide AreMembers, AllFramed, AllFree, LexedAll, Spaced, LexAll, JoinLex, Needles;
    SpacedFramed(ts, true, needles);
    FramedParts(Spaced(ts, true));
    JoinLexed(LexAll(Spaced(ts, true)), c);
  }

  lemma {:induction false} SpacedCons(ts: seq<Type>, first: bool)
    requires ts != []
    ensures Spaced(ts, first) == [FirstOf(ts, first)] + Spaced(ts[1..], false)
    ensures |ts| == 1 ==> Spaced(ts, first) == [FirstOf(ts, first)]
  {
  }

  /** The canonical tree prints what the normaliser writes. */
  lemma {:induction false} SpacedShown(ts: seq<Type>, first: bool, c: char)
    requires ts != []
    ensures ShowAll(JoinLex(LexAll(Spaced(ts, first)), c))
         == (if first then "" else " ") + Join(Prints(ts), " " + [c] + " ")
    decreases |ts|
  {
    hide Print, LexPadded, JoinLex, LexAll, Spaced;
    var p := FirstOf(ts, first);
    SpacedCons(ts, first);
    PaddedShown(p);
    if |ts| == 1 {
      JoinedOne(p, c);
    } else {
      SpacedShown(ts[1..], false, c);
      JoinedCons(p, Spaced(ts[1..], false), c);
      ShowSplit(LexPadded(p), Ch(c), JoinLex(LexAll(Spaced(ts[1..], false)), c));
      JoinTexts(p.lead, Prints(ts), c);
      assert Prints(ts)[1..] == Prints(ts[1..]);
    }
  }

  lemma {:induction false} JoinTexts(lead: string, texts: seq<string>, c: char)
    requires |texts| > 1
    ensures (lead + texts[0] + " ") + ([c] + (" " + Join(texts[1..], " " + [c] + " "))) == lead + Join(texts, " " + [c] + " ")
  {
  }

  lemma {:induction false} SpacedEnds(ts: seq<Type>, first: bool, c: char, needles: seq<Needle>)
    requires ts != [] && AreMembers(ts, needles)
    ensures var ys := JoinLex(LexAll(Spaced(ts, first)), c);
      && SolidEnd(ys) && (first ==> SolidStart(ys))
      && (EndsInEquals(ys) <==> EndsInEquals(LexType(ts[|ts| - 1])))
    decreases |ts|
  {
    hide LexPadded, LexType, JoinLex, LexAll, Spaced, SolidStart, SolidEnd, EndsInEquals, LexedAll, ShowAll, Free;
    var p := FirstOf(ts, first);
    SpacedCons(ts, first);
    MembersTail(ts, needles);
    PaddedEnds(p);
    if |ts| == 1 {
      JoinedOne(p, c);
    } else {
      var rest := JoinLex(LexAll(Spaced(ts[1..], false)), c);
      SpacedEnds(ts[1..], false, c, needles);
      JoinedCons(p, Spaced(ts[1..], false), c);
      SolidAppend(LexPadded(p), [Ch(c)]);
      SolidAppend(LexPadded(p) + [Ch(c)], rest);
      SolidNotEmpty(rest, LexPadded(p));
    }
  }

  lemma {:induction false} SpacedNoTop(ts: seq<Type>, first: bool, c: char, n: Needle)
    requires ts != [] && IsNeedle(n) && !Hits(Ch(c), n) && forall k :: 0 <= k < |ts| ==> NoTop(LexType(ts[k]), n)
    ensures NoTop(JoinLex(LexAll(Spaced(ts, first)), c), n)
    decreases |ts|
  {
    hide LexPadded, LexType, JoinLex, LexAll, Spaced, NoTop, IsNeedle, Hits;
    var p := FirstOf(ts, first);
    SpacedCons(ts, first);
    PaddedFree(p, n);
    if |ts| == 1 {
      JoinedOne(p, c);
    } else {
      SpacedNoTop(ts[1..], false, c, n);
      JoinedCons(p, Spaced(ts[1..], false), c);
      OneNoTop(Ch(c), n);
      NoTopAppend(LexPadded(p), [Ch(c)], n);
      NoTopAppend(LexPadded(p) + [Ch(c)], JoinLex(LexAll(Spaced(ts[1..], false)), c), n);
    }
  }

  // ---------- Intersections and unions ----------

  lemma {:induction false} JoinFollows(xs: seq<Lex>, ps: seq<Padded>, ts: seq<Type>, c: char, needles: seq<Needle>)
    requires |ps| == |ts| >= 2 && AreMembers(ts, needles) && SomeSolid(xs)
    requires forall n :: IsNeedle(n) && NoTop(xs, n) ==>
      !Hits(Ch(c), n) && forall k :: 0 <= k < |ts| ==> NoTop(LexType(ts[k]), n)
    requires SolidEnd(xs) && !EndsInEquals(xs) ==> !EndsInEquals(LexType(ts[|ts| - 1]))
    ensures Follows(xs, JoinLex(LexAll(Spaced(ts, true)), c))
  {
    hide LexType, JoinLex, LexAll, Spaced, NoTop, IsNeedle, Hits, EndsInEquals, SolidEnd, SolidLex, IsMember;
    SpacedEnds(ts, true, c, needles);
    forall n | IsNeedle(n) && NoTop(xs, n) ensures NoTop(JoinLex(LexAll(Spaced(ts, true)), c), n) {
      SpacedNoTop(ts, true, c, n);
    }
  }

  lemma {:induction false} StandsNoTop(ps: seq<Padded>, ts: seq<Type>, n: Needle)
    requires AllStand(ps, ts) && IsNeedle(n) && forall k :: 0 <= k < |ps| ==> NoTop(LexType(ps[k].body), n)
    ensures forall k :: 0 <= k < |ts| ==> NoTop(LexType(ts[k]), n)
  {
    hide LexType, NoTop, IsNeedle, Ok, Expect, Print;
    forall k | 0 <= k < |ts| ensures NoTop(LexType(ts[k]), n) {
      assert Stands(ps[k].body, ts[k]);
    }
  }

  lemma {:induction false} IntersectionFacts(t: Type)
    requires t.Intersection? && Ok(t) && Clean(t)
    ensures var ps := t.members;
      && |ps| >= 2 && AllOk(ps) && AllFree(ps, [COLON, Arrow, BAR, AMPERSAND]) && CleanAll(ps)
      && Canon(t) == Intersection(Spaced(CanonBodies(ps), true)) && Expect(t) == Join(ExpectBodies(ps), " & ")
  {
    hide AllOk, AllFree, CleanAll, CanonBodies, Spaced, ExpectBodies, Join;
  }

  lemma {:induction false} PlainIntersection(ps: seq<Padded>)
    ensures LexType(Intersection(ps)) == JoinLex(LexAll(ps), '&')
  {
  }

  lemma {:induction false} IntersectionStands(t: Type)
    requires t.Intersection? && Ok(t) && Clean(t)
    ensures Stands(t, Canon(t))
    decreases t, 2
  {
    hide AllOk, AllFree, CleanAll, AreMembers, JoinLex, LexAll, Spaced, Follows, AllStand, LexType, IsNeedle,
      ExpectBodies, Join, ShowAll, Ok,
      Clean, Canon, CanonBodies, Expect, Needles, Prints;
    var ps, needles := t.members, [COLON, Arrow, BAR, AMPERSAND];
    IntersectionFacts(t);
    NeedlesAre(needles);
    MembersStand(ps, needles);
    var ts := CanonBodies(ps);
    SpacedLexed(ts, '&', needles);
    PlainIntersection(Spaced(ts, true));
    SpacedShown(ts, true, '&');
    IntersectionFollows(t, ts, needles);
    assert " " + ['&'] + " " == " & ";
    assert "" + Join(Prints(ts), " & ") == Join(Prints(ts), " & ");
  }

  lemma {:induction false} NeedlesAre(needles: seq<Needle>)
    requires forall n :: n in needles ==> n in [COLON, Arrow, BAR, AMPERSAND]
    ensures Needles(needles)
  {
  }

  lemma {:induction false} IntersectionFollows(t: Type, ts: seq<Type>, needles: seq<Needle>)
    requires t.Intersection? && Ok(t) && AllStand(t.members, ts) && AreMembers(ts, needles)
    ensures Follows(LexType(t), JoinLex(LexAll(Spaced(ts, true)), '&'))
  {
    hide LexPadded, JoinLex, LexAll, Spaced, NoTop, Hits, AreMembers, IsNeedle, EndsInEquals, SolidEnd, Print,
      Expect, AllFree;
    var ps := t.members;
    var xs := JoinLex(LexAll(ps), '&');
    JoinedEnd(ps, '&');
    SomeJoined(LexAll(ps), '&');
    forall n | IsNeedle(n) && NoTop(xs, n)
      ensures !Hits(Ch('&'), n) && forall k :: 0 <= k < |ts| ==> NoTop(LexType(ts[k]), n)
    {
      JoinedBack(ps, '&', n);
      StandsNoTop(ps, ts, n);
    }
    assert Stands(ps[|ps| - 1].body, ts[|ts| - 1]);
    MemberEnds(ps[|ps| - 1].body);
    JoinFollows(xs, ps, ts, '&', needles);
  }

  lemma {:induction false} PlainUnion(ps: seq<Padded>)
    ensures LexType(Union(None, ps)) == JoinLex(LexAll(ps), '|')
  {
    hide LexAll, JoinLex;
    assert [] + LexAll(ps) == LexAll(ps);
  }

  lemma {:induction false} UnionFacts(t: Type)
    requires t.Union? && Ok(t) && Clean(t)
    ensures var ps := t.members;
      && |ps| >= 2 && AllOk(ps) && AllFree(ps, [COLON, Arrow, BAR]) && CleanAll(ps) && NoneEndsInEquals(ps)
      && Canon(t) == Union(None, Spaced(SortTypes(CanonBodies(ps)), true))
      && Expect(t) == Join(Sort(ExpectBodies(ps)), " | ")
  {
    hide AllOk, AllFree, CleanAll, NoneEndsInEquals, CanonBodies, SortTypes, Spaced, ExpectBodies, Sort, Join;
  }

  lemma {:induction false} UnionStands(t: Type)
    requires t.Union? && Ok(t) && Clean(t)
    ensures Stands(t, Canon(t))
    decreases t, 2
  {
    hide AllOk, AllFree, CleanAll, AreMembers, JoinLex, LexAll, Spaced, Follows, AllStand, Sort, SortTypes,
      NoneEndsInEquals,
      LexType, IsNeedle, ExpectBodies, Join, ShowAll, Ok, Clean, Canon, CanonBodies, Expect, Needles, Prints;
    var ps, needles := t.members, [COLON, Arrow, BAR];
    UnionFacts(t);
    NeedlesAre(needles);
    MembersStand(ps, needles);
    var ts := CanonBodies(ps);
    var sorted := SortTypes(ts);
    SortedMembers(ts, needles);
    SortPrints(ts);
    SpacedLexed(sorted, '|', needles);
    PlainUnion(Spaced(sorted, true));
    SpacedShown(sorted, true, '|');
    UnionFollows(t, ts, needles);
    assert " " + ['|'] + " " == " | ";
    assert "" + Join(Prints(sorted), " | ") == Join(Prints(sorted), " | ");
  }

  lemma {:induction false} NoneEnds(ps: seq<Padded>, ts: seq<Type>, k: nat)
    requires AllOk(ps) && NoneEndsInEquals(ps) && AllStand(ps, ts) && k < |ps|
    ensures !EndsInEquals(LexType(ts[k]))
    decreases |ps|
  {
    hide LexType, EndsInEquals, SolidEnd, Ok, Expect, Print, IsNeedle, NoTop, SomeSolid, SolidStart;
    if k == 0 {
      assert Stands(ps[0].body, ts[0]);
      MemberEnds(ps[0].body);
    } else {
      AllStandTail(ps, ts);
      NoneEnds(ps[1..], ts[1..], k - 1);
    }
  }

  lemma {:induction false} AllStandTail(ps: seq<Padded>, ts: seq<Type>)
    requires AllStand(ps, ts) && ps != []
    ensures AllStand(ps[1..], ts[1..])
  {
    hide Stands;
    forall k | 0 <= k < |ps[1..]| ensures Stands(ps[1..][k].body, ts[1..][k]) {
      assert Stands(ps[k + 1].body, ts[k + 1]);
    }
  }

  lemma {:induction false} UnionFollows(t: Type, ts: seq<Type>, needles: seq<Needle>)
    requires t.Union? && Ok(t) && NoneEndsInEquals(t.members) && AllStand(t.members, ts) && AreMembers(ts, needles)
    ensures Follows(LexType(t), JoinLex(LexAll(Spaced(SortTypes(ts), true)), '|'))
  {
    hide LexPadded, JoinLex, LexAll, Spaced, NoTop, Hits, AreMembers, IsNeedle, EndsInEquals, SolidEnd, Print,
      Expect, AllFree,
      SortTypes, Stands, NoneEndsInEquals, LexType;
    var ps, sorted := t.members, SortTypes(ts);
    SortedMembers(ts, needles);
    UnionIsSolid(t);
    forall n | IsNeedle(n) && NoTop(LexType(t), n)
      ensures !Hits(Ch('|'), n) && forall k :: 0 <= k < |sorted| ==> NoTop(LexType(sorted[k]), n)
    {
      UnionBack(t, n);
      StandsNoTop(ps, ts, n);
      forall k | 0 <= k < |sorted| ensures NoTop(LexType(sorted[k]), n) {
        var j := IndexIn(ts, sorted, k);
      }
    }
    var last := IndexIn(ts, sorted, |sorted| - 1);
    NoneEnds(ps, ts, last);
    JoinFollows(LexType(t), ps, sorted, '|', needles);
  }

  lemma {:induction false} IndexIn(ts: seq<Type>, sorted: seq<Type>, k: nat) returns (j: nat)
    requires sorted == SortTypes(ts) && k < |sorted|
    ensures j < |ts| && ts[j] == sorted[k]
  {
    hide SortTypes;
    assert sorted[k] in sorted;
    j :| 0 <= j < |ts| && ts[j] == sorted[k];
  }

  // ---------- Lists ----------

  ghost predicate PartsFollow(ps: seq<Padded>, qs: seq<Padded>) {
    && |ps| == |qs|
    && forall k :: 0 <= k < |ps| ==>
         && Follows(LexPadded(ps[k]), LexPadded(qs[k])) && LexedAll(LexPadded(ps[k])) && LexedAll(LexPadded(qs[k]))
  }

  lemma {:induction false} PartStands(p: Padded)
    requires p.lead == "" && p.trail == "" && Ok(p.body) && Stands(p.body, Canon(p.body))
    ensures var q := CanonPadded(p);
      && Follows(LexPadded(p), LexPadded(q)) && LexedAll(LexPadded(p)) && LexedAll(LexPadded(q))
      && ShowAll(LexPadded(q)) == Expect(p.body)
  {
    hide Ok, LexType, LexPadded, Follows, Expect, Canon, LexedAll;
    OkLexed(p.body);
    PartText(p);
    PartText(CanonPadded(p));
  }

  lemma {:induction false} PartsStand(ps: seq<Padded>)
    requires PartsOk(ps) && CleanAll(ps)
    ensures var qs := CanonParts(ps);
      && PartsFollow(ps, qs) && LexedParts(LexAll(qs))
      && forall k :: 0 <= k < |qs| ==> ShowAll(LexPadded(qs[k])) == ExpectBodies(ps)[k]
    decreases ps, 0
  {
    hide Ok, Clean, LexPadded, Follows, LexedAll, Expect, Stands;
    if ps == [] {
    } else {
      CanonStands(ps[0].body);
      PartStands(ps[0]);
      PartsStand(ps[1..]);
      var qs := CanonParts(ps);
      assert qs[1..] == CanonParts(ps[1..]);
      FollowCons(ps, qs);
      assert LexAll(qs)[1..] == LexAll(qs[1..]);
      forall k | 0 <= k < |qs| ensures ShowAll(LexPadded(qs[k])) == ExpectBodies(ps)[k] {
        if k > 0 { assert qs[k] == qs[1..][k - 1] && ExpectBodies(ps)[k] == ExpectBodies(ps[1..])[k - 1]; }
      }
    }
  }

  lemma {:induction false} FollowCons(ps: seq<Padded>, qs: seq<Padded>)
    requires ps != [] && qs != [] && PartsFollow(ps[1..], qs[1..])
    requires Follows(LexPadded(ps[0]), LexPadded(qs[0])) && LexedAll(LexPadded(ps[0])) && LexedAll(LexPadded(qs[0]))
    ensures PartsFollow(ps, qs)
  {
    hide LexPadded, Follows, LexedAll;
    forall k | 0 <= k < |ps|
      ensures Follows(LexPadded(ps[k]), LexPadded(qs[k])) && LexedAll(LexPadded(ps[k])) && LexedAll(LexPadded(qs[k]))
    {
      if k > 0 { assert ps[k] == ps[1..][k - 1] && qs[k] == qs[1..][k - 1]; }
    }
  }

  lemma {:induction false} FollowTail(ps: seq<Padded>, qs: seq<Padded>)
    requires ps != [] && PartsFollow(ps, qs)
    ensures PartsFollow(ps[1..], qs[1..])
  {
    hide LexPadded, Follows, LexedAll;
    forall k | 0 <= k < |ps[1..]|
      ensures Follows(LexPadded(ps[1..][k]), LexPadded(qs[1..][k]))
      ensures LexedAll(LexPadded(ps[1..][k])) && LexedAll(LexPadded(qs[1..][k]))
    {
      assert ps[1..][k] == ps[k + 1] && qs[1..][k] == qs[k + 1];
    }
  }

  lemma {:induction false} ListFollows(ps: seq<Padded>, qs: seq<Padded>, separators: seq<string>)
    requires PartsFollow(ps, qs) && |ps| == |separators| + 1
    ensures Follows(JoinList(LexAll(ps), separators), JoinList(LexAll(qs), separators))
    decreases |ps|
  {
    hide LexPadded, Follows, LexedAll;
    if |ps| <= 1 {
    } else {
      FollowTail(ps, qs);
      ListFollows(ps[1..], qs[1..], separators[1..]);
      assert LexAll(ps)[1..] == LexAll(ps[1..]) && LexAll(qs)[1..] == LexAll(qs[1..]);
      FollowsItself(Chars(separators[0]));
      FollowsAppend(LexPadded(ps[0]), LexPadded(qs[0]), Chars(separators[0]), Chars(separators[0]));
      FollowsAppend(
        LexPadded(ps[0]) + Chars(separators[0]), LexPadded(qs[0]) + Chars(separators[0]),
        JoinList(LexAll(ps[1..]), separators[1..]), JoinList(LexAll(qs[1..]), separators[1..]));
    }
  }

  lemma {:induction false} ListShown(qs: seq<Padded>, separators: seq<string>, texts: seq<string>)
    requires |qs| == |texts| == |separators| + 1
    requires forall k :: 0 <= k < |qs| ==> ShowAll(LexPadded(qs[k])) == texts[k]
    ensures ShowAll(JoinList(LexAll(qs), separators)) == Rejoin(texts, separators)
    decreases |qs|
  {
    hide LexPadded, ShowAll;
    if |qs| <= 1 {
    } else {
      assert LexAll(qs)[1..] == LexAll(qs[1..]);
      forall k | 0 <= k < |qs[1..]| ensures ShowAll(LexPadded(qs[1..][k])) == texts[1..][k] {
        assert qs[1..][k] == qs[k + 1];
      }
      ListShown(qs[1..], separators[1..], texts[1..]);
      JoinListShown(LexAll(qs), separators);
      assert texts[0] + (separators[0] + Rejoin(texts[1..], separators[1..]))
          == texts[0] + separators[0] + Rejoin(texts[1..], separators[1..]);
    }
  }

  lemma {:induction false} ListFacts(t: Type)
    requires t.List? && Ok(t) && Clean(t)
    ensures PartsOk(t.parts) && CleanAll(t.parts) && SeparatorsOk(t.separators) && |t.parts| == |t.separators| + 1
    ensures LexType(t) == JoinList(LexAll(t.parts), t.separators)
    ensures LexType(Canon(t)) == JoinList(LexAll(CanonParts(t.parts)), t.separators)
    ensures Expect(t) == Rejoin(ExpectBodies(t.parts), t.separators)
  {
    hide PartsOk, CleanAll, SeparatorsOk, JoinList, LexAll, CanonParts, ExpectBodies, SolidParts, AllFree, Unparted, Trim;
  }

  lemma {:induction false} ListStands(t: Type)
    requires t.List? && Ok(t) && Clean(t)
    ensures Stands(t, Canon(t))
    decreases t, 2
  {
    hide LexPadded, Follows, LexedAll, PartsOk, CleanAll, PartsFollow, JoinList, LexAll, Ok, Clean, Canon, Expect, LexType,
      CanonParts, ExpectBodies, LexedParts;
    ListFacts(t);
    var qs := CanonParts(t.parts);
    PartsStand(t.parts);
    ListFollows(t.parts, qs, t.separators);
    JoinListLexed(LexAll(qs), t.separators);
    ListShown(qs, t.separators, ExpectBodies(t.parts));
  }
}
