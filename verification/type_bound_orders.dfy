/** All orders of a union behind a head such as `T extends `, and what a bar before the union changes. */
module TypeBoundOrders {
  import opened Strings
  import opened TypeText
  import opened TypeLexis
  import opened TypeGrammar
  import opened TypeCanonicity
  import opened TypeTokens
  import opened TypeShapes
  import opened TypeTheorems
  import opened TypeCanonTree
  import opened TypeReorder
  import opened TypeContexts
  import opened TypeReplace
  import opened TypeOrders
  import opened TypeBounds

  // ---------- The way to the left end ----------

  /** What surrounds the type at the left end. */
  function LeftSpine(t: Type): Context
    decreases t
  {
    match t
    case Conditional(check, yes, no) => InCheck(LeftSlot(check), yes, no)
    case List(parts, separators) =>
      if parts == [] then Here else InPart([], LeftSlot(parts[0]), parts[1..], separators)
    case _ => Here
  }

  function LeftSlot(p: Padded): Slot
    decreases p
  {
    Slot(p.lead, LeftSpine(p.body), p.trail)
  }

  lemma {:induction false} LeftSpineIs(t: Type)
    ensures Plug(LeftSpine(t), LeftEnd(t)) == t
    decreases t
  {
    match t
    case Conditional(check, _, _) => LeftSpineIs(check.body);
    case List(parts, _) =>
      if parts != [] {
        LeftSpineIs(parts[0].body);
        assert [] + [parts[0]] + parts[1..] == parts;
      }
    case _ =>
  }

  /** The tree with another type at the left end. */
  function WithStart(t: Type, w: Type): Type { Plug(LeftSpine(t), w) }

  lemma {:induction false} NewStart(t: Type, w: Type)
    requires LeftEnd(t).Union? && w.Union?
    ensures LeftEnd(WithStart(t, w)) == w
    decreases t
  {
    match t
    case Conditional(check, yes, no) =>
      NewStart(check.body, w);
      assert WithStart(t, w) == Conditional(PlugSlot(LeftSlot(check), w), yes, no);
    case List(parts, separators) =>
      NewStart(parts[0].body, w);
      var ps := [] + [PlugSlot(LeftSlot(parts[0]), w)] + parts[1..];
      assert WithStart(t, w) == List(ps, separators) && ps[0].body == WithStart(parts[0].body, w);
    case _ =>
  }

  // ---------- All orders ----------

  /** The same type printed in another order behind the head. */
  ghost predicate BoundReordered(c: Context, hs: seq<Item>, t: Type, u: Type) {
    HeadPair(hs, t, u) && LeftEnd(u).Union? && LeftEnd(u).members != [] && Fits(c, Glued(hs, u))
  }

  ghost predicate BoundOrdersAgree(c: Context, hs: seq<Item>, t: Type) {
    forall u {:trigger BoundReordered(c, hs, t, u)} :: BoundReordered(c, hs, t, u) ==>
      NormaliseTypeText(Print(Plug(c, Glued(hs, u)))) == NormaliseTypeText(Print(Plug(c, Glued(hs, t))))
  }

  ghost predicate FirstAlike(t: Type)
    requires LeftEnd(t).Union? && LeftEnd(t).members != []
  {
    var ps := LeftEnd(t).members;
    forall k :: 0 <= k < |ps| ==> NormaliseTypeText(Print(ps[k].body)) == NormaliseTypeText(Print(FirstMember(t).body))
  }

  /** A type behind a head, in a place of a larger type, whose first union holds no separator. */
  ghost predicate Headed(c: Context, hs: seq<Item>, t: Type) {
    && IsHead(hs) && Ok(t) && Clean(t) && Glues(hs, t) && SolidStart(LexType(t)) && LeftEnd(t).Union? && LeftEnd(t).members != []
    && NoTop(LexType(LeftEnd(t)), LIST) && Fits(c, Glued(hs, t))
  }

  lemma {:induction false} SameLeftEnd(t: Type, u: Type)
    requires Same(t, u)
    ensures Same(LeftEnd(t), LeftEnd(u))
    decreases t
  {
    hide SameItems, SameBag;
    match t
    case Conditional(check, _, _) => SameLeftEnd(check.body, u.check.body);
    case List(parts, _) =>
      if parts != [] {
        SameFirst(parts, u.parts);
        SameLeftEnd(parts[0].body, u.parts[0].body);
      }
    case _ =>
  }

  lemma {:induction false} LeftEndOk(t: Type)
    requires Ok(t) && Clean(t) && LeftEnd(t).Union?
    ensures Ok(LeftEnd(t)) && Clean(LeftEnd(t))
    decreases t
  {
    hide PaddedOk, LexPadded, LexAll, LexItems, ShowAll, SeparatorsOk, SolidParts, Trim, PartsOk, AllOk, Free, AllFree, ItemsOk, IsLabel, Unparted,
      CleanItems, CleanAll;
    match t
    case Conditional(check, _, _) =>
      BodyIsOk(check);
      LeftEndOk(check.body);
    case List(parts, _) =>
      FirstOk(parts);
      CleanFirst(parts, parts[0]);
      LeftEndOk(parts[0].body);
    case _ =>
  }

  lemma {:induction false} FirstAgrees(c: Context, hs: seq<Item>, t: Type, u: Type)
    requires Headed(c, hs, t) && BoundReordered(c, hs, t, u) && FirstAlike(t)
    ensures NormaliseTypeText(Print(Plug(c, Glued(hs, u)))) == NormaliseTypeText(Print(Plug(c, Glued(hs, t))))
  {
    hide Ok, Clean, Same, LexType, SolidStart, IsHead, NormaliseTypeText, Print, Plug, Glued, LeftEnd, Glues, NoTop;
    FirstMemberDecides(c, hs, t, u);
    SameLeftEnd(t, u);
    SameUnionBag(LeftEnd(t), LeftEnd(u));
    var k := InSameBag(LeftEnd(t).members, LeftEnd(u).members, 0);
    LeftEndOk(t);
    LeftEndOk(u);
    UnionMemberOk(LeftEnd(t), k);
    UnionMemberOk(LeftEnd(u), 0);
    Canonicity(LeftEnd(t).members[k].body, LeftEnd(u).members[0].body);
  }

  function SwappedFirst(t: Type, k: nat): Type
    requires LeftEnd(t).Union? && k < |LeftEnd(t).members|
  {
    var r := LeftEnd(t);
    WithStart(t, Union(r.bar, Swap(r.members, k, 0)))
  }

  lemma {:induction false} FirstReplaces(r: Type, k: nat)
    requires r.Union? && Ok(r) && Clean(r) && NoTop(LexType(r), LIST) && k < |r.members|
    ensures var w := Union(r.bar, Swap(r.members, k, 0)); Replaces(r, w) && Same(r, w)
  {
    hide Ok, Clean, Same, Replaces, NoTop, LexType, Unmarked, Swap;
    OpenUnion(r);
    assert r == Union(r.bar, r.members);
    UnionReplaced(r.bar, r.members, Swap(r.members, k, 0));
  }

  lemma {:induction false} StartReplaced(t: Type, w: Type)
    requires Ok(t) && Clean(t) && SolidStart(LexType(t)) && LeftEnd(t).Union? && w.Union? && Replaces(LeftEnd(t), w) && Same(LeftEnd(t), w)
    ensures var u := WithStart(t, w); Replaces(t, u) && Ok(u) && Clean(u) && SolidStart(LexType(u)) && LeftEnd(u) == w && Same(t, u)
  {
    hide Ok, Clean, Keeps, Plug, LexType, LeftEnd, SolidStart, Same;
    LeftSpineIs(t);
    NewStart(t, w);
    ContextReplaced(LeftSpine(t), LeftEnd(t), w);
    StartsKept(LexType(t), LexType(WithStart(t, w)));
    ContextSame(LeftSpine(t), LeftEnd(t), w);
  }

  lemma {:induction false} StartsKept(xs: seq<Lex>, ys: seq<Lex>)
    requires Keeps(xs, ys)
    ensures SolidStart(xs) ==> SolidStart(ys)
  {
    hide SolidStart, SolidEnd, SomeSolid, EndsInEquals, NoTop, IsNeedle, Unparted;
  }

  lemma {:induction false} GluedReplaced(hs: seq<Item>, t: Type, u: Type)
    requires IsHead(hs) && Ok(t) && Glues(hs, t) && SolidStart(LexType(t)) && Glues(hs, u) && SolidStart(LexType(u)) && Replaces(t, u)
    ensures Replaces(Glued(hs, t), Glued(hs, u))
  {
    hide Ok, Clean, Keeps, LexType, LexItems, Glued, IsHead, SolidStart, Glues;
    GluedReads(hs, t);
    GluedReads(hs, u);
    KeepsItself(LexItems(hs));
    KeepsAppend(LexItems(hs), LexItems(hs), LexType(t), LexType(u));
    GluedKind(hs, t);
    GluedKind(hs, u);
  }

  lemma {:induction false} GluesStays(hs: seq<Item>, t: Type, u: Type)
    requires Glues(hs, t) && Replaces(t, u) && (LeftEnd(u).Union? ==> LeftEnd(u).bar.None?)
    ensures Glues(hs, u)
  {
    hide Ok, Clean, LexType, LexItems, LeftEnd, NoTop, SolidStart, SolidEnd, SomeSolid, EndsInEquals, Unparted;
    assert IsNeedle(COLON);
  }

  lemma {:induction false} GluedKind(hs: seq<Item>, t: Type)
    ensures Glued(hs, t).List? <==> t.List?
  {
  }

  lemma {:induction false} SwapFirst(c: Context, hs: seq<Item>, t: Type, k: nat)
    requires Headed(c, hs, t) && k < |LeftEnd(t).members|
    ensures var u := SwappedFirst(t, k); BoundReordered(c, hs, t, u) && FirstMember(u).body == LeftEnd(t).members[k].body
  {
    hide Ok, Clean, Same, LexType, SolidStart, NoTop, LeftEnd, IsHead, Plug, Glued, Replaces, Swap;
    LeftEndOk(t);
    var r, u := LeftEnd(t), SwappedFirst(t, k);
    FirstReplaces(r, k);
    StartReplaced(t, Union(r.bar, Swap(r.members, k, 0)));
    GluesStays(hs, t, u);
    GluedReplaced(hs, t, u);
    ContextReplaced(c, Glued(hs, t), Glued(hs, u));
  }

  lemma {:induction false} FirstMustAgree(c: Context, hs: seq<Item>, t: Type, u: Type)
    requires Headed(c, hs, t) && BoundReordered(c, hs, t, u)
    requires NormaliseTypeText(Print(Plug(c, Glued(hs, u)))) == NormaliseTypeText(Print(Plug(c, Glued(hs, t))))
    ensures NormaliseTypeText(Print(FirstMember(u).body)) == NormaliseTypeText(Print(FirstMember(t).body))
  {
    hide Ok, Clean, Same, LexType, SolidStart, IsHead, NormaliseTypeText, Print, Plug, Glued, LeftEnd, Glues, NoTop;
    FirstMemberDecides(c, hs, t, u);
  }

  lemma {:induction false} FirstOrdersAgree(c: Context, hs: seq<Item>, t: Type)
    requires Headed(c, hs, t) && FirstAlike(t)
    ensures BoundOrdersAgree(c, hs, t)
  {
    hide Headed, FirstAlike, NormaliseTypeText, Print, BoundReordered, Plug, Glued, LeftEnd;
    forall u | BoundReordered(c, hs, t, u)
      ensures NormaliseTypeText(Print(Plug(c, Glued(hs, u)))) == NormaliseTypeText(Print(Plug(c, Glued(hs, t))))
    {
      FirstAgrees(c, hs, t, u);
    }
  }

  lemma {:induction false} FirstAreAlike(c: Context, hs: seq<Item>, t: Type)
    requires Headed(c, hs, t) && BoundOrdersAgree(c, hs, t)
    ensures FirstAlike(t)
  {
    hide Ok, Clean, NormaliseTypeText, Print, LeftEnd, BoundReordered, FirstMember, SwappedFirst, Glued, Plug, Fits, IsHead, Glues, NoTop, SolidStart,
      LexType;
    var ps := LeftEnd(t).members;
    forall k | 0 <= k < |ps|
      ensures NormaliseTypeText(Print(ps[k].body)) == NormaliseTypeText(Print(FirstMember(t).body))
    {
      SwapFirst(c, hs, t, k);
      FirstMustAgree(c, hs, t, SwappedFirst(t, k));
    }
  }

  /** In every place of a larger type: behind a head, all orders of a union normalise to one text exactly when
      all its members do. */
  lemma {:induction false} AllBoundOrdersAgree(c: Context, hs: seq<Item>, t: Type)
    requires IsHead(hs) && Ok(t) && Clean(t) && Glues(hs, t) && SolidStart(LexType(t)) && LeftEnd(t).Union?
    requires NoTop(LexType(LeftEnd(t)), LIST) && Fits(c, Glued(hs, t))
    ensures LeftEnd(t).members != []
    ensures BoundOrdersAgree(c, hs, t) <==> FirstAlike(t)
  {
    hide Ok, Clean, LexType, SolidStart, IsHead, NormaliseTypeText, Print, BoundReordered, BoundOrdersAgree, FirstAlike, Glued, Fits, LeftEnd, Glues,
      NoTop;
    FirstMemberOk(t);
    if FirstAlike(t) { FirstOrdersAgree(c, hs, t); }
    if BoundOrdersAgree(c, hs, t) { FirstAreAlike(c, hs, t); }
  }

  // ---------- A bar before the first member ----------

  /** The head as a member of its own. */
  function Apart(hs: seq<Item>, space: string, t: Type): Type
    requires t.Union? && t.bar.Some?
  {
    Union(None, [Padded("", Flat(hs), space + t.bar.value)] + t.members)
  }

  lemma {:induction false} FlatHead(hs: seq<Item>)
    requires IsHead(hs)
    ensures Ok(Flat(hs)) && forall n :: n in [LIST, COLON, Arrow, BAR] ==> NoTop(LexItems(hs), n) && IsNeedle(n)
  {
    hide ItemsOk, CleanItems, LexItems, NoTop, SolidStart;
    NothingAtAll([COLON, Arrow, BAR, AMPERSAND]);
    FreeAppend(LexItems(hs), [], [COLON, Arrow, BAR, AMPERSAND]);
    assert LIST in LOOSE;
    FreeUnparted(LexItems(hs));
    assert LexItems(hs) + [] == LexItems(hs);
  }

  lemma {:induction false} NothingAtAll(needles: seq<Needle>)
    ensures Free([], needles)
  {
  }

  lemma {:induction false} HeadIsMember(hs: seq<Item>, trail: string)
    requires IsHead(hs) && SolidEnd(LexItems(hs)) && AllSpace(trail)
    ensures var p := Padded("", Flat(hs), trail);
      PaddedOk(p) && Free(LexPadded(p), [LIST, COLON, Arrow, BAR])
  {
    hide ItemsOk, CleanItems, LexItems, NoTop, SomeSolid, IsSpace, SolidEnd, SolidStart;
    var p := Padded("", Flat(hs), trail);
    ItemsLexed(hs);
    ShownEnds(LexItems(hs));
    SolidNotEmpty(LexItems(hs), []);
    FlatHead(hs);
    forall n | n in [LIST, COLON, Arrow, BAR] ensures NoTop(LexPadded(p), n) { PaddedFree(p, n); }
  }

  lemma {:induction false} ApartOk(hs: seq<Item>, space: string, t: Type)
    requires IsHead(hs) && SolidEnd(LexItems(hs)) && AllSpace(space) && t.Union? && Ok(t) && t.bar.Some?
    ensures Ok(Apart(hs, space, t))
  {
    hide IsHead, PaddedOk, LexPadded, NoTop, IsSpace, SolidEnd, Unparted, LexType;
    var p, ps := Padded("", Flat(hs), space + t.bar.value), t.members;
    SpaceAppend(space, t.bar.value);
    HeadIsMember(hs, space + t.bar.value);
    var qs := [p] + ps;
    assert qs[1..] == ps && t == Union(t.bar, ps);
    forall k | 0 <= k < |qs| ensures Free(LexPadded(qs[k]), [COLON, Arrow, BAR]) {
      if k > 0 { assert qs[k] == ps[k - 1]; }
    }
    UnionUnparted(t.bar, ps);
    assert LIST in [LIST, COLON, Arrow, BAR];
    FrontFree(qs);
    UnionUnparted(None, qs);
  }

  lemma {:induction false} ApartShown(hs: seq<Item>, space: string, t: Type)
    requires t.Union? && t.members != [] && t.bar.Some?
    ensures Print(Apart(hs, space, t)) == ShowAll(LexItems(hs)) + space + Print(t)
  {
    hide LexAll, JoinLex, LexItems, LexPadded, ShowAll;
    var p, ps, rest := Padded("", Flat(hs), space + t.bar.value), t.members, JoinLex(LexAll(t.members), '|');
    UnionShape(None, [p] + ps);
    UnionShape(t.bar, ps);
    JoinedCons(p, ps, '|');
    PaddedShown(p);
    CharsShown(t.bar.value);
    ShowSplit(LexPadded(p), Ch('|'), rest);
    ShowSplit(Chars(t.bar.value), Ch('|'), rest);
    assert t == Union(t.bar, ps);
    assert [] + JoinLex(LexAll([p] + ps), '|') == LexPadded(p) + [Ch('|')] + rest;
    ApartTexts(ShowAll(LexItems(hs)), space, t.bar.value, "|" + ShowAll(rest));
  }

  lemma {:induction false} ApartTexts(head: string, space: string, bar: string, rest: string)
    ensures ("" + head + (space + bar)) + rest == head + space + (bar + rest)
  {
  }

  lemma {:induction false} ApartSame(hs: seq<Item>, space: string, t: Type, u: Type)
    requires t.Union? && u.Union? && t.bar.Some? && u.bar.Some? && Same(t, u)
    ensures Same(Apart(hs, space, t), Apart(hs, space, u))
  {
    hide SameItems;
    var p, q := Padded("", Flat(hs), space + t.bar.value), Padded("", Flat(hs), space + u.bar.value);
    var ps, qs := [p] + t.members, [q] + u.members;
    SameItemsItself(hs);
    assert ps[1..] == t.members && qs[..0] + qs[0 + 1..] == u.members;
    assert Same(ps[0].body, qs[0].body);
  }

  /** A bar before the first member keeps the head apart: then every order gives the same text. */
  lemma {:induction false} BarKeepsApart(hs: seq<Item>, space: string, t: Type, u: Type)
    requires IsHead(hs) && SolidEnd(LexItems(hs)) && AllSpace(space)
    requires t.Union? && Ok(t) && Ok(u) && Same(t, u) && t.bar.Some? && u.bar.Some?
    ensures Ok(Apart(hs, space, t)) && Ok(Apart(hs, space, u)) && Same(Apart(hs, space, t), Apart(hs, space, u))
    ensures NormaliseTypeText(ShowAll(LexItems(hs)) + space + Print(t)) == NormaliseTypeText(ShowAll(LexItems(hs)) + space + Print(u))
  {
    hide LexType, LexItems, SolidStart, SolidEnd, IsHead, NormaliseTypeText, ShowAll, AllSpace, SameBag, AllOk, AllFree, Unparted;
    ApartOk(hs, space, t);
    ApartOk(hs, space, u);
    ApartShown(hs, space, t);
    ApartShown(hs, space, u);
    ApartSame(hs, space, t, u);
    Canonicity(Apart(hs, space, t), Apart(hs, space, u));
  }
}
