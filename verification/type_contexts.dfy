/** What surrounds a type: brackets, members, parameters, branches around one place. */
module TypeContexts {
  import opened Strings
  import opened TypeText
  import opened TypeGrammar
  import opened TypeTheorems
  import opened TypeCanonTree
  import opened TypeRecovered
  import opened TypeComplete

  /** A type with one place left open, such as `{ mode: _ }` or `f<T, _>(x: T): T`. */
  datatype Context =
    | Here
    | InFlat(region: Region)
    | InParams(region: Region, result: Padded)
    | InResult(params: seq<Item>, slot: Slot)
    | InName(region: Region, value: Padded)
    | InValue(name: seq<Item>, slot: Slot)
    | InCheck(slot: Slot, yes: Padded, no: Padded)
    | InYes(check: Padded, slot: Slot, no: Padded)
    | InNo(check: Padded, yes: Padded, slot: Slot)
    | InIntersection(before: seq<Padded>, slot: Slot, after: seq<Padded>)
    | InUnion(bar: Option<string>, before: seq<Padded>, slot: Slot, after: seq<Padded>)
    | InPart(before: seq<Padded>, slot: Slot, after: seq<Padded>, separators: seq<string>)

  /** The place with the white space around it. */
  datatype Slot = Slot(lead: string, inside: Context, trail: string)

  /** A bracketed region that holds the place, between other items. */
  datatype Region = Region(front: seq<Item>, open: char, slot: Slot, back: seq<Item>)

  function Plug(c: Context, t: Type): Type
    decreases c
  {
    match c
    case Here => t
    case InFlat(region) => Flat(PlugRegion(region, t))
    case InParams(region, result) => Function(PlugRegion(region, t), result)
    case InResult(params, slot) => Function(params, PlugSlot(slot, t))
    case InName(region, value) => Labelled(PlugRegion(region, t), value)
    case InValue(name, slot) => Labelled(name, PlugSlot(slot, t))
    case InCheck(slot, yes, no) => Conditional(PlugSlot(slot, t), yes, no)
    case InYes(check, slot, no) => Conditional(check, PlugSlot(slot, t), no)
    case InNo(check, yes, slot) => Conditional(check, yes, PlugSlot(slot, t))
    case InIntersection(before, slot, after) => Intersection(before + [PlugSlot(slot, t)] + after)
    case InUnion(bar, before, slot, after) => Union(bar, before + [PlugSlot(slot, t)] + after)
    case InPart(before, slot, after, separators) => List(before + [PlugSlot(slot, t)] + after, separators)
  }

  function PlugSlot(s: Slot, t: Type): Padded
    decreases s
  {
    Padded(s.lead, Plug(s.inside, t), s.trail)
  }

  function PlugRegion(r: Region, t: Type): seq<Item>
    decreases r
  {
    r.front + [Bracket(r.open, PlugSlot(r.slot, t))] + r.back
  }

  /** What fills the place is a tree of the grammar if the whole is. */
  ghost predicate Fits(c: Context, t: Type) { Ok(Plug(c, t)) && Clean(Plug(c, t)) }

  // ---------- Sequences of items and of members ----------

  lemma {:induction false} ItemsAppend(xs: seq<Item>, ys: seq<Item>)
    ensures ExpectItems(xs + ys) == ExpectItems(xs) + ExpectItems(ys)
    ensures ItemsOk(xs + ys) <==> ItemsOk(xs) && ItemsOk(ys)
    ensures CleanItems(xs + ys) <==> CleanItems(xs) && CleanItems(ys)
  {
    hide ExpectItem, ItemOk, CleanItem;
    if xs == [] {
      assert xs + ys == ys;
    } else {
      ItemsAppend(xs[1..], ys);
      assert (xs + ys)[1..] == xs[1..] + ys;
    }
  }

  lemma {:induction false} OneItem(it: Item)
    ensures ExpectItems([it]) == ExpectItem(it) && (ItemsOk([it]) <==> ItemOk(it)) && (CleanItems([it]) <==> CleanItem(it))
  {
    hide ExpectItem, ItemOk, CleanItem;
    assert [it][1..] == [];
    assert ExpectItem(it) + "" == ExpectItem(it);
  }

  lemma {:induction false} BodiesAppend(ps: seq<Padded>, qs: seq<Padded>)
    ensures ExpectBodies(ps + qs) == ExpectBodies(ps) + ExpectBodies(qs)
  {
    hide Expect, ExpectBodies;
    if ps == [] {
      assert ps + qs == qs && ExpectBodies(ps) == [];
    } else {
      BodiesAppend(ps[1..], qs);
      assert (ps + qs)[1..] == ps[1..] + qs;
      FirstExpected(ps);
      FirstExpected(ps + qs);
      Associative([Expect(ps[0].body)], ExpectBodies(ps[1..]), ExpectBodies(qs));
    }
  }

  lemma {:induction false} BodiesAround(before: seq<Padded>, p: Padded, after: seq<Padded>)
    ensures ExpectBodies(before + [p] + after) == ExpectBodies(before) + [Expect(p.body)] + ExpectBodies(after)
  {
    hide Expect;
    BodiesAppend(before + [p], after);
    BodiesAppend(before, [p]);
    assert ExpectBodies([p]) == [Expect(p.body)];
  }

  lemma {:induction false} Around<T>(a: seq<T>, x: seq<T>, y: seq<T>, b: seq<T>)
    ensures a + x + b == a + y + b <==> x == y
  {
    if a + x + b == a + y + b {
      assert |x| == |y|;
      assert (a + x + b)[|a|..|a| + |x|] == x && (a + y + b)[|a|..|a| + |y|] == y;
    }
  }

  lemma {:induction false} BagAround(a: seq<string>, x: string, y: string, b: seq<string>)
    ensures multiset(a + [x] + b) == multiset(a + [y] + b) <==> x == y
  {
    var rest := multiset(a) + multiset(b);
    assert multiset(a + [x] + b) == rest + multiset{x} && multiset(a + [y] + b) == rest + multiset{y};
    if rest + multiset{x} == rest + multiset{y} {
      assert (rest + multiset{x})[x] == rest[x] + 1 && (rest + multiset{y})[x] == rest[x] + multiset{y}[x];
    }
  }

  /** Parts, each with the separator after it. */
  function Headed(parts: seq<string>, separators: seq<string>): string
    requires |parts| == |separators|
  {
    if parts == [] then "" else parts[0] + separators[0] + Headed(parts[1..], separators[1..])
  }

  lemma {:induction false} RejoinSplit(a: seq<string>, x: string, b: seq<string>, separators: seq<string>)
    requires |separators| == |a| + |b|
    ensures Rejoin(a + [x] + b, separators) == Headed(a, separators[..|a|]) + Rejoin([x] + b, separators[|a|..])
    decreases |a|
  {
    var s, t := separators[..|a|], separators[|a|..];
    if a == [] {
      assert a + [x] + b == [x] + b && t == separators;
    } else {
      RejoinSplit(a[1..], x, b, separators[1..]);
      assert (a + [x] + b)[1..] == a[1..] + [x] + b && (a + [x] + b)[0] == a[0];
      assert separators[1..][..|a| - 1] == s[1..] && separators[1..][|a| - 1..] == t && s[0] == separators[0];
      assert Headed(a, s) == a[0] + s[0] + Headed(a[1..], s[1..]);
      Associative(a[0] + s[0], Headed(a[1..], s[1..]), Rejoin([x] + b, t));
    }
  }

  lemma {:induction false} RejoinFirst(x: string, b: seq<string>, separators: seq<string>)
    requires |separators| == |b|
    ensures Rejoin([x] + b, separators) == x + (if b == [] then "" else separators[0] + Rejoin(b, separators[1..]))
  {
    if b == [] {
      assert [x] + b == [x];
    } else {
      assert ([x] + b)[1..] == b;
    }
  }

  lemma {:induction false} RejoinAround(a: seq<string>, x: string, y: string, b: seq<string>, separators: seq<string>)
    requires |separators| == |a| + |b|
    ensures Rejoin(a + [x] + b, separators) == Rejoin(a + [y] + b, separators) <==> x == y
  {
    hide Rejoin, Headed;
    RejoinSplit(a, x, b, separators);
    RejoinSplit(a, y, b, separators);
    var s := separators[|a|..];
    RejoinFirst(x, b, s);
    RejoinFirst(y, b, s);
    var tail := if b == [] then "" else s[0] + Rejoin(b, s[1..]);
    Associative(Headed(a, separators[..|a|]), x, tail);
    Associative(Headed(a, separators[..|a|]), y, tail);
    Around(Headed(a, separators[..|a|]), x, y, tail);
  }

  // ---------- One level ----------

  lemma {:induction false} RegionExpected(r: Region, t: Type)
    ensures ExpectItems(PlugRegion(r, t))
         == (ExpectItems(r.front) + [r.open] + r.slot.lead) + Expect(Plug(r.slot.inside, t)) + (r.slot.trail + [CloserOf(r.open)] + ExpectItems(r.back))
  {
    hide Expect, ExpectItems, Plug, ItemsOk, CleanItems;
    var it := Bracket(r.open, PlugSlot(r.slot, t));
    OneItem(it);
    ItemsAppend(r.front, [it]);
    ItemsAppend(r.front + [it], r.back);
    RegionTexts(ExpectItems(r.front), [r.open], r.slot.lead, Expect(Plug(r.slot.inside, t)), r.slot.trail, [CloserOf(r.open)], ExpectItems(r.back));
  }

  lemma {:induction false} RegionTexts(a: string, o: string, l: string, x: string, r: string, c: string, b: string)
    ensures a + (o + (l + x + r) + c) + b == (a + o + l) + x + (r + c + b)
  {
  }

  lemma {:induction false} RegionOk(r: Region, t: Type)
    ensures ItemsOk(PlugRegion(r, t)) ==> PaddedOk(PlugSlot(r.slot, t))
    ensures CleanItems(PlugRegion(r, t)) ==> Clean(Plug(r.slot.inside, t))
  {
    hide Expect, ExpectItems, Plug, ItemsOk, CleanItems, PaddedOk;
    var it := Bracket(r.open, PlugSlot(r.slot, t));
    OneItem(it);
    ItemsAppend(r.front, [it]);
    ItemsAppend(r.front + [it], r.back);
  }

  lemma {:induction false} RegionAround(head: string, r: Region, t: Type, u: Type, tail: string)
    ensures head + ExpectItems(PlugRegion(r, t)) + tail == head + ExpectItems(PlugRegion(r, u)) + tail
       <==> Expect(Plug(r.slot.inside, t)) == Expect(Plug(r.slot.inside, u))
  {
    hide Expect, ExpectItems, Plug, PlugRegion;
    RegionExpected(r, t);
    RegionExpected(r, u);
    Around(head, ExpectItems(PlugRegion(r, t)), ExpectItems(PlugRegion(r, u)), tail);
    Around(ExpectItems(r.front) + [r.open] + r.slot.lead, Expect(Plug(r.slot.inside, t)), Expect(Plug(r.slot.inside, u)),
           r.slot.trail + [CloserOf(r.open)] + ExpectItems(r.back));
  }

  lemma {:induction false} SlotAround(head: string, s: Slot, t: Type, u: Type, tail: string)
    ensures head + ExpectPadded(PlugSlot(s, t)) + tail == head + ExpectPadded(PlugSlot(s, u)) + tail
       <==> Expect(Plug(s.inside, t)) == Expect(Plug(s.inside, u))
  {
    hide Expect, Plug;
    Around(head, ExpectPadded(PlugSlot(s, t)), ExpectPadded(PlugSlot(s, u)), tail);
    Around(s.lead, Expect(Plug(s.inside, t)), Expect(Plug(s.inside, u)), s.trail);
  }

  /** The context just inside the outermost constructor. */
  function Inner(c: Context): Context {
    match c
    case Here => Here
    case InFlat(region) => region.slot.inside
    case InParams(region, _) => region.slot.inside
    case InName(region, _) => region.slot.inside
    case _ => c.slot.inside
  }

  lemma {:induction false} MembersInner(c: Context, t: Type)
    requires (c.InUnion? || c.InIntersection? || c.InPart?) && Fits(c, t)
    ensures Fits(Inner(c), t)
  {
    hide Ok, Clean, Plug, BodiesGood, AllOk, PartsOk, CleanAll;
    var ps := c.before + [PlugSlot(c.slot, t)] + c.after;
    MembersAre(c, t);
    GoodBodies(ps);
    assert BodiesGood(ps);
    BodyAt(ps, |c.before|);
    assert ps[|c.before|] == PlugSlot(c.slot, t);
  }

  lemma {:induction false} BodyAt(ps: seq<Padded>, k: nat)
    requires BodiesGood(ps) && k < |ps|
    ensures Ok(ps[k].body) && Clean(ps[k].body)
  {
    hide Ok, Clean;
  }

  lemma {:induction false} MembersAre(c: Context, t: Type)
    requires (c.InUnion? || c.InIntersection? || c.InPart?) && Fits(c, t)
    ensures var ps := c.before + [PlugSlot(c.slot, t)] + c.after;
      (AllOk(ps) || PartsOk(ps)) && CleanAll(ps) && (c.InPart? ==> |c.separators| == |c.before| + |c.after|)
  {
    hide AllOk, PartsOk, CleanAll, LexType, Unparted, AllFree, NoneEndsInEquals, SolidParts, SeparatorsOk, Trim, Print, PlugSlot;
  }

  /** Taking the outermost constructor away leaves a tree of the grammar. */
  lemma {:induction false} InnerFits(c: Context, t: Type)
    requires Fits(c, t)
    ensures Fits(Inner(c), t)
  {
    hide ItemsOk, CleanItems, LexPadded, LexItems, LexType, Free, AllOk, PartsOk, AllFree, Unparted, IsLabel, PlugRegion, Trimmed, AllSpace;
    match c
    case Here =>
    case InFlat(region) => RegionOk(region, t);
    case InParams(region, _) => RegionOk(region, t);
    case InName(region, _) => RegionOk(region, t);
    case InIntersection(_, _, _) => MembersInner(c, t);
    case InUnion(_, _, _, _) => MembersInner(c, t);
    case InPart(_, _, _, _) => MembersInner(c, t);
    case InResult(_, slot) => assert PaddedOk(PlugSlot(slot, t));
    case InValue(_, slot) => assert PaddedOk(PlugSlot(slot, t));
    case InCheck(slot, _, _) => assert PaddedOk(PlugSlot(slot, t));
    case InYes(_, slot, _) => assert PaddedOk(PlugSlot(slot, t));
    case InNo(_, _, slot) => assert PaddedOk(PlugSlot(slot, t));
  }

  lemma {:induction false} MembersAgree(c: Context, t: Type, u: Type)
    requires (c.InUnion? || c.InIntersection? || c.InPart?) && Fits(c, t) && Fits(c, u)
    ensures Expect(Plug(c, t)) == Expect(Plug(c, u)) <==> Expect(Plug(Inner(c), t)) == Expect(Plug(Inner(c), u))
  {
    hide Ok, Clean, ExpectBodies, Rejoin, Join, Sort;
    var x, y := Expect(Plug(Inner(c), t)), Expect(Plug(Inner(c), u));
    var a, b := ExpectBodies(c.before), ExpectBodies(c.after);
    BodiesAround(c.before, PlugSlot(c.slot, t), c.after);
    BodiesAround(c.before, PlugSlot(c.slot, u), c.after);
    MembersAre(c, t);
    match c
    case InIntersection(_, _, _) =>
      ExpectedIntersections(Plug(c, t), Plug(c, u));
      Around(a, [x], [y], b);
    case InUnion(_, _, _, _) =>
      ExpectedUnions(Plug(c, t), Plug(c, u));
      BagAround(a, x, y, b);
    case InPart(_, _, _, separators) => RejoinAround(a, x, y, b, separators);
  }

  lemma {:induction false} LevelAgrees(c: Context, t: Type, u: Type)
    requires Fits(c, t) && Fits(c, u)
    ensures Expect(Plug(c, t)) == Expect(Plug(c, u)) <==> Expect(Plug(Inner(c), t)) == Expect(Plug(Inner(c), u))
  {
    hide Ok, Clean, ExpectItems, ExpectPadded, ExpectBodies, PlugRegion, PlugSlot, Rejoin, Join, Sort;
    match c
    case Here =>
    case InFlat(region) =>
      RegionAround("", region, t, u, "");
      assert forall s: string :: "" + s + "" == s;
    case InParams(region, result) =>
      RegionAround("", region, t, u, "=>" + ExpectPadded(result));
      Nothing(ExpectItems(PlugRegion(region, t)), "=>", ExpectPadded(result));
      Nothing(ExpectItems(PlugRegion(region, u)), "=>", ExpectPadded(result));
    case InName(region, value) =>
      RegionAround("", region, t, u, ":" + ExpectPadded(value));
      Nothing(ExpectItems(PlugRegion(region, t)), ":", ExpectPadded(value));
      Nothing(ExpectItems(PlugRegion(region, u)), ":", ExpectPadded(value));
    case InResult(params, slot) => LastAround(ExpectItems(params) + "=>", slot, t, u);
    case InValue(name, slot) => LastAround(ExpectItems(name) + ":", slot, t, u);
    case InCheck(slot, yes, no) =>
      SlotAround("", slot, t, u, "?" + ExpectPadded(yes) + ":" + ExpectPadded(no));
      Branches(ExpectPadded(PlugSlot(slot, t)), ExpectPadded(yes), ExpectPadded(no));
      Branches(ExpectPadded(PlugSlot(slot, u)), ExpectPadded(yes), ExpectPadded(no));
    case InYes(check, slot, no) =>
      SlotAround(ExpectPadded(check) + "?", slot, t, u, ":" + ExpectPadded(no));
      Associative(ExpectPadded(check) + "?" + ExpectPadded(PlugSlot(slot, t)), ":", ExpectPadded(no));
      Associative(ExpectPadded(check) + "?" + ExpectPadded(PlugSlot(slot, u)), ":", ExpectPadded(no));
    case InNo(check, yes, slot) => LastAround(ExpectPadded(check) + "?" + ExpectPadded(yes) + ":", slot, t, u);
    case _ => MembersAgree(c, t, u);
  }

  lemma {:induction false} LastAround(head: string, s: Slot, t: Type, u: Type)
    ensures head + ExpectPadded(PlugSlot(s, t)) == head + ExpectPadded(PlugSlot(s, u))
       <==> Expect(Plug(s.inside, t)) == Expect(Plug(s.inside, u))
  {
    hide ExpectPadded, PlugSlot, Plug;
    SlotAround(head, s, t, u, "");
    assert head + ExpectPadded(PlugSlot(s, t)) + "" == head + ExpectPadded(PlugSlot(s, t));
    assert head + ExpectPadded(PlugSlot(s, u)) + "" == head + ExpectPadded(PlugSlot(s, u));
  }

  lemma {:induction false} Nothing(x: string, mark: string, y: string)
    ensures "" + x + (mark + y) == x + mark + y
  {
  }

  lemma {:induction false} Branches(check: string, yes: string, no: string)
    ensures "" + check + ("?" + yes + ":" + no) == check + "?" + yes + ":" + no
  {
  }

  // ---------- Every context ----------

  lemma {:induction false} ExpectEverywhere(c: Context, t: Type, u: Type)
    requires Fits(c, t) && Fits(c, u)
    ensures Ok(t) && Ok(u) && Clean(t) && Clean(u)
    ensures Expect(Plug(c, t)) == Expect(Plug(c, u)) <==> Expect(t) == Expect(u)
    decreases c
  {
    hide Ok, Clean, Expect;
    if c.Here? {
    } else {
      InnerFits(c, t);
      InnerFits(c, u);
      LevelAgrees(c, t, u);
      ExpectEverywhere(Inner(c), t, u);
    }
  }

  /** Two types in one place of a larger type: the whole texts normalise alike exactly when the two do. */
  lemma {:induction false} Everywhere(c: Context, t: Type, u: Type)
    requires Fits(c, t) && Fits(c, u)
    ensures NormaliseTypeText(Print(Plug(c, t))) == NormaliseTypeText(Print(Plug(c, u)))
       <==> NormaliseTypeText(Print(t)) == NormaliseTypeText(Print(u))
  {
    hide Ok, Clean, Expect, Print, Plug, NormaliseTypeText;
    ExpectEverywhere(c, t, u);
    NormalisesText(Plug(c, t));
    NormalisesText(Plug(c, u));
    NormalisesText(t);
    NormalisesText(u);
  }
}
