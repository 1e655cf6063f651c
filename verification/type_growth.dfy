/** White space alone between brackets: how much of it a tree holds, and what each pass adds to it. */
module TypeGrowth {
  import opened Strings
  import opened TypeText
  import opened TypeGrammar
  import opened TypeCanonTree

  // ---------- Blank brackets ----------

  /** How many characters stand in brackets that hold nothing but white space. */
  function Blanks(t: Type): nat
    decreases t, 0
  {
    match t
    case Flat(items) => BlanksItems(items)
    case Intersection(members) => BlanksAll(members)
    case Union(_, members) => BlanksAll(members)
    case Function(params, result) => BlanksItems(params) + Blanks(result.body)
    case Labelled(name, value) => BlanksItems(name) + Blanks(value.body)
    case Conditional(check, yes, no) => Blanks(check.body) + Blanks(yes.body) + Blanks(no.body)
    case List(parts, separators) => if |parts| == |separators| + 1 then BlanksAll(parts) else 0
  }

  function BlanksAll(ps: seq<Padded>): nat
    decreases ps, 0
  {
    if ps == [] then 0 else Blanks(ps[0].body) + BlanksAll(ps[1..])
  }

  function BlanksItems(items: seq<Item>): nat
    decreases items, 0
  {
    if items == [] then 0 else BlanksItem(items[0]) + BlanksItems(items[1..])
  }

  function BlanksItem(it: Item): nat
    decreases it, 1
  {
    match it
    case Bracket(_, inner) => Blanks(inner.body)
    case Hollow(_, space) => |space|
    case _ => 0
  }

  // ---------- Expected texts of the members of a canonical tree ----------

  function Texts(ts: seq<Type>): (r: seq<string>)
    ensures |r| == |ts|
  {
    if ts == [] then [] else [Expect(ts[0])] + Texts(ts[1..])
  }

  lemma {:induction false} SpacedTexts(ts: seq<Type>, first: bool)
    ensures ExpectBodies(Spaced(ts, first)) == Texts(ts)
    decreases |ts|
  {
    hide Expect;
    if ts == [] {
    } else {
      SpacedTexts(ts[1..], false);
      assert Spaced(ts, first)[1..] == Spaced(ts[1..], false) && Spaced(ts, first)[0].body == ts[0];
    }
  }

  lemma {:induction false} InsertTexts(t: Type, ts: seq<Type>)
    ensures multiset(Texts(InsertType(t, ts))) == multiset(Texts(ts)) + multiset{Expect(t)}
  {
    hide Expect, Print, Leq;
    if ts == [] {
      assert Texts([t]) == [Expect(t)] + Texts([t][1..]);
    } else if Leq(Print(t), Print(ts[0])) {
      assert ([t] + ts)[1..] == ts;
    } else {
      InsertTexts(t, ts[1..]);
      var r := InsertType(t, ts);
      assert r[1..] == InsertType(t, ts[1..]) && r[0] == ts[0];
      assert Texts(r) == [Expect(ts[0])] + Texts(r[1..]);
    }
  }

  lemma {:induction false} SortTexts(ts: seq<Type>)
    ensures multiset(Texts(SortTypes(ts))) == multiset(Texts(ts))
  {
    hide Expect, InsertType;
    if ts == [] {
    } else {
      SortTexts(ts[1..]);
      InsertTexts(ts[0], SortTypes(ts[1..]));
      assert Texts(ts) == [Expect(ts[0])] + Texts(ts[1..]);
    }
  }

  lemma {:induction false} CanonUnion(members: seq<Padded>, bar: Option<string>)
    ensures Expect(Canon(Union(bar, members))) == Join(Sort(Texts(CanonBodies(members))), " | ")
  {
    hide CanonBodies, Spaced, SortTypes, ExpectBodies, Join, Sort;
    var ts := CanonBodies(members);
    SpacedTexts(SortTypes(ts), true);
    SortTexts(ts);
    SortOfSameBag(Texts(SortTypes(ts)), Texts(ts));
  }

  // ---------- Without blank brackets one pass is enough ----------

  lemma {:induction false} Settles(t: Type)
    requires Blanks(t) == 0
    ensures Expect(Canon(t)) == Expect(t)
    decreases t, 0
  {
    match t
    case Flat(items) => ItemsSettle(items);
    case Intersection(members) =>
      MembersSettle(members);
      SpacedTexts(CanonBodies(members), true);
    case Union(bar, members) =>
      MembersSettle(members);
      CanonUnion(members, bar);
    case Function(params, result) =>
      ItemsSettle(params);
      Settles(result.body);
    case Labelled(name, value) =>
      ItemsSettle(name);
      Settles(value.body);
    case Conditional(check, yes, no) =>
      Settles(check.body);
      Settles(yes.body);
      Settles(no.body);
    case List(parts, separators) => if |parts| == |separators| + 1 { PartsSettle(parts); }
  }

  lemma {:induction false} MembersSettle(ps: seq<Padded>)
    requires BlanksAll(ps) == 0
    ensures Texts(CanonBodies(ps)) == ExpectBodies(ps)
    decreases ps, 0
  {
    hide Expect, Canon, Blanks;
    if ps == [] {
    } else {
      Settles(ps[0].body);
      MembersSettle(ps[1..]);
      assert CanonBodies(ps)[1..] == CanonBodies(ps[1..]);
    }
  }

  lemma {:induction false} PartsSettle(ps: seq<Padded>)
    requires BlanksAll(ps) == 0
    ensures ExpectBodies(CanonParts(ps)) == ExpectBodies(ps)
    decreases ps, 0
  {
    hide Expect, Canon, Blanks;
    if ps == [] {
    } else {
      Settles(ps[0].body);
      PartsSettle(ps[1..]);
      assert CanonParts(ps)[1..] == CanonParts(ps[1..]);
    }
  }

  lemma {:induction false} ItemsSettle(items: seq<Item>)
    requires BlanksItems(items) == 0
    ensures ExpectItems(CanonItems(items)) == ExpectItems(items)
    decreases items, 0
  {
    hide ExpectItem, CanonItem, BlanksItem;
    if items == [] {
    } else {
      ItemSettles(items[0]);
      ItemsSettle(items[1..]);
      assert CanonItems(items)[1..] == CanonItems(items[1..]);
    }
  }

  lemma {:induction false} ItemSettles(it: Item)
    requires BlanksItem(it) == 0
    ensures ExpectItem(CanonItem(it)) == ExpectItem(it)
    decreases it, 1
  {
    if it.Bracket? { Settles(it.inner.body); }
  }

  // ---------- Every blank bracket grows ----------

  function Total(texts: seq<string>): nat {
    if texts == [] then 0 else |texts[0]| + Total(texts[1..])
  }

  lemma {:induction false} TotalWithout(texts: seq<string>, j: nat)
    requires j < |texts|
    ensures Total(texts) == |texts[j]| + Total(texts[..j] + texts[j + 1..])
    decreases j
  {
    var rest := texts[..j] + texts[j + 1..];
    if j == 0 {
      assert rest == texts[1..];
    } else {
      TotalWithout(texts[1..], j - 1);
      assert rest[0] == texts[0] && rest[1..] == texts[1..][..j - 1] + texts[1..][j..];
    }
  }

  lemma {:induction false} TotalOfSameBag(xs: seq<string>, ys: seq<string>)
    requires multiset(xs) == multiset(ys)
    ensures Total(xs) == Total(ys)
    decreases |xs|
  {
    if xs == [] {
      assert |multiset(ys)| == |ys|;
    } else {
      assert xs[0] in multiset(ys);
      var j :| 0 <= j < |ys| && ys[j] == xs[0];
      TailBag(xs);
      WithoutOne(ys, j);
      TotalOfSameBag(xs[1..], ys[..j] + ys[j + 1..]);
      TotalWithout(ys, j);
    }
  }

  lemma {:induction false} JoinLength(texts: seq<string>, sep: string)
    requires |sep| == 3
    ensures |Join(texts, sep)| == if texts == [] then 0 else Total(texts) + 3 * (|texts| - 1)
  {
    if |texts| <= 1 {
      if |texts| == 1 { assert Total(texts[1..]) == 0; }
    } else {
      JoinLength(texts[1..], sep);
    }
  }

  lemma {:induction false} RejoinLength(texts: seq<string>, separators: seq<string>)
    requires |texts| == |separators| + 1
    ensures |Rejoin(texts, separators)| == Total(texts) + Total(separators)
  {
    if separators == [] {
      assert Total(texts[1..]) == 0;
    } else {
      RejoinLength(texts[1..], separators[1..]);
    }
  }

  /** The canonical tree is expected to be longer by twice its tree's blanks. */
  lemma {:induction false} Grows(t: Type)
    ensures |Expect(Canon(t))| == |Expect(t)| + 2 * Blanks(t)
    decreases t, 0
  {
    match t
    case Flat(items) => ItemsGrow(items);
    case Intersection(_) => IntersectionGrows(t);
    case Union(_, _) => UnionGrows(t);
    case Function(params, result) =>
      ItemsGrow(params);
      Grows(result.body);
    case Labelled(name, value) =>
      ItemsGrow(name);
      Grows(value.body);
    case Conditional(check, yes, no) =>
      Grows(check.body);
      Grows(yes.body);
      Grows(no.body);
    case List(parts, separators) =>
      if |parts| == |separators| + 1 {
        PartsGrow(parts);
        RejoinLength(ExpectBodies(parts), separators);
        RejoinLength(ExpectBodies(CanonParts(parts)), separators);
      }
  }

  lemma {:induction false} IntersectionGrows(t: Type)
    requires t.Intersection?
    ensures |Expect(Canon(t))| == |Expect(t)| + 2 * Blanks(t)
    decreases t.members, 1
  {
    hide Join, ExpectBodies, CanonBodies, Spaced;
    MembersGrow(t.members);
    SpacedTexts(CanonBodies(t.members), true);
    JoinLength(ExpectBodies(t.members), " & ");
    JoinLength(Texts(CanonBodies(t.members)), " & ");
  }

  lemma {:induction false} UnionGrows(t: Type)
    requires t.Union?
    ensures |Expect(Canon(t))| == |Expect(t)| + 2 * Blanks(t)
    decreases t.members, 1
  {
    hide Join, Sort, ExpectBodies, CanonBodies, Spaced, SortTypes;
    var texts, longer := ExpectBodies(t.members), Texts(CanonBodies(t.members));
    MembersGrow(t.members);
    CanonUnion(t.members, t.bar);
    TotalOfSameBag(Sort(texts), texts);
    TotalOfSameBag(Sort(longer), longer);
    JoinLength(Sort(texts), " | ");
    JoinLength(Sort(longer), " | ");
  }

  lemma {:induction false} MembersGrow(ps: seq<Padded>)
    ensures Total(Texts(CanonBodies(ps))) == Total(ExpectBodies(ps)) + 2 * BlanksAll(ps)
    decreases ps, 0
  {
    hide Expect, Canon, Blanks;
    if ps == [] {
    } else {
      Grows(ps[0].body);
      MembersGrow(ps[1..]);
      assert CanonBodies(ps)[1..] == CanonBodies(ps[1..]);
      assert ExpectBodies(ps)[1..] == ExpectBodies(ps[1..]);
    }
  }

  lemma {:induction false} PartsGrow(ps: seq<Padded>)
    ensures Total(ExpectBodies(CanonParts(ps))) == Total(ExpectBodies(ps)) + 2 * BlanksAll(ps)
    decreases ps, 0
  {
    hide Expect, Canon, Blanks;
    if ps == [] {
    } else {
      Grows(ps[0].body);
      PartsGrow(ps[1..]);
      assert CanonParts(ps)[1..] == CanonParts(ps[1..]);
      assert ExpectBodies(ps)[1..] == ExpectBodies(ps[1..]);
    }
  }

  lemma {:induction false} ItemsGrow(items: seq<Item>)
    ensures |ExpectItems(CanonItems(items))| == |ExpectItems(items)| + 2 * BlanksItems(items)
    decreases items, 0
  {
    hide ExpectItem, CanonItem, BlanksItem;
    if items == [] {
    } else {
      ItemGrows(items[0]);
      ItemsGrow(items[1..]);
      assert CanonItems(items)[1..] == CanonItems(items[1..]);
    }
  }

  lemma {:induction false} ItemGrows(it: Item)
    ensures |ExpectItem(CanonItem(it))| == |ExpectItem(it)| + 2 * BlanksItem(it)
    decreases it, 1
  {
    if it.Bracket? { Grows(it.inner.body); }
  }
}
