/** The canonical tree of a type, whose printed text is the type's normalised text. */
module TypeCanonTree {
  import opened Strings
  import opened TypeLexis
  import opened TypeGrammar
  import opened TypeShapes

  // ---------- Trees whose canonical tree is in the grammar ----------

  /** No union member ends in `=`, which, moved before a `>`, would read as an arrow. */
  predicate Clean(t: Type)
    decreases t, 0
  {
    match t
    case Flat(items) => CleanItems(items)
    case Intersection(members) => CleanAll(members)
    case Union(_, members) => CleanAll(members) && NoneEndsInEquals(members)
    case Function(params, result) => CleanItems(params) && Clean(result.body)
    case Labelled(name, value) => CleanItems(name) && Clean(value.body)
    case Conditional(check, yes, no) => Clean(check.body) && Clean(yes.body) && Clean(no.body)
    case List(parts, _) => CleanAll(parts)
  }

  predicate NoneEndsInEquals(ps: seq<Padded>) {
    ps == [] || (!EndsInEquals(LexType(ps[0].body)) && NoneEndsInEquals(ps[1..]))
  }

  predicate CleanAll(ps: seq<Padded>)
    decreases ps, 0
  {
    ps == [] || (Clean(ps[0].body) && CleanAll(ps[1..]))
  }

  predicate CleanItems(items: seq<Item>)
    decreases items, 0
  {
    items == [] || (CleanItem(items[0]) && CleanItems(items[1..]))
  }

  predicate CleanItem(it: Item)
    decreases it, 1
  {
    match it
    case Bracket(_, inner) => Clean(inner.body)
    case _ => true
  }

  /** A separator at the end of a union belongs to its last member, which sorts behind the others. */
  predicate MarkStays(ps: seq<Padded>) {
    Unmarked(ps) || (ps != [] && forall k :: 0 <= k < |ps| ==> Leq(Expect(ps[k].body), Expect(Last(ps).body)))
  }

  /** No union, at any depth, has its order changed so that a separator at its end comes to stand inside. */
  predicate UnionsSettled(t: Type)
    decreases t, 0
  {
    match t
    case Flat(items) => ItemsSettled(items)
    case Intersection(members) => AllSettled(members)
    case Union(_, members) => MarkStays(members) && AllSettled(members)
    case Function(params, result) => ItemsSettled(params) && UnionsSettled(result.body)
    case Labelled(name, value) => ItemsSettled(name) && UnionsSettled(value.body)
    case Conditional(check, yes, no) =>
      UnionsSettled(check.body) && UnionsSettled(yes.body) && UnionsSettled(no.body)
    case List(parts, _) => AllSettled(parts)
  }

  predicate AllSettled(ps: seq<Padded>)
    decreases ps, 0
  {
    ps == [] || (UnionsSettled(ps[0].body) && AllSettled(ps[1..]))
  }

  predicate ItemsSettled(items: seq<Item>)
    decreases items, 0
  {
    items == [] || (ItemSettled(items[0]) && ItemsSettled(items[1..]))
  }

  predicate ItemSettled(it: Item)
    decreases it, 1
  {
    match it
    case Bracket(_, inner) => UnionsSettled(inner.body)
    case _ => true
  }

  // ---------- The canonical tree ----------

  function Canon(t: Type): Type
    decreases t, 0
  {
    match t
    case Flat(items) => Flat(CanonItems(items))
    case Intersection(members) => Intersection(Spaced(CanonBodies(members), true))
    case Union(_, members) => Union(None, Spaced(SortTypes(CanonBodies(members)), true))
    case Function(params, result) => Function(CanonItems(params), CanonPadded(result))
    case Labelled(name, value) => Labelled(CanonItems(name), CanonPadded(value))
    case Conditional(check, yes, no) => Conditional(CanonPadded(check), CanonPadded(yes), CanonPadded(no))
    case List(parts, separators) => List(CanonParts(parts), separators)
  }

  function CanonPadded(p: Padded): Padded
    decreases p, 1
  {
    Padded(p.lead, Canon(p.body), p.trail)
  }

  function CanonBodies(ps: seq<Padded>): (r: seq<Type>)
    ensures |r| == |ps|
    decreases ps, 0
  {
    if ps == [] then [] else [Canon(ps[0].body)] + CanonBodies(ps[1..])
  }

  function CanonParts(ps: seq<Padded>): (r: seq<Padded>)
    ensures |r| == |ps|
    decreases ps, 0
  {
    if ps == [] then [] else [CanonPadded(ps[0])] + CanonParts(ps[1..])
  }

  function CanonItems(items: seq<Item>): (r: seq<Item>)
    ensures |r| == |items|
    decreases items, 0
  {
    if items == [] then [] else [CanonItem(items[0])] + CanonItems(items[1..])
  }

  function CanonItem(it: Item): Item
    decreases it, 1
  {
    match it
    case Bracket(open, inner) => Bracket(open, CanonPadded(inner))
    case Hollow(open, space) => Hollow(open, space + space)
    case _ => it
  }

  /** Members as the normaliser joins them: one space on each side of the separators. */
  function Spaced(ts: seq<Type>, first: bool): (r: seq<Padded>)
    ensures |r| == |ts|
  {
    if ts == [] then []
    else [Padded(if first then "" else " ", ts[0], if |ts| == 1 then "" else " ")] + Spaced(ts[1..], false)
  }

  function InsertType(t: Type, ts: seq<Type>): (r: seq<Type>)
    ensures |r| == |ts| + 1 && forall x :: x in r <==> x == t || x in ts
  {
    if ts == [] then [t]
    else if Leq(Print(t), Print(ts[0])) then [t] + ts
    else
      assert ts == [ts[0]] + ts[1..];
      [ts[0]] + InsertType(t, ts[1..])
  }

  function SortTypes(ts: seq<Type>): (r: seq<Type>)
    ensures |r| == |ts| && forall x :: x in r <==> x in ts
  {
    if ts == [] then []
    else
      assert ts == [ts[0]] + ts[1..];
      InsertType(ts[0], SortTypes(ts[1..]))
  }

  function Prints(ts: seq<Type>): (r: seq<string>)
    ensures |r| == |ts| && forall k :: 0 <= k < |ts| ==> r[k] == Print(ts[k])
  {
    if ts == [] then [] else [Print(ts[0])] + Prints(ts[1..])
  }

  lemma {:induction false} InsertPrints(t: Type, ts: seq<Type>)
    ensures Prints(InsertType(t, ts)) == Insert(Print(t), Prints(ts))
  {
    hide Print, Leq;
    if ts != [] && !Leq(Print(t), Print(ts[0])) {
      InsertPrints(t, ts[1..]);
      assert Prints(ts)[1..] == Prints(ts[1..]);
      assert InsertType(t, ts)[1..] == InsertType(t, ts[1..]);
    } else if ts != [] {
      assert InsertType(t, ts)[1..] == ts;
    }
  }

  /** Sorting the trees by their text sorts the texts. */
  lemma {:induction false} SortPrints(ts: seq<Type>)
    ensures Prints(SortTypes(ts)) == Sort(Prints(ts))
  {
    hide Print, Insert, InsertType;
    if ts == [] {
    } else {
      SortPrints(ts[1..]);
      InsertPrints(ts[0], SortTypes(ts[1..]));
      assert Prints(ts)[1..] == Prints(ts[1..]);
    }
  }
}
