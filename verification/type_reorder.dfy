/** Every rearrangement of union members is covered by canonicity. */
module TypeReorder {
  import opened Strings
  import opened TypeText
  import opened TypeLexis
  import opened TypeGrammar
  import opened TypeTokens
  import opened TypeShapes
  import opened TypeTheorems

  // ---------- Any order of the members of a union ----------

  lemma {:induction false} SameItself(t: Type)
    ensures Same(t, t)
    decreases t, 0
  {
    match t
    case Flat(items) => SameItemsItself(items);
    case Intersection(members) => SameBodiesItself(members);
    case Union(_, members) => SameBagItself(members);
    case Function(params, result) =>
      SameItemsItself(params);
      SameItself(result.body);
    case Labelled(name, value) =>
      SameItemsItself(name);
      SameItself(value.body);
    case Conditional(check, yes, no) =>
      SameItself(check.body);
      SameItself(yes.body);
      SameItself(no.body);
    case List(parts, _) => SameBodiesItself(parts);
  }

  lemma {:induction false} SameBodiesItself(ps: seq<Padded>)
    ensures SameBodies(ps, ps)
    decreases ps, 0
  {
    if ps == [] {
    } else {
      SameItself(ps[0].body);
      SameBodiesItself(ps[1..]);
    }
  }

  lemma {:induction false} SameItemsItself(items: seq<Item>)
    ensures SameItems(items, items)
    decreases items, 0
  {
    if items == [] {
    } else {
      SameItemItself(items[0]);
      SameItemsItself(items[1..]);
    }
  }

  lemma {:induction false} SameItemItself(it: Item)
    ensures SameItem(it, it)
    decreases it, 1
  {
    if it.Bracket? { SameItself(it.inner.body); }
  }

  lemma {:induction false} SameBagItself(ps: seq<Padded>)
    ensures SameBag(ps, ps)
    decreases ps, 0
  {
    if ps == [] {
    } else {
      SameItself(ps[0].body);
      SameBagItself(ps[1..]);
      assert ps[..0] + ps[0 + 1..] == ps[1..];
    }
  }

  function BodyTypes(ps: seq<Padded>): (r: seq<Type>)
    ensures |r| == |ps|
  {
    seq(|ps|, (i: nat) requires i < |ps| => ps[i].body)
  }

  lemma {:induction false} BodiesWithout(qs: seq<Padded>, j: nat)
    requires j < |qs|
    ensures multiset(BodyTypes(qs[..j] + qs[j + 1..])) == multiset(BodyTypes(qs)) - multiset{qs[j].body}
  {
    var us := BodyTypes(qs);
    WithoutOne(us, j);
    assert BodyTypes(qs[..j] + qs[j + 1..]) == us[..j] + us[j + 1..];
  }

  lemma {:induction false} BodiesTail(ps: seq<Padded>)
    requires ps != []
    ensures multiset(BodyTypes(ps[1..])) == multiset(BodyTypes(ps)) - multiset{ps[0].body}
  {
    TailBag(BodyTypes(ps));
    assert BodyTypes(ps[1..]) == BodyTypes(ps)[1..];
  }

  /** The first body, found in the other list; without it the lists are still rearrangements. */
  lemma {:induction false} FirstFound(ps: seq<Padded>, qs: seq<Padded>) returns (j: nat)
    requires multiset(BodyTypes(ps)) == multiset(BodyTypes(qs)) && ps != []
    ensures j < |qs| && qs[j].body == ps[0].body
    ensures multiset(BodyTypes(ps[1..])) == multiset(BodyTypes(qs[..j] + qs[j + 1..]))
  {
    hide BodyTypes;
    j := IndexOfBody(qs, ps, 0);
    BodiesTail(ps);
    BodiesWithout(qs, j);
  }

  lemma {:induction false} PermutationIsSame(ps: seq<Padded>, qs: seq<Padded>)
    requires multiset(BodyTypes(ps)) == multiset(BodyTypes(qs))
    ensures SameBag(ps, qs)
    decreases |ps|
  {
    hide Same, BodyTypes;
    if ps == [] {
      assert |multiset(BodyTypes(ps))| == |ps| && |multiset(BodyTypes(qs))| == |qs|;
    } else {
      var j := FirstFound(ps, qs);
      SameItself(ps[0].body);
      PermutationIsSame(ps[1..], qs[..j] + qs[j + 1..]);
    }
  }

  lemma {:induction false} MemberOk(ps: seq<Padded>, k: nat)
    requires AllOk(ps) && k < |ps|
    ensures PaddedOk(ps[k])
    decreases k
  {
    hide PaddedOk;
    if k == 0 {
    } else {
      MemberOk(ps[1..], k - 1);
    }
  }

  lemma {:induction false} AllAreOk(qs: seq<Padded>)
    requires forall k :: 0 <= k < |qs| ==> PaddedOk(qs[k])
    ensures AllOk(qs)
  {
    hide PaddedOk;
    if qs == [] {
    } else {
      AllAreOk(qs[1..]);
    }
  }

  predicate SpaceAround(ps: seq<Padded>) {
    forall k :: 0 <= k < |ps| ==> AllSpace(ps[k].lead) && AllSpace(ps[k].trail)
  }

  lemma {:induction false} IndexOfBody(ps: seq<Padded>, qs: seq<Padded>, k: nat) returns (j: nat)
    requires multiset(BodyTypes(ps)) == multiset(BodyTypes(qs)) && k < |qs|
    ensures j < |ps| && ps[j].body == qs[k].body
  {
    var ts, us := BodyTypes(ps), BodyTypes(qs);
    assert us[k] in multiset(us);
    assert us[k] in multiset(ts);
    j :| 0 <= j < |ts| && ts[j] == us[k];
  }

  /** The same bodies in another order and spacing are members as good as before. */
  lemma {:induction false} RearrangedOk(ps: seq<Padded>, qs: seq<Padded>, needles: seq<Needle>)
    requires AllOk(ps) && AllFree(ps, needles) && SpaceAround(qs) && multiset(BodyTypes(ps)) == multiset(BodyTypes(qs))
    requires forall n :: n in needles ==> IsNeedle(n)
    ensures AllOk(qs) && AllFree(qs, needles) && |qs| == |ps|
  {
    hide Ok, LexType, LexPadded, NoTop, AllSpace, Trimmed, IsNeedle, BodyTypes;
    assert |multiset(BodyTypes(ps))| == |ps| && |multiset(BodyTypes(qs))| == |qs|;
    forall k | 0 <= k < |qs| ensures PaddedOk(qs[k]) && Free(LexPadded(qs[k]), needles) {
      var j := IndexOfBody(ps, qs, k);
      MemberOk(ps, j);
      assert Free(LexPadded(ps[j]), needles);
      forall n | n in needles ensures NoTop(LexPadded(qs[k]), n) {
        BodyFree(ps[j], n);
        PaddedFree(qs[k], n);
      }
    }
    AllAreOk(qs);
  }

  lemma {:induction false} UnionNeedles()
    ensures forall n :: n in [LIST, COLON, Arrow, BAR] ==> IsNeedle(n)
  {
  }

  /** Every rearrangement of members without a separator at the end is a union of the grammar. */
  lemma {:induction false} RearrangedUnion(bar: Option<string>, ps: seq<Padded>, bar': Option<string>, qs: seq<Padded>)
    requires Ok(Union(bar, ps)) && Unmarked(ps) && multiset(BodyTypes(ps)) == multiset(BodyTypes(qs)) && SpaceAround(qs)
    requires bar'.Some? ==> AllSpace(bar'.value)
    ensures Ok(Union(bar', qs)) && Unmarked(qs) && AllOk(qs)
  {
    hide AllOk, AllFree, AllSpace, SpaceAround, BodyTypes, IsNeedle, Unparted, LexType, Unmarked;
    UnionNeedles();
    UnmarkedFree(ps);
    RearrangedOk(ps, qs, [LIST, COLON, Arrow, BAR]);
    UnmarkedFree(qs);
    UnmarkedParts(qs);
    UnionUnparted(bar', qs);
  }

  /** Every rearrangement of a union's members, spaced in any way, with or without a leading bar, is a
      tree of the grammar, is the same type, and normalises to the same text. */
  lemma {:induction false} AnyOrderNormalisesAlike(bar: Option<string>, ps: seq<Padded>, bar': Option<string>, qs: seq<Padded>)
    requires Ok(Union(bar, ps)) && Unmarked(ps) && multiset(BodyTypes(ps)) == multiset(BodyTypes(qs)) && SpaceAround(qs)
    requires bar'.Some? ==> AllSpace(bar'.value)
    ensures Ok(Union(bar', qs)) && Same(Union(bar, ps), Union(bar', qs))
    ensures NormaliseTypeText(Print(Union(bar, ps))) == NormaliseTypeText(Print(Union(bar', qs)))
  {
    hide Print, NormaliseTypeText, AllOk, AllFree, AllSpace, SameBag, SpaceAround, BodyTypes, IsNeedle, Unmarked, Ok;
    RearrangedUnion(bar, ps, bar', qs);
    PermutationIsSame(ps, qs);
    Canonicity(Union(bar, ps), Union(bar', qs));
  }
}
