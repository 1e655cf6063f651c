/** The members of a normalised union or intersection can be read back from its text. */
module TypeRecovered {
  import opened Strings
  import opened TypeText
  import opened TypeLexis
  import opened TypeGrammar
  import opened TypeCanonicity
  import opened TypeShapes
  import opened TypeSplits
  import opened TypeCanonTree
  import opened TypeCanonStands

  lemma {:induction false} SpacedBodies(ts: seq<Type>, first: bool)
    ensures Bodies(Spaced(ts, first)) == Prints(ts)
    decreases |ts|
  {
    hide Print;
    if ts == [] {
    } else {
      SpacedBodies(ts[1..], false);
      assert Spaced(ts, first)[1..] == Spaced(ts[1..], false) && Spaced(ts, first)[0].body == ts[0];
      assert Prints(ts)[1..] == Prints(ts[1..]);
    }
  }

  lemma {:induction false} JoinNeedle(c: char)
    requires c in ['|', '&']
    ensures Needles([Symbol({c})]) && Symbol({c}) in [BAR, AMPERSAND]
  {
  }

  lemma {:induction false} JoinedRecovered(ts: seq<Type>, c: char)
    requires ts != [] && c in ['|', '&'] && AreMembers(ts, [Symbol({c})])
    ensures Members(Join(Prints(ts), " " + [c] + " "), Symbol({c})) == Prints(ts)
  {
    hide AreMembers, Members, Join, Prints, Spaced, AllFramed, AllFree, LexAll, JoinLex, ShowAll, NoTopEach, Bodies;
    var ps, needles := Spaced(ts, true), [Symbol({c})];
    JoinNeedle(c);
    SpacedFramed(ts, true, needles);
    SpacedShown(ts, true, c);
    FreeEach(ps, needles, Symbol({c}));
    MembersFound(ps, c);
    SpacedBodies(ts, true);
    assert "" + Join(Prints(ts), " " + [c] + " ") == Join(Prints(ts), " " + [c] + " ");
  }

  lemma {:induction false} FewerNeedles(ts: seq<Type>, needles: seq<Needle>, n: Needle)
    requires AreMembers(ts, needles) && n in needles
    ensures AreMembers(ts, [n])
  {
    hide LexedAll, LexType, NoTop, Print;
    forall k | 0 <= k < |ts| ensures IsMember(ts[k], [n]) {
      assert IsMember(ts[k], needles);
    }
  }

  /** The members of a normalised union are read back from it. */
  lemma {:induction false} UnionRecovered(t: Type)
    requires t.Union? && Ok(t) && Clean(t)
    ensures t.members != [] && Members(Expect(t), BAR) == Sort(ExpectBodies(t.members))
  {
    hide AllOk, AllFree, CleanAll, Members, Join, Sort, Prints, CanonBodies, AreMembers, NoneEndsInEquals, ExpectBodies, AllStand,
      Needles, SortTypes, Expect, Ok, Clean, Canon, Spaced;
    UnionFacts(t);
    var ps, needles := t.members, [COLON, Arrow, BAR];
    NeedlesAre(needles);
    MembersStand(ps, needles);
    var ts := CanonBodies(ps);
    assert needles[2] == BAR;
    FewerNeedles(ts, needles, BAR);
    SortedMembers(ts, [BAR]);
    SortPrints(ts);
    JoinedRecovered(SortTypes(ts), '|');
    assert " " + ['|'] + " " == " | ";
  }

  lemma {:induction false} IntersectionRecovered(t: Type)
    requires t.Intersection? && Ok(t) && Clean(t)
    ensures t.members != [] && Members(Expect(t), AMPERSAND) == ExpectBodies(t.members)
  {
    hide AllOk, AllFree, CleanAll, Members, Join, Prints, CanonBodies, AreMembers, ExpectBodies, AllStand, Needles, Expect, Ok, Clean,
      Canon, Spaced;
    IntersectionFacts(t);
    var ps, needles := t.members, [COLON, Arrow, BAR, AMPERSAND];
    NeedlesAre(needles);
    MembersStand(ps, needles);
    assert needles[3] == AMPERSAND;
    FewerNeedles(CanonBodies(ps), needles, AMPERSAND);
    JoinedRecovered(CanonBodies(ps), '&');
    assert " " + ['&'] + " " == " & ";
  }

  /** Two normalised unions are equal exactly when their members are, counted. */
  lemma {:induction false} ExpectedUnions(t: Type, u: Type)
    requires t.Union? && u.Union? && Ok(t) && Ok(u) && Clean(t) && Clean(u)
    ensures Expect(t) == Expect(u) <==> multiset(ExpectBodies(t.members)) == multiset(ExpectBodies(u.members))
  {
    hide Ok, Clean, ExpectBodies, Members, Join, Sort;
    UnionRecovered(t);
    UnionRecovered(u);
    if multiset(ExpectBodies(t.members)) == multiset(ExpectBodies(u.members)) {
      SortOfSameBag(ExpectBodies(t.members), ExpectBodies(u.members));
    }
  }

  lemma {:induction false} ExpectedIntersections(t: Type, u: Type)
    requires t.Intersection? && u.Intersection? && Ok(t) && Ok(u) && Clean(t) && Clean(u)
    ensures Expect(t) == Expect(u) <==> ExpectBodies(t.members) == ExpectBodies(u.members)
  {
    hide Ok, Clean, ExpectBodies, Members, Join;
    IntersectionRecovered(t);
    IntersectionRecovered(u);
  }
}
