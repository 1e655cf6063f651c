/** What the tokens of a normalised text show: its kind of type, and where a union was cut by a separator. */
module TypeCanonShapes {
  import opened Strings
  import opened TypeText
  import opened TypeLexis
  import opened TypeGrammar
  import opened TypeCanonicity
  import opened TypeTokens
  import opened TypeShapes
  import opened TypeTheorems
  import opened TypeCanonTree
  import opened TypeCanonStands

  /** The tokens of the normalised text. */
  function Canonical(t: Type): seq<Lex> { LexType(Canon(t)) }

  // ---------- The kind of type ----------

  /** What binds looser than a type of its kind does not stand in it. */
  lemma {:induction false} TopHides(t: Type)
    requires Ok(t)
    ensures t.Function? || t.Union? || t.Intersection? || t.Flat? ==> NoTop(LexType(t), COLON)
    ensures t.Union? || t.Intersection? || t.Flat? ==> NoTop(LexType(t), Arrow)
    ensures t.Intersection? || t.Flat? ==> NoTop(LexType(t), BAR)
    ensures t.Flat? ==> NoTop(LexType(t), AMPERSAND)
  {
    hide PaddedOk, ItemsOk, AllOk, PartsOk, AllFree, LexPadded, LexItems, LexAll, JoinLex, JoinList, NoTop, Hits, Unparted, SolidParts,
      SeparatorsOk, Trim, ShowAll, IsLabel, LexType;
    match t
    case Flat(items) => FlatHides(t);
    case Intersection(members) =>
      JoinHides(t, COLON);
      JoinHides(t, Arrow);
      JoinHides(t, BAR);
    case Union(_, _) =>
      UnionPartsFree(t, COLON);
      UnionPartsFree(t, Arrow);
    case Function(_, _) => FunctionLexed(t);
    case _ =>
  }

  lemma {:induction false} FlatHides(t: Type)
    requires t.Flat? && Ok(t)
    ensures NoTop(LexType(t), COLON) && NoTop(LexType(t), Arrow) && NoTop(LexType(t), BAR) && NoTop(LexType(t), AMPERSAND)
  {
    hide NoTop, LexItems, Unparted;
    var needles := [COLON, Arrow, BAR, AMPERSAND];
    assert COLON in needles && Arrow in needles && BAR in needles && AMPERSAND in needles;
  }

  lemma {:induction false} JoinHides(t: Type, n: Needle)
    requires t.Intersection? && Ok(t) && n in [COLON, Arrow, BAR]
    ensures NoTop(LexType(t), n)
  {
    hide NoTop, AllOk, Unparted, AllFree;
    FreeEach(t.members, [COLON, Arrow, BAR, AMPERSAND], n);
    JoinNoTop(LexAll(t.members), '&', n);
  }

  lemma {:induction false} SpacedShows(ts: seq<Type>, c: char, n: Needle)
    requires |ts| >= 2 && Hits(Ch(c), n)
    ensures !NoTop(JoinLex(LexAll(Spaced(ts, true)), c), n)
  {
    hide LexPadded, Spaced, NoTop, Hits;
    JoinShows(LexAll(Spaced(ts, true)), c, n);
  }

  /** The normalised text still shows what kind of type it is. */
  lemma {:induction false} CanonShows(t: Type)
    requires Ok(t) && Clean(t)
    ensures t.Function? ==> !NoTop(Canonical(t), Arrow)
    ensures t.Labelled? || t.Conditional? ==> !NoTop(Canonical(t), COLON)
    ensures t.Union? ==> !NoTop(Canonical(t), BAR)
    ensures t.Intersection? ==> !NoTop(Canonical(t), AMPERSAND)
    ensures t.List? ==> !Unparted(Canonical(t))
  {
    hide PaddedOk, ItemsOk, AllOk, PartsOk, Free, AllFree, LexPadded, LexItems, LexAll, JoinLex, JoinList, NoTop, Hits, Unparted,
      SolidParts, SeparatorsOk, Trim, ShowAll, Spaced, SortTypes;
    match t
    case Flat(_) =>
    case Intersection(members) =>
      PlainIntersection(Spaced(CanonBodies(members), true));
      assert Hits(Ch('&'), AMPERSAND) by { MarksHit(); }
      SpacedShows(CanonBodies(members), '&', AMPERSAND);
    case Union(bar, members) =>
      PlainUnion(Spaced(SortTypes(CanonBodies(members)), true));
      assert Hits(Ch('|'), BAR) by { MarksHit(); }
      SpacedShows(SortTypes(CanonBodies(members)), '|', BAR);
    case Function(params, result) =>
      assert Hits(Fat, Arrow) by { MarksHit(); }
      MiddleShows(LexItems(CanonItems(params)), Fat, LexPadded(CanonPadded(result)), Arrow);
    case Labelled(name, value) =>
      assert Hits(Ch(':'), COLON) by { MarksHit(); }
      MiddleShows(LexItems(CanonItems(name)), Ch(':'), LexPadded(CanonPadded(value)), COLON);
    case Conditional(check, yes, no) =>
      assert Hits(Ch(':'), COLON) by { MarksHit(); }
      var branches := LexPadded(CanonPadded(yes)) + [Ch(':')] + LexPadded(CanonPadded(no));
      MiddleShows(LexPadded(CanonPadded(yes)), Ch(':'), LexPadded(CanonPadded(no)), COLON);
      NoTopAppend(LexPadded(CanonPadded(check)) + [Ch('?')], branches, COLON);
    case List(_, _) => CanonListShows(t);
  }

  lemma {:induction false} MarksHit()
    ensures Hits(Ch('&'), AMPERSAND) && Hits(Ch('|'), BAR) && Hits(Fat, Arrow) && Hits(Ch(':'), COLON)
  {
  }

  lemma {:induction false} CanonListShows(t: Type)
    requires t.List? && Ok(t) && Clean(t)
    ensures !Unparted(Canonical(t))
  {
    hide LexPadded, PartsOk, AllFree, Unparted, SolidParts, Trim, LexAll, JoinList, Print, NoTop, SomeSolid, CanonParts, PartsFollow,
      CleanAll, Ok, Clean, Canon, Expect, LexType, ExpectBodies, Follows, LexedParts;
    var ps, qs := t.parts, CanonParts(t.parts);
    ListFacts(t);
    ListIsLong(t);
    LastPartSolid(t);
    PartsStand(ps);
    LastFollows(ps, qs);
    SeparatedJoin(LexAll(qs), t.separators);
  }

  lemma {:induction false} LastPartSolid(t: Type)
    requires t.List? && Ok(t)
    ensures t.parts != [] && SomeSolid(LexPadded(Last(t.parts)))
  {
    hide LexPadded, PartsOk, AllFree, Unparted, SolidParts, Trim, LexAll, JoinList, Print, SomeSolid;
    LastIsSolid(t.parts);
    LexAllAt(t.parts, |t.parts| - 1);
  }

  lemma {:induction false} LastFollows(ps: seq<Padded>, qs: seq<Padded>)
    requires ps != [] && PartsFollow(ps, qs) && SomeSolid(LexPadded(Last(ps)))
    ensures SomeSolid(LexAll(qs)[|qs| - 1])
  {
    hide LexPadded, SomeSolid, LexAll, LexedAll, NoTop, SolidStart, SolidEnd, EndsInEquals;
    LexAllAt(qs, |qs| - 1);
    assert Follows(LexPadded(ps[|ps| - 1]), LexPadded(qs[|ps| - 1]));
  }

  /** Something solid after a separator. */
  lemma {:induction false} SeparatedJoin(parts: seq<seq<Lex>>, separators: seq<string>)
    requires |parts| == |separators| + 1 >= 2 && SeparatorsOk(separators) && SomeSolid(parts[|parts| - 1])
    ensures !Unparted(JoinList(parts, separators))
  {
    hide Unparted, JoinList, NoTop, SomeSolid;
    JoinSolid(parts[1..], separators[1..]);
    var first, rest := Chars(separators[0]), JoinList(parts[1..], separators[1..]);
    CharsShown(separators[0]);
    MarkHits(first, 0, separators[0][0]);
    NoTopAppend(parts[0], first, LIST);
    UnpartedAppend(parts[0] + first, rest);
    JoinTwo(parts, separators);
  }

  lemma {:induction false} CanonHides(t: Type, n: Needle)
    requires Ok(t) && Clean(t) && NoTop(LexType(t), n) && IsNeedle(n)
    ensures NoTop(Canonical(t), n)
  {
    hide LexType, NoTop, Ok, Clean, Canon, Expect, IsNeedle, SolidStart, SolidEnd, SomeSolid, EndsInEquals;
    CanonStands(t);
  }

  lemma {:induction false} IsLabelled(t: Type)
    requires Ok(t) && Clean(t) && !t.List?
    ensures t.Labelled? || t.Conditional? <==> !NoTop(Canonical(t), COLON)
  {
    hide Ok, Clean, NoTop, Canonical, LexType;
    CanonShows(t);
    TopHides(t);
    if NoTop(LexType(t), COLON) { CanonHides(t, COLON); }
  }

  lemma {:induction false} IsFunction(t: Type)
    requires Ok(t) && Clean(t) && !t.List? && NoTop(Canonical(t), COLON)
    ensures t.Function? <==> !NoTop(Canonical(t), Arrow)
  {
    hide Ok, Clean, NoTop, Canonical, LexType;
    CanonShows(t);
    TopHides(t);
    if NoTop(LexType(t), Arrow) { CanonHides(t, Arrow); }
  }

  lemma {:induction false} IsUnion(t: Type)
    requires Ok(t) && Clean(t) && !t.List? && NoTop(Canonical(t), COLON) && NoTop(Canonical(t), Arrow)
    ensures t.Union? <==> !NoTop(Canonical(t), BAR)
  {
    hide Ok, Clean, NoTop, Canonical, LexType;
    CanonShows(t);
    TopHides(t);
    if NoTop(LexType(t), BAR) { CanonHides(t, BAR); }
  }

  lemma {:induction false} IsIntersection(t: Type)
    requires Ok(t) && Clean(t) && !t.List? && NoTop(Canonical(t), COLON) && NoTop(Canonical(t), Arrow) && NoTop(Canonical(t), BAR)
    ensures t.Intersection? <==> !NoTop(Canonical(t), AMPERSAND)
  {
    hide Ok, Clean, NoTop, Canonical, LexType;
    CanonShows(t);
    TopHides(t);
    if NoTop(LexType(t), AMPERSAND) { CanonHides(t, AMPERSAND); }
  }

  predicate SameKind(t: Type, u: Type) {
    && (t.Flat? <==> u.Flat?) && (t.Intersection? <==> u.Intersection?) && (t.Union? <==> u.Union?) && (t.Function? <==> u.Function?)
    && (t.Labelled? || t.Conditional? <==> u.Labelled? || u.Conditional?)
  }

  /** Types with the same normalised text are of one kind, labels and conditionals taken together. */
  lemma {:induction false} KindShows(t: Type, u: Type)
    requires Ok(t) && Ok(u) && Clean(t) && Clean(u) && !t.List? && !u.List? && Canonical(t) == Canonical(u)
    ensures SameKind(t, u)
  {
    hide Ok, Clean, NoTop, Canonical;
    IsLabelled(t);
    IsLabelled(u);
    if NoTop(Canonical(t), COLON) {
      IsFunction(t);
      IsFunction(u);
      if NoTop(Canonical(t), Arrow) {
        IsUnion(t);
        IsUnion(u);
        if NoTop(Canonical(t), BAR) {
          IsIntersection(t);
          IsIntersection(u);
        }
      }
    }
  }
}
