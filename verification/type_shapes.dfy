/** What the tokens of a printed tree look like: which needles stand in it, and how it ends. */
module TypeShapes {
  import opened Strings
  import opened TypeText
  import opened TypeLexis
  import opened TypeGrammar
  import opened TypeCanonicity
  import opened TypeTokens

  /** A body without white space at its ends, between white space. */
  predicate Framed(p: Padded) {
    AllSpace(p.lead) && AllSpace(p.trail) && LexedAll(LexType(p.body)) && Trimmed(Print(p.body))
  }

  predicate AllFramed(ps: seq<Padded>) { forall k :: 0 <= k < |ps| ==> Framed(ps[k]) }

  lemma {:induction false} OkFramed(p: Padded)
    requires PaddedOk(p)
    ensures Framed(p)
  {
    hide Ok, LexType, LexedAll, ShowAll, AllSpace;
    OkLexed(p.body);
  }

  lemma {:induction false} AllOkFramed(ps: seq<Padded>)
    requires AllOk(ps)
    ensures AllFramed(ps)
  {
    hide PaddedOk, Framed;
    if ps == [] {
    } else {
      OkFramed(ps[0]);
      AllOkFramed(ps[1..]);
      forall k | 0 <= k < |ps| ensures Framed(ps[k]) {
        if k > 0 { assert ps[k] == ps[1..][k - 1]; }
      }
    }
  }

  lemma {:induction false} FramedLexed(p: Padded)
    requires Framed(p)
    ensures LexedAll(LexPadded(p))
  {
    hide LexType, LexedAll, ShowAll;
    SpaceLexed(p.lead);
    SpaceLexed(p.trail);
    LexedThree(Chars(p.lead), LexType(p.body), Chars(p.trail));
  }

  lemma {:induction false} TrimmedEnds(xs: seq<Lex>)
    requires LexedAll(xs) && Trimmed(ShowAll(xs))
    ensures SolidStart(xs) && SolidEnd(xs)
  {
    hide LexedAll, SolidStart, SolidEnd, IsSpace;
    ShownEnds(xs);
  }

  lemma {:induction false} MemberEnds(c: Type)
    requires Ok(c) && Trimmed(Print(c))
    ensures SolidStart(LexType(c)) && SolidEnd(LexType(c))
  {
    hide Ok, LexType, LexedAll, SolidStart, SolidEnd, ShowAll;
    OkLexed(c);
    TrimmedEnds(LexType(c));
  }

  lemma {:induction false} PaddedEnds(p: Padded)
    requires Framed(p)
    ensures p.lead == "" ==> SolidStart(LexPadded(p))
    ensures SolidEnd(LexPadded(p)) <==> p.trail == ""
    ensures p.trail == "" ==> (EndsInEquals(LexPadded(p)) <==> EndsInEquals(LexType(p.body)))
  {
    hide LexType, SomeSolid, LexedAll, ShowAll;
    var xs := LexType(p.body);
    TrimmedEnds(xs);
    SolidAppend(Chars(p.lead), xs);
    SolidAppend(Chars(p.lead) + xs, Chars(p.trail));
    CharsShown(p.trail);
    if p.trail != "" { assert IsSpace(p.trail[|p.trail| - 1]); }
  }

  lemma {:induction false} BodyFree(p: Padded, n: Needle)
    requires NoTop(LexPadded(p), n)
    ensures NoTop(LexType(p.body), n)
  {
    hide NoTop, LexType;
    NoTopAppend(Chars(p.lead) + LexType(p.body), Chars(p.trail), n);
    NoTopAppend(Chars(p.lead), LexType(p.body), n);
  }

  lemma {:induction false} PaddedFree(p: Padded, n: Needle)
    requires AllSpace(p.lead) && AllSpace(p.trail) && NoTop(LexType(p.body), n) && IsNeedle(n)
    ensures NoTop(LexPadded(p), n)
  {
    hide NoTop, LexType, AllSpace;
    SpaceNoTop(p.lead, n);
    SpaceNoTop(p.trail, n);
    NoTopAppend(Chars(p.lead) + LexType(p.body), Chars(p.trail), n);
    NoTopAppend(Chars(p.lead), LexType(p.body), n);
  }

  lemma {:induction false} JoinedCons(p: Padded, rest: seq<Padded>, c: char)
    requires rest != []
    ensures JoinLex(LexAll([p] + rest), c) == LexPadded(p) + [Ch(c)] + JoinLex(LexAll(rest), c)
  {
    hide LexPadded;
    assert ([p] + rest)[1..] == rest;
    assert LexAll([p] + rest)[1..] == LexAll(rest);
  }

  lemma {:induction false} JoinedOne(p: Padded, c: char)
    ensures JoinLex(LexAll([p]), c) == LexPadded(p)
  {
    hide LexPadded;
  }

  lemma {:induction false} OneNoTop(x: Lex, n: Needle)
    ensures NoTop([x], n) <==> !Hits(x, n)
  {
    assert [x][0] == x;
  }

  lemma {:induction false} JoinedBack(ps: seq<Padded>, c: char, n: Needle)
    requires ps != [] && NoTop(JoinLex(LexAll(ps), c), n)
    ensures forall k :: 0 <= k < |ps| ==> NoTop(LexType(ps[k].body), n)
    ensures |ps| > 1 ==> !Hits(Ch(c), n)
    decreases |ps|
  {
    hide LexPadded, LexType, JoinLex, LexAll, NoTop, Hits;
    assert ps == [ps[0]] + ps[1..];
    if |ps| == 1 {
      assert ps == [ps[0]];
      JoinedOne(ps[0], c);
      BodyFree(ps[0], n);
    } else {
      JoinedCons(ps[0], ps[1..], c);
      NoTopAppend(LexPadded(ps[0]) + [Ch(c)], JoinLex(LexAll(ps[1..]), c), n);
      NoTopAppend(LexPadded(ps[0]), [Ch(c)], n);
      OneNoTop(Ch(c), n);
      JoinedBack(ps[1..], c, n);
      BodyFree(ps[0], n);
      forall k | 0 <= k < |ps| ensures NoTop(LexType(ps[k].body), n) {
        if k > 0 { assert ps[1..][k - 1] == ps[k]; }
      }
    }
  }

  lemma {:induction false} JoinedEnd(ps: seq<Padded>, c: char)
    requires ps != [] && AllOk(ps)
    ensures var xs, last := JoinLex(LexAll(ps), c), ps[|ps| - 1];
      && PaddedOk(last)
      && (SolidEnd(xs) <==> last.trail == "")
      && (last.trail == "" ==> (EndsInEquals(xs) <==> EndsInEquals(LexType(last.body))))
    decreases |ps|
  {
    hide LexPadded, LexType, JoinLex, LexAll, SolidStart, SolidEnd, EndsInEquals, Ok;
    assert ps == [ps[0]] + ps[1..];
    OkFramed(ps[0]);
    PaddedEnds(ps[0]);
    if |ps| == 1 {
      assert ps == [ps[0]];
      JoinedOne(ps[0], c);
    } else {
      var rest := JoinLex(LexAll(ps[1..]), c);
      JoinedEnd(ps[1..], c);
      JoinedCons(ps[0], ps[1..], c);
      SolidAppend(LexPadded(ps[0]) + [Ch(c)], rest);
      JoinedSolid(ps[1..], c);
    }
  }

  lemma {:induction false} JoinedSolid(ps: seq<Padded>, c: char)
    requires ps != [] && AllOk(ps)
    ensures JoinLex(LexAll(ps), c) != []
  {
    hide LexType, Ok;
    MemberEnds(ps[0].body);
    if |ps| > 1 { assert JoinLex(LexAll(ps), c) == LexAll(ps)[0] + [Ch(c)] + JoinLex(LexAll(ps)[1..], c); }
  }

  lemma {:induction false} JoinedStart(ps: seq<Padded>, c: char)
    requires ps != [] && AllOk(ps)
    ensures SolidStart(JoinLex(LexAll(ps), c)) <==> ps[0].lead == ""
  {
    hide LexPadded, LexType, JoinLex, LexAll, SolidStart, SolidEnd, EndsInEquals, Ok, SomeSolid;
    assert ps == [ps[0]] + ps[1..];
    PaddedStart(ps[0]);
    if |ps| == 1 {
      assert ps == [ps[0]];
      JoinedOne(ps[0], c);
    } else {
      JoinedCons(ps[0], ps[1..], c);
      SolidAppend(LexPadded(ps[0]), [Ch(c)]);
      SolidAppend(LexPadded(ps[0]) + [Ch(c)], JoinLex(LexAll(ps[1..]), c));
    }
  }

  lemma {:induction false} PaddedStart(p: Padded)
    requires PaddedOk(p)
    ensures LexPadded(p) != [] && (SolidStart(LexPadded(p)) <==> p.lead == "")
  {
    hide Ok, LexType, SomeSolid;
    var xs := LexType(p.body);
    MemberEnds(p.body);
    SolidAppend(Chars(p.lead), xs);
    SolidAppend(Chars(p.lead) + xs, Chars(p.trail));
    CharsShown(p.lead);
    if p.lead != "" { assert IsSpace(p.lead[0]); }
  }

  lemma {:induction false} SomeJoined(parts: seq<seq<Lex>>, c: char)
    requires |parts| >= 2 && c in ['|', '&']
    ensures SomeSolid(JoinLex(parts, c))
  {
    hide SomeSolid;
    assert !IsSpace('|') && !IsSpace('&');
    SolidAppend(parts[0], [Ch(c)]);
    SolidAppend(parts[0] + [Ch(c)], JoinLex(parts[1..], c));
    OneSolid(Ch(c));
  }

  lemma {:induction false} UnionIsSolid(t: Type)
    requires t.Union? && |t.members| >= 2
    ensures SomeSolid(LexType(t))
  {
    hide LexPadded, SomeSolid;
    SomeJoined(UnionParts(t), '|');
  }

  lemma {:induction false} UnionBack(t: Type, n: Needle)
    requires t.Union? && Ok(t) && NoTop(LexType(t), n)
    ensures !Hits(Ch('|'), n) && forall k :: 0 <= k < |t.members| ==> NoTop(LexType(t.members[k].body), n)
  {
    hide LexPadded, NoTop, Hits, LexAll;
    var rest := LexAll(t.members);
    if t.bar.Some? {
      var parts := [Chars(t.bar.value)] + rest;
      assert parts[1..] == rest;
      NoTopAppend(Chars(t.bar.value) + [Ch('|')], JoinLex(rest, '|'), n);
    } else {
      assert [] + rest == rest;
    }
    JoinedBack(t.members, '|', n);
  }

  lemma {:induction false} BodyIsOk(p: Padded)
    requires PaddedOk(p)
    ensures Ok(p.body)
  {
  }

  const EVERYTHING: seq<Needle> := [LIST, COLON, Arrow, BAR, AMPERSAND, QUESTION]

  // ---------- The needle of each constructor ----------

  /** Whatever binds looser than a flat text shows at the top level. */
  lemma {:induction false} TopShows(t: Type)
    requires Ok(t)
    ensures t.Function? ==> !NoTop(LexType(t), Arrow)
    ensures t.Labelled? || t.Conditional? ==> !NoTop(LexType(t), COLON)
    ensures t.Union? ==> !NoTop(LexType(t), BAR)
    ensures t.Intersection? ==> !NoTop(LexType(t), AMPERSAND)
    ensures t.List? ==> !Unparted(LexType(t))
  {
    hide PaddedOk, ItemsOk, AllOk, PartsOk, Free, AllFree, LexPadded, LexItems, LexAll, JoinLex, JoinList, NoTop,
      Hits, Unparted, SolidParts, SeparatorsOk, Trim, ShowAll;
    match t
    case Flat(_) =>
    case Intersection(members) => JoinShows(LexAll(members), '&', AMPERSAND);
    case Union(bar, members) => JoinShows(UnionParts(t), '|', BAR);
    case Function(params, result) => MiddleShows(LexItems(params), Fat, LexPadded(result), Arrow);
    case Labelled(name, value) => MiddleShows(LexItems(name), Ch(':'), LexPadded(value), COLON);
    case Conditional(check, yes, no) =>
      MiddleShows(LexPadded(yes), Ch(':'), LexPadded(no), COLON);
      NoTopAppend(LexPadded(check) + [Ch('?')], LexPadded(yes) + [Ch(':')] + LexPadded(no), COLON);
    case List(parts, separators) => ListShows(t);
  }

  lemma {:induction false} MarkHits(xs: seq<Lex>, k: nat, mark: char)
    requires k < |xs| && xs[k] == Ch(mark) && IsMark(mark)
    ensures !NoTop(xs, LIST)
  {
    assert Hits(xs[k], LIST);
  }

  lemma {:induction false} MiddleShows(xs: seq<Lex>, x: Lex, ys: seq<Lex>, n: Needle)
    requires Hits(x, n)
    ensures !NoTop(xs + [x] + ys, n)
  {
    assert (xs + [x] + ys)[|xs|] == x;
  }

  lemma {:induction false} JoinShows(parts: seq<seq<Lex>>, c: char, n: Needle)
    requires |parts| >= 2 && Hits(Ch(c), n)
    ensures !NoTop(JoinLex(parts, c), n)
  {
    MiddleShows(parts[0], Ch(c), JoinLex(parts[1..], c), n);
  }

  /** Something solid stands after the first separator of a list. */
  lemma {:induction false} ListShows(t: Type)
    requires t.List? && Ok(t)
    ensures !Unparted(LexType(t))
  {
    hide LexPadded, PartsOk, AllFree, Unparted, SolidParts, Trim, LexAll, JoinList, Print, NoTop, SomeSolid;
    var parts, separators := LexAll(t.parts), t.separators;
    LastIsSolid(t.parts);
    JoinSolid(parts[1..], separators[1..]);
    var first, rest := Chars(separators[0]), JoinList(parts[1..], separators[1..]);
    CharsShown(separators[0]);
    MarkHits(first, 0, separators[0][0]);
    NoTopAppend(parts[0], first, LIST);
    UnpartedAppend(parts[0] + first, rest);
    assert JoinList(parts, separators) == parts[0] + first + rest by { JoinTwo(parts, separators); }
  }

  lemma {:induction false} JoinTwo(parts: seq<seq<Lex>>, separators: seq<string>)
    requires |parts| >= 2 && separators != []
    ensures JoinList(parts, separators) == parts[0] + Chars(separators[0]) + JoinList(parts[1..], separators[1..])
  {
  }

  lemma {:induction false} JoinSolid(parts: seq<seq<Lex>>, separators: seq<string>)
    requires |parts| == |separators| + 1 && SomeSolid(parts[|parts| - 1])
    ensures SomeSolid(JoinList(parts, separators))
  {
    hide SomeSolid;
    if |parts| == 1 {
    } else {
      JoinSolid(parts[1..], separators[1..]);
      SolidAppend(parts[0] + Chars(separators[0]), JoinList(parts[1..], separators[1..]));
    }
  }

  lemma {:induction false} LexAllAt(ps: seq<Padded>, k: nat)
    requires k < |ps|
    ensures LexAll(ps)[k] == LexPadded(ps[k])
    decreases k
  {
    hide LexPadded;
    if k == 0 {
    } else {
      LexAllAt(ps[1..], k - 1);
    }
  }

  function Last(ps: seq<Padded>): Padded
    requires ps != []
  {
    ps[|ps| - 1]
  }

  lemma {:induction false} LastOk(ps: seq<Padded>)
    requires ps != [] && (AllOk(ps) || PartsOk(ps))
    ensures Ok(Last(ps).body)
    ensures AllOk(ps) ==> PaddedOk(Last(ps))
    ensures PartsOk(ps) ==> Last(ps).lead == "" && Last(ps).trail == ""
  {
    hide Ok, AllSpace, Trimmed;
    assert AllOk(ps) ==> PaddedOk(ps[0]) && AllOk(ps[1..]);
    assert PartsOk(ps) ==> Ok(ps[0].body) && PartsOk(ps[1..]);
    if |ps| == 1 {
      assert Last(ps) == ps[0];
    } else {
      LastOk(ps[1..]);
      assert Last(ps) == Last(ps[1..]);
    }
  }

  lemma {:induction false} PartText(p: Padded)
    requires p.lead == "" && p.trail == ""
    ensures LexPadded(p) == LexType(p.body)
  {
    hide LexType;
  }

  lemma {:induction false} LastIsSolid(ps: seq<Padded>)
    requires ps != [] && PartsOk(ps) && Trim(Print(Last(ps).body)) != ""
    ensures var parts := LexAll(ps); parts != [] && SomeSolid(parts[|parts| - 1])
  {
    hide Ok, LexType, LexPadded, LexAll, Trim, LexedAll, SomeSolid, ShowAll, PartsOk;
    LastOk(ps);
    LexAllAt(ps, |ps| - 1);
    PartText(Last(ps));
    OkLexed(Last(ps).body);
    ShownSolid(LexType(Last(ps).body));
    TrimIsEmpty(Print(Last(ps).body));
  }

  /** Only the last of several members may end in a separator. */
  lemma {:induction false} JoinUnparted(ps: seq<Padded>, c: char)
    requires ps != [] && c in ['|', '&']
    ensures Unparted(JoinLex(LexAll(ps), c)) <==> AllFree(ps[..|ps| - 1], [LIST]) && Unparted(LexPadded(Last(ps)))
    decreases |ps|
  {
    hide LexPadded, JoinLex, LexAll, NoTop, Unparted;
    assert ps == [ps[0]] + ps[1..];
    if |ps| == 1 {
      assert ps == [ps[0]];
      JoinedOne(ps[0], c);
    } else {
      JoinUnparted(ps[1..], c);
      JoinedCons(ps[0], ps[1..], c);
      assert !IsSpace('|') && !IsSpace('&');
      UnpartedAround(LexPadded(ps[0]), Ch(c), JoinLex(LexAll(ps[1..]), c));
      FrontFree(ps);
    }
  }

  lemma {:induction false} FrontFree(ps: seq<Padded>)
    requires |ps| >= 2
    ensures AllFree(ps[..|ps| - 1], [LIST]) <==> NoTop(LexPadded(ps[0]), LIST) && AllFree(ps[1..][..|ps| - 2], [LIST])
  {
    hide LexPadded, NoTop;
    var front, rest := ps[..|ps| - 1], ps[1..][..|ps| - 2];
    assert front == [ps[0]] + rest;
    if AllFree(front, [LIST]) {
      assert Free(LexPadded(front[0]), [LIST]) && LIST in [LIST];
      forall k | 0 <= k < |rest| ensures Free(LexPadded(rest[k]), [LIST]) { assert rest[k] == front[k + 1]; }
    }
    if NoTop(LexPadded(ps[0]), LIST) && AllFree(rest, [LIST]) {
      forall k | 0 <= k < |front| ensures Free(LexPadded(front[k]), [LIST]) {
        if k > 0 { assert front[k] == rest[k - 1]; }
      }
    }
  }

  lemma {:induction false} UnionShape(bar: Option<string>, ps: seq<Padded>)
    requires ps != []
    ensures LexType(Union(bar, ps)) == (if bar.Some? then Chars(bar.value) + [Ch('|')] else []) + JoinLex(LexAll(ps), '|')
  {
    hide LexPadded;
    var rest := LexAll(ps);
    if bar.Some? {
      assert ([Chars(bar.value)] + rest)[1..] == rest;
    } else {
      assert [] + rest == rest;
    }
  }

  lemma {:induction false} UnionUnparted(bar: Option<string>, ps: seq<Padded>)
    requires ps != [] && (bar.Some? ==> AllSpace(bar.value))
    ensures Unparted(LexType(Union(bar, ps))) <==> AllFree(ps[..|ps| - 1], [LIST]) && Unparted(LexPadded(Last(ps)))
  {
    hide LexPadded, JoinLex, LexAll, NoTop, Unparted, AllSpace, LexType;
    var rest := JoinLex(LexAll(ps), '|');
    UnionShape(bar, ps);
    JoinUnparted(ps, '|');
    if bar.Some? {
      assert !IsSpace('|');
      SpaceNoTop(bar.value, LIST);
      UnpartedAround(Chars(bar.value), Ch('|'), rest);
    } else {
      assert [] + rest == rest;
    }
  }

  /** No member ends in a separator. */
  predicate Unmarked(ps: seq<Padded>) { AllFree(ps, [LIST]) }

  lemma {:induction false} UnmarkedParts(ps: seq<Padded>)
    requires ps != [] && Unmarked(ps)
    ensures AllFree(ps[..|ps| - 1], [LIST]) && Unparted(LexPadded(Last(ps)))
  {
    hide LexPadded, NoTop;
    assert Free(LexPadded(ps[|ps| - 1]), [LIST]) && LIST in [LIST];
    FreeUnparted(LexPadded(Last(ps)));
    var front := ps[..|ps| - 1];
    forall k | 0 <= k < |front| ensures Free(LexPadded(front[k]), [LIST]) { assert front[k] == ps[k]; }
  }

  lemma {:induction false} UnmarkedFree(ps: seq<Padded>)
    ensures Unmarked(ps) && AllFree(ps, [COLON, Arrow, BAR]) <==> AllFree(ps, [LIST, COLON, Arrow, BAR])
  {
    hide LexPadded, NoTop;
    if AllFree(ps, [LIST, COLON, Arrow, BAR]) {
      forall k | 0 <= k < |ps| ensures Free(LexPadded(ps[k]), [LIST]) && Free(LexPadded(ps[k]), [COLON, Arrow, BAR]) {
        var needles := [LIST, COLON, Arrow, BAR];
        assert Free(LexPadded(ps[k]), needles);
        assert needles[0] == LIST && needles[1] == COLON && needles[2] == Arrow && needles[3] == BAR;
      }
    }
    if Unmarked(ps) && AllFree(ps, [COLON, Arrow, BAR]) {
      forall k | 0 <= k < |ps| ensures Free(LexPadded(ps[k]), [LIST, COLON, Arrow, BAR]) {
        BothFree(LexPadded(ps[k]));
      }
    }
  }

  lemma {:induction false} BothFree(xs: seq<Lex>)
    requires Free(xs, [LIST]) && Free(xs, [COLON, Arrow, BAR])
    ensures Free(xs, [LIST, COLON, Arrow, BAR])
  {
    hide NoTop;
    var some, others := [LIST], [COLON, Arrow, BAR];
    assert LIST in some && COLON in others && Arrow in others && BAR in others;
  }

  lemma {:induction false} GroupFree(open: char, inner: seq<Lex>, needles: seq<Needle>)
    ensures Free([Group(open, inner)], needles)
  {
  }
}
