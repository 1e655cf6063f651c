/** When the canonical tree of a type is again a tree of the grammar: sorting moves no separator into a union. */
module TypeCanonOk {
  import opened Strings
  import opened TypeText
  import opened TypeLexis
  import opened TypeGrammar
  import opened TypeCanonicity
  import opened TypeTokens
  import opened TypeShapes
  import opened TypeCanonTree
  import opened TypeCanonStands

  // ---------- White space after a separator ----------

  lemma {:induction false} PaddedUnparted(p: Padded)
    requires AllSpace(p.lead) && AllSpace(p.trail)
    ensures Unparted(LexPadded(p)) <==> Unparted(LexType(p.body))
  {
    hide LexType, Unparted, NoTop, AllSpace;
    var xs := LexType(p.body);
    SpaceUnparted(p.lead);
    SpaceUnparted(p.trail);
    UnpartedAppend(Chars(p.lead), xs);
    UnpartedAppend(Chars(p.lead) + xs, Chars(p.trail));
  }

  lemma {:induction false} SpaceUnparted(s: string)
    requires AllSpace(s)
    ensures NoTop(Chars(s), LIST) && Unparted(Chars(s)) && !SomeSolid(Chars(s))
  {
    SpaceNoTop(s, LIST);
    FreeUnparted(Chars(s));
    CharsShown(s);
    forall k | 0 <= k < |Chars(s)| ensures !SolidLex(Chars(s)[k]) { assert IsSpace(s[k]); }
  }

  lemma {:induction false} AlikeUnparted(xs: seq<Lex>, ys: seq<Lex>)
    requires AllAlike(xs, ys) && Unparted(xs)
    ensures Unparted(ys)
  {
    forall i, j | 0 <= i < j < |ys| && Hits(ys[i], LIST) ensures !SolidLex(ys[j]) {
      assert Alike(xs[i], ys[i]) && Alike(xs[j], ys[j]);
      assert Hits(xs[i], LIST);
    }
  }

  /** A part after which the separator of a list would be read is no list itself. */
  lemma {:induction false} BodyNoList(p: Padded)
    requires PaddedOk(p) && Unparted(LexPadded(p))
    ensures Unparted(LexType(p.body)) && !p.body.List?
  {
    hide Ok, LexType, LexPadded, Unparted, AllSpace, Trimmed;
    PaddedUnparted(p);
    TopShows(p.body);
  }

  // ---------- Parts ----------

  lemma {:induction false} PaddedCanonOk(p: Padded)
    requires PaddedOk(p) && Clean(p.body) && UnionsSettled(p.body)
    ensures PaddedOk(CanonPadded(p)) && StandsPadded(p, CanonPadded(p))
    decreases p, 1
  {
    hide LexType, LexPadded, Follows, Ok, LexedAll, Expect, Canon, Clean, UnionsSettled, AllSpace;
    BodyIsOk(p);
    CanonOk(p.body);
    CanonStands(p.body);
    PaddedStands(p, Canon(p.body));
  }

  lemma {:induction false} CanonKind(t: Type)
    ensures Canon(t).List? <==> t.List?
  {
  }

  lemma {:induction false} OkIsUnparted(t: Type)
    requires Ok(t) && !t.List?
    ensures Unparted(LexType(t))
  {
  }

  /** The same for a part that may be followed by a separator only. */
  lemma {:induction false} PartCanonOk(p: Padded)
    requires PaddedOk(p) && Clean(p.body) && UnionsSettled(p.body) && Unparted(LexPadded(p))
    ensures PaddedOk(CanonPadded(p)) && StandsPadded(p, CanonPadded(p)) && Unparted(LexPadded(CanonPadded(p)))
    decreases p, 2
  {
    hide LexType, LexPadded, Ok, Canon, Clean, UnionsSettled, AllSpace, Unparted, StandsPadded, Trimmed;
    PaddedCanonOk(p);
    BodyNoList(p);
    CanonKind(p.body);
    OkIsUnparted(Canon(p.body));
    PaddedUnparted(CanonPadded(p));
  }

  lemma {:induction false} ItemsCanonOk(items: seq<Item>)
    requires ItemsOk(items) && CleanItems(items) && ItemsSettled(items)
    ensures ItemsOk(CanonItems(items))
    decreases items, 0
  {
    hide ItemOk, CanonItem, ItemSettled, CleanItem;
    if items == [] {
    } else {
      ItemCanonOk(items[0]);
      ItemsCanonOk(items[1..]);
      assert CanonItems(items)[1..] == CanonItems(items[1..]);
    }
  }

  lemma {:induction false} ItemCanonOk(it: Item)
    requires ItemOk(it) && CleanItem(it) && ItemSettled(it)
    ensures ItemOk(CanonItem(it))
    decreases it, 1
  {
    hide StandsPadded, PaddedOk, LexPadded, EndsInEquals, Clean, UnionsSettled, AllSpace;
    match it
    case Bracket(open, inner) =>
      PaddedCanonOk(inner);
      if open == '<' { EndStays(inner, CanonPadded(inner)); }
    case Hollow(open, space) => SpaceAppend(space, space);
    case _ =>
  }

  lemma {:induction false} ItemsFree(items: seq<Item>, needles: seq<Needle>)
    requires ItemsOk(items) && CleanItems(items) && Free(LexItems(items), needles) && Needles(needles)
    ensures AllAlike(LexItems(items), LexItems(CanonItems(items))) && Free(LexItems(CanonItems(items)), needles)
  {
    hide ItemsOk, CleanItems, NoTop, LexedAll, AllAlike, IsNeedle, Follows;
    ItemsStand(items);
    AlikeFollows(LexItems(items), LexItems(CanonItems(items)));
    FreeStays(LexItems(items), LexItems(CanonItems(items)), needles);
  }

  // ---------- The canonical tree ----------

  /** When no separator moves, the normalised text is printed by a tree of the grammar. */
  lemma {:induction false} CanonOk(t: Type)
    requires Ok(t) && Clean(t) && UnionsSettled(t)
    ensures Ok(Canon(t))
    decreases t, 3
  {
    match t
    case Flat(_) => FlatCanonOk(t);
    case Intersection(_) => IntersectionCanonOk(t);
    case Union(_, _) => UnionCanonOk(t);
    case Function(_, _) => FunctionCanonOk(t);
    case Labelled(_, _) => LabelCanonOk(t);
    case Conditional(_, _, _) => ConditionalCanonOk(t);
    case List(_, _) => ListCanonOk(t);
  }

  lemma {:induction false} FlatCanonOk(t: Type)
    requires t.Flat? && Ok(t) && Clean(t) && UnionsSettled(t)
    ensures Ok(Canon(t))
    decreases t, 2
  {
    hide NoTop, AllAlike, ItemsOk, CleanItems, ItemsSettled, Unparted;
    var needles := [COLON, Arrow, BAR, AMPERSAND];
    NeedlesAre(needles);
    ItemsCanonOk(t.items);
    ItemsFree(t.items, needles);
    AlikeUnparted(LexItems(t.items), LexItems(CanonItems(t.items)));
  }

  /** Items before a solid token hold no separator, and their canonical ones neither. */
  lemma {:induction false} HeadCanonOk(items: seq<Item>, x: Lex, ys: seq<Lex>, zs: seq<Lex>)
    requires ItemsOk(items) && CleanItems(items) && ItemsSettled(items) && x in [Fat, Ch(':')]
    requires Unparted(LexItems(items) + [x] + ys) && Unparted(zs)
    ensures ItemsOk(CanonItems(items)) && Unparted(LexItems(CanonItems(items)) + [x] + zs)
    decreases items, 1
  {
    hide NoTop, AllAlike, ItemsOk, CleanItems, ItemsSettled, Unparted;
    assert !IsSpace(':');
    UnpartedAround(LexItems(items), x, ys);
    ListNeedle();
    assert Free(LexItems(items), [LIST]);
    ItemsFree(items, [LIST]);
    assert LIST in [LIST];
    UnpartedAround(LexItems(CanonItems(items)), x, zs);
    ItemsCanonOk(items);
  }

  lemma {:induction false} ListNeedle()
    ensures IsNeedle(LIST) && Needles([LIST]) && Needles([QUESTION])
  {
  }

  lemma {:induction false} FunctionCanonOk(t: Type)
    requires t.Function? && Ok(t) && Clean(t) && UnionsSettled(t)
    ensures Ok(Canon(t))
    decreases t, 2
  {
    hide NoTop, AllAlike, ItemsOk, CleanItems, ItemsSettled, Unparted, PaddedOk, LexPadded, LexItems, Follows;
    var result := CanonPadded(t.result);
    NeedlesAre([COLON, Arrow]);
    NeedlesAre([COLON]);
    assert !Hits(Fat, LIST) && SolidLex(Fat);
    UnpartedAround(LexItems(t.params), Fat, LexPadded(t.result));
    PartCanonOk(t.result);
    HeadCanonOk(t.params, Fat, LexPadded(t.result), LexPadded(result));
    ItemsFree(t.params, [COLON, Arrow]);
    FreeStays(LexPadded(t.result), LexPadded(result), [COLON]);
  }

  lemma {:induction false} LabelStays(name: seq<Lex>, name': seq<Lex>, value: seq<Lex>, value': seq<Lex>)
    requires AllAlike(name, name') && Follows(value, value') && IsLabel(name, value)
    ensures IsLabel(name', value')
  {
    hide SolidStart, SolidEnd, SomeSolid;
    if NoTop(name, QUESTION) && NoTop(value, QUESTION) {
      AlikeFollows(name, name');
      assert IsNeedle(QUESTION);
    } else {
      var n := |name| - 1;
      assert Alike(name[n], name'[n]);
      forall k | 0 <= k < |name'[..n]| ensures !Hits(name'[..n][k], QUESTION) {
        assert !Hits(name[..n][k], QUESTION) && Alike(name[k], name'[k]);
      }
    }
  }

  lemma {:induction false} LabelCanonOk(t: Type)
    requires t.Labelled? && Ok(t) && Clean(t) && UnionsSettled(t)
    ensures Ok(Canon(t))
    decreases t, 2
  {
    hide NoTop, AllAlike, ItemsOk, CleanItems, ItemsSettled, Unparted, PaddedOk, LexPadded, LexItems, Follows, IsLabel;
    var value := CanonPadded(t.value);
    NeedlesAre([COLON]);
    assert !IsSpace(':');
    UnpartedAround(LexItems(t.name), Ch(':'), LexPadded(t.value));
    PartCanonOk(t.value);
    HeadCanonOk(t.name, Ch(':'), LexPadded(t.value), LexPadded(value));
    ItemsFree(t.name, [COLON]);
    LabelStays(LexItems(t.name), LexItems(CanonItems(t.name)), LexPadded(t.value), LexPadded(value));
  }

  lemma {:induction false} ConditionalUnparted(check: seq<Lex>, yes: seq<Lex>, no: seq<Lex>)
    ensures Unparted(check + [Ch('?')] + (yes + [Ch(':')] + no)) <==> NoTop(check, LIST) && NoTop(yes, LIST) && Unparted(no)
  {
    hide Unparted, NoTop;
    assert !IsSpace('?') && !IsSpace(':');
    UnpartedAround(check, Ch('?'), yes + [Ch(':')] + no);
    UnpartedAround(yes, Ch(':'), no);
  }

  /** A part in which no separator stands. */
  lemma {:induction false} FreePartCanonOk(p: Padded)
    requires PaddedOk(p) && Clean(p.body) && UnionsSettled(p.body) && NoTop(LexPadded(p), LIST)
    ensures PaddedOk(CanonPadded(p)) && StandsPadded(p, CanonPadded(p)) && NoTop(LexPadded(CanonPadded(p)), LIST)
    decreases p, 3
  {
    hide LexPadded, PaddedOk, Clean, UnionsSettled, NoTop, IsNeedle, SomeSolid, SolidStart, SolidEnd, EndsInEquals;
    PaddedCanonOk(p);
    ListNeedle();
  }

  lemma {:induction false} ConditionalCanonOk(t: Type)
    requires t.Conditional? && Ok(t) && Clean(t) && UnionsSettled(t)
    ensures Ok(Canon(t))
    decreases t, 2
  {
    hide NoTop, PaddedOk, Follows, LexPadded, Unparted;
    NeedlesAre([COLON]);
    ListNeedle();
    ConditionalUnparted(LexPadded(t.check), LexPadded(t.yes), LexPadded(t.no));
    FreePartCanonOk(t.check);
    FreePartCanonOk(t.yes);
    PartCanonOk(t.no);
    FreeStays(LexPadded(t.check), LexPadded(CanonPadded(t.check)), [QUESTION]);
    FreeStays(LexPadded(t.yes), LexPadded(CanonPadded(t.yes)), [COLON]);
    ConditionalUnparted(LexPadded(CanonPadded(t.check)), LexPadded(CanonPadded(t.yes)), LexPadded(CanonPadded(t.no)));
  }

  // ---------- Members ----------

  lemma {:induction false} MembersCanonOk(ps: seq<Padded>)
    requires AllOk(ps) && CleanAll(ps) && AllSettled(ps)
    ensures forall k :: 0 <= k < |ps| ==> Ok(CanonBodies(ps)[k])
    decreases ps, 0
  {
    hide Ok, Clean, UnionsSettled, Canon;
    if ps == [] {
    } else {
      BodyIsOk(ps[0]);
      CanonOk(ps[0].body);
      MembersCanonOk(ps[1..]);
      var ts := CanonBodies(ps);
      assert ts[1..] == CanonBodies(ps[1..]);
      forall k | 0 <= k < |ps| ensures Ok(ts[k]) {
        if k > 0 { assert ts[k] == ts[1..][k - 1]; }
      }
    }
  }

  lemma {:induction false} SpacedOk(ts: seq<Type>, first: bool)
    requires AllFramed(Spaced(ts, first)) && forall k :: 0 <= k < |ts| ==> Ok(ts[k])
    ensures AllOk(Spaced(ts, first))
    decreases |ts|
  {
    hide Ok, AllSpace, LexedAll, LexType, ShowAll;
    if ts == [] {
    } else {
      var r := Spaced(ts, first);
      SpacedCons(ts, first);
      assert r[1..] == Spaced(ts[1..], false) && Framed(r[0]);
      forall k | 0 <= k < |r[1..]| ensures Framed(r[1..][k]) { assert r[1..][k] == r[k + 1]; }
      SpacedOk(ts[1..], false);
    }
  }

  lemma {:induction false} SpacedLast(ts: seq<Type>, first: bool)
    requires ts != []
    ensures Last(Spaced(ts, first)).body == ts[|ts| - 1]
    decreases |ts|
  {
    SpacedCons(ts, first);
    if |ts| == 1 {
    } else {
      SpacedLast(ts[1..], false);
    }
  }

  ghost predicate FrontUncut(ts: seq<Type>) { forall k :: 0 <= k < |ts| - 1 ==> NoTop(LexType(ts[k]), LIST) }

  lemma {:induction false} FrontStands(ps: seq<Padded>, ts: seq<Type>)
    requires ps != [] && AllStand(ps, ts) && AllFree(ps[..|ps| - 1], [LIST])
    ensures FrontUncut(ts)
  {
    hide LexPadded, NoTop, LexType, LexedAll, ShowAll, IsNeedle, Expect, SolidStart, SolidEnd, EndsInEquals, SomeSolid;
    ListNeedle();
    forall k | 0 <= k < |ts| - 1 ensures NoTop(LexType(ts[k]), LIST) {
      assert Free(LexPadded(ps[..|ps| - 1][k]), [LIST]) && LIST in [LIST];
      BodyFree(ps[k], LIST);
      assert Stands(ps[k].body, ts[k]);
    }
  }

  /** The greatest member stays last, and the others stay before it. */
  lemma {:induction false} GreatestLast(ts: seq<Type>)
    requires ts != [] && forall k :: 0 <= k < |ts| ==> Leq(Print(ts[k]), Print(ts[|ts| - 1]))
    ensures var sorted := SortTypes(ts);
      sorted[|ts| - 1] == ts[|ts| - 1] && forall k :: 0 <= k < |ts| - 1 ==> sorted[k] in ts[..|ts| - 1]
  {
    hide Leq, Print, InsertType, SortTypes;
    var rest := ts[1..];
    SortStep(ts);
    if |ts| == 1 {
      InsertLast(ts[0], [], ts[0]);
    } else {
      forall k | 0 <= k < |rest| ensures Leq(Print(rest[k]), Print(rest[|rest| - 1])) { assert rest[k] == ts[k + 1]; }
      GreatestLast(rest);
      var front := SortTypes(rest)[..|rest| - 1];
      InsertLast(ts[0], front, ts[|ts| - 1]);
      assert SortTypes(rest) == front + [ts[|ts| - 1]];
      var others := ts[..|ts| - 1];
      forall k | 0 <= k < |ts| - 1 ensures SortTypes(ts)[k] in others {
        if SortTypes(ts)[k] == ts[0] {
          assert others[0] == ts[0];
        } else {
          var j :| 0 <= j < |front| && front[j] == SortTypes(ts)[k];
          var i :| 0 <= i < |rest| - 1 && rest[..|rest| - 1][i] == SortTypes(rest)[j];
          assert others[i + 1] == rest[i];
        }
      }
    }
  }

  lemma {:induction false} SortStep(ts: seq<Type>)
    requires ts != []
    ensures SortTypes(ts) == InsertType(ts[0], SortTypes(ts[1..])) && (|ts| == 1 ==> SortTypes(ts[1..]) == [])
  {
    hide InsertType;
  }

  lemma {:induction false} InsertLast(t: Type, front: seq<Type>, last: Type)
    requires Leq(Print(t), Print(last))
    ensures InsertType(t, []) == [t]
    ensures var r := InsertType(t, front + [last]);
      r[|front| + 1] == last && forall k :: 0 <= k <= |front| ==> r[k] == t || r[k] in front
  {
    hide Leq, Print;
    var ts := front + [last];
    var r := InsertType(t, ts);
    if front == [] || Leq(Print(t), Print(ts[0])) {
      assert r == ([t] + front) + [last];
    } else {
      InsertLast(t, front[1..], last);
      assert ts[1..] == front[1..] + [last];
      var rest := InsertType(t, ts[1..]);
      forall k | 0 <= k <= |front| ensures r[k] == t || r[k] in front {
        if k > 0 { assert r[k] == rest[k - 1]; }
      }
    }
  }

  /** Sorting leaves at most the last member with a separator. */
  lemma {:induction false} SortedFront(ps: seq<Padded>, ts: seq<Type>)
    requires ps != [] && AllStand(ps, ts) && MarkStays(ps) && AllFree(ps[..|ps| - 1], [LIST]) && ExpectBodies(ps) == Prints(ts)
    ensures FrontUncut(SortTypes(ts))
  {
    hide LexType, NoTop, Leq, Print, Expect, SortTypes, LexPadded, LexedAll, ShowAll, IsNeedle, SolidStart, SolidEnd, EndsInEquals, SomeSolid,
      Prints, ExpectBodies;
    var sorted, n := SortTypes(ts), |ts| - 1;
    ListNeedle();
    FrontStands(ps, ts);
    if Unmarked(ps) {
      forall k | 0 <= k < n ensures NoTop(LexType(sorted[k]), LIST) {
        var j := IndexIn(ts, sorted, k);
        assert Free(LexPadded(ps[j]), [LIST]) && LIST in [LIST];
        BodyFree(ps[j], LIST);
        assert Stands(ps[j].body, ts[j]);
      }
    } else {
      forall k | 0 <= k < |ts| ensures Leq(Print(ts[k]), Print(ts[n])) {
        assert Prints(ts)[k] == Print(ts[k]) && Prints(ts)[n] == Print(ts[n]);
        BodyExpected(ps, k);
        BodyExpected(ps, n);
      }
      GreatestLast(ts);
      forall k | 0 <= k < n ensures NoTop(LexType(sorted[k]), LIST) {
        var j :| 0 <= j < n && ts[..n][j] == sorted[k];
      }
    }
  }

  lemma {:induction false} BodyExpected(ps: seq<Padded>, k: nat)
    requires k < |ps|
    ensures ExpectBodies(ps)[k] == Expect(ps[k].body)
    decreases k
  {
    hide Expect;
    if k == 0 {
    } else {
      BodyExpected(ps[1..], k - 1);
    }
  }

  lemma {:induction false} UnionCanonOk(t: Type)
    requires t.Union? && Ok(t) && Clean(t) && UnionsSettled(t)
    ensures Ok(Canon(t))
    decreases t, 2
  {
    hide AllOk, AllFree, CleanAll, AllSettled, MarkStays, AreMembers, Spaced, SortTypes, LexType, ExpectBodies, Prints, AllStand,
      CanonBodies, Unparted, NoneEndsInEquals, Join, Sort, Needles, Expect, AllFramed, FrontUncut;
    var ps, needles := t.members, [COLON, Arrow, BAR];
    UnionFacts(t);
    NeedlesAre(needles);
    MembersStand(ps, needles);
    MembersCanonOk(ps);
    var ts := CanonBodies(ps);
    var sorted := SortTypes(ts);
    SortedMembers(ts, needles);
    SortedOk(ts);
    SpacedFramed(sorted, true, needles);
    SpacedOk(sorted, true);
    UnionUnparted(t.bar, ps);
    SortedFront(ps, ts);
    LastUnparted(ps, sorted);
    SpacedUnparted(sorted);
    UnionUnparted(None, Spaced(sorted, true));
  }

  /** No member is a list: a separator inside one would stand before a bar. */
  lemma {:induction false} LastUnparted(ps: seq<Padded>, sorted: seq<Type>)
    requires ps != [] && AllOk(ps) && AllFree(ps[..|ps| - 1], [LIST]) && Unparted(LexPadded(Last(ps))) && sorted == SortTypes(CanonBodies(ps))
    requires forall k :: 0 <= k < |sorted| ==> Ok(sorted[k])
    ensures forall k :: 0 <= k < |sorted| ==> Unparted(LexType(sorted[k]))
  {
    hide LexType, LexPadded, Unparted, Ok, Canon, SortTypes, AllOk, PaddedOk, NoTop;
    forall k | 0 <= k < |sorted| ensures Unparted(LexType(sorted[k])) {
      var j := IndexIn(CanonBodies(ps), sorted, k);
      MemberUnparted(ps, j);
      EachOk(ps, j);
      BodyNoList(ps[j]);
      CanonAt(ps, j);
      CanonKind(ps[j].body);
      OkIsUnparted(sorted[k]);
    }
  }

  lemma {:induction false} MemberUnparted(ps: seq<Padded>, k: nat)
    requires k < |ps| && AllFree(ps[..|ps| - 1], [LIST]) && Unparted(LexPadded(Last(ps)))
    ensures Unparted(LexPadded(ps[k]))
  {
    hide LexPadded, Unparted, NoTop;
    if k < |ps| - 1 {
      assert ps[..|ps| - 1][k] == ps[k] && Free(LexPadded(ps[..|ps| - 1][k]), [LIST]) && LIST in [LIST];
      FreeUnparted(LexPadded(ps[k]));
    }
  }

  lemma {:induction false} EachOk(ps: seq<Padded>, k: nat)
    requires AllOk(ps) && k < |ps|
    ensures PaddedOk(ps[k])
  {
    hide PaddedOk;
    if k > 0 { EachOk(ps[1..], k - 1); }
  }

  lemma {:induction false} SortedOk(ts: seq<Type>)
    requires forall k :: 0 <= k < |ts| ==> Ok(ts[k])
    ensures forall k :: 0 <= k < |ts| ==> Ok(SortTypes(ts)[k])
  {
    hide Ok, SortTypes;
    var sorted := SortTypes(ts);
    forall k | 0 <= k < |sorted| ensures Ok(sorted[k]) { var j := IndexIn(ts, sorted, k); }
  }

  lemma {:induction false} SpacedAt(ts: seq<Type>, first: bool, k: nat)
    requires k < |ts|
    ensures Spaced(ts, first)[k].body == ts[k]
    decreases k
  {
    SpacedCons(ts, first);
    if k == 0 {
    } else {
      SpacedAt(ts[1..], false, k - 1);
    }
  }

  /** Members of which only the last may end in a separator. */
  lemma {:induction false} SpacedUnparted(ts: seq<Type>)
    requires ts != [] && FrontUncut(ts) && Unparted(LexType(ts[|ts| - 1])) && AllFramed(Spaced(ts, true))
    ensures AllFree(Spaced(ts, true)[..|ts| - 1], [LIST]) && Unparted(LexPadded(Last(Spaced(ts, true))))
  {
    hide LexPadded, NoTop, Unparted, LexType, Spaced, LexedAll, ShowAll, AllSpace, IsNeedle;
    var qs, n := Spaced(ts, true), |ts| - 1;
    ListNeedle();
    forall k | 0 <= k < |qs[..n]| ensures Free(LexPadded(qs[..n][k]), [LIST]) {
      SpacedAt(ts, true, k);
      assert Framed(qs[k]);
      PaddedFree(qs[k], LIST);
    }
    SpacedAt(ts, true, n);
    assert Framed(qs[n]);
    PaddedUnparted(qs[n]);
  }

  lemma {:induction false} IntersectionCanonOk(t: Type)
    requires t.Intersection? && Ok(t) && Clean(t) && UnionsSettled(t)
    ensures Ok(Canon(t))
    decreases t, 2
  {
    hide AllOk, AllFree, CleanAll, AllSettled, AreMembers, Spaced, LexType, ExpectBodies, Prints, AllStand, CanonBodies, Unparted, Join,
      Needles, Expect, AllFramed, JoinLex, LexAll, LexPadded, PaddedOk;
    var ps, needles := t.members, [COLON, Arrow, BAR, AMPERSAND];
    IntersectionFacts(t);
    NeedlesAre(needles);
    MembersStand(ps, needles);
    MembersCanonOk(ps);
    var ts := CanonBodies(ps);
    SpacedFramed(ts, true, needles);
    SpacedOk(ts, true);
    PlainIntersection(ps);
    JoinUnparted(ps, '&');
    LastOk(ps);
    BodyNoList(Last(ps));
    CanonAt(ps, |ps| - 1);
    CanonKind(Last(ps).body);
    OkIsUnparted(ts[|ts| - 1]);
    FrontStands(ps, ts);
    SpacedUnparted(ts);
    JoinUnparted(Spaced(ts, true), '&');
    PlainIntersection(Spaced(ts, true));
  }

  lemma {:induction false} CanonAt(ps: seq<Padded>, k: nat)
    requires k < |ps|
    ensures CanonBodies(ps)[k] == Canon(ps[k].body) && CanonParts(ps)[k] == CanonPadded(ps[k])
    decreases k
  {
    hide Canon;
    if k == 0 {
    } else {
      CanonAt(ps[1..], k - 1);
    }
  }

  // ---------- Lists ----------

  lemma {:induction false} SolidPartsStay(ps: seq<Padded>, qs: seq<Padded>)
    requires PartsFollow(ps, qs) && SolidParts(LexAll(ps))
    ensures SolidParts(LexAll(qs))
    decreases |ps|
  {
    hide LexPadded, Follows, LexedAll, StartsSolid, ShowAll, Trim;
    if ps == [] {
    } else {
      assert LexAll(ps)[1..] == LexAll(ps[1..]) && LexAll(qs)[1..] == LexAll(qs[1..]);
      FollowTail(ps, qs);
      SolidPartsStay(ps[1..], qs[1..]);
      FollowsText(LexPadded(ps[0]), LexPadded(qs[0]));
    }
  }

  lemma {:induction false} PartsCanonOk(ps: seq<Padded>)
    requires PartsOk(ps) && CleanAll(ps) && AllSettled(ps)
    ensures PartsOk(CanonParts(ps))
    decreases ps, 0
  {
    hide Ok, Clean, UnionsSettled, Canon;
    if ps == [] {
    } else {
      CanonOk(ps[0].body);
      PartsCanonOk(ps[1..]);
      assert CanonParts(ps)[1..] == CanonParts(ps[1..]);
    }
  }

  /** Other parts in the place of a list's parts. */
  lemma {:induction false} ListIsOk(t: Type, qs: seq<Padded>)
    requires t.List? && Ok(t) && PartsFollow(t.parts, qs) && PartsOk(qs) && Unparted(LexPadded(Last(qs)))
    ensures Ok(List(qs, t.separators))
  {
    hide LexPadded, Follows, LexedAll, LexType, Trim, ShowAll, NoTop, IsNeedle, SolidParts, PartsOk, SeparatorsOk, Unparted;
    var ps, last := t.parts, |qs| - 1;
    ListNeedle();
    forall k | 0 <= k < |qs[..last]| ensures Free(LexPadded(qs[..last][k]), [LIST]) {
      assert Free(LexPadded(ps[..last][k]), [LIST]) && ps[..last][k] == ps[k] && qs[..last][k] == qs[k];
      FreeStays(LexPadded(ps[k]), LexPadded(qs[k]), [LIST]);
    }
    FollowTail(ps, qs);
    SolidPartsStay(ps[1..], qs[1..]);
    LastOk(ps);
    LastOk(qs);
    PartText(ps[last]);
    PartText(qs[last]);
    FollowsText(LexPadded(ps[last]), LexPadded(qs[last]));
  }

  lemma {:induction false} ListLast(t: Type)
    requires t.List? && Ok(t)
    ensures var last := Last(t.parts);
      Ok(last.body) && last.lead == "" && last.trail == "" && LexPadded(last) == LexType(last.body) && Unparted(LexType(last.body)) && !last.body.List?
  {
    hide LexType, LexPadded, SeparatorsOk, SolidParts, NoTop, PartsOk, LexAll, Trim, Unparted, Print;
    LastOk(t.parts);
    PartText(Last(t.parts));
    TopShows(Last(t.parts).body);
  }

  lemma {:induction false} ListCanonOk(t: Type)
    requires t.List? && Ok(t) && Clean(t) && UnionsSettled(t)
    ensures Ok(Canon(t))
    decreases t, 2
  {
    hide LexPadded, Follows, LexedAll, PartsOk, CleanAll, PartsFollow, AllSettled, Ok, CanonParts, LexType, Unparted, LexedParts, ExpectBodies,
      JoinList, LexAll, SeparatorsOk, Rejoin, Clean, Expect;
    var ps, qs := t.parts, CanonParts(t.parts);
    ListFacts(t);
    PartsStand(ps);
    PartsCanonOk(ps);
    ListLast(t);
    CanonAt(ps, |ps| - 1);
    CanonKind(Last(ps).body);
    LastOk(qs);
    OkIsUnparted(Last(qs).body);
    PartText(Last(qs));
    CanonList(t);
    ListIsOk(t, qs);
  }

  lemma {:induction false} CanonList(t: Type)
    requires t.List?
    ensures Canon(t) == List(CanonParts(t.parts), t.separators) && (Clean(t) ==> CleanAll(t.parts)) && (UnionsSettled(t) ==> AllSettled(t.parts))
  {
    hide CanonParts, CleanAll, AllSettled;
  }
}
