/** A separator, or other text, after a type: when it is kept apart from the type, and when the order of
    union members shows through it, packages/analyzer-typescript/src/type-text.ts. */
module TypeSeparators {
  import opened Strings
  import opened TypeText
  import opened TypeLexis
  import opened TypeGrammar
  import opened TypeTokens
  import opened TypeShapes
  import opened TypeTheorems
  import opened TypeCanonTree
  import opened TypeCanonOk
  import opened TypeRecovered
  import opened TypeContexts
  import opened TypeTails

  // ---------- No union at the end ----------

  /** The type that a text printed after the tree is glued to. */
  function RightEnd(t: Type): Type
    decreases t, 0
  {
    match t
    case Function(_, result) => RightEnd(result.body)
    case Labelled(_, value) => RightEnd(value.body)
    case Conditional(_, _, no) => RightEnd(no.body)
    case List(parts, _) => if parts == [] then t else RightEnd(parts[|parts| - 1].body)
    case _ => t
  }

  /** White space before the tail that normalisation drops when there is no tail: it is padding of the
      last member of an intersection. */
  function PadBefore(t: Type): string
    decreases t
  {
    match t
    case Intersection(members) => if members == [] then "" else Last(members).trail
    case List(parts, _) => if parts == [] then "" else PadBefore(Last(parts).body)
    case _ => ""
  }

  /** White space after the tail, which is dropped as padding of a last intersection member. */
  function PadAfter(t: Type, after: string): string
    decreases t
  {
    match t
    case Intersection(_) => ""
    case List(parts, _) => if parts == [] then "" else PadAfter(Last(parts).body, after)
    case _ => after
  }

  function TailText(t: Type, e: Tail): string { PadBefore(t) + e.space + ExpectItems(e.items) + PadAfter(t, e.after) }

  lemma {:induction false} ExpectLast(ps: seq<Padded>, q: Padded)
    requires ps != []
    ensures ExpectBodies(WithLast(ps, q)) == ExpectBodies(ps[..|ps| - 1]) + [Expect(q.body)]
    ensures ExpectBodies(ps) == ExpectBodies(ps[..|ps| - 1]) + [Expect(Last(ps).body)]
  {
    hide Expect, ExpectBodies;
    var front := ps[..|ps| - 1];
    assert ps == front + [Last(ps)];
    BodiesAround(front, q, []);
    BodiesAround(front, Last(ps), []);
    assert front + [q] + [] == front + [q] && front + [Last(ps)] + [] == front + [Last(ps)];
    NoBodies();
  }

  lemma {:induction false} NoBodies()
    ensures ExpectBodies([]) == []
  {
  }

  lemma {:induction false} JoinLonger(front: seq<string>, x: string, z: string, sep: string)
    ensures Join(front + [x + z], sep) == Join(front + [x], sep) + z
  {
    if front == [] {
      assert front + [x + z] == [x + z] && front + [x] == [x];
    } else {
      JoinLonger(front[1..], x, z, sep);
      assert (front + [x + z])[1..] == front[1..] + [x + z] && (front + [x])[1..] == front[1..] + [x];
    }
  }

  lemma {:induction false} RejoinLonger(front: seq<string>, x: string, z: string, separators: seq<string>)
    requires |separators| == |front|
    ensures Rejoin(front + [x + z], separators) == Rejoin(front + [x], separators) + z
  {
    if front == [] {
      assert front + [x + z] == [x + z] && front + [x] == [x];
    } else {
      RejoinLonger(front[1..], x, z, separators[1..]);
      assert (front + [x + z])[1..] == front[1..] + [x + z] && (front + [x])[1..] == front[1..] + [x];
    }
  }

  lemma {:induction false} NoPadAfter(t: Type)
    ensures PadAfter(t, "") == ""
    decreases t
  {
    match t
    case List(parts, _) => if parts != [] { NoPadAfter(Last(parts).body); }
    case _ =>
  }

  lemma {:induction false} NoPadBefore(t: Type)
    requires Ok(t) && SolidEnd(LexType(t))
    ensures PadBefore(t) == ""
    decreases t
  {
    hide AllOk, AllFree, LexAll, JoinLex, SolidEnd, EndsInEquals, Unparted, PartsOk, SeparatorsOk, SolidParts, Trim, LexType, ShowAll;
    match t
    case Intersection(members) => JoinEndsSolid(t);
    case List(parts, _) =>
      ListLast(t);
      ListEndsSolid(t);
      NoPadBefore(Last(parts).body);
    case _ =>
  }

  lemma {:induction false} JoinEndsSolid(t: Type)
    requires t.Intersection? && Ok(t) && SolidEnd(LexType(t))
    ensures Last(t.members).trail == ""
  {
    hide AllOk, AllFree, LexAll, JoinLex, SolidEnd, EndsInEquals, Unparted;
    JoinedEnd(t.members, '&');
  }

  lemma {:induction false} LastEndsSolid(parts: seq<seq<Lex>>, separators: seq<string>)
    requires |parts| == |separators| + 1 && SomeSolid(parts[|parts| - 1]) && SolidEnd(JoinList(parts, separators))
    ensures SolidEnd(parts[|parts| - 1])
  {
    hide SomeSolid, SolidEnd;
    if |parts| == 1 {
    } else {
      JoinTwo(parts, separators);
      SolidAppend(parts[0] + Chars(separators[0]), JoinList(parts[1..], separators[1..]));
      JoinSolid(parts[1..], separators[1..]);
      SomeNotEmpty(JoinList(parts[1..], separators[1..]));
      LastEndsSolid(parts[1..], separators[1..]);
    }
  }

  lemma {:induction false} SomeNotEmpty(xs: seq<Lex>)
    requires SomeSolid(xs)
    ensures xs != []
  {
  }

  lemma {:induction false} ListEndsSolid(t: Type)
    requires t.List? && Ok(t) && SolidEnd(LexType(t))
    ensures t.parts != [] && SolidEnd(LexPadded(Last(t.parts)))
  {
    hide LexPadded, PartsOk, AllFree, Unparted, SolidParts, SeparatorsOk, Trim, LexAll, JoinList, Print, SomeSolid, SolidEnd;
    LastIsSolid(t.parts);
    LastEndsSolid(LexAll(t.parts), t.separators);
    LexAllAt(t.parts, |t.parts| - 1);
  }

  /** A part in a place without separators, and the tail after it. */
  lemma {:induction false} PartTailKept(p: Padded, e: Tail)
    requires PaddedOk(p) && NoTop(LexPadded(p), LIST) && !RightEnd(p.body).Union?
    ensures Expect(AddTail(p.body, e.Inside(p.trail))) == Expect(p.body) + (p.trail + e.space + ExpectItems(e.items))
    ensures ExpectPadded(TailPadded(p, e)) == ExpectPadded(p) + e.Expected()
    decreases p, 1
  {
    hide Ok, LexType, LexPadded, NoTop, RightEnd, SolidEnd, SolidStart, Expect, ExpectItems, PadBefore, PadAfter, AddTail, Unparted, AllSpace;
    FreeNoList(p);
    MemberEnds(p.body);
    TailKept(p.body, e.Inside(p.trail));
    NoPadBefore(p.body);
    NoPadAfter(p.body);
    var z := ExpectItems(e.items);
    assert "" + (p.trail + e.space) + z + "" == p.trail + e.space + z;
    Gathered(p.lead, Expect(p.body), p.trail, e.space, z, e.after);
  }

  lemma {:induction false} Gathered(lead: string, body: string, trail: string, space: string, z: string, after: string)
    ensures lead + (body + (trail + space + z)) + after == lead + body + trail + (space + z + after)
  {
  }

  lemma {:induction false} FreeNoList(p: Padded)
    requires PaddedOk(p) && NoTop(LexPadded(p), LIST)
    ensures Ok(p.body) && !p.body.List? && Trimmed(Print(p.body)) && NoTop(LexType(p.body), LIST)
  {
    hide Ok, LexType, LexPadded, NoTop, Unparted, AllSpace;
    BodyFree(p, LIST);
    FreeUnparted(LexType(p.body));
    TopShows(p.body);
  }

  lemma {:induction false} Behind(head: string, y: string, e: Tail)
    ensures head + (y + e.Expected()) == head + y + ("" + e.space + ExpectItems(e.items) + e.after)
  {
    hide ExpectItems;
  }

  lemma {:induction false} FlatOrJoined(p: Padded, needles: seq<Needle>)
    requires PaddedOk(p) && Free(LexPadded(p), needles) && [COLON, Arrow, BAR] <= needles && NoTop(LexPadded(p), LIST)
    ensures (p.body.Flat? || p.body.Intersection?) && RightEnd(p.body) == p.body
  {
    hide Ok, LexType, LexPadded, NoTop, Unparted, AllSpace, Trimmed;
    assert needles[0] == COLON && needles[1] == Arrow && needles[2] == BAR;
    BodyFree(p, COLON);
    BodyFree(p, Arrow);
    BodyFree(p, BAR);
    FreeNoList(p);
    TopShows(p.body);
  }

  lemma {:induction false} LastFree(ps: seq<Padded>, needles: seq<Needle>)
    requires ps != [] && AllFree(ps, needles)
    ensures Free(LexPadded(Last(ps)), needles)
  {
    hide LexPadded, NoTop;
    assert Free(LexPadded(ps[|ps| - 1]), needles);
  }

  lemma {:induction false} IntersectionTailKept(t: Type, e: Tail)
    requires t.Intersection? && Ok(t) && Open(t)
    ensures Expect(AddTail(t, e)) == Expect(t) + TailText(t, e)
    decreases t, 0
  {
    hide AllOk, AllFree, LexPadded, JoinLex, LexAll, Join, ExpectBodies, Unparted, NoTop, ExpectItems, TailPadded;
    var ps, last := t.members, Last(t.members);
    var z := last.trail + e.space + ExpectItems(e.items);
    LastOk(ps);
    LastFree(ps, [COLON, Arrow, BAR, AMPERSAND]);
    LastOfJoin(ps, '&');
    FlatOrJoined(last, [COLON, Arrow, BAR, AMPERSAND]);
    PartTailKept(last, e);
    ExpectLast(ps, TailPadded(last, e));
    TailBody(last, e);
    JoinLonger(ExpectBodies(ps[..|ps| - 1]), Expect(last.body), z, " & ");
    assert z + "" == z;
  }

  lemma {:induction false} TailBody(p: Padded, e: Tail)
    ensures TailPadded(p, e).body == AddTail(p.body, e.Inside(p.trail))
  {
  }

  lemma {:induction false} ListTailKept(t: Type, e: Tail)
    requires t.List? && Ok(t) && Open(t) && !RightEnd(t).Union?
    ensures Expect(AddTail(t, e)) == Expect(t) + TailText(t, e)
    decreases t, 0
  {
    hide Ok, LexType, Rejoin, ExpectBodies, AddTail, Expect, ExpectItems, NoTop;
    ListLast(t);
    ListGiven(t);
    LastOpen(t);
    var ps, last := t.parts, Last(t.parts);
    var q := Padded("", AddTail(last.body, e), "");
    TailKept(last.body, e);
    AddToList(t, e);
    ExpectLast(ps, q);
    RejoinLonger(ExpectBodies(ps[..|ps| - 1]), Expect(last.body), TailText(last.body, e), t.separators);
    ListExpected(t);
    ListExpected(List(WithLast(ps, q), t.separators));
    ListPads(t, e);
  }

  lemma {:induction false} ListExpected(t: Type)
    requires t.List? && |t.parts| == |t.separators| + 1
    ensures Expect(t) == Rejoin(ExpectBodies(t.parts), t.separators)
  {
    hide Rejoin, ExpectBodies;
  }

  lemma {:induction false} ListPads(t: Type, e: Tail)
    requires t.List? && t.parts != []
    ensures TailText(t, e) == TailText(Last(t.parts).body, e) && RightEnd(t) == RightEnd(Last(t.parts).body)
  {
    hide ExpectItems;
  }

  /** What follows a type is copied when no union stands at the end. */
  lemma {:induction false} TailKept(t: Type, e: Tail)
    requires Ok(t) && Open(t) && !RightEnd(t).Union?
    ensures Expect(AddTail(t, e)) == Expect(t) + TailText(t, e)
    decreases t, 1
  {
    hide PaddedOk, ItemsOk, AllOk, PartsOk, AllFree, LexPadded, LexItems, LexAll, JoinLex, JoinList, ExpectItems, Rejoin, Join, SolidParts,
      SeparatorsOk, Trim, ShowAll, ExpectPadded, NoTop, Unparted, TailPadded, IsLabel, Plains, ExpectBodies, Free;
    match t
    case Flat(items) => FlatTailKept(t, e);
    case Intersection(_) => IntersectionTailKept(t, e);
    case Function(params, result) =>
      BehindFree(LexItems(params) + [Fat], LexPadded(result));
      PartTailKept(result, e);
      Behind(ExpectItems(params) + "=>", ExpectPadded(result), e);
    case Labelled(name, value) =>
      BehindFree(LexItems(name) + [Ch(':')], LexPadded(value));
      PartTailKept(value, e);
      Behind(ExpectItems(name) + ":", ExpectPadded(value), e);
    case Conditional(check, yes, no) =>
      BehindFree(LexPadded(check) + [Ch('?')], LexPadded(yes) + [Ch(':')] + LexPadded(no));
      BehindFree(LexPadded(yes) + [Ch(':')], LexPadded(no));
      PartTailKept(no, e);
      Behind(ExpectPadded(check) + "?" + ExpectPadded(yes) + ":", ExpectPadded(no), e);
    case List(_, _) => ListTailKept(t, e);
    case _ =>
  }

  lemma {:induction false} PlainsExpected(s: string)
    ensures ExpectItems(Plains(s)) == s
  {
    if s == "" {
    } else {
      PlainsExpected(s[1..]);
      assert Plains(s)[1..] == Plains(s[1..]);
    }
  }

  lemma {:induction false} FlatTailKept(t: Type, e: Tail)
    requires t.Flat?
    ensures Expect(AddTail(t, e)) == Expect(t) + TailText(t, e)
  {
    hide ExpectItems, Plains;
    ItemsAppend(t.items, e.Items());
    ItemsAppend(Plains(e.space) + e.items, Plains(e.after));
    ItemsAppend(Plains(e.space), e.items);
    PlainsExpected(e.space);
    PlainsExpected(e.after);
  }

  /** The text of every tree with a tail is read as that tree with the tail in its last text. */
  lemma {:induction false} TailReads(t: Type, e: Tail)
    requires Ok(t) && Takes(t, e) && e.Valid()
    ensures NormaliseTypeText(Print(t) + e.Text()) == Expect(AddTail(t, e))
  {
    hide Ok, Clean, Takes, Print, Expect, NormaliseTypeText, AddTail, LexItems;
    TailOk(t, e);
    TailPrinted(t, e);
    NormalisesText(AddTail(t, e));
  }

  /** When no union stands at the end, what follows is copied after the normalised text. Only the
      padding of a last intersection member moves: before the tail it stays, after it it goes. */
  lemma {:induction false} SeparatorKept(t: Type, e: Tail)
    requires Ok(t) && Takes(t, e) && e.Valid() && !RightEnd(t).Union?
    ensures NormaliseTypeText(Print(t) + e.Text())
         == NormaliseTypeText(Print(t)) + PadBefore(t) + e.space + ExpectItems(e.items) + PadAfter(t, e.after)
  {
    hide Ok, Clean, Open, Print, NormaliseTypeText, RightEnd, PadBefore, PadAfter, Expect, ExpectItems, AddTail, LexItems;
    TailReads(t, e);
    NormalisesText(t);
    TailKept(t, e);
    var x, p, z, a := Expect(t), PadBefore(t), ExpectItems(e.items), PadAfter(t, e.after);
    assert x + (p + e.space + z + a) == x + p + e.space + z + a;
  }

  function Mark(c: char): Tail { Tail("", [Plain(c)], "") }

  lemma {:induction false} MarkTokens(c: char)
    requires IsMark(c)
    ensures var items := [Plain(c)];
      LexItems(items) == [Ch(c)] && ShowAll([Ch(c)]) == [c] && ItemsOk(items) && CleanItems(items) && ExpectItems(items) == [c]
  {
    hide ExpectItems, ItemsOk, CleanItems;
    var it := Plain(c);
    OneItem(it);
    assert LexItems([]) == [] && [it][1..] == [];
    assert LexItems([it]) == [Ch(c)] + LexItems([]);
    assert ShowAll([]) == "" && [Ch(c)][1..] == [];
    assert ShowAll([Ch(c)]) == [c] + ShowAll([]);
  }

  lemma {:induction false} MarkValid(c: char)
    requires IsMark(c)
    ensures Mark(c).Valid() && Mark(c).Text() == [c] && ExpectItems(Mark(c).items) == [c]
    ensures forall t: Type :: Open(t) ==> Takes(t, Mark(c))
  {
    hide ExpectItems, ItemsOk, CleanItems, LexItems, ShowAll, Open;
    MarkTokens(c);
    assert "" + [c] + "" == [c];
  }

  /** A separator right after a type that ends without white space and without a union. */
  lemma {:induction false} SeparatorCopied(t: Type, mark: char)
    requires Ok(t) && Open(t) && !RightEnd(t).Union? && SolidEnd(LexType(t)) && IsMark(mark)
    ensures NormaliseTypeText(Print(t) + [mark]) == NormaliseTypeText(Print(t)) + [mark]
  {
    hide Ok, Clean, Open, LexType, SolidEnd, ShowAll, NormaliseTypeText, RightEnd, PadBefore, PadAfter, ExpectItems, LexItems;
    MarkValid(mark);
    SeparatorKept(t, Mark(mark));
    NoPadBefore(t);
    NoPadAfter(t);
    assert NormaliseTypeText(Print(t)) + "" + "" + [mark] + "" == NormaliseTypeText(Print(t)) + [mark];
  }

  // ---------- A union at the end: its last member decides ----------

  /** The member next to the tail. */
  function LastMember(t: Type): Padded
    requires RightEnd(t).Union? && RightEnd(t).members != []
  {
    Last(RightEnd(t).members)
  }

  /** The normalised members, the last one with what follows it. */
  function TailedTexts(ps: seq<Padded>, e: Tail): seq<string>
    requires ps != []
  {
    ExpectBodies(ps[..|ps| - 1]) + [Expect(Last(ps).body) + (Last(ps).trail + e.space + ExpectItems(e.items))]
  }

  lemma {:induction false} UnionTail(t: Type, e: Tail)
    requires t.Union? && Ok(t) && Open(t)
    ensures t.members != [] && AddTail(t, e).Union? && ExpectBodies(AddTail(t, e).members) == TailedTexts(t.members, e)
  {
    hide AllOk, AllFree, LexPadded, ExpectBodies, Unparted, NoTop, ExpectItems, TailPadded, LexType, AllSpace, Expect;
    var ps, last := t.members, Last(t.members);
    LastOk(ps);
    LastFree(ps, [COLON, Arrow, BAR]);
    LastOfUnion(t);
    FlatOrJoined(last, [COLON, Arrow, BAR]);
    PartTailKept(last, e);
    ExpectLast(ps, TailPadded(last, e));
    TailBody(last, e);
  }

  lemma {:induction false} TailedBag(ps: seq<Padded>, e: Tail)
    requires ps != []
    ensures multiset(TailedTexts(ps, e)) + multiset{Expect(Last(ps).body)}
         == multiset(ExpectBodies(ps)) + multiset{Expect(Last(ps).body) + (Last(ps).trail + e.space + ExpectItems(e.items))}
  {
    hide Expect, ExpectBodies, ExpectItems;
    ExpectLast(ps, Last(ps));
  }

  /** Of one bag, `x` became `x'` or `y` became `y'`: the results are equal only if it was the same element. */
  lemma {:induction false} ReplacedWhere(
    bag: multiset<string>, a: multiset<string>, b: multiset<string>, x: string, x': string, y: string, y': string)
    requires x' != x && a + multiset{x} == bag + multiset{x'} && b + multiset{y} == bag + multiset{y'}
    requires x == y ==> x' == y'
    ensures a == b <==> x == y
  {
    if x == y {
      CancelBag(a, b, x);
    } else {
      CountAfter(a, bag, x, x', x);
      CountAfter(b, bag, y, y', x);
    }
  }

  lemma {:induction false} CancelBag(a: multiset<string>, b: multiset<string>, x: string)
    requires a + multiset{x} == b + multiset{x}
    ensures a == b
  {
    assert a == (a + multiset{x}) - multiset{x} && b == (b + multiset{x}) - multiset{x};
  }

  lemma {:induction false} CountAfter(a: multiset<string>, bag: multiset<string>, x: string, x': string, s: string)
    requires a + multiset{x} == bag + multiset{x'}
    ensures a[s] + (if s == x then 1 else 0) == bag[s] + (if s == x' then 1 else 0)
  {
    assert (a + multiset{x})[s] == a[s] + multiset{x}[s];
    assert (bag + multiset{x'})[s] == bag[s] + multiset{x'}[s];
  }

  lemma {:induction false} TailIsSomething(e: Tail)
    requires e.Valid()
    ensures ExpectItems(e.items) != ""
  {
    hide LexItem, NoTop, Unparted, AllSpace;
    assert e.items != [] && ItemOk(e.items[0]);
    assert ExpectItem(e.items[0]) != "";
  }

  lemma {:induction false} UnionTakes(t: Type, e: Tail)
    requires t.Union? && Ok(t) && Open(t)
    ensures Takes(t, e)
  {
    hide Ok, NoTop, LexType, LexItems;
    UnionPartsFree(t, COLON);
  }

  lemma {:induction false} UnionOrder(t: Type, u: Type, e: Tail)
    requires t.Union? && u.Union? && Ok(t) && Ok(u) && Clean(t) && Clean(u) && Open(t) && Open(u) && e.Valid()
    requires multiset(ExpectBodies(t.members)) == multiset(ExpectBodies(u.members))
    requires t.members != [] && u.members != [] && Last(t.members).trail == Last(u.members).trail
    ensures Expect(AddTail(t, e)) == Expect(AddTail(u, e)) <==> Expect(Last(t.members).body) == Expect(Last(u.members).body)
  {
    hide Ok, Clean, Open, Expect, ExpectBodies, AddTail, ExpectItems, TailedTexts, LexItems;
    var ps, qs := t.members, u.members;
    UnionTail(t, e);
    UnionTail(u, e);
    UnionTakes(t, e);
    UnionTakes(u, e);
    TailOk(t, e);
    TailOk(u, e);
    ExpectedUnions(AddTail(t, e), AddTail(u, e));
    TailedBag(ps, e);
    TailedBag(qs, e);
    TailIsSomething(e);
    var x, y, z := Expect(Last(ps).body), Expect(Last(qs).body), Last(ps).trail + e.space + ExpectItems(e.items);
    assert |x + z| > |x|;
    ReplacedWhere(multiset(ExpectBodies(ps)), multiset(TailedTexts(ps, e)), multiset(TailedTexts(qs, e)), x, x + z, y, y + z);
  }

  lemma {:induction false} TailAround(front: string, p: Padded, q: Padded, e: Tail)
    requires p.lead == q.lead && p.trail == q.trail
    ensures front + ExpectPadded(TailPadded(p, e)) == front + ExpectPadded(TailPadded(q, e))
       <==> Expect(AddTail(p.body, e.Inside(p.trail))) == Expect(AddTail(q.body, e.Inside(p.trail)))
  {
    hide Expect, AddTail;
    var x, y := Expect(AddTail(p.body, e.Inside(p.trail))), Expect(AddTail(q.body, e.Inside(p.trail)));
    Around(front + p.lead, x, y, e.after);
    assert front + (p.lead + x + e.after) == front + p.lead + x + e.after;
    assert front + (p.lead + y + e.after) == front + p.lead + y + e.after;
  }

  lemma {:induction false} SameLast(ps: seq<Padded>, qs: seq<Padded>)
    requires SameBodies(ps, qs) && ps != []
    ensures |qs| == |ps| && Same(Last(ps).body, Last(qs).body)
  {
    hide Same;
    if |ps| == 1 {
    } else {
      SameLast(ps[1..], qs[1..]);
    }
  }

  lemma {:induction false} SameUnion(t: Type, u: Type)
    requires t.Union? && Same(t, u)
    ensures u.Union? && multiset(ExpectBodies(t.members)) == multiset(ExpectBodies(u.members))
  {
    hide ExpectBodies, SameBag;
    SameBagExpect(t.members, u.members);
  }

  lemma {:induction false} SamePaddedExpect(p: Padded, q: Padded)
    requires SamePadded(p, q)
    ensures ExpectPadded(p) == ExpectPadded(q)
  {
    hide Same, Expect;
    SameExpect(p.body, q.body);
  }

  /** What is needed of a pair of types of which one is the other with its unions in another order. */
  ghost predicate Pair(t: Type, u: Type) { Ok(t) && Ok(u) && Clean(t) && Clean(u) && Open(t) && Open(u) && Same(t, u) }

  ghost predicate LastDecides(t: Type, u: Type, e: Tail) {
    && RightEnd(u).Union? && RightEnd(t).Union? && RightEnd(t).members != [] && RightEnd(u).members != []
    && (LastMember(t).trail == LastMember(u).trail ==>
          (Expect(AddTail(t, e)) == Expect(AddTail(u, e)) <==> Expect(LastMember(t).body) == Expect(LastMember(u).body)))
  }

  /** The same for a part of both types. */
  lemma {:induction false} PartsAgree(p: Padded, q: Padded, e: Tail, head: string)
    requires PaddedOk(p) && PaddedOk(q) && Clean(p.body) && Clean(q.body) && SamePadded(p, q) && e.Valid()
    requires NoTop(LexPadded(p), LIST) && NoTop(LexPadded(q), LIST) && RightEnd(p.body).Union?
    ensures LastDecides(p.body, q.body, e.Inside(p.trail))
    ensures head + ExpectPadded(TailPadded(p, e)) == head + ExpectPadded(TailPadded(q, e))
       <==> Expect(AddTail(p.body, e.Inside(p.trail))) == Expect(AddTail(q.body, e.Inside(p.trail)))
    decreases p, 1
  {
    hide Ok, Clean, LexType, LexPadded, NoTop, RightEnd, Same, AllSpace, ExpectPadded, TailPadded, AddTail, LastDecides, LexItems;
    FreeNoList(p);
    FreeNoList(q);
    InsideValid(e, p.trail);
    EndsAgree(p.body, q.body, e.Inside(p.trail));
    TailAround(head, p, q, e);
  }

  lemma {:induction false} FunctionsAgree(t: Type, u: Type, e: Tail)
    requires Pair(t, u) && e.Valid() && RightEnd(t).Union? && t.Function?
    ensures LastDecides(t, u, e)
    decreases t, 0
  {
    hide PaddedOk, ItemsOk, LexPadded, LexItems, ExpectItems, NoTop, Unparted, TailPadded, SameItems, CleanItems, ExpectPadded, IsLabel, AllSpace;
    BehindFree(LexItems(t.params) + [Fat], LexPadded(t.result));
    BehindFree(LexItems(u.params) + [Fat], LexPadded(u.result));
    SameItemsExpect(t.params, u.params);
    PartsAgree(t.result, u.result, e, ExpectItems(t.params) + "=>");
  }

  lemma {:induction false} LabelsAgree(t: Type, u: Type, e: Tail)
    requires Pair(t, u) && e.Valid() && RightEnd(t).Union? && t.Labelled?
    ensures LastDecides(t, u, e)
    decreases t, 0
  {
    hide PaddedOk, ItemsOk, LexPadded, LexItems, ExpectItems, NoTop, Unparted, TailPadded, SameItems, CleanItems, ExpectPadded, IsLabel, AllSpace;
    BehindFree(LexItems(t.name) + [Ch(':')], LexPadded(t.value));
    BehindFree(LexItems(u.name) + [Ch(':')], LexPadded(u.value));
    SameItemsExpect(t.name, u.name);
    PartsAgree(t.value, u.value, e, ExpectItems(t.name) + ":");
  }

  lemma {:induction false} BranchesAgree(t: Type, u: Type, e: Tail)
    requires Pair(t, u) && e.Valid() && RightEnd(t).Union? && t.Conditional?
    ensures LastDecides(t, u, e)
    decreases t, 0
  {
    hide PaddedOk, ItemsOk, LexPadded, LexItems, ExpectItems, NoTop, Unparted, TailPadded, SameItems, CleanItems, ExpectPadded, IsLabel, AllSpace;
    LastBranchFree(t);
    LastBranchFree(u);
    SamePaddedExpect(t.check, u.check);
    SamePaddedExpect(t.yes, u.yes);
    PartsAgree(t.no, u.no, e, ExpectPadded(t.check) + "?" + ExpectPadded(t.yes) + ":");
  }

  lemma {:induction false} LastBranchFree(t: Type)
    requires t.Conditional? && NoTop(LexType(t), LIST)
    ensures NoTop(LexPadded(t.no), LIST)
  {
    hide NoTop, LexPadded;
    BehindFree(LexPadded(t.check) + [Ch('?')], LexPadded(t.yes) + [Ch(':')] + LexPadded(t.no));
    BehindFree(LexPadded(t.yes) + [Ch(':')], LexPadded(t.no));
  }

  lemma {:induction false} ListAround(front: seq<string>, x: string, y: string, separators: seq<string>)
    requires |separators| == |front|
    ensures Rejoin(front + [x], separators) == Rejoin(front + [y], separators) <==> x == y
  {
    hide Rejoin;
    RejoinAround(front, x, y, [], separators);
    assert front + [x] + [] == front + [x] && front + [y] + [] == front + [y];
  }

  lemma {:induction false} ListTail(t: Type, e: Tail)
    requires t.List? && t.parts != [] && |t.parts| == |t.separators| + 1
    ensures var front := ExpectBodies(t.parts[..|t.parts| - 1]);
      && ExpectBodies(t.parts) == front + [Expect(Last(t.parts).body)]
      && Expect(AddTail(t, e)) == Rejoin(front + [Expect(AddTail(Last(t.parts).body, e))], t.separators)
  {
    hide Rejoin, ExpectBodies, Expect, AddTail;
    var p := Padded("", AddTail(Last(t.parts).body, e), "");
    AddToList(t, e);
    ExpectLast(t.parts, p);
    ListExpected(AddTail(t, e));
  }

  lemma {:induction false} SameFront(a: seq<string>, x: string, b: seq<string>, y: string)
    requires a + [x] == b + [y]
    ensures a == b
  {
    assert a == (a + [x])[..|a|] && b == (b + [y])[..|b|];
  }

  lemma {:induction false} ListsAgree(t: Type, u: Type, e: Tail)
    requires Pair(t, u) && e.Valid() && RightEnd(t).Union? && t.List?
    ensures LastDecides(t, u, e)
    decreases t, 0
  {
    hide Ok, LexType, Rejoin, ExpectBodies, SameBodies, Expect, AddTail, NoTop, Clean, LexItems, PartsOk, AllFree, SeparatorsOk, SolidParts, CleanAll;
    ListsPair(t, u);
    var ps, qs := t.parts, u.parts;
    EndsAgree(Last(ps).body, Last(qs).body, e);
    SameBodiesExpect(ps, qs);
    ListTail(t, e);
    ListTail(u, e);
    SameFront(ExpectBodies(ps[..|ps| - 1]), Expect(Last(ps).body), ExpectBodies(qs[..|qs| - 1]), Expect(Last(qs).body));
    ListAround(ExpectBodies(ps[..|ps| - 1]), Expect(AddTail(Last(ps).body, e)), Expect(AddTail(Last(qs).body, e)), t.separators);
  }

  /** The last parts of two such lists are such a pair again. */
  lemma {:induction false} ListsPair(t: Type, u: Type)
    requires Pair(t, u) && t.List?
    ensures u.List? && SameBodies(t.parts, u.parts) && t.separators == u.separators && t.parts != [] && u.parts != []
    ensures |t.parts| == |t.separators| + 1 && |u.parts| == |u.separators| + 1 && Pair(Last(t.parts).body, Last(u.parts).body)
  {
    hide Ok, LexType, SameBodies, NoTop, Clean, Open, PartsOk, AllFree, SeparatorsOk, SolidParts, CleanAll;
    ListLast(t);
    ListLast(u);
    ListGiven(t);
    ListGiven(u);
    LastOpen(t);
    LastOpen(u);
    SameLast(t.parts, u.parts);
    FrontPlus(t.parts, Last(t.parts));
    FrontPlus(u.parts, Last(u.parts));
  }

  lemma {:induction false} UnionsAgree(t: Type, u: Type, e: Tail)
    requires Pair(t, u) && e.Valid() && t.Union?
    ensures LastDecides(t, u, e)
  {
    hide Ok, Clean, Open, Expect, ExpectBodies, AddTail, LexItems, SameBag;
    SameUnion(t, u);
    UnionTail(t, e);
    UnionTail(u, e);
    if Last(t.members).trail == Last(u.members).trail { UnionOrder(t, u, e); }
  }

  /** Two printings of a type with the same text after them normalise alike exactly when the members
      written next to that text do. */
  lemma {:induction false} EndsAgree(t: Type, u: Type, e: Tail)
    requires Pair(t, u) && e.Valid() && RightEnd(t).Union?
    ensures LastDecides(t, u, e)
    decreases t, 2
  {
    hide Pair, LastDecides;
    match t
    case Union(_, _) => UnionsAgree(t, u, e);
    case List(_, _) => ListsAgree(t, u, e);
    case Flat(_) =>
    case Intersection(_) =>
    case Function(_, _) => FunctionsAgree(t, u, e);
    case Labelled(_, _) => LabelsAgree(t, u, e);
    case Conditional(_, _, _) => BranchesAgree(t, u, e);
  }

  lemma {:induction false} LastMemberOk(t: Type)
    requires Ok(t) && Clean(t) && RightEnd(t).Union?
    ensures Ok(RightEnd(t)) && Clean(RightEnd(t)) && RightEnd(t).members != [] && PaddedOk(LastMember(t))
    decreases t
  {
    hide PaddedOk, LexPadded, LexAll, LexItems, ShowAll, SeparatorsOk, SolidParts, Trim, PartsOk, AllOk, Free, AllFree, ItemsOk, IsLabel, Unparted,
      CleanItems, CleanAll;
    match t
    case Union(_, members) => LastOk(members);
    case Function(_, result) =>
      BodyIsOk(result);
      LastMemberOk(result.body);
    case Labelled(_, value) =>
      BodyIsOk(value);
      LastMemberOk(value.body);
    case Conditional(_, _, no) =>
      BodyIsOk(no);
      LastMemberOk(no.body);
    case List(parts, _) =>
      LastOk(parts);
      FrontPlus(parts, Last(parts));
      LastMemberOk(Last(parts).body);
    case _ =>
  }

  /** In every place of a larger type: two printings of a type with a separator or other text after them
      agree exactly when the members next to that text do, if the white space between is the same. */
  lemma {:induction false} LastMemberDecides(c: Context, t: Type, u: Type, e: Tail)
    requires Pair(t, u) && e.Valid() && RightEnd(t).Union? && Fits(c, AddTail(t, e)) && Fits(c, AddTail(u, e))
    ensures RightEnd(u).Union? && RightEnd(t).members != [] && RightEnd(u).members != []
    ensures Print(AddTail(t, e)) == Print(t) + e.Text() && Print(AddTail(u, e)) == Print(u) + e.Text()
    ensures LastMember(t).trail == LastMember(u).trail ==>
      (NormaliseTypeText(Print(Plug(c, AddTail(t, e)))) == NormaliseTypeText(Print(Plug(c, AddTail(u, e))))
       <==> NormaliseTypeText(Print(LastMember(t).body)) == NormaliseTypeText(Print(LastMember(u).body)))
  {
    hide Ok, Same, Clean, Open, NormaliseTypeText, Print, Expect, AddTail, RightEnd, Plug, LexItems;
    EndsAgree(t, u, e);
    LastMemberOk(t);
    LastMemberOk(u);
    TailPrinted(t, e);
    TailPrinted(u, e);
    BodyIsOk(LastMember(t));
    BodyIsOk(LastMember(u));
    NormalisesText(LastMember(t).body);
    NormalisesText(LastMember(u).body);
    ExpectEverywhere(c, AddTail(t, e), AddTail(u, e));
    NormalisesText(Plug(c, AddTail(t, e)));
    NormalisesText(Plug(c, AddTail(u, e)));
  }
}
