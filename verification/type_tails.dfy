/** Text after a printed type that binds tighter than `|`: a separator, or a default such as `= D`. It is
    read as part of the type's last text. */
module TypeTails {
  import opened Strings
  import opened TypeText
  import opened TypeLexis
  import opened TypeGrammar
  import opened TypeCanonicity
  import opened TypeTokens
  import opened TypeShapes
  import opened TypeTheorems
  import opened TypeCanonTree
  import opened TypeCanonOk
  import opened TypeContexts
  import opened TypeReplace

  // ---------- What may stand after a printed tree ----------

  /** Items between white space, the separator of a list or a default among them. */
  datatype Tail = Tail(space: string, items: seq<Item>, after: string) {
    predicate Valid() {
      && AllSpace(space) && AllSpace(after) && ItemsOk(items) && CleanItems(items)
      && SolidStart(LexItems(items)) && SolidEnd(LexItems(items)) && !EndsInEquals(LexItems(items))
      && Free(LexItems(items), [COLON, Arrow, BAR, AMPERSAND]) && Unparted(LexItems(items))
    }

    function Tokens(): seq<Lex> { Chars(space) + LexItems(items) + Chars(after) }

    function Text(): string { space + ShowAll(LexItems(items)) + after }

    function Expected(): string { space + ExpectItems(items) + after }

    /** The tail of a body that is followed by white space: what trimming leaves. */
    function Inside(trail: string): Tail { Tail(trail + space, items, "") }

    function Items(): seq<Item> { Plains(space) + items + Plains(after) }
  }

  /** The tree that is read when the tail follows. */
  function AddTail(t: Type, e: Tail): Type
    decreases t
  {
    match t
    case Flat(items) => Flat(items + e.Items())
    case Intersection(members) => if members == [] then t else Intersection(WithLast(members, TailPadded(Last(members), e)))
    case Union(bar, members) => if members == [] then t else Union(bar, WithLast(members, TailPadded(Last(members), e)))
    case Function(params, result) => Function(params, TailPadded(result, e))
    case Labelled(name, value) => Labelled(name, TailPadded(value, e))
    case Conditional(check, yes, no) => Conditional(check, yes, TailPadded(no, e))
    case List(parts, separators) =>
      if parts == [] then t else List(WithLast(parts, Padded("", AddTail(Last(parts).body, e), "")), separators)
  }

  function TailPadded(p: Padded, e: Tail): Padded
    decreases p
  {
    Padded(p.lead, AddTail(p.body, e.Inside(p.trail)), e.after)
  }

  function WithLast(ps: seq<Padded>, q: Padded): (qs: seq<Padded>)
    requires ps != []
    ensures |qs| == |ps| && Last(qs) == q && qs[..|qs| - 1] == ps[..|ps| - 1]
  {
    ps[..|ps| - 1] + [q]
  }

  /** No separator stands at the end already. */
  predicate Open(t: Type) {
    if t.List? then t.parts != [] && NoTop(LexType(Last(t.parts).body), LIST) else NoTop(LexType(t), LIST)
  }

  /** With a colon before it a question mark in the tail would make a conditional type. */
  predicate Calm(xs: seq<Lex>, e: Tail) { NoTop(LexItems(e.items), QUESTION) || NoTop(xs, COLON) }

  predicate Takes(t: Type, e: Tail) { Open(t) && Calm(LexType(t), e) }

  // ---------- Tokens ----------

  lemma {:induction false} CharsAppend(a: string, b: string)
    ensures Chars(a + b) == Chars(a) + Chars(b)
  {
    if a == "" {
      assert a + b == b;
    } else {
      CharsAppend(a[1..], b);
      assert (a + b)[1..] == a[1..] + b;
    }
  }

  lemma {:induction false} SpacePlain(s: string)
    requires AllSpace(s)
    ensures PlainText(s)
  {
    forall k | 0 <= k < |s| ensures Lexed(Ch(s[k])) { assert IsSpace(s[k]); }
  }

  lemma {:induction false} PlainsClean(s: string)
    ensures CleanItems(Plains(s))
  {
    if s == "" {
    } else {
      PlainsClean(s[1..]);
      assert Plains(s)[1..] == Plains(s[1..]);
    }
  }

  lemma {:induction false} TailItems(e: Tail)
    requires e.Valid()
    ensures LexItems(e.Items()) == e.Tokens() && ExpectItems(e.Items()) == e.Expected()
    ensures ItemsOk(e.Items()) && CleanItems(e.Items())
  {
    hide ItemsOk, CleanItems, LexItems, ExpectItems, Plains, AllSpace, PlainText, SolidStart, SolidEnd, Unparted, Free;
    SpacePlain(e.space);
    SpacePlain(e.after);
    PlainsShown(e.space);
    PlainsShown(e.after);
    PlainsClean(e.space);
    PlainsClean(e.after);
    LexItemsAppend(Plains(e.space) + e.items, Plains(e.after));
    LexItemsAppend(Plains(e.space), e.items);
    ItemsAppend(Plains(e.space) + e.items, Plains(e.after));
    ItemsAppend(Plains(e.space), e.items);
  }

  lemma {:induction false} TailShown(e: Tail)
    ensures ShowAll(e.Tokens()) == e.Text()
  {
    hide LexItems, ShowAll;
    ShowAppend(Chars(e.space) + LexItems(e.items), Chars(e.after));
    ShowAppend(Chars(e.space), LexItems(e.items));
    CharsShown(e.space);
    CharsShown(e.after);
  }

  lemma {:induction false} InsideValid(e: Tail, trail: string)
    requires e.Valid() && AllSpace(trail)
    ensures e.Inside(trail).Valid() && Chars(trail) + e.Tokens() == e.Inside(trail).Tokens() + Chars(e.after)
  {
    hide ItemsOk, CleanItems, LexItems, SolidStart, SolidEnd, Unparted, Free, EndsInEquals, IsSpace;
    SpaceAppend(trail, e.space);
    CharsAppend(trail, e.space);
    Moved(Chars(trail), Chars(e.space), LexItems(e.items), Chars(e.after));
  }

  lemma {:induction false} Moved(a: seq<Lex>, b: seq<Lex>, c: seq<Lex>, d: seq<Lex>)
    ensures a + (b + c + d) == (a + b) + c + [] + d
  {
  }

  lemma {:induction false} JoinLast(ps: seq<Padded>, q: Padded, zs: seq<Lex>, c: char)
    requires ps != [] && LexPadded(q) == LexPadded(Last(ps)) + zs
    ensures JoinLex(LexAll(WithLast(ps, q)), c) == JoinLex(LexAll(ps), c) + zs
    decreases |ps|
  {
    hide LexPadded, JoinLex, LexAll;
    assert ps == [ps[0]] + ps[1..];
    if |ps| == 1 {
      assert WithLast(ps, q) == [q] && ps == [ps[0]];
      JoinedOne(ps[0], c);
      JoinedOne(q, c);
    } else {
      JoinLast(ps[1..], q, zs, c);
      assert WithLast(ps, q) == [ps[0]] + WithLast(ps[1..], q);
      JoinedCons(ps[0], ps[1..], c);
      JoinedCons(ps[0], WithLast(ps[1..], q), c);
      Associative(LexPadded(ps[0]) + [Ch(c)], JoinLex(LexAll(ps[1..]), c), zs);
    }
  }

  lemma {:induction false} ListLastTokens(ps: seq<Padded>, q: Padded, zs: seq<Lex>, separators: seq<string>)
    requires ps != [] && |ps| == |separators| + 1 && LexPadded(q) == LexPadded(Last(ps)) + zs
    ensures JoinList(LexAll(WithLast(ps, q)), separators) == JoinList(LexAll(ps), separators) + zs
    decreases |ps|
  {
    hide LexPadded, JoinList;
    if |ps| == 1 {
      assert WithLast(ps, q) == [q] && ps == [ps[0]];
      assert LexAll([q]) == [LexPadded(q)] && LexAll(ps) == [LexPadded(ps[0])];
      ListOne(LexPadded(q));
      ListOne(LexPadded(ps[0]));
      assert separators == [];
    } else {
      ListLastTokens(ps[1..], q, zs, separators[1..]);
      assert WithLast(ps, q)[1..] == WithLast(ps[1..], q) && WithLast(ps, q)[0] == ps[0];
      assert LexAll(ps)[1..] == LexAll(ps[1..]) && LexAll(WithLast(ps, q))[1..] == LexAll(WithLast(ps[1..], q));
      JoinTwo(LexAll(ps), separators);
      JoinTwo(LexAll(WithLast(ps, q)), separators);
      Associative(LexPadded(ps[0]) + Chars(separators[0]), JoinList(LexAll(ps[1..]), separators[1..]), zs);
    }
  }

  lemma {:induction false} ListOne(xs: seq<Lex>)
    ensures JoinList([xs], []) == xs
  {
  }

  lemma {:induction false} PaddedTailTokens(p: Padded, e: Tail)
    requires PaddedOk(p) && e.Valid()
    ensures LexPadded(TailPadded(p, e)) == LexPadded(p) + e.Tokens()
    decreases p, 1
  {
    hide Ok, LexType, LexItems, AllSpace, Trimmed, AddTail;
    BodyIsOk(p);
    InsideValid(e, p.trail);
    TailTokens(p.body, e.Inside(p.trail));
    TailMoves(Chars(p.lead), LexType(p.body), Chars(p.trail), e.Inside(p.trail).Tokens(), e.Tokens(), Chars(e.after));
  }

  lemma {:induction false} TailMoves(a: seq<Lex>, b: seq<Lex>, c: seq<Lex>, inside: seq<Lex>, tail: seq<Lex>, after: seq<Lex>)
    requires c + tail == inside + after
    ensures a + (b + inside) + after == a + b + c + tail
  {
    assert a + (b + inside) + after == a + b + (inside + after);
    assert a + b + c + tail == a + b + (c + tail);
  }

  lemma {:induction false} ThreeLast(a: seq<Lex>, b: seq<Lex>, c: seq<Lex>, d: seq<Lex>, zs: seq<Lex>)
    ensures a + b + (c + d + zs) == a + b + (c + d) + zs
  {
  }

  /** The tokens of the tree that is read are those of the type and of the tail. */
  lemma {:induction false} TailTokens(t: Type, e: Tail)
    requires Ok(t) && e.Valid()
    ensures LexType(AddTail(t, e)) == LexType(t) + e.Tokens()
    decreases t, 0
  {
    hide PaddedOk, ItemsOk, AllOk, PartsOk, Free, AllFree, LexPadded, LexItems, LexAll, JoinLex, JoinList, Unparted, SolidParts, SeparatorsOk,
      Trim, Print, IsLabel, TailPadded;
    match t
    case Flat(items) =>
      TailItems(e);
      LexItemsAppend(items, e.Items());
    case Intersection(members) =>
      LastOk(members);
      PaddedTailTokens(Last(members), e);
      JoinLast(members, TailPadded(Last(members), e), e.Tokens(), '&');
    case Union(bar, members) => UnionTailTokens(t, e);
    case Function(params, result) =>
      PaddedTailTokens(result, e);
      Associative(LexItems(params) + [Fat], LexPadded(result), e.Tokens());
    case Labelled(name, value) =>
      PaddedTailTokens(value, e);
      Associative(LexItems(name) + [Ch(':')], LexPadded(value), e.Tokens());
    case Conditional(check, yes, no) =>
      PaddedTailTokens(no, e);
      ThreeLast(LexPadded(check), [Ch('?')], LexPadded(yes) + [Ch(':')], LexPadded(no), e.Tokens());
      Associative(LexPadded(yes) + [Ch(':')], LexPadded(no), e.Tokens());
    case List(parts, separators) =>
      LastOk(parts);
      PartText(Last(parts));
      TailTokens(Last(parts).body, e);
      var q := Padded("", AddTail(Last(parts).body, e), "");
      PartText(q);
      ListLastTokens(parts, q, e.Tokens(), separators);
  }

  lemma {:induction false} UnionTailTokens(t: Type, e: Tail)
    requires t.Union? && Ok(t) && e.Valid()
    ensures LexType(AddTail(t, e)) == LexType(t) + e.Tokens()
    decreases t.members, 2
  {
    hide PaddedOk, AllOk, AllFree, LexPadded, LexAll, JoinLex, Unparted, TailPadded, LexType, AllSpace;
    var ps := t.members;
    var q := TailPadded(Last(ps), e);
    LastOk(ps);
    PaddedTailTokens(Last(ps), e);
    JoinLast(ps, q, e.Tokens(), '|');
    assert t == Union(t.bar, ps);
    UnionShape(t.bar, ps);
    UnionShape(t.bar, WithLast(ps, q));
    Associative(if t.bar.Some? then Chars(t.bar.value) + [Ch('|')] else [], JoinLex(LexAll(ps), '|'), e.Tokens());
  }

  lemma {:induction false} TailPrinted(t: Type, e: Tail)
    requires Ok(t) && e.Valid()
    ensures Print(AddTail(t, e)) == Print(t) + e.Text()
  {
    hide Ok, LexType, ShowAll, LexItems;
    TailTokens(t, e);
    ShowAppend(LexType(t), e.Tokens());
    TailShown(e);
  }

  // ---------- The tree is in the grammar ----------

  predicate TailNeedle(n: Needle) { n in [COLON, Arrow, BAR, AMPERSAND] }

  lemma {:induction false} TailHides(e: Tail, n: Needle)
    requires e.Valid() && TailNeedle(n)
    ensures NoTop(e.Tokens(), n)
  {
    hide NoTop, LexItems, AllSpace, Unparted, SolidStart, SolidEnd, EndsInEquals;
    assert IsNeedle(n);
    SpaceNoTop(e.space, n);
    SpaceNoTop(e.after, n);
    NoTopAppend(Chars(e.space) + LexItems(e.items), Chars(e.after), n);
    NoTopAppend(Chars(e.space), LexItems(e.items), n);
  }

  lemma {:induction false} TailUnparted(e: Tail)
    requires e.Valid()
    ensures Unparted(e.Tokens())
  {
    hide NoTop, LexItems, AllSpace, Unparted, SolidStart, SolidEnd, EndsInEquals, SomeSolid;
    SpaceUnparted(e.space);
    SpaceUnparted(e.after);
    UnpartedAppend(Chars(e.space) + LexItems(e.items), Chars(e.after));
    UnpartedAppend(Chars(e.space), LexItems(e.items));
  }

  lemma {:induction false} OpenTail(xs: seq<Lex>, e: Tail)
    requires e.Valid() && NoTop(xs, LIST)
    ensures Unparted(xs + e.Tokens())
  {
    hide NoTop, Unparted, SomeSolid;
    TailUnparted(e);
    FreeUnparted(xs);
    UnpartedAppend(xs, e.Tokens());
  }

  lemma {:induction false} FreeTail(xs: seq<Lex>, e: Tail, needles: seq<Needle>)
    requires e.Valid() && Free(xs, needles) && forall n :: n in needles ==> TailNeedle(n)
    ensures Free(xs + e.Tokens(), needles)
  {
    hide NoTop, TailNeedle;
    forall n | n in needles ensures NoTop(xs + e.Tokens(), n) {
      TailHides(e, n);
      NoTopAppend(xs, e.Tokens(), n);
    }
  }

  lemma {:induction false} TailEnds(xs: seq<Lex>, e: Tail)
    requires e.Valid() && e.after == ""
    ensures SolidEnd(xs + e.Tokens()) && !EndsInEquals(xs + e.Tokens())
  {
    hide LexItems, Unparted, Free, AllSpace, SomeSolid;
    assert Chars(e.space) + LexItems(e.items) + Chars("") == Chars(e.space) + LexItems(e.items);
    SolidAppend(Chars(e.space), LexItems(e.items));
    SolidAppend(xs, e.Tokens());
  }

  /** A part with the tail, in a place without separators. */
  lemma {:induction false} PartTailOk(p: Padded, e: Tail)
    requires PaddedOk(p) && e.Valid() && NoTop(LexPadded(p), LIST) && Calm(LexPadded(p), e)
    ensures var q := TailPadded(p, e);
      && PaddedOk(q) && (Clean(p.body) ==> Clean(q.body)) && LexPadded(q) == LexPadded(p) + e.Tokens()
      && !EndsInEquals(LexType(q.body))
    decreases p, 1
  {
    hide Ok, Clean, LexType, LexPadded, AllSpace, NoTop, AddTail, Unparted, LexItems, SolidStart, SolidEnd, EndsInEquals, ShowAll, LexedAll;
    FreeUnparted(LexPadded(p));
    BodyNoList(p);
    BodyFree(p, LIST);
    InsideValid(e, p.trail);
    if NoTop(LexPadded(p), COLON) { BodyFree(p, COLON); }
    var body, inside := AddTail(p.body, e.Inside(p.trail)), e.Inside(p.trail);
    TailOk(p.body, inside);
    PaddedTailTokens(p, e);
    TailTokens(p.body, inside);
    MemberEnds(p.body);
    TailEnds(LexType(p.body), inside);
    SolidAppend(LexType(p.body), inside.Tokens());
    SolidNotEmpty(LexType(p.body), []);
    OkLexed(body);
    ShownEnds(LexType(body));
    SolidNotEmpty(LexType(body), []);
  }

  lemma {:induction false} LabelTail(name: seq<Lex>, value: seq<Lex>, zs: seq<Lex>)
    requires IsLabel(name, value) && NoTop(zs, QUESTION)
    ensures IsLabel(name, value + zs)
  {
    if NoTop(value, QUESTION) { NoTopAppend(value, zs, QUESTION); }
  }

  lemma {:induction false} FrontPlus(ps: seq<Padded>, q: Padded)
    requires ps != []
    ensures AllOk(ps) && PaddedOk(q) ==> AllOk(WithLast(ps, q))
    ensures PartsOk(ps) && q.lead == "" && q.trail == "" && Ok(q.body) ==> PartsOk(WithLast(ps, q))
    ensures CleanAll(ps) ==> CleanAll(ps[..|ps| - 1]) && Clean(Last(ps).body)
    ensures CleanAll(ps) && Clean(q.body) ==> CleanAll(WithLast(ps, q))
    ensures NoneEndsInEquals(ps) && !EndsInEquals(LexType(q.body)) ==> NoneEndsInEquals(WithLast(ps, q))
  {
    hide PaddedOk, Ok, Clean, EndsInEquals, LexType;
    var front := ps[..|ps| - 1];
    assert ps == front + [Last(ps)] && [Last(ps)][1..] == [] && [q][1..] == [];
    AllAppend(front, [Last(ps)]);
    AllAppend(front, [q]);
  }

  lemma {:induction false} LastReplacedFree(ps: seq<Padded>, q: Padded, needles: seq<Needle>)
    requires ps != [] && AllFree(ps, needles)
    ensures Free(LexPadded(Last(ps)), needles) && (Free(LexPadded(q), needles) ==> AllFree(WithLast(ps, q), needles))
  {
    hide LexPadded, NoTop;
    var qs, n := WithLast(ps, q), |ps| - 1;
    assert Free(LexPadded(ps[n]), needles);
    if Free(LexPadded(q), needles) {
      forall k | 0 <= k < |qs| ensures Free(LexPadded(qs[k]), needles) {
        if k < n { assert qs[k] == ps[k] && Free(LexPadded(ps[k]), needles); }
      }
    }
  }

  lemma {:induction false} TheseAreTailNeedles(needles: seq<Needle>)
    requires forall n :: n in needles ==> n in [COLON, Arrow, BAR, AMPERSAND]
    ensures forall n :: n in needles ==> TailNeedle(n)
  {
  }

  lemma {:induction false} FreeIsCalm(xs: seq<Lex>, e: Tail, needles: seq<Needle>)
    requires Free(xs, needles) && COLON in needles
    ensures Calm(xs, e)
  {
    hide NoTop, LexItems;
  }

  /** The last member with the tail: what the members are like then. */
  lemma {:induction false} MembersTailOk(ps: seq<Padded>, e: Tail, needles: seq<Needle>)
    requires ps != [] && AllOk(ps) && AllFree(ps, needles) && e.Valid() && NoTop(LexPadded(Last(ps)), LIST) && COLON in needles
    requires forall n :: n in needles ==> TailNeedle(n)
    ensures var qs := WithLast(ps, TailPadded(Last(ps), e));
      && AllOk(qs) && AllFree(qs, needles) && (CleanAll(ps) ==> CleanAll(qs))
      && (NoneEndsInEquals(ps) ==> NoneEndsInEquals(qs))
    decreases ps, 0
  {
    hide LexPadded, NoTop, PaddedOk, Clean, LexType, TailPadded, AllOk, CleanAll, AllFree, NoneEndsInEquals, EndsInEquals, TailNeedle, Free;
    var p := Last(ps);
    var q := TailPadded(p, e);
    LastOk(ps);
    FrontPlus(ps, q);
    LastReplacedFree(ps, q, needles);
    FreeIsCalm(LexPadded(p), e, needles);
    PartTailOk(p, e);
    FreeTail(LexPadded(p), e, needles);
  }

  lemma {:induction false} IntersectionTailOk(t: Type, e: Tail)
    requires t.Intersection? && Ok(t) && Takes(t, e) && e.Valid()
    ensures Ok(AddTail(t, e)) && (Clean(t) ==> Clean(AddTail(t, e)))
    decreases t, 0
  {
    hide LexPadded, NoTop, AllOk, CleanAll, AllFree, TailPadded, JoinLex, LexAll, Unparted;
    var needles := [COLON, Arrow, BAR, AMPERSAND];
    TheseAreTailNeedles(needles);
    LastOfJoin(t.members, '&');
    MembersTailOk(t.members, e, needles);
    TailTokens(t, e);
    OpenTail(LexType(t), e);
  }

  lemma {:induction false} LastOfJoin(ps: seq<Padded>, c: char)
    requires ps != [] && NoTop(JoinLex(LexAll(ps), c), LIST)
    ensures NoTop(LexPadded(Last(ps)), LIST)
    decreases |ps|
  {
    hide LexPadded, NoTop, JoinLex, LexAll;
    assert ps == [ps[0]] + ps[1..];
    if |ps| == 1 {
      JoinedOne(ps[0], c);
      assert ps == [ps[0]];
    } else {
      JoinedCons(ps[0], ps[1..], c);
      NoTopAppend(LexPadded(ps[0]) + [Ch(c)], JoinLex(LexAll(ps[1..]), c), LIST);
      LastOfJoin(ps[1..], c);
    }
  }

  lemma {:induction false} LastOfUnion(t: Type)
    requires t.Union? && t.members != [] && NoTop(LexType(t), LIST)
    ensures NoTop(LexPadded(Last(t.members)), LIST)
  {
    hide LexPadded, NoTop, JoinLex, LexAll, LexType;
    var rest := JoinLex(LexAll(t.members), '|');
    UnionShape(t.bar, t.members);
    assert t == Union(t.bar, t.members);
    NoTopAppend(if t.bar.Some? then Chars(t.bar.value) + [Ch('|')] else [], rest, LIST);
    LastOfJoin(t.members, '|');
  }

  lemma {:induction false} UnionTailOk(t: Type, e: Tail)
    requires t.Union? && Ok(t) && Takes(t, e) && e.Valid()
    ensures Ok(AddTail(t, e)) && (Clean(t) ==> Clean(AddTail(t, e)))
    decreases t, 0
  {
    hide LexPadded, NoTop, AllOk, CleanAll, AllFree, TailPadded, Unparted, LexType, NoneEndsInEquals, AllSpace;
    var needles := [COLON, Arrow, BAR];
    TheseAreTailNeedles(needles);
    LastOfUnion(t);
    MembersTailOk(t.members, e, needles);
    TailTokens(t, e);
    OpenTail(LexType(t), e);
  }

  lemma {:induction false} FlatTailOk(t: Type, e: Tail)
    requires t.Flat? && Ok(t) && Takes(t, e) && e.Valid()
    ensures Ok(AddTail(t, e)) && (Clean(t) ==> Clean(AddTail(t, e)))
  {
    hide NoTop, ItemsOk, CleanItems, LexItems, Unparted;
    var needles := [COLON, Arrow, BAR, AMPERSAND];
    TheseAreTailNeedles(needles);
    TailItems(e);
    LexItemsAppend(t.items, e.Items());
    ItemsAppend(t.items, e.Items());
    FreeTail(LexItems(t.items), e, needles);
    OpenTail(LexItems(t.items), e);
  }

  lemma {:induction false} BehindFree(xs: seq<Lex>, ys: seq<Lex>)
    requires NoTop(xs + ys, LIST)
    ensures NoTop(ys, LIST)
  {
    hide NoTop;
    NoTopAppend(xs, ys, LIST);
  }

  lemma {:induction false} FunctionTailOk(t: Type, e: Tail)
    requires t.Function? && Ok(t) && Takes(t, e) && e.Valid()
    ensures Ok(AddTail(t, e)) && (Clean(t) ==> Clean(AddTail(t, e)))
    decreases t, 0
  {
    hide NoTop, ItemsOk, CleanItems, LexItems, Unparted, LexPadded, PaddedOk, TailPadded;
    var needles := [COLON];
    TheseAreTailNeedles(needles);
    BehindFree(LexItems(t.params) + [Fat], LexPadded(t.result));
    FreeIsCalm(LexPadded(t.result), e, needles);
    PartTailOk(t.result, e);
    FreeTail(LexPadded(t.result), e, needles);
    TailTokens(t, e);
    OpenTail(LexType(t), e);
  }

  lemma {:induction false} ColonNotCalm(t: Type, e: Tail)
    requires Ok(t) && (t.Labelled? || t.Conditional?) && Calm(LexType(t), e)
    ensures NoTop(LexItems(e.items), QUESTION)
  {
    hide Ok, LexType, NoTop, LexItems;
    TopShows(t);
  }

  lemma {:induction false} QuestionHides(e: Tail)
    requires e.Valid() && NoTop(LexItems(e.items), QUESTION)
    ensures NoTop(e.Tokens(), QUESTION)
  {
    hide NoTop, LexItems, AllSpace, Unparted, SolidStart, SolidEnd, EndsInEquals;
    SpaceNoTop(e.space, QUESTION);
    SpaceNoTop(e.after, QUESTION);
    NoTopAppend(Chars(e.space) + LexItems(e.items), Chars(e.after), QUESTION);
    NoTopAppend(Chars(e.space), LexItems(e.items), QUESTION);
  }

  lemma {:induction false} LabelTailOk(t: Type, e: Tail)
    requires t.Labelled? && Ok(t) && Takes(t, e) && e.Valid()
    ensures Ok(AddTail(t, e)) && (Clean(t) ==> Clean(AddTail(t, e)))
    decreases t, 0
  {
    hide NoTop, ItemsOk, CleanItems, LexItems, Unparted, LexPadded, PaddedOk, TailPadded, IsLabel;
    BehindFree(LexItems(t.name) + [Ch(':')], LexPadded(t.value));
    ColonNotCalm(t, e);
    PartTailOk(t.value, e);
    QuestionHides(e);
    LabelTail(LexItems(t.name), LexPadded(t.value), e.Tokens());
    TailTokens(t, e);
    OpenTail(LexType(t), e);
  }

  lemma {:induction false} ConditionalTailOk(t: Type, e: Tail)
    requires t.Conditional? && Ok(t) && Takes(t, e) && e.Valid()
    ensures Ok(AddTail(t, e)) && (Clean(t) ==> Clean(AddTail(t, e)))
    decreases t, 0
  {
    hide NoTop, Unparted, LexPadded, PaddedOk, TailPadded;
    var branches := LexPadded(t.yes) + [Ch(':')] + LexPadded(t.no);
    BehindFree(LexPadded(t.check) + [Ch('?')], branches);
    BehindFree(LexPadded(t.yes) + [Ch(':')], LexPadded(t.no));
    ColonNotCalm(t, e);
    PartTailOk(t.no, e);
    TailTokens(t, e);
    OpenTail(LexType(t), e);
  }

  lemma {:induction false} StartsStay(s: string, more: string)
    requires StartsSolid(s) && Trim(s) != ""
    ensures StartsSolid(s + more) && Trim(s + more) != ""
  {
    hide Trim;
    TrimIsEmpty(s);
    TrimIsEmpty(s + more);
    SpaceAppend(s, more);
  }

  lemma {:induction false} SolidPartsLast(ps: seq<Padded>, q: Padded)
    requires ps != [] && SolidParts(LexAll(ps)) && (StartsSolid(ShowAll(LexPadded(Last(ps)))) ==> StartsSolid(ShowAll(LexPadded(q))))
    ensures SolidParts(LexAll(WithLast(ps, q)))
    decreases |ps|
  {
    hide LexPadded, StartsSolid, ShowAll;
    if |ps| == 1 {
      assert WithLast(ps, q) == [q];
      assert LexAll([q]) == [LexPadded(q)] && LexAll(ps)[0] == LexPadded(ps[0]);
      assert [LexPadded(q)][1..] == [];
    } else {
      assert LexAll(ps)[1..] == LexAll(ps[1..]);
      SolidPartsLast(ps[1..], q);
      assert WithLast(ps, q)[1..] == WithLast(ps[1..], q) && WithLast(ps, q)[0] == ps[0];
      assert LexAll(WithLast(ps, q))[1..] == LexAll(WithLast(ps[1..], q));
    }
  }

  lemma {:induction false} SolidAt(parts: seq<seq<Lex>>, k: nat)
    requires SolidParts(parts) && k < |parts|
    ensures StartsSolid(ShowAll(parts[k]))
    decreases k
  {
    hide ShowAll;
    if k == 0 {
    } else {
      SolidAt(parts[1..], k - 1);
    }
  }

  lemma {:induction false} ListEnds(parts: seq<seq<Lex>>, separators: seq<string>, n: Needle)
    requires |parts| == |separators| + 1 && NoTop(JoinList(parts, separators), n)
    ensures NoTop(parts[|parts| - 1], n)
  {
    hide NoTop;
    if |parts| == 1 {
    } else {
      JoinTwo(parts, separators);
      NoTopAppend(parts[0] + Chars(separators[0]), JoinList(parts[1..], separators[1..]), n);
      ListEnds(parts[1..], separators[1..], n);
    }
  }

  lemma {:induction false} LastCalm(t: Type, e: Tail)
    requires t.List? && t.parts != [] && |t.parts| == |t.separators| + 1 && Calm(LexType(t), e)
    requires LexPadded(Last(t.parts)) == LexType(Last(t.parts).body)
    ensures Calm(LexType(Last(t.parts).body), e)
  {
    hide LexPadded, NoTop, LexItems, JoinList, LexAll;
    if NoTop(LexType(t), COLON) {
      ListEnds(LexAll(t.parts), t.separators, COLON);
      LexAllAt(t.parts, |t.parts| - 1);
    }
  }

  lemma {:induction false} ListTailOk(t: Type, e: Tail)
    requires t.List? && Ok(t) && Takes(t, e) && e.Valid()
    ensures Ok(AddTail(t, e)) && (Clean(t) ==> Clean(AddTail(t, e)))
    decreases t, 0
  {
    hide NoTop, Unparted, LexPadded, PartsOk, CleanAll, AllFree, SolidParts, SeparatorsOk, Trim, LexAll, StartsSolid, LexType, ShowAll, AddTail, Ok;
    var ps, body := t.parts, AddTail(Last(t.parts).body, e);
    var q := Padded("", body, "");
    ListLast(t);
    ListGiven(t);
    LastOpen(t);
    LastCalm(t, e);
    FrontPlus(ps, q);
    TailOk(Last(ps).body, e);
    PartText(q);
    TailTokens(Last(ps).body, e);
    TailPrinted(Last(ps).body, e);
    OpenTail(LexType(Last(ps).body), e);
    LexAllAt(ps, |ps| - 1);
    StartsStay(Print(Last(ps).body), e.Text());
    assert WithLast(ps, q)[1..] == WithLast(ps[1..], q) && Last(ps[1..]) == Last(ps);
    SolidPartsLast(ps[1..], q);
    ListTailFits(t, WithLast(ps, q));
    AddToList(t, e);
  }

  lemma {:induction false} AddToList(t: Type, e: Tail)
    requires t.List? && t.parts != []
    ensures AddTail(t, e) == List(WithLast(t.parts, Padded("", AddTail(Last(t.parts).body, e), "")), t.separators)
  {
  }

  lemma {:induction false} ListGiven(t: Type)
    requires t.List? && Ok(t)
    ensures var ps := t.parts;
      && |ps| >= 2 && |ps| == |t.separators| + 1 && PartsOk(ps) && AllFree(ps[..|ps| - 1], [LIST]) && SeparatorsOk(t.separators)
      && SolidParts(LexAll(ps[1..])) && Trim(Print(Last(ps).body)) != "" && StartsSolid(Print(Last(ps).body)) && (Clean(t) ==> CleanAll(ps))
  {
    hide Unparted, LexPadded, PartsOk, CleanAll, AllFree, SolidParts, SeparatorsOk, Trim, LexAll, StartsSolid, LexType, ShowAll;
    var ps := t.parts;
    LastOk(ps);
    PartText(Last(ps));
    LexAllAt(ps[1..], |ps| - 2);
    SolidAt(LexAll(ps[1..]), |ps| - 2);
  }

  lemma {:induction false} LastOpen(t: Type)
    requires t.List? && Ok(t) && Open(t)
    ensures Open(Last(t.parts).body)
  {
    hide Ok, LexType, NoTop, Unparted, LexPadded;
    ListLast(t);
  }

  lemma {:induction false} ListTailFits(t: Type, qs: seq<Padded>)
    requires t.List? && Ok(t) && |qs| == |t.parts| >= 2 && qs[..|qs| - 1] == t.parts[..|qs| - 1]
    requires PartsOk(qs) && (CleanAll(t.parts) ==> CleanAll(qs)) && Unparted(LexPadded(Last(qs))) && SolidParts(LexAll(qs[1..])) && Trim(Print(Last(qs).body)) != ""
    ensures Ok(List(qs, t.separators)) && (Clean(t) ==> Clean(List(qs, t.separators)))
  {
    hide Unparted, LexPadded, PartsOk, CleanAll, AllFree, SolidParts, SeparatorsOk, Trim, LexAll, StartsSolid, LexType, ShowAll;
  }

  /** A type that does not end in a separator, with a tail, is again a tree of the grammar. */
  lemma {:induction false} TailOk(t: Type, e: Tail)
    requires Ok(t) && Takes(t, e) && e.Valid()
    ensures Ok(AddTail(t, e)) && (Clean(t) ==> Clean(AddTail(t, e)))
    decreases t, 1
  {
    hide Ok, Clean, Takes, AddTail;
    match t
    case Flat(_) => FlatTailOk(t, e);
    case Intersection(_) => IntersectionTailOk(t, e);
    case Union(_, _) => UnionTailOk(t, e);
    case Function(_, _) => FunctionTailOk(t, e);
    case Labelled(_, _) => LabelTailOk(t, e);
    case Conditional(_, _, _) => ConditionalTailOk(t, e);
    case List(_, _) => ListTailOk(t, e);
  }
}
