/** A bound with something else behind it, `T extends A | B = C` or `T extends A | B ? C`: the bound's first
    member is read with `T extends`, its last with what follows. */
module TypeDefaults {
  import opened Strings
  import opened TypeText
  import opened TypeLexis
  import opened TypeGrammar
  import opened TypeCanonicity
  import opened TypeTokens
  import opened TypeShapes
  import opened TypeTheorems
  import opened TypeCanonTree
  import opened TypeCanonStands
  import opened TypeCanonShapes
  import opened TypeRecovered
  import opened TypeComplete
  import opened TypeContexts
  import opened TypeReplace
  import opened TypeTails
  import opened TypeSeparators
  import opened TypeBounds

  // ---------- The tree that is read ----------

  /** The bound `t` behind the head, the default's first text as tail, and its other members. */
  function WithDefault(hs: seq<Item>, t: Type, e: Tail, others: seq<Padded>): Type
    requires t.Union? && |t.members| >= 2
  {
    var ps, n := t.members, |t.members| - 1;
    Union(None, [GluedTo(hs, ps[0])] + ps[1..n] + [TailPadded(ps[n], e)] + others)
  }

  function OtherText(others: seq<Padded>): string {
    if others == [] then "" else "|" + ShowAll(JoinLex(LexAll(others), '|'))
  }

  lemma {:induction false} JoinBoth(ps: seq<Padded>, qs: seq<Padded>, c: char)
    requires ps != [] && qs != []
    ensures JoinLex(LexAll(ps + qs), c) == JoinLex(LexAll(ps), c) + [Ch(c)] + JoinLex(LexAll(qs), c)
    decreases |ps|
  {
    hide LexPadded, JoinLex, LexAll;
    assert ps == [ps[0]] + ps[1..];
    if |ps| == 1 {
      assert ps == [ps[0]];
      JoinedOne(ps[0], c);
      JoinedCons(ps[0], qs, c);
    } else {
      JoinBoth(ps[1..], qs, c);
      assert ps + qs == [ps[0]] + (ps[1..] + qs);
      JoinedCons(ps[0], ps[1..], c);
      JoinedCons(ps[0], ps[1..] + qs, c);
      Regroup(LexPadded(ps[0]), [Ch(c)], JoinLex(LexAll(ps[1..]), c), JoinLex(LexAll(qs), c));
    }
  }

  lemma {:induction false} Regroup(a: seq<Lex>, m: seq<Lex>, b: seq<Lex>, d: seq<Lex>)
    ensures a + m + (b + m + d) == a + m + b + m + d
  {
  }

  /** Tokens of the members of a bound between its head and its default. */
  lemma {:induction false} BothEnds(ps: seq<Padded>, p: Padded, q: Padded, xs: seq<Lex>, zs: seq<Lex>)
    requires |ps| >= 2 && LexPadded(p) == xs + LexPadded(ps[0]) && LexPadded(q) == LexPadded(Last(ps)) + zs
    ensures JoinLex(LexAll([p] + ps[1..|ps| - 1] + [q]), '|') == xs + JoinLex(LexAll(ps), '|') + zs
  {
    hide LexPadded, JoinLex, LexAll;
    var rest := ps[1..];
    assert [p] + ps[1..|ps| - 1] + [q] == [p] + WithLast(rest, q) && ps == [ps[0]] + rest && Last(rest) == Last(ps);
    JoinLast(rest, q, zs, '|');
    JoinedCons(p, WithLast(rest, q), '|');
    JoinedCons(ps[0], rest, '|');
    EndsMove(xs, LexPadded(ps[0]), [Ch('|')], JoinLex(LexAll(rest), '|'), zs);
  }

  lemma {:induction false} EndsMove(xs: seq<Lex>, a: seq<Lex>, m: seq<Lex>, b: seq<Lex>, zs: seq<Lex>)
    ensures xs + a + m + (b + zs) == xs + (a + m + b) + zs
  {
  }

  /** What is needed of a bound. */
  ghost predicate IsBound(mark: Needle, t: Type) {
    && t.Union? && Ok(t) && Clean(t) && t.bar.None? && SolidStart(LexType(t)) && Open(t) && |t.members| >= 2
    && IsOpening(mark) && NoTop(LexType(t), mark)
  }

  lemma {:induction false} EndsOfBound(mark: Needle, hs: seq<Item>, t: Type, e: Tail)
    requires IsHead(hs) && IsBound(mark, t) && e.Valid()
    ensures var ps := t.members; var last := Last(ps);
      && LexPadded(GluedTo(hs, ps[0])) == LexItems(hs) + LexPadded(ps[0]) && LexPadded(TailPadded(last, e)) == LexPadded(last) + e.Tokens()
      && Expect(Glued(hs, ps[0].body)) == ExpectItems(hs) + Expect(ps[0].body) && PaddedOk(ps[0]) && PaddedOk(last)
      && Expect(AddTail(last.body, e.Inside(last.trail))) == Expect(last.body) + (last.trail + e.space + ExpectItems(e.items))
  {
    hide Ok, Clean, LexType, LexPadded, NoTop, SolidStart, Unparted, Expect, ExpectItems, PaddedOk, AddTail, LexItems, Glued, IsHead, AllOk, AllFree,
      LeftEnd, EndsInEquals, TailPadded;
    UnionStarts(t);
    var ps, needles := t.members, [COLON, Arrow, BAR];
    FirstUnparted(ps);
    FirstOk(ps);
    FirstFree(ps, needles);
    assert needles[0] == COLON && needles[2] == BAR;
    MemberGlues(ps[0]);
    PartGlued(hs, ps[0], needles);
    MemberExpected(hs, ps[0]);
    LastOk(ps);
    LastFree(ps, needles);
    OpenIs(t);
    LastOfUnion(t);
    FlatOrJoined(Last(ps), needles);
    PartTailKept(Last(ps), e);
    PaddedTailTokens(Last(ps), e);
  }

  lemma {:induction false} OpenIs(t: Type)
    requires Open(t) && !t.List?
    ensures NoTop(LexType(t), LIST)
  {
    hide NoTop, LexType;
  }

  lemma {:induction false} DefaultPrinted(mark: Needle, hs: seq<Item>, t: Type, e: Tail, others: seq<Padded>)
    requires IsHead(hs) && IsBound(mark, t) && e.Valid()
    ensures Print(WithDefault(hs, t, e, others)) == Bound(hs, t) + e.Text() + OtherText(others)
  {
    hide Ok, Clean, LexPadded, NoTop, SolidStart, Expect, PaddedOk, LexItems, IsHead, ShowAll, JoinLex, LexAll, LexType, GluedTo, TailPadded;
    var ps := t.members;
    var p, q := GluedTo(hs, ps[0]), TailPadded(Last(ps), e);
    var qs := [p] + ps[1..|ps| - 1] + [q];
    EndsOfBound(mark, hs, t, e);
    BothEnds(ps, p, q, LexItems(hs), e.Tokens());
    UnionShape(None, ps);
    UnionShape(None, qs + others);
    assert t == Union(None, ps);
    var xs := JoinLex(LexAll(qs), '|');
    assert [] + JoinLex(LexAll(ps), '|') == LexType(t);
    BoundAndTail(hs, t, e, xs);
    if others == [] {
      assert qs + others == qs && [] + xs == xs;
      assert ShowAll(xs) + "" == ShowAll(xs);
    } else {
      JoinBoth(qs, others, '|');
      ShowSplit(xs, Ch('|'), JoinLex(LexAll(others), '|'));
      assert [] + JoinLex(LexAll(qs + others), '|') == JoinLex(LexAll(qs + others), '|');
    }
  }

  lemma {:induction false} BoundAndTail(hs: seq<Item>, t: Type, e: Tail, xs: seq<Lex>)
    requires xs == LexItems(hs) + LexType(t) + e.Tokens()
    ensures ShowAll(xs) == Bound(hs, t) + e.Text()
  {
    hide LexType, LexItems, ShowAll;
    ShowAppend(LexItems(hs) + LexType(t), e.Tokens());
    ShowAppend(LexItems(hs), LexType(t));
    TailShown(e);
  }

  // ---------- An equals sign or a question mark tells the last member ----------

  /** What begins what stands behind the bound: `=` a default, `?` the branches of a conditional type. */
  predicate IsOpening(n: Needle) { n in [EQUALS, QUESTION] }

  predicate Shows(mark: Needle, s: string) { TopIndex(s, mark) >= 0 }

  lemma {:induction false} MarkFound(mark: Needle, xs: seq<Lex>)
    requires LexedAll(xs)
    ensures Shows(mark, ShowAll(xs)) <==> !NoTop(xs, mark)
  {
    hide LexedAll, ShowAll, TopIndex;
    if NoTop(xs, mark) {
      FindNone(xs, mark);
    } else {
      var k := FirstHit(xs, mark);
      SplitHere(xs, k);
      FindFirst(ShowAll(xs), xs[..k], xs[k], xs[k + 1..], mark);
    }
  }

  /** The tokens of normalised items. */
  lemma {:induction false} ItemTokens(mark: Needle, items: seq<Item>)
    requires ItemsOk(items) && CleanItems(items)
    ensures var xs := LexItems(CanonItems(items));
      LexedAll(xs) && ShowAll(xs) == ExpectItems(items) && (NoTop(xs, mark) <==> NoTop(LexItems(items), mark))
  {
    hide ItemsOk, CleanItems, LexedAll, ShowAll, LexItems, CanonItems;
    ItemsStand(items);
    AlikeMarks(mark, LexItems(items), LexItems(CanonItems(items)));
  }

  lemma {:induction false} AlikeMarks(mark: Needle, xs: seq<Lex>, ys: seq<Lex>)
    requires AllAlike(xs, ys)
    ensures NoTop(ys, mark) <==> NoTop(xs, mark)
  {
    forall k | 0 <= k < |xs| ensures Hits(xs[k], mark) <==> Hits(ys[k], mark) { assert Alike(xs[k], ys[k]); }
  }

  lemma {:induction false} BodyTokens(mark: Needle, t: Type)
    requires IsOpening(mark) && Ok(t) && Clean(t) && NoTop(LexType(t), mark)
    ensures LexedAll(Canonical(t)) && ShowAll(Canonical(t)) == Expect(t) && NoTop(Canonical(t), mark)
  {
    hide Ok, Clean, LexType, NoTop, Canon, Expect, LexedAll, ShowAll, SolidStart, SolidEnd, SomeSolid, EndsInEquals;
    CanonStands(t);
    assert IsNeedle(mark);
  }

  lemma {:induction false} BodyHasNone(mark: Needle, t: Type)
    requires IsOpening(mark) && Ok(t) && Clean(t) && NoTop(LexType(t), mark)
    ensures !Shows(mark, Expect(t))
  {
    hide Ok, Clean, LexType, NoTop, Canonical, Expect, LexedAll, ShowAll, Shows;
    BodyTokens(mark, t);
    MarkFound(mark, Canonical(t));
  }

  lemma {:induction false} HeadHasNone(mark: Needle, hs: seq<Item>, t: Type)
    requires IsOpening(mark) && IsHead(hs) && NoTop(LexItems(hs), mark) && Ok(t) && Clean(t) && NoTop(LexType(t), mark)
    ensures !Shows(mark, ExpectItems(hs) + Expect(t))
  {
    hide Ok, Clean, LexType, NoTop, Canonical, Expect, LexedAll, ShowAll, Shows, LexItems, CanonItems, ExpectItems, ItemsOk, CleanItems, SolidStart;
    BodyTokens(mark, t);
    ItemTokens(mark, hs);
    var xs := LexItems(CanonItems(hs));
    LexedAppend(xs, Canonical(t));
    ShowAppend(xs, Canonical(t));
    NoTopAppend(xs, Canonical(t), mark);
    MarkFound(mark, xs + Canonical(t));
  }

  lemma {:induction false} TailHasOne(mark: Needle, t: Type, e: Tail, trail: string)
    requires IsOpening(mark) && Ok(t) && Clean(t) && NoTop(LexType(t), mark) && e.Valid() && !NoTop(LexItems(e.items), mark) && AllSpace(trail)
    ensures Shows(mark, Expect(t) + (trail + e.space + ExpectItems(e.items)))
  {
    hide Ok, Clean, LexType, NoTop, Canonical, Expect, LexedAll, ShowAll, Shows, LexItems, CanonItems, ExpectItems, ItemsOk, CleanItems, AllSpace,
      SolidStart, SolidEnd, EndsInEquals, Unparted;
    BodyTokens(mark, t);
    ItemTokens(mark, e.items);
    var xs, ys, zs := Canonical(t), Chars(trail + e.space), LexItems(CanonItems(e.items));
    SpaceAppend(trail, e.space);
    SpaceLexed(trail + e.space);
    CharsShown(trail + e.space);
    LexedAppend(ys, zs);
    LexedAppend(xs, ys + zs);
    ShowAppend(ys, zs);
    ShowAppend(xs, ys + zs);
    NoTopAppend(ys, zs, mark);
    NoTopAppend(xs, ys + zs, mark);
    MarkFound(mark, xs + (ys + zs));
  }

  // ---------- Bags of members ----------

  /** Only one element of each bag shows the mark. */
  lemma {:induction false} MarkedAgree(
    mark: Needle, bag: multiset<string>, a: multiset<string>, b: multiset<string>, out: multiset<string>, out': multiset<string>,
    h: string, x: string, h': string, x': string)
    requires a + out == bag + multiset{h, x} && b + out' == bag + multiset{h', x'} && out <= bag && out' <= bag
    requires (forall s :: s in bag ==> !Shows(mark, s)) && !Shows(mark, h) && !Shows(mark, h') && Shows(mark, x) && Shows(mark, x')
    ensures a == b ==> x == x'
  {
    hide Shows;
    assert x !in bag && x !in out && x !in out';
    assert (a + out)[x] == a[x] + out[x] && (bag + multiset{h, x})[x] == bag[x] + multiset{h, x}[x];
    assert (b + out')[x] == b[x] + out'[x] && (bag + multiset{h', x'})[x] == bag[x] + multiset{h', x'}[x];
    assert h != x && h' != x;
    assert multiset{h, x}[x] == 1 && multiset{h', x'}[x] == (if x' == x then 1 else 0);
  }

  lemma {:induction false} AddBag(a: multiset<string>, b: multiset<string>, others: multiset<string>)
    ensures a + others == b + others <==> a == b
  {
    assert a == (a + others) - others && b == (b + others) - others;
  }

  lemma {:induction false} TwoEnds(x: string, m: seq<string>, y: string)
    ensures multiset([x] + m + [y]) == multiset(m) + multiset{x, y}
  {
    var s := [x] + m;
    assert multiset(s + [y]) == multiset(s) + multiset{y};
    assert multiset(s) == multiset{x} + multiset(m);
  }

  lemma {:induction false} Shuffle(m: multiset<string>, p: multiset<string>, q: multiset<string>, o: multiset<string>)
    ensures (m + p) + o + q == (m + q) + p + o && q <= m + q
  {
  }

  lemma {:induction false} PlusOthers(s: seq<string>, o: seq<string>)
    ensures multiset(s + o) == multiset(s) + multiset(o)
  {
  }

  /** Replacing the first and the last of some strings, and adding others. */
  lemma {:induction false} Bags(x: string, y: string, x': string, y': string, m: seq<string>, o: seq<string>)
    ensures multiset(([x'] + m + [y']) + o) + multiset{x, y} == multiset([x] + m + [y]) + multiset{x', y'} + multiset(o)
    ensures multiset{x, y} <= multiset([x] + m + [y])
  {
    PlusOthers([x'] + m + [y'], o);
    TwoEnds(x', m, y');
    TwoEnds(x, m, y);
    Shuffle(multiset(m), multiset{x', y'}, multiset{x, y}, multiset(o));
  }

  lemma {:induction false} EndBodies(ps: seq<Padded>, p: Padded, q: Padded)
    requires |ps| >= 2
    ensures ExpectBodies([p] + ps[1..|ps| - 1] + [q])
         == [Expect(p.body)] + ExpectBodies(ps[1..|ps| - 1]) + [Expect(q.body)]
  {
    hide Expect, ExpectBodies;
    var mid := ps[1..|ps| - 1];
    BodiesAround([p] + mid, q, []);
    BodiesAround([], p, mid);
    NoBodies();
    assert [] + [p] + mid == [p] + mid && [p] + mid + [q] + [] == [p] + mid + [q];
    NothingAround(Expect(p.body), ExpectBodies(mid), Expect(q.body));
  }

  lemma {:induction false} NothingAround(x: string, m: seq<string>, y: string)
    ensures ([] + [x] + m) + [y] + [] == [x] + m + [y]
  {
  }

  lemma {:induction false} DefaultTexts(hs: seq<Item>, t: Type, e: Tail, others: seq<Padded>)
    requires t.Union? && |t.members| >= 2
    ensures var ps := t.members; var mid := ExpectBodies(ps[1..|ps| - 1]);
      && ExpectBodies(ps) == [Expect(ps[0].body)] + mid + [Expect(Last(ps).body)]
      && ExpectBodies(WithDefault(hs, t, e, others).members)
         == ([Expect(Glued(hs, ps[0].body))] + mid + [Expect(AddTail(Last(ps).body, e.Inside(Last(ps).trail)))]) + ExpectBodies(others)
  {
    hide Expect, ExpectBodies, AddTail, Glued;
    var ps := t.members;
    var p, q := GluedTo(hs, ps[0]), TailPadded(Last(ps), e);
    assert [ps[0]] + ps[1..|ps| - 1] + [Last(ps)] == ps;
    EndBodies(ps, ps[0], Last(ps));
    EndBodies(ps, p, q);
    BodiesAppend([p] + ps[1..|ps| - 1] + [q], others);
  }

  /** The normalised members of the tree that is read: the bound's, its first and last replaced, and the others. */
  lemma {:induction false} DefaultBodies(mark: Needle, hs: seq<Item>, t: Type, e: Tail, others: seq<Padded>)
    requires IsHead(hs) && IsBound(mark, t) && e.Valid()
    ensures var ps := t.members; var x, y := Expect(ps[0].body), Expect(Last(ps).body);
      var z := Last(ps).trail + e.space + ExpectItems(e.items);
      && multiset(ExpectBodies(WithDefault(hs, t, e, others).members)) + multiset{x, y}
         == multiset(ExpectBodies(ps)) + multiset{ExpectItems(hs) + x, y + z} + multiset(ExpectBodies(others))
      && multiset{x, y} <= multiset(ExpectBodies(ps))
  {
    hide Ok, Clean, LexPadded, NoTop, SolidStart, Expect, PaddedOk, LexItems, IsHead, LexType, AddTail, Glued, ExpectBodies, ExpectItems, Open,
      WithDefault;
    EndsOfBound(mark, hs, t, e);
    DefaultTexts(hs, t, e, others);
    var ps := t.members;
    var x, y := Expect(ps[0].body), Expect(Last(ps).body);
    Bags(x, y, ExpectItems(hs) + x, y + (Last(ps).trail + e.space + ExpectItems(e.items)), ExpectBodies(ps[1..|ps| - 1]), ExpectBodies(others));
  }

  lemma {:induction false} TakeOut(a: multiset<string>, out: multiset<string>, n: multiset<string>, o: multiset<string>)
    requires a + out == n + o && out <= n
    ensures a == (n - out) + o && (n - out) + out == n
  {
    assert (n - out) + out == n;
    assert a == (a + out) - out;
    assert ((n - out) + o) == (((n - out) + out) + o) - out;
  }

  /** The last element taken out and put back with what follows it, the first still to be replaced. */
  lemma {:induction false} LastDone(a: multiset<string>, bag: multiset<string>, x: string, y: string, h: string, w: string)
    requires a + multiset{x, y} == bag + multiset{h, w} && y in bag
    ensures a + multiset{x} == ((bag - multiset{y}) + multiset{w}) + multiset{h}
  {
    assert multiset{x, y} == multiset{x} + multiset{y} && multiset{h, w} == multiset{w} + multiset{h};
    assert (bag - multiset{y}) + multiset{y} == bag;
    var rest := bag - multiset{y};
    Reorder(rest, multiset{y}, multiset{h}, multiset{w});
    CancelBag(a + multiset{x}, (rest + multiset{w}) + multiset{h}, y);
  }

  lemma {:induction false} Reorder(rest: multiset<string>, y: multiset<string>, h: multiset<string>, w: multiset<string>)
    ensures (rest + y) + (w + h) == ((rest + w) + h) + y
  {
  }

  /** Two ways of replacing the first and the last of one bag, only the last becoming marked. */
  lemma {:induction false} EndsOfBag(
    mark: Needle, bag: multiset<string>, a: multiset<string>, b: multiset<string>, head: string, tail: string, x: string, y: string, x': string, y': string)
    requires a + multiset{x, y} == bag + multiset{head + x, y + tail} && multiset{x, y} <= bag
    requires b + multiset{x', y'} == bag + multiset{head + x', y' + tail} && multiset{x', y'} <= bag
    requires (forall s :: s in bag ==> !Shows(mark, s)) && !Shows(mark, head + x) && !Shows(mark, head + x')
    requires Shows(mark, y + tail) && Shows(mark, y' + tail) && head != ""
    ensures a == b <==> x == x' && y == y'
  {
    hide Shows;
    MarkedAgree(mark, bag, a, b, multiset{x, y}, multiset{x', y'}, head + x, y + tail, head + x', y' + tail);
    if y + tail == y' + tail {
      Around("", y, y', tail);
      assert "" + y + tail == y + tail && "" + y' + tail == y' + tail;
      LastsAgree(bag, a, b, head, y + tail, x, x', y);
    } else if y == y' {
      assert false;
    }
  }

  lemma {:induction false} LastsAgree(
    bag: multiset<string>, a: multiset<string>, b: multiset<string>, head: string, w: string, x: string, x': string, y: string)
    requires a + multiset{x, y} == bag + multiset{head + x, w} && multiset{x, y} <= bag
    requires b + multiset{x', y} == bag + multiset{head + x', w} && head != ""
    ensures a == b <==> x == x'
  {
    assert y in bag;
    LastDone(a, bag, x, y, head + x, w);
    LastDone(b, bag, x', y, head + x', w);
    assert |head + x| > |x|;
    ReplacedWhere((bag - multiset{y}) + multiset{w}, a, b, x, head + x, x', head + x');
  }

  // ---------- First and last member decide ----------

  /** What is needed of two bounds and what stands around them. */
  ghost predicate BoundPair(mark: Needle, hs: seq<Item>, t: Type, u: Type, e: Tail) {
    && IsHead(hs) && NoTop(LexItems(hs), mark) && IsBound(mark, t) && IsBound(mark, u) && Same(t, u)
    && e.Valid() && !NoTop(LexItems(e.items), mark) && Last(t.members).trail == Last(u.members).trail
  }

  lemma {:induction false} MembersHaveNone(mark: Needle, t: Type)
    requires IsBound(mark, t)
    ensures forall s :: s in multiset(ExpectBodies(t.members)) ==> !Shows(mark, s)
    ensures Ok(t.members[0].body) && Clean(t.members[0].body) && NoTop(LexType(t.members[0].body), mark)
    ensures var y := Last(t.members); PaddedOk(y) && Clean(y.body) && NoTop(LexType(y.body), mark)
  {
    hide Ok, Clean, LexType, NoTop, Expect, Shows, SolidStart, Open, PaddedOk, ExpectBodies;
    var ps := t.members;
    UnionBack(t, mark);
    MembersGood(t);
    forall s | s in multiset(ExpectBodies(ps)) ensures !Shows(mark, s) {
      var j := FindBody(ps, s);
      BodyHasNone(mark, ps[j].body);
    }
    UnionStarts(t);
    LastOk(ps);
    assert Last(ps) == ps[|ps| - 1];
  }

  lemma {:induction false} DefaultsAgree(mark: Needle, hs: seq<Item>, t: Type, u: Type, e: Tail, others: seq<Padded>)
    requires BoundPair(mark, hs, t, u, e) && Ok(WithDefault(hs, t, e, others)) && Ok(WithDefault(hs, u, e, others))
    requires Clean(WithDefault(hs, t, e, others)) && Clean(WithDefault(hs, u, e, others))
    ensures Expect(WithDefault(hs, t, e, others)) == Expect(WithDefault(hs, u, e, others))
       <==> Expect(t.members[0].body) == Expect(u.members[0].body) && Expect(Last(t.members).body) == Expect(Last(u.members).body)
  {
    hide Ok, Clean, LexType, NoTop, Expect, Shows, SolidStart, Open, PaddedOk, ExpectBodies, LexItems, WithDefault, ExpectItems, IsHead, SameBag;
    DefaultIsUnion(hs, t, e, others);
    DefaultIsUnion(hs, u, e, others);
    ExpectedUnions(WithDefault(hs, t, e, others), WithDefault(hs, u, e, others));
    SameUnion(t, u);
    DefaultBodies(mark, hs, t, e, others);
    DefaultBodies(mark, hs, u, e, others);
    MembersHaveNone(mark, t);
    MembersHaveNone(mark, u);
    EndTexts(mark, hs, t, e);
    EndTexts(mark, hs, u, e);
    HeadExpected(hs);
    BagsAgree(mark, multiset(ExpectBodies(t.members)), multiset(ExpectBodies(WithDefault(hs, t, e, others).members)),
              multiset(ExpectBodies(WithDefault(hs, u, e, others).members)), multiset(ExpectBodies(others)), ExpectItems(hs), TailOf(t, e),
              Expect(t.members[0].body), Expect(Last(t.members).body), Expect(u.members[0].body), Expect(Last(u.members).body));
  }

  lemma {:induction false} DefaultIsUnion(hs: seq<Item>, t: Type, e: Tail, others: seq<Padded>)
    requires t.Union? && |t.members| >= 2
    ensures WithDefault(hs, t, e, others).Union?
  {
  }

  function TailOf(t: Type, e: Tail): string
    requires t.Union? && t.members != []
  {
    Last(t.members).trail + e.space + ExpectItems(e.items)
  }

  lemma {:induction false} EndTexts(mark: Needle, hs: seq<Item>, t: Type, e: Tail)
    requires IsHead(hs) && NoTop(LexItems(hs), mark) && IsBound(mark, t) && e.Valid() && !NoTop(LexItems(e.items), mark)
    ensures !Shows(mark, ExpectItems(hs) + Expect(t.members[0].body)) && Shows(mark, Expect(Last(t.members).body) + TailOf(t, e))
  {
    hide Ok, Clean, LexType, NoTop, Expect, Shows, SolidStart, Open, ExpectBodies, LexItems, ExpectItems, IsHead;
    MembersHaveNone(mark, t);
    HeadHasNone(mark, hs, t.members[0].body);
    TailHasOne(mark, Last(t.members).body, e, Last(t.members).trail);
  }

  /** The same with other elements added to both. */
  lemma {:induction false} BagsAgree(
    mark: Needle, bag: multiset<string>, a: multiset<string>, b: multiset<string>, o: multiset<string>, head: string, tail: string,
    x: string, y: string, x': string, y': string)
    requires a + multiset{x, y} == bag + multiset{head + x, y + tail} + o && multiset{x, y} <= bag
    requires b + multiset{x', y'} == bag + multiset{head + x', y' + tail} + o && multiset{x', y'} <= bag
    requires (forall s :: s in bag ==> !Shows(mark, s)) && !Shows(mark, head + x) && !Shows(mark, head + x')
    requires Shows(mark, y + tail) && Shows(mark, y' + tail) && head != ""
    ensures a == b <==> x == x' && y == y'
  {
    hide Shows;
    var n, n' := bag + multiset{head + x, y + tail}, bag + multiset{head + x', y' + tail};
    TakeOut(a, multiset{x, y}, n, o);
    TakeOut(b, multiset{x', y'}, n', o);
    AddBag(n - multiset{x, y}, n' - multiset{x', y'}, o);
    EndsOfBag(mark, bag, n - multiset{x, y}, n' - multiset{x', y'}, head, tail, x, y, x', y');
  }

  /** In every place of a larger type: two printings of a bound with a default or with branches behind it agree
      exactly when the bound's first members do and its last members do. */
  lemma {:induction false} BoundWithDefaultDecides(mark: Needle, c: Context, hs: seq<Item>, t: Type, u: Type, e: Tail, others: seq<Padded>)
    requires BoundPair(mark, hs, t, u, e) && Fits(c, WithDefault(hs, t, e, others)) && Fits(c, WithDefault(hs, u, e, others))
    ensures Print(WithDefault(hs, t, e, others)) == Bound(hs, t) + e.Text() + OtherText(others)
    ensures Print(WithDefault(hs, u, e, others)) == Bound(hs, u) + e.Text() + OtherText(others)
    ensures NormaliseTypeText(Print(Plug(c, WithDefault(hs, t, e, others)))) == NormaliseTypeText(Print(Plug(c, WithDefault(hs, u, e, others))))
       <==> (NormaliseTypeText(Print(t.members[0].body)) == NormaliseTypeText(Print(u.members[0].body))
             && NormaliseTypeText(Print(Last(t.members).body)) == NormaliseTypeText(Print(Last(u.members).body)))
  {
    hide Ok, Clean, LexType, NoTop, Expect, NormaliseTypeText, SolidStart, Open, LexItems, WithDefault, IsHead, Same, Print, Plug, Bound, OtherText;
    DefaultPrinted(mark, hs, t, e, others);
    DefaultPrinted(mark, hs, u, e, others);
    ExpectEverywhere(c, WithDefault(hs, t, e, others), WithDefault(hs, u, e, others));
    DefaultsAgree(mark, hs, t, u, e, others);
    MembersHaveNone(mark, t);
    MembersHaveNone(mark, u);
    BodyIsOk(Last(t.members));
    BodyIsOk(Last(u.members));
    NormalisesText(t.members[0].body);
    NormalisesText(u.members[0].body);
    NormalisesText(Last(t.members).body);
    NormalisesText(Last(u.members).body);
    NormalisesText(Plug(c, WithDefault(hs, t, e, others)));
    NormalisesText(Plug(c, WithDefault(hs, u, e, others)));
  }
}
