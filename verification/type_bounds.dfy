/** Text before a type that has no separator of its own, as in `T extends A | B` or `T = "b" | "a"`: the
    canonicaliser reads it as part of the type's first member. */
module TypeBounds {
  import opened Strings
  import opened TypeText
  import opened TypeLexis
  import opened TypeGrammar
  import opened TypeCanonicity
  import opened TypeTokens
  import opened TypeShapes
  import opened TypeTheorems
  import opened TypeCanonTree
  import opened TypeCanonOk
  import opened TypeReorder
  import opened TypeRecovered
  import opened TypeContexts
  import opened TypeReplace
  import opened TypeTails
  import opened TypeSeparators

  const LOOSE: seq<Needle> := [LIST, COLON, Arrow, BAR, AMPERSAND]

  /** `T extends `, `T = `, up to where the type begins. */
  predicate IsHead(hs: seq<Item>) {
    ItemsOk(hs) && CleanItems(hs) && Free(LexItems(hs), LOOSE) && SolidStart(LexItems(hs))
  }

  /** The type that a text printed before the tree is glued to. */
  function LeftEnd(t: Type): Type
    decreases t
  {
    match t
    case Conditional(check, _, _) => LeftEnd(check.body)
    case List(parts, _) => if parts == [] then t else LeftEnd(parts[0].body)
    case _ => t
  }

  /** A bar before the first member would keep the head apart, and with a colon after it a question mark in
      the head would make a conditional type. */
  predicate Glues(hs: seq<Item>, t: Type) {
    (LeftEnd(t).Union? ==> LeftEnd(t).bar.None?) && (NoTop(LexItems(hs), QUESTION) || NoTop(LexType(t), COLON))
  }

  // ---------- The tree that is read ----------

  /** How a type behind a head is read. */
  function Glued(hs: seq<Item>, t: Type): Type
    decreases t
  {
    match t
    case Flat(items) => Flat(hs + items)
    case Intersection(members) => if members == [] then t else Intersection([GluedTo(hs, members[0])] + members[1..])
    case Union(bar, members) => if members == [] then t else Union(bar, [GluedTo(hs, members[0])] + members[1..])
    case Function(params, result) => Function(hs + params, result)
    case Labelled(name, value) => Labelled(hs + name, value)
    case Conditional(check, yes, no) => Conditional(GluedTo(hs, check), yes, no)
    case List(parts, separators) => if parts == [] then t else List([GluedTo(hs, parts[0])] + parts[1..], separators)
  }

  function GluedTo(hs: seq<Item>, p: Padded): Padded
    decreases p
  {
    Padded("", Glued(hs, p.body), p.trail)
  }

  lemma {:induction false} FreeAppend(xs: seq<Lex>, ys: seq<Lex>, needles: seq<Needle>)
    requires Free(xs, LOOSE) && Free(ys, needles) && forall n :: n in needles ==> n in LOOSE
    ensures Free(xs + ys, needles)
  {
    hide NoTop;
    forall n | n in needles ensures NoTop(xs + ys, n) { NoTopAppend(xs, ys, n); }
  }

  lemma {:induction false} HeadUnparted(hs: seq<Item>, ys: seq<Lex>)
    requires IsHead(hs) && Unparted(ys)
    ensures Unparted(LexItems(hs) + ys)
  {
    hide NoTop, Unparted, SomeSolid, ItemsOk, CleanItems, LexItems;
    assert LIST in LOOSE;
    FreeUnparted(LexItems(hs));
    UnpartedAppend(LexItems(hs), ys);
  }

  lemma {:induction false} HeadShown(hs: seq<Item>)
    requires IsHead(hs)
    ensures LexedAll(LexItems(hs)) && LexItems(hs) != []
    ensures ShowAll(LexItems(hs)) != "" && !IsSpace(ShowAll(LexItems(hs))[0])
  {
    hide ItemsOk, CleanItems, LexItems, NoTop, SomeSolid, IsSpace, SolidEnd;
    ItemsLexed(hs);
    ShownEnds(LexItems(hs));
    SolidNotEmpty(LexItems(hs), []);
  }

  lemma {:induction false} HeadTrims(head: string, text: string)
    requires head != "" && !IsSpace(head[0]) && Trimmed(text)
    ensures Trimmed(head + text)
  {
  }

  lemma {:induction false} HeadMoves<T>(head: seq<T>, a: seq<T>, b: seq<T>, c: seq<T>)
    ensures head + a + b + c == head + (a + b + c)
  {
  }

  lemma {:induction false} LabelMoves(xs: seq<Lex>, name: seq<Lex>, value: seq<Lex>)
    requires NoTop(xs, QUESTION) && IsLabel(name, value)
    ensures IsLabel(xs + name, value)
  {
    if NoTop(name, QUESTION) && NoTop(value, QUESTION) {
      NoTopAppend(xs, name, QUESTION);
    } else {
      var all := xs + name;
      assert all[|all| - 1] == Ch('?') && all[..|all| - 1] == xs + name[..|name| - 1];
      NoTopAppend(xs, name[..|name| - 1], QUESTION);
    }
  }

  /** Behind a head a type reads as it does alone, the head being part of its first text. */
  ghost predicate ReadsGlued(hs: seq<Item>, t: Type) {
    Ok(Glued(hs, t)) && LexType(Glued(hs, t)) == LexItems(hs) + LexType(t) && (Clean(t) ==> Clean(Glued(hs, t)))
  }

  lemma {:induction false} FlatGlued(hs: seq<Item>, t: Type)
    requires IsHead(hs) && Ok(t) && t.Flat?
    ensures ReadsGlued(hs, t)
  {
    hide NoTop, LexItems, ItemsOk, CleanItems, SolidStart, Unparted;
    LexItemsAppend(hs, t.items);
    ItemsAppend(hs, t.items);
    FreeAppend(LexItems(hs), LexItems(t.items), [COLON, Arrow, BAR, AMPERSAND]);
    HeadUnparted(hs, LexItems(t.items));
  }

  lemma {:induction false} FunctionGlued(hs: seq<Item>, t: Type)
    requires IsHead(hs) && Ok(t) && t.Function?
    ensures ReadsGlued(hs, t)
  {
    hide NoTop, LexItems, ItemsOk, CleanItems, SolidStart, PaddedOk, LexPadded, Unparted;
    LexItemsAppend(hs, t.params);
    ItemsAppend(hs, t.params);
    FreeAppend(LexItems(hs), LexItems(t.params), [COLON, Arrow]);
    HeadMoves(LexItems(hs), LexItems(t.params), [Fat], LexPadded(t.result));
    HeadUnparted(hs, LexType(t));
  }

  lemma {:induction false} ColonShows(xs: seq<Lex>, ys: seq<Lex>)
    ensures !NoTop(xs + [Ch(':')] + ys, COLON)
  {
    assert (xs + [Ch(':')] + ys)[|xs|] == Ch(':');
  }

  lemma {:induction false} LabelGlued(hs: seq<Item>, t: Type)
    requires IsHead(hs) && Ok(t) && t.Labelled? && Glues(hs, t)
    ensures ReadsGlued(hs, t)
  {
    hide NoTop, LexItems, ItemsOk, CleanItems, SolidStart, PaddedOk, LexPadded, IsLabel, Unparted, Hits;
    ColonShows(LexItems(t.name), LexPadded(t.value));
    LexItemsAppend(hs, t.name);
    ItemsAppend(hs, t.name);
    FreeAppend(LexItems(hs), LexItems(t.name), [COLON]);
    LabelMoves(LexItems(hs), LexItems(t.name), LexPadded(t.value));
    HeadMoves(LexItems(hs), LexItems(t.name), [Ch(':')], LexPadded(t.value));
    HeadUnparted(hs, LexType(t));
  }

  /** The head in front of a padded part. */
  lemma {:induction false} PartGlued(hs: seq<Item>, p: Padded, needles: seq<Needle>)
    requires IsHead(hs) && PaddedOk(p) && p.lead == "" && Glues(hs, p.body)
    requires Free(LexPadded(p), needles) && forall n :: n in needles ==> n in LOOSE
    ensures var q := GluedTo(hs, p);
      && PaddedOk(q) && LexPadded(q) == LexItems(hs) + LexPadded(p) && Free(LexPadded(q), needles) && (Clean(p.body) ==> Clean(q.body))
    ensures !EndsInEquals(LexType(p.body)) ==> !EndsInEquals(LexType(GluedTo(hs, p).body))
    decreases p, 0
  {
    hide Ok, LexType, NoTop, LexItems, ItemsOk, CleanItems, SolidStart, SolidEnd, IsSpace, Glued, Clean, Glues, EndsInEquals, SomeSolid;
    BodyIsOk(p);
    MemberEnds(p.body);
    GluedReads(hs, p.body);
    HeadShown(hs);
    ShowAppend(LexItems(hs), LexType(p.body));
    HeadTrims(ShowAll(LexItems(hs)), Print(p.body));
    Associative(LexItems(hs), LexType(p.body), Chars(p.trail));
    assert Chars("") + LexType(p.body) == LexType(p.body);
    FreeAppend(LexItems(hs), LexPadded(p), needles);
    SolidAppend(LexItems(hs), LexType(p.body));
    SolidNotEmpty(LexType(p.body), []);
  }

  lemma {:induction false} CheckStarts(t: Type)
    requires Ok(t) && t.Conditional? && SolidStart(LexType(t))
    ensures PaddedOk(t.check) && t.check.lead == "" && Free(LexPadded(t.check), [QUESTION])
  {
    hide NoTop, SolidStart, PaddedOk, LexPadded, SomeSolid, EndsInEquals, SolidEnd, Unparted;
    var check, rest := LexPadded(t.check), LexPadded(t.yes) + [Ch(':')] + LexPadded(t.no);
    PaddedStart(t.check);
    SolidAppend(check, [Ch('?')]);
    SolidAppend(check + [Ch('?')], rest);
  }

  lemma {:induction false} NothingFree(xs: seq<Lex>)
    ensures Free(xs, [])
  {
  }

  lemma {:induction false} CheckGlues(hs: seq<Item>, t: Type)
    requires Ok(t) && t.Conditional? && Glues(hs, t)
    ensures NoTop(LexItems(hs), QUESTION) && Glues(hs, t.check.body)
  {
    hide Ok, LexType, LexItems, NoTop;
    TopShows(t);
  }

  lemma {:induction false} ConditionalGlued(hs: seq<Item>, t: Type)
    requires IsHead(hs) && Ok(t) && t.Conditional? && SolidStart(LexType(t)) && Glues(hs, t)
    ensures ReadsGlued(hs, t)
    decreases t, 1
  {
    hide NoTop, LexItems, SolidStart, PaddedOk, LexPadded, IsHead, Unparted;
    CheckStarts(t);
    CheckGlues(hs, t);
    NothingFree(LexPadded(t.check));
    PartGlued(hs, t.check, []);
    assert QUESTION in [QUESTION];
    NoTopAppend(LexItems(hs), LexPadded(t.check), QUESTION);
    HeadMoves(LexItems(hs), LexPadded(t.check), [Ch('?')], LexPadded(t.yes) + [Ch(':')] + LexPadded(t.no));
    HeadUnparted(hs, LexType(t));
  }

  /** The head in front of the first of several members. */
  function GluedMembers(hs: seq<Item>, ps: seq<Padded>): (qs: seq<Padded>)
    requires ps != []
    ensures |qs| == |ps|
  {
    [GluedTo(hs, ps[0])] + ps[1..]
  }

  lemma {:induction false} MemberGlues(p: Padded)
    requires PaddedOk(p) && NoTop(LexPadded(p), BAR) && NoTop(LexPadded(p), COLON) && Unparted(LexPadded(p))
    ensures LeftEnd(p.body) == p.body && !p.body.Union? && NoTop(LexType(p.body), COLON)
  {
    hide Ok, LexType, LexPadded, NoTop, Unparted, AllSpace, Trimmed;
    BodyFree(p, BAR);
    BodyFree(p, COLON);
    BodyNoList(p);
    TopShows(p.body);
  }

  lemma {:induction false} FirstFree(ps: seq<Padded>, needles: seq<Needle>)
    requires ps != [] && AllFree(ps, needles)
    ensures Free(LexPadded(ps[0]), needles)
  {
    hide LexPadded, NoTop;
  }

  lemma {:induction false} FirstUnparted(ps: seq<Padded>)
    requires |ps| >= 2 && AllFree(ps[..|ps| - 1], [LIST])
    ensures NoTop(LexPadded(ps[0]), LIST) && Unparted(LexPadded(ps[0]))
  {
    hide LexPadded, NoTop;
    FrontFree(ps);
    FreeUnparted(LexPadded(ps[0]));
  }

  lemma {:induction false} MembersGlued(hs: seq<Item>, ps: seq<Padded>, c: char, needles: seq<Needle>)
    requires IsHead(hs) && |ps| >= 2 && AllOk(ps) && AllFree(ps, needles) && ps[0].lead == "" && AllFree(ps[..|ps| - 1], [LIST])
    requires [COLON, Arrow, BAR] <= needles && forall n :: n in needles ==> n in LOOSE
    ensures var qs := GluedMembers(hs, ps);
      && AllOk(qs) && AllFree(qs, needles) && (CleanAll(ps) ==> CleanAll(qs)) && (NoneEndsInEquals(ps) ==> NoneEndsInEquals(qs))
      && JoinLex(LexAll(qs), c) == LexItems(hs) + JoinLex(LexAll(ps), c)
    decreases ps, 1
  {
    hide PaddedOk, LexPadded, NoTop, LexItems, Clean, IsHead, JoinLex, LexAll, LeftEnd, EndsInEquals, LexType, Unparted, Glued;
    var qs := GluedMembers(hs, ps);
    assert Free(LexPadded(ps[0]), needles);
    assert needles[0] == COLON && needles[2] == BAR;
    FirstUnparted(ps);
    MemberGlues(ps[0]);
    PartGlued(hs, ps[0], needles);
    assert qs[1..] == ps[1..];
    forall k | 0 <= k < |qs| ensures Free(LexPadded(qs[k]), needles) {
      if k > 0 { assert qs[k] == ps[k] && Free(LexPadded(ps[k]), needles); }
    }
    assert ps == [ps[0]] + ps[1..];
    JoinedCons(ps[0], ps[1..], c);
    JoinedCons(qs[0], ps[1..], c);
    Associative(LexItems(hs), LexPadded(ps[0]), [Ch(c)]);
    Associative(LexItems(hs), LexPadded(ps[0]) + [Ch(c)], JoinLex(LexAll(ps[1..]), c));
  }

  lemma {:induction false} IntersectionGlued(hs: seq<Item>, t: Type)
    requires IsHead(hs) && Ok(t) && t.Intersection? && SolidStart(LexType(t))
    ensures ReadsGlued(hs, t)
    decreases t, 1
  {
    hide NoTop, LexItems, SolidStart, PaddedOk, LexPadded, IsHead, AllOk, AllFree, CleanAll, LexAll, JoinLex, Unparted, NoneEndsInEquals;
    var ps := t.members;
    JoinedStart(ps, '&');
    JoinUnparted(ps, '&');
    MembersGlued(hs, ps, '&', [COLON, Arrow, BAR, AMPERSAND]);
    HeadUnparted(hs, LexType(t));
  }

  lemma {:induction false} UnionStarts(t: Type)
    requires t.Union? && Ok(t) && t.bar.None? && SolidStart(LexType(t))
    ensures var ps := t.members;
      && |ps| >= 2 && AllOk(ps) && AllFree(ps, [COLON, Arrow, BAR]) && AllFree(ps[..|ps| - 1], [LIST]) && ps[0].lead == ""
      && LexType(t) == JoinLex(LexAll(ps), '|')
  {
    hide AllOk, AllFree, LexAll, JoinLex, SolidStart, LexPadded, Unparted, LexType;
    var ps := t.members;
    assert t == Union(None, ps);
    UnionShape(None, ps);
    UnionUnparted(None, ps);
    assert [] + JoinLex(LexAll(ps), '|') == JoinLex(LexAll(ps), '|');
    JoinedStart(ps, '|');
  }

  lemma {:induction false} UnionGlued(hs: seq<Item>, t: Type)
    requires IsHead(hs) && t.Union? && Ok(t) && t.bar.None? && SolidStart(LexType(t))
    ensures ReadsGlued(hs, t)
    decreases t, 1
  {
    hide LexItems, SolidStart, LexPadded, IsHead, AllOk, AllFree, CleanAll, LexAll, JoinLex, Unparted, NoneEndsInEquals, LexType, GluedMembers;
    var ps, qs := t.members, GluedMembers(hs, t.members);
    UnionStarts(t);
    MembersGlued(hs, ps, '|', [COLON, Arrow, BAR]);
    UnionShape(None, qs);
    assert [] + JoinLex(LexAll(qs), '|') == JoinLex(LexAll(qs), '|');
    GluedUnion(hs, t);
    HeadUnparted(hs, LexType(t));
  }

  lemma {:induction false} GluedUnion(hs: seq<Item>, t: Type)
    requires t.Union? && t.members != []
    ensures Glued(hs, t) == Union(t.bar, GluedMembers(hs, t.members))
  {
  }

  lemma {:induction false} NotEmpty(t: Type)
    requires Ok(t) && !t.Flat?
    ensures LexType(t) != []
  {
    hide Ok, LexType;
    TopShows(t);
    NothingShows();
  }

  lemma {:induction false} NothingShows()
    ensures Unparted([]) && forall n :: NoTop([], n)
  {
  }

  lemma {:induction false} FirstPartGlues(hs: seq<Item>, t: Type)
    requires t.List? && |t.parts| >= 2 && |t.parts| == |t.separators| + 1 && t.parts[0].lead == "" && t.parts[0].trail == "" && Glues(hs, t)
    ensures Glues(hs, t.parts[0].body)
  {
    hide LexPadded, LexItems, NoTop;
    var parts := LexAll(t.parts);
    PartText(t.parts[0]);
    JoinTwo(parts, t.separators);
    NoTopAppend(parts[0], Chars(t.separators[0]), COLON);
    NoTopAppend(parts[0] + Chars(t.separators[0]), JoinList(parts[1..], t.separators[1..]), COLON);
  }

  lemma {:induction false} FirstPartGlued(hs: seq<Item>, t: Type)
    requires IsHead(hs) && Ok(t) && t.List? && SolidStart(LexType(t)) && Glues(hs, t)
    ensures t.parts != [] && ReadsGlued(hs, t.parts[0].body) && NoTop(LexPadded(t.parts[0]), LIST)
    decreases t, 1
  {
    hide PartsOk, AllFree, SolidParts, SeparatorsOk, Trim, LexAll, LexPadded, LexItems, IsHead, Unparted, ReadsGlued, Ok, SolidStart, NoTop, ShowAll;
    ListGiven(t);
    FirstUnparted(t.parts);
    FirstOk(t.parts);
    PartText(t.parts[0]);
    FirstPartGlues(hs, t);
    var x := t.parts[0].body;
    if !x.Flat? {
      NotEmpty(x);
      ListStart(t);
    }
    GluedReads(hs, x);
  }

  lemma {:induction false} ListStart(t: Type)
    requires t.List? && |t.parts| >= 2 && |t.parts| == |t.separators| + 1 && LexPadded(t.parts[0]) != [] && SolidStart(LexType(t))
    ensures SolidStart(LexPadded(t.parts[0]))
  {
    hide LexPadded, SomeSolid, EndsInEquals, SolidEnd;
    var parts := LexAll(t.parts);
    JoinTwo(parts, t.separators);
    SolidAppend(parts[0], Chars(t.separators[0]));
    SolidAppend(parts[0] + Chars(t.separators[0]), JoinList(parts[1..], t.separators[1..]));
  }

  lemma {:induction false} FirstTokens(p: Padded, q: Padded, rest: seq<Padded>, separators: seq<string>, xs: seq<Lex>)
    requires |rest| == |separators| >= 1 && LexPadded(q) == xs + LexPadded(p)
    ensures JoinList(LexAll([q] + rest), separators) == xs + JoinList(LexAll([p] + rest), separators)
  {
    hide LexPadded, JoinList;
    assert ([q] + rest)[1..] == rest && ([p] + rest)[1..] == rest;
    assert LexAll([q] + rest)[1..] == LexAll(rest) && LexAll([p] + rest)[1..] == LexAll(rest);
    JoinTwo(LexAll([q] + rest), separators);
    JoinTwo(LexAll([p] + rest), separators);
    HeadMoves(xs, LexPadded(p), Chars(separators[0]), JoinList(LexAll(rest), separators[1..]));
  }

  lemma {:induction false} ListGlued(hs: seq<Item>, t: Type)
    requires IsHead(hs) && Ok(t) && t.List? && SolidStart(LexType(t)) && Glues(hs, t)
    ensures ReadsGlued(hs, t)
    decreases t, 2
  {
    hide PartsOk, AllFree, SolidParts, SeparatorsOk, Trim, LexAll, JoinList, LexPadded, LexItems, IsHead, Unparted, Ok, SolidStart, NoTop, Clean, CleanAll,
      ShowAll;
    ListGiven(t);
    FirstPartGlued(hs, t);
    var ps, q := t.parts, GluedTo(hs, t.parts[0]);
    FirstOk(ps);
    PartText(ps[0]);
    PartText(q);
    var qs := [q] + ps[1..];
    assert ps == [ps[0]] + ps[1..] && qs[1..] == ps[1..];
    FirstTokens(ps[0], q, ps[1..], t.separators, LexItems(hs));
    ListGluedOk(hs, t, qs);
    CleanFirst(ps, q);
    CleanList(ps, t.separators);
    CleanList(qs, t.separators);
  }

  lemma {:induction false} CleanList(ps: seq<Padded>, separators: seq<string>)
    ensures Clean(List(ps, separators)) <==> CleanAll(ps)
  {
    hide CleanAll;
  }

  lemma {:induction false} CleanFirst(ps: seq<Padded>, q: Padded)
    requires ps != []
    ensures CleanAll(ps) ==> Clean(ps[0].body)
    ensures CleanAll(ps) && Clean(q.body) ==> CleanAll([q] + ps[1..])
  {
    hide Clean;
    assert ([q] + ps[1..])[1..] == ps[1..];
  }

  lemma {:induction false} ListGluedOk(hs: seq<Item>, t: Type, qs: seq<Padded>)
    requires IsHead(hs) && Ok(t) && t.List? && |t.parts| >= 2 && |qs| == |t.parts| && qs[1..] == t.parts[1..]
    requires qs[0].lead == "" && qs[0].trail == "" && Ok(qs[0].body) && LexPadded(qs[0]) == LexItems(hs) + LexPadded(t.parts[0])
    ensures Ok(List(qs, t.separators))
  {
    hide PartsOk, SolidParts, SeparatorsOk, Trim, LexAll, LexPadded, LexItems, Unparted, NoTop, ItemsOk, CleanItems, SolidStart, ShowAll, LexType;
    var ps, n := t.parts, |qs| - 1;
    PartsTail(ps);
    PartsCons(qs);
    FrontFree(ps);
    FrontFree(qs);
    assert LIST in LOOSE;
    NoTopAppend(LexItems(hs), LexPadded(ps[0]), LIST);
    assert qs[n] == qs[1..][n - 1] == ps[1..][n - 1] == ps[n];
  }

  lemma {:induction false} PartsTail(ps: seq<Padded>)
    requires PartsOk(ps) && ps != []
    ensures PartsOk(ps[1..])
  {
    hide Ok;
  }

  lemma {:induction false} PartsCons(qs: seq<Padded>)
    requires qs != [] && PartsOk(qs[1..]) && qs[0].lead == "" && qs[0].trail == "" && Ok(qs[0].body)
    ensures PartsOk(qs)
  {
    hide Ok;
  }

  lemma {:induction false} GluedReads(hs: seq<Item>, t: Type)
    requires IsHead(hs) && Ok(t) && Glues(hs, t) && (t.Flat? || SolidStart(LexType(t)))
    ensures ReadsGlued(hs, t)
    decreases t, 3
  {
    hide ReadsGlued, IsHead, Ok, SolidStart, LexType;
    match t
    case Flat(_) => FlatGlued(hs, t);
    case Intersection(_) => IntersectionGlued(hs, t);
    case Union(_, _) => UnionGlued(hs, t);
    case Function(_, _) => FunctionGlued(hs, t);
    case Labelled(_, _) => LabelGlued(hs, t);
    case Conditional(_, _, _) => ConditionalGlued(hs, t);
    case List(_, _) => ListGlued(hs, t);
  }

  /** What is printed behind a head. */
  function Bound(hs: seq<Item>, t: Type): string { ShowAll(LexItems(hs)) + Print(t) }

  lemma {:induction false} BoundPrinted(hs: seq<Item>, t: Type)
    requires IsHead(hs) && Ok(t) && Glues(hs, t) && SolidStart(LexType(t))
    ensures Ok(Glued(hs, t)) && Print(Glued(hs, t)) == Bound(hs, t) && (Clean(t) ==> Clean(Glued(hs, t)))
  {
    hide Ok, LexType, LexItems, ShowAll, IsHead, SolidStart, Glues, Glued, Clean;
    GluedReads(hs, t);
    ShowAppend(LexItems(hs), LexType(t));
  }

  // ---------- No union at the left end ----------

  lemma {:induction false} GluedExpected(hs: seq<Item>, t: Type)
    requires Ok(t) && (t.Flat? || SolidStart(LexType(t))) && !LeftEnd(t).Union?
    ensures Expect(Glued(hs, t)) == ExpectItems(hs) + Expect(t)
    decreases t, 1
  {
    hide ItemsOk, PaddedOk, AllOk, PartsOk, AllFree, LexPadded, LexItems, LexAll, JoinLex, JoinList, ExpectItems, ExpectPadded, ExpectBodies, Join, Rejoin,
      Unparted, SolidStart, IsLabel, SolidParts, SeparatorsOk, Trim, ShowAll, Free;
    match t
    case Flat(items) => ItemsAppend(hs, items);
    case Intersection(_) => IntersectionExpected(hs, t);
    case Function(params, result) =>
      ItemsAppend(hs, params);
      HeadMoves(ExpectItems(hs), ExpectItems(params), "=>", ExpectPadded(result));
    case Labelled(name, value) =>
      ItemsAppend(hs, name);
      HeadMoves(ExpectItems(hs), ExpectItems(name), ":", ExpectPadded(value));
    case Conditional(check, yes, no) =>
      CheckStarts(t);
      CheckExpected(hs, t.check);
      CheckMoves(ExpectItems(hs), ExpectPadded(check), ExpectPadded(yes), ExpectPadded(no));
    case List(_, _) => ListGluedExpected(hs, t);
    case _ =>
  }

  lemma {:induction false} CheckMoves(head: string, check: string, yes: string, no: string)
    ensures head + check + "?" + yes + ":" + no == head + (check + "?" + yes + ":" + no)
  {
  }

  lemma {:induction false} CheckExpected(hs: seq<Item>, p: Padded)
    requires PaddedOk(p) && p.lead == "" && !LeftEnd(p.body).Union?
    ensures ExpectPadded(GluedTo(hs, p)) == ExpectItems(hs) + ExpectPadded(p)
    decreases p, 2
  {
    hide Ok, LexType, SolidStart, SolidEnd, Expect, ExpectItems, Glued, LeftEnd, AllSpace;
    BodyIsOk(p);
    MemberEnds(p.body);
    GluedExpected(hs, p.body);
    FirstMoves(ExpectItems(hs), Expect(p.body), p.trail);
  }

  lemma {:induction false} FirstMoves(head: string, body: string, trail: string)
    ensures "" + (head + body) + trail == head + ("" + body + trail)
  {
  }

  lemma {:induction false} JoinFirst(head: string, x: string, rest: seq<string>, sep: string)
    ensures Join([head + x] + rest, sep) == head + Join([x] + rest, sep)
  {
    assert ([head + x] + rest)[1..] == rest && ([x] + rest)[1..] == rest;
    assert head + x + sep + Join(rest, sep) == head + (x + sep + Join(rest, sep));
  }

  lemma {:induction false} FirstGlued(hs: seq<Item>, ps: seq<Padded>)
    requires ps != []
    ensures ExpectBodies(GluedMembers(hs, ps)) == [Expect(Glued(hs, ps[0].body))] + ExpectBodies(ps[1..])
  {
    hide Expect, Glued;
    FirstExpected(GluedMembers(hs, ps));
    assert GluedMembers(hs, ps)[1..] == ps[1..];
  }

  lemma {:induction false} MemberExpected(hs: seq<Item>, p: Padded)
    requires PaddedOk(p) && NoTop(LexPadded(p), BAR) && NoTop(LexPadded(p), COLON) && Unparted(LexPadded(p))
    ensures Expect(Glued(hs, p.body)) == ExpectItems(hs) + Expect(p.body)
    decreases p, 2
  {
    hide Ok, LexType, LexPadded, NoTop, SolidStart, SolidEnd, Expect, ExpectItems, Glued, AllSpace, Unparted;
    MemberGlues(p);
    BodyIsOk(p);
    MemberEnds(p.body);
    GluedExpected(hs, p.body);
  }

  lemma {:induction false} IntersectionExpected(hs: seq<Item>, t: Type)
    requires t.Intersection? && Ok(t)
    ensures Expect(Glued(hs, t)) == ExpectItems(hs) + Expect(t)
    decreases t, 0
  {
    hide AllOk, AllFree, LexPadded, LexAll, JoinLex, NoTop, Join, ExpectBodies, ExpectItems, Unparted, GluedTo;
    var ps, needles := t.members, [COLON, Arrow, BAR, AMPERSAND];
    JoinUnparted(ps, '&');
    FirstUnparted(ps);
    FirstOk(ps);
    FirstFree(ps, needles);
    assert needles[0] == COLON && needles[2] == BAR;
    MemberExpected(hs, ps[0]);
    FirstGlued(hs, ps);
    FirstExpected(ps);
    JoinFirst(ExpectItems(hs), Expect(ps[0].body), ExpectBodies(ps[1..]), " & ");
  }

  lemma {:induction false} ListGluedExpected(hs: seq<Item>, t: Type)
    requires t.List? && Ok(t) && SolidStart(LexType(t)) && !LeftEnd(t).Union?
    ensures Expect(Glued(hs, t)) == ExpectItems(hs) + Expect(t)
    decreases t, 0
  {
    hide PartsOk, AllFree, SolidParts, SeparatorsOk, Trim, LexAll, JoinList, LexPadded, LexType, Unparted, Ok, SolidStart, ExpectBodies, Rejoin, Expect,
      ExpectItems, ShowAll, StartsSolid;
    ListGiven(t);
    var ps, x, q := t.parts, t.parts[0].body, GluedTo(hs, t.parts[0]);
    FirstOk(ps);
    PartText(ps[0]);
    if !x.Flat? {
      NotEmpty(x);
      ListStart(t);
    }
    GluedExpected(hs, x);
    GluedList(hs, t);
    FirstGlued(hs, ps);
    FirstExpected(ps);
    ListExpected(t);
    ListExpected(Glued(hs, t));
    RejoinFirst(Expect(q.body), ExpectBodies(ps[1..]), t.separators);
    RejoinFirst(Expect(x), ExpectBodies(ps[1..]), t.separators);
    var tail := t.separators[0] + Rejoin(ExpectBodies(ps[1..]), t.separators[1..]);
    Associative(ExpectItems(hs), Expect(x), tail);
  }

  lemma {:induction false} GluedList(hs: seq<Item>, t: Type)
    requires t.List? && t.parts != []
    ensures Glued(hs, t) == List(GluedMembers(hs, t.parts), t.separators)
  {
  }

  lemma {:induction false} SameItemsAppend(hs: seq<Item>, xs: seq<Item>, ys: seq<Item>)
    requires SameItems(xs, ys)
    ensures SameItems(hs + xs, hs + ys)
  {
    hide SameItem;
    if hs == [] {
      assert hs + xs == xs && hs + ys == ys;
    } else {
      SameItemsAppend(hs[1..], xs, ys);
      SameItemItself(hs[0]);
      assert (hs + xs)[1..] == hs[1..] + xs && (hs + ys)[1..] == hs[1..] + ys;
    }
  }

  lemma {:induction false} GluedSame(hs: seq<Item>, t: Type, u: Type)
    requires Ok(t) && Same(t, u) && !LeftEnd(t).Union?
    ensures Same(Glued(hs, t), Glued(hs, u))
    decreases t
  {
    hide SameItems, SamePadded, SameBodies, SameBag, ItemsOk, PaddedOk, AllOk, PartsOk, AllFree, LexPadded, LexItems, LexAll, JoinLex, JoinList, Unparted,
      IsLabel, SolidParts, SeparatorsOk, Trim, ShowAll, Free;
    match t
    case Flat(items) => SameItemsAppend(hs, items, u.items);
    case Intersection(members) =>
      FirstIsFlat(t);
      SameFirst(members, u.members);
      GluedSame(hs, members[0].body, u.members[0].body);
      SameCons(GluedTo(hs, members[0]), members[1..], GluedTo(hs, u.members[0]), u.members[1..]);
    case Function(params, _) => SameItemsAppend(hs, params, u.params);
    case Labelled(name, _) => SameItemsAppend(hs, name, u.name);
    case Conditional(check, _, _) =>
      BodyIsOk(check);
      SameInside(check, u.check);
      GluedSame(hs, check.body, u.check.body);
      SameAround(GluedTo(hs, check), GluedTo(hs, u.check));
    case List(parts, _) =>
      FirstOk(parts);
      SameFirst(parts, u.parts);
      GluedSame(hs, parts[0].body, u.parts[0].body);
      SameCons(GluedTo(hs, parts[0]), parts[1..], GluedTo(hs, u.parts[0]), u.parts[1..]);
    case _ =>
  }

  lemma {:induction false} FirstIsFlat(t: Type)
    requires t.Intersection? && Ok(t)
    ensures t.members != [] && Ok(t.members[0].body) && !LeftEnd(t.members[0].body).Union?
  {
    hide AllOk, AllFree, LexPadded, LexAll, JoinLex, NoTop, Unparted, PaddedOk;
    var ps, needles := t.members, [COLON, Arrow, BAR, AMPERSAND];
    JoinUnparted(ps, '&');
    FirstUnparted(ps);
    FirstOk(ps);
    FirstFree(ps, needles);
    assert needles[0] == COLON && needles[2] == BAR;
    MemberGlues(ps[0]);
    BodyIsOk(ps[0]);
  }

  lemma {:induction false} SameFirst(ps: seq<Padded>, qs: seq<Padded>)
    requires SameBodies(ps, qs)
    ensures |ps| == |qs| && (ps != [] ==> Same(ps[0].body, qs[0].body) && SameBodies(ps[1..], qs[1..]))
  {
    hide Same;
  }

  lemma {:induction false} SameCons(p: Padded, ps: seq<Padded>, q: Padded, qs: seq<Padded>)
    requires Same(p.body, q.body) && SameBodies(ps, qs)
    ensures SameBodies([p] + ps, [q] + qs)
  {
    hide Same;
    assert ([p] + ps)[1..] == ps && ([q] + qs)[1..] == qs;
  }

  lemma {:induction false} SameInside(p: Padded, q: Padded)
    requires SamePadded(p, q)
    ensures Same(p.body, q.body) && p.lead == q.lead && p.trail == q.trail
  {
    hide Same;
  }

  lemma {:induction false} SameAround(p: Padded, q: Padded)
    requires Same(p.body, q.body) && p.lead == q.lead && p.trail == q.trail
    ensures SamePadded(p, q)
  {
    hide Same;
  }

  /** A bound or default without a union at its left end is put in one order like any other type, at any
      depth: the trees that are read are the same type again. */
  lemma {:induction false} BoundCanonicity(hs: seq<Item>, t: Type, u: Type)
    requires IsHead(hs) && Ok(t) && Ok(u) && Same(t, u) && !LeftEnd(t).Union? && !LeftEnd(u).Union?
    requires Glues(hs, t) && Glues(hs, u) && SolidStart(LexType(t)) && SolidStart(LexType(u))
    ensures Ok(Glued(hs, t)) && Ok(Glued(hs, u)) && Same(Glued(hs, t), Glued(hs, u))
    ensures Print(Glued(hs, t)) == Bound(hs, t) && Print(Glued(hs, u)) == Bound(hs, u)
    ensures NormaliseTypeText(Bound(hs, t)) == NormaliseTypeText(Bound(hs, u))
  {
    hide Ok, LexType, LexItems, SolidStart, IsHead, Expect, NormaliseTypeText, Clean, ShowAll, Glued, Bound, LeftEnd, Same;
    BoundPrinted(hs, t);
    BoundPrinted(hs, u);
    GluedSame(hs, t, u);
    Canonicity(Glued(hs, t), Glued(hs, u));
  }

  // ---------- A union at the left end: its first member decides ----------

  function FirstMember(t: Type): Padded
    requires LeftEnd(t).Union? && LeftEnd(t).members != []
  {
    LeftEnd(t).members[0]
  }

  /** What is needed of a pair of types behind a head. */
  ghost predicate HeadPair(hs: seq<Item>, t: Type, u: Type) {
    && Ok(t) && Ok(u) && Clean(t) && Clean(u) && Same(t, u) && Glues(hs, t) && Glues(hs, u)
    && SolidStart(LexType(t)) && SolidStart(LexType(u))
  }

  ghost predicate FirstDecides(hs: seq<Item>, t: Type, u: Type) {
    && LeftEnd(t).Union? && LeftEnd(u).Union? && LeftEnd(t).members != [] && LeftEnd(u).members != []
    && (Expect(Glued(hs, t)) == Expect(Glued(hs, u)) <==> Expect(FirstMember(t).body) == Expect(FirstMember(u).body))
  }

  lemma {:induction false} HeadExpected(hs: seq<Item>)
    requires IsHead(hs)
    ensures ExpectItems(hs) != ""
    ensures forall x: string :: |ExpectItems(hs) + x| > |x|
  {
    hide LexItem, NoTop;
    assert hs != [] && ItemOk(hs[0]);
    assert ExpectItem(hs[0]) != "";
  }

  lemma {:induction false} FirstBag(ps: seq<Padded>, x: string)
    requires ps != []
    ensures multiset([x] + ExpectBodies(ps[1..])) + multiset{Expect(ps[0].body)} == multiset(ExpectBodies(ps)) + multiset{x}
  {
    hide Expect;
    FirstExpected(ps);
  }

  /** The normalised members of a union behind a head. */
  lemma {:induction false} GluedBodies(hs: seq<Item>, t: Type)
    requires t.Union? && Ok(t) && t.bar.None? && SolidStart(LexType(t))
    ensures t.members != [] && Glued(hs, t).Union?
    ensures ExpectBodies(Glued(hs, t).members) == [ExpectItems(hs) + Expect(t.members[0].body)] + ExpectBodies(t.members[1..])
  {
    hide Ok, LexPadded, LexType, NoTop, SolidStart, ExpectBodies, ExpectItems, Unparted, Expect, GluedMembers, AllOk;
    UnionStarts(t);
    var ps, needles := t.members, [COLON, Arrow, BAR];
    FirstUnparted(ps);
    FirstOk(ps);
    FirstFree(ps, needles);
    assert needles[0] == COLON && needles[2] == BAR;
    MemberExpected(hs, ps[0]);
    GluedUnion(hs, t);
    FirstGlued(hs, ps);
  }

  lemma {:induction false} UnionHeads(hs: seq<Item>, t: Type, u: Type)
    requires IsHead(hs) && HeadPair(hs, t, u) && t.Union?
    ensures FirstDecides(hs, t, u)
  {
    hide Ok, Clean, LexType, LexItems, SolidStart, IsHead, Expect, ExpectItems, ExpectBodies, SameBag, Glued;
    SameUnion(t, u);
    GluedReads(hs, t);
    GluedReads(hs, u);
    GluedBodies(hs, t);
    GluedBodies(hs, u);
    var ps, qs, g, h, head := t.members, u.members, Glued(hs, t), Glued(hs, u), ExpectItems(hs);
    ExpectedUnions(g, h);
    var x, y := Expect(ps[0].body), Expect(qs[0].body);
    FirstBag(ps, head + x);
    FirstBag(qs, head + y);
    HeadExpected(hs);
    ReplacedWhere(multiset(ExpectBodies(ps)), multiset(ExpectBodies(g.members)), multiset(ExpectBodies(h.members)), x, head + x, y, head + y);
  }

  lemma {:induction false} CheckHeads(hs: seq<Item>, t: Type, u: Type)
    requires IsHead(hs) && HeadPair(hs, t, u) && t.Conditional? && LeftEnd(t).Union?
    ensures FirstDecides(hs, t, u)
    decreases t, 0
  {
    hide Ok, LexType, LexItems, SolidStart, IsHead, Expect, ExpectPadded, Glued, LexPadded, AllSpace, Trimmed, NoTop, SolidEnd, Same;
    CheckIsPair(hs, t, u);
    CheckStarts(t);
    CheckStarts(u);
    HeadsAgree(hs, t.check.body, u.check.body);
    SamePaddedExpect(t.yes, u.yes);
    SamePaddedExpect(t.no, u.no);
    GluedCheck(hs, t);
    GluedCheck(hs, u);
    Around("", Expect(Glued(hs, t.check.body)), Expect(Glued(hs, u.check.body)), t.check.trail + "?" + ExpectPadded(t.yes) + ":" + ExpectPadded(t.no));
  }

  lemma {:induction false} CheckIsPair(hs: seq<Item>, t: Type, u: Type)
    requires HeadPair(hs, t, u) && t.Conditional?
    ensures u.Conditional? && HeadPair(hs, t.check.body, u.check.body) && SamePadded(t.yes, u.yes) && SamePadded(t.no, u.no) && t.check.trail == u.check.trail
    ensures LeftEnd(t) == LeftEnd(t.check.body) && LeftEnd(u) == LeftEnd(u.check.body)
  {
    hide LexType, SolidStart, LexPadded, AllSpace, Trimmed, NoTop, SolidEnd, Unparted, Same, SamePadded, IsLabel;
    SameBranches(t, u);
    SameInside(t.check, u.check);
    CheckGlues(hs, t);
    CheckGlues(hs, u);
    CheckStarts(t);
    CheckStarts(u);
    MemberEnds(t.check.body);
    MemberEnds(u.check.body);
  }

  lemma {:induction false} SameBranches(t: Type, u: Type)
    requires t.Conditional? && Same(t, u)
    ensures u.Conditional? && SamePadded(t.check, u.check) && SamePadded(t.yes, u.yes) && SamePadded(t.no, u.no)
  {
    hide SamePadded;
  }

  lemma {:induction false} GluedCheck(hs: seq<Item>, t: Type)
    requires t.Conditional?
    ensures Expect(Glued(hs, t)) == "" + Expect(Glued(hs, t.check.body)) + (t.check.trail + "?" + ExpectPadded(t.yes) + ":" + ExpectPadded(t.no))
  {
    hide ExpectPadded;
    var x := Expect(Glued(hs, t.check.body));
    assert ExpectPadded(GluedTo(hs, t.check)) == "" + x + t.check.trail by { GluedPadded(hs, t.check); }
    var r, y, n := t.check.trail, ExpectPadded(t.yes), ExpectPadded(t.no);
    assert "" + x + r + "?" + y + ":" + n == "" + x + (r + "?" + y + ":" + n);
  }

  lemma {:induction false} GluedPadded(hs: seq<Item>, p: Padded)
    ensures ExpectPadded(GluedTo(hs, p)) == "" + Expect(Glued(hs, p.body)) + p.trail
  {
    hide Expect, Glued;
  }

  lemma {:induction false} ListHeads(hs: seq<Item>, t: Type, u: Type)
    requires IsHead(hs) && HeadPair(hs, t, u) && t.List? && LeftEnd(t).Union?
    ensures FirstDecides(hs, t, u)
    decreases t, 0
  {
    hide Ok, LexType, LexItems, SolidStart, IsHead, Expect, ExpectBodies, Glued, LexPadded, Rejoin, Same, SameBodies, Clean, PartsOk, AllFree, SolidParts,
      SeparatorsOk, CleanAll, LexAll, StartsSolid, ShowAll, Trim;
    PartsArePair(hs, t, u);
    ListGiven(t);
    ListGiven(u);
    var ps, qs := t.parts, u.parts;
    HeadsAgree(hs, ps[0].body, qs[0].body);
    SameBodiesExpect(ps[1..], qs[1..]);
    GluedList(hs, t);
    GluedList(hs, u);
    FirstGlued(hs, ps);
    FirstGlued(hs, qs);
    ListExpected(Glued(hs, t));
    ListExpected(Glued(hs, u));
    var x, y, rest := Expect(Glued(hs, ps[0].body)), Expect(Glued(hs, qs[0].body)), ExpectBodies(ps[1..]);
    RejoinAround([], x, y, rest, t.separators);
    assert [] + [x] + rest == [x] + rest && [] + [y] + rest == [y] + rest;
  }

  lemma {:induction false} PartsArePair(hs: seq<Item>, t: Type, u: Type)
    requires HeadPair(hs, t, u) && t.List? && LeftEnd(t).Union?
    ensures u.List? && t.parts != [] && u.parts != [] && t.separators == u.separators && SameBodies(t.parts[1..], u.parts[1..])
    ensures HeadPair(hs, t.parts[0].body, u.parts[0].body)
    ensures LeftEnd(t) == LeftEnd(t.parts[0].body) && LeftEnd(u) == LeftEnd(u.parts[0].body)
  {
    hide Ok, LexType, SolidStart, LexPadded, Same, SameBodies, Clean, PartsOk, AllFree, SolidParts, SeparatorsOk, CleanAll, LexAll, StartsSolid, ShowAll, Trim;
    SameParts(t, u);
    ListGiven(t);
    ListGiven(u);
    SameFirst(t.parts, u.parts);
    FirstOk(t.parts);
    FirstOk(u.parts);
    CleanFirst(t.parts, t.parts[0]);
    CleanFirst(u.parts, u.parts[0]);
    SameFlat(t.parts[0].body, u.parts[0].body);
    NotEmpty(t.parts[0].body);
    NotEmpty(u.parts[0].body);
    PartText(t.parts[0]);
    PartText(u.parts[0]);
    ListStart(t);
    ListStart(u);
    FirstPartGlues(hs, t);
    FirstPartGlues(hs, u);
  }

  lemma {:induction false} SameParts(t: Type, u: Type)
    requires t.List? && Same(t, u)
    ensures u.List? && SameBodies(t.parts, u.parts) && t.separators == u.separators
  {
    hide SameBodies;
  }

  lemma {:induction false} SameFlat(t: Type, u: Type)
    requires Same(t, u) && LeftEnd(t).Union?
    ensures !t.Flat? && !u.Flat?
  {
    hide SameItems, SameBodies, SameBag, SamePadded;
  }

  lemma {:induction false} HeadsAgree(hs: seq<Item>, t: Type, u: Type)
    requires IsHead(hs) && HeadPair(hs, t, u) && LeftEnd(t).Union?
    ensures FirstDecides(hs, t, u)
    decreases t, 1
  {
    hide IsHead, HeadPair, FirstDecides;
    match t
    case Union(_, _) => UnionHeads(hs, t, u);
    case Conditional(_, _, _) => CheckHeads(hs, t, u);
    case List(_, _) => ListHeads(hs, t, u);
    case _ =>
  }

  lemma {:induction false} FirstMemberOk(t: Type)
    requires Ok(t) && LeftEnd(t).Union?
    ensures LeftEnd(t).members != [] && Ok(FirstMember(t).body)
    decreases t
  {
    hide PaddedOk, LexPadded, LexAll, LexItems, ShowAll, SeparatorsOk, SolidParts, Trim, PartsOk, AllOk, Free, AllFree, ItemsOk, IsLabel, Unparted;
    match t
    case Union(_, members) =>
      FirstOk(members);
      BodyIsOk(members[0]);
    case Conditional(check, _, _) =>
      BodyIsOk(check);
      FirstMemberOk(check.body);
    case List(parts, _) =>
      FirstOk(parts);
      FirstMemberOk(parts[0].body);
    case _ =>
  }

  /** In every place of a larger type: two printings of a type with a union at its left end, behind the same
      head, agree exactly when the members written first do. */
  lemma {:induction false} FirstMemberDecides(c: Context, hs: seq<Item>, t: Type, u: Type)
    requires IsHead(hs) && HeadPair(hs, t, u) && LeftEnd(t).Union? && Fits(c, Glued(hs, t)) && Fits(c, Glued(hs, u))
    ensures LeftEnd(u).Union? && LeftEnd(t).members != [] && LeftEnd(u).members != []
    ensures Print(Glued(hs, t)) == Bound(hs, t) && Print(Glued(hs, u)) == Bound(hs, u)
    ensures NormaliseTypeText(Print(Plug(c, Glued(hs, t)))) == NormaliseTypeText(Print(Plug(c, Glued(hs, u))))
       <==> NormaliseTypeText(Print(FirstMember(t).body)) == NormaliseTypeText(Print(FirstMember(u).body))
  {
    hide Ok, Clean, LexType, SolidStart, IsHead, Expect, NormaliseTypeText, Print, Bound, Plug, Glued, LeftEnd, Same, Glues;
    HeadsAgree(hs, t, u);
    BoundPrinted(hs, t);
    BoundPrinted(hs, u);
    FirstMemberOk(t);
    FirstMemberOk(u);
    NormalisesText(FirstMember(t).body);
    NormalisesText(FirstMember(u).body);
    ExpectEverywhere(c, Glued(hs, t), Glued(hs, u));
    NormalisesText(Plug(c, Glued(hs, t)));
    NormalisesText(Plug(c, Glued(hs, u)));
  }
}
