/** All orders of the union that stands before a separator, in every place of a larger type. */
module TypeOrders {
  import opened Strings
  import opened TypeText
  import opened TypeLexis
  import opened TypeGrammar
  import opened TypeCanonicity
  import opened TypeTokens
  import opened TypeShapes
  import opened TypeTheorems
  import opened TypeCanonTree
  import opened TypeCanonOk
  import opened TypeReorder
  import opened TypeContexts
  import opened TypeReplace
  import opened TypeTails
  import opened TypeSeparators

  // ---------- The way to the right end ----------

  /** What surrounds the type at the right end. */
  function Spine(t: Type): Context
    decreases t
  {
    match t
    case Function(params, result) => InResult(params, SpineSlot(result))
    case Labelled(name, value) => InValue(name, SpineSlot(value))
    case Conditional(check, yes, no) => InNo(check, yes, SpineSlot(no))
    case List(parts, separators) =>
      if parts == [] then Here else InPart(parts[..|parts| - 1], SpineSlot(parts[|parts| - 1]), [], separators)
    case _ => Here
  }

  function SpineSlot(p: Padded): Slot
    decreases p
  {
    Slot(p.lead, Spine(p.body), p.trail)
  }

  lemma {:induction false} SpineIs(t: Type)
    ensures Plug(Spine(t), RightEnd(t)) == t
    decreases t
  {
    match t
    case Function(_, result) => SpineIs(result.body);
    case Labelled(_, value) => SpineIs(value.body);
    case Conditional(_, _, no) => SpineIs(no.body);
    case List(parts, _) =>
      if parts != [] {
        SpineIs(parts[|parts| - 1].body);
        assert parts[..|parts| - 1] + [parts[|parts| - 1]] + [] == parts;
      }
    case _ =>
  }

  /** The tree with another type at the right end. */
  function WithEnd(t: Type, w: Type): Type { Plug(Spine(t), w) }

  lemma {:induction false} NewEnd(t: Type, w: Type)
    requires RightEnd(t).Union? && w.Union?
    ensures RightEnd(WithEnd(t, w)) == w
    decreases t
  {
    match t
    case Function(params, result) =>
      NewEnd(result.body, w);
      assert WithEnd(t, w) == Function(params, PlugSlot(SpineSlot(result), w));
    case Labelled(name, value) =>
      NewEnd(value.body, w);
      assert WithEnd(t, w) == Labelled(name, PlugSlot(SpineSlot(value), w));
    case Conditional(check, yes, no) =>
      NewEnd(no.body, w);
      assert WithEnd(t, w) == Conditional(check, yes, PlugSlot(SpineSlot(no), w));
    case List(parts, separators) =>
      NewEnd(parts[|parts| - 1].body, w);
      var ps := parts[..|parts| - 1] + [PlugSlot(SpineSlot(parts[|parts| - 1]), w)] + [];
      assert WithEnd(t, w) == List(ps, separators) && ps[|ps| - 1].body == WithEnd(parts[|parts| - 1].body, w);
    case _ =>
  }

  // ---------- Other bodies in the same places ----------

  ghost predicate SameSpacing(ps: seq<Padded>, qs: seq<Padded>) {
    |ps| == |qs| && forall k :: 0 <= k < |ps| ==> ps[k].lead == qs[k].lead && ps[k].trail == qs[k].trail
  }

  predicate CleanMember(p: Padded) { Clean(p.body) && !EndsInEquals(LexType(p.body)) }

  lemma {:induction false} CleanAt(ps: seq<Padded>)
    ensures CleanAll(ps) && NoneEndsInEquals(ps) <==> forall k :: 0 <= k < |ps| ==> CleanMember(ps[k])
  {
    hide Clean, LexType, EndsInEquals;
    if ps == [] {
    } else {
      CleanAt(ps[1..]);
      if CleanAll(ps) && NoneEndsInEquals(ps) {
        forall k | 0 <= k < |ps| ensures CleanMember(ps[k]) {
          if k > 0 { assert ps[k] == ps[1..][k - 1]; }
        }
      }
      if forall k :: 0 <= k < |ps| ==> CleanMember(ps[k]) {
        assert CleanMember(ps[0]);
        forall k | 0 <= k < |ps[1..]| ensures CleanMember(ps[1..][k]) { assert ps[1..][k] == ps[k + 1]; }
      }
    }
  }

  lemma {:induction false} CleanRearranged(ps: seq<Padded>, qs: seq<Padded>)
    requires CleanAll(ps) && NoneEndsInEquals(ps) && multiset(BodyTypes(ps)) == multiset(BodyTypes(qs))
    ensures CleanAll(qs) && NoneEndsInEquals(qs)
  {
    hide Clean, LexType, EndsInEquals, BodyTypes, CleanAll, NoneEndsInEquals;
    CleanAt(ps);
    CleanAt(qs);
    forall k | 0 <= k < |qs| ensures CleanMember(qs[k]) {
      var j := IndexOfBody(ps, qs, k);
      assert CleanMember(ps[j]);
    }
  }

  lemma {:induction false} RearrangedNoTop(ps: seq<Padded>, qs: seq<Padded>, n: Needle)
    requires |ps| >= 2 && AllOk(qs) && IsNeedle(n) && multiset(BodyTypes(ps)) == multiset(BodyTypes(qs))
    requires NoTop(JoinLex(LexAll(ps), '|'), n)
    ensures NoTop(JoinLex(LexAll(qs), '|'), n)
  {
    hide LexPadded, LexType, JoinLex, LexAll, NoTop, Hits, BodyTypes, Ok, IsNeedle, AllSpace;
    JoinedBack(ps, '|', n);
    forall k | 0 <= k < |qs| ensures NoTop(LexPadded(qs[k]), n) {
      var j := IndexOfBody(ps, qs, k);
      MemberOk(qs, k);
      PaddedFree(qs[k], n);
    }
    EachNoTop(qs, n);
    JoinNoTop(LexAll(qs), '|', n);
  }

  lemma {:induction false} EachNoTop(ps: seq<Padded>, n: Needle)
    requires forall k :: 0 <= k < |ps| ==> NoTop(LexPadded(ps[k]), n)
    ensures NoTopEach(LexAll(ps), n)
  {
    hide LexPadded, NoTop;
    if ps == [] {
    } else {
      forall k | 0 <= k < |ps[1..]| ensures NoTop(LexPadded(ps[1..][k]), n) { assert ps[1..][k] == ps[k + 1]; }
      EachNoTop(ps[1..], n);
      assert LexAll(ps)[1..] == LexAll(ps[1..]);
    }
  }

  lemma {:induction false} RearrangedFollows(ps: seq<Padded>, qs: seq<Padded>)
    requires |ps| >= 2 && AllOk(ps) && AllOk(qs) && NoneEndsInEquals(qs) && SameSpacing(ps, qs)
    requires multiset(BodyTypes(ps)) == multiset(BodyTypes(qs))
    ensures Follows(JoinLex(LexAll(ps), '|'), JoinLex(LexAll(qs), '|'))
  {
    hide LexType, JoinLex, LexAll, NoTop, BodyTypes, AllOk, IsNeedle, SolidStart, SolidEnd, EndsInEquals, SomeSolid,
      NoneEndsInEquals;
    var xs, ys := JoinLex(LexAll(ps), '|'), JoinLex(LexAll(qs), '|');
    forall n | IsNeedle(n) && NoTop(xs, n) ensures NoTop(ys, n) { RearrangedNoTop(ps, qs, n); }
    JoinedStart(ps, '|');
    JoinedStart(qs, '|');
    JoinedEnd(ps, '|');
    JoinedEnd(qs, '|');
    LastNotEquals(qs);
    JoinedSolid(ps, '|');
    SomeJoined(LexAll(ps), '|');
    SomeJoined(LexAll(qs), '|');
  }

  lemma {:induction false} LastNotEquals(ps: seq<Padded>)
    requires ps != [] && NoneEndsInEquals(ps)
    ensures !EndsInEquals(LexType(Last(ps).body))
  {
    hide LexType, EndsInEquals;
    if |ps| == 1 {
    } else {
      LastNotEquals(ps[1..]);
    }
  }

  /** The members in another order, each place keeping its white space. */
  lemma {:induction false} UnionReplaced(bar: Option<string>, ps: seq<Padded>, qs: seq<Padded>)
    requires Ok(Union(bar, ps)) && Clean(Union(bar, ps)) && Unmarked(ps) && SameSpacing(ps, qs)
    requires multiset(BodyTypes(ps)) == multiset(BodyTypes(qs))
    ensures Replaces(Union(bar, ps), Union(bar, qs)) && Same(Union(bar, ps), Union(bar, qs))
  {
    hide AllOk, AllFree, AllSpace, SameBag, LexType, JoinLex, LexAll, BodyTypes, IsNeedle, Follows, CleanAll, NoneEndsInEquals, Unmarked, Unparted;
    assert SpaceAround(qs) by {
      forall k | 0 <= k < |qs| ensures AllSpace(qs[k].lead) && AllSpace(qs[k].trail) { MemberSpaces(ps, k); }
    }
    RearrangedUnion(bar, ps, bar, qs);
    CleanRearranged(ps, qs);
    PermutationIsSame(ps, qs);
    RearrangedFollows(ps, qs);
    UnionFollows(bar, ps, qs);
  }

  lemma {:induction false} UnionFollows(bar: Option<string>, ps: seq<Padded>, qs: seq<Padded>)
    requires ps != [] && qs != [] && Follows(JoinLex(LexAll(ps), '|'), JoinLex(LexAll(qs), '|'))
    ensures Follows(LexType(Union(bar, ps)), LexType(Union(bar, qs)))
  {
    hide Follows, JoinLex, LexAll, LexType;
    UnionShape(bar, ps);
    UnionShape(bar, qs);
    var front := if bar.Some? then Chars(bar.value) + [Ch('|')] else [];
    FollowsItself(front);
    FollowsAppend(front, front, JoinLex(LexAll(ps), '|'), JoinLex(LexAll(qs), '|'));
  }

  lemma {:induction false} MemberSpaces(ps: seq<Padded>, k: nat)
    requires AllOk(ps) && k < |ps|
    ensures AllSpace(ps[k].lead) && AllSpace(ps[k].trail)
  {
    hide Ok, AllSpace, AllOk, Trimmed;
    MemberOk(ps, k);
  }

  // ---------- The same type in another order ----------

  /** The same type printed in another order, with the same white space before what follows. */
  ghost predicate Reordered(c: Context, t: Type, u: Type, e: Tail) {
    && Pair(t, u) && RightEnd(u).Union? && RightEnd(u).members != [] && RightEnd(t).Union? && RightEnd(t).members != []
    && LastMember(u).trail == LastMember(t).trail && Fits(c, AddTail(u, e))
  }

  ghost predicate OrdersAgree(c: Context, t: Type, e: Tail) {
    forall u {:trigger Reordered(c, t, u, e)} :: Reordered(c, t, u, e) ==>
      NormaliseTypeText(Print(Plug(c, AddTail(u, e)))) == NormaliseTypeText(Print(Plug(c, AddTail(t, e))))
  }

  lemma {:induction false} SameRightEnd(t: Type, u: Type)
    requires Same(t, u)
    ensures Same(RightEnd(t), RightEnd(u))
    decreases t
  {
    hide SameItems, SameBag;
    match t
    case Function(_, result) => SameRightEnd(result.body, u.result.body);
    case Labelled(_, value) => SameRightEnd(value.body, u.value.body);
    case Conditional(_, _, no) => SameRightEnd(no.body, u.no.body);
    case List(parts, _) =>
      if parts != [] {
        SameLast(parts, u.parts);
        SameRightEnd(parts[|parts| - 1].body, u.parts[|parts| - 1].body);
      }
    case _ =>
  }

  lemma {:induction false} InSameBag(ps: seq<Padded>, qs: seq<Padded>, i: nat) returns (k: nat)
    requires SameBag(ps, qs) && i < |qs|
    ensures k < |ps| && Same(ps[k].body, qs[i].body)
    decreases |ps|
  {
    hide Same;
    var j :| 0 <= j < |qs| && Same(ps[0].body, qs[j].body) && SameBag(ps[1..], qs[..j] + qs[j + 1..]);
    if i == j {
      k := 0;
    } else {
      var rest := qs[..j] + qs[j + 1..];
      var i' := if i < j then i else i - 1;
      assert rest[i'] == qs[i];
      var k' := InSameBag(ps[1..], rest, i');
      assert ps[1..][k'] == ps[k' + 1];
      k := k' + 1;
    }
  }

  ghost predicate MembersAlike(t: Type)
    requires RightEnd(t).Union? && RightEnd(t).members != []
  {
    var ps := RightEnd(t).members;
    forall k :: 0 <= k < |ps| ==> NormaliseTypeText(Print(ps[k].body)) == NormaliseTypeText(Print(LastMember(t).body))
  }

  /** A type before a separator or other text, in a place of a larger type. */
  ghost predicate Placed(c: Context, t: Type, e: Tail) {
    && Ok(t) && Clean(t) && Takes(t, e) && e.Valid() && RightEnd(t).Union? && RightEnd(t).members != [] && Fits(c, AddTail(t, e))
  }

  lemma {:induction false} UnionMemberOk(t: Type, k: nat)
    requires t.Union? && Ok(t) && k < |t.members|
    ensures Ok(t.members[k].body)
  {
    hide AllFree, AllOk, AllSpace, Unparted, LexType;
    MemberOk(t.members, k);
  }

  lemma {:induction false} AlikeAgree(c: Context, t: Type, u: Type, e: Tail)
    requires Placed(c, t, e) && Reordered(c, t, u, e) && MembersAlike(t)
    ensures NormaliseTypeText(Print(Plug(c, AddTail(u, e)))) == NormaliseTypeText(Print(Plug(c, AddTail(t, e))))
  {
    hide Ok, Clean, Open, Same, NormaliseTypeText, Print, RightEnd, AddTail, Plug, LexItems, LexType, NoTop, Takes, SameBag, AllOk;
    LastMemberDecides(c, t, u, e);
    SameRightEnd(t, u);
    var ps, qs := RightEnd(t).members, RightEnd(u).members;
    SameUnionBag(RightEnd(t), RightEnd(u));
    var k := InSameBag(ps, qs, |qs| - 1);
    LastMemberOk(t);
    LastMemberOk(u);
    UnionMemberOk(RightEnd(t), k);
    UnionMemberOk(RightEnd(u), |qs| - 1);
    Canonicity(ps[k].body, qs[|qs| - 1].body);
  }

  lemma {:induction false} SameUnionBag(t: Type, u: Type)
    requires t.Union? && u.Union? && Same(t, u)
    ensures SameBag(t.members, u.members)
  {
    hide SameBag;
  }

  // ---------- Two members change places ----------

  lemma {:induction false} OpenUnion(t: Type)
    requires t.Union? && Ok(t) && NoTop(LexType(t), LIST)
    ensures Unmarked(t.members)
  {
    hide AllOk, LexType, NoTop, Unparted, AllSpace, LexPadded, PaddedOk;
    var ps := t.members;
    assert IsNeedle(LIST);
    UnionBack(t, LIST);
    forall k | 0 <= k < |ps| ensures Free(LexPadded(ps[k]), [LIST]) {
      MemberSpaces(ps, k);
      PaddedFree(ps[k], LIST);
    }
  }

  lemma {:induction false} RightEndOpen(t: Type)
    requires Ok(t) && Open(t) && RightEnd(t).Union?
    ensures NoTop(LexType(RightEnd(t)), LIST)
    decreases t
  {
    hide NoTop, LexPadded, LexItems, PaddedOk, ItemsOk, Unparted, IsLabel, PartsOk, AllOk, AllFree, SolidParts, SeparatorsOk, Trim, LexAll;
    match t
    case Function(params, result) =>
      BehindFree(LexItems(params) + [Fat], LexPadded(result));
      FreeNoList(result);
      RightEndOpen(result.body);
    case Labelled(name, value) =>
      BehindFree(LexItems(name) + [Ch(':')], LexPadded(value));
      FreeNoList(value);
      RightEndOpen(value.body);
    case Conditional(check, yes, no) =>
      LastBranchFree(t);
      FreeNoList(no);
      RightEndOpen(no.body);
    case List(parts, _) =>
      ListLast(t);
      RightEndOpen(Last(parts).body);
    case _ =>
  }

  lemma {:induction false} StaysOpen(t: Type, w: Type)
    requires Open(t) && !t.List? && Replaces(t, w)
    ensures Open(w)
  {
    hide LexType, Ok, Clean, NoTop, SolidStart, SolidEnd, SomeSolid, EndsInEquals, Unparted;
    assert IsNeedle(LIST);
  }

  /** Another union at the right end that reads as well. */
  lemma {:induction false} EndReplaced(t: Type, w: Type)
    requires Ok(t) && Clean(t) && Open(t) && RightEnd(t).Union? && w.Union? && Replaces(RightEnd(t), w)
    ensures var u := WithEnd(t, w); Replaces(t, u) && Open(u) && RightEnd(u) == w
  {
    hide Ok, Clean, Keeps, Plug, LexType, NoTop;
    SpineIs(t);
    NewEnd(t, w);
    ContextReplaced(Spine(t), RightEnd(t), w);
    if t.List? {
      ListLast(t);
      var x := Last(t.parts).body;
      ListIsClean(t);
      SpineIs(x);
      ContextReplaced(Spine(x), RightEnd(x), w);
      LastWithEnd(t, w);
      StaysOpen(x, WithEnd(x, w));
    } else {
      StaysOpen(t, WithEnd(t, w));
    }
  }

  lemma {:induction false} ListIsClean(t: Type)
    requires t.List? && t.parts != [] && Clean(t)
    ensures Clean(Last(t.parts).body)
  {
    hide CleanAll;
    FrontPlus(t.parts, Last(t.parts));
  }

  lemma {:induction false} LastWithEnd(t: Type, w: Type)
    requires t.List? && t.parts != []
    ensures var u := WithEnd(t, w);
      u.List? && u.parts != [] && Last(u.parts).body == WithEnd(Last(t.parts).body, w) && RightEnd(t) == RightEnd(Last(t.parts).body)
  {
    var last := t.parts[|t.parts| - 1];
    var ps := t.parts[..|t.parts| - 1] + [PlugSlot(SpineSlot(last), w)] + [];
    assert WithEnd(t, w).parts == ps && ps[|ps| - 1].body == WithEnd(last.body, w);
  }

  lemma {:induction false} TakesToo(t: Type, u: Type, e: Tail)
    requires Takes(t, e) && Replaces(t, u) && Open(u)
    ensures Takes(u, e)
  {
    hide Ok, Clean, Open, LexType, LexItems, NoTop, SolidStart, SolidEnd, SomeSolid, EndsInEquals, Unparted;
    assert IsNeedle(COLON);
  }

  lemma {:induction false} TailReplaced(t: Type, u: Type, e: Tail)
    requires Ok(t) && Clean(t) && Takes(t, e) && Replaces(t, u) && Open(u) && e.Valid()
    ensures Replaces(AddTail(t, e), AddTail(u, e))
  {
    hide Ok, Clean, Open, LexType, Keeps, LexItems, AddTail;
    TakesToo(t, u, e);
    TailOk(u, e);
    TailTokens(t, e);
    TailTokens(u, e);
    KeepsItself(e.Tokens());
    KeepsAppend(LexType(t), LexType(u), e.Tokens(), e.Tokens());
    TailKind(t, e);
    TailKind(u, e);
  }

  lemma {:induction false} TailKind(t: Type, e: Tail)
    ensures AddTail(t, e).List? <==> t.List?
  {
  }

  /** Two members of the union change places; the spacing stays. */
  function Swap(ps: seq<Padded>, i: nat, j: nat): (qs: seq<Padded>)
    requires i < |ps| && j < |ps|
    ensures SameSpacing(ps, qs) && multiset(BodyTypes(ps)) == multiset(BodyTypes(qs))
    ensures qs[i].body == ps[j].body && qs[j].body == ps[i].body
  {
    var qs := ps[i := ps[i].(body := ps[j].body)][j := ps[j].(body := ps[i].body)];
    assert BodyTypes(qs) == BodyTypes(ps)[i := ps[j].body][j := ps[i].body];
    qs
  }

  function Swapped(t: Type, k: nat): Type
    requires RightEnd(t).Union? && k < |RightEnd(t).members|
  {
    var r := RightEnd(t);
    WithEnd(t, Union(r.bar, Swap(r.members, k, |r.members| - 1)))
  }

  /** The swapped members make a union that reads as well. */
  lemma {:induction false} SwapReplaces(r: Type, k: nat)
    requires r.Union? && Ok(r) && Clean(r) && NoTop(LexType(r), LIST) && k < |r.members|
    ensures var w := Union(r.bar, Swap(r.members, k, |r.members| - 1)); Replaces(r, w) && Same(r, w)
  {
    hide Ok, Clean, Same, Replaces, NoTop, LexType, Unmarked, Swap;
    OpenUnion(r);
    assert r == Union(r.bar, r.members);
    UnionReplaced(r.bar, r.members, Swap(r.members, k, |r.members| - 1));
  }

  lemma {:induction false} SwapPairs(t: Type, k: nat)
    requires Ok(t) && Clean(t) && Open(t) && RightEnd(t).Union? && k < |RightEnd(t).members|
    ensures var u, r := Swapped(t, k), RightEnd(t);
      Pair(t, u) && Replaces(t, u) && RightEnd(u) == Union(r.bar, Swap(r.members, k, |r.members| - 1))
  {
    hide Ok, Clean, Open, Same, RightEnd, Replaces, Plug, NoTop, LexType, Swap;
    LastMemberOk(t);
    RightEndOpen(t);
    var r := RightEnd(t);
    var w := Union(r.bar, Swap(r.members, k, |r.members| - 1));
    SwapReplaces(r, k);
    EndReplaced(t, w);
    SpineIs(t);
    ReplacesIs(t, WithEnd(t, w));
    ContextSame(Spine(t), r, w);
  }

  lemma {:induction false} SwapLast(r: Type, k: nat)
    requires r.Union? && k < |r.members|
    ensures var qs := Swap(r.members, k, |r.members| - 1);
      qs != [] && Last(qs).trail == Last(r.members).trail && Last(qs).body == r.members[k].body
  {
    hide BodyTypes;
    var qs := Swap(r.members, k, |r.members| - 1);
    assert SameSpacing(r.members, qs);
  }

  lemma {:induction false} SwapReorders(c: Context, t: Type, k: nat, e: Tail)
    requires Placed(c, t, e) && k < |RightEnd(t).members|
    ensures Reordered(c, t, Swapped(t, k), e) && LastMember(Swapped(t, k)).body == RightEnd(t).members[k].body
  {
    hide Ok, Clean, Open, Same, RightEnd, Replaces, Plug, AddTail, LexItems, NoTop, LexType, Swapped, Swap;
    var u, r := Swapped(t, k), RightEnd(t);
    SwapPairs(t, k);
    TailReplaced(t, u, e);
    ContextReplaced(c, AddTail(t, e), AddTail(u, e));
    SwapLast(r, k);
  }

  lemma {:induction false} ReplacesIs(t: Type, w: Type)
    requires Replaces(t, w)
    ensures Ok(w) && Clean(w)
  {
    hide Ok, Clean, Keeps;
  }

  // ---------- All orders ----------

  lemma {:induction false} SwapDecides(c: Context, t: Type, u: Type, e: Tail)
    requires Placed(c, t, e) && Reordered(c, t, u, e)
    requires NormaliseTypeText(Print(Plug(c, AddTail(u, e)))) == NormaliseTypeText(Print(Plug(c, AddTail(t, e))))
    ensures NormaliseTypeText(Print(LastMember(u).body)) == NormaliseTypeText(Print(LastMember(t).body))
  {
    hide Ok, Clean, Open, NormaliseTypeText, Print, RightEnd, Same, AddTail, Plug, LexItems;
    LastMemberDecides(c, t, u, e);
  }

  lemma {:induction false} AgreeingAreAlike(c: Context, t: Type, e: Tail)
    requires Placed(c, t, e) && OrdersAgree(c, t, e)
    ensures MembersAlike(t)
  {
    hide Ok, Clean, Open, NormaliseTypeText, Print, RightEnd, Reordered, LastMember, Swapped, AddTail, Plug, Fits, LexItems;
    var ps := RightEnd(t).members;
    forall k | 0 <= k < |ps|
      ensures NormaliseTypeText(Print(ps[k].body)) == NormaliseTypeText(Print(LastMember(t).body))
    {
      SwapReorders(c, t, k, e);
      SwapDecides(c, t, Swapped(t, k), e);
    }
  }

  lemma {:induction false} AllAlikeAgree(c: Context, t: Type, e: Tail)
    requires Placed(c, t, e) && MembersAlike(t)
    ensures OrdersAgree(c, t, e)
  {
    hide Placed, MembersAlike, NormaliseTypeText, Print, Reordered, AddTail, Plug, RightEnd;
    forall u | Reordered(c, t, u, e)
      ensures NormaliseTypeText(Print(Plug(c, AddTail(u, e)))) == NormaliseTypeText(Print(Plug(c, AddTail(t, e))))
    {
      AlikeAgree(c, t, u, e);
    }
  }

  /** In every place of a larger type: before a separator or other text, all orders of a union normalise to
      one text exactly when all its members do. */
  lemma {:induction false} AllOrdersAgree(c: Context, t: Type, e: Tail)
    requires Ok(t) && Clean(t) && Takes(t, e) && e.Valid() && RightEnd(t).Union? && Fits(c, AddTail(t, e))
    ensures RightEnd(t).members != []
    ensures OrdersAgree(c, t, e) <==> MembersAlike(t)
  {
    hide Ok, Clean, Open, NormaliseTypeText, Print, RightEnd, Reordered, OrdersAgree, MembersAlike, AddTail, Fits, LexItems;
    LastMemberOk(t);
    if MembersAlike(t) { AllAlikeAgree(c, t, e); }
    if OrdersAgree(c, t, e) { AgreeingAreAlike(c, t, e); }
  }
}
