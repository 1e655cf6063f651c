/** A conditional type in the true branch of another. The canonicaliser cuts at the first question mark and
    the first colon after it, so it reads the inner question mark as text and the inner colon as the outer
    one: the inner false branch becomes a label, in which nothing outside brackets is reordered. */
module TypeBranches {
  import opened Strings
  import opened TypeText
  import opened TypeLexis
  import opened TypeGrammar
  import opened TypeCanonicity
  import opened TypeTokens
  import opened TypeShapes
  import opened TypeTheorems
  import opened TypeCanonTree
  import opened TypeCanonOk
  import opened TypeReorder
  import opened TypeComplete
  import opened TypeContexts
  import opened TypeReplace
  import opened TypeTails
  import opened TypeBounds

  // ---------- The items of a type ----------

  /** A type as the canonicaliser sees it in a label: characters, arrows, quotations and brackets. */
  function ItemsOf(t: Type): seq<Item>
    decreases t, 0
  {
    match t
    case Flat(items) => items
    case Intersection(members) => JoinItems(ItemsOfAll(members), Plain('&'))
    case Union(bar, members) => (if bar.Some? then Plains(bar.value) + [Plain('|')] else []) + JoinItems(ItemsOfAll(members), Plain('|'))
    case Function(params, result) => params + [FatArrow] + ItemsOfPadded(result)
    case Labelled(name, value) => name + [Plain(':')] + ItemsOfPadded(value)
    case Conditional(check, yes, no) =>
      ItemsOfPadded(check) + [Plain('?')] + (ItemsOfPadded(yes) + [Plain(':')] + ItemsOfPadded(no))
    case List(parts, separators) => ListItems(ItemsOfAll(parts), separators)
  }

  function ItemsOfPadded(p: Padded): seq<Item>
    decreases p, 1
  {
    Plains(p.lead) + ItemsOf(p.body) + Plains(p.trail)
  }

  function ItemsOfAll(ps: seq<Padded>): (r: seq<seq<Item>>)
    ensures |r| == |ps|
    decreases ps, 0
  {
    if ps == [] then [] else [ItemsOfPadded(ps[0])] + ItemsOfAll(ps[1..])
  }

  function JoinItems(parts: seq<seq<Item>>, it: Item): seq<Item> {
    if parts == [] then []
    else if |parts| == 1 then parts[0]
    else parts[0] + [it] + JoinItems(parts[1..], it)
  }

  function ListItems(parts: seq<seq<Item>>, separators: seq<string>): seq<Item> {
    if parts == [] then []
    else if |parts| == 1 || separators == [] then parts[0]
    else parts[0] + Plains(separators[0]) + ListItems(parts[1..], separators[1..])
  }

  lemma {:induction false} PlainTokens(s: string)
    ensures LexItems(Plains(s)) == Chars(s) && (PlainText(s) ==> ItemsOk(Plains(s))) && CleanItems(Plains(s))
  {
    if s == "" {
    } else {
      PlainTokens(s[1..]);
      assert Plains(s)[1..] == Plains(s[1..]);
      if PlainText(s) {
        assert Lexed(Ch(s[0]));
        assert PlainText(s[1..]);
      }
    }
  }

  lemma {:induction false} ThreeTokens(xs: seq<Item>, ys: seq<Item>, zs: seq<Item>)
    ensures LexItems(xs + ys + zs) == LexItems(xs) + LexItems(ys) + LexItems(zs)
    ensures ItemsOk(xs + ys + zs) <==> ItemsOk(xs) && ItemsOk(ys) && ItemsOk(zs)
    ensures CleanItems(xs + ys + zs) <==> CleanItems(xs) && CleanItems(ys) && CleanItems(zs)
  {
    hide LexItems, ItemsOk, CleanItems, ExpectItems;
    LexItemsAppend(xs + ys, zs);
    LexItemsAppend(xs, ys);
    ItemsAppend(xs + ys, zs);
    ItemsAppend(xs, ys);
  }

  lemma {:induction false} OneTokenItem(it: Item)
    ensures LexItems([it]) == [LexItem(it)] && (ItemsOk([it]) <==> ItemOk(it)) && (CleanItems([it]) <==> CleanItem(it))
  {
    hide ItemOk, CleanItem, ExpectItem;
    OneLexItem(it);
    OneItem(it);
  }

  /** The items print the type, and are items of the grammar. */
  ghost predicate Itemised(items: seq<Item>, xs: seq<Lex>, ok: bool, clean: bool) {
    LexItems(items) == xs && (ok ==> ItemsOk(items)) && (clean ==> CleanItems(items))
  }

  lemma {:induction false} ItemsOfTokens(t: Type)
    requires Ok(t)
    ensures LexItems(ItemsOf(t)) == LexType(t) && ItemsOk(ItemsOf(t)) && (Clean(t) ==> CleanItems(ItemsOf(t)))
    decreases t, 2
  {
    hide PaddedOk, ItemsOk, CleanItems, AllOk, PartsOk, CleanAll, Free, AllFree, LexPadded, LexItems, LexAll, JoinLex, JoinList, Unparted, IsLabel,
      SolidParts, SeparatorsOk, Trim, Print, ItemsOfPadded, ItemsOfAll, JoinItems, ListItems, NoneEndsInEquals, Plains, AllSpace;
    match t
    case Flat(_) =>
    case Intersection(members) =>
      AllItems(members);
      JoinItemTokens(members, '&');
    case Union(bar, members) => UnionItemTokens(t);
    case Function(params, result) =>
      PaddedItems(result);
      OneTokenItem(FatArrow);
      ThreeTokens(params, [FatArrow], ItemsOfPadded(result));
    case Labelled(name, value) =>
      PaddedItems(value);
      OneTokenItem(Plain(':'));
      ThreeTokens(name, [Plain(':')], ItemsOfPadded(value));
    case Conditional(check, yes, no) =>
      PaddedItems(check);
      PaddedItems(yes);
      PaddedItems(no);
      OneTokenItem(Plain(':'));
      OneTokenItem(Plain('?'));
      ThreeTokens(ItemsOfPadded(yes), [Plain(':')], ItemsOfPadded(no));
      ThreeTokens(ItemsOfPadded(check), [Plain('?')], ItemsOfPadded(yes) + [Plain(':')] + ItemsOfPadded(no));
    case List(parts, separators) =>
      PartItems(parts);
      ListItemTokens(parts, separators);
  }

  lemma {:induction false} PaddedItems(p: Padded)
    requires PaddedOk(p)
    ensures LexItems(ItemsOfPadded(p)) == LexPadded(p) && ItemsOk(ItemsOfPadded(p)) && (Clean(p.body) ==> CleanItems(ItemsOfPadded(p)))
    decreases p, 3
  {
    hide Ok, LexType, LexItems, ItemsOk, CleanItems, Clean, Plains, PlainText, AllSpace, Trimmed;
    BodyIsOk(p);
    ItemsOfTokens(p.body);
    SpacePlain(p.lead);
    SpacePlain(p.trail);
    PlainTokens(p.lead);
    PlainTokens(p.trail);
    ThreeTokens(Plains(p.lead), ItemsOf(p.body), Plains(p.trail));
  }

  ghost predicate EachItemised(ps: seq<Padded>) {
    forall k :: 0 <= k < |ps| ==> Itemised(ItemsOfPadded(ps[k]), LexPadded(ps[k]), true, Clean(ps[k].body))
  }

  lemma {:induction false} AllItems(ps: seq<Padded>)
    requires AllOk(ps)
    ensures EachItemised(ps)
    decreases ps, 0
  {
    hide PaddedOk, LexPadded, LexItems, ItemsOk, CleanItems, Clean, ItemsOfPadded;
    if ps == [] {
    } else {
      PaddedItems(ps[0]);
      AllItems(ps[1..]);
      EachMore(ps);
    }
  }

  lemma {:induction false} EachMore(ps: seq<Padded>)
    requires ps != [] && Itemised(ItemsOfPadded(ps[0]), LexPadded(ps[0]), true, Clean(ps[0].body)) && EachItemised(ps[1..])
    ensures EachItemised(ps)
  {
    hide Itemised, ItemsOfPadded, LexPadded, Clean;
    forall k | 0 <= k < |ps| ensures Itemised(ItemsOfPadded(ps[k]), LexPadded(ps[k]), true, Clean(ps[k].body)) {
      if k > 0 { assert ps[k] == ps[1..][k - 1]; }
    }
  }

  lemma {:induction false} EachTail(ps: seq<Padded>)
    requires ps != [] && EachItemised(ps)
    ensures Itemised(ItemsOfPadded(ps[0]), LexPadded(ps[0]), true, Clean(ps[0].body)) && EachItemised(ps[1..])
  {
    hide Itemised, ItemsOfPadded, LexPadded, Clean;
    forall k | 0 <= k < |ps[1..]| ensures Itemised(ItemsOfPadded(ps[1..][k]), LexPadded(ps[1..][k]), true, Clean(ps[1..][k].body)) {
      assert ps[1..][k] == ps[k + 1];
    }
  }

  lemma {:induction false} PartItems(ps: seq<Padded>)
    requires PartsOk(ps)
    ensures EachItemised(ps)
    decreases ps, 0
  {
    hide Ok, LexType, LexItems, ItemsOk, CleanItems, Clean;
    if ps == [] {
    } else {
      ItemsOfTokens(ps[0].body);
      var p := ps[0];
      assert Plains("") + ItemsOf(p.body) + Plains("") == ItemsOf(p.body);
      assert Chars("") + LexType(p.body) + Chars("") == LexType(p.body);
      PartItems(ps[1..]);
      EachMore(ps);
    }
  }

  lemma {:induction false} JoinItemTokens(ps: seq<Padded>, c: char)
    requires EachItemised(ps) && Lexed(Ch(c))
    ensures Itemised(JoinItems(ItemsOfAll(ps), Plain(c)), JoinLex(LexAll(ps), c), true, CleanAll(ps))
    decreases |ps|
  {
    hide LexPadded, LexItems, ItemsOk, CleanItems, Clean, ItemsOfPadded;
    if ps == [] {
      NoItems();
    } else {
      EachTail(ps);
      JoinItemTokens(ps[1..], c);
      if |ps| == 1 {
        assert ItemsOfAll(ps)[0] == ItemsOfPadded(ps[0]) && LexAll(ps)[0] == LexPadded(ps[0]);
      } else {
        var rest := JoinItems(ItemsOfAll(ps[1..]), Plain(c));
        assert ItemsOfAll(ps)[1..] == ItemsOfAll(ps[1..]) && LexAll(ps)[1..] == LexAll(ps[1..]);
        OneTokenItem(Plain(c));
        ThreeTokens(ItemsOfPadded(ps[0]), [Plain(c)], rest);
      }
    }
  }

  lemma {:induction false} NoItems()
    ensures LexItems([]) == [] && ItemsOk([]) && CleanItems([])
  {
  }

  lemma {:induction false} UnionItemTokens(t: Type)
    requires t.Union? && Ok(t)
    ensures LexItems(ItemsOf(t)) == LexType(t) && ItemsOk(ItemsOf(t)) && (Clean(t) ==> CleanItems(ItemsOf(t)))
    decreases t, 1
  {
    hide AllOk, CleanAll, AllFree, LexItems, LexAll, JoinLex, Unparted, ItemsOfAll, JoinItems, NoneEndsInEquals, ItemsOk, CleanItems, Plains, AllSpace, LexType,
      EachItemised, PlainText;
    var ps := t.members;
    AllItems(ps);
    JoinItemTokens(ps, '|');
    assert t == Union(t.bar, ps);
    UnionShape(t.bar, ps);
    var items := JoinItems(ItemsOfAll(ps), Plain('|'));
    if t.bar.Some? {
      SpacePlain(t.bar.value);
      PlainTokens(t.bar.value);
      OneTokenItem(Plain('|'));
      ThreeTokens(Plains(t.bar.value), [Plain('|')], items);
    } else {
      assert [] + items == items;
      assert [] + JoinLex(LexAll(ps), '|') == JoinLex(LexAll(ps), '|');
    }
  }

  lemma {:induction false} SeparatorPlain(s: string)
    requires IsSeparator(s)
    ensures PlainText(s)
  {
    forall k | 0 <= k < |s| ensures Lexed(Ch(s[k])) {
      if k > 0 { assert IsSpace(s[1..][k - 1]); }
    }
  }

  lemma {:induction false} ListItemTokens(ps: seq<Padded>, separators: seq<string>)
    requires EachItemised(ps) && |ps| == |separators| + 1 && SeparatorsOk(separators)
    ensures Itemised(ListItems(ItemsOfAll(ps), separators), JoinList(LexAll(ps), separators), true, CleanAll(ps))
    decreases |ps|
  {
    hide LexPadded, LexItems, ItemsOk, CleanItems, Clean, ItemsOfPadded, Plains, PlainText, IsSeparator;
    EachTail(ps);
    if |ps| == 1 {
      assert ItemsOfAll(ps)[0] == ItemsOfPadded(ps[0]) && LexAll(ps)[0] == LexPadded(ps[0]);
    } else {
      ListItemTokens(ps[1..], separators[1..]);
      var rest := ListItems(ItemsOfAll(ps[1..]), separators[1..]);
      assert ItemsOfAll(ps)[1..] == ItemsOfAll(ps[1..]) && LexAll(ps)[1..] == LexAll(ps[1..]);
      SeparatorPlain(separators[0]);
      PlainTokens(separators[0]);
      ThreeTokens(ItemsOfPadded(ps[0]), Plains(separators[0]), rest);
    }
  }

  // ---------- A conditional type in the true branch of another ----------

  /** `check ? inner ? yes : no : outer`; `lead` and `trail` stand around the inner conditional type. */
  datatype Nested = Nested(check: Padded, lead: string, inner: Padded, yes: Padded, no: Padded, trail: string, outer: Padded)

  /** What the text means in TypeScript. */
  function Meant(n: Nested): Type {
    Conditional(n.check, Padded(n.lead, Conditional(n.inner, n.yes, n.no), n.trail), n.outer)
  }

  /** What stands before the inner true branch, its question mark included. */
  function YesHead(n: Nested): seq<Item> { ItemsOf(n.inner.body) + (Plains(n.inner.trail) + [Plain('?')] + Plains(n.yes.lead)) }

  /** The inner false branch as items. */
  function NoItemsOf(n: Nested): seq<Item> { ItemsOf(n.no.body) + Plains(n.no.trail + n.trail) }

  /** What the canonicaliser reads: the inner true branch behind its check, the inner false branch as a label. */
  function ReadAs(n: Nested): Type {
    Conditional(n.check, YesPart(n), NoPart(n))
  }

  function YesPart(n: Nested): Padded { Padded(n.lead + n.inner.lead, Glued(YesHead(n), n.yes.body), n.yes.trail) }

  function NoPart(n: Nested): Padded {
    Padded(n.no.lead, Labelled(NoItemsOf(n), Padded(n.outer.lead, n.outer.body, "")), n.outer.trail)
  }

  /** The inner types hold no further conditional type, and the inner check is no union. */
  ghost predicate NestedOk(n: Nested) {
    && AllSpace(n.lead) && AllSpace(n.trail)
    && PaddedOk(n.check) && Free(LexPadded(n.check), [LIST, QUESTION])
    && PaddedOk(n.inner) && Free(LexPadded(n.inner), LOOSE) && Clean(n.inner.body)
    && PaddedOk(n.yes) && Free(LexPadded(n.yes), [LIST, COLON]) && Glues(YesHead(n), n.yes.body)
    && PaddedOk(n.no) && Free(LexPadded(n.no), [LIST, COLON, QUESTION])
    && PaddedOk(n.outer) && NoTop(LexPadded(n.outer), QUESTION) && Unparted(LexPadded(n.outer))
  }

  lemma {:induction false} FreeOf(xs: seq<Lex>, needles: seq<Needle>, n: Needle)
    requires Free(xs, needles) && n in needles
    ensures NoTop(xs, n)
  {
  }

  lemma {:induction false} BodyFreeOf(p: Padded, needles: seq<Needle>)
    requires Free(LexPadded(p), needles)
    ensures Free(LexType(p.body), needles)
  {
    hide NoTop, LexPadded, LexType;
    forall n | n in needles ensures NoTop(LexType(p.body), n) { BodyFree(p, n); }
  }

  lemma {:induction false} QuestionTokens(space: string, more: string)
    requires AllSpace(space) && AllSpace(more)
    ensures var items := Plains(space) + [Plain('?')] + Plains(more);
      && LexItems(items) == Chars(space) + [Ch('?')] + Chars(more) && ItemsOk(items) && CleanItems(items)
      && Free(LexItems(items), LOOSE)
  {
    hide LexItems, ItemsOk, CleanItems, Plains, PlainText, AllSpace, NoTop, Hits;
    SpacePlain(space);
    SpacePlain(more);
    PlainTokens(space);
    PlainTokens(more);
    OneTokenItem(Plain('?'));
    ThreeTokens(Plains(space), [Plain('?')], Plains(more));
    forall n | n in LOOSE ensures NoTop(Chars(space) + [Ch('?')] + Chars(more), n) {
      SpaceIsFree(space, n);
      SpaceIsFree(more, n);
      QuestionFree(n);
      NoTopAround(Chars(space), Ch('?'), Chars(more), n);
    }
  }

  lemma {:induction false} SpaceIsFree(s: string, n: Needle)
    requires AllSpace(s) && n in LOOSE
    ensures NoTop(Chars(s), n)
  {
    SpaceNoTop(s, n);
  }

  lemma {:induction false} QuestionFree(n: Needle)
    requires n in LOOSE
    ensures !Hits(Ch('?'), n)
  {
  }

  lemma {:induction false} YesIsHead(n: Nested)
    requires NestedOk(n)
    ensures IsHead(YesHead(n))
    ensures LexItems(YesHead(n)) == LexType(n.inner.body) + (Chars(n.inner.trail) + [Ch('?')] + Chars(n.yes.lead))
  {
    hide LexItems, ItemsOk, CleanItems, Plains, NoTop, LexType, LexPadded, Ok, Clean, Glues, AllSpace, Unparted, SolidStart, SolidEnd, Trimmed;
    var body, rest := n.inner.body, Plains(n.inner.trail) + [Plain('?')] + Plains(n.yes.lead);
    BodyIsOk(n.inner);
    ItemsOfTokens(body);
    QuestionTokens(n.inner.trail, n.yes.lead);
    LexItemsAppend(ItemsOf(body), rest);
    ItemsAppend(ItemsOf(body), rest);
    BodyFreeOf(n.inner, LOOSE);
    FreeAppend(LexType(body), LexItems(rest), LOOSE);
    MemberEnds(body);
    SolidAppend(LexType(body), LexItems(rest));
    SolidNotEmpty(LexType(body), []);
  }

  lemma {:induction false} YesRegroup(l: seq<Lex>, il: seq<Lex>, b: seq<Lex>, it: seq<Lex>, q: seq<Lex>, yl: seq<Lex>, y: seq<Lex>, yt: seq<Lex>)
    ensures (l + il) + ((b + (it + q + yl)) + y) + yt == l + ((il + b + it) + q + (yl + y + yt))
  {
  }

  lemma {:induction false} YesReads(n: Nested)
    requires NestedOk(n)
    ensures PaddedOk(YesPart(n)) && LexPadded(YesPart(n)) == Chars(n.lead) + (LexPadded(n.inner) + [Ch('?')] + LexPadded(n.yes))
    ensures Clean(n.yes.body) ==> Clean(YesPart(n).body)
  {
    hide LexItems, LexType, Ok, Clean, Glues, Glued, Unparted, SolidStart, SolidEnd, IsHead, Free, IsSpace, NoTop, YesHead, ShowAll, LexedAll, SomeSolid;
    var hs, y := YesHead(n), n.yes.body;
    YesIsHead(n);
    BodyIsOk(n.yes);
    MemberEnds(y);
    GluedReads(hs, y);
    HeadShown(hs);
    ShowAppend(LexItems(hs), LexType(y));
    HeadTrims(ShowAll(LexItems(hs)), Print(y));
    SpaceAppend(n.lead, n.inner.lead);
    CharsAppend(n.lead, n.inner.lead);
    YesRegroup(Chars(n.lead), Chars(n.inner.lead), LexType(n.inner.body), Chars(n.inner.trail), [Ch('?')], Chars(n.yes.lead), LexType(y), Chars(n.yes.trail));
  }

  lemma {:induction false} NoTokens(n: Nested)
    requires NestedOk(n)
    ensures LexItems(NoItemsOf(n)) == LexType(n.no.body) + Chars(n.no.trail + n.trail) && ItemsOk(NoItemsOf(n))
    ensures Clean(n.no.body) ==> CleanItems(NoItemsOf(n))
    ensures NoTop(LexItems(NoItemsOf(n)), LIST) && NoTop(LexItems(NoItemsOf(n)), COLON) && NoTop(LexItems(NoItemsOf(n)), QUESTION)
  {
    hide LexItems, ItemsOk, CleanItems, Plains, NoTop, LexType, LexPadded, Ok, Clean, Glues, AllSpace, Unparted, SolidStart, SolidEnd, PlainText, Trimmed,
      Free;
    var body, space, needles := n.no.body, n.no.trail + n.trail, [LIST, COLON, QUESTION];
    BodyIsOk(n.no);
    ItemsOfTokens(body);
    SpaceAppend(n.no.trail, n.trail);
    SpacePlain(space);
    PlainTokens(space);
    LexItemsAppend(ItemsOf(body), Plains(space));
    ItemsAppend(ItemsOf(body), Plains(space));
    BodyFreeOf(n.no, needles);
    FreeOf(LexType(body), needles, LIST);
    FreeOf(LexType(body), needles, COLON);
    FreeOf(LexType(body), needles, QUESTION);
    SpaceNoTop(space, LIST);
    SpaceNoTop(space, COLON);
    SpaceNoTop(space, QUESTION);
    NoTopAppend(LexType(body), Chars(space), LIST);
    NoTopAppend(LexType(body), Chars(space), COLON);
    NoTopAppend(LexType(body), Chars(space), QUESTION);
  }

  lemma {:induction false} NoRegroup(nl: seq<Lex>, b: seq<Lex>, nt: seq<Lex>, t: seq<Lex>, c: seq<Lex>, ol: seq<Lex>, o: seq<Lex>, ot: seq<Lex>)
    ensures nl + ((b + (nt + t)) + c + (ol + o + [])) + ot == ((nl + b + nt) + t) + c + (ol + o + ot)
  {
  }

  lemma {:induction false} NoReads(n: Nested)
    requires NestedOk(n)
    ensures PaddedOk(NoPart(n)) && Unparted(LexPadded(NoPart(n)))
    ensures LexPadded(NoPart(n)) == LexPadded(n.no) + Chars(n.trail) + [Ch(':')] + LexPadded(n.outer)
    ensures Clean(n.no.body) && Clean(n.outer.body) ==> Clean(NoPart(n).body)
  {
    hide LexItems, ItemsOk, CleanItems, NoTop, Ok, Clean, Glues, AllSpace, Unparted, SolidStart, SolidEnd, Free, NoItemsOf, LexPadded, LexType, Trimmed;
    var v, whole := Padded(n.outer.lead, n.outer.body, ""), NoPart(n);
    var xs := LexItems(NoItemsOf(n));
    NoTokens(n);
    OuterReads(n);
    assert !IsSpace(':');
    UnpartedAround(xs, Ch(':'), LexPadded(v));
    LabelIsOk(NoItemsOf(n), v);
    LabelTokens(NoItemsOf(n), v);
    LabelTrimmed(n);
    PaddedTokens2(whole);
    PaddedTokens2(v);
    PaddedTokens2(n.no);
    PaddedTokens2(n.outer);
    PaddedUnparted(whole);
    CharsAppend(n.no.trail, n.trail);
    NoRegroup(Chars(n.no.lead), LexType(n.no.body), Chars(n.no.trail), Chars(n.trail), [Ch(':')], Chars(n.outer.lead), LexType(n.outer.body), Chars(n.outer.trail));
  }

  lemma {:induction false} PaddedTokens2(p: Padded)
    ensures LexPadded(p) == Chars(p.lead) + LexType(p.body) + Chars(p.trail)
  {
  }

  lemma {:induction false} LabelTokens(items: seq<Item>, v: Padded)
    ensures LexType(Labelled(items, v)) == LexItems(items) + [Ch(':')] + LexPadded(v)
    ensures Clean(Labelled(items, v)) <==> CleanItems(items) && Clean(v.body)
  {
    hide LexItems, LexPadded, CleanItems;
  }

  lemma {:induction false} OuterReads(n: Nested)
    requires NestedOk(n)
    ensures var v := Padded(n.outer.lead, n.outer.body, ""); PaddedOk(v) && NoTop(LexPadded(v), QUESTION) && Unparted(LexPadded(v))
  {
    hide NoTop, Ok, Unparted, LexType, Trimmed, Free, Clean, Glues, LexPadded, IsSpace;
    var v := Padded(n.outer.lead, n.outer.body, "");
    PaddedUnparted(n.outer);
    PaddedUnparted(v);
    BodyFree(n.outer, QUESTION);
    PaddedFree(v, QUESTION);
  }

  lemma {:induction false} LabelIsOk(items: seq<Item>, v: Padded)
    requires ItemsOk(items) && PaddedOk(v) && NoTop(LexItems(items), COLON) && NoTop(LexItems(items), QUESTION) && NoTop(LexPadded(v), QUESTION)
    requires Unparted(LexItems(items) + [Ch(':')] + LexPadded(v))
    ensures Ok(Labelled(items, v))
  {
    hide ItemsOk, PaddedOk, NoTop, LexItems, LexPadded, Unparted;
  }

  lemma {:induction false} LabelTrimmed(n: Nested)
    requires NestedOk(n)
    ensures Trimmed(Print(NoPart(n).body))
  {
    hide NoTop, Ok, AllSpace, Unparted, LexType, Free, Clean, Glues, LexPadded, LexItems, NoItemsOf, LexedAll, ShowAll, SolidStart, SolidEnd, IsSpace, ItemsOk,
      SomeSolid, PaddedOk;
    var v := Padded(n.outer.lead, n.outer.body, "");
    var xs, ys := LexItems(NoItemsOf(n)), LexPadded(v);
    NoTokens(n);
    OuterReads(n);
    LabelTokens(NoItemsOf(n), v);
    PaddedIs(n.no);
    PaddedIs(v);
    MemberEnds(n.no.body);
    OkFramed(v);
    PaddedEnds(v);
    SolidAppend(LexType(n.no.body), Chars(n.no.trail + n.trail));
    SolidNotEmpty(LexType(n.no.body), ys);
    SolidAppend(xs, [Ch(':')]);
    SolidAppend(xs + [Ch(':')], ys);
    SolidNotEmpty(xs, []);
    ItemsLexed(NoItemsOf(n));
    PaddedLexed(v);
    MarksLexed();
    LexedThree(xs, [Ch(':')], ys);
    ShownEnds(xs + [Ch(':')] + ys);
  }

  lemma {:induction false} PaddedIs(p: Padded)
    requires PaddedOk(p)
    ensures Ok(p.body) && Trimmed(Print(p.body))
  {
    hide Ok, LexType, ShowAll;
  }

  lemma {:induction false} NestedRegroup(a: seq<Lex>, q: seq<Lex>, l: seq<Lex>, i: seq<Lex>, y: seq<Lex>, c: seq<Lex>, n: seq<Lex>, t: seq<Lex>, o: seq<Lex>)
    ensures a + q + ((l + (i + q + y)) + c + (n + t + c + o)) == a + q + ((l + (i + q + (y + c + n)) + t) + c + o)
  {
    var left := (l + (i + q + y)) + c + (n + t + c + o);
    var right := (l + (i + q + (y + c + n)) + t) + c + o;
    assert left == l + i + q + y + c + n + t + c + o == right;
  }

  lemma {:induction false} MeantTokens(n: Nested)
    ensures LexType(Meant(n)) == LexPadded(n.check) + [Ch('?')]
         + ((Chars(n.lead) + (LexPadded(n.inner) + [Ch('?')] + (LexPadded(n.yes) + [Ch(':')] + LexPadded(n.no))) + Chars(n.trail)) + [Ch(':')] + LexPadded(n.outer))
  {
    var c := Conditional(n.inner, n.yes, n.no);
    assert LexPadded(Padded(n.lead, c, n.trail)) == Chars(n.lead) + LexType(c) + Chars(n.trail);
  }

  lemma {:induction false} ReadTokens(n: Nested)
    requires NestedOk(n)
    ensures LexType(ReadAs(n)) == LexType(Meant(n))
  {
    hide LexPadded, NestedOk;
    YesReads(n);
    NoReads(n);
    MeantTokens(n);
    assert LexType(ReadAs(n)) == LexPadded(n.check) + [Ch('?')] + (LexPadded(YesPart(n)) + [Ch(':')] + LexPadded(NoPart(n))) by { ReadShape(n); }
    NestedRegroup(LexPadded(n.check), [Ch('?')], Chars(n.lead), LexPadded(n.inner), LexPadded(n.yes), [Ch(':')], LexPadded(n.no), Chars(n.trail), LexPadded(n.outer));
  }

  lemma {:induction false} ReadShape(n: Nested)
    ensures LexType(ReadAs(n)) == LexPadded(n.check) + [Ch('?')] + (LexPadded(YesPart(n)) + [Ch(':')] + LexPadded(NoPart(n)))
  {
    hide LexPadded, YesPart, NoPart;
  }

  /** The text is read as something else than what it means. */
  lemma {:induction false} NestedReads(n: Nested)
    requires NestedOk(n)
    ensures Ok(ReadAs(n)) && Print(ReadAs(n)) == Print(Meant(n))
    ensures Clean(n.check.body) && Clean(n.yes.body) && Clean(n.no.body) && Clean(n.outer.body) ==> Clean(ReadAs(n))
  {
    hide LexPadded, PaddedOk, NoTop, Unparted, Glues, AllSpace, LexType, ShowAll, YesPart, NoPart, Meant;
    YesReads(n);
    NoReads(n);
    ReadTokens(n);
    ReadShape(n);
    YesIsFree(n);
    FreeOf(LexPadded(n.check), [LIST, QUESTION], LIST);
    FreeOf(LexPadded(n.check), [LIST, QUESTION], QUESTION);
    ConditionalUnparted(LexPadded(n.check), LexPadded(YesPart(n)), LexPadded(NoPart(n)));
  }

  lemma {:induction false} YesIsFree(n: Nested)
    requires NestedOk(n)
    ensures NoTop(LexPadded(YesPart(n)), LIST) && NoTop(LexPadded(YesPart(n)), COLON)
  {
    hide LexPadded, NoTop, PaddedOk, Glues, Clean, Unparted, YesPart, AllSpace, Free, Hits;
    YesReads(n);
    YesFreeOf(n, LIST);
    YesFreeOf(n, COLON);
  }

  lemma {:induction false} YesFreeOf(n: Nested, needle: Needle)
    requires NestedOk(n) && needle in [LIST, COLON] && LexPadded(YesPart(n)) == Chars(n.lead) + (LexPadded(n.inner) + [Ch('?')] + LexPadded(n.yes))
    ensures NoTop(LexPadded(YesPart(n)), needle)
  {
    hide LexPadded, NoTop, PaddedOk, Glues, Clean, Unparted, YesPart, AllSpace, Hits;
    FreeOf(LexPadded(n.inner), LOOSE, needle);
    FreeOf(LexPadded(n.yes), [LIST, COLON], needle);
    SpaceIsFree(n.lead, needle);
    QuestionFree(needle);
    NoTopAround(LexPadded(n.inner), Ch('?'), LexPadded(n.yes), needle);
    NoTopAppend(Chars(n.lead), LexPadded(n.inner) + [Ch('?')] + LexPadded(n.yes), needle);
  }

  // ---------- The false branch of the inner type ----------

  lemma {:induction false} SameLabels(p: Padded, q: Padded)
    requires p.body.Labelled? && q.body.Labelled? && p.body.value == q.body.value && p.trail == q.trail
    ensures SamePadded(p, q) <==> p.lead == q.lead && SameItems(p.body.name, q.body.name)
  {
    hide SameItems;
    SamePaddedItself(p.body.value);
    assert Same(p.body, q.body) <==> SameItems(p.body.name, q.body.name) && SamePadded(p.body.value, q.body.value);
  }

  lemma {:induction false} SameWhole(t: Type, u: Type)
    requires t.Conditional? && u.Conditional? && t.check == u.check && t.yes == u.yes
    ensures Same(t, u) <==> SamePadded(t.no, u.no)
  {
    hide SamePadded;
    SamePaddedItself(t.check);
    SamePaddedItself(t.yes);
  }

  lemma {:induction false} SamePaddedItself(p: Padded)
    ensures SamePadded(p, p)
  {
    hide Same;
    SameItself(p.body);
  }

  /** In every place of a larger type: of a conditional type in a true branch, two printings of the false branch
      agree exactly when they are written alike outside brackets, and agree inside them. */
  lemma {:induction false} FalseBranchAsWritten(c: Context, n: Nested, no: Padded)
    requires NestedOk(n) && NestedOk(n.(no := no)) && Fits(c, ReadAs(n)) && Fits(c, ReadAs(n.(no := no)))
    ensures Print(ReadAs(n)) == Print(Meant(n)) && Print(ReadAs(n.(no := no))) == Print(Meant(n.(no := no)))
    ensures NormaliseTypeText(Print(Plug(c, ReadAs(n)))) == NormaliseTypeText(Print(Plug(c, ReadAs(n.(no := no)))))
       <==> n.no.lead == no.lead && SameItems(NoItemsOf(n), NoItemsOf(n.(no := no)))
  {
    hide NestedOk, Ok, Clean, Same, NormaliseTypeText, Print, Plug, SameItems, NoItemsOf, ItemsOf, Expect, Meant, Glued, SamePadded;
    var m := n.(no := no);
    NestedReads(n);
    NestedReads(m);
    ExpectEverywhere(c, ReadAs(n), ReadAs(m));
    Complete(ReadAs(n), ReadAs(m));
    Everywhere(c, ReadAs(n), ReadAs(m));
    SameWhole(ReadAs(n), ReadAs(m));
    SameLabels(NoPart(n), NoPart(m));
  }

  // ---------- The true branch of the inner type ----------

  /** The place of the inner true branch. */
  function YesContext(n: Nested): Context { InYes(n.check, Slot(n.lead + n.inner.lead, Here, n.yes.trail), NoPart(n)) }

  /** Two printings of the inner true branch agree exactly when the members of its union written first do. */
  lemma {:induction false} TrueBranchDecides(c: Context, n: Nested, body: Type)
    requires var m := n.(yes := n.yes.(body := body));
      NestedOk(n) && NestedOk(m) && Fits(c, ReadAs(n)) && Fits(c, ReadAs(m)) && HeadPair(YesHead(n), n.yes.body, body) && LeftEnd(n.yes.body).Union?
    ensures var m := n.(yes := n.yes.(body := body));
      && LeftEnd(body).Union? && LeftEnd(n.yes.body).members != [] && LeftEnd(body).members != []
      && Print(ReadAs(n)) == Print(Meant(n)) && Print(ReadAs(m)) == Print(Meant(m))
      && (NormaliseTypeText(Print(Plug(c, ReadAs(n)))) == NormaliseTypeText(Print(Plug(c, ReadAs(m))))
          <==> NormaliseTypeText(Print(FirstMember(n.yes.body).body)) == NormaliseTypeText(Print(FirstMember(body).body)))
  {
    hide NestedOk, Ok, Clean, Same, NormaliseTypeText, Print, Plug, NoPart, YesHead, Expect, Meant, Glued, HeadPair, LeftEnd, IsHead;
    var m := n.(yes := n.yes.(body := body));
    NestedReads(n);
    NestedReads(m);
    YesIsHead(n);
    SamePlace(n, m);
    YesPlugged(n);
    YesPlugged(m);
    ExpectEverywhere(c, ReadAs(n), ReadAs(m));
    Everywhere(c, ReadAs(n), ReadAs(m));
    FirstMemberDecides(YesContext(n), YesHead(n), n.yes.body, body);
  }

  lemma {:induction false} SamePlace(n: Nested, m: Nested)
    requires m.check == n.check && m.lead == n.lead && m.inner == n.inner && m.no == n.no && m.trail == n.trail && m.outer == n.outer
    requires m.yes.lead == n.yes.lead && m.yes.trail == n.yes.trail
    ensures YesHead(n) == YesHead(m) && NoPart(n) == NoPart(m) && YesContext(n) == YesContext(m)
  {
  }

  lemma {:induction false} YesPlugged(n: Nested)
    ensures Plug(YesContext(n), Glued(YesHead(n), n.yes.body)) == ReadAs(n)
  {
    hide Glued, YesHead, NoPart;
    var x, slot := Glued(YesHead(n), n.yes.body), Slot(n.lead + n.inner.lead, Here, n.yes.trail);
    assert Plug(Here, x) == x;
    assert PlugSlot(slot, x) == Padded(slot.lead, x, slot.trail);
  }
}
