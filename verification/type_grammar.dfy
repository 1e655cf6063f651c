/** A grammar of printed TypeScript types, independent of the code that reads them.

    Each constructor stands for one precedence level of the source's list, loosest last, and keeps
    the white space it is printed with. `Ok` says which trees print a text that has this reading. */
module TypeGrammar {
  import opened Strings
  import opened TypeText
  import opened TypeLexis

  datatype Type =
    /** Names, keywords, literals and bracketed regions side by side: `Map<string, "b" | "a">`. */
    | Flat(items: seq<Item>)
    | Intersection(members: seq<Padded>)
    /** `bar` is the white space before a leading `|`, when there is one. */
    | Union(bar: Option<string>, members: seq<Padded>)
    /** `(x: number) => R`; everything right of the arrow is the result. */
    | Function(params: seq<Item>, result: Padded)
    /** `name: T`, `name?: T`, `f(x: A): T`; the colon follows `name`. */
    | Labelled(name: seq<Item>, value: Padded)
    | Conditional(check: Padded, yes: Padded, no: Padded)
    /** Members or parameters; `separators[k]` is `;` or `,` with the white space after it. A separator
        after the last one belongs to that one's last text. */
    | List(parts: seq<Padded>, separators: seq<string>)

  datatype Padded = Padded(lead: string, body: Type, trail: string)

  datatype Item =
    | Plain(c: char)
    | FatArrow
    | Literal(s: string)
    | Bracket(open: char, inner: Padded)
    /** A bracketed region holding nothing but white space. */
    | Hollow(open: char, space: string)

  // ---------- Printing ----------

  function LexType(t: Type): seq<Lex>
    decreases t, 0
  {
    match t
    case Flat(items) => LexItems(items)
    case Intersection(members) => JoinLex(LexAll(members), '&')
    case Union(bar, members) =>
      JoinLex((if bar.Some? then [Chars(bar.value)] else []) + LexAll(members), '|')
    case Function(params, result) => LexItems(params) + [Fat] + LexPadded(result)
    case Labelled(name, value) => LexItems(name) + [Ch(':')] + LexPadded(value)
    case Conditional(check, yes, no) =>
      LexPadded(check) + [Ch('?')] + (LexPadded(yes) + [Ch(':')] + LexPadded(no))
    case List(parts, separators) => JoinList(LexAll(parts), separators)
  }

  function LexPadded(p: Padded): seq<Lex>
    decreases p, 1
  {
    Chars(p.lead) + LexType(p.body) + Chars(p.trail)
  }

  function LexAll(ps: seq<Padded>): (r: seq<seq<Lex>>)
    ensures |r| == |ps|
    decreases ps, 0
  {
    if ps == [] then [] else [LexPadded(ps[0])] + LexAll(ps[1..])
  }

  function LexItem(it: Item): Lex
    decreases it, 1
  {
    match it
    case Plain(c) => Ch(c)
    case FatArrow => Fat
    case Literal(s) => Str(s)
    case Bracket(open, inner) => Group(open, LexPadded(inner))
    case Hollow(open, space) => Group(open, Chars(space))
  }

  function LexItems(items: seq<Item>): (r: seq<Lex>)
    ensures |r| == |items|
    decreases items, 0
  {
    if items == [] then [] else [LexItem(items[0])] + LexItems(items[1..])
  }

  function JoinLex(parts: seq<seq<Lex>>, c: char): seq<Lex> {
    if parts == [] then []
    else if |parts| == 1 then parts[0]
    else parts[0] + [Ch(c)] + JoinLex(parts[1..], c)
  }

  function JoinList(parts: seq<seq<Lex>>, separators: seq<string>): seq<Lex> {
    if parts == [] then []
    else if |parts| == 1 || separators == [] then parts[0]
    else parts[0] + Chars(separators[0]) + JoinList(parts[1..], separators[1..])
  }

  function Print(t: Type): string { ShowAll(LexType(t)) }

  // ---------- Which trees are read back as they are ----------

  /** No needle of the list stands at the top level: these bind looser than the level above. */
  predicate Free(xs: seq<Lex>, needles: seq<Needle>) {
    forall n :: n in needles ==> NoTop(xs, n)
  }

  predicate AllFree(ps: seq<Padded>, needles: seq<Needle>) {
    forall k :: 0 <= k < |ps| ==> Free(LexPadded(ps[k]), needles)
  }

  predicate IsMark(c: char) { c == ';' || c == ',' }

  predicate IsSeparator(s: string) {
    s != "" && IsMark(s[0]) && AllSpace(s[1..])
  }

  predicate SolidLex(x: Lex) { x.Ch? ==> !IsSpace(x.c) }

  predicate SolidEnd(xs: seq<Lex>) { xs != [] && SolidLex(xs[|xs| - 1]) }

  /** A label: `?` occurs in it only as its last character, and then marks an optional member. */
  predicate IsLabel(name: seq<Lex>, value: seq<Lex>) {
    || (NoTop(name, QUESTION) && NoTop(value, QUESTION))
    || (name != [] && name[|name| - 1] == Ch('?') && NoTop(name[..|name| - 1], QUESTION))
  }

  /** After a separator comes only white space: the separator is glued to what stands before it. */
  predicate Unparted(xs: seq<Lex>) {
    forall i, j :: 0 <= i < j < |xs| && Hits(xs[i], LIST) ==> !SolidLex(xs[j])
  }

  predicate Ok(t: Type)
    decreases t, 0
  {
    && (t.List? || Unparted(LexType(t)))
    && match t
       case Flat(items) => ItemsOk(items) && Free(LexItems(items), [COLON, Arrow, BAR, AMPERSAND])
       case Intersection(members) =>
         |members| >= 2 && AllOk(members) && AllFree(members, [COLON, Arrow, BAR, AMPERSAND])
       case Union(bar, members) =>
         && |members| >= 2 && AllOk(members) && AllFree(members, [COLON, Arrow, BAR])
         && (bar.Some? ==> AllSpace(bar.value))
       case Function(params, result) =>
         && ItemsOk(params) && Free(LexItems(params), [COLON, Arrow])
         && PaddedOk(result) && Free(LexPadded(result), [COLON])
       case Labelled(name, value) =>
         && ItemsOk(name) && Free(LexItems(name), [COLON])
         && PaddedOk(value) && IsLabel(LexItems(name), LexPadded(value))
       case Conditional(check, yes, no) =>
         && PaddedOk(check) && Free(LexPadded(check), [QUESTION])
         && PaddedOk(yes) && Free(LexPadded(yes), [COLON]) && PaddedOk(no)
       case List(parts, separators) =>
         && |parts| >= 2 && |parts| == |separators| + 1
         && PartsOk(parts) && AllFree(parts[..|parts| - 1], [LIST]) && Unparted(LexPadded(parts[|parts| - 1]))
         && SeparatorsOk(separators) && SolidParts(LexAll(parts[1..]))
         && Trim(Print(parts[|parts| - 1].body)) != ""
  }

  predicate SeparatorsOk(separators: seq<string>) {
    separators == [] || (IsSeparator(separators[0]) && SeparatorsOk(separators[1..]))
  }

  predicate StartsSolid(s: string) { s != "" ==> !IsSpace(s[0]) }

  /** White space before a part would belong to the separator. */
  predicate SolidParts(parts: seq<seq<Lex>>) {
    parts == [] || (StartsSolid(ShowAll(parts[0])) && SolidParts(parts[1..]))
  }

  predicate PaddedOk(p: Padded)
    decreases p, 1
  {
    AllSpace(p.lead) && AllSpace(p.trail) && Ok(p.body) && Trimmed(Print(p.body))
  }

  predicate AllOk(ps: seq<Padded>)
    decreases ps, 0
  {
    ps == [] || (PaddedOk(ps[0]) && AllOk(ps[1..]))
  }

  /** Parts of a list carry no padding of their own: it belongs to the separator or the body. */
  predicate PartsOk(ps: seq<Padded>)
    decreases ps, 0
  {
    ps == [] || (ps[0].lead == "" && ps[0].trail == "" && Ok(ps[0].body) && PartsOk(ps[1..]))
  }

  predicate ItemOk(it: Item)
    decreases it, 1
  {
    match it
    case Plain(c) => Lexed(Ch(c))
    case FatArrow => true
    case Literal(s) => IsLiteral(s)
    case Bracket(open, inner) =>
      IsOpener(open) && PaddedOk(inner) && (open == '<' ==> !EndsInEquals(LexPadded(inner)))
    case Hollow(open, space) => IsOpener(open) && AllSpace(space)
  }

  predicate ItemsOk(items: seq<Item>)
    decreases items, 0
  {
    items == [] || (ItemOk(items[0]) && ItemsOk(items[1..]))
  }

  // ---------- Trees that differ only in the order of union members ----------

  /** Members of a union or an intersection may be spaced differently; nothing else may be. */
  ghost predicate Same(t: Type, u: Type)
    decreases t, 0
  {
    match t
    case Flat(items) => u.Flat? && SameItems(items, u.items)
    case Intersection(members) => u.Intersection? && SameBodies(members, u.members)
    case Union(_, members) => u.Union? && SameBag(members, u.members)
    case Function(params, result) =>
      u.Function? && SameItems(params, u.params) && SamePadded(result, u.result)
    case Labelled(name, value) =>
      u.Labelled? && SameItems(name, u.name) && SamePadded(value, u.value)
    case Conditional(check, yes, no) =>
      u.Conditional? && SamePadded(check, u.check) && SamePadded(yes, u.yes) && SamePadded(no, u.no)
    case List(parts, separators) =>
      u.List? && SameBodies(parts, u.parts) && separators == u.separators
  }

  ghost predicate SamePadded(p: Padded, q: Padded)
    decreases p, 1
  {
    p.lead == q.lead && Same(p.body, q.body) && p.trail == q.trail
  }

  ghost predicate SameBodies(ps: seq<Padded>, qs: seq<Padded>)
    decreases ps, 0
  {
    && |ps| == |qs|
    && (ps == [] || (Same(ps[0].body, qs[0].body) && SameBodies(ps[1..], qs[1..])))
  }

  /** `qs` is a permutation of `ps`, each member itself permuted inside. */
  ghost predicate SameBag(ps: seq<Padded>, qs: seq<Padded>)
    decreases ps, 0
  {
    if ps == [] then qs == []
    else
      exists j :: 0 <= j < |qs| && Same(ps[0].body, qs[j].body) && SameBag(ps[1..], qs[..j] + qs[j + 1..])
  }

  ghost predicate SameItems(xs: seq<Item>, ys: seq<Item>)
    decreases xs, 0
  {
    && |xs| == |ys|
    && (xs == [] || (SameItem(xs[0], ys[0]) && SameItems(xs[1..], ys[1..])))
  }

  ghost predicate SameItem(x: Item, y: Item)
    decreases x, 1
  {
    match x
    case Bracket(open, inner) => y.Bracket? && open == y.open && SamePadded(inner, y.inner)
    case _ => x == y
  }

  // ---------- The text normalisation is expected to give ----------

  function Expect(t: Type): string
    decreases t, 0
  {
    match t
    case Flat(items) => ExpectItems(items)
    case Intersection(members) => Join(ExpectBodies(members), " & ")
    case Union(_, members) => Join(Sort(ExpectBodies(members)), " | ")
    case Function(params, result) => ExpectItems(params) + "=>" + ExpectPadded(result)
    case Labelled(name, value) => ExpectItems(name) + ":" + ExpectPadded(value)
    case Conditional(check, yes, no) =>
      ExpectPadded(check) + "?" + ExpectPadded(yes) + ":" + ExpectPadded(no)
    case List(parts, separators) =>
      if |parts| == |separators| + 1 then Rejoin(ExpectBodies(parts), separators) else ""
  }

  function ExpectPadded(p: Padded): string
    decreases p, 1
  {
    p.lead + Expect(p.body) + p.trail
  }

  function ExpectBodies(ps: seq<Padded>): (r: seq<string>)
    ensures |r| == |ps|
    decreases ps, 0
  {
    if ps == [] then [] else [Expect(ps[0].body)] + ExpectBodies(ps[1..])
  }

  /** White space between brackets that hold nothing else is written twice. */
  function ExpectItem(it: Item): string
    decreases it, 1
  {
    match it
    case Plain(c) => [c]
    case FatArrow => "=>"
    case Literal(s) => s
    case Bracket(open, inner) => [open] + ExpectPadded(inner) + [CloserOf(open)]
    case Hollow(open, space) => [open] + (space + space) + [CloserOf(open)]
  }

  function ExpectItems(items: seq<Item>): string
    decreases items, 0
  {
    if items == [] then "" else ExpectItem(items[0]) + ExpectItems(items[1..])
  }

  // ---------- Order of members does not reach the expected text ----------

  lemma {:induction false} FirstExpected(ps: seq<Padded>)
    requires ps != []
    ensures ExpectBodies(ps) == [Expect(ps[0].body)] + ExpectBodies(ps[1..])
    ensures multiset(ExpectBodies(ps)) == multiset{Expect(ps[0].body)} + multiset(ExpectBodies(ps[1..]))
  {
    hide Expect;
  }

  lemma {:induction false} ExpectBagRemove(qs: seq<Padded>, j: nat)
    requires j < |qs|
    ensures multiset(ExpectBodies(qs))
         == multiset(ExpectBodies(qs[..j] + qs[j + 1..])) + multiset{Expect(qs[j].body)}
  {
    hide Expect, ExpectBodies;
    var rest := qs[..j] + qs[j + 1..];
    FirstExpected(qs);
    if j == 0 {
      assert rest == qs[1..];
    } else {
      ExpectBagRemove(qs[1..], j - 1);
      FirstExpected(rest);
      assert rest[0] == qs[0] && rest[1..] == qs[1..][..j - 1] + qs[1..][j..];
    }
  }

  lemma {:induction false} SameExpect(t: Type, u: Type)
    requires Same(t, u)
    ensures Expect(t) == Expect(u)
    decreases t, 0
  {
    match t
    case Flat(items) => SameItemsExpect(items, u.items);
    case Intersection(members) => SameBodiesExpect(members, u.members);
    case Union(_, members) =>
      SameBagExpect(members, u.members);
      SortOfSameBag(ExpectBodies(members), ExpectBodies(u.members));
    case Function(params, result) =>
      SameItemsExpect(params, u.params);
      SameExpect(result.body, u.result.body);
    case Labelled(name, value) =>
      SameItemsExpect(name, u.name);
      SameExpect(value.body, u.value.body);
    case Conditional(check, yes, no) =>
      SameExpect(check.body, u.check.body);
      SameExpect(yes.body, u.yes.body);
      SameExpect(no.body, u.no.body);
    case List(parts, separators) => SameBodiesExpect(parts, u.parts);
  }

  lemma {:induction false} SameBodiesExpect(ps: seq<Padded>, qs: seq<Padded>)
    requires SameBodies(ps, qs)
    ensures ExpectBodies(ps) == ExpectBodies(qs)
    decreases ps, 0
  {
    if ps == [] {
    } else {
      SameExpect(ps[0].body, qs[0].body);
      SameBodiesExpect(ps[1..], qs[1..]);
    }
  }

  lemma {:induction false} SameBagExpect(ps: seq<Padded>, qs: seq<Padded>)
    requires SameBag(ps, qs)
    ensures multiset(ExpectBodies(ps)) == multiset(ExpectBodies(qs))
    decreases ps, 0
  {
    hide Expect, ExpectBodies, Same;
    if ps == [] {
    } else {
      var j :| 0 <= j < |qs| && Same(ps[0].body, qs[j].body) && SameBag(ps[1..], qs[..j] + qs[j + 1..]);
      SameExpect(ps[0].body, qs[j].body);
      SameBagExpect(ps[1..], qs[..j] + qs[j + 1..]);
      FirstExpected(ps);
      ExpectBagRemove(qs, j);
    }
  }

  lemma {:induction false} SameItemsExpect(xs: seq<Item>, ys: seq<Item>)
    requires SameItems(xs, ys)
    ensures ExpectItems(xs) == ExpectItems(ys)
    decreases xs, 0
  {
    if xs == [] {
    } else {
      SameItemExpect(xs[0], ys[0]);
      SameItemsExpect(xs[1..], ys[1..]);
    }
  }

  lemma {:induction false} SameItemExpect(x: Item, y: Item)
    requires SameItem(x, y)
    ensures ExpectItem(x) == ExpectItem(y)
    decreases x, 1
  {
    if x.Bracket? { SameExpect(x.inner.body, y.inner.body); }
  }
}
