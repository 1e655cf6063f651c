/** The canonicaliser reads every text of the grammar as the tree that printed it. */
module TypeCanonicity {
  import opened Strings
  import opened TypeText
  import opened TypeLexis
  import opened TypeGrammar

  // ---------- Printed trees are token sequences ----------

  lemma {:induction false} SpaceLexed(s: string)
    requires AllSpace(s)
    ensures LexedAll(Chars(s))
  {
    forall k | 0 <= k < |s| ensures Lexed(Ch(s[k])) {
      assert IsSpace(s[k]);
    }
    CharsLexed(s);
  }

  predicate LexedParts(parts: seq<seq<Lex>>) {
    parts == [] || (LexedAll(parts[0]) && LexedParts(parts[1..]))
  }

  lemma {:induction false} JoinLexed(parts: seq<seq<Lex>>, c: char)
    requires LexedParts(parts) && Lexed(Ch(c))
    ensures LexedAll(JoinLex(parts, c))
  {
    if |parts| <= 1 {
    } else {
      JoinLexed(parts[1..], c);
      LexedThree(parts[0], [Ch(c)], JoinLex(parts[1..], c));
    }
  }

  lemma {:induction false} SeparatorLexed(s: string)
    requires IsSeparator(s)
    ensures LexedAll(Chars(s))
  {
    SpaceLexed(s[1..]);
  }

  lemma {:induction false} JoinListLexed(parts: seq<seq<Lex>>, separators: seq<string>)
    requires LexedParts(parts) && |parts| == |separators| + 1
    requires SeparatorsOk(separators)
    ensures LexedAll(JoinList(parts, separators))
  {
    if |parts| <= 1 {
    } else {
      SeparatorLexed(separators[0]);
      JoinListLexed(parts[1..], separators[1..]);
      LexedThree(parts[0], Chars(separators[0]), JoinList(parts[1..], separators[1..]));
    }
  }

  lemma {:induction false} LexedThree(xs: seq<Lex>, ys: seq<Lex>, zs: seq<Lex>)
    requires LexedAll(xs) && LexedAll(ys) && LexedAll(zs)
    ensures LexedAll(xs + ys + zs) && LexedAll(xs + (ys + zs))
  {
    LexedAppend(xs, ys);
    LexedAppend(xs + ys, zs);
    LexedAppend(ys, zs);
    LexedAppend(xs, ys + zs);
  }

  lemma {:induction false} MarksLexed()
    ensures LexedAll([Fat]) && LexedAll([Ch('?')]) && LexedAll([Ch(':')])
  {
    assert [Fat][1..] == [] && [Ch('?')][1..] == [] && [Ch(':')][1..] == [];
  }

  lemma {:induction false} OkLexed(t: Type)
    requires Ok(t)
    ensures LexedAll(LexType(t))
    decreases t, 1
  {
    hide LexedAll, LexPadded, LexItems, LexAll, JoinLex, JoinList, AllSpace, Free, AllFree, NoTop, SolidParts, Trim,
      ShowAll, IsLabel, PaddedOk, ItemsOk, AllOk, PartsOk, SeparatorsOk, Unparted;
    MarksLexed();
    match t
    case Flat(items) => ItemsLexed(items);
    case Intersection(members) =>
      AllLexed(members);
      JoinLexed(LexAll(members), '&');
    case Union(bar, members) =>
      UnionLexed(t);
      JoinLexed(UnionParts(t), '|');
    case Function(params, result) =>
      ItemsLexed(params);
      PaddedLexed(result);
      LexedThree(LexItems(params), [Fat], LexPadded(result));
    case Labelled(name, value) =>
      ItemsLexed(name);
      PaddedLexed(value);
      LexedThree(LexItems(name), [Ch(':')], LexPadded(value));
    case Conditional(_, _, _) => ConditionalLexed(t);
    case List(parts, separators) =>
      PartsLexed(parts);
      JoinListLexed(LexAll(parts), separators);
  }

  lemma {:induction false} ConditionalLexed(t: Type)
    requires t.Conditional? && Ok(t)
    ensures LexedAll(LexType(t))
    decreases t, 0
  {
    PaddedLexed(t.check);
    PaddedLexed(t.yes);
    PaddedLexed(t.no);
    var check, yes, no := LexPadded(t.check), LexPadded(t.yes), LexPadded(t.no);
    LexedThree(yes, [Ch(':')], no);
    LexedThree(check, [Ch('?')], yes + [Ch(':')] + no);
  }

  lemma {:induction false} UnionLexed(t: Type)
    requires t.Union? && Ok(t)
    ensures LexedParts(UnionParts(t))
    decreases t, 0
  {
    AllLexed(t.members);
    if t.bar.Some? {
      SpaceLexed(t.bar.value);
      assert UnionParts(t)[1..] == LexAll(t.members);
    } else {
      assert UnionParts(t) == LexAll(t.members);
    }
  }

  lemma {:induction false} PaddedLexed(p: Padded)
    requires PaddedOk(p)
    ensures LexedAll(LexPadded(p))
    decreases p, 2
  {
    SpaceLexed(p.lead);
    SpaceLexed(p.trail);
    OkLexed(p.body);
    LexedThree(Chars(p.lead), LexType(p.body), Chars(p.trail));
  }

  lemma {:induction false} AllLexed(ps: seq<Padded>)
    requires AllOk(ps)
    ensures LexedParts(LexAll(ps))
    decreases ps, 0
  {
    if ps == [] {
    } else {
      PaddedLexed(ps[0]);
      AllLexed(ps[1..]);
    }
  }

  lemma {:induction false} PartsLexed(ps: seq<Padded>)
    requires PartsOk(ps)
    ensures LexedParts(LexAll(ps))
    decreases ps, 0
  {
    if ps == [] {
    } else {
      OkLexed(ps[0].body);
      assert LexPadded(ps[0]) == LexType(ps[0].body);
      PartsLexed(ps[1..]);
    }
  }

  lemma {:induction false} ItemsLexed(items: seq<Item>)
    requires ItemsOk(items)
    ensures LexedAll(LexItems(items))
    decreases items, 0
  {
    if items == [] {
    } else {
      ItemLexed(items[0]);
      ItemsLexed(items[1..]);
    }
  }

  lemma {:induction false} ItemLexed(it: Item)
    requires ItemOk(it)
    ensures Lexed(LexItem(it))
    decreases it, 2
  {
    match it
    case Plain(c) =>
    case FatArrow =>
    case Literal(s) =>
    case Bracket(open, inner) => PaddedLexed(inner);
    case Hollow(open, space) =>
      SpaceLexed(space);
      CharsShown(space);
  }

  function UnionParts(t: Type): seq<seq<Lex>>
    requires t.Union?
  {
    (if t.bar.Some? then [Chars(t.bar.value)] else []) + LexAll(t.members)
  }

  // ---------- What is not there is not found ----------

  lemma {:induction false} NotConditional(xs: seq<Lex>)
    requires LexedAll(xs) && NoTop(xs, COLON)
    ensures ConditionalParts(ShowAll(xs)) == None
  {
    if NoTop(xs, QUESTION) {
      FindNone(xs, QUESTION);
    } else {
      var k := FirstHit(xs, QUESTION);
      var after := xs[k + 1..];
      SplitHere(xs, k);
      FindFirst(ShowAll(xs), xs[..k], xs[k], after, QUESTION);
      FindNone(after, COLON);
      assert ShowAll(xs)[|ShowAll(xs[..k])| + 1..] == ShowAll(after);
    }
  }

  lemma {:induction false} FirstHit(xs: seq<Lex>, needle: Needle) returns (k: nat)
    requires !NoTop(xs, needle)
    ensures k < |xs| && Hits(xs[k], needle) && NoTop(xs[..k], needle)
  {
    k := 0;
    while !Hits(xs[k], needle)
      invariant k < |xs| && NoTop(xs[..k], needle)
      invariant exists j :: k <= j < |xs| && Hits(xs[j], needle)
      decreases |xs| - k
    {
      k := k + 1;
    }
  }

  lemma {:induction false} SplitHere(xs: seq<Lex>, k: nat)
    requires k < |xs| && LexedAll(xs)
    ensures LexedAll(xs[..k]) && Lexed(xs[k]) && LexedAll(xs[k + 1..])
    ensures ShowAll(xs) == ShowAll(xs[..k]) + (Show(xs[k]) + ShowAll(xs[k + 1..]))
  {
    assert xs == xs[..k] + ([xs[k]] + xs[k + 1..]);
    assert xs[..k] + [xs[k]] + xs[k + 1..] == xs[..k] + ([xs[k]] + xs[k + 1..]);
    ShowSplit(xs[..k], xs[k], xs[k + 1..]);
    LexedAppend(xs[..k], [xs[k]] + xs[k + 1..]);
    LexedAppend([xs[k]], xs[k + 1..]);
    assert ([xs[k]] + xs[k + 1..])[1..] == xs[k + 1..];
  }

  // ---------- Padding ----------

  lemma {:induction false} PaddedShown(p: Padded)
    ensures ShowAll(LexPadded(p)) == p.lead + Print(p.body) + p.trail
  {
    ShowAppend(Chars(p.lead), LexType(p.body));
    ShowAppend(Chars(p.lead) + LexType(p.body), Chars(p.trail));
    CharsShown(p.lead);
    CharsShown(p.trail);
  }

  // ---------- Splitting into members ----------

  function ShowEach(parts: seq<seq<Lex>>): (r: seq<string>)
    ensures |r| == |parts|
  {
    if parts == [] then [] else [ShowAll(parts[0])] + ShowEach(parts[1..])
  }

  predicate NoTopEach(parts: seq<seq<Lex>>, needle: Needle) {
    parts == [] || (NoTop(parts[0], needle) && NoTopEach(parts[1..], needle))
  }

  lemma {:induction false} RawStep(text: string, needle: Needle, start: nat, at: nat, piece: string)
    requires needle.Symbol? && start <= at < |text| && Find(text, needle, start, 0) == at && At(text, start, piece)
    requires start + |piece| == at
    ensures RawPieces(text, needle, start) == [piece] + RawPieces(text, needle, at + 1)
  {
    hide Find;
  }

  lemma {:induction false} RawLast(text: string, needle: Needle, start: nat, piece: string)
    requires needle.Symbol? && start <= |text| && Find(text, needle, start, 0) == -1 && At(text, start, piece)
    requires start + |piece| == |text|
    ensures RawPieces(text, needle, start) == [piece]
  {
    hide Find;
    assert text[start..] == text[start..start + |piece|];
  }

  lemma {:induction false} PiecesFound(text: string, i: nat, parts: seq<seq<Lex>>, c: char)
    requires parts != [] && LexedParts(parts) && Lexed(Ch(c)) && c != '='
    requires NoTopEach(parts, Symbol({c}))
    requires At(text, i, ShowAll(JoinLex(parts, c))) && i + |ShowAll(JoinLex(parts, c))| == |text|
    ensures RawPieces(text, Symbol({c}), i) == ShowEach(parts)
    decreases |parts|
  {
    hide LexedAll, NoTop, ShowAll, RawPieces, At;
    var xs := parts[0];
    if |parts| == 1 {
      NoneAtEnd(text, i, xs, Symbol({c}));
      RawLast(text, Symbol({c}), i, ShowAll(xs));
      assert ShowEach(parts) == [ShowAll(xs)];
    } else {
      var rest, at := JoinLex(parts[1..], c), i + |ShowAll(xs)|;
      ShowSplit(xs, Ch(c), rest);
      AtSplit(text, i, ShowAll(xs), [c] + ShowAll(rest));
      AtSplit(text, at, [c], ShowAll(rest));
      SafeMark(c, text, at + 1);
      FindHit(text, i, xs, Ch(c), Symbol({c}));
      RawStep(text, Symbol({c}), i, at, ShowAll(xs));
      PiecesFound(text, at + 1, parts[1..], c);
    }
  }

  lemma {:induction false} NoneAtEnd(text: string, i: nat, xs: seq<Lex>, needle: Needle)
    requires LexedAll(xs) && NoTop(xs, needle) && At(text, i, ShowAll(xs)) && i + |ShowAll(xs)| == |text|
    ensures Find(text, needle, i, 0) == -1
  {
    FindSkips(text, i, xs, needle, 0);
  }

  lemma {:induction false} SafeMark(c: char, text: string, end: nat)
    requires c != '='
    ensures SafeEnd([Ch(c)], text, end)
  {
  }

  lemma {:induction false} JoinNoTop(parts: seq<seq<Lex>>, c: char, needle: Needle)
    requires NoTopEach(parts, needle) && !Hits(Ch(c), needle)
    ensures NoTop(JoinLex(parts, c), needle)
  {
    if |parts| <= 1 {
    } else {
      JoinNoTop(parts[1..], c, needle);
    }
  }

  predicate AvoidsSpace(needle: Needle) {
    needle.Symbol? ==> forall c :: c in needle.chars ==> !IsSpace(c)
  }

  lemma {:induction false} SpaceNoTop(s: string, needle: Needle)
    requires AllSpace(s) && AvoidsSpace(needle)
    ensures NoTop(Chars(s), needle)
  {
    CharsShown(s);
    forall k | 0 <= k < |s| ensures !Hits(Chars(s)[k], needle) {
      assert IsSpace(s[k]);
    }
  }

  lemma {:induction false} FreeEach(ps: seq<Padded>, needles: seq<Needle>, needle: Needle)
    requires AllFree(ps, needles) && needle in needles
    ensures NoTopEach(LexAll(ps), needle)
  {
    if ps == [] {
    } else {
      assert Free(LexPadded(ps[0]), needles);
      assert AllFree(ps[1..], needles) by {
        forall k | 0 <= k < |ps[1..]| ensures Free(LexPadded(ps[1..][k]), needles) {
          assert ps[1..][k] == ps[k + 1];
        }
      }
      FreeEach(ps[1..], needles, needle);
    }
  }
}
