/** Plain words as types, for showing what the canonicaliser does with particular texts. */
module TypeWords {
  import opened Strings
  import opened TypeText
  import opened TypeLexis
  import opened TypeGrammar
  import opened TypeCanonicity
  import opened TypeTokens
  import opened TypeShapes
  import opened TypeTheorems
  import opened TypeReplace
  import opened TypeContexts
  import opened TypeIdempotence

  /** A character with no part in the grammar: no quote, no bracket, nothing that separates or joins types. */
  predicate IsOrdinary(c: char) {
    && c != '"' && c != '\'' && c != '`'
    && c != '{' && c != '}' && c != '(' && c != ')' && c != '[' && c != ']' && c != '<' && c != '>'
    && c != ';' && c != ',' && c != '?' && c != ':' && c != '|' && c != '&'
  }

  predicate IsWord(s: string) { Trimmed(s) && forall k :: 0 <= k < |s| ==> IsOrdinary(s[k]) }

  function Word(s: string): Type { Flat(Plains(s)) }

  function Bare(t: Type): Padded { Padded("", t, "") }

  lemma {:induction false} OrdinaryFree(s: string)
    requires forall k :: 0 <= k < |s| ==> IsOrdinary(s[k])
    ensures PlainText(s) && Free(Chars(s), EVERYTHING)
  {
    CharsShown(s);
    forall k | 0 <= k < |s| ensures Lexed(Ch(s[k])) { assert IsOrdinary(s[k]); }
    forall n | n in EVERYTHING ensures NoTop(Chars(s), n) {
      forall k | 0 <= k < |Chars(s)| ensures !Hits(Chars(s)[k], n) { assert IsOrdinary(s[k]); }
    }
  }

  lemma {:induction false} WordShown(s: string)
    requires IsWord(s)
    ensures LexType(Word(s)) == Chars(s) && Print(Word(s)) == s && Expect(Word(s)) == s
    ensures Ok(Word(s)) && Trimmed(s) && Free(Chars(s), EVERYTHING)
  {
    hide NoTop, IsOrdinary, Trimmed, Unparted;
    OrdinaryFree(s);
    PlainsShown(s);
    CharsShown(s);
    assert LIST in EVERYTHING;
    FreeUnparted(Chars(s));
  }

  /** A body that may stand anywhere: it shows nothing at the top level. */
  ghost predicate IsAtom(t: Type) { Ok(t) && Trimmed(Print(t)) && Free(LexType(t), EVERYTHING) }

  lemma {:induction false} WordIsAtom(s: string)
    requires IsWord(s)
    ensures IsAtom(Word(s))
  {
    WordShown(s);
  }

  lemma {:induction false} AtomPadded(lead: string, t: Type, trail: string)
    requires IsAtom(t) && AllSpace(lead) && AllSpace(trail)
    ensures PaddedOk(Padded(lead, t, trail)) && Free(LexPadded(Padded(lead, t, trail)), EVERYTHING)
    ensures ShowAll(LexPadded(Padded(lead, t, trail))) == lead + Print(t) + trail
  {
    hide Ok, LexType, NoTop, AllSpace, LexPadded, ShowAll;
    var p := Padded(lead, t, trail);
    PaddedShown(p);
    forall n | n in EVERYTHING ensures NoTop(LexPadded(p), n) {
      assert NoTop(LexType(t), n);
      PaddedFree(p, n);
    }
  }

  /** `AllOk` and `AllFree` for a list built from the front. */
  lemma {:induction false} MoreMembers(p: Padded, ps: seq<Padded>, needles: seq<Needle>)
    requires PaddedOk(p) && Free(LexPadded(p), EVERYTHING) && AllOk(ps) && AllFree(ps, needles)
    requires forall n :: n in needles ==> n in EVERYTHING
    ensures AllOk([p] + ps) && AllFree([p] + ps, needles)
  {
    hide PaddedOk, LexPadded, NoTop;
    var all := [p] + ps;
    assert all[1..] == ps;
    forall k | 0 <= k < |all| ensures Free(LexPadded(all[k]), needles) {
      if k > 0 { assert all[k] == ps[k - 1]; }
    }
  }

  // ---------- Unions of words ----------

  function UnionOf(ts: seq<Type>): Type { Union(None, Bares(ts)) }

  function Bares(ts: seq<Type>): (r: seq<Padded>)
    ensures |r| == |ts|
  {
    if ts == [] then [] else [Bare(ts[0])] + Bares(ts[1..])
  }

  ghost predicate AreAtoms(ts: seq<Type>) {
    ts == [] || (IsAtom(ts[0]) && AreAtoms(ts[1..]))
  }

  lemma {:induction false} AtomsOk(ts: seq<Type>)
    requires AreAtoms(ts)
    ensures AllOk(Bares(ts)) && AllFree(Bares(ts), [COLON, Arrow, BAR])
  {
    hide IsAtom, PaddedOk, Free;
    if ts == [] {
    } else {
      AtomsOk(ts[1..]);
      AtomIsMember(ts[0]);
      MoreMembers(Bare(ts[0]), Bares(ts[1..]), [COLON, Arrow, BAR]);
    }
  }

  lemma {:induction false} AtomIsMember(t: Type)
    requires IsAtom(t)
    ensures PaddedOk(Bare(t)) && Free(LexPadded(Bare(t)), EVERYTHING)
  {
    hide Ok, LexPadded, NoTop;
    AtomPadded("", t, "");
  }

  lemma {:induction false} UnionOfOk(ts: seq<Type>)
    requires AreAtoms(ts) && |ts| >= 2
    ensures Ok(UnionOf(ts)) && NoTop(LexType(UnionOf(ts)), LIST) && NoTop(LexType(UnionOf(ts)), COLON)
  {
    hide AllOk, AllFree, AreAtoms, Bares, NoTop, LexAll, JoinLex, Unparted;
    AtomsOk(ts);
    AtomsUnmarked(ts);
    UnmarkedParts(Bares(ts));
    UnionUnparted(None, Bares(ts));
    FreeEach(Bares(ts), [LIST], LIST);
    JoinNoTop(LexAll(Bares(ts)), '|', LIST);
    assert [] + LexAll(Bares(ts)) == LexAll(Bares(ts));
    UnionPartsFree(UnionOf(ts), COLON);
  }

  lemma {:induction false} AtomsUnmarked(ts: seq<Type>)
    requires AreAtoms(ts)
    ensures Unmarked(Bares(ts))
  {
    hide IsAtom, LexPadded, NoTop;
    if ts == [] {
    } else {
      AtomsUnmarked(ts[1..]);
      AtomIsMember(ts[0]);
      var ps := Bares(ts);
      assert ps[1..] == Bares(ts[1..]) && LIST in EVERYTHING;
      forall k | 0 <= k < |ps| ensures Free(LexPadded(ps[k]), [LIST]) {
        if k > 0 { assert ps[k] == ps[1..][k - 1] && Free(LexPadded(ps[1..][k - 1]), [LIST]); }
      }
    }
  }

  function Listed(texts: seq<string>): string {
    if texts == [] then "" else if |texts| == 1 then texts[0] else texts[0] + "|" + Listed(texts[1..])
  }

  lemma {:induction false} BaresShown(ts: seq<Type>, texts: seq<string>)
    requires |ts| == |texts| && ts != [] && forall k :: 0 <= k < |ts| ==> Print(ts[k]) == texts[k]
    ensures ShowAll(JoinLex(LexAll(Bares(ts)), '|')) == Listed(texts)
    decreases |ts|
  {
    hide LexPadded, JoinLex, LexAll, Print;
    PaddedShown(Bare(ts[0]));
    assert "" + Print(ts[0]) + "" == Print(ts[0]);
    if |ts| == 1 {
      assert Bares(ts) == [Bare(ts[0])];
      JoinedOne(Bare(ts[0]), '|');
    } else {
      var rest := Bares(ts[1..]);
      forall k | 0 <= k < |ts[1..]| ensures Print(ts[1..][k]) == texts[1..][k] { assert ts[1..][k] == ts[k + 1]; }
      BaresShown(ts[1..], texts[1..]);
      JoinedCons(Bare(ts[0]), rest, '|');
      ShowSplit(LexPadded(Bare(ts[0])), Ch('|'), JoinLex(LexAll(rest), '|'));
      assert texts[0] + ("|" + Listed(texts[1..])) == Listed(texts);
    }
  }

  lemma {:induction false} UnionOfShown(ts: seq<Type>, texts: seq<string>)
    requires |ts| == |texts| && ts != [] && forall k :: 0 <= k < |ts| ==> Print(ts[k]) == texts[k]
    ensures Print(UnionOf(ts)) == Listed(texts)
  {
    hide JoinLex, LexAll, Print, Listed, Bares;
    BaresShown(ts, texts);
    UnionTokens(Bares(ts));
  }

  lemma {:induction false} UnionTokens(ps: seq<Padded>)
    ensures Print(Union(None, ps)) == ShowAll(JoinLex(LexAll(ps), '|'))
  {
    hide LexPadded;
    assert [] + LexAll(ps) == LexAll(ps);
  }

  lemma {:induction false} BaresExpected(ts: seq<Type>, texts: seq<string>)
    requires |ts| == |texts| && forall k :: 0 <= k < |ts| ==> Expect(ts[k]) == texts[k]
    ensures ExpectBodies(Bares(ts)) == texts
    decreases |ts|
  {
    hide Expect;
    if ts == [] {
    } else {
      forall k | 0 <= k < |ts[1..]| ensures Expect(ts[1..][k]) == texts[1..][k] { assert ts[1..][k] == ts[k + 1]; }
      BaresExpected(ts[1..], texts[1..]);
    }
  }

  lemma {:induction false} TwoAtoms(t: Type, u: Type)
    requires IsAtom(t) && IsAtom(u)
    ensures AreAtoms([t, u])
  {
    hide IsAtom;
    assert AreAtoms([]) && [u][1..] == [];
    assert AreAtoms([u]) && [t, u][1..] == [u];
  }

  lemma {:induction false} TwoWords(a: string, b: string)
    requires IsWord(a) && IsWord(b)
    ensures var t := UnionOf([Word(a), Word(b)]);
      && Ok(t) && NoTop(LexType(t), LIST) && NoTop(LexType(t), COLON)
      && Print(t) == a + "|" + b && ExpectBodies(t.members) == [a, b] && |t.members| == 2
      && Last(t.members).trail == "" && Expect(t.members[0].body) == a && Expect(Last(t.members).body) == b
  {
    hide IsAtom, IsWord, Print, Expect, AreAtoms, Ok, NoTop, LexType;
    var ts := [Word(a), Word(b)];
    WordShown(a);
    WordShown(b);
    WordIsAtom(a);
    WordIsAtom(b);
    TwoAtoms(Word(a), Word(b));
    UnionOfOk(ts);
    UnionOfShown(ts, [a, b]);
    BaresExpected(ts, [a, b]);
    assert [a, b][1..] == [b] && Listed([b]) == b;
    assert ts[1..] == [Word(b)] && Bares(ts) == [Bare(Word(a))] + Bares(ts[1..]) && Bares(ts[1..]) == [Bare(Word(b))];
    assert Bares(ts) == [Bare(Word(a)), Bare(Word(b))];
  }

  lemma {:induction false} PairNormalised(a: string, b: string)
    requires IsWord(a) && IsWord(b)
    ensures NormaliseTypeText(a + "|" + b) == Join(Sort([a, b]), " | ")
  {
    hide IsWord, Print, ExpectBodies, Ok, NormaliseTypeText, Word, Sort, Join;
    TwoWords(a, b);
    NormalisesText(UnionOf([Word(a), Word(b)]));
  }

  lemma {:induction false} SortedPair(a: string, b: string)
    requires a != "" && b != "" && a[0] < b[0]
    ensures Sort([a, b]) == [a, b] && Sort([b, a]) == [a, b] && Join([a, b], " | ") == a + " | " + b
  {
    hide Sort;
    assert [a, b][1..] == [b];
    assert multiset([b, a]) == multiset([a, b]);
    SortedUnique(Sort([a, b]), [a, b]);
    SortedUnique(Sort([b, a]), [a, b]);
  }

  lemma {:induction false} IsUnion(ts: seq<Type>)
    ensures UnionOf(ts).Union?
  {
  }

  lemma {:induction false} LetterIsWord(a: char)
    requires 'a' <= a <= 'z'
    ensures IsWord([a])
  {
  }

  lemma {:induction false} BracketTrimmed(open: char, inside: string, it: Item)
    requires ItemOk(it) && it.Bracket? && it.open == open
    ensures Trimmed([open] + inside + [CloserOf(open)])
  {
    hide PaddedOk, LexPadded;
  }

  lemma {:induction false} PairTokens(a: string, b: string)
    requires IsWord(a) && IsWord(b)
    ensures LexPadded(Bare(UnionOf([Word(a), Word(b)]))) == Chars(a) + [Ch('|')] + Chars(b)
  {
    hide IsWord, Ok, Expect, Print, Word;
    var p, q, t := Bare(Word(a)), Bare(Word(b)), UnionOf([Word(a), Word(b)]);
    WordShown(a);
    WordShown(b);
    BareTokens(Word(a));
    BareTokens(Word(b));
    BareTokens(t);
    assert [Word(a), Word(b)][1..] == [Word(b)] && Bares([Word(b)]) == [q];
    assert t == Union(None, [p] + [q]);
    UnionPair(p, q);
  }

  lemma {:induction false} BareTokens(t: Type)
    ensures LexPadded(Bare(t)) == LexType(t)
  {
    hide LexType;
  }

  lemma {:induction false} UnionPair(p: Padded, q: Padded)
    ensures LexType(Union(None, [p] + [q])) == LexPadded(p) + [Ch('|')] + LexPadded(q)
  {
    hide LexPadded;
    JoinedCons(p, [q], '|');
    JoinedOne(q, '|');
    assert [] + LexAll([p] + [q]) == LexAll([p] + [q]);
  }

  lemma {:induction false} UnionExpected(t: Type)
    requires t.Union?
    ensures Expect(t) == Join(Sort(ExpectBodies(t.members)), " | ")
  {
  }

  lemma {:induction false} ThreeAtoms(t: Type, u: Type, v: Type)
    requires IsAtom(t) && IsAtom(u) && IsAtom(v)
    ensures AreAtoms([t, u, v])
  {
    hide IsAtom;
    TwoAtoms(u, v);
    assert [t, u, v][1..] == [u, v];
  }

  lemma {:induction false} TwoListed(b: string, c: string)
    ensures Listed([b, c]) == b + ("|" + c) && Join([b, c], " | ") == b + (" | " + c)
  {
    assert [b, c][1..] == [c] && [c][1..] == [];
    assert Listed([c]) == c && Join([c], " | ") == c;
    Associative(b, "|", c);
    Associative(b, " | ", c);
  }

  lemma {:induction false} ThreeListed(a: string, b: string, c: string)
    ensures Listed([a, b, c]) == a + ("|" + (b + ("|" + c))) && Join([a, b, c], " | ") == a + (" | " + (b + (" | " + c)))
  {
    assert [a, b, c][1..] == [b, c];
    TwoListed(b, c);
    Associative(a, "|", Listed([b, c]));
    Associative(a, " | ", Join([b, c], " | "));
  }

  lemma {:induction false} SortedThree(a: string, b: string, c: string)
    requires a != "" && b != "" && c != "" && a[0] < b[0] < c[0]
    ensures Sort([a, c, b]) == [a, b, c] && Join([a, b, c], " | ") == a + (" | " + (b + (" | " + c)))
  {
    hide Sort, Join;
    assert [a, b, c][1..] == [b, c] && [b, c][1..] == [c];
    assert multiset([a, c, b]) == multiset([a, b, c]);
    SortedUnique(Sort([a, c, b]), [a, b, c]);
    ThreeListed(a, b, c);
  }

  lemma {:induction false} NotBlank(text: string)
    requires Trimmed(text)
    ensures |Trim(text)| != 0
  {
    hide Trim;
    TrimIsEmpty(text);
  }

  lemma {:induction false} TheseAreWords()
    ensures IsWord("b") && IsWord("c") && IsWord("c=") && IsWord("y") && IsWord("z")
  {
  }

  // ---------- A region in brackets ----------

  function Bracketed(open: char, p: Padded): Type { Flat([Bracket(open, p)]) }

  /** A region in brackets, alone. */
  lemma {:induction false} BracketedReads(open: char, p: Padded)
    requires ItemOk(Bracket(open, p))
    ensures var t := Bracketed(open, p);
      && Ok(t) && LexType(t) == [Group(open, LexPadded(p))] && Free(LexType(t), EVERYTHING)
      && Print(t) == [open] + ShowAll(LexPadded(p)) + [CloserOf(open)] && Trimmed(Print(t))
      && Expect(t) == [open] + ExpectPadded(p) + [CloserOf(open)]
  {
    hide LexPadded, ShowAll, ExpectPadded, PaddedOk, NoTop, ItemOk, Unparted;
    var it := Bracket(open, p);
    OneItem(it);
    OneLexItem(it);
    OneGroup(open, LexPadded(p));
    GroupFree(open, LexPadded(p), EVERYTHING);
    GroupFree(open, LexPadded(p), [COLON, Arrow, BAR, AMPERSAND]);
    assert LIST in EVERYTHING;
    FreeUnparted([Group(open, LexPadded(p))]);
    BracketTrimmed(open, ShowAll(LexPadded(p)), it);
  }
}
