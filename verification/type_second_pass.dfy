/** What a second pass of the canonicaliser does to texts that the first pass has changed the reading of. */
module TypeSecondPass {
  import opened Strings
  import opened TypeText
  import opened TypeLexis
  import opened TypeGrammar
  import opened TypeCanonicity
  import opened TypeTokens
  import opened TypeShapes
  import opened TypeSplits
  import opened TypeTheorems
  import opened TypeTails
  import opened TypeSeparators
  import opened TypeIdempotence
  import opened TypeWords

  // ---------- A union member that ends in `=` ----------

  /** `<a|b>` between angle brackets. */
  function Angles(a: string, b: string): Type { Bracketed('<', Bare(UnionOf([Word(a), Word(b)]))) }

  lemma {:induction false} LastLetter(s: string)
    requires IsWord(s) && s[|s| - 1] != '='
    ensures !EndsInEquals(Chars(s))
  {
    CharsShown(s);
  }

  lemma {:induction false} AnglesItem(a: string, b: string)
    requires IsWord(a) && IsWord(b) && b[|b| - 1] != '='
    ensures ItemOk(Bracket('<', Bare(UnionOf([Word(a), Word(b)]))))
  {
    hide IsWord, Word, Expect, ExpectBodies, UnionOf, LexPadded, Ok;
    var t := UnionOf([Word(a), Word(b)]);
    TwoWords(a, b);
    PairTokens(a, b);
    LastLetter(b);
    WordShown(a);
    WordShown(b);
    CharsShown(b);
    BothTrimmed(a, b);
    EndsLast(Chars(a) + [Ch('|')], Chars(b));
  }

  lemma {:induction false} BothTrimmed(a: string, b: string)
    requires Trimmed(a) && Trimmed(b)
    ensures Trimmed(a + "|" + b)
  {
  }

  lemma {:induction false} EndsLast(xs: seq<Lex>, ys: seq<Lex>)
    requires ys != [] && !EndsInEquals(ys)
    ensures !EndsInEquals(xs + ys)
  {
    assert (xs + ys)[|xs + ys| - 1] == ys[|ys| - 1];
  }

  lemma {:induction false} AnglesAreAtom(a: string, b: string)
    requires IsWord(a) && IsWord(b) && b[|b| - 1] != '='
    ensures IsAtom(Angles(a, b)) && Print(Angles(a, b)) == "<" + (a + "|" + b) + ">"
    ensures Expect(Angles(a, b)) == "<" + Join(Sort([a, b]), " | ") + ">"
  {
    hide IsWord, Word, ExpectBodies, UnionOf, LexPadded, Ok, Expect, Print, Sort, Join, NoTop, LexType;
    var p := Bare(UnionOf([Word(a), Word(b)]));
    AnglesItem(a, b);
    BracketedReads('<', p);
    TwoWords(a, b);
    IsUnion([Word(a), Word(b)]);
    PaddedShown(p);
    UnionExpected(p.body);
    assert "" + (a + "|" + b) + "" == a + "|" + b;
    assert "" + Expect(p.body) + "" == Expect(p.body);
  }

  /** What the first pass makes of the union `<b|a>|z|y` when `b` ends in `=`. */
  lemma {:induction false} FirstPass(a: string, b: string, y: string, z: string)
    requires IsWord(a) && IsWord(b) && IsWord(y) && IsWord(z) && a[|a| - 1] != '='
    requires '<' < y[0] < z[0] && a[0] < b[0]
    ensures NormaliseTypeText("<" + (b + "|" + a) + ">" + ("|" + (z + ("|" + y))))
         == "<" + (a + " | " + b) + ">" + (" | " + (y + (" | " + z)))
  {
    hide IsWord, Word, ExpectBodies, Ok, Expect, Print, Sort, Join, IsAtom, Angles, AreAtoms, NormaliseTypeText,
      Bares;
    var ts := [Angles(b, a), Word(z), Word(y)];
    AnglesAreAtom(b, a);
    WordIsAtom(y);
    WordIsAtom(z);
    WordShown(y);
    WordShown(z);
    WordShown(a);
    WordShown(b);
    ThreeAtoms(Angles(b, a), Word(z), Word(y));
    UnionOfOk(ts);
    var first := "<" + (b + "|" + a) + ">";
    UnionOfShown(ts, [first, z, y]);
    ThreeListed(first, z, y);
    SortedPair(a, b);
    var result := "<" + (a + " | " + b) + ">";
    BaresExpected(ts, [result, z, y]);
    UnionExpected(UnionOf(ts));
    SortedThree(result, y, z);
    NormalisesText(UnionOf(ts));
  }

  /** The text of a function type whose result is a union with a bar before its first member. */
  function Opened(a: string, b: string, y: string, z: string): Type {
    Function(Plains(a + " | " + b), Padded(" ", Union(Some(""), [Padded(" ", Word(y), " "), Padded(" ", Word(z), "")]), ""))
  }

  lemma {:induction false} ResultMembers(y: string, z: string)
    requires IsWord(y) && IsWord(z)
    ensures var ps := [Padded(" ", Word(y), " "), Padded(" ", Word(z), "")];
      AllOk(ps) && AllFree(ps, [COLON, Arrow, BAR]) && Unmarked(ps) && ExpectBodies(ps) == [y, z]
    ensures ShowAll(LexPadded(Padded(" ", Word(y), " "))) == " " + y + " " && ShowAll(LexPadded(Padded(" ", Word(z), ""))) == " " + z + ""
  {
    hide IsWord, Word, Ok, Expect, Print, IsAtom, LexPadded, NoTop, AllOk, AllFree, PaddedOk, Free, ShowAll;
    var p, q := Padded(" ", Word(y), " "), Padded(" ", Word(z), "");
    WordIsAtom(y);
    WordIsAtom(z);
    WordShown(y);
    WordShown(z);
    AtomPadded(" ", Word(y), " ");
    AtomPadded(" ", Word(z), "");
    NoMembers();
    MoreMembers(q, [], [COLON, Arrow, BAR]);
    assert [q] + [] == [q];
    MoreMembers(p, [q], [COLON, Arrow, BAR]);
    MoreMembers(q, [], [LIST]);
    MoreMembers(p, [q], [LIST]);
    assert [p] + [q] == [p, q] && [p, q][1..] == [q] && [q][1..] == [];
    assert ExpectBodies([q]) == [z] + [];
  }

  lemma {:induction false} NoMembers()
    ensures AllOk([]) && forall needles :: AllFree([], needles)
  {
  }

  lemma {:induction false} BarredUnion(ps: seq<Padded>)
    requires |ps| >= 2 && AllOk(ps) && AllFree(ps, [COLON, Arrow, BAR]) && Unmarked(ps)
    ensures var t := Union(Some(""), ps); Ok(t) && NoTop(LexType(t), LIST) && NoTop(LexType(t), COLON)
  {
    hide AllOk, AllFree, LexType, NoTop, Unparted, JoinLex, LexAll;
    UnmarkedParts(ps);
    UnionUnparted(Some(""), ps);
    UnionShape(Some(""), ps);
    FreeEach(ps, [LIST], LIST);
    JoinNoTop(LexAll(ps), '|', LIST);
    assert Chars("") + [Ch('|')] == [Ch('|')];
    OneNoTop(Ch('|'), LIST);
    NoTopAppend([Ch('|')], JoinLex(LexAll(ps), '|'), LIST);
    UnionPartsFree(Union(Some(""), ps), COLON);
  }

  lemma {:induction false} BarredShown(p: Padded, q: Padded)
    ensures Print(Union(Some(""), [p] + [q])) == "|" + (ShowAll(LexPadded(p)) + ("|" + ShowAll(LexPadded(q))))
  {
    hide LexPadded, LexAll, JoinLex, ShowAll;
    var ps := [p] + [q];
    UnionShape(Some(""), ps);
    JoinedCons(p, [q], '|');
    JoinedOne(q, '|');
    ShowSplit(Chars(""), Ch('|'), JoinLex(LexAll(ps), '|'));
    ShowSplit(LexPadded(p), Ch('|'), LexPadded(q));
    CharsShown("");
  }

  lemma {:induction false} ResultUnion(y: string, z: string)
    requires IsWord(y) && IsWord(z)
    ensures var t := Union(Some(""), [Padded(" ", Word(y), " "), Padded(" ", Word(z), "")]);
      && Ok(t) && Print(t) == "| " + (y + (" | " + z)) && Expect(t) == Join(Sort([y, z]), " | ")
      && NoTop(LexType(t), LIST) && NoTop(LexType(t), COLON)
  {
    hide IsWord, Word, Ok, Print, Sort, Join, LexPadded, LexType, NoTop, AllOk, AllFree, ShowAll, ExpectBodies;
    var p, q := Padded(" ", Word(y), " "), Padded(" ", Word(z), "");
    ResultMembers(y, z);
    BarredUnion([p, q]);
    BarredShown(p, q);
    assert [p] + [q] == [p, q];
    assert "|" + ((" " + y + " ") + ("|" + (" " + z + ""))) == "| " + (y + (" | " + z));
  }

  lemma {:induction false} ParamsShown(s: string)
    requires PlainText(s) && Free(Chars(s), [LIST, COLON, Arrow])
    ensures ItemsOk(Plains(s)) && Free(LexItems(Plains(s)), [LIST, COLON, Arrow]) && ExpectItems(Plains(s)) == s
    ensures ShowAll(LexItems(Plains(s))) == s
  {
    PlainsShown(s);
    CharsShown(s);
  }

  lemma {:induction false} BarredOrdinary(a: string, b: string, k: nat)
    requires IsWord(a) && IsWord(b) && k < |a + " | " + b|
    ensures var c := (a + " | " + b)[k]; IsOrdinary(c) || c == '|'
  {
    hide IsOrdinary, Trimmed;
    if k < |a| {
      assert (a + " | " + b)[k] == a[k];
    } else if k >= |a| + 3 {
      assert (a + " | " + b)[k] == b[k - |a| - 3];
    } else {
      assert (a + " | " + b)[k] == " | "[k - |a|];
      assert IsOrdinary(' ') by { SpaceIsOrdinary(); }
    }
  }

  lemma {:induction false} SpaceIsOrdinary()
    ensures IsOrdinary(' ')
  {
  }

  lemma {:induction false} BarredFree(s: string)
    requires forall k :: 0 <= k < |s| ==> IsOrdinary(s[k]) || s[k] == '|'
    ensures PlainText(s) && Free(Chars(s), [LIST, COLON, Arrow])
  {
    CharsShown(s);
    forall n | n in [LIST, COLON, Arrow] ensures NoTop(Chars(s), n) {
      forall k | 0 <= k < |Chars(s)| ensures !Hits(Chars(s)[k], n) { assert IsOrdinary(s[k]) || s[k] == '|'; }
    }
  }

  lemma {:induction false} BarredText(a: string, b: string)
    requires IsWord(a) && IsWord(b)
    ensures PlainText(a + " | " + b) && Free(Chars(a + " | " + b), [LIST, COLON, Arrow])
  {
    hide IsWord, IsOrdinary, PlainText, Free;
    var s := a + " | " + b;
    forall k | 0 <= k < |s| ensures IsOrdinary(s[k]) || s[k] == '|' { BarredOrdinary(a, b, k); }
    BarredFree(s);
  }

  lemma {:induction false} PaddedPart(t: Type)
    requires Ok(t) && Trimmed(Print(t)) && NoTop(LexType(t), LIST) && NoTop(LexType(t), COLON)
    ensures var p := Padded(" ", t, "");
      PaddedOk(p) && Free(LexPadded(p), [LIST, COLON]) && ShowAll(LexPadded(p)) == " " + Print(t) + ""
  {
    hide Ok, LexType, NoTop, LexPadded, ShowAll;
    var p := Padded(" ", t, "");
    PaddedShown(p);
    PaddedFree(p, LIST);
    PaddedFree(p, COLON);
  }

  lemma {:induction false} OpenedReads(a: string, b: string, y: string, z: string)
    requires IsWord(a) && IsWord(b) && IsWord(y) && IsWord(z)
    ensures var t := Opened(a, b, y, z);
      && Ok(t) && Print(t) == (a + " | " + b) + ("=>" + (" " + ("| " + (y + (" | " + z))) + ""))
      && Expect(t) == (a + " | " + b) + "=>" + (" " + Join(Sort([y, z]), " | ") + "")
  {
    hide IsWord, Word, Sort, Join, LexItems, LexPadded, NoTop, ShowAll, ItemsOk, PaddedOk, ExpectItems, Plains,
      PlainText;
    var u := Opened(a, b, y, z).result.body;
    ResultUnion(y, z);
    BarTrimmed(y, z);
    PaddedPart(u);
    BarredText(a, b);
    ParamsShown(a + " | " + b);
    ShowSplit(LexItems(Plains(a + " | " + b)), Fat, LexPadded(Padded(" ", u, "")));
    FunctionFits(Plains(a + " | " + b), Padded(" ", u, ""));
  }

  lemma {:induction false} FunctionFits(params: seq<Item>, p: Padded)
    requires ItemsOk(params) && Free(LexItems(params), [LIST, COLON, Arrow]) && PaddedOk(p) && Free(LexPadded(p), [LIST, COLON])
    ensures Ok(Function(params, p))
  {
    hide ItemsOk, PaddedOk, NoTop, LexItems, LexPadded, Unparted, Hits;
    var xs, ys, all := LexItems(params), LexPadded(p), [LIST, COLON, Arrow];
    assert all[0] == LIST && all[1] == COLON && all[2] == Arrow && [LIST, COLON][0] == LIST && [LIST, COLON][1] == COLON;
    assert SolidLex(Fat) && !Hits(Fat, LIST) by { FatIsNoMark(); }
    FreeUnparted(ys);
    UnpartedAround(xs, Fat, ys);
  }

  lemma {:induction false} FatIsNoMark()
    ensures SolidLex(Fat) && !Hits(Fat, LIST)
  {
  }

  lemma {:induction false} BarTrimmed(y: string, z: string)
    requires IsWord(z)
    ensures Trimmed("| " + (y + (" | " + z)))
  {
  }

  lemma {:induction false} KeepTrimmed(text: string)
    requires Trimmed(text)
    ensures Keep(text) == Normalise(text)
  {
    hide Keep, Normalise, Leading, Trim, Trailing;
    PadsRecovered("", text, "");
    assert "" + text + "" == text;
    KeepOf(text, "", text, "");
    assert "" + Normalise(text) + "" == Normalise(text);
  }

  /** What the second pass makes of it: the `=>` is read as an arrow, the rest as its result. */
  lemma {:induction false} SecondPass(a: string, b: string, y: string, z: string)
    requires IsWord(a) && IsWord(b) && IsWord(y) && IsWord(z)
    ensures var inside := (a + " | " + b) + ("=>" + (" " + ("| " + (y + (" | " + z))) + ""));
      NormaliseTypeText("<" + inside) == "<" + ((a + " | " + b) + "=>" + (" " + Join(Sort([y, z]), " | ") + ""))
  {
    hide IsWord, Opened, Ok, Normalise, Keep, LexType, ShowAll, Expect, Sort, Join, Trim;
    var t := Opened(a, b, y, z);
    OpenedReads(a, b, y, z);
    OkLexed(t);
    OpenBracket(LexType(t));
    WordShown(a);
    WordShown(z);
    InsideIsTrimmed(a, b, y, z);
    OpenIsTrimmed(Print(t));
    KeepTrimmed(Print(t));
    Normalises(t);
    NotBlank("<" + Print(t));
  }

  lemma {:induction false} InsideIsTrimmed(a: string, b: string, y: string, z: string)
    requires Trimmed(a) && Trimmed(z)
    ensures Trimmed((a + " | " + b) + ("=>" + (" " + ("| " + (y + (" | " + z))) + "")))
  {
  }

  lemma {:induction false} OpenIsTrimmed(text: string)
    requires Trimmed(text)
    ensures Trimmed("<" + text)
  {
  }

  lemma {:induction false} FirstShows()
    ensures NormaliseTypeText("<c=|b>|z|y") == "<b | c=> | y | z"
  {
    hide NormaliseTypeText, IsWord;
    TheseAreWords();
    FirstPass("b", "c=", "y", "z");
    assert "<" + ("c=" + "|" + "b") + ">" + ("|" + ("z" + ("|" + "y"))) == "<c=|b>|z|y";
    assert "<" + ("b" + " | " + "c=") + ">" + (" | " + ("y" + (" | " + "z"))) == "<b | c=> | y | z";
  }

  lemma {:induction false} SecondShows()
    ensures NormaliseTypeText("<b | c=> | y | z") == "<b | c=> y | z"
  {
    hide NormaliseTypeText, Sort, Join, IsWord;
    TheseAreWords();
    SecondPass("b", "c", "y", "z");
    SortedPair("y", "z");
    assert "<" + (("b" + " | " + "c") + ("=>" + (" " + ("| " + ("y" + (" | " + "z"))) + ""))) == "<b | c=> | y | z";
    assert "<" + (("b" + " | " + "c") + "=>" + (" " + ("y" + " | " + "z") + "")) == "<b | c=> y | z";
  }

  /** A union member that ends in `=`, moved before a `>`, becomes an arrow for the second pass: here
      normalising is not idempotent although no bracket is blank. */
  lemma {:induction false} EqualsShows()
    ensures NormaliseTypeText("<c=|b>|z|y") == "<b | c=> | y | z"
    ensures NormaliseTypeText("<b | c=> | y | z") == "<b | c=> y | z"
  {
    hide NormaliseTypeText;
    FirstShows();
    SecondShows();
  }

  // ---------- A union that a separator has cut ----------

  lemma {:induction false} ThreeEnded(a: string, b: string, c: string)
    requires IsWord(a) && IsWord(b) && IsWord(c) && c[0] < a[0] < b[0]
    ensures NormaliseTypeText(a + ("|" + (b + ("|" + c))) + ";") == (c + ";") + (" | " + (a + (" | " + b)))
  {
    hide IsWord, Word, ExpectBodies, Ok, Expect, Print, Sort, Join, IsAtom, AreAtoms, NormaliseTypeText, Bares, NoTop, LexType, AddTail, LexItems, ExpectItems;
    var ts, e := [Word(a), Word(b), Word(c)], Mark(';');
    var t := UnionOf(ts);
    WordIsAtom(a);
    WordIsAtom(b);
    WordIsAtom(c);
    WordShown(a);
    WordShown(b);
    WordShown(c);
    ThreeAtoms(Word(a), Word(b), Word(c));
    UnionOfOk(ts);
    UnionOfShown(ts, [a, b, c]);
    ThreeListed(a, b, c);
    BaresExpected(ts, [a, b, c]);
    MarkValid(';');
    UnionTakes(t, e);
    TailReads(t, e);
    UnionTail(t, e);
    LastBare(ts);
    ThreePieces(t, e, a, b, c);
    UnionExpected(AddTail(t, e));
    assert "" + "" + [';'] == ";";
    LastFirst(a, b, c + ";");
  }

  lemma {:induction false} LastBare(ts: seq<Type>)
    requires |ts| == 3
    ensures Bares(ts) == [Bare(ts[0]), Bare(ts[1]), Bare(ts[2])]
  {
    assert ts[1..] == [ts[1], ts[2]] && ts[1..][1..] == [ts[2]];
    assert Bares([ts[2]]) == [Bare(ts[2])] && Bares([ts[1], ts[2]]) == [Bare(ts[1])] + Bares([ts[1], ts[2]][1..]);
  }

  lemma {:induction false} ThreePieces(t: Type, e: Tail, a: string, b: string, c: string)
    requires t.Union? && |t.members| == 3 && ExpectBodies(t.members) == [a, b, c] && Expect(Last(t.members).body) == c
    ensures TailedTexts(t.members, e) == [a, b, c + (Last(t.members).trail + e.space + ExpectItems(e.items))]
  {
    hide Expect, ExpectBodies, ExpectItems;
    var ps := t.members;
    ExpectLast(ps, Last(ps));
    assert ExpectBodies(ps[..2]) == (ExpectBodies(ps[..2]) + [c])[..2] == [a, b, c][..2] == [a, b];
  }

  lemma {:induction false} LastFirst(a: string, b: string, c: string)
    requires a != "" && b != "" && c != "" && c[0] < a[0] < b[0]
    ensures Join(Sort([a, b, c]), " | ") == c + (" | " + (a + (" | " + b)))
  {
    hide Sort, Join;
    assert [c, a, b][1..] == [a, b] && [a, b][1..] == [b];
    assert multiset([a, b, c]) == multiset([c, a, b]);
    SortedUnique(Sort([a, b, c]), [c, a, b]);
    ThreeListed(c, a, b);
  }

  /** `a; | b | c`, read as a list of two parts. */
  function CutUnion(a: string, b: string, c: string): Type {
    List([Bare(Word(a)), Bare(Union(Some(""), [Padded(" ", Word(b), " "), Padded(" ", Word(c), "")]))], ["; "])
  }

  lemma {:induction false} TwoParts(p: Padded, q: Padded)
    requires p.lead == "" && p.trail == "" && q.lead == "" && q.trail == "" && Ok(p.body) && Ok(q.body)
    requires NoTop(LexPadded(p), LIST) && NoTop(LexPadded(q), LIST) && StartsSolid(ShowAll(LexPadded(q))) && Trim(Print(q.body)) != ""
    ensures var t := List([p, q], ["; "]);
      && Ok(t) && Print(t) == ShowAll(LexPadded(p)) + ("; " + ShowAll(LexPadded(q))) && Expect(t) == Expect(p.body) + "; " + Expect(q.body)
  {
    hide Ok, LexPadded, NoTop, ShowAll, Trim, Expect, StartsSolid, LexType, JoinList, LexAll, Unparted, ExpectBodies, Rejoin;
    var ps := [p, q];
    TwoLexed(p, q);
    FreeUnparted(LexPadded(q));
    SemicolonSeparates();
    OneSolidPart(LexPadded(q));
    assert ps[1..] == [q] && ps[..1] == [p];
    assert Free(LexPadded(p), [LIST]);
    TwoOk(p, q);
    MakesList(ps, ["; "]);
    TwoShown(p, q);
    ListExpected(List(ps, ["; "]));
    TwoBodies(p, q);
    TwoRejoined(Expect(p.body), Expect(q.body));
  }

  lemma {:induction false} MakesList(ps: seq<Padded>, separators: seq<string>)
    requires |ps| >= 2 && |ps| == |separators| + 1 && PartsOk(ps) && AllFree(ps[..|ps| - 1], [LIST]) && Unparted(LexPadded(Last(ps)))
    requires SeparatorsOk(separators) && SolidParts(LexAll(ps[1..])) && Trim(Print(Last(ps).body)) != ""
    ensures Ok(List(ps, separators)) && LexType(List(ps, separators)) == JoinList(LexAll(ps), separators)
  {
    hide PartsOk, AllFree, Unparted, LexPadded, SeparatorsOk, SolidParts, LexAll, Trim, Print, JoinList;
  }

  lemma {:induction false} TwoOk(p: Padded, q: Padded)
    requires p.lead == "" && p.trail == "" && q.lead == "" && q.trail == "" && Ok(p.body) && Ok(q.body)
    ensures PartsOk([p, q])
  {
    hide Ok;
    var qs: seq<Padded> := [q];
    assert PartsOk([]);
    assert qs[1..] == [];
    assert PartsOk(qs);
    assert [p, q][1..] == qs;
  }

  lemma {:induction false} TwoLexed(p: Padded, q: Padded)
    ensures LexAll([p, q]) == [LexPadded(p), LexPadded(q)] && LexAll([q]) == [LexPadded(q)]
  {
    hide LexPadded;
    assert [p, q][1..] == [q];
  }

  lemma {:induction false} TwoShown(p: Padded, q: Padded)
    ensures ShowAll(JoinList(LexAll([p, q]), ["; "])) == ShowAll(LexPadded(p)) + ("; " + ShowAll(LexPadded(q)))
  {
    hide LexPadded, ShowAll;
    TwoLexed(p, q);
    var parts := [LexPadded(p), LexPadded(q)];
    JoinListShown(parts, ["; "]);
    assert parts[1..] == [LexPadded(q)] && ["; "][1..] == [];
    assert JoinList([LexPadded(q)], []) == LexPadded(q);
  }

  lemma {:induction false} TwoBodies(p: Padded, q: Padded)
    ensures ExpectBodies([p, q]) == [Expect(p.body), Expect(q.body)]
  {
    hide Expect;
    assert [p, q][1..] == [q] && ExpectBodies([q]) == [Expect(q.body)];
  }

  lemma {:induction false} OneSolidPart(xs: seq<Lex>)
    requires StartsSolid(ShowAll(xs))
    ensures SolidParts([xs])
  {
    hide ShowAll;
    assert [xs][1..] == [];
  }

  lemma {:induction false} SemicolonSeparates()
    ensures SeparatorsOk(["; "])
  {
    assert ["; "][1..] == [] && "; "[1..] == " ";
  }

  lemma {:induction false} TwoRejoined(x: string, y: string)
    ensures Rejoin([x, y], ["; "]) == x + "; " + y
  {
    assert [x, y][1..] == [y] && ["; "][1..] == [];
    assert Rejoin([y], []) == y;
  }

  lemma {:induction false} CutUnionReads(a: string, b: string, c: string)
    requires IsWord(a) && IsWord(b) && IsWord(c) && b[0] < c[0]
    ensures NormaliseTypeText(a + ("; " + ("| " + (b + (" | " + c))))) == a + "; " + (b + " | " + c)
  {
    hide IsWord, Word, Ok, Expect, Sort, Join, NoTop, LexType, ShowAll, LexPadded, NormaliseTypeText, Trim;
    var u := Union(Some(""), [Padded(" ", Word(b), " "), Padded(" ", Word(c), "")]);
    WordShown(a);
    WordShown(b);
    WordShown(c);
    ResultUnion(b, c);
    BarTrimmed(b, c);
    NotBlank(Print(u));
    BareTokens(Word(a));
    BareTokens(u);
    assert LIST in EVERYTHING;
    TrimmedStarts(Print(u));
    TwoParts(Bare(Word(a)), Bare(u));
    SortedPair(b, c);
    NormalisesText(CutUnion(a, b, c));
  }

  lemma {:induction false} TrimmedStarts(s: string)
    requires Trimmed(s)
    ensures StartsSolid(s)
  {
  }

  lemma {:induction false} CutFirst()
    ensures NormaliseTypeText("b|c|a;") == "a; | b | c"
  {
    hide NormaliseTypeText, IsWord;
    LetterIsWord('a');
    LetterIsWord('b');
    LetterIsWord('c');
    ThreeEnded("b", "c", "a");
    assert "b" + ("|" + ("c" + ("|" + "a"))) + ";" == "b|c|a;" && ("a" + ";") + (" | " + ("b" + (" | " + "c"))) == "a; | b | c";
  }

  lemma {:induction false} CutSecond()
    ensures NormaliseTypeText("a; | b | c") == "a; b | c"
  {
    hide NormaliseTypeText, IsWord;
    LetterIsWord('a');
    LetterIsWord('b');
    LetterIsWord('c');
    CutUnionReads("a", "b", "c");
    assert "a" + ("; " + ("| " + ("b" + (" | " + "c")))) == "a; | b | c" && "a" + "; " + ("b" + " | " + "c") == "a; b | c";
  }

  /** A separator that sorting moves into a union: the second pass reads a list and drops the bar after it. */
  lemma {:induction false} CutUnionShows()
    ensures NormaliseTypeText("b|c|a;") == "a; | b | c"
    ensures NormaliseTypeText("a; | b | c") == "a; b | c"
  {
    hide NormaliseTypeText;
    CutFirst();
    CutSecond();
  }
}
