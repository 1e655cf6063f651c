/** Texts on which the canonicaliser does not do what its comments promise. */
module TypeExamples {
  import opened Strings
  import opened TypeText
  import opened TypeLexis
  import opened TypeGrammar
  import opened TypeCanonicity
  import opened TypeTokens
  import opened TypeShapes
  import opened TypeTheorems
  import opened TypeCanonStands
  import opened TypeCanonOk
  import opened TypeTails
  import opened TypeSeparators
  import opened TypeWords

  // ---------- A trailing separator ----------

  lemma {:induction false} PairTailed(a: string, b: string, mark: char)
    requires IsWord(a) && IsWord(b) && IsMark(mark)
    ensures var t := AddTail(UnionOf([Word(a), Word(b)]), Mark(mark));
      Ok(t) && Print(t) == a + "|" + b + [mark] && Expect(t) == Join(Sort([a, b + [mark]]), " | ") && NoTop(LexType(t), COLON)
  {
    hide IsWord, Print, Expect, Ok, Word, Sort, Join, UnionOf, LexType, NoTop, AddTail, ExpectBodies, LexItems, ExpectItems;
    var t, e := UnionOf([Word(a), Word(b)]), Mark(mark);
    IsUnion([Word(a), Word(b)]);
    TwoWords(a, b);
    MarkValid(mark);
    UnionTakes(t, e);
    TailOk(t, e);
    TailPrinted(t, e);
    UnionTail(t, e);
    TailPieces(t, e, a, b);
    UnionExpected(AddTail(t, e));
    assert COLON in [COLON, Arrow, BAR, AMPERSAND];
    TailHides(e, COLON);
    TailTokens(t, e);
    NoTopAppend(LexType(t), e.Tokens(), COLON);
    assert "" + "" + [mark] == [mark];
  }

  lemma {:induction false} TailPieces(t: Type, e: Tail, a: string, b: string)
    requires t.Union? && |t.members| == 2 && ExpectBodies(t.members) == [a, b] && Expect(Last(t.members).body) == b
    ensures TailedTexts(t.members, e) == [a, b + (Last(t.members).trail + e.space + ExpectItems(e.items))]
  {
    hide Expect, ExpectBodies, ExpectItems;
    var ps := t.members;
    ExpectLast(ps, Last(ps));
    assert ExpectBodies(ps[..1]) == (ExpectBodies(ps[..1]) + [b])[..1] == [a, b][..1] == [a];
  }

  lemma {:induction false} PairEnded(a: string, b: string)
    requires IsWord(a) && IsWord(b)
    ensures NormaliseTypeText(a + "|" + b + ";") == Join(Sort([a, b + ";"]), " | ")
  {
    hide IsWord, Print, Expect, Ok, NormaliseTypeText, Word, Sort, Join, UnionOf, AddTail, LexType;
    PairTailed(a, b, ';');
    NormalisesText(AddTail(UnionOf([Word(a), Word(b)]), Mark(';')));
  }

  /** The member `x` comes first in the text, the member `y` next to the separator. */
  lemma {:induction false} EndedPair(x: char, y: char)
    requires 'a' <= x <= 'z' && 'a' <= y <= 'z' && x != y
    ensures NormaliseTypeText([x] + "|" + [y] + ";")
         == if x < y then [x] + " | " + ([y] + ";") else ([y] + ";") + " | " + [x]
  {
    hide NormaliseTypeText, Sort, Join, IsWord;
    LetterIsWord(x);
    LetterIsWord(y);
    PairEnded([x], [y]);
    if x < y { SortedPair([x], [y] + ";"); } else { SortedPair([y] + ";", [x]); }
  }

  /** The separator belongs to whichever member is written last, so the order shows. */
  lemma {:induction false} TrailingSeparatorShows()
    ensures NormaliseTypeText("a|b;") == "a | b;"
    ensures NormaliseTypeText("b|a;") == "a; | b"
  {
    hide NormaliseTypeText;
    EndedPair('a', 'b');
    EndedPair('b', 'a');
    assert ['a'] + "|" + ['b'] + ";" == "a|b;" && ['b'] + "|" + ['a'] + ";" == "b|a;";
    assert ['a'] + " | " + (['b'] + ";") == "a | b;" && (['a'] + ";") + " | " + ['b'] == "a; | b";
  }

  // ---------- The inside of an object type ----------

  /** `{m: b|a;}` */
  function Member(x: char, y: char): Type {
    Bracketed('{', Bare(Labelled(Plains("m"), Padded(" ", AddTail(UnionOf([Word([x]), Word([y])]), Mark(';')), ""))))
  }

  lemma {:induction false} NameReads()
    ensures ItemsOk(Plains("m")) && LexItems(Plains("m")) == [Ch('m')] && ExpectItems(Plains("m")) == "m"
    ensures NoTop([Ch('m')], LIST) && NoTop([Ch('m')], COLON) && NoTop([Ch('m')], QUESTION)
  {
    assert "m"[1..] == "";
    assert Plains("m")[1..] == [];
  }

  /** A label with a type that shows neither a colon nor a question mark. */
  lemma {:induction false} LabelReads(v: Padded)
    requires PaddedOk(v) && Unparted(LexPadded(v)) && NoTop(LexPadded(v), QUESTION)
    ensures var t := Labelled(Plains("m"), v);
      Ok(t) && Print(t) == "m" + (":" + ShowAll(LexPadded(v))) && Expect(t) == "m" + ":" + ExpectPadded(v)
  {
    hide PaddedOk, NoTop, LexPadded, Unparted, ShowAll, ExpectPadded, Hits;
    NameReads();
    assert SolidLex(Ch(':')) && !Hits(Ch(':'), LIST) by { ColonIsNoMark(); }
    UnpartedAround([Ch('m')], Ch(':'), LexPadded(v));
    ShowSplit([Ch('m')], Ch(':'), LexPadded(v));
    assert ShowAll([Ch('m')]) == "m" by { CharsShown("m"); NameTokens(); }
  }

  lemma {:induction false} NameTokens()
    ensures Chars("m") == [Ch('m')]
  {
    assert "m"[1..] == "";
  }

  lemma {:induction false} ColonIsNoMark()
    ensures SolidLex(Ch(':')) && !Hits(Ch(':'), LIST)
  {
  }

  lemma {:induction false} TailedPart(x: char, y: char)
    requires 'a' <= x <= 'z' && 'a' <= y <= 'z'
    ensures var v := Padded(" ", AddTail(UnionOf([Word([x]), Word([y])]), Mark(';')), "");
      && PaddedOk(v) && Unparted(LexPadded(v)) && NoTop(LexPadded(v), QUESTION)
      && ShowAll(LexPadded(v)) == " " + ([x] + "|" + [y] + ";") && ExpectPadded(v) == " " + Join(Sort([[x], [y] + ";"]), " | ")
  {
    hide Ok, LexType, LexPadded, Unparted, ShowAll, Sort, Join, IsWord, AddTail, UnionOf, NoTop, Expect, AllSpace, LexItems;
    var t, e := UnionOf([Word([x]), Word([y])]), Mark(';');
    var u := AddTail(t, e);
    var v := Padded(" ", u, "");
    LetterIsWord(x);
    LetterIsWord(y);
    PairTailed([x], [y], ';');
    OneSpacePads();
    TextTrimmed(x, y);
    PaddedShown(v);
    PairKind(x, y);
    OkIsUnparted(u);
    PaddedUnparted(v);
    PairQuiet(x, y);
    PaddedFree(v, QUESTION);
    assert " " + Print(u) + "" == " " + Print(u) && " " + Expect(u) + "" == " " + Expect(u);
  }

  lemma {:induction false} OneSpacePads()
    ensures AllSpace(" ") && AllSpace("")
  {
  }

  lemma {:induction false} TextTrimmed(x: char, y: char)
    requires 'a' <= x <= 'z'
    ensures Trimmed([x] + "|" + [y] + ";")
  {
  }

  lemma {:induction false} PairKind(x: char, y: char)
    ensures !AddTail(UnionOf([Word([x]), Word([y])]), Mark(';')).List?
  {
  }

  lemma {:induction false} PairQuiet(x: char, y: char)
    requires 'a' <= x <= 'z' && 'a' <= y <= 'z'
    ensures NoTop(LexType(AddTail(UnionOf([Word([x]), Word([y])]), Mark(';'))), QUESTION)
  {
    hide Ok, LexType, NoTop, IsWord, AddTail, UnionOf, LexItems, Word;
    var t, e := UnionOf([Word([x]), Word([y])]), Mark(';');
    LetterIsWord(x);
    LetterIsWord(y);
    TwoWords([x], [y]);
    MarkValid(';');
    TailTokens(t, e);
    MarkQuiet();
    QuestionHides(e);
    PairTokens([x], [y]);
    BareTokens(t);
    WordShown([x]);
    WordShown([y]);
    assert QUESTION in EVERYTHING;
    NoTopAround(Chars([x]), Ch('|'), Chars([y]), QUESTION);
    NoTopAppend(LexType(t), e.Tokens(), QUESTION);
  }

  lemma {:induction false} MarkQuiet()
    ensures NoTop(LexItems(Mark(';').items), QUESTION)
  {
    assert [Plain(';')][1..] == [];
  }

  lemma {:induction false} MemberReads(x: char, y: char)
    requires 'a' <= x <= 'z' && 'a' <= y <= 'z'
    ensures NormaliseTypeText("{m: " + ([x] + "|" + [y] + ";") + "}") == "{m: " + Join(Sort([[x], [y] + ";"]), " | ") + "}"
  {
    hide NormaliseTypeText, Ok, Print, Expect, Sort, Join, ShowAll, LexPadded, ExpectPadded, PaddedOk, Unparted, AddTail, UnionOf, NoTop, LexType;
    var v := Padded(" ", AddTail(UnionOf([Word([x]), Word([y])]), Mark(';')), "");
    var member := Labelled(Plains("m"), v);
    TailedPart(x, y);
    LabelReads(v);
    LabelIsTrimmed(x, y, member);
    LabelInBraces(member);
    NormalisesText(Member(x, y));
    assert "{" + ("m" + (":" + (" " + ([x] + "|" + [y] + ";")))) + "}" == "{m: " + ([x] + "|" + [y] + ";") + "}";
    var z := Join(Sort([[x], [y] + ";"]), " | ");
    assert "{" + ("m" + ":" + (" " + z)) + "}" == "{m: " + z + "}";
  }

  lemma {:induction false} LabelIsTrimmed(x: char, y: char, t: Type)
    requires Print(t) == "m" + (":" + (" " + ([x] + "|" + [y] + ";")))
    ensures Trimmed(Print(t))
  {
    hide LexType, ShowAll;
  }

  lemma {:induction false} LabelInBraces(t: Type)
    requires Ok(t) && Trimmed(Print(t))
    ensures var b := Bracketed('{', Bare(t)); Ok(b) && Print(b) == "{" + Print(t) + "}" && Expect(b) == "{" + Expect(t) + "}"
  {
    hide Ok, LexType, ShowAll, Expect;
    var p := Bare(t);
    BracketedReads('{', p);
    PaddedShown(p);
    assert "" + Print(t) + "" == Print(t) && "" + Expect(t) + "" == Expect(t);
  }

  lemma {:induction false} MemberPair(x: char, y: char)
    requires 'a' <= x <= 'z' && 'a' <= y <= 'z' && x != y
    ensures NormaliseTypeText("{m: " + ([x] + "|" + [y] + ";") + "}")
         == "{m: " + (if x < y then [x] + " | " + ([y] + ";") else ([y] + ";") + " | " + [x]) + "}"
  {
    hide NormaliseTypeText, Sort, Join;
    MemberReads(x, y);
    if x < y { SortedPair([x], [y] + ";"); } else { SortedPair([y] + ";", [x]); }
  }

  lemma {:induction false} MembersInOrder()
    ensures NormaliseTypeText("{m: a|b;}") == "{m: a | b;}"
  {
    hide NormaliseTypeText;
    MemberPair('a', 'b');
    assert "{m: " + (['a'] + "|" + ['b'] + ";") + "}" == "{m: a|b;}";
    assert "{m: " + (['a'] + " | " + (['b'] + ";")) + "}" == "{m: a | b;}";
  }

  lemma {:induction false} MembersSwapped()
    ensures NormaliseTypeText("{m: b|a;}") == "{m: a; | b}"
  {
    hide NormaliseTypeText;
    MemberPair('b', 'a');
    assert "{m: " + (['b'] + "|" + ['a'] + ";") + "}" == "{m: b|a;}";
    assert "{m: " + ((['a'] + ";") + " | " + ['b']) + "}" == "{m: a; | b}";
  }

  /** The same in the braces of an object type, where the compiler prints a separator after the last member. */
  lemma {:induction false} ObjectTypeShows()
    ensures NormaliseTypeText("{m: a|b;}") == "{m: a | b;}"
    ensures NormaliseTypeText("{m: b|a;}") == "{m: a; | b}"
  {
    hide NormaliseTypeText;
    MembersInOrder();
    MembersSwapped();
  }

  // ---------- A bound or a default ----------

  lemma {:induction false} BoundPair(head: string, a: char, b: char)
    requires 'a' <= a <= 'z' && 'a' <= b <= 'z'
    requires IsWord(head) && a < head[0]
    ensures NormaliseTypeText(head + " " + [b] + "|" + [a]) == [a] + " | " + (head + " " + [b])
  {
    hide NormaliseTypeText, Sort, Join;
    var first := head + " " + [b];
    PairNormalised(first, [a]);
    SortedPair([a], first);
  }

  /** A union behind `extends` or `=`: its first member is read together with what stands before it. */
  lemma {:induction false} BoundShows()
    ensures NormaliseTypeText("t extends a|b") == "b | t extends a" && NormaliseTypeText("t extends b|a") == "a | t extends b"
  {
    hide NormaliseTypeText;
    BoundPair("t extends", 'b', 'a');
    BoundPair("t extends", 'a', 'b');
    assert "t extends" + " " + ['a'] + "|" + ['b'] == "t extends a|b" && "t extends" + " " + ['b'] + "|" + ['a'] == "t extends b|a";
    assert ['b'] + " | " + ("t extends" + " " + ['a']) == "b | t extends a";
    assert ['a'] + " | " + ("t extends" + " " + ['b']) == "a | t extends b";
  }

  lemma {:induction false} DefaultShows()
    ensures NormaliseTypeText("t = a|b") == "b | t = a" && NormaliseTypeText("t = b|a") == "a | t = b"
  {
    hide NormaliseTypeText;
    BoundPair("t =", 'b', 'a');
    BoundPair("t =", 'a', 'b');
    assert "t =" + " " + ['a'] + "|" + ['b'] == "t = a|b" && "t =" + " " + ['b'] + "|" + ['a'] == "t = b|a";
    assert ['b'] + " | " + ("t =" + " " + ['a']) == "b | t = a";
    assert ['a'] + " | " + ("t =" + " " + ['b']) == "a | t = b";
  }

  // ---------- A bound with a default ----------

  lemma {:induction false} ThreeNormalised(a: string, b: string, c: string)
    requires IsWord(a) && IsWord(b) && IsWord(c) && b[0] < c[0] < a[0]
    ensures NormaliseTypeText(a + ("|" + (b + ("|" + c)))) == b + (" | " + (c + (" | " + a)))
  {
    hide IsWord, Word, ExpectBodies, Ok, Expect, Print, Sort, Join, IsAtom, AreAtoms, NormaliseTypeText, Bares;
    var ts := [Word(a), Word(b), Word(c)];
    WordIsAtom(a);
    WordIsAtom(b);
    WordIsAtom(c);
    WordShown(a);
    WordShown(b);
    WordShown(c);
    ThreeAtoms(Word(a), Word(b), Word(c));
    UnionOfOk(ts);
    UnionOfShown(ts, [a, b, c]);
    ThreeListed(a, b, c);
    BaresExpected(ts, [a, b, c]);
    UnionExpected(UnionOf(ts));
    RotatedThree(a, b, c);
    NormalisesText(UnionOf(ts));
  }

  lemma {:induction false} RotatedThree(a: string, b: string, c: string)
    requires a != "" && b != "" && c != "" && b[0] < c[0] < a[0]
    ensures Join(Sort([a, b, c]), " | ") == b + (" | " + (c + (" | " + a)))
  {
    hide Sort, Join;
    assert [b, c, a][1..] == [c, a] && [c, a][1..] == [a];
    assert multiset([a, b, c]) == multiset([b, c, a]);
    SortedUnique(Sort([a, b, c]), [b, c, a]);
    ThreeListed(b, c, a);
  }

  lemma {:induction false} BoundWords()
    ensures IsWord("t extends a") && IsWord("b") && IsWord("c") && IsWord("c = d") && IsWord("b = d")
  {
  }

  lemma {:induction false} DefaultAfterC()
    ensures NormaliseTypeText("t extends a|b|c = d") == "b | c = d | t extends a"
  {
    hide NormaliseTypeText, IsWord;
    BoundWords();
    ThreeNormalised("t extends a", "b", "c = d");
    assert "t extends a" + ("|" + ("b" + ("|" + "c = d"))) == "t extends a|b|c = d";
    assert "b" + (" | " + ("c = d" + (" | " + "t extends a"))) == "b | c = d | t extends a";
  }

  lemma {:induction false} SwappedNormalised(a: string, b: string, c: string)
    requires IsWord(a) && IsWord(b) && IsWord(c) && b[0] < c[0] < a[0]
    ensures NormaliseTypeText(a + ("|" + (c + ("|" + b)))) == b + (" | " + (c + (" | " + a)))
  {
    hide IsWord, Word, ExpectBodies, Ok, Expect, Print, Sort, Join, IsAtom, AreAtoms, NormaliseTypeText, Bares;
    var ts := [Word(a), Word(c), Word(b)];
    WordIsAtom(a);
    WordIsAtom(b);
    WordIsAtom(c);
    WordShown(a);
    WordShown(b);
    WordShown(c);
    ThreeAtoms(Word(a), Word(c), Word(b));
    UnionOfOk(ts);
    UnionOfShown(ts, [a, c, b]);
    ThreeListed(a, c, b);
    BaresExpected(ts, [a, c, b]);
    UnionExpected(UnionOf(ts));
    SortOfSameBag([a, c, b], [a, b, c]);
    RotatedThree(a, b, c);
    NormalisesText(UnionOf(ts));
  }

  lemma {:induction false} DefaultAfterB()
    ensures NormaliseTypeText("t extends a|c|b = d") == "b = d | c | t extends a"
  {
    hide NormaliseTypeText, IsWord;
    BoundWords();
    SwappedNormalised("t extends a", "b = d", "c");
    assert "t extends a" + ("|" + ("c" + ("|" + "b = d"))) == "t extends a|c|b = d";
    assert "b = d" + (" | " + ("c" + (" | " + "t extends a"))) == "b = d | c | t extends a";
  }

  /** A bound with a default: with the same first member, the last one shows. */
  lemma {:induction false} BoundWithDefaultShows()
    ensures NormaliseTypeText("t extends a|b|c = d") == "b | c = d | t extends a"
    ensures NormaliseTypeText("t extends a|c|b = d") == "b = d | c | t extends a"
  {
    hide NormaliseTypeText;
    DefaultAfterC();
    DefaultAfterB();
  }

  // ---------- A conditional type in a true branch ----------

  predicate IsPlain(s: string) { forall k :: 0 <= k < |s| ==> IsOrdinary(s[k]) || s[k] == '?' }

  lemma {:induction false} PlainFlat(s: string)
    requires Trimmed(s) && IsPlain(s)
    ensures Ok(Flat(Plains(s))) && Print(Flat(Plains(s))) == s && Expect(Flat(Plains(s))) == s && LexType(Flat(Plains(s))) == Chars(s)
    ensures Free(Chars(s), [LIST, COLON])
  {
    CharsShown(s);
    forall k | 0 <= k < |s| ensures Lexed(Ch(s[k])) { assert IsOrdinary(s[k]) || s[k] == '?'; }
    PlainsShown(s);
    PlainFree(s, [COLON, Arrow, BAR, AMPERSAND]);
    PlainFree(s, [LIST, COLON]);
    assert LIST in [LIST, COLON];
    FreeUnparted(Chars(s));
  }

  lemma {:induction false} PlainFree(s: string, needles: seq<Needle>)
    requires IsPlain(s) && forall n :: n in needles ==> n in [LIST, COLON, Arrow, BAR, AMPERSAND]
    ensures Free(Chars(s), needles)
  {
    CharsShown(s);
    forall n | n in needles ensures NoTop(Chars(s), n) {
      forall k | 0 <= k < |Chars(s)| ensures !Hits(Chars(s)[k], n) { assert IsOrdinary(s[k]) || s[k] == '?'; }
    }
  }

  /** `t extends a ? u extends b ? x : c|d : z`, as it is read. */
  function NestedAs(x: char, y: char): Type {
    Conditional(Padded("", Word("t extends a"), " "), Padded(" ", Flat(Plains("u extends b ? x")), " "),
                Padded(" ", Labelled(Plains([x] + "|" + [y] + " "), Padded(" ", Word("z"), "")), ""))
  }

  function NestedText(x: char, y: char): string {
    ("t extends a ") + "?" + (" u extends b ? x ") + ":" + (" " + ([x] + "|" + [y] + " " + ":" + " z"))
  }

  lemma {:induction false} BranchPart(lead: string, t: Type, trail: string)
    requires Ok(t) && Trimmed(Print(t)) && AllSpace(lead) && AllSpace(trail) && Expect(t) == Print(t)
    ensures var p := Padded(lead, t, trail);
      PaddedOk(p) && ShowAll(LexPadded(p)) == lead + Print(t) + trail && ExpectPadded(p) == lead + Print(t) + trail
  {
    hide Ok, LexType, LexPadded, ShowAll, AllSpace;
    PaddedShown(Padded(lead, t, trail));
  }

  lemma {:induction false} FalseLabel(x: char, y: char)
    requires 'a' <= x <= 'z' && 'a' <= y <= 'z'
    ensures var name := [x] + "|" + [y] + " "; var t := Labelled(Plains(name), Padded(" ", Word("z"), ""));
      && Ok(t) && Print(t) == name + ":" + " z" && Expect(t) == name + ":" + " z" && Trimmed(Print(t)) && NoTop(LexType(t), LIST)
  {
    hide Word, LexItems, LexPadded, NoTop, ItemsOk, PaddedOk, ShowAll, ExpectItems, ExpectPadded, Unparted, Hits, IsWord, Plains, Ok, Print, AllSpace;
    var name, v := [x] + "|" + [y] + " ", Padded(" ", Word("z"), "");
    TheseAreWords();
    WordIsAtom("z");
    WordShown("z");
    OneSpacePads();
    AtomPadded(" ", Word("z"), "");
    NameIsPlain(x, y);
    PlainsShown(name);
    CharsShown(name);
    assert LIST in EVERYTHING && QUESTION in EVERYTHING;
    LabelJoins(Plains(name), v);
    BranchPart(" ", Word("z"), "");
    assert " " + "z" + "" == " z";
    NameTrimmed(x, y);
  }

  lemma {:induction false} NameTrimmed(x: char, y: char)
    requires 'a' <= x <= 'z'
    ensures Trimmed([x] + "|" + [y] + " " + ":" + " z")
  {
  }

  lemma {:induction false} NameIsPlain(x: char, y: char)
    requires 'a' <= x <= 'z' && 'a' <= y <= 'z'
    ensures var name := [x] + "|" + [y] + " ";
      PlainText(name) && NoTop(Chars(name), LIST) && NoTop(Chars(name), COLON) && NoTop(Chars(name), QUESTION)
  {
    var name := [x] + "|" + [y] + " ";
    CharsShown(name);
    assert name[0] == x && name[1] == '|' && name[2] == y && name[3] == ' ';
    forall k | 0 <= k < |name| ensures Lexed(Ch(name[k])) && !Hits(Ch(name[k]), LIST) && !Hits(Ch(name[k]), COLON) && !Hits(Ch(name[k]), QUESTION) {
      assert IsOrdinary(name[k]) || name[k] == '|';
    }
  }

  lemma {:induction false} LabelJoins(name: seq<Item>, v: Padded)
    requires ItemsOk(name) && PaddedOk(v) && NoTop(LexItems(name), LIST) && NoTop(LexItems(name), COLON) && NoTop(LexItems(name), QUESTION)
    requires NoTop(LexPadded(v), LIST) && NoTop(LexPadded(v), QUESTION)
    ensures var t := Labelled(name, v);
      && Ok(t) && NoTop(LexType(t), LIST) && Print(t) == ShowAll(LexItems(name)) + (":" + ShowAll(LexPadded(v)))
      && Expect(t) == ExpectItems(name) + ":" + ExpectPadded(v)
  {
    hide ItemsOk, PaddedOk, NoTop, LexItems, LexPadded, ShowAll, ExpectItems, ExpectPadded, Unparted, Hits;
    ColonIsNoMark();
    FreeUnparted(LexPadded(v));
    UnpartedAround(LexItems(name), Ch(':'), LexPadded(v));
    OneNoTop(Ch(':'), LIST);
    NoTopAppend(LexItems(name), [Ch(':')], LIST);
    NoTopAppend(LexItems(name) + [Ch(':')], LexPadded(v), LIST);
    ShowSplit(LexItems(name), Ch(':'), LexPadded(v));
  }

  lemma {:induction false} BranchTexts()
    ensures IsWord("t extends a") && Trimmed("u extends b ? x") && IsPlain("u extends b ? x")
  {
  }

  lemma {:induction false} NestedCopied(x: char, y: char)
    requires 'a' <= x <= 'z' && 'a' <= y <= 'z'
    ensures NormaliseTypeText(NestedText(x, y)) == NestedText(x, y)
  {
    hide NormaliseTypeText, Ok, Print, Expect, LexPadded, ShowAll, ExpectPadded, PaddedOk, Unparted, NoTop, LexType, Plains, Word, IsWord, IsPlain, AllSpace;
    var t := NestedAs(x, y);
    BranchTexts();
    WordIsAtom("t extends a");
    WordShown("t extends a");
    PlainFlat("u extends b ? x");
    FalseLabel(x, y);
    OneSpacePads();
    AtomPadded("", Word("t extends a"), " ");
    BranchPart("", Word("t extends a"), " ");
    BranchPart(" ", Flat(Plains("u extends b ? x")), " ");
    BranchPart(" ", t.no.body, "");
    BranchesFree(t);
    BranchesShown(t, "" + "t extends a" + " ", " " + "u extends b ? x" + " ", " " + Print(t.no.body) + "");
    NormalisesText(t);
    BranchesText(x, y);
  }

  lemma {:induction false} BranchesText(x: char, y: char)
    ensures ("" + "t extends a" + " ") + "?" + (" " + "u extends b ? x" + " ") + ":" + (" " + ([x] + "|" + [y] + " " + ":" + " z") + "") == NestedText(x, y)
  {
    assert "" + "t extends a" + " " == "t extends a " && " " + "u extends b ? x" + " " == " u extends b ? x ";
  }

  lemma {:induction false} BranchesFree(t: Type)
    requires t.Conditional? && PaddedOk(t.check) && PaddedOk(t.yes) && PaddedOk(t.no) && Free(LexPadded(t.check), EVERYTHING)
    requires Free(LexType(t.yes.body), [LIST, COLON]) && NoTop(LexType(t.no.body), LIST)
    ensures Ok(t)
  {
    hide PaddedOk, LexPadded, NoTop, Unparted, LexType;
    assert LIST in EVERYTHING && QUESTION in EVERYTHING && LIST in [LIST, COLON] && COLON in [LIST, COLON];
    PadsFree(t.yes, LIST);
    PadsFree(t.yes, COLON);
    PadsFree(t.no, LIST);
    FreeUnparted(LexPadded(t.no));
    ConditionalUnparted(LexPadded(t.check), LexPadded(t.yes), LexPadded(t.no));
    BranchShape(t);
  }

  lemma {:induction false} BranchShape(t: Type)
    requires t.Conditional?
    ensures LexType(t) == LexPadded(t.check) + [Ch('?')] + (LexPadded(t.yes) + [Ch(':')] + LexPadded(t.no))
  {
    hide LexPadded;
  }

  lemma {:induction false} PadsFree(p: Padded, n: Needle)
    requires PaddedOk(p) && NoTop(LexType(p.body), n) && IsNeedle(n)
    ensures NoTop(LexPadded(p), n)
  {
    hide Ok, LexType, LexPadded, NoTop;
    PaddedFree(p, n);
  }

  lemma {:induction false} BranchesShown(t: Type, a: string, b: string, c: string)
    requires t.Conditional? && ShowAll(LexPadded(t.check)) == a && ShowAll(LexPadded(t.yes)) == b && ShowAll(LexPadded(t.no)) == c
    requires ExpectPadded(t.check) == a && ExpectPadded(t.yes) == b && ExpectPadded(t.no) == c
    ensures Print(t) == a + "?" + b + ":" + c && Expect(t) == a + "?" + b + ":" + c
  {
    hide LexPadded, ShowAll, ExpectPadded;
    ThreeShown(LexPadded(t.check), LexPadded(t.yes), LexPadded(t.no));
  }

  lemma {:induction false} NestedIs(x: char, y: char, branch: string)
    requires branch == [x] + "|" + [y] + " "
    ensures NestedText(x, y) == "t extends a ? u extends b ? x :" + (" " + (branch + ": z"))
  {
    assert "t extends a " + "?" + " u extends b ? x " + ":" == "t extends a ? u extends b ? x :";
    assert branch + ":" + " z" == branch + ": z";
  }

  lemma {:induction false} NestedInOrder()
    ensures NestedText('c', 'd') == "t extends a ? u extends b ? x : c|d : z"
  {
    hide NestedText;
    assert ['c'] + "|" + ['d'] + " " == "c|d ";
    NestedIs('c', 'd', "c|d ");
    assert " " + ("c|d " + ": z") == " c|d : z";
  }

  lemma {:induction false} NestedSwapped()
    ensures NestedText('d', 'c') == "t extends a ? u extends b ? x : d|c : z"
  {
    hide NestedText;
    assert ['d'] + "|" + ['c'] + " " == "d|c ";
    NestedIs('d', 'c', "d|c ");
    assert " " + ("d|c " + ": z") == " d|c : z";
  }

  /** The false branch of a conditional type in a true branch keeps its order. */
  lemma {:induction false} NestedBranchShows()
    ensures NormaliseTypeText("t extends a ? u extends b ? x : c|d : z") == "t extends a ? u extends b ? x : c|d : z"
    ensures NormaliseTypeText("t extends a ? u extends b ? x : d|c : z") == "t extends a ? u extends b ? x : d|c : z"
  {
    hide NormaliseTypeText, NestedText;
    NestedCopied('c', 'd');
    NestedCopied('d', 'c');
    NestedInOrder();
    NestedSwapped();
  }
}
