/** How the scanners split a printed text: into union members, into the parts of a list. */
module TypeSplits {
  import opened Strings
  import opened TypeText
  import opened TypeLexis
  import opened TypeGrammar
  import opened TypeCanonicity
  import opened TypeTokens
  import opened TypeShapes

  // ---------- Members ----------

  function Bodies(ps: seq<Padded>): (r: seq<string>)
    ensures |r| == |ps|
  {
    if ps == [] then [] else [Print(ps[0].body)] + Bodies(ps[1..])
  }

  lemma {:induction false} PaddedTrim(p: Padded)
    requires Framed(p)
    ensures var text := ShowAll(LexPadded(p));
      Leading(text) == p.lead && Trim(text) == Print(p.body) != "" && Trailing(text) == p.trail
  {
    hide AllSpace, Leading, Trim, Trailing, LexPadded, LexedAll, LexType, ShowAll;
    PaddedShown(p);
    PadsRecovered(p.lead, Print(p.body), p.trail);
  }

  lemma {:induction false} MembersTrimmed(ps: seq<Padded>)
    requires AllFramed(ps)
    ensures DropEmpty(TrimAll(ShowEach(LexAll(ps)))) == Bodies(ps)
  {
    hide Framed, Trim, LexPadded, ShowAll;
    var texts := ShowEach(LexAll(ps));
    if ps == [] {
    } else {
      PaddedTrim(ps[0]);
      MembersTrimmed(ps[1..]);
      assert texts[0] == ShowAll(LexPadded(ps[0])) && texts[1..] == ShowEach(LexAll(ps[1..]));
      CleanCons(texts, Bodies(ps));
    }
  }

  lemma {:induction false} CleanStep(pieces: seq<string>)
    requires pieces != [] && pieces[0] != ""
    ensures DropEmpty(pieces) == [pieces[0]] + DropEmpty(pieces[1..])
  {
  }

  lemma {:induction false} CleanCons(raw: seq<string>, clean: seq<string>)
    requires raw != [] && clean != [] && Trim(raw[0]) == clean[0] != ""
    requires DropEmpty(TrimAll(raw[1..])) == clean[1..]
    ensures DropEmpty(TrimAll(raw)) == clean
  {
    hide Trim;
    CleanStep(TrimAll(raw));
    assert TrimAll(raw)[1..] == TrimAll(raw[1..]);
    assert clean == [clean[0]] + clean[1..];
  }

  lemma {:induction false} FramedParts(ps: seq<Padded>)
    requires AllFramed(ps)
    ensures LexedParts(LexAll(ps))
  {
    hide Framed, LexPadded, LexedAll;
    if ps == [] {
    } else {
      FramedLexed(ps[0]);
      FramedParts(ps[1..]);
      assert LexAll(ps)[1..] == LexAll(ps[1..]);
    }
  }

  /** Splitting finds the printed members, trimmed. */
  lemma {:induction false} MembersFound(ps: seq<Padded>, c: char)
    requires ps != [] && AllFramed(ps) && c in ['|', '&'] && NoTopEach(LexAll(ps), Symbol({c}))
    ensures Members(ShowAll(JoinLex(LexAll(ps), c)), Symbol({c})) == Bodies(ps)
  {
    hide AllFramed, LexAll, JoinLex, ShowAll, TrimAll, DropEmpty, RawPieces;
    FramedParts(ps);
    AtWhole(ShowAll(JoinLex(LexAll(ps), c)));
    PiecesFound(ShowAll(JoinLex(LexAll(ps), c)), 0, LexAll(ps), c);
    MembersTrimmed(ps);
  }

  /** A leading bar leaves an empty piece, which is dropped. */
  lemma {:induction false} BarredMembersFound(bar: string, ps: seq<Padded>)
    requires ps != [] && AllFramed(ps) && AllSpace(bar) && NoTopEach(LexAll(ps), BAR)
    ensures Members(ShowAll(JoinLex([Chars(bar)] + LexAll(ps), '|')), BAR) == Bodies(ps)
  {
    hide AllFramed, AllSpace, LexAll, JoinLex, ShowAll, RawPieces, NoTop, LexedAll;
    var parts := [Chars(bar)] + LexAll(ps);
    assert parts[1..] == LexAll(ps);
    FramedParts(ps);
    SpaceLexed(bar);
    SpaceNoTop(bar, BAR);
    AtWhole(ShowAll(JoinLex(parts, '|')));
    PiecesFound(ShowAll(JoinLex(parts, '|')), 0, parts, '|');
    CharsShown(bar);
    MembersTrimmed(ps);
    BlankFirst(bar, ShowEach(parts));
  }

  lemma {:induction false} BlankFirst(bar: string, pieces: seq<string>)
    requires AllSpace(bar) && pieces != [] && pieces[0] == bar
    ensures DropEmpty(TrimAll(pieces)) == DropEmpty(TrimAll(pieces[1..]))
  {
    hide Trim;
    AllSpacePads(bar);
    assert TrimAll(pieces) == [""] + TrimAll(pieces[1..]);
  }

  // ---------- Lists ----------

  /** After the separator's own white space the next part begins. */
  lemma {:induction false} SeparatorSpan(text: string, at: nat, separator: string, rest: string)
    requires IsSeparator(separator) && StartsSolid(rest)
    requires At(text, at, separator) && At(text, at + |separator|, rest)
    requires at + |separator| + |rest| == |text|
    ensures at < |text| && text[at] == separator[0] && SpaceEnd(text, at + 1) == at + |separator|
  {
    var end := at + |separator|;
    assert text[at] == text[at..end][0];
    forall k | at + 1 <= k < end ensures IsSpace(text[k]) {
      assert text[k] == text[at..end][k - at] == separator[1..][k - at - 1];
    }
    if rest != "" {
      assert text[end] == text[end..end + |rest|][0];
    }
    SpaceEndAt(text, at + 1, end);
  }

  lemma {:induction false} JoinListShown(parts: seq<seq<Lex>>, separators: seq<string>)
    requires |parts| > 1 && separators != []
    ensures ShowAll(JoinList(parts, separators))
         == ShowAll(parts[0]) + (separators[0] + ShowAll(JoinList(parts[1..], separators[1..])))
  {
    var rest := JoinList(parts[1..], separators[1..]);
    assert JoinList(parts, separators) == parts[0] + (Chars(separators[0]) + rest);
    ShowAppend(parts[0], Chars(separators[0]) + rest);
    ShowAppend(Chars(separators[0]), rest);
    CharsShown(separators[0]);
  }

  lemma {:induction false} JoinStartsSolid(parts: seq<seq<Lex>>, separators: seq<string>)
    requires parts != [] && |parts| == |separators| + 1
    requires StartsSolid(ShowAll(parts[0])) && SeparatorsOk(separators)
    ensures StartsSolid(ShowAll(JoinList(parts, separators)))
  {
    if |parts| > 1 {
      JoinListShown(parts, separators);
      assert !IsSpace(separators[0][0]);
    }
  }

  /** The first part of a list with its separator. */
  lemma {:induction false} FirstPart(text: string, i: nat, xs: seq<Lex>, separator: string, rest: string)
    requires LexedAll(xs) && NoTop(xs, LIST) && IsSeparator(separator) && StartsSolid(rest)
    requires At(text, i, ShowAll(xs)) && At(text, i + |ShowAll(xs)|, separator)
    requires At(text, i + |ShowAll(xs)| + |separator|, rest)
    requires i + |ShowAll(xs)| + |separator| + |rest| == |text|
    ensures var at := i + |ShowAll(xs)|;
      Find(text, LIST, i, 0) == at < |text| && SpaceEnd(text, at + 1) == at + |separator|
  {
    var at := i + |ShowAll(xs)|;
    SeparatorSpan(text, at, separator, rest);
    assert At(text, at, [separator[0]]) by { assert text[at..at + 1] == [text[at]]; }
    FindHit(text, i, xs, Ch(separator[0]), LIST);
  }

  lemma {:induction false} ListStep(text: string, i: nat, at: nat, end: nat, part: string, separator: string)
    requires i <= at < |text| && Find(text, LIST, i, 0) == at && SpaceEnd(text, at + 1) == end
    requires text[i..at] == part && text[at..end] == separator
    ensures at < end <= |text|
    ensures var tail := ListFrom(text, end);
      ListFrom(text, i) == Listing([part] + tail.parts, [separator] + tail.separators)
  {
  }

  lemma {:induction false} LastPart(text: string, i: nat, xs: seq<Lex>)
    requires LexedAll(xs) && NoTop(xs, LIST) && At(text, i, ShowAll(xs)) && i + |ShowAll(xs)| == |text|
    ensures ListFrom(text, i) == Listing([ShowAll(xs)], [])
  {
    FindSkips(text, i, xs, LIST, 0);
    assert text[i..] == text[i..i + |ShowAll(xs)|];
  }

  lemma {:induction false} ListFoundStep(
    text: string, i: nat, xs: seq<Lex>, first: string, separator: string, rest: string)
    requires LexedAll(xs) && NoTop(xs, LIST) && IsSeparator(separator) && StartsSolid(rest)
    requires first == ShowAll(xs) && At(text, i, first + (separator + rest))
    requires i + |first| + |separator| + |rest| == |text|
    ensures var end := i + |first| + |separator|;
      && At(text, end, rest)
      && ListFrom(text, i) == Listing([first] + ListFrom(text, end).parts, [separator] + ListFrom(text, end).separators)
  {
    hide ListFrom, Find, LexedAll, NoTop, ShowAll, SpaceEnd, IsSeparator, StartsSolid;
    AtSplit(text, i, first, separator + rest);
    AtSplit(text, i + |first|, separator, rest);
    FirstPart(text, i, xs, separator, rest);
    ListStep(text, i, i + |first|, i + |first| + |separator|, first, separator);
  }

  lemma {:induction false} ListingCons(parts: seq<seq<Lex>>, separators: seq<string>)
    requires parts != [] && separators != []
    ensures Listing([ShowAll(parts[0])] + ShowEach(parts[1..]), [separators[0]] + separators[1..])
         == Listing(ShowEach(parts), separators)
  {
  }

  lemma {:induction false} ListFound(text: string, i: nat, parts: seq<seq<Lex>>, separators: seq<string>)
    requires |parts| == |separators| + 1 && LexedParts(parts) && NoTopEach(parts, LIST)
    requires SeparatorsOk(separators) && SolidParts(parts[1..])
    requires At(text, i, ShowAll(JoinList(parts, separators)))
    requires i + |ShowAll(JoinList(parts, separators))| == |text|
    ensures ListFrom(text, i) == Listing(ShowEach(parts), separators)
    decreases |parts|
  {
    hide ListFrom, At;
    if |parts| == 1 {
      LastPart(text, i, parts[0]);
      assert ShowEach(parts) == [ShowAll(parts[0])];
    } else {
      var end := i + |ShowAll(parts[0])| + |separators[0]|;
      JoinListShown(parts, separators);
      JoinStartsSolid(parts[1..], separators[1..]);
      ListFoundStep(text, i, parts[0], ShowAll(parts[0]), separators[0],
                    ShowAll(JoinList(parts[1..], separators[1..])));
      ListFound(text, end, parts[1..], separators[1..]);
      ListingCons(parts, separators);
    }
  }

  // ---------- A separator at the end ----------

  /** Where tokens that hold one are cut: before the separator, the separator, white space. */
  lemma {:induction false} MarkSplit(xs: seq<Lex>) returns (before: seq<Lex>, mark: char, after: string)
    requires LexedAll(xs) && Unparted(xs) && !NoTop(xs, LIST)
    ensures xs == before + ([Ch(mark)] + Chars(after)) && IsMark(mark) && AllSpace(after)
    ensures LexedAll(before) && NoTop(before, LIST)
  {
    hide LexedAll, NoTop, SomeSolid, AllSpace, ShowAll, Show, Unparted, Lexed;
    var k := FirstHit(xs, LIST);
    SplitHere(xs, k);
    IsMarkToken(xs[k]);
    AfterMark(xs, k);
    before, mark := xs[..k], xs[k].c;
    after := Spaces(xs[k + 1..]);
    CutAt(xs, k);
  }

  lemma {:induction false} CutAt(xs: seq<Lex>, k: nat)
    requires k < |xs|
    ensures xs == xs[..k] + ([xs[k]] + xs[k + 1..])
  {
  }

  lemma {:induction false} IsMarkToken(x: Lex)
    requires Hits(x, LIST)
    ensures x.Ch? && IsMark(x.c)
  {
  }

  lemma {:induction false} AfterMark(xs: seq<Lex>, k: nat)
    requires Unparted(xs) && k < |xs| && Hits(xs[k], LIST)
    ensures !SomeSolid(xs[k + 1..])
  {
    hide SolidLex, Hits;
    var rest := xs[k + 1..];
    forall j | 0 <= j < |rest| ensures !SolidLex(rest[j]) { assert rest[j] == xs[k + 1 + j]; }
  }

  /** Tokens that are all white space are the characters of their text. */
  lemma {:induction false} Spaces(xs: seq<Lex>) returns (s: string)
    requires !SomeSolid(xs)
    ensures AllSpace(s) && Chars(s) == xs
  {
    if xs == [] {
      s := "";
    } else {
      assert !SolidLex(xs[0]);
      forall k | 0 <= k < |xs[1..]| ensures !SolidLex(xs[1..][k]) { assert xs[1..][k] == xs[k + 1]; }
      var rest := Spaces(xs[1..]);
      s := [xs[0].c] + rest;
      assert s[1..] == rest;
    }
  }

  lemma {:induction false} MarkShown(xs: seq<Lex>, before: seq<Lex>, mark: char, after: string)
    requires xs == before + ([Ch(mark)] + Chars(after))
    ensures ShowAll(xs) == ShowAll(before) + ([mark] + after)
  {
    hide ShowAll;
    CharsShown([mark] + after);
    assert ([mark] + after)[1..] == after && Chars([mark] + after) == [Ch(mark)] + Chars(after);
    ShowAppend(before, Chars([mark] + after));
  }

  /** A last part with a separator at its end, before it is glued. */
  lemma {:induction false} MarkedPart(text: string, i: nat, before: seq<Lex>, mark: string)
    requires LexedAll(before) && NoTop(before, LIST) && IsSeparator(mark)
    requires At(text, i, ShowAll(before) + mark) && i + |ShowAll(before)| + |mark| == |text|
    ensures ListFrom(text, i) == Listing([ShowAll(before), ""], [mark])
  {
    hide ListFrom, LexedAll, NoTop, ShowAll, IsSeparator;
    assert mark + "" == mark;
    ListFoundStep(text, i, before, ShowAll(before), mark, "");
    NothingLeft(text);
    assert [ShowAll(before)] + [""] == [ShowAll(before), ""] && [mark] + [] == [mark];
  }

  lemma {:induction false} NothingLeft(text: string)
    ensures ListFrom(text, |text|) == Listing([""], [])
  {
    assert text[|text|..] == "";
  }

  /** The listing before its blank last part is glued. */
  function Unglued(texts: seq<string>, before: string, mark: string, separators: seq<string>): Listing
    requires texts != []
  {
    Listing(texts[..|texts| - 1] + [before, ""], separators + [mark])
  }

  lemma {:induction false} MarkedList(
    text: string, i: nat, parts: seq<seq<Lex>>, separators: seq<string>, before: seq<Lex>, mark: string)
    requires |parts| == |separators| + 1 && LexedParts(parts) && NoTopEach(parts[..|parts| - 1], LIST)
    requires SeparatorsOk(separators) && SolidParts(parts[1..])
    requires LexedAll(before) && NoTop(before, LIST) && IsSeparator(mark)
    requires ShowAll(parts[|parts| - 1]) == ShowAll(before) + mark
    requires At(text, i, ShowAll(JoinList(parts, separators)))
    requires i + |ShowAll(JoinList(parts, separators))| == |text|
    ensures ListFrom(text, i) == Unglued(ShowEach(parts), ShowAll(before), mark, separators)
    decreases |parts|
  {
    hide ListFrom, At, IsSeparator;
    if |parts| == 1 {
      MarkedPart(text, i, before, mark);
      OneUnglued(ShowAll(parts[0]), ShowAll(before), mark);
      assert ShowEach(parts) == [ShowAll(parts[0])] && separators == [];
    } else {
      var end := i + |ShowAll(parts[0])| + |separators[0]|;
      JoinListShown(parts, separators);
      JoinStartsSolid(parts[1..], separators[1..]);
      assert parts[..|parts| - 1][1..] == parts[1..][..|parts| - 2];
      ListFoundStep(text, i, parts[0], ShowAll(parts[0]), separators[0],
                    ShowAll(JoinList(parts[1..], separators[1..])));
      MarkedList(text, end, parts[1..], separators[1..], before, mark);
      UngluedCons(ShowEach(parts), ShowAll(before), mark, separators);
      assert ShowEach(parts)[1..] == ShowEach(parts[1..]);
    }
  }

  lemma {:induction false} OneUnglued(text: string, before: string, mark: string)
    ensures Unglued([text], before, mark, []) == Listing([before, ""], [mark])
  {
  }

  lemma {:induction false} UngluedCons(texts: seq<string>, before: string, mark: string, separators: seq<string>)
    requires |texts| == |separators| + 1 >= 2
    ensures var rest := Unglued(texts[1..], before, mark, separators[1..]);
      Unglued(texts, before, mark, separators) == Listing([texts[0]] + rest.parts, [separators[0]] + rest.separators)
  {
    assert texts[..|texts| - 1] == [texts[0]] + texts[1..][..|texts| - 2];
    assert separators == [separators[0]] + separators[1..];
  }

  lemma {:induction false} NothingIsBlank()
    ensures Trim("") == ""
  {
    AllSpacePads("");
  }

  /** A separator at the end stays, with the white space around it, glued to the last part. */
  lemma {:induction false} GlueMark(texts: seq<string>, before: string, mark: string, separators: seq<string>)
    requires |texts| == |separators| + 1 && texts[|texts| - 1] == before + mark && mark != ""
    requires forall k :: 0 <= k < |separators| ==> separators[k] != ""
    ensures Glue(Unglued(texts, before, mark, separators)) == Listing(texts, separators)
  {
    hide Trim;
    NothingIsBlank();
    var n := |texts| - 1;
    var list := Unglued(texts, before, mark, separators);
    assert list.parts[..n] == texts[..n] && list.parts[n] == before && list.parts[n + 1] == "";
    assert list.separators[n] == mark && list.separators[..n] == separators;
    assert before + mark + "" == texts[n];
  }

  lemma {:induction false} SeparatorsSolid(separators: seq<string>)
    requires SeparatorsOk(separators)
    ensures forall k :: 0 <= k < |separators| ==> separators[k] != ""
  {
    hide AllSpace;
    if separators == [] {
    } else {
      SeparatorsSolid(separators[1..]);
    }
  }

  /** A printed list is read as its parts and its separators; one after the last part belongs to that part. */
  lemma {:induction false} ListRead(parts: seq<seq<Lex>>, separators: seq<string>)
    requires |parts| == |separators| + 1 && LexedParts(parts) && NoTopEach(parts[..|parts| - 1], LIST)
    requires Unparted(parts[|parts| - 1]) && SeparatorsOk(separators) && SolidParts(parts[1..])
    requires |parts| > 1 ==> Trim(ShowAll(parts[|parts| - 1])) != ""
    ensures SplitListing(ShowAll(JoinList(parts, separators))) == Listing(ShowEach(parts), separators)
  {
    hide LexedParts, NoTopEach, SolidParts, SeparatorsOk, Trim, ShowAll, JoinList, ListFrom, ShowEach, NoTop,
      Unparted, Unglued, IsSeparator;
    var text, last := ShowAll(JoinList(parts, separators)), parts[|parts| - 1];
    AtWhole(text);
    SeparatorsSolid(separators);
    LastLexed(parts);
    LastShown(parts);
    if NoTop(last, LIST) {
      LastFree(parts);
      ListFound(text, 0, parts, separators);
    } else {
      var before, mark, after := MarkSplit(last);
      MarkShown(last, before, mark, after);
      MarkIsSeparator(mark, after);
      MarkedList(text, 0, parts, separators, before, [mark] + after);
      GlueMark(ShowEach(parts), ShowAll(before), [mark] + after, separators);
    }
  }

  lemma {:induction false} MarkIsSeparator(mark: char, after: string)
    requires IsMark(mark) && AllSpace(after)
    ensures IsSeparator([mark] + after)
  {
    assert ([mark] + after)[1..] == after;
  }

  lemma {:induction false} LastLexed(parts: seq<seq<Lex>>)
    requires parts != [] && LexedParts(parts)
    ensures LexedAll(parts[|parts| - 1])
  {
    hide LexedAll;
    if |parts| == 1 {
    } else {
      LastLexed(parts[1..]);
    }
  }

  lemma {:induction false} LastShown(parts: seq<seq<Lex>>)
    requires parts != []
    ensures ShowEach(parts)[|parts| - 1] == ShowAll(parts[|parts| - 1])
  {
    hide ShowAll;
    if |parts| == 1 {
    } else {
      LastShown(parts[1..]);
    }
  }

  lemma {:induction false} LastFree(parts: seq<seq<Lex>>)
    requires parts != [] && NoTopEach(parts[..|parts| - 1], LIST) && NoTop(parts[|parts| - 1], LIST)
    ensures NoTopEach(parts, LIST)
  {
    hide NoTop;
    if |parts| == 1 {
      assert parts[1..] == [];
    } else {
      assert parts[..|parts| - 1][1..] == parts[1..][..|parts| - 2];
      LastFree(parts[1..]);
    }
  }

  /** Without anything solid after a separator the text is one part. */
  lemma {:induction false} NotAList(xs: seq<Lex>)
    requires LexedAll(xs) && Unparted(xs)
    ensures Unlisted(ShowAll(xs))
  {
    hide LexedAll, Unparted, ShowAll, SplitListing;
    assert [xs][1..] == [] && [xs][..0] == [] && JoinList([xs], []) == xs;
    ListRead([xs], []);
  }

  lemma {:induction false} PartsShown(ps: seq<Padded>)
    requires PartsOk(ps)
    ensures ShowEach(LexAll(ps)) == Bodies(ps)
    ensures forall k :: 0 <= k < |ps| ==> ShowAll(LexAll(ps)[k]) == Bodies(ps)[k] == Print(ps[k].body)
  {
    if ps == [] {
    } else {
      PartsShown(ps[1..]);
      assert LexPadded(ps[0]) == LexType(ps[0].body);
      assert ShowEach(LexAll(ps)) == [ShowAll(LexPadded(ps[0]))] + ShowEach(LexAll(ps[1..]));
    }
  }

  // ---------- One reading per precedence level ----------

  predicate Unlisted(text: string) { |SplitListing(text).parts| == 1 }

  /** Nothing that binds looser than `|` stands at the top level. */
  predicate Tight(text: string) {
    && Unlisted(text) && ConditionalParts(text) == None
    && TopIndex(text, COLON) == -1 && TopIndex(text, Arrow) == -1
  }

  lemma {:induction false} ReadFlat(text: string)
    requires Tight(text) && |Members(text, BAR)| <= 1 && |Members(text, AMPERSAND)| <= 1
    ensures Normalise(text) == DescendFrom(Deeper(|text|), text, 0)
  {
  }

  lemma {:induction false} ReadIntersection(text: string)
    requires Tight(text) && |Members(text, BAR)| <= 1 && |Members(text, AMPERSAND)| > 1
    ensures forall p :: p in Members(text, AMPERSAND) ==> |p| < |text|
    ensures Normalise(text) == Join(NormaliseAll(Members(text, AMPERSAND), |text|), " & ")
  {
    MembersShorter(text, AMPERSAND);
  }

  lemma {:induction false} ReadUnion(text: string)
    requires Tight(text) && |Members(text, BAR)| > 1
    ensures forall p :: p in Members(text, BAR) ==> |p| < |text|
    ensures Normalise(text) == Join(Sort(NormaliseAll(Members(text, BAR), |text|)), " | ")
  {
    MembersShorter(text, BAR);
  }

  lemma {:induction false} ReadFunction(text: string, arrow: nat)
    requires Unlisted(text) && ConditionalParts(text) == None
    requires TopIndex(text, COLON) == -1 && TopIndex(text, Arrow) == arrow
    ensures Normalise(text) == DescendFrom(Deeper(|text|), text[..arrow], 0) + "=>" + Keep(text[arrow + 2..])
  {
  }

  lemma {:induction false} ReadLabelled(text: string, colon: nat)
    requires Unlisted(text) && ConditionalParts(text) == None && TopIndex(text, COLON) == colon
    ensures Normalise(text) == DescendFrom(Deeper(|text|), text[..colon + 1], 0) + Keep(text[colon + 1..])
  {
  }

  lemma {:induction false} ReadConditional(text: string, check: string, yes: string, no: string)
    requires Unlisted(text) && ConditionalParts(text) == Some((check, yes, no))
    ensures Normalise(text) == Keep(check) + "?" + Keep(yes) + ":" + Keep(no)
  {
  }

  lemma {:induction false} ReadList(text: string)
    requires |SplitListing(text).parts| > 1
    ensures var r := SplitListing(text);
      && (forall p :: p in r.parts ==> |p| < |text|)
      && Normalise(text) == Rejoin(NormaliseAll(r.parts, |text|), r.separators)
  {
    SplitListingRejoins(text);
  }

  lemma {:induction false} TightShown(xs: seq<Lex>)
    requires LexedAll(xs) && Unparted(xs) && NoTop(xs, COLON) && NoTop(xs, Arrow)
    ensures Tight(ShowAll(xs))
  {
    hide LexedAll, NoTop, ShowAll, Unlisted, ConditionalParts, TopIndex, Unparted;
    NotAList(xs);
    NotConditional(xs);
    FindNone(xs, COLON);
    FindNone(xs, Arrow);
  }

  lemma {:induction false} OneMember(xs: seq<Lex>, needle: Needle)
    requires LexedAll(xs) && NoTop(xs, needle) && needle in [BAR, AMPERSAND]
    ensures |Members(ShowAll(xs), needle)| <= 1
  {
    hide LexedAll, NoTop, ShowAll;
    FindNone(xs, needle);
  }
}
