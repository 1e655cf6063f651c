/** The parts and separators of a normalised list can be read back from its tokens. */
module TypeLists {
  import opened Strings
  import opened TypeText
  import opened TypeLexis
  import opened TypeGrammar
  import opened TypeCanonicity
  import opened TypeTokens
  import opened TypeShapes
  import opened TypeSplits
  import opened TypeCanonShapes
  import opened TypeBreaks
  import opened TypeInjective

  // ---------- Lists of tokens ----------

  /** A bar first, and nothing that binds looser than a union. */
  predicate BarPart(xs: seq<Lex>) { xs != [] && xs[0] == Ch('|') && Quiet(xs) }

  /** What the parts of a normalised list are like. */
  ghost predicate PartsGood(parts: seq<seq<Lex>>, separators: seq<string>) {
    && |parts| == |separators| + 1 && LexedParts(parts) && NoTopEach(parts[..|parts| - 1], LIST)
    && SeparatorsOk(separators) && SolidParts(parts[1..])
    && SomeSolid(parts[|parts| - 1]) && Cut(parts[|parts| - 1]) && !BarPart(parts[|parts| - 1])
  }

  lemma {:induction false} GoodTail(parts: seq<seq<Lex>>, separators: seq<string>)
    requires PartsGood(parts, separators) && |parts| >= 2
    ensures |parts| == |separators| + 1 && PartsGood(parts[1..], separators[1..])
    ensures LexedAll(parts[0]) && NoTop(parts[0], LIST) && IsSeparator(separators[0])
  {
    hide LexedAll, NoTop, SomeSolid, Cut, BarPart, StartsSolid, IsSeparator, ShowAll;
    assert parts[..|parts| - 1][1..] == parts[1..][..|parts| - 2];
  }

  /** How many tokens of white space stand first. */
  function Lead(xs: seq<Lex>): (n: nat)
    ensures n <= |xs|
  {
    if xs == [] || SolidLex(xs[0]) then 0 else 1 + Lead(xs[1..])
  }

  lemma {:induction false} LeadIs(s: string, xs: seq<Lex>)
    requires AllSpace(s) && SolidStart(xs)
    ensures Lead(Chars(s) + xs) == |s|
  {
    if s == "" {
      assert Chars(s) + xs == xs;
    } else {
      assert IsSpace(s[0]);
      assert (Chars(s) + xs)[1..] == Chars(s[1..]) + xs;
      LeadIs(s[1..], xs);
    }
  }

  lemma {:induction false} LeadUnique(s: string, xs: seq<Lex>, s': string, xs': seq<Lex>)
    requires AllSpace(s) && SolidStart(xs) && AllSpace(s') && SolidStart(xs') && Chars(s) + xs == Chars(s') + xs'
    ensures s == s' && xs == xs'
  {
    hide Lead, SolidStart, AllSpace;
    LeadIs(s, xs);
    LeadIs(s', xs');
    var all := Chars(s) + xs;
    assert all[|s|..] == xs && all[|s|..] == xs';
    assert all[..|s|] == Chars(s) && all[..|s|] == Chars(s');
    CharsShown(s);
    CharsShown(s');
  }

  /** What stands behind the first part. */
  lemma {:induction false} JoinTail(parts: seq<seq<Lex>>, separators: seq<string>)
    requires PartsGood(parts, separators) && |parts| >= 2
    ensures var rest, s := JoinList(parts[1..], separators[1..]), separators[0];
      && SolidStart(rest) && AllSpace(s[1..]) && Hits(Ch(s[0]), LIST)
      && JoinList(parts, separators) == parts[0] + [Ch(s[0])] + (Chars(s[1..]) + rest)
  {
    hide NoTop, SomeSolid, Cut, BarPart, ShowAll, JoinList, LexedAll, AllSpace, SolidStart, LexedParts, NoTopEach, SolidParts, IsSeparator,
      SeparatorsOk;
    GoodTail(parts, separators);
    var rest, s := JoinList(parts[1..], separators[1..]), separators[0];
    JoinListLexed(parts[1..], separators[1..]);
    FirstSolid(parts[1..]);
    JoinStartsSolid(parts[1..], separators[1..]);
    JoinSolid(parts[1..], separators[1..]);
    StartIsSolid(rest);
    JoinTwo(parts, separators);
    SeparatorParts(s);
    assert parts[0] + ([Ch(s[0])] + Chars(s[1..])) + rest == parts[0] + [Ch(s[0])] + (Chars(s[1..]) + rest);
  }

  lemma {:induction false} FirstSolid(parts: seq<seq<Lex>>)
    requires parts != [] && SolidParts(parts)
    ensures StartsSolid(ShowAll(parts[0]))
  {
    hide ShowAll;
  }

  lemma {:induction false} StartIsSolid(xs: seq<Lex>)
    requires LexedAll(xs) && SomeSolid(xs) && StartsSolid(ShowAll(xs))
    ensures SolidStart(xs)
  {
    hide ShowAll, LexedAll;
    ShownEnds(xs);
  }

  lemma {:induction false} SeparatorParts(s: string)
    requires IsSeparator(s)
    ensures AllSpace(s[1..]) && Hits(Ch(s[0]), LIST) && Chars(s) == [Ch(s[0])] + Chars(s[1..])
  {
  }

  // ---------- A list is not one part ----------

  lemma {:induction false} FirstMark(xs: seq<Lex>, k: nat)
    requires k < |xs| && Hits(xs[k], LIST) && NoTop(xs[..k], LIST)
    ensures FirstAt(xs, LIST) == k
  {
    hide Hits, FirstAt;
    FirstAtIs(xs[..k], xs[k], xs[k + 1..], LIST);
    assert xs[..k] + [xs[k]] + xs[k + 1..] == xs;
  }

  lemma {:induction false} QuietTail(xs: seq<Lex>)
    requires xs != [] && xs[0] == Ch('|') && Quiet(xs[1..])
    ensures Quiet(xs)
  {
    hide Hits;
    assert xs == [xs[0]] + xs[1..];
    assert !Hits(xs[0], LIST) && !Hits(xs[0], COLON) && !Hits(xs[0], Arrow) by { BarHitsNone(); }
    OneNoTop(xs[0], LIST);
    OneNoTop(xs[0], COLON);
    OneNoTop(xs[0], Arrow);
    NoTopAppend([xs[0]], xs[1..], LIST);
    NoTopAppend([xs[0]], xs[1..], COLON);
    NoTopAppend([xs[0]], xs[1..], Arrow);
  }

  lemma {:induction false} BarHitsNone()
    ensures !Hits(Ch('|'), LIST) && !Hits(Ch('|'), COLON) && !Hits(Ch('|'), Arrow)
  {
  }

  /** What follows the first separator of a list is no union's rest. */
  lemma {:induction false} RestNotQuiet(parts: seq<seq<Lex>>, separators: seq<string>)
    requires PartsGood(parts, separators)
    ensures !BarPart(JoinList(parts, separators))
  {
    hide NoTop, SomeSolid, Cut, LexedAll, LexedParts, NoTopEach, SolidParts, Hits, StartsSolid;
    if |parts| >= 2 {
      JoinTail(parts, separators);
      var s := separators[0];
      OneNoTop(Ch(s[0]), LIST);
      NoTopAppend(parts[0], [Ch(s[0])], LIST);
      NoTopAppend(parts[0] + [Ch(s[0])], Chars(s[1..]) + JoinList(parts[1..], separators[1..]), LIST);
    }
  }

  lemma {:induction false} JoinNotBroken(parts: seq<seq<Lex>>, separators: seq<string>, k: nat)
    requires PartsGood(parts, separators) && |parts| >= 2
    ensures !BrokenAt(JoinList(parts, separators), k)
  {
    hide NoTop, SomeSolid, Cut, LexedAll, LexedParts, NoTopEach, SolidParts, Hits, Quiet, JoinList, FirstAt, PartsGood;
    GoodTail(parts, separators);
    var xs, s, rest := JoinList(parts, separators), separators[0], JoinList(parts[1..], separators[1..]);
    JoinTail(parts, separators);
    RestNotQuiet(parts[1..], separators[1..]);
    FirstAtIs(parts[0], Ch(s[0]), Chars(s[1..]) + rest, LIST);
    if k + 2 < |xs| && Hits(xs[k], LIST) && NoTop(xs[..k], LIST) {
      FirstMark(xs, k);
      assert xs[k + 1..] == Chars(s[1..]) + rest;
      AfterMarkIs(s[1..], rest, xs, k);
    }
  }

  lemma {:induction false} AfterMarkIs(space: string, rest: seq<Lex>, xs: seq<Lex>, k: nat)
    requires AllSpace(space) && SolidStart(rest) && !BarPart(rest) && k + 2 < |xs| && xs[k + 1..] == Chars(space) + rest
    ensures !BrokenAt(xs, k)
  {
    hide NoTop, Quiet, Hits;
    CharsShown(space);
    assert xs[k + 1] == (Chars(space) + rest)[0] && xs[k + 2] == (Chars(space) + rest)[1];
    if |space| == 0 {
      assert xs[k + 1] == rest[0];
      assert IsSpace(' ');
    } else if |space| == 1 {
      assert xs[k + 2] == rest[0];
      assert xs[k + 3..] == xs[k + 1..][2..] == rest[1..];
      if rest[0] == Ch('|') && Quiet(rest[1..]) { QuietTail(rest); }
    } else {
      assert xs[k + 2] == Ch(space[1]) && IsSpace(space[1]);
      assert !IsSpace('|');
    }
  }

  lemma {:induction false} OneOrMore(xs: seq<Lex>, parts: seq<seq<Lex>>, separators: seq<string>)
    requires Cut(xs) && PartsGood(parts, separators) && |parts| >= 2
    ensures xs != JoinList(parts, separators)
  {
    hide NoTop, SomeSolid, LexedAll, LexedParts, NoTopEach, SolidParts, BrokenAt, JoinList, Unparted;
    SeparatedJoin(parts, separators);
    if !Unparted(xs) {
      var k: nat :| BrokenAt(xs, k);
      JoinNotBroken(parts, separators, k);
    }
  }

  // ---------- The parts are read back ----------

  lemma {:induction false} PartsUnique(parts: seq<seq<Lex>>, separators: seq<string>, parts': seq<seq<Lex>>, separators': seq<string>)
    requires PartsGood(parts, separators) && PartsGood(parts', separators')
    requires JoinList(parts, separators) == JoinList(parts', separators')
    ensures parts == parts' && separators == separators'
    decreases |parts|
  {
    hide NoTop, SomeSolid, Cut, LexedAll, LexedParts, NoTopEach, SolidParts, Hits, JoinList, BarPart, SeparatorsOk, AllSpace, SolidStart;
    if |parts| == 1 && |parts'| == 1 {
      JoinOne(parts, separators);
      JoinOne(parts', separators');
    } else if |parts| == 1 {
      JoinOne(parts, separators);
      OneOrMore(parts[0], parts', separators');
    } else if |parts'| == 1 {
      JoinOne(parts', separators');
      OneOrMore(parts'[0], parts, separators);
    } else {
      PartsStep(parts, separators, parts', separators');
      GoodTail(parts, separators);
      GoodTail(parts', separators');
      PartsUnique(parts[1..], separators[1..], parts'[1..], separators'[1..]);
      assert parts == [parts[0]] + parts[1..] && parts' == [parts'[0]] + parts'[1..];
      assert separators == [separators[0]] + separators[1..] && separators' == [separators'[0]] + separators'[1..];
    }
  }

  lemma {:induction false} JoinOne(parts: seq<seq<Lex>>, separators: seq<string>)
    requires |parts| == 1 == |separators| + 1
    ensures JoinList(parts, separators) == parts[0] && separators == [] && parts == [parts[0]]
  {
  }

  lemma {:induction false} PartsStep(parts: seq<seq<Lex>>, separators: seq<string>, parts': seq<seq<Lex>>, separators': seq<string>)
    requires PartsGood(parts, separators) && PartsGood(parts', separators') && |parts| >= 2 && |parts'| >= 2
    requires JoinList(parts, separators) == JoinList(parts', separators')
    ensures parts[0] == parts'[0] && separators[0] == separators'[0]
    ensures JoinList(parts[1..], separators[1..]) == JoinList(parts'[1..], separators'[1..])
  {
    hide NoTop, Hits, JoinList, AllSpace, SolidStart, PartsGood;
    GoodTail(parts, separators);
    GoodTail(parts', separators');
    JoinTail(parts, separators);
    JoinTail(parts', separators');
    var s, s' := separators[0], separators'[0];
    var rest, rest' := JoinList(parts[1..], separators[1..]), JoinList(parts'[1..], separators'[1..]);
    CutUnique(parts[0], Ch(s[0]), Chars(s[1..]) + rest, parts'[0], Ch(s'[0]), Chars(s'[1..]) + rest', LIST);
    LeadUnique(s[1..], rest, s'[1..], rest');
    assert s == [s[0]] + s[1..] && s' == [s'[0]] + s'[1..];
  }
}
