/** What tokens may stand for others without changing how a text is read, and which are white space. */
module TypeTokens {
  import opened Strings
  import opened TypeText
  import opened TypeLexis
  import opened TypeGrammar

  // ---------- Tokens that may stand for others ----------

  predicate SolidStart(xs: seq<Lex>) { xs != [] && SolidLex(xs[0]) }

  predicate SomeSolid(xs: seq<Lex>) { exists k :: 0 <= k < |xs| && SolidLex(xs[k]) }

  const EQUALS := Symbol({'='})

  predicate IsNeedle(n: Needle) { n in [LIST, COLON, Arrow, BAR, AMPERSAND, QUESTION, EQUALS] }

  /** `ys` reads at least as well as `xs`: no new needle at the top, solid ends stay solid. */
  ghost predicate Follows(xs: seq<Lex>, ys: seq<Lex>) {
    && (forall n :: IsNeedle(n) && NoTop(xs, n) ==> NoTop(ys, n))
    && (xs == [] ==> ys == [])
    && (SolidStart(xs) ==> SolidStart(ys))
    && (SolidEnd(xs) ==> SolidEnd(ys))
    && (SolidEnd(xs) && !EndsInEquals(xs) ==> !EndsInEquals(ys))
    && (SomeSolid(xs) <==> SomeSolid(ys))
  }

  lemma {:induction false} FollowsItself(xs: seq<Lex>)
    ensures Follows(xs, xs)
  {
  }

  lemma {:induction false} NoTopAppend(xs: seq<Lex>, ys: seq<Lex>, n: Needle)
    ensures NoTop(xs + ys, n) <==> NoTop(xs, n) && NoTop(ys, n)
  {
    var r := xs + ys;
    if NoTop(r, n) {
      forall k | 0 <= k < |xs| ensures !Hits(xs[k], n) { assert r[k] == xs[k]; }
      forall k | 0 <= k < |ys| ensures !Hits(ys[k], n) { assert r[|xs| + k] == ys[k]; }
    }
  }

  lemma {:induction false} SolidAppend(xs: seq<Lex>, ys: seq<Lex>)
    ensures SolidStart(xs + ys) <==> if xs != [] then SolidStart(xs) else SolidStart(ys)
    ensures SolidEnd(xs + ys) <==> if ys != [] then SolidEnd(ys) else SolidEnd(xs)
    ensures EndsInEquals(xs + ys) <==> if ys != [] then EndsInEquals(ys) else EndsInEquals(xs)
    ensures SomeSolid(xs + ys) <==> SomeSolid(xs) || SomeSolid(ys)
  {
    var r := xs + ys;
    if SomeSolid(xs) {
      var k :| 0 <= k < |xs| && SolidLex(xs[k]);
      assert SolidLex(r[k]);
    }
    if SomeSolid(ys) {
      var k :| 0 <= k < |ys| && SolidLex(ys[k]);
      assert SolidLex(r[|xs| + k]);
    }
    if SomeSolid(r) {
      var k :| 0 <= k < |r| && SolidLex(r[k]);
      assert SolidLex(if k < |xs| then xs[k] else ys[k - |xs|]);
    }
  }

  lemma {:induction false} FollowsAppend(xs: seq<Lex>, xs': seq<Lex>, ys: seq<Lex>, ys': seq<Lex>)
    requires Follows(xs, xs') && Follows(ys, ys')
    ensures Follows(xs + ys, xs' + ys')
  {
    hide NoTop, SolidStart, SolidEnd, EndsInEquals, SomeSolid, IsNeedle;
    forall n | IsNeedle(n) && NoTop(xs + ys, n) ensures NoTop(xs' + ys', n) {
      NoTopAppend(xs, ys, n);
      NoTopAppend(xs', ys', n);
    }
    SolidAppend(xs, ys);
    SolidAppend(xs', ys');
    if xs + ys == [] { assert xs == [] && ys == []; }
    if xs' == [] && ys' == [] { assert xs' + ys' == []; }
    SolidNotEmpty(xs, xs');
    SolidNotEmpty(ys, ys');
  }

  lemma {:induction false} SolidNotEmpty(ys: seq<Lex>, ys': seq<Lex>)
    ensures SolidStart(ys) ==> ys != []
    ensures SolidEnd(ys) ==> ys != []
    ensures SolidEnd(ys') ==> ys' != []
    ensures SolidStart(ys') ==> ys' != []
  {
  }

  // ---------- After a separator only white space ----------

  lemma {:induction false} UnpartedAppend(xs: seq<Lex>, ys: seq<Lex>)
    ensures Unparted(xs + ys) <==> Unparted(xs) && Unparted(ys) && (NoTop(xs, LIST) || !SomeSolid(ys))
  {
    hide Hits, SolidLex;
    var r := xs + ys;
    if Unparted(r) {
      forall i, j | 0 <= i < j < |xs| && Hits(xs[i], LIST) ensures !SolidLex(xs[j]) { assert r[i] == xs[i] && r[j] == xs[j]; }
      forall i, j | 0 <= i < j < |ys| && Hits(ys[i], LIST) ensures !SolidLex(ys[j]) {
        assert r[|xs| + i] == ys[i] && r[|xs| + j] == ys[j];
      }
      if !NoTop(xs, LIST) {
        var i :| 0 <= i < |xs| && Hits(xs[i], LIST);
        forall j | 0 <= j < |ys| ensures !SolidLex(ys[j]) { assert r[i] == xs[i] && r[|xs| + j] == ys[j]; }
      }
    }
  }

  lemma {:induction false} FreeUnparted(xs: seq<Lex>)
    requires NoTop(xs, LIST)
    ensures Unparted(xs)
  {
  }

  /** Before a solid token that is no separator no separator stands. */
  lemma {:induction false} UnpartedAround(xs: seq<Lex>, x: Lex, ys: seq<Lex>)
    requires SolidLex(x) && !Hits(x, LIST)
    ensures Unparted(xs + [x] + ys) <==> NoTop(xs, LIST) && Unparted(ys)
  {
    hide Unparted, NoTop, SomeSolid, Hits;
    UnpartedAppend(xs, [x] + ys);
    UnpartedAppend([x], ys);
    assert xs + [x] + ys == xs + ([x] + ys);
    SolidAppend([x], ys);
    OneSolid(x);
    OneFree(x);
    if NoTop(xs, LIST) { FreeUnparted(xs); }
  }

  lemma {:induction false} OneFree(x: Lex)
    requires !Hits(x, LIST)
    ensures NoTop([x], LIST) && Unparted([x])
  {
  }

  // ---------- Tokens and text ----------

  lemma {:induction false} LiteralLast(s: string, quote: char, i: nat)
    requires IsQuote(quote) && ClosesAt(s, quote, i)
    ensures s[|s| - 1] == quote
    decreases |s| - i
  {
    if s[i] == '\\' {
      LiteralLast(s, quote, i + 2);
    } else if s[i] != quote {
      LiteralLast(s, quote, i + 1);
    }
  }

  lemma {:induction false} LexEnds(x: Lex)
    requires Lexed(x)
    ensures Show(x) != ""
    ensures IsSpace(Show(x)[0]) <==> !SolidLex(x)
    ensures IsSpace(Show(x)[|Show(x)| - 1]) <==> !SolidLex(x)
  {
    match x
    case Str(s) => LiteralLast(s, s[0], 1);
    case _ =>
  }

  lemma {:induction false} ShownEnds(xs: seq<Lex>)
    requires LexedAll(xs)
    ensures ShowAll(xs) == "" <==> xs == []
    ensures xs != [] ==> (IsSpace(ShowAll(xs)[0]) <==> !SolidStart(xs))
    ensures xs != [] ==> (IsSpace(ShowAll(xs)[|ShowAll(xs)| - 1]) <==> !SolidEnd(xs))
  {
    hide Show, Lexed, IsSpace, SolidLex;
    if xs == [] {
    } else {
      LexEnds(xs[0]);
      ShownEnds(xs[1..]);
    }
  }

  lemma {:induction false} ShownSolid(xs: seq<Lex>)
    requires LexedAll(xs)
    ensures AllSpace(ShowAll(xs)) <==> !SomeSolid(xs)
  {
    hide Show, Lexed, IsSpace, SolidLex;
    if xs == [] {
    } else {
      LexEnds(xs[0]);
      ShownSolid(xs[1..]);
      assert xs == [xs[0]] + xs[1..];
      SolidAppend([xs[0]], xs[1..]);
      OneSolid(xs[0]);
      SpaceAppend(Show(xs[0]), ShowAll(xs[1..]));
      OneToken(xs[0]);
    }
  }

  lemma {:induction false} OneSolid(x: Lex)
    ensures SomeSolid([x]) <==> SolidLex(x)
  {
    assert [x][0] == x;
  }

  /** A token is one space, or its text is not blank. */
  lemma {:induction false} OneToken(x: Lex)
    requires Lexed(x)
    ensures AllSpace(Show(x)) <==> !SolidLex(x)
  {
    LexEnds(x);
    if !SolidLex(x) { assert Show(x) == [x.c]; }
  }

  lemma {:induction false} SpaceAppend(a: string, b: string)
    ensures AllSpace(a + b) <==> AllSpace(a) && AllSpace(b)
  {
    hide IsSpace;
    if AllSpace(a + b) {
      forall k | 0 <= k < |a| ensures IsSpace(a[k]) { assert (a + b)[k] == a[k]; }
      forall k | 0 <= k < |b| ensures IsSpace(b[k]) { assert (a + b)[|a| + k] == b[k]; }
    }
  }

  lemma {:induction false} FollowsText(xs: seq<Lex>, ys: seq<Lex>)
    requires LexedAll(xs) && LexedAll(ys) && Follows(xs, ys)
    ensures Trimmed(ShowAll(xs)) ==> Trimmed(ShowAll(ys))
    ensures StartsSolid(ShowAll(xs)) ==> StartsSolid(ShowAll(ys))
    ensures Trim(ShowAll(xs)) != "" ==> Trim(ShowAll(ys)) != ""
  {
    hide LexedAll, IsSpace, SomeSolid, NoTop, EndsInEquals, IsNeedle, Trim;
    ShownEnds(xs);
    ShownEnds(ys);
    ShownSolid(xs);
    ShownSolid(ys);
    TrimIsEmpty(ShowAll(xs));
    TrimIsEmpty(ShowAll(ys));
  }
}
