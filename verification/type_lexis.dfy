/** Well-bracketed text as a sequence of tokens, and what the scanners of TypeText see in it. */
module TypeLexis {
  import opened Strings
  import opened TypeText

  /** A character that is none of the others, an arrow, a closed quotation, a bracketed region. */
  datatype Lex =
    | Ch(c: char)
    | Fat
    | Str(s: string)
    | Group(open: char, inner: seq<Lex>)

  function Show(x: Lex): (s: string)
    decreases x, 1
  {
    match x
    case Ch(c) => [c]
    case Fat => "=>"
    case Str(s) => s
    case Group(open, inner) => [open] + ShowAll(inner) + [CloserOf(open)]
  }

  function ShowAll(xs: seq<Lex>): string
    decreases xs, 0
  {
    if xs == [] then "" else Show(xs[0]) + ShowAll(xs[1..])
  }

  /** `s` from offset `i` on runs to the closing quote, which is its last character. */
  predicate ClosesAt(s: string, quote: char, i: nat)
    decreases |s| - i
  {
    && i < |s|
    && (if s[i] == '\\' then ClosesAt(s, quote, i + 2)
        else if s[i] == quote then i + 1 == |s|
        else ClosesAt(s, quote, i + 1))
  }

  predicate IsLiteral(s: string) {
    s != "" && IsQuote(s[0]) && ClosesAt(s, s[0], 1)
  }

  /** A region closed by `>` must not end in `=`: the two characters would read as an arrow. */
  predicate Lexed(x: Lex)
    decreases x, 1
  {
    match x
    case Ch(c) => !IsQuote(c) && !IsOpener(c) && !IsCloser(c)
    case Fat => true
    case Str(s) => IsLiteral(s)
    case Group(open, inner) =>
      IsOpener(open) && LexedAll(inner) && (open == '<' ==> !EndsInEquals(inner))
  }

  predicate LexedAll(xs: seq<Lex>)
    decreases xs, 0
  {
    xs == [] || (Lexed(xs[0]) && LexedAll(xs[1..]))
  }

  predicate EndsInEquals(xs: seq<Lex>) { xs != [] && xs[|xs| - 1] == Ch('=') }

  predicate Hits(x: Lex, needle: Needle) {
    (x.Fat? && needle.Arrow?) || (x.Ch? && needle.Symbol? && x.c in needle.chars)
  }

  /** The needle does not stand at the top level of the text. */
  predicate NoTop(xs: seq<Lex>, needle: Needle) {
    forall k :: 0 <= k < |xs| ==> !Hits(xs[k], needle)
  }

  function Chars(s: string): (xs: seq<Lex>)
    ensures |xs| == |s|
  {
    if s == "" then [] else [Ch(s[0])] + Chars(s[1..])
  }

  // ---------- Algebra of Show ----------

  lemma {:induction false} ShowStep(xs: seq<Lex>)
    requires xs != []
    ensures ShowAll(xs) == Show(xs[0]) + ShowAll(xs[1..])
  {
    hide Show;
  }

  lemma {:induction false} ShowAppend(xs: seq<Lex>, ys: seq<Lex>)
    ensures ShowAll(xs + ys) == ShowAll(xs) + ShowAll(ys)
  {
    hide Show, ShowAll;
    if xs == [] {
      assert xs + ys == ys && ShowAll([]) == "" by { ShowNothing(); }
    } else {
      ShowAppend(xs[1..], ys);
      ShowStep(xs);
      ShowStep(xs + ys);
      assert (xs + ys)[1..] == xs[1..] + ys && (xs + ys)[0] == xs[0];
      Associative(Show(xs[0]), ShowAll(xs[1..]), ShowAll(ys));
    }
  }

  lemma {:induction false} ShowNothing()
    ensures ShowAll([]) == ""
  {
  }

  lemma {:induction false} LexedAppend(xs: seq<Lex>, ys: seq<Lex>)
    ensures LexedAll(xs + ys) <==> LexedAll(xs) && LexedAll(ys)
  {
    if xs == [] {
      assert xs + ys == ys;
    } else {
      LexedAppend(xs[1..], ys);
      assert (xs + ys)[1..] == xs[1..] + ys;
    }
  }

  lemma {:induction false} CharsAt(s: string)
    ensures forall k :: 0 <= k < |s| ==> Chars(s)[k] == Ch(s[k])
  {
    if s == "" {
    } else {
      CharsAt(s[1..]);
    }
  }

  lemma {:induction false} CharsPrinted(s: string)
    ensures ShowAll(Chars(s)) == s
  {
    hide ShowAll;
    if s == "" {
      ShowNothing();
    } else {
      CharsPrinted(s[1..]);
      ShowStep(Chars(s));
      assert Chars(s)[1..] == Chars(s[1..]) && s == [s[0]] + s[1..];
    }
  }

  lemma {:induction false} CharsShown(s: string)
    ensures ShowAll(Chars(s)) == s
    ensures forall k :: 0 <= k < |s| ==> Chars(s)[k] == Ch(s[k])
  {
    CharsAt(s);
    CharsPrinted(s);
  }

  lemma {:induction false} CharsLexed(s: string)
    requires forall k :: 0 <= k < |s| ==> Lexed(Ch(s[k]))
    ensures LexedAll(Chars(s))
  {
    if s == "" {
    } else {
      CharsLexed(s[1..]);
    }
  }

  lemma {:induction false} ShowFirst(x: Lex)
    requires Lexed(x)
    ensures Show(x) != "" && Show(x)[0] != '>'
  {
  }

  // ---------- Text at an offset ----------

  predicate At(text: string, i: nat, s: string) {
    i + |s| <= |text| && text[i..i + |s|] == s
  }

  lemma {:induction false} AtSplit(text: string, i: nat, a: string, b: string)
    requires At(text, i, a + b)
    ensures At(text, i, a) && At(text, i + |a|, b)
  {
    var t := text[i..i + |a + b|];
    assert t[..|a|] == a && t[|a|..] == b;
  }

  lemma {:induction false} AtCons(text: string, i: nat, xs: seq<Lex>)
    requires xs != [] && At(text, i, ShowAll(xs))
    ensures At(text, i, Show(xs[0])) && At(text, i + |Show(xs[0])|, ShowAll(xs[1..]))
  {
    AtSplit(text, i, Show(xs[0]), ShowAll(xs[1..]));
  }

  lemma {:induction false} AtGroup(text: string, i: nat, open: char, inner: seq<Lex>)
    requires At(text, i, Show(Group(open, inner)))
    ensures var close := i + 1 + |ShowAll(inner)|;
      && close < |text| && text[i] == open && text[close] == CloserOf(open)
      && At(text, i + 1, ShowAll(inner)) && close + 1 == i + |Show(Group(open, inner))|
  {
    var body := ShowAll(inner);
    assert Show(Group(open, inner)) == [open] + (body + [CloserOf(open)]);
    AtSplit(text, i, [open], body + [CloserOf(open)]);
    AtSplit(text, i + 1, body, [CloserOf(open)]);
  }

  lemma {:induction false} AtWhole(text: string)
    ensures At(text, 0, text)
  {
  }

  /** The character after the tokens does not turn a final `=` into an arrow. */
  predicate SafeEnd(xs: seq<Lex>, text: string, end: nat) {
    EndsInEquals(xs) ==> end >= |text| || text[end] != '>'
  }

  lemma {:induction false} NotArrow(text: string, i: nat, xs: seq<Lex>)
    requires xs != [] && xs[0].Ch? && LexedAll(xs) && At(text, i, ShowAll(xs))
    requires SafeEnd(xs, text, i + |ShowAll(xs)|)
    ensures i < |text| && text[i] == xs[0].c && !ArrowAt(text, i)
  {
    AtCons(text, i, xs);
    assert text[i..i + 1] == [xs[0].c];
    assert text[i..i + 1][0] == text[i];
    if |xs| > 1 {
      AtCons(text, i + 1, xs[1..]);
      ShowFirst(xs[1]);
      var s := Show(xs[1]);
      assert text[i + 1..i + 1 + |s|][0] == s[0];
    } else {
      assert xs[1..] == [];
    }
  }

  lemma {:induction false} SafeTail(text: string, i: nat, xs: seq<Lex>)
    requires xs != [] && SafeEnd(xs, text, i + |ShowAll(xs)|)
    ensures SafeEnd(xs[1..], text, i + |Show(xs[0])| + |ShowAll(xs[1..])|)
  {
  }

  lemma {:induction false} AtTail(text: string, i: nat, xs: seq<Lex>)
    requires xs != [] && LexedAll(xs) && At(text, i, ShowAll(xs))
    requires SafeEnd(xs, text, i + |ShowAll(xs)|)
    ensures At(text, i, Show(xs[0])) && (xs[0].Ch? ==> !ArrowAt(text, i))
    ensures var next := i + |Show(xs[0])|;
      && At(text, next, ShowAll(xs[1..])) && SafeEnd(xs[1..], text, next + |ShowAll(xs[1..])|)
      && next + |ShowAll(xs[1..])| == i + |ShowAll(xs)|
  {
    AtCons(text, i, xs);
    if xs[0].Ch? { NotArrow(text, i, xs); }
    SafeTail(text, i, xs);
  }

  // ---------- Scanners pass over tokens ----------

  lemma {:induction false} LiteralEnd(text: string, i: nat, s: string, quote: char, k: nat)
    requires At(text, i, s) && ClosesAt(s, quote, k)
    ensures StringEndFrom(text, quote, i + k) == i + |s|
    decreases |s| - k
  {
    assert text[i + k] == text[i..i + |s|][k];
    if s[k] == '\\' {
      LiteralEnd(text, i, s, quote, k + 2);
    } else if s[k] != quote {
      LiteralEnd(text, i, s, quote, k + 1);
    }
  }

  lemma {:induction false} LiteralSpan(text: string, i: nat, s: string)
    requires At(text, i, s) && IsLiteral(s)
    ensures i < |text| && text[i] == s[0] && StringEnd(text, i) == i + |s|
  {
    assert text[i] == text[i..i + |s|][0];
    LiteralEnd(text, i, s, s[0], 1);
  }

  lemma {:induction false} CharSpan(text: string, i: nat, c: char)
    requires At(text, i, [c])
    ensures i < |text| && text[i] == c
  {
    assert text[i..i + 1][0] == c;
  }

  lemma {:induction false} ArrowSpan(text: string, i: nat)
    requires At(text, i, "=>")
    ensures ArrowAt(text, i) && !IsQuote(text[i])
  {
    assert text[i..i + 2][0] == '=' && text[i..i + 2][1] == '>';
  }

  /** A scan for the needle reads past tokens that are inside a bracket or do not hit. */
  lemma {:induction false} FindSkips(text: string, i: nat, xs: seq<Lex>, needle: Needle, depth: nat)
    requires LexedAll(xs) && At(text, i, ShowAll(xs)) && (depth > 0 || NoTop(xs, needle))
    requires SafeEnd(xs, text, i + |ShowAll(xs)|)
    ensures Find(text, needle, i, depth) == Find(text, needle, i + |ShowAll(xs)|, depth)
    decreases xs, 0
  {
    hide Find, ShowAll, At, SafeEnd;
    if xs == [] {
      ShowNothing();
    } else {
      AtTail(text, i, xs);
      FindSkipsOne(text, i, xs[0], needle, depth);
      FindSkips(text, i + |Show(xs[0])|, xs[1..], needle, depth);
    }
  }

  lemma {:induction false} FindPassesChar(text: string, i: nat, needle: Needle, depth: nat)
    requires i < |text| && Lexed(Ch(text[i])) && !ArrowAt(text, i) && (depth > 0 || !Hits(Ch(text[i]), needle))
    ensures Find(text, needle, i, depth) == Find(text, needle, i + 1, depth)
  {
  }

  lemma {:induction false} FindPassesArrow(text: string, i: nat, needle: Needle, depth: nat)
    requires ArrowAt(text, i) && (depth > 0 || !needle.Arrow?)
    ensures Find(text, needle, i, depth) == Find(text, needle, i + 2, depth)
  {
    assert !IsQuote(text[i]);
  }

  lemma {:induction false} FindPassesString(text: string, i: nat, needle: Needle, depth: nat)
    requires i < |text| && IsQuote(text[i])
    ensures Find(text, needle, i, depth) == Find(text, needle, StringEnd(text, i), depth)
  {
    hide StringEnd;
  }

  lemma {:induction false} FindSkipsOne(text: string, i: nat, x: Lex, needle: Needle, depth: nat)
    requires Lexed(x) && At(text, i, Show(x)) && (depth > 0 || !Hits(x, needle))
    requires x.Ch? ==> !ArrowAt(text, i)
    ensures Find(text, needle, i, depth) == Find(text, needle, i + |Show(x)|, depth)
    decreases x, 1
  {
    hide At, Find, StringEnd;
    match x
    case Ch(c) =>
      CharSpan(text, i, c);
      FindPassesChar(text, i, needle, depth);
    case Fat =>
      ArrowSpan(text, i);
      FindPassesArrow(text, i, needle, depth);
    case Str(s) =>
      LiteralSpan(text, i, s);
      FindPassesString(text, i, needle, depth);
    case Group(open, inner) =>
      AtGroup(text, i, open, inner);
      FindSkips(text, i + 1, inner, needle, depth + 1);
      BracketsOnly(text, i, needle, depth, i + 1 + |ShowAll(inner)|);
  }

  /** Opening and closing a region whose inside is skipped leaves the depth as it was. */
  lemma {:induction false} BracketsOnly(text: string, i: nat, needle: Needle, depth: nat, close: nat)
    requires i < close < |text| && IsOpener(text[i]) && IsCloser(text[close])
    requires Find(text, needle, i + 1, depth + 1) == Find(text, needle, close, depth + 1)
    ensures Find(text, needle, i, depth) == Find(text, needle, close + 1, depth)
  {
    assert !IsQuote(text[i]) && !ArrowAt(text, i);
    assert !IsQuote(text[close]) && !ArrowAt(text, close) && !IsOpener(text[close]);
  }

  /** Looking for the bracket that closes a region reads past well-bracketed tokens. */
  lemma {:induction false} CloseSkips(text: string, i: nat, xs: seq<Lex>, open: char, depth: nat)
    requires LexedAll(xs) && At(text, i, ShowAll(xs)) && IsOpener(open) && depth >= 1
    requires SafeEnd(xs, text, i + |ShowAll(xs)|)
    ensures CloseFrom(text, open, i, depth) == CloseFrom(text, open, i + |ShowAll(xs)|, depth)
    decreases xs, 0
  {
    hide CloseFrom, ShowAll, At, SafeEnd;
    if xs == [] {
      ShowNothing();
    } else {
      AtTail(text, i, xs);
      CloseSkipsOne(text, i, xs[0], open, depth);
      CloseSkips(text, i + |Show(xs[0])|, xs[1..], open, depth);
    }
  }

  lemma {:induction false} ClosePassesChar(text: string, i: nat, open: char, depth: nat)
    requires i < |text| && Lexed(Ch(text[i])) && !ArrowAt(text, i) && IsOpener(open)
    ensures CloseFrom(text, open, i, depth) == CloseFrom(text, open, i + 1, depth)
  {
  }

  lemma {:induction false} ClosePassesArrow(text: string, i: nat, open: char, depth: nat)
    requires ArrowAt(text, i) && IsOpener(open)
    ensures CloseFrom(text, open, i, depth) == CloseFrom(text, open, i + 2, depth)
  {
    assert !IsQuote(text[i]);
  }

  lemma {:induction false} ClosePassesString(text: string, i: nat, open: char, depth: nat)
    requires i < |text| && IsQuote(text[i]) && IsOpener(open)
    ensures CloseFrom(text, open, i, depth) == CloseFrom(text, open, StringEnd(text, i), depth)
  {
    hide StringEnd;
  }

  lemma {:induction false} CloseSkipsOne(text: string, i: nat, x: Lex, open: char, depth: nat)
    requires Lexed(x) && At(text, i, Show(x)) && IsOpener(open) && depth >= 1
    requires x.Ch? ==> !ArrowAt(text, i)
    ensures CloseFrom(text, open, i, depth) == CloseFrom(text, open, i + |Show(x)|, depth)
    decreases x, 1
  {
    hide At, CloseFrom, StringEnd;
    match x
    case Ch(c) =>
      CharSpan(text, i, c);
      ClosePassesChar(text, i, open, depth);
    case Fat =>
      ArrowSpan(text, i);
      ClosePassesArrow(text, i, open, depth);
    case Str(s) =>
      LiteralSpan(text, i, s);
      ClosePassesString(text, i, open, depth);
    case Group(o, inner) =>
      AtGroup(text, i, o, inner);
      CloseSkips(text, i + 1, inner, open, if o == open then depth + 1 else depth);
      BalancedOnly(text, i, open, depth, i + 1 + |ShowAll(inner)|);
  }

  lemma {:induction false} BalancedOnly(text: string, i: nat, open: char, depth: nat, close: nat)
    requires i < close < |text| && depth >= 1 && IsOpener(open)
    requires IsOpener(text[i]) && text[close] == CloserOf(text[i])
    requires var inside := if text[i] == open then depth + 1 else depth;
      CloseFrom(text, open, i + 1, inside) == CloseFrom(text, open, close, inside)
    ensures CloseFrom(text, open, i, depth) == CloseFrom(text, open, close + 1, depth)
  {
    assert !IsQuote(text[i]) && !ArrowAt(text, i) && text[i] != CloserOf(open);
    assert !IsQuote(text[close]) && !ArrowAt(text, close) && text[close] != open;
  }

  lemma {:induction false} GroupSpan(text: string, i: nat, open: char, inner: seq<Lex>)
    requires Lexed(Group(open, inner)) && At(text, i, Show(Group(open, inner)))
    ensures var end := i + 1 + |ShowAll(inner)|;
      && i < |text| && text[i] == open && CloseFrom(text, open, i + 1, 1) == end < |text|
      && text[i + 1..end] == ShowAll(inner) && text[end] == CloserOf(open)
      && end + 1 == i + |Show(Group(open, inner))|
  {
    AtGroup(text, i, open, inner);
    CloseSkips(text, i + 1, inner, open, 1);
  }

  // ---------- First occurrence ----------

  lemma {:induction false} FindNone(xs: seq<Lex>, needle: Needle)
    requires LexedAll(xs) && NoTop(xs, needle)
    ensures TopIndex(ShowAll(xs), needle) == -1
  {
    AtWhole(ShowAll(xs));
    FindSkips(ShowAll(xs), 0, xs, needle, 0);
  }

  lemma {:induction false} FindHit(text: string, i: nat, xs: seq<Lex>, x: Lex, needle: Needle)
    requires LexedAll(xs) && NoTop(xs, needle) && Lexed(x) && Hits(x, needle)
    requires At(text, i, ShowAll(xs)) && At(text, i + |ShowAll(xs)|, Show(x))
    requires x.Fat? || SafeEnd([x], text, i + |ShowAll(xs)| + 1)
    ensures Find(text, needle, i, 0) == i + |ShowAll(xs)| < |text|
  {
    var at := i + |ShowAll(xs)|;
    ShowFirst(x);
    assert text[at] == text[at..at + |Show(x)|][0] == Show(x)[0];
    FindSkips(text, i, xs, needle, 0);
    if x.Fat? {
      assert text[at + 1] == text[at..at + 2][1];
    }
  }

  lemma {:induction false} ShowSplit(xs: seq<Lex>, x: Lex, ys: seq<Lex>)
    ensures ShowAll(xs + [x] + ys) == ShowAll(xs) + (Show(x) + ShowAll(ys))
  {
    ShowAppend(xs, [x] + ys);
    assert xs + [x] + ys == xs + ([x] + ys);
    assert ([x] + ys)[1..] == ys;
  }

  lemma {:induction false} NextIsSafe(text: string, i: nat, ys: seq<Lex>)
    requires LexedAll(ys) && At(text, i, ShowAll(ys)) && (ys == [] ==> i == |text|)
    ensures i >= |text| || text[i] != '>'
  {
    if ys != [] {
      AtCons(text, i, ys);
      ShowFirst(ys[0]);
      var s := Show(ys[0]);
      assert text[i] == text[i..i + |s|][0] == s[0];
    }
  }

  /** The first hit of the needle is where the first token that hits it is shown. */
  lemma {:induction false} FindFirst(text: string, xs: seq<Lex>, x: Lex, ys: seq<Lex>, needle: Needle)
    requires LexedAll(xs) && Lexed(x) && LexedAll(ys)
    requires NoTop(xs, needle) && Hits(x, needle)
    requires text == ShowAll(xs) + (Show(x) + ShowAll(ys))
    ensures TopIndex(text, needle) == |ShowAll(xs)|
  {
    AtWhole(text);
    AtSplit(text, 0, ShowAll(xs), Show(x) + ShowAll(ys));
    AtSplit(text, |ShowAll(xs)|, Show(x), ShowAll(ys));
    NextIsSafe(text, |ShowAll(xs)| + |Show(x)|, ys);
    FindHit(text, 0, xs, x, needle);
  }

  // ---------- Descending into bracketed regions ----------

  /** What one token becomes when the inside of a bracketed region is rewritten by `inside`. */
  function Rewrite(inside: string -> string, x: Lex): string {
    match x
    case Group(open, inner) => [open] + inside(ShowAll(inner)) + [CloserOf(open)]
    case _ => Show(x)
  }

  function MapAll(rewrite: Lex -> string, xs: seq<Lex>): string {
    if xs == [] then "" else rewrite(xs[0]) + MapAll(rewrite, xs[1..])
  }

  ghost predicate Rewrites(inside: string -> string, rewrite: Lex -> string) {
    forall x {:trigger Rewrite(inside, x)} :: rewrite(x) == Rewrite(inside, x)
  }

  lemma {:induction false} MapAppend(rewrite: Lex -> string, xs: seq<Lex>, ys: seq<Lex>)
    ensures MapAll(rewrite, xs + ys) == MapAll(rewrite, xs) + MapAll(rewrite, ys)
  {
    if xs == [] {
      assert xs + ys == ys;
    } else {
      MapAppend(rewrite, xs[1..], ys);
      assert (xs + ys)[1..] == xs[1..] + ys;
    }
  }

  lemma {:induction false} DescendStep(inside: string -> string, text: string, i: nat)
    requires i < |text| && (IsQuote(text[i]) || ArrowAt(text, i) || !IsOpener(text[i]))
    ensures var next := if IsQuote(text[i]) then StringEnd(text, i) else if ArrowAt(text, i) then i + 2 else i + 1;
      DescendFrom(inside, text, i) == text[i..next] + DescendFrom(inside, text, next)
  {
    if ArrowAt(text, i) { assert text[i..i + 2] == "=>"; }
    assert text[i..i + 1] == [text[i]];
  }

  lemma {:induction false} DescendBracketStep(inside: string -> string, text: string, i: nat, end: nat)
    requires i < |text| && IsOpener(text[i]) && CloseFrom(text, text[i], i + 1, 1) == end < |text|
    ensures DescendFrom(inside, text, i)
         == [text[i]] + inside(text[i + 1..end]) + [text[end]] + DescendFrom(inside, text, end + 1)
  {
    hide CloseFrom, StringEnd;
    assert !IsQuote(text[i]) && !ArrowAt(text, i);
  }

  lemma {:induction false} DescendsGroup(inside: string -> string, text: string, i: nat, open: char, inner: seq<Lex>)
    requires Lexed(Group(open, inner)) && At(text, i, Show(Group(open, inner)))
    ensures DescendFrom(inside, text, i)
         == Rewrite(inside, Group(open, inner)) + DescendFrom(inside, text, i + |Show(Group(open, inner))|)
  {
    hide DescendFrom, CloseFrom, At, ShowAll, LexedAll, EndsInEquals;
    GroupSpan(text, i, open, inner);
    DescendBracketStep(inside, text, i, i + 1 + |ShowAll(inner)|);
  }

  lemma {:induction false} DescendsToken(inside: string -> string, text: string, i: nat, x: Lex)
    requires !x.Group? && Lexed(x) && At(text, i, Show(x)) && (x.Ch? ==> !ArrowAt(text, i))
    ensures DescendFrom(inside, text, i) == Show(x) + DescendFrom(inside, text, i + |Show(x)|)
  {
    hide DescendFrom, StringEnd;
    match x
    case Ch(c) =>
      CharSpan(text, i, c);
      DescendStep(inside, text, i);
    case Fat =>
      ArrowSpan(text, i);
      DescendStep(inside, text, i);
    case Str(s) =>
      LiteralSpan(text, i, s);
      DescendStep(inside, text, i);
  }

  lemma {:induction false} DescendsOne(inside: string -> string, rewrite: Lex -> string, text: string, i: nat, x: Lex)
    requires Rewrites(inside, rewrite) && Lexed(x) && At(text, i, Show(x)) && (x.Ch? ==> !ArrowAt(text, i))
    ensures DescendFrom(inside, text, i) == rewrite(x) + DescendFrom(inside, text, i + |Show(x)|)
  {
    hide DescendFrom, Lexed, At, Show;
    assert rewrite(x) == Rewrite(inside, x);
    if x.Group? {
      DescendsGroup(inside, text, i, x.open, x.inner);
    } else {
      DescendsToken(inside, text, i, x);
    }
  }

  lemma {:induction false} MapStep(rewrite: Lex -> string, xs: seq<Lex>, more: string)
    requires xs != []
    ensures MapAll(rewrite, xs) + more == rewrite(xs[0]) + (MapAll(rewrite, xs[1..]) + more)
  {
    Associative(rewrite(xs[0]), MapAll(rewrite, xs[1..]), more);
  }

  lemma {:induction false} Descends(inside: string -> string, rewrite: Lex -> string, text: string, i: nat, xs: seq<Lex>)
    requires Rewrites(inside, rewrite)
    requires LexedAll(xs) && At(text, i, ShowAll(xs)) && SafeEnd(xs, text, i + |ShowAll(xs)|)
    ensures DescendFrom(inside, text, i)
         == MapAll(rewrite, xs) + DescendFrom(inside, text, i + |ShowAll(xs)|)
    decreases |xs|
  {
    hide DescendFrom, Rewrites, ShowAll, At, SafeEnd, Lexed;
    if xs == [] {
      ShowNothing();
      assert MapAll(rewrite, xs) == "";
    } else {
      AtTail(text, i, xs);
      DescendsOne(inside, rewrite, text, i, xs[0]);
      Descends(inside, rewrite, text, i + |Show(xs[0])|, xs[1..]);
      MapStep(rewrite, xs, DescendFrom(inside, text, i + |ShowAll(xs)|));
    }
  }

  /** Descending rewrites the inside of every bracketed region and copies the rest. */
  lemma {:induction false} DescendsAll(inside: string -> string, rewrite: Lex -> string, xs: seq<Lex>)
    requires Rewrites(inside, rewrite) && LexedAll(xs)
    ensures DescendFrom(inside, ShowAll(xs), 0) == MapAll(rewrite, xs)
  {
    var text := ShowAll(xs);
    AtWhole(text);
    Descends(inside, rewrite, text, 0, xs);
    assert DescendFrom(inside, text, |text|) == "";
  }
}
