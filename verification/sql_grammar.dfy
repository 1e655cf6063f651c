/** A grammar of SQL texts, independent of the scan that reads them: what packages/db/src/migrate.ts makes of
    literals, comments and dollar-quoted blocks, with the characters written out. */
module SqlGrammar {
  import opened Strings
  import opened SqlSplit

  /** A to Z, a to z, and the underscore, by their codes. */
  predicate IsLetter(c: char) { 65 <= c as int <= 90 || 97 <= c as int <= 122 || c as int == 95 }

  /** The last four run to the end of the text. */
  datatype Element =
    | Semicolon
    | Plain(c: char)
    | Literal(value: string)
    | Remark(body: string)
    | Block(body: string)
    | DollarQuote(word: string, body: string)
    | OpenLiteral(value: string)
    | OpenRemark(body: string)
    | OpenBlock(body: string)
    | OpenDollar(word: string, body: string)

  /** A quote inside a literal is written twice. */
  function Doubled(value: string): string {
    if value == "" then "" else (if value[0] == '\'' then "''" else [value[0]]) + Doubled(value[1..])
  }

  function Tag(word: string): string { "$" + word + "$" }

  /** The body of a block comment is all that follows its two opening characters, up to its end. */
  function Written(e: Element): string {
    match e
    case Semicolon => ";"
    case Plain(c) => [c]
    case Literal(value) => "'" + Doubled(value) + "'"
    case Remark(body) => "--" + body + "\n"
    case Block(body) => "/*" + body
    case DollarQuote(word, body) => Tag(word) + body + Tag(word)
    case OpenLiteral(value) => "'" + Doubled(value)
    case OpenRemark(body) => "--" + body
    case OpenBlock(body) => "/*" + body
    case OpenDollar(word, body) => Tag(word) + body
  }

  function TextOf(es: seq<Element>): string {
    if es == [] then "" else Written(es[0]) + TextOf(es[1..])
  }

  predicate IsOpen(e: Element) { e.OpenLiteral? || e.OpenRemark? || e.OpenBlock? || e.OpenDollar? }

  predicate AllLetters(word: string) { forall k :: 0 <= k < |word| ==> IsLetter(word[k]) }

  predicate Occurs(part: string, text: string, k: nat) { k + |part| <= |text| && text[k..k + |part|] == part }

  /** `part` stands nowhere before the offset `end`. */
  predicate FirstAt(part: string, text: string, end: nat) { forall k :: 0 <= k < end ==> !Occurs(part, text, k) }

  /** A tag `$word$` stands at the head of `$` and `rest`. */
  ghost predicate TagStarts(rest: string) { exists word {:trigger Tag(word)} :: AllLetters(word) && Tag(word) <= "$" + rest }

  /** The element is read as such when `rest` follows. */
  ghost predicate Fits(e: Element, rest: string) {
    match e
    case Semicolon => true
    case Plain(c) =>
      && c != ';' && c != '\''
      && (c == '-' ==> !("-" <= rest)) && (c == '/' ==> !("*" <= rest)) && (c == '$' ==> !TagStarts(rest))
    case Literal(_) => !("'" <= rest)
    case Remark(body) => '\n' !in body
    case Block(body) => body != "" && Occurs("*/", "*" + body, |body| - 1) && FirstAt("*/", "*" + body, |body| - 1)
    case DollarQuote(word, body) => AllLetters(word) && FirstAt(Tag(word), body + Tag(word), |body|)
    case OpenLiteral(_) => rest == ""
    case OpenRemark(body) => rest == "" && '\n' !in body
    case OpenBlock(body) => rest == "" && FirstAt("*/", "*" + body, |body|)
    case OpenDollar(word, body) => rest == "" && AllLetters(word) && FirstAt(Tag(word), body, |body|)
  }

  ghost predicate Valid(es: seq<Element>) { es == [] || (Fits(es[0], TextOf(es[1..])) && Valid(es[1..])) }

  function Prefixed(front: string, pieces: seq<string>): seq<string>
    requires pieces != []
  {
    [front + pieces[0]] + pieces[1..]
  }

  /** What stands between the semicolons. */
  function Runs(es: seq<Element>): (runs: seq<string>)
    ensures runs != []
  {
    if es == [] then [""]
    else if es[0].Semicolon? then [""] + Runs(es[1..])
    else Prefixed(Written(es[0]), Runs(es[1..]))
  }

  predicate EndsOpen(es: seq<Element>) { es != [] && IsOpen(es[|es| - 1]) }

  // ---------- Scanning ----------

  /** From offset `i` in one mode the scan comes to offset `j` in the other without a cut. */
  ghost predicate Leads(text: string, i: nat, mode: Mode, j: nat, mode': Mode)
    requires i <= j <= |text| && ValidMode(mode) && ValidMode(mode')
  {
    && (forall start :: 0 <= start <= i ==> RawFrom(text, start, i, mode) == RawFrom(text, start, j, mode'))
    && EndMode(text, i, mode) == EndMode(text, j, mode')
  }

  lemma {:induction false} OneStep(text: string, i: nat, mode: Mode)
    requires i < |text| && ValidMode(mode) && !IsCut(text, i, mode)
    ensures var (after, n) := Next(text, i, mode); Leads(text, i, mode, i + n, after)
  {
    hide Next, IsCut;
  }

  lemma {:induction false} Onward(text: string, i: nat, mode: Mode, j: nat, mode': Mode, k: nat, mode'': Mode)
    requires i <= j <= k <= |text| && ValidMode(mode) && ValidMode(mode') && ValidMode(mode'')
    requires Leads(text, i, mode, j, mode') && Leads(text, j, mode', k, mode'')
    ensures Leads(text, i, mode, k, mode'')
  {
    hide RawFrom, EndMode;
    forall start | 0 <= start <= i ensures RawFrom(text, start, i, mode) == RawFrom(text, start, k, mode'') {
      assert RawFrom(text, start, j, mode') == RawFrom(text, start, k, mode'');
    }
  }

  lemma {:induction false} Stays(text: string, i: nat, mode: Mode)
    requires i <= |text| && ValidMode(mode)
    ensures Leads(text, i, mode, i, mode)
  {
    hide RawFrom, EndMode;
  }

  /** The mode does not change over a stretch on which no single step changes it. */
  lemma {:induction false} StretchLeads(text: string, i: nat, j: nat, mode: Mode)
    requires i <= j <= |text| && ValidMode(mode) && mode != Base
    requires forall k :: i <= k < j ==> Next(text, k, mode) == (mode, 1)
    ensures Leads(text, i, mode, j, mode)
    decreases j - i
  {
    hide Next, Leads;
    if i >= j {
      Stays(text, i, mode);
    } else {
      OneStep(text, i, mode);
      StretchLeads(text, i + 1, j, mode);
      Onward(text, i, mode, i + 1, mode, j, mode);
    }
  }

  lemma {:induction false} DoubledLeads(text: string, i: nat, value: string, tail: string)
    requires i <= |text| && text[i..] == Doubled(value) + tail
    ensures i + |Doubled(value)| <= |text| && Leads(text, i, SingleQuote, i + |Doubled(value)|, SingleQuote)
    decreases |value|
  {
    hide Leads;
    if value == "" {
      Stays(text, i, SingleQuote);
    } else {
      var head, more := if value[0] == '\'' then "''" else [value[0]], Doubled(value[1..]);
      assert text[i..] == head + (more + tail);
      var n := |head|;
      assert text[i..][0] == head[0] && (n == 2 ==> text[i..][1] == head[1]);
      assert text[i + n..] == text[i..][n..] == more + tail;
      OneStep(text, i, SingleQuote);
      DoubledLeads(text, i + n, value[1..], tail);
      Onward(text, i, SingleQuote, i + n, SingleQuote, i + |Doubled(value)|, SingleQuote);
    }
  }

  lemma {:induction false} LettersAreWords(c: char)
    ensures IsLetter(c) <==> IsWord(c)
  {
  }

  lemma {:induction false} TagIsTag(word: string)
    requires AllLetters(word)
    ensures IsTag(Tag(word))
  {
    var tag := Tag(word);
    forall k | 1 <= k < |tag| - 1 ensures IsWord(tag[k]) {
      assert tag[k] == word[k - 1];
      LettersAreWords(word[k - 1]);
    }
  }

  lemma {:induction false} TagIsLetters(tag: string)
    requires IsTag(tag)
    ensures AllLetters(tag[1..|tag| - 1]) && Tag(tag[1..|tag| - 1]) == tag
  {
    var word := tag[1..|tag| - 1];
    forall k | 0 <= k < |word| ensures IsLetter(word[k]) {
      assert word[k] == tag[k + 1];
      LettersAreWords(word[k]);
    }
  }

  // ---------- One element ----------

  /** The scan passes over a closed element that is no separator, and comes back to where separators count. */
  ghost predicate Passes(e: Element, rest: string) { Leads(Written(e) + rest, 0, Base, |Written(e)|, Base) }

  lemma {:induction false} PlainPasses(e: Element, rest: string)
    requires e.Plain? && Fits(e, rest)
    ensures Passes(e, rest)
  {
    hide Leads, TagLength, TagStarts;
    var text := [e.c] + rest;
    assert text[0] == e.c && text[1..] == rest;
    if e.c == '$' {
      TagIsFound(rest);
    } else {
      NoDollar(text);
    }
    OneStep(text, 0, Base);
  }

  lemma {:induction false} NoDollar(text: string)
    requires text != "" && text[0] != '$'
    ensures TagLength(text, 0) == 0
  {
  }

  lemma {:induction false} TagIsFound(rest: string)
    ensures TagLength("$" + rest, 0) > 0 ==> TagStarts(rest)
  {
    hide TagLength, IsTag;
    var text := "$" + rest;
    var n := TagLength(text, 0);
    if n > 0 {
      var tag := text[0..n];
      TagIsLetters(tag);
      assert Tag(tag[1..|tag| - 1]) <= text;
    }
  }

  lemma {:induction false} LiteralPasses(e: Element, rest: string)
    requires e.Literal? && Fits(e, rest)
    ensures Passes(e, rest)
  {
    hide Leads, Doubled;
    var inside := Doubled(e.value);
    var text, end := Written(e) + rest, 1 + |inside|;
    assert text == "'" + inside + "'" + rest;
    assert text[1..] == inside + ("'" + rest);
    QuoteOpens(text);
    DoubledLeads(text, 1, e.value, "'" + rest);
    QuoteCloses(text, end, rest);
    Onward(text, 0, Base, 1, SingleQuote, end, SingleQuote);
    Onward(text, 0, Base, end, SingleQuote, end + 1, Base);
  }

  lemma {:induction false} QuoteOpens(text: string)
    requires "'" <= text
    ensures Leads(text, 0, Base, 1, SingleQuote)
  {
    hide Leads;
    OneStep(text, 0, Base);
  }

  lemma {:induction false} QuoteCloses(text: string, end: nat, rest: string)
    requires end < |text| && text[end..] == "'" + rest && !("'" <= rest)
    ensures Leads(text, end, SingleQuote, end + 1, Base)
  {
    hide Leads;
    assert text[end] == text[end..][0] && (rest != "" ==> text[end + 1] == text[end..][1] == rest[0]);
    OneStep(text, end, SingleQuote);
  }

  lemma {:induction false} RemarkStretch(text: string, body: string, tail: string)
    requires text == "--" + body + tail && '\n' !in body
    ensures Leads(text, 0, Base, 2 + |body|, LineComment)
  {
    hide Leads;
    assert text[0] == '-' && text[1] == '-';
    OneStep(text, 0, Base);
    forall k | 1 <= k < 2 + |body| ensures Next(text, k, LineComment) == (LineComment, 1) {
      if k > 1 { assert text[k] == body[k - 2]; }
    }
    StretchLeads(text, 1, 2 + |body|, LineComment);
    Onward(text, 0, Base, 1, LineComment, 2 + |body|, LineComment);
  }

  lemma {:induction false} RemarkPasses(e: Element, rest: string)
    requires e.Remark? && Fits(e, rest)
    ensures Passes(e, rest)
  {
    hide Leads;
    var text, end := Written(e) + rest, 2 + |e.body|;
    assert text == "--" + e.body + ("\n" + rest) && text[end] == '\n';
    RemarkStretch(text, e.body, "\n" + rest);
    OneStep(text, end, LineComment);
    Onward(text, 0, Base, end, LineComment, end + 1, Base);
  }

  lemma {:induction false} BlockStretch(text: string, body: string, tail: string, end: nat)
    requires text == "/*" + body + tail && end <= |body| && FirstAt("*/", "*" + body, end)
    requires end == |body| ==> tail == ""
    ensures Leads(text, 0, Base, 1 + end, BlockComment)
  {
    hide Leads;
    assert text[0] == '/' && text[1] == '*';
    OneStep(text, 0, Base);
    var inner := "*" + body;
    assert text[1..] == inner + tail;
    forall k | 1 <= k < 1 + end ensures Next(text, k, BlockComment) == (BlockComment, 1) {
      assert !Occurs("*/", inner, k - 1);
      assert text[k] == inner[k - 1];
      if k < |inner| {
        assert text[k + 1] == inner[k];
        assert inner[k - 1..k + 1] == [inner[k - 1], inner[k]];
      }
    }
    StretchLeads(text, 1, 1 + end, BlockComment);
    Onward(text, 0, Base, 1, BlockComment, 1 + end, BlockComment);
  }

  lemma {:induction false} BlockPasses(e: Element, rest: string)
    requires e.Block? && Fits(e, rest)
    ensures Passes(e, rest)
  {
    hide Leads;
    var text, end, inner := Written(e) + rest, |e.body| - 1, "*" + e.body;
    BlockStretch(text, e.body, rest, end);
    assert inner[end..end + 2] == "*/" && inner[end] == inner[end..end + 2][0] && inner[end + 1] == inner[end..end + 2][1];
    assert text[1..] == inner + rest;
    assert text[end + 1] == inner[end] && text[end + 2] == inner[end + 1];
    OneStep(text, end + 1, BlockComment);
    Onward(text, 0, Base, end + 1, BlockComment, end + 3, Base);
  }

  lemma {:induction false} DollarStretch(text: string, word: string, body: string, tail: string, end: nat)
    requires text == Tag(word) + body + tail && AllLetters(word) && end == |body|
    requires FirstAt(Tag(word), body + tail, end)
    ensures IsTag(Tag(word)) && Leads(text, 0, Base, |Tag(word)| + end, Dollar(Tag(word)))
  {
    hide Leads;
    var tag := Tag(word);
    TagIsTag(word);
    assert text == tag + (body + tail);
    TagFound(tag, body + tail);
    assert text[0] == '$' && text[0..|tag|] == tag;
    OneStep(text, 0, Base);
    forall k | |tag| <= k < |tag| + end ensures Next(text, k, Dollar(tag)) == (Dollar(tag), 1) {
      assert !Occurs(tag, body + tail, k - |tag|);
      if k + |tag| <= |text| { assert text[k..k + |tag|] == (body + tail)[k - |tag|..k]; }
    }
    StretchLeads(text, |tag|, |tag| + end, Dollar(tag));
    Onward(text, 0, Base, |tag|, Dollar(tag), |tag| + end, Dollar(tag));
  }

  lemma {:induction false} DollarPasses(e: Element, rest: string)
    requires e.DollarQuote? && Fits(e, rest)
    ensures Passes(e, rest)
  {
    hide Leads, FirstAt, AllLetters, IsTag;
    var tag := Tag(e.word);
    var text, end := Written(e) + rest, |tag| + |e.body|;
    assert text == tag + e.body + (tag + rest);
    FirstStays(tag, e.body, rest);
    DollarStretch(text, e.word, e.body, tag + rest, |e.body|);
    DollarCloses(text, end, tag);
    Onward(text, 0, Base, end, Dollar(tag), end + |tag|, Base);
  }

  lemma {:induction false} DollarCloses(text: string, end: nat, tag: string)
    requires IsTag(tag) && end + |tag| <= |text| && text[end..end + |tag|] == tag
    ensures Leads(text, end, Dollar(tag), end + |tag|, Base)
  {
    hide Leads;
    assert text[end] == tag[0];
    OneStep(text, end, Dollar(tag));
  }

  lemma {:induction false} FirstStays(tag: string, body: string, rest: string)
    requires FirstAt(tag, body + tag, |body|)
    ensures FirstAt(tag, body + (tag + rest), |body|)
  {
    forall k | 0 <= k < |body| ensures !Occurs(tag, body + (tag + rest), k) {
      assert !Occurs(tag, body + tag, k);
      assert (body + (tag + rest))[k..k + |tag|] == (body + tag)[k..k + |tag|];
    }
  }

  lemma {:induction false} ClosedPasses(e: Element, rest: string)
    requires Fits(e, rest) && !IsOpen(e) && !e.Semicolon?
    ensures Passes(e, rest)
  {
    hide Passes, Fits;
    match e
    case Plain(_) => PlainPasses(e, rest);
    case Literal(_) => LiteralPasses(e, rest);
    case Remark(_) => RemarkPasses(e, rest);
    case Block(_) => BlockPasses(e, rest);
    case DollarQuote(_, _) => DollarPasses(e, rest);
  }

  /** The scan reaches the end of the text inside an element that is not closed. */
  lemma {:induction false} OpenReachesEnd(e: Element) returns (mode: Mode)
    requires Fits(e, "") && IsOpen(e)
    ensures ValidMode(mode) && mode != Base && Leads(Written(e), 0, Base, |Written(e)|, mode)
  {
    hide Leads;
    var text := Written(e);
    match e
    case OpenLiteral(value) =>
      mode := SingleQuote;
      assert text[1..] == Doubled(value) + "";
      QuoteOpens(text);
      DoubledLeads(text, 1, value, "");
      Onward(text, 0, Base, 1, SingleQuote, |text|, SingleQuote);
    case OpenRemark(body) =>
      mode := LineComment;
      assert text == "--" + body + "";
      RemarkStretch(text, body, "");
    case OpenBlock(body) =>
      mode := BlockComment;
      assert text == "/*" + body + "";
      BlockStretch(text, body, "", |body|);
      OpenBlockEnds(text, body);
      Onward(text, 0, Base, 1 + |body|, BlockComment, |text|, BlockComment);
    case OpenDollar(word, body) =>
      mode := Dollar(Tag(word));
      assert text == Tag(word) + body + "" && body + "" == body;
      DollarStretch(text, word, body, "", |body|);
  }

  lemma {:induction false} OpenBlockEnds(text: string, body: string)
    requires text == "/*" + body
    ensures Leads(text, 1 + |body|, BlockComment, |text|, BlockComment)
  {
    hide Leads;
    OneStep(text, 1 + |body|, BlockComment);
  }

  // ---------- The whole text ----------

  /** The scan of a later part, started earlier: only the first piece is longer. */
  lemma {:induction false} StartEarlier(text: string, start: nat, from: nat, i: nat, mode: Mode)
    requires start <= from <= i <= |text| && ValidMode(mode)
    ensures RawFrom(text, start, i, mode) == Prefixed(text[start..from], RawFrom(text, from, i, mode))
    decreases |text| - i
  {
    hide Next;
    assert text[start..from] + text[from..i] == text[start..i];
    if i == |text| {
    } else if IsCut(text, i, mode) {
    } else {
      var (after, n) := Next(text, i, mode);
      StartEarlier(text, start, from, i + n, after);
    }
  }

  lemma {:induction false} EndShift(u: string, d: nat, t: string, j: nat, mode: Mode)
    requires j <= |t| && ValidMode(mode) && ReadsAs(u, d, t)
    ensures EndMode(u, d + j, mode) == EndMode(t, j, mode)
    decreases |t| - j
  {
    hide Next;
    if j == |t| {
    } else {
      var (after, n) := Next(t, j, mode);
      EndShift(u, d, t, j + n, after);
    }
  }

  /** What follows an element is read as if it stood alone. */
  lemma {:induction false} RestReads(front: string, rest: string)
    ensures RawFrom(front + rest, 0, |front|, Base) == Prefixed(front, Raw(rest))
    ensures EndMode(front + rest, |front|, Base) == EndMode(rest, 0, Base)
  {
    hide RawFrom, EndMode, ReadsAs;
    var text := front + rest;
    AppendedReads(front, rest);
    RawShift(text, |front|, rest, 0, 0, Base);
    EndShift(text, |front|, rest, 0, Base);
    StartEarlier(text, 0, |front|, |front|, Base);
    assert text[0..|front|] == front;
  }

  lemma {:induction false} SemicolonCuts(rest: string)
    ensures Raw(";" + rest) == [""] + Raw(rest) && EndMode(";" + rest, 0, Base) == EndMode(rest, 0, Base)
  {
    var text := ";" + rest;
    AppendedReads(";", rest);
    RawShift(text, 1, rest, 0, 0, Base);
    EndShift(text, 1, rest, 0, Base);
    assert Next(text, 0, Base) == (Base, 1);
    assert text[0..0] == "";
  }

  lemma {:induction false} OpenIsLast(es: seq<Element>)
    requires Valid(es) && es != [] && IsOpen(es[0])
    ensures |es| == 1
  {
    SomethingWritten(es[1..]);
  }

  lemma {:induction false} SomethingWritten(es: seq<Element>)
    ensures es != [] ==> TextOf(es) != ""
  {
  }

  /** The pieces of a text are the runs of its elements between semicolons, and the scan ends inside something
      exactly when the last element is not closed. */
  lemma {:induction false} RunsAre(es: seq<Element>)
    requires Valid(es)
    ensures Raw(TextOf(es)) == Runs(es) && (EndMode(TextOf(es), 0, Base) != Base <==> EndsOpen(es))
    decreases |es|
  {
    hide Fits, Written, Leads;
    if es == [] {
      assert ""[0..0] == "";
    } else {
      var e, rest := es[0], TextOf(es[1..]);
      RunsAre(es[1..]);
      assert |es| > 1 ==> EndsOpen(es) == EndsOpen(es[1..]);
      if e.Semicolon? {
        SemicolonWritten();
        SemicolonCuts(rest);
      } else if IsOpen(e) {
        OpenIsLast(es);
        OpenRuns(e);
        assert es[1..] == [] && Written(e) + "" == Written(e);
      } else {
        ClosedPasses(e, rest);
        ClosedRuns(e, rest);
      }
    }
  }

  lemma {:induction false} SemicolonWritten()
    ensures Written(Semicolon) == ";"
  {
  }

  lemma {:induction false} OpenRuns(e: Element)
    requires Fits(e, "") && IsOpen(e)
    ensures Raw(Written(e)) == [Written(e)] && EndMode(Written(e), 0, Base) != Base
  {
    hide Fits, Written;
    var text := Written(e);
    var mode := OpenReachesEnd(e);
    assert RawFrom(text, 0, 0, Base) == RawFrom(text, 0, |text|, mode) == [text[0..|text|]];
    assert text[0..|text|] == text;
  }

  lemma {:induction false} ClosedRuns(e: Element, rest: string)
    requires Passes(e, rest)
    ensures Raw(Written(e) + rest) == Prefixed(Written(e), Raw(rest))
    ensures EndMode(Written(e) + rest, 0, Base) == EndMode(rest, 0, Base)
  {
    hide Written, RawFrom, EndMode;
    RestReads(Written(e), rest);
  }

  /** `splitStatements` on every text of the grammar: what stands between the semicolons, trimmed, without blanks. */
  lemma {:induction false} StatementsAre(es: seq<Element>)
    requires Valid(es)
    ensures Statements(TextOf(es)) == DropEmpty(TrimAll(Runs(es)))
  {
    hide Raw, Runs, TextOf, Valid;
    RunsAre(es);
  }

  /** A semicolon separates a text from every other exactly when its last element is closed. */
  lemma {:induction false} SeparatesWhenClosed(es: seq<Element>)
    requires Valid(es)
    ensures (forall t: string :: Statements(TextOf(es) + ";" + t) == Statements(TextOf(es)) + Statements(t)) <==> !EndsOpen(es)
  {
    hide Raw, Runs, TextOf, Valid, Statements, EndMode;
    RunsAre(es);
    SeparatesExactly(TextOf(es));
  }

  // ---------- Every text is a text of the grammar ----------

  /** The first offset at which the part stands, or the length when it stands nowhere. */
  function Position(part: string, text: string, i: nat): (at: nat)
    requires i <= |text|
    ensures i <= at <= |text| && (forall k :: i <= k < at ==> !Occurs(part, text, k))
    ensures at < |text| ==> Occurs(part, text, at)
    decreases |text| - i
  {
    if i == |text| || Occurs(part, text, i) then i else Position(part, text, i + 1)
  }

  /** A text up to the first quote that is not doubled, which is dropped; or all of it. */
  function Undoubled(text: string): (string, bool, string) {
    if text == "" then ("", false, "")
    else if text[0] != '\'' then
      var (value, closed, rest) := Undoubled(text[1..]);
      ([text[0]] + value, closed, rest)
    else if |text| == 1 || text[1] != '\'' then ("", true, text[1..])
    else
      var (value, closed, rest) := Undoubled(text[2..]);
      ("'" + value, closed, rest)
  }

  lemma {:induction false} UndoubledIs(text: string)
    ensures var (value, closed, rest) := Undoubled(text);
      && text == Doubled(value) + (if closed then "'" + rest else "")
      && (!closed ==> rest == "") && !("'" <= rest) && |rest| <= |text|
  {
    hide Doubled;
    if text == "" {
      DoubledStep("", 'x');
    } else if text[0] != '\'' {
      UndoubledIs(text[1..]);
      DoubledStep(Undoubled(text[1..]).0, text[0]);
      assert text == [text[0]] + text[1..];
    } else if |text| == 1 || text[1] != '\'' {
      DoubledStep("", 'x');
      assert text == "'" + text[1..];
    } else {
      UndoubledIs(text[2..]);
      DoubledStep(Undoubled(text[2..]).0, '\'');
      assert text == "''" + text[2..];
    }
  }

  lemma {:induction false} DoubledStep(value: string, c: char)
    ensures Doubled("") == "" && Doubled([c] + value) == (if c == '\'' then "''" else [c]) + Doubled(value)
  {
    assert ([c] + value)[1..] == value;
  }

  /** The first element of a text, and the text after it. */
  lemma {:induction false} FirstElement(text: string) returns (e: Element, rest: string)
    requires text != ""
    ensures text == Written(e) + rest && |rest| < |text| && Fits(e, rest)
  {
    if text[0] == ';' {
      e, rest := Semicolon, text[1..];
    } else if text[0] == '\'' {
      e, rest := FirstLiteral(text);
    } else if "--" <= text {
      e, rest := FirstRemark(text);
    } else if "/*" <= text {
      e, rest := FirstBlock(text);
    } else if text[0] == '$' && TagStarts(text[1..]) {
      e, rest := FirstDollar(text);
    } else {
      e, rest := Plain(text[0]), text[1..];
    }
  }

  lemma {:induction false} FirstLiteral(text: string) returns (e: Element, rest: string)
    requires text != "" && text[0] == '\''
    ensures text == Written(e) + rest && |rest| < |text| && Fits(e, rest)
  {
    hide Doubled, Undoubled;
    UndoubledIs(text[1..]);
    var (value, closed, more) := Undoubled(text[1..]);
    rest := more;
    e := if closed then Literal(value) else OpenLiteral(value);
    assert text == "'" + text[1..];
  }

  lemma {:induction false} FirstRemark(text: string) returns (e: Element, rest: string)
    requires "--" <= text
    ensures text == Written(e) + rest && |rest| < |text| && Fits(e, rest)
  {
    var end := Position("\n", text, 2);
    var body := text[2..end];
    forall k | 0 <= k < |body| ensures body[k] != '\n' {
      assert !Occurs("\n", text, k + 2);
      assert text[k + 2..k + 3] == [text[k + 2]];
    }
    if end < |text| {
      e, rest := Remark(body), text[end + 1..];
      assert text[end..end + 1] == "\n";
    } else {
      e, rest := OpenRemark(body), "";
    }
  }

  lemma {:induction false} FirstBlock(text: string) returns (e: Element, rest: string)
    requires "/*" <= text
    ensures text == Written(e) + rest && |rest| < |text| && Fits(e, rest)
  {
    hide Occurs;
    var end := Position("*/", text, 1);
    if end < |text| {
      OccursInside("*/", text, end);
      e, rest := Block(text[2..end + 2]), text[end + 2..];
      ClosedBlock(text, end);
    } else {
      e, rest := OpenBlock(text[2..]), "";
      OpenedBlock(text);
    }
  }

  lemma {:induction false} ClosedBlock(text: string, end: nat)
    requires "/*" <= text && 1 <= end && Occurs("*/", text, end) && forall k :: 1 <= k < end ==> !Occurs("*/", text, k)
    ensures var body := text[2..end + 2]; text == "/*" + body + text[end + 2..] && Fits(Block(body), text[end + 2..])
  {
    hide Occurs;
    OccursInside("*/", text, end);
    var body := text[2..end + 2];
    InnerOf(text, body, end + 2);
    forall k | 0 <= k < end - 1 ensures !Occurs("*/", "*" + body, k) { InnerOccurs(text, body, end + 2, k); }
    InnerOccurs(text, body, end + 2, end - 1);
  }

  lemma {:induction false} OccursInside(part: string, text: string, k: nat)
    requires Occurs(part, text, k)
    ensures k + |part| <= |text|
  {
  }

  lemma {:induction false} OpenedBlock(text: string)
    requires "/*" <= text && forall k :: 1 <= k < |text| ==> !Occurs("*/", text, k)
    ensures var body := text[2..]; text == "/*" + body && Fits(OpenBlock(body), "")
  {
    hide Occurs;
    var body := text[2..];
    InnerOf(text, body, |text|);
    forall k | 0 <= k < |body| ensures !Occurs("*/", "*" + body, k) { InnerOccurs(text, body, |text|, k); }
  }

  lemma {:induction false} InnerOf(text: string, body: string, end: nat)
    requires "/*" <= text && 2 <= end <= |text| && body == text[2..end]
    ensures text == "/*" + body + text[end..]
  {
  }

  lemma {:induction false} InnerOccurs(text: string, body: string, end: nat, k: nat)
    requires "/*" <= text && 2 <= end <= |text| && body == text[2..end] && k + 3 <= end
    ensures Occurs("*/", "*" + body, k) <==> Occurs("*/", text, k + 1)
  {
    var inner := "*" + body;
    assert inner[k] == text[k + 1] && inner[k + 1] == text[k + 2];
    assert inner[k..k + 2] == [inner[k], inner[k + 1]] && text[k + 1..k + 3] == [text[k + 1], text[k + 2]];
  }

  lemma {:induction false} FirstDollar(text: string) returns (e: Element, rest: string)
    requires text != "" && text[0] == '$' && TagStarts(text[1..])
    ensures text == Written(e) + rest && |rest| < |text| && Fits(e, rest)
  {
    hide AllLetters;
    assert "$" + text[1..] == text;
    var word :| AllLetters(word) && Tag(word) <= text;
    e, rest := AfterTag(text, word);
  }

  lemma {:induction false} AfterTag(text: string, word: string) returns (e: Element, rest: string)
    requires AllLetters(word) && Tag(word) <= text
    ensures text == Written(e) + rest && |rest| < |text| && Fits(e, rest)
  {
    hide AllLetters, Tag, Occurs;
    var tag := Tag(word);
    TagLonger(word);
    var after := text[|tag|..];
    assert text == tag + after;
    var end := Position(tag, after, 0);
    if end < |after| {
      var body := after[..end];
      OccursInside(tag, after, end);
      FirstBefore(tag, after, end);
      e, rest := DollarQuote(word, body), after[end + |tag|..];
      assert text == tag + body + tag + rest;
    } else {
      e, rest := OpenDollar(word, after), "";
    }
  }

  lemma {:induction false} TagLonger(word: string)
    ensures |Tag(word)| >= 2
  {
  }

  lemma {:induction false} FirstBefore(tag: string, after: string, end: nat)
    requires Occurs(tag, after, end) && FirstAt(tag, after, end)
    ensures var body := after[..end]; FirstAt(tag, body + tag, |body|) && after == body + tag + after[end + |tag|..]
  {
    var body := after[..end];
    forall k | 0 <= k < |body| ensures !Occurs(tag, body + tag, k) {
      assert !Occurs(tag, after, k);
      var front := body + tag;
      assert after[..end + |tag|] == front by { assert after[end..end + |tag|] == tag; }
      if k + |tag| <= |front| { assert front[k..k + |tag|] == after[k..k + |tag|]; }
    }
  }

  /** Every text is that of some sequence of elements, so the theorems about the grammar are about all texts. */
  lemma {:induction false} EveryTextParses(text: string) returns (es: seq<Element>)
    ensures Valid(es) && TextOf(es) == text
    decreases |text|
  {
    hide Fits, Written;
    if text == "" {
      es := [];
    } else {
      var e, rest := FirstElement(text);
      var more := EveryTextParses(rest);
      es := [e] + more;
      assert es[1..] == more;
    }
  }

  // ---------- One statement ----------

  lemma {:induction false} ElementIsOne(e: Element, t: string)
    requires Fits(e, ";" + t) && !IsOpen(e) && !e.Semicolon? && Trim(Written(e)) != ""
    ensures Statements(Written(e) + ";" + t) == [Trim(Written(e))] + Statements(t)
  {
    hide Fits, Written, Passes;
    var text := Written(e);
    ClosedPasses(e, ";" + t);
    ClosedRuns(e, ";" + t);
    SemicolonCuts(t);
    assert text + ";" + t == text + (";" + t);
    assert ([""] + Raw(t))[1..] == Raw(t) && text + "" == text;
    assert ([text] + Raw(t))[1..] == Raw(t);
    assert ([Trim(text)] + TrimAll(Raw(t)))[1..] == TrimAll(Raw(t));
  }

  lemma {:induction false} TrimmedStays(s: string)
    requires Trimmed(s)
    ensures Trim(s) == s
  {
    PadsRecovered("", s, "");
    assert "" + s + "" == s;
  }

  /** A literal is one statement, whatever its value holds. */
  lemma {:induction false} LiteralIsOne(value: string, t: string)
    ensures Statements(['\''] + Doubled(value) + ['\''] + ";" + t) == [['\''] + Doubled(value) + ['\'']] + Statements(t)
  {
    hide Doubled, Trim, Statements;
    var text := Written(Literal(value));
    TrimmedStays(text);
    ElementIsOne(Literal(value), t);
  }

  /** Text without a quote is its own value. */
  lemma {:induction false} NothingDoubled(body: string)
    requires '\'' !in body
    ensures Doubled(body) == body
  {
    if body != "" {
      assert body[0] in body && body == [body[0]] + body[1..];
      NothingDoubled(body[1..]);
    }
  }

  /** A comment up to the end of its line is one statement, white space at its end aside. */
  lemma {:induction false} RemarkIsOne(body: string, t: string)
    requires '\n' !in body
    ensures Statements("--" + body + "\n;" + t) == [Trim("--" + body + "\n")] + Statements(t)
  {
    hide Trim, Statements;
    var text := Written(Remark(body));
    TrimIsEmpty(text);
    assert text[0] == '-' && !IsSpace('-');
    ElementIsOne(Remark(body), t);
    assert text + ";" + t == "--" + body + "\n;" + t;
  }

  /** A comment up to the first star with a slash behind it is one statement. The star that opens it counts: a slash
      at the head of the body would close it. */
  lemma {:induction false} BlockIsOne(body: string, t: string)
    requires !("/" <= body) && forall k :: 0 <= k < |body| - 1 ==> !(body[k] == '*' && body[k + 1] == '/')
    ensures Statements("/*" + body + "*/" + ";" + t) == ["/*" + body + "*/"] + Statements(t)
  {
    hide Trim, Statements;
    var e := Block(body + "*/");
    var text, inner := Written(e), "*" + (body + "*/");
    assert text == "/*" + body + "*/";
    forall k | 0 <= k < |body| + 1 ensures !Occurs("*/", inner, k) {
      BodyHolds(body, k);
    }
    assert inner[|body| + 1..|body| + 3] == "*/";
    TrimmedStays(text);
    ElementIsOne(e, t);
  }

  lemma {:induction false} BodyHolds(body: string, k: nat)
    requires !("/" <= body) && forall j :: 0 <= j < |body| - 1 ==> !(body[j] == '*' && body[j + 1] == '/')
    requires k < |body| + 1
    ensures !Occurs("*/", "*" + (body + "*/"), k)
  {
    var inner := "*" + (body + "*/");
    if k == 0 {
      assert inner[1] == if body == "" then '*' else body[0];
    } else {
      assert inner[k] == body[k - 1] && inner[k + 1] == if k < |body| then body[k] else '*';
    }
    assert k + 2 <= |inner| && inner[k..k + 2] == [inner[k], inner[k + 1]];
  }
}
