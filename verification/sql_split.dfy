/** The SQL statement splitter of packages/db/src/migrate.ts. */
module SqlSplit {
  import opened Strings

  datatype Mode = Base | LineComment | BlockComment | Dollar(tag: string) | SingleQuote

  predicate IsWord(c: char) { 'A' <= c <= 'Z' || 'a' <= c <= 'z' || c == '_' }

  predicate StartsWith(text: string, part: string, i: nat) {
    i + |part| <= |text| && text[i..i + |part|] == part
  }

  function WordEnd(text: string, i: nat): (end: nat)
    requires i <= |text|
    ensures i <= end <= |text|
    ensures forall k :: i <= k < end ==> IsWord(text[k])
    ensures end < |text| ==> !IsWord(text[end])
    decreases |text| - i
  {
    if i < |text| && IsWord(text[i]) then WordEnd(text, i + 1) else i
  }

  /** Length of the dollar-quote tag `$name$` that stands at `i`; 0 when none does. */
  function TagLength(text: string, i: nat): (n: nat)
    requires i < |text|
    ensures n == 0 || (2 <= n <= |text| - i && IsTag(text[i..i + n]))
  {
    if text[i] != '$' then 0
    else
      var end := WordEnd(text, i + 1);
      if end < |text| && text[end] == '$' then
        var tag := text[i..end + 1];
        assert tag[0] == '$' && tag[end - i] == '$';
        assert forall k :: 1 <= k < end - i ==> tag[k] == text[i + k];
        end + 1 - i
      else 0
  }

  predicate IsTag(tag: string) {
    && |tag| >= 2 && tag[0] == '$' && tag[|tag| - 1] == '$'
    && forall k :: 1 <= k < |tag| - 1 ==> IsWord(tag[k])
  }

  predicate ValidMode(mode: Mode) { mode.Dollar? ==> IsTag(mode.tag) }

  predicate Is(text: string, i: nat, c: char) { i < |text| && text[i] == c }

  function NextBase(text: string, i: nat): (r: (Mode, nat))
    requires i < |text|
    ensures ValidMode(r.0) && 1 <= r.1 <= |text| - i
  {
    if text[i] == '-' && Is(text, i + 1, '-') then (LineComment, 1)
    else if text[i] == '/' && Is(text, i + 1, '*') then (BlockComment, 1)
    else if text[i] == '\'' then (SingleQuote, 1)
    else
      var n := TagLength(text, i);
      if n > 0 then (Dollar(text[i..i + n]), n) else (Base, 1)
  }

  function NextDollar(text: string, i: nat, tag: string): (r: (Mode, nat))
    requires i < |text| && IsTag(tag)
    ensures ValidMode(r.0) && 1 <= r.1 <= |text| - i
  {
    if text[i] == '$' && StartsWith(text, tag, i) then (Base, |tag|) else (Dollar(tag), 1)
  }

  /** The mode after the characters read at `i`, and how many are read at once. */
  function Next(text: string, i: nat, mode: Mode): (r: (Mode, nat))
    requires i < |text| && ValidMode(mode)
    ensures ValidMode(r.0) && 1 <= r.1 <= |text| - i
  {
    match mode
    case LineComment => (if text[i] == '\n' then Base else LineComment, 1)
    case BlockComment => if text[i] == '*' && Is(text, i + 1, '/') then (Base, 2) else (BlockComment, 1)
    case Dollar(tag) => NextDollar(text, i, tag)
    case SingleQuote =>
      if text[i] != '\'' then (SingleQuote, 1)
      else if Is(text, i + 1, '\'') then (SingleQuote, 2)
      else (Base, 1)
    case Base => NextBase(text, i)
  }

  predicate IsCut(text: string, i: nat, mode: Mode) { mode.Base? && Is(text, i, ';') }

  /** The text from `start` on between base-mode semicolons, exactly as written; the scan is at `i`. */
  function RawFrom(text: string, start: nat, i: nat, mode: Mode): (pieces: seq<string>)
    requires start <= i <= |text| && ValidMode(mode)
    ensures |pieces| >= 1
    decreases |text| - i
  {
    if i == |text| then [text[start..i]]
    else if IsCut(text, i, mode) then [text[start..i]] + RawFrom(text, i + 1, i + 1, Base)
    else
      var (after, n) := Next(text, i, mode);
      RawFrom(text, start, i + n, after)
  }

  function Raw(text: string): seq<string> { RawFrom(text, 0, 0, Base) }

  function Statements(text: string): seq<string> { DropEmpty(TrimAll(Raw(text))) }

  /** The mode in which the scan reaches the end of the text. */
  function EndMode(text: string, i: nat, mode: Mode): Mode
    requires i <= |text| && ValidMode(mode)
    decreases |text| - i
  {
    if i == |text| then mode
    else
      var (after, n) := Next(text, i, mode);
      EndMode(text, i + n, after)
  }

  // ---------- The source's loop ----------

  /** The mode that the source keeps in four variables. */
  function ModeOf(dollarTag: Option<string>, inLineComment: bool, inBlockComment: bool, inSingleQuote: bool): Mode {
    if inLineComment then LineComment
    else if inBlockComment then BlockComment
    else if dollarTag.Some? then Dollar(dollarTag.value)
    else if inSingleQuote then SingleQuote
    else Base
  }

  function CleanRest(text: string, start: nat, i: nat, mode: Mode): seq<string>
    requires start <= i <= |text| && ValidMode(mode)
  {
    DropEmpty(TrimAll(RawFrom(text, start, i, mode)))
  }

  lemma {:induction false} CleanCons(piece: string, rest: seq<string>)
    ensures DropEmpty(TrimAll([piece] + rest))
         == (if Trim(piece) == "" then [] else [Trim(piece)]) + DropEmpty(TrimAll(rest))
  {
    assert ([piece] + rest)[1..] == rest;
    assert TrimAll([piece] + rest)[1..] == TrimAll(rest);
  }

  lemma {:induction false} CutStep(text: string, start: nat, i: nat, statements: seq<string>)
    requires start <= i < |text| && text[i] == ';'
    ensures statements + CleanRest(text, start, i, Base)
         == (if Trim(text[start..i]) == "" then statements else statements + [Trim(text[start..i])])
            + CleanRest(text, i + 1, i + 1, Base)
  {
    CleanCons(text[start..i], RawFrom(text, i + 1, i + 1, Base));
  }

  lemma {:induction false} LastStep(text: string, start: nat, mode: Mode, statements: seq<string>)
    requires start <= |text| && ValidMode(mode)
    ensures statements + CleanRest(text, start, |text|, mode)
         == if Trim(text[start..|text|]) == "" then statements else statements + [Trim(text[start..|text|])]
  {
    assert TrimAll([text[start..|text|]]) == [Trim(text[start..|text|])];
  }

  lemma {:induction false} Extend(text: string, start: nat, i: nat, n: nat)
    requires start <= i <= i + n <= |text|
    ensures text[start..i] + text[i..i + n] == text[start..i + n]
    ensures n == 1 ==> text[i..i + n] == [text[i]]
    ensures n == 2 ==> text[i..i + n] == [text[i], text[i + 1]]
  {
  }

  /** The branches of the loop body that do not end a statement: the flags after the characters at
      `i`, and how many characters are read. */
  method ReadOne(
    sqlText: string, i: nat, tag: Option<string>, line: bool, block: bool, quote: bool)
    returns (read: nat, dollarTag: Option<string>, inLineComment: bool, inBlockComment: bool, inSingleQuote: bool)
    requires i < |sqlText| && ValidMode(ModeOf(tag, line, block, quote))
    requires tag.Some? ==> !line && !block && !quote
    requires line ==> !block && !quote
    requires block ==> !quote
    ensures Next(sqlText, i, ModeOf(tag, line, block, quote))
         == (ModeOf(dollarTag, inLineComment, inBlockComment, inSingleQuote), read)
    ensures dollarTag.Some? ==> !inLineComment && !inBlockComment && !inSingleQuote
    ensures inLineComment ==> !inBlockComment && !inSingleQuote
    ensures inBlockComment ==> !inSingleQuote
  {
    read, dollarTag, inLineComment, inBlockComment, inSingleQuote := 1, tag, line, block, quote;
    var ch := sqlText[i];
    var next := if i + 1 < |sqlText| then Some(sqlText[i + 1]) else None;
    if inLineComment {
      if ch == '\n' { inLineComment := false; }
      return;
    }
    if inBlockComment {
      if ch == '*' && next == Some('/') {
        read := 2;
        inBlockComment := false;
      }
      return;
    }
    if dollarTag.Some? {
      if ch == '$' && StartsWith(sqlText, dollarTag.value, i) {
        read := |dollarTag.value|;
        dollarTag := None;
      }
      return;
    }
    if inSingleQuote {
      if ch == '\'' && next != Some('\'') {
        inSingleQuote := false;
      } else if ch == '\'' && next == Some('\'') {
        read := 2;
      }
      return;
    }
    if ch == '-' && next == Some('-') {
      inLineComment := true;
      return;
    }
    if ch == '/' && next == Some('*') {
      inBlockComment := true;
      return;
    }
    if ch == '\'' {
      inSingleQuote := true;
      return;
    }
    if ch == '$' {
      var length := TagLength(sqlText, i);
      if length > 0 {
        dollarTag := Some(sqlText[i..i + length]);
        read := length;
      }
    }
  }

  method SplitStatements(sqlText: string) returns (statements: seq<string>)
    ensures statements == Statements(sqlText)
  {
    hide Next, Trim;
    statements := [];
    var current := "";
    var dollarTag: Option<string> := None;
    var inLineComment, inBlockComment, inSingleQuote := false, false, false;
    var i := 0;
    ghost var start, mode := 0, Base;
    while i < |sqlText|
      invariant 0 <= start <= i <= |sqlText| && ValidMode(mode)
      invariant mode == ModeOf(dollarTag, inLineComment, inBlockComment, inSingleQuote)
      invariant dollarTag.Some? ==> !inLineComment && !inBlockComment && !inSingleQuote
      invariant inLineComment ==> !inBlockComment && !inSingleQuote
      invariant inBlockComment ==> !inSingleQuote
      invariant current == sqlText[start..i]
      invariant statements + CleanRest(sqlText, start, i, mode) == Statements(sqlText)
    {
      var ch := sqlText[i];
      if !inLineComment && !inBlockComment && dollarTag.None? && !inSingleQuote && ch == ';' {
        CutStep(sqlText, start, i, statements);
        if Trim(current) != "" { statements := statements + [Trim(current)]; }
        current := "";
        i := i + 1;
        start := i;
        assert sqlText[start..i] == "";
        continue;
      }
      ghost var (after, n) := Next(sqlText, i, mode);
      Extend(sqlText, start, i, n);
      var read: nat;
      read, dollarTag, inLineComment, inBlockComment, inSingleQuote :=
        ReadOne(sqlText, i, dollarTag, inLineComment, inBlockComment, inSingleQuote);
      current := current + sqlText[i..i + read];
      i := i + read;
      mode := after;
    }
    LastStep(sqlText, start, mode, statements);
    if Trim(current) != "" { statements := statements + [Trim(current)]; }
  }

  // ---------- Nothing is lost but the separators ----------

  lemma {:induction false} JoinCons(pieces: seq<string>, piece: string, rest: seq<string>)
    requires pieces == [piece] + rest && rest != []
    ensures Join(pieces, ";") == piece + ";" + Join(rest, ";")
  {
    assert pieces[1..] == rest;
  }

  lemma {:induction false} CutSlices(text: string, start: nat, i: nat)
    requires start <= i < |text| && text[i] == ';'
    ensures text[start..] == text[start..i] + ";" + text[i + 1..]
  {
  }

  lemma {:induction false} RawJoins(text: string, start: nat, i: nat, mode: Mode)
    requires start <= i <= |text| && ValidMode(mode)
    ensures Join(RawFrom(text, start, i, mode), ";") == text[start..]
    decreases |text| - i
  {
    hide Next;
    var pieces := RawFrom(text, start, i, mode);
    if i == |text| {
      RawEnds(text, start, mode);
    } else if IsCut(text, i, mode) {
      RawJoins(text, i + 1, i + 1, Base);
      JoinCons(pieces, text[start..i], RawFrom(text, i + 1, i + 1, Base));
      CutSlices(text, start, i);
    } else {
      var (after, n) := Next(text, i, mode);
      RawJoins(text, start, i + n, after);
    }
  }

  lemma {:induction false} RawEnds(text: string, start: nat, mode: Mode)
    requires start <= |text| && ValidMode(mode)
    ensures Join(RawFrom(text, start, |text|, mode), ";") == text[start..]
  {
  }

  /** The text without its base-mode semicolons. */
  function WithoutCuts(text: string, i: nat, mode: Mode): string
    requires i <= |text| && ValidMode(mode)
    decreases |text| - i
  {
    if i == |text| then ""
    else if IsCut(text, i, mode) then WithoutCuts(text, i + 1, Base)
    else
      var (after, n) := Next(text, i, mode);
      text[i..i + n] + WithoutCuts(text, i + n, after)
  }

  /** The text without its white space. */
  function Squeezed(s: string): string {
    if s == "" then "" else SqueezedChar(s[0]) + Squeezed(s[1..])
  }

  function SqueezedChar(c: char): string { if IsSpace(c) then "" else [c] }

  function Concat(pieces: seq<string>): string {
    if pieces == [] then "" else pieces[0] + Concat(pieces[1..])
  }

  lemma {:induction false} RawConcat(text: string, start: nat, i: nat, mode: Mode)
    requires start <= i <= |text| && ValidMode(mode)
    ensures Concat(RawFrom(text, start, i, mode)) == text[start..i] + WithoutCuts(text, i, mode)
    decreases |text| - i
  {
    hide Next, IsCut;
    if i == |text| {
      assert Concat([text[start..i]]) == text[start..i];
    } else if IsCut(text, i, mode) {
      RawConcat(text, i + 1, i + 1, Base);
      ConcatCons(text[start..i], RawFrom(text, i + 1, i + 1, Base));
    } else {
      var (after, n) := Next(text, i, mode);
      RawConcat(text, start, i + n, after);
      ReadOn(text, start, i, n, WithoutCuts(text, i + n, after));
    }
  }

  lemma {:induction false} ReadOn(text: string, start: nat, i: nat, n: nat, rest: string)
    requires start <= i <= i + n <= |text|
    ensures text[start..i + n] + rest == text[start..i] + (text[i..i + n] + rest)
  {
  }

  lemma {:induction false} ConcatCons(piece: string, rest: seq<string>)
    ensures Concat([piece] + rest) == piece + Concat(rest)
  {
    assert ([piece] + rest)[1..] == rest;
  }

  lemma {:induction false} SolidAppend(a: string, b: string)
    ensures Squeezed(a + b) == Squeezed(a) + Squeezed(b)
  {
    hide SqueezedChar;
    if a == "" {
      assert a + b == b;
    } else {
      SolidAppend(a[1..], b);
      assert (a + b)[1..] == a[1..] + b;
      Associative(SqueezedChar(a[0]), Squeezed(a[1..]), Squeezed(b));
    }
  }

  lemma {:induction false} SpaceIsSqueezed(s: string)
    requires AllSpace(s)
    ensures Squeezed(s) == ""
  {
    hide IsSpace;
    if s == "" {
    } else {
      SpaceIsSqueezed(s[1..]);
    }
  }

  lemma {:induction false} TrimSqueezes(s: string)
    ensures Squeezed(Trim(s)) == Squeezed(s)
  {
    hide Trim;
    var rest := s[LeadLen(s)..];
    TrimSplits(s);
    LeadLenStops(s);
    TrailLenStops(rest);
    SpaceIsSqueezed(Leading(s));
    SpaceIsSqueezed(Trailing(rest));
    SolidAppend(Leading(s) + Trim(s), Trailing(rest));
    SolidAppend(Leading(s), Trim(s));
  }

  lemma {:induction false} CleanSqueezes(pieces: seq<string>)
    ensures Squeezed(Concat(DropEmpty(TrimAll(pieces)))) == Squeezed(Concat(pieces))
  {
    hide Trim;
    if pieces == [] {
    } else {
      var clean := DropEmpty(TrimAll(pieces[1..]));
      CleanSqueezes(pieces[1..]);
      CleanCons(pieces[0], pieces[1..]);
      assert pieces == [pieces[0]] + pieces[1..];
      TrimSqueezes(pieces[0]);
      SolidAppend(pieces[0], Concat(pieces[1..]));
      SolidAppend(Trim(pieces[0]), Concat(clean));
      ConcatCons(Trim(pieces[0]), clean);
      assert Squeezed("") == "" && "" + Squeezed(Concat(clean)) == Squeezed(Concat(clean));
      assert [] + clean == clean;
    }
  }

  /** The pieces with the semicolons put back are the text, and the statements run together are the
      text without its separators, up to white space. */
  lemma {:induction false} NothingLost(text: string)
    ensures Join(Raw(text), ";") == text
    ensures Squeezed(Concat(Statements(text))) == Squeezed(WithoutCuts(text, 0, Base))
  {
    RawJoins(text, 0, 0, Base);
    assert text[0..] == text;
    RawConcat(text, 0, 0, Base);
    assert text[0..0] + WithoutCuts(text, 0, Base) == WithoutCuts(text, 0, Base);
    CleanSqueezes(Raw(text));
  }

  // ---------- Splitting is a homomorphism ----------

  lemma {:induction false} WordEndLocal(s: string, t: string, i: nat)
    requires i <= |s|
    ensures WordEnd(s + ";" + t, i) == WordEnd(s, i)
    decreases |s| - i
  {
    var u := s + ";" + t;
    if i < |s| {
      assert u[i] == s[i];
      if IsWord(s[i]) { WordEndLocal(s, t, i + 1); }
    } else {
      assert u[i] == ';';
    }
  }

  lemma {:induction false} TagLocal(s: string, t: string, i: nat)
    requires i < |s|
    ensures TagLength(s + ";" + t, i) == TagLength(s, i)
  {
    var u := s + ";" + t;
    assert u[i] == s[i];
    WordEndLocal(s, t, i + 1);
    var end := WordEnd(s, i + 1);
    assert u[end] == if end < |s| then s[end] else ';';
  }

  lemma {:induction false} TagHasNoSemicolon(tag: string, k: nat)
    requires IsTag(tag) && k < |tag|
    ensures tag[k] != ';'
  {
    if 1 <= k < |tag| - 1 { assert IsWord(tag[k]); }
  }

  lemma {:induction false} StartsLocal(s: string, t: string, tag: string, i: nat)
    requires i < |s| && IsTag(tag)
    ensures StartsWith(s + ";" + t, tag, i) <==> StartsWith(s, tag, i)
  {
    var u := s + ";" + t;
    if i + |tag| <= |s| {
      assert u[i..i + |tag|] == s[i..i + |tag|];
    } else {
      assert u[|s|] == ';';
      TagHasNoSemicolon(tag, |s| - i);
      if i + |tag| <= |u| { assert u[i..i + |tag|][|s| - i] == ';'; }
    }
  }

  lemma {:induction false} CharsLocal(s: string, t: string, i: nat)
    requires i < |s|
    ensures var u := s + ";" + t;
      u[i] == s[i] && u[i + 1] == if i + 1 < |s| then s[i + 1] else ';'
  {
  }

  lemma {:induction false} BaseLocal(s: string, t: string, i: nat)
    requires i < |s|
    ensures NextBase(s + ";" + t, i) == NextBase(s, i)
  {
    var u, n := s + ";" + t, TagLength(s, i);
    CharsLocal(s, t, i);
    TagLocal(s, t, i);
    assert u[i..i + n] == s[i..i + n];
  }

  /** A semicolon after the text does not change how the text is read. */
  lemma {:induction false} NextLocal(s: string, t: string, i: nat, mode: Mode)
    requires i < |s| && ValidMode(mode)
    ensures Next(s + ";" + t, i, mode) == Next(s, i, mode)
  {
    CharsLocal(s, t, i);
    match mode
    case Dollar(tag) => StartsLocal(s, t, tag, i);
    case Base => BaseLocal(s, t, i);
    case _ =>
  }

  lemma {:induction false} CharsShift(x: string, t: string, j: nat)
    ensures forall c :: Is(x + t, |x| + j, c) == Is(t, j, c)
  {
    if j < |t| { assert (x + t)[|x| + j] == t[j]; }
  }

  lemma {:induction false} SliceShift(x: string, t: string, j: nat, n: nat)
    requires j + n <= |t|
    ensures (x + t)[|x| + j..|x| + j + n] == t[j..j + n]
  {
  }

  lemma {:induction false} WordEndShift(x: string, t: string, j: nat)
    requires j <= |t|
    ensures WordEnd(x + t, |x| + j) == |x| + WordEnd(t, j)
    decreases |t| - j
  {
    if j == |t| {
    } else {
      assert (x + t)[|x| + j] == t[j];
      if IsWord(t[j]) { WordEndShift(x, t, j + 1); }
    }
  }

  lemma {:induction false} TagShift(x: string, t: string, j: nat)
    requires j < |t|
    ensures TagLength(x + t, |x| + j) == TagLength(t, j)
  {
    assert (x + t)[|x| + j] == t[j];
    WordEndShift(x, t, j + 1);
    var end := WordEnd(t, j + 1);
    if end < |t| { assert (x + t)[|x| + end] == t[end]; }
  }

  lemma {:induction false} NextShift(x: string, t: string, j: nat, mode: Mode)
    requires j < |t| && ValidMode(mode)
    ensures Next(x + t, |x| + j, mode) == Next(t, j, mode)
  {
    assert (x + t)[|x| + j] == t[j];
    CharsShift(x, t, j + 1);
    match mode
    case Dollar(tag) => if j + |tag| <= |t| { SliceShift(x, t, j, |tag|); }
    case Base =>
      TagShift(x, t, j);
      SliceShift(x, t, j, TagLength(t, j));
    case _ =>
  }

  /** `u` reads like `t` from offset `d` on. */
  ghost predicate ReadsAs(u: string, d: nat, t: string) {
    && |u| == d + |t|
    && (forall j, k :: 0 <= j <= k <= |t| ==> t[j..k] == u[d + j..d + k])
    && (forall j, mode :: 0 <= j < |t| ==> IsCut(u, d + j, mode) == IsCut(t, j, mode))
    && (forall j, mode :: 0 <= j < |t| && ValidMode(mode) ==> Next(u, d + j, mode) == Next(t, j, mode))
  }

  lemma {:induction false} RawShift(u: string, d: nat, t: string, start: nat, j: nat, mode: Mode)
    requires start <= j <= |t| && ValidMode(mode) && ReadsAs(u, d, t)
    ensures RawFrom(u, d + start, d + j, mode) == RawFrom(t, start, j, mode)
    decreases |t| - j
  {
    hide Next;
    assert t[start..j] == u[d + start..d + j];
    if j == |t| {
    } else {
      if IsCut(t, j, mode) {
        RawShift(u, d, t, j + 1, j + 1, Base);
      } else {
        var (after, n) := Next(t, j, mode);
        RawShift(u, d, t, start, j + n, after);
      }
    }
  }

  lemma {:induction false} AppendedReads(x: string, t: string)
    ensures ReadsAs(x + t, |x|, t)
  {
    forall j, k | 0 <= j <= k <= |t|
      ensures t[j..k] == (x + t)[|x| + j..|x| + k]
    {
      SliceShift(x, t, j, k - j);
    }
    forall j, mode | 0 <= j < |t|
      ensures IsCut(x + t, |x| + j, mode) == IsCut(t, j, mode)
    {
      CharsShift(x, t, j);
    }
    forall j, mode | 0 <= j < |t| && ValidMode(mode)
      ensures Next(x + t, |x| + j, mode) == Next(t, j, mode)
    {
      NextShift(x, t, j, mode);
    }
  }

  lemma {:induction false} AtSeparator(s: string, t: string, start: nat)
    requires start <= |s|
    ensures RawFrom(s + ";" + t, start, |s|, Base) == [s[start..|s|]] + Raw(t)
  {
    hide Next, ReadsAs;
    var u := s + ";" + t;
    SliceLocal(s, t, start, |s|);
    assert u[|s|] == ';';
    assert u == (s + ";") + t;
    AppendedReads(s + ";", t);
    RawShift(u, |s| + 1, t, 0, 0, Base);
  }

  lemma {:induction false} RawSplits(s: string, t: string, start: nat, i: nat, mode: Mode)
    requires start <= i <= |s| && ValidMode(mode) && EndMode(s, i, mode) == Base
    ensures RawFrom(s + ";" + t, start, i, mode) == RawFrom(s, start, i, mode) + Raw(t)
    decreases |s| - i
  {
    hide Next;
    if i == |s| {
      AtSeparator(s, t, start);
    } else {
      CharsLocal(s, t, i);
      NextLocal(s, t, i, mode);
      var (after, n) := Next(s, i, mode);
      if IsCut(s, i, mode) {
        CutReads(s, i);
        RawSplits(s, t, i + 1, i + 1, Base);
        SliceLocal(s, t, start, i);
      } else {
        RawSplits(s, t, start, i + n, after);
      }
    }
  }

  lemma {:induction false} SliceLocal(s: string, t: string, start: nat, i: nat)
    requires start <= i <= |s|
    ensures (s + ";" + t)[start..i] == s[start..i]
  {
  }

  lemma {:induction false} CutReads(s: string, i: nat)
    requires i < |s| && s[i] == ';'
    ensures Next(s, i, Base) == (Base, 1)
  {
  }

  lemma {:induction false} TrimAllAppend(a: seq<string>, b: seq<string>)
    ensures TrimAll(a + b) == TrimAll(a) + TrimAll(b)
  {
    hide Trim;
    if a == [] {
      assert a + b == b;
    } else {
      TrimAllAppend(a[1..], b);
      assert (a + b)[1..] == a[1..] + b;
      Associative([Trim(a[0])], TrimAll(a[1..]), TrimAll(b));
    }
  }

  lemma {:induction false} DropEmptyAppend(a: seq<string>, b: seq<string>)
    ensures DropEmpty(a + b) == DropEmpty(a) + DropEmpty(b)
  {
    if a == [] {
      assert a + b == b;
    } else {
      DropEmptyAppend(a[1..], b);
      assert (a + b)[1..] == a[1..] + b;
      Associative([a[0]], DropEmpty(a[1..]), DropEmpty(b));
    }
  }

  /** When the scan of `s` ends outside every comment, quote and dollar quote, a semicolon after it
      separates: the statements of the whole are those of the two sides. */
  lemma {:induction false} Homomorphism(s: string, t: string)
    requires EndMode(s, 0, Base) == Base
    ensures Statements(s + ";" + t) == Statements(s) + Statements(t)
  {
    RawSplits(s, t, 0, 0, Base);
    TrimAllAppend(Raw(s), Raw(t));
    DropEmptyAppend(TrimAll(Raw(s)), TrimAll(Raw(t)));
  }

  // ---------- And only then ----------

  /** Something other than white space stands between the two offsets. */
  predicate Inked(text: string, start: nat, i: nat)
    requires start <= i <= |text|
  {
    exists k :: start <= k < i && !IsSpace(text[k])
  }

  lemma {:induction false} OpenersAreInk(text: string, i: nat)
    requires i < |text| && Next(text, i, Base).0 != Base
    ensures !IsSpace(text[i])
  {
  }

  lemma {:induction false} InkStays(text: string, start: nat, i: nat, j: nat)
    requires start <= i <= j <= |text| && Inked(text, start, i)
    ensures Inked(text, start, j)
  {
    hide IsSpace;
  }

  /** A semicolon and a letter leave a comment or quote open. */
  lemma {:induction false} OpenReadsOn(u: string, i: nat, mode: Mode)
    requires i < |u| && ValidMode(mode) && mode != Base && (u[i] == ';' || u[i] == 'x')
    ensures Next(u, i, mode) == (mode, 1) && !IsCut(u, i, mode)
  {
  }

  lemma {:induction false} OpenEnd(s: string, start: nat, mode: Mode)
    requires start <= |s| && ValidMode(mode) && mode != Base
    ensures RawFrom(s + ";" + "x", start, |s|, mode) == [s[start..] + ";x"]
  {
    hide Next;
    var u := s + ";" + "x";
    assert u[|s|] == ';' && u[|s| + 1] == 'x' && |u| == |s| + 2;
    OpenReadsOn(u, |s|, mode);
    OpenReadsOn(u, |s| + 1, mode);
    assert RawFrom(u, start, |s|, mode) == RawFrom(u, start, |s| + 1, mode);
    assert RawFrom(u, start, |s| + 1, mode) == RawFrom(u, start, |s| + 2, mode);
    assert u[start..|s| + 2] == s[start..] + ";x";
  }

  /** The pieces with the last one made longer. */
  function LastLonger(pieces: seq<string>, more: string): seq<string>
    requires pieces != []
  {
    pieces[..|pieces| - 1] + [pieces[|pieces| - 1] + more]
  }

  lemma {:induction false} LongerCons(piece: string, pieces: seq<string>, more: string)
    requires pieces != []
    ensures LastLonger([piece] + pieces, more) == [piece] + LastLonger(pieces, more)
  {
  }

  lemma {:induction false} OpenRaw(s: string, start: nat, i: nat, mode: Mode)
    requires start <= i <= |s| && ValidMode(mode) && EndMode(s, i, mode) != Base
    requires mode != Base ==> Inked(s, start, i)
    ensures var pieces := RawFrom(s, start, i, mode);
      && RawFrom(s + ";" + "x", start, i, mode) == LastLonger(pieces, ";x")
      && Trim(pieces[|pieces| - 1]) != ""
    decreases |s| - i
  {
    hide Next, Trim, IsSpace;
    if i == |s| {
      OpenEnd(s, start, mode);
      assert s[start..i] == s[start..];
      InkIsNotBlank(s, start);
    } else {
      CharsLocal(s, "x", i);
      NextLocal(s, "x", i, mode);
      var (after, n) := Next(s, i, mode);
      if IsCut(s, i, mode) {
        CutReads(s, i);
        OpenRaw(s, i + 1, i + 1, Base);
        SliceLocal(s, "x", start, i);
        LongerCons(s[start..i], RawFrom(s, i + 1, i + 1, Base), ";x");
      } else {
        if mode == Base && after != Base { OpenersAreInk(s, i); }
        if after != Base && mode != Base { InkStays(s, start, i, i + n); }
        OpenRaw(s, start, i + n, after);
      }
    }
  }

  lemma {:induction false} InkIsNotBlank(text: string, start: nat)
    requires start <= |text| && Inked(text, start, |text|)
    ensures Trim(text[start..]) != ""
  {
    hide IsSpace, Trim;
    var k :| start <= k < |text| && !IsSpace(text[k]);
    assert text[start..][k - start] == text[k];
    TrimIsEmpty(text[start..]);
  }

  lemma {:induction false} BlankPrefix(piece: string, more: string)
    requires Trim(piece) != ""
    ensures Trim(piece + more) != ""
  {
    hide IsSpace, Trim;
    TrimIsEmpty(piece);
    TrimIsEmpty(piece + more);
    if AllSpace(piece + more) {
      forall k | 0 <= k < |piece| ensures IsSpace(piece[k]) { assert (piece + more)[k] == piece[k]; }
    }
  }

  lemma {:induction false} LastCounts(front: seq<string>, piece: string)
    requires Trim(piece) != ""
    ensures |DropEmpty(TrimAll(front + [piece]))| == |DropEmpty(TrimAll(front))| + 1
  {
    hide Trim;
    TrimAllAppend(front, [piece]);
    DropEmptyAppend(TrimAll(front), TrimAll([piece]));
    var one := [Trim(piece)];
    assert [piece][1..] == [] && one[1..] == [];
    assert TrimAll([piece]) == one + [];
    assert DropEmpty(one) == one + DropEmpty(one[1..]);
  }

  lemma {:induction false} LetterIsStatement()
    ensures Statements("x") == ["x"]
  {
    assert Next("x", 0, Base) == (Base, 1);
    assert "x"[0..1] == "x";
    assert RawFrom("x", 0, 1, Base) == ["x"[0..1]];
    assert RawFrom("x", 0, 0, Base) == RawFrom("x", 0, 1, Base);
    LetterIsTrimmed();
    CleanCons("x", []);
    assert ["x"] + [] == ["x"];
  }

  lemma {:induction false} LetterIsTrimmed()
    ensures Trim("x") == "x"
  {
    PadsRecovered("", "x", "");
    assert "" + "x" + "" == "x";
  }

  /** A text that ends inside a comment or quote swallows what follows its semicolon. */
  lemma {:induction false} OpenTextSwallows(s: string)
    requires EndMode(s, 0, Base) != Base
    ensures Statements(s + ";" + "x") != Statements(s) + Statements("x")
  {
    hide Next, Trim, Raw;
    OpenRaw(s, 0, 0, Base);
    var pieces := RawFrom(s, 0, 0, Base);
    RawIs(s);
    RawIs(s + ";" + "x");
    var front, last := pieces[..|pieces| - 1], pieces[|pieces| - 1];
    assert pieces == front + [last];
    BlankPrefix(last, ";x");
    LastCounts(front, last);
    LastCounts(front, last + ";x");
    LetterIsStatement();
  }

  lemma {:induction false} RawIs(s: string)
    ensures Raw(s) == RawFrom(s, 0, 0, Base)
  {
  }

  /** A semicolon after `s` separates it from every text exactly when the scan of `s` ends outside
      every comment, quote and dollar quote. */
  lemma {:induction false} SeparatesExactly(s: string)
    ensures (forall t: string :: Statements(s + ";" + t) == Statements(s) + Statements(t)) <==> EndMode(s, 0, Base) == Base
  {
    hide Statements, EndMode;
    if EndMode(s, 0, Base) == Base {
      forall t: string ensures Statements(s + ";" + t) == Statements(s) + Statements(t) { Homomorphism(s, t); }
    } else {
      OpenTextSwallows(s);
    }
  }

  // ---------- A dollar-quoted block is never cut ----------

  /** The tag does not stand anywhere from `lo` to `hi`. */
  ghost predicate NoTag(text: string, tag: string, lo: nat, hi: nat) {
    forall k :: lo <= k < hi ==> !StartsWith(text, tag, k)
  }

  lemma {:induction false} DollarSkips(text: string, start: nat, i: nat, end: nat, tag: string)
    requires start <= i <= end <= |text| && IsTag(tag) && NoTag(text, tag, i, end)
    ensures RawFrom(text, start, i, Dollar(tag)) == RawFrom(text, start, end, Dollar(tag))
    decreases end - i
  {
    if i >= end {
    } else {
      assert !StartsWith(text, tag, i);
      DollarSkips(text, start, i + 1, end, tag);
    }
  }

  lemma {:induction false} TagFound(tag: string, rest: string)
    requires IsTag(tag)
    ensures TagLength(tag + rest, 0) == |tag|
  {
    var text := tag + rest;
    WordSpan(text, 1, |tag| - 1);
  }

  lemma {:induction false} WordSpan(text: string, i: nat, end: nat)
    requires i <= end < |text| && !IsWord(text[end]) && forall k :: i <= k < end ==> IsWord(text[k])
    ensures WordEnd(text, i) == end
    decreases end - i
  {
    if i >= end {
    } else {
      WordSpan(text, i + 1, end);
    }
  }

  lemma {:induction false} BlockOpens(text: string, tag: string, rest: string)
    requires IsTag(tag) && text == tag + rest
    ensures Raw(text) == RawFrom(text, 0, |tag|, Dollar(tag))
  {
    TagFound(tag, rest);
    assert text[0..|tag|] == tag && text[0] == '$';
  }

  /** `DO $$ ... $$`: whatever the body holds, semicolons included, the block is one statement. */
  lemma {:induction false} DollarBlockIsWhole(tag: string, body: string)
    requires IsTag(tag)
    requires NoTag(tag + body + tag, tag, |tag|, |tag| + |body|)
    ensures Statements(tag + body + tag) == [tag + body + tag]
  {
    hide RawFrom;
    var text := tag + body + tag;
    assert text == tag + (body + tag);
    BlockOpens(text, tag, body + tag);
    DollarSkips(text, 0, |tag|, |tag| + |body|, tag);
    BlockCloses(text, |tag| + |body|, tag);
    Untrimmed(text);
    OneStatement(text);
  }

  lemma {:induction false} OneStatement(text: string)
    requires Raw(text) == [text] && Trim(text) == text && text != ""
    ensures Statements(text) == [text]
  {
    assert TrimAll([text]) == [text];
  }

  lemma {:induction false} BlockCloses(text: string, close: nat, tag: string)
    requires IsTag(tag) && close + |tag| == |text| && text[close..] == tag
    ensures RawFrom(text, 0, close, Dollar(tag)) == [text]
  {
    assert text[close..close + |tag|] == tag && text[close] == tag[0];
    assert text[0..|text|] == text;
  }

  lemma {:induction false} Untrimmed(text: string)
    requires text != "" && text[0] == '$' && text[|text| - 1] == '$'
    ensures Trim(text) == text
  {
    assert LeadLen(text) == 0 && TrailLen(text) == 0;
    assert text[0..] == text;
  }
}
