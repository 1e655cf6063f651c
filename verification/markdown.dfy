/** Section parsing of packages/documents/src/markdown.ts: headings end sections, except inside
    fenced code. */
module Markdown {
  import opened Strings
  import opened Chunker

  datatype Section = Section(heading: string, level: nat, content: string, startLine: nat, endLine: nat)

  datatype Heading = Heading(level: nat, title: string)

  // ---------- Lines ----------

  /** `text.replace(/\r\n/g, '\n')`. */
  function UnixLines(text: string): string {
    if |text| < 2 then text
    else if text[0] == '\r' && text[1] == '\n' then "\n" + UnixLines(text[2..])
    else [text[0]] + UnixLines(text[1..])
  }

  function LinesOf(markdown: string): (lines: seq<string>)
    ensures JoinLines(lines) == UnixLines(markdown)
  {
    LinesRejoin(UnixLines(markdown));
    Lines(UnixLines(markdown))
  }

  /** The character of the fence that the line opens or closes. */
  function FenceOf(line: string): Option<char> {
    var i := SpaceEnd(line, 0);
    if i + 3 <= |line| && line[i..i + 3] == "```" then Some('`')
    else if i + 3 <= |line| && line[i..i + 3] == "~~~" then Some('~')
    else None
  }

  function RunEnd(line: string, c: char, i: nat): (end: nat)
    requires i <= |line|
    ensures i <= end <= |line|
    decreases |line| - i
  {
    if i < |line| && line[i] == c then RunEnd(line, c, i + 1) else i
  }

  predicate IsTerminator(c: char) { c == '\n' || c == '\r' || c == '\U{2028}' || c == '\U{2029}' }

  /** White space, hashes, white space to the end of the line. */
  predicate ClosesHeading(line: string, k: nat)
    requires k <= |line|
  {
    SpaceEnd(line, RunEnd(line, '#', SpaceEnd(line, k))) == |line|
  }

  /** The shortest title that reaches `k` and leaves nothing but a closing run. */
  function TitleEnd(line: string, k: nat): (end: Option<nat>)
    requires k <= |line|
    ensures end.Some? ==> k <= end.value <= |line|
    decreases |line| - k
  {
    if ClosesHeading(line, k) then Some(k)
    else if k == |line| || IsTerminator(line[k]) then None
    else TitleEnd(line, k + 1)
  }

  /** The title may start at `p`, or earlier inside the white space after the hashes. */
  function TitleFrom(line: string, hashes: nat, p: nat): Option<Heading>
    requires p <= |line|
  {
    if p <= hashes then None
    else if p < |line| && !IsTerminator(line[p]) && TitleEnd(line, p + 1).Some? then
      Some(Heading(hashes, line[p..TitleEnd(line, p + 1).value]))
    else TitleFrom(line, hashes, p - 1)
  }

  /** An ATX heading: one to six hashes, white space, a title, an optional closing run. */
  function HeadingOf(line: string): Option<Heading> {
    var hashes := RunEnd(line, '#', 0);
    if 1 <= hashes <= 6 then TitleFrom(line, hashes, SpaceEnd(line, hashes)) else None
  }

  // ---------- Fences ----------

  /** The character of the fence that is open before line `i`. */
  function FenceBefore(lines: seq<string>, i: nat): Option<char>
    requires i <= |lines|
  {
    if i == 0 then None
    else
      var before, fence := FenceBefore(lines, i - 1), FenceOf(lines[i - 1]);
      if fence.None? then before
      else if before.None? then fence
      else if fence == before then None
      else before
  }

  /** The line starts a section: a heading, outside every fence. */
  predicate IsHeading(lines: seq<string>, i: nat)
    requires i < |lines|
  {
    FenceBefore(lines, i).None? && FenceOf(lines[i]).None? && HeadingOf(lines[i]).Some?
  }

  // ---------- What the sections are ----------

  function ContentOf(lines: seq<string>, start: nat, end: nat): string
    requires start <= end <= |lines|
  {
    Trim(JoinLines(lines[start..end]))
  }

  /** Lines `startLine` to `endLine` hold the trimmed content and no heading; the line before them is
      the section's heading, or they begin the document; a heading follows them, or they end it. */
  predicate IsSection(lines: seq<string>, s: Section, fallback: string, strip: string -> string) {
    && 1 <= s.startLine <= s.endLine <= |lines|
    && s.content == ContentOf(lines, s.startLine - 1, s.endLine) != ""
    && (forall j :: s.startLine - 1 <= j < s.endLine ==> !IsHeading(lines, j))
    && (s.endLine == |lines| || IsHeading(lines, s.endLine))
    && TitledAt(lines, s.startLine - 1, s.heading, s.level, fallback, strip)
  }

  predicate TitledAt(lines: seq<string>, start: nat, heading: string, level: nat, fallback: string, strip: string -> string)
    requires start <= |lines|
  {
    if start == 0 then heading == fallback && level == 1
    else
      && IsHeading(lines, start - 1)
      && heading == strip(HeadingOf(lines[start - 1]).value.title) && level == HeadingOf(lines[start - 1]).value.level
  }

  predicate Ascending(sections: seq<Section>) {
    forall k, l :: 0 <= k < l < |sections| ==> sections[k].endLine < sections[l].startLine
  }

  predicate Inside(s: Section, i: nat) { s.startLine - 1 <= i < s.endLine }

  /** Each line before `n` that is neither blank nor a heading is inside a section. */
  predicate Covered(lines: seq<string>, n: nat, sections: seq<Section>)
    requires n <= |lines|
  {
    forall i :: 0 <= i < n && !AllSpace(lines[i]) && !IsHeading(lines, i) ==>
      exists k :: 0 <= k < |sections| && Inside(sections[k], i)
  }

  /** What has been reported when the open section starts at line index `start`. */
  ghost predicate Reported(
    lines: seq<string>, sections: seq<Section>, start: nat, fallback: string, strip: string -> string)
    requires start <= |lines|
  {
    && (forall k :: 0 <= k < |sections| ==> IsSection(lines, sections[k], fallback, strip) && sections[k].endLine <= start)
    && Ascending(sections) && Covered(lines, start, sections)
  }

  // ---------- The source's loop ----------

  method ParseMarkdownSections(markdown: string, fallbackTitle: string, strip: string -> string)
    returns (sections: seq<Section>)
    ensures forall k :: 0 <= k < |sections| ==> IsSection(LinesOf(markdown), sections[k], fallbackTitle, strip)
    ensures Ascending(sections) && Covered(LinesOf(markdown), |LinesOf(markdown)|, sections)
  {
    hide HeadingOf, FenceOf, FenceBefore, IsHeading, TitledAt, Reported, LinesOf;
    var ls := LinesOf(markdown);
    sections := [];
    var fenceMarker: Option<char> := None;
    var heading, level := fallbackTitle, 1;
    var startLine := 1;
    var body: seq<string> := [];
    NothingReported(ls, fallbackTitle, strip);
    NoFenceYet(ls);
    for index := 0 to |ls|
      invariant 1 <= startLine <= index + 1 && body == ls[startLine - 1..index]
      invariant fenceMarker == FenceBefore(ls, index)
      invariant forall j :: startLine - 1 <= j < index ==> !IsHeading(ls, j)
      invariant TitledAt(ls, startLine - 1, heading, level, fallbackTitle, strip)
      invariant Reported(ls, sections, startLine - 1, fallbackTitle, strip)
    {
      var line := ls[index];
      LineRead(ls, startLine - 1, index);
      var fence := FenceOf(line);
      if fence.Some? {
        if fenceMarker.None? {
          fenceMarker := fence;
        } else if fence == fenceMarker {
          fenceMarker := None;
        }
        body := body + [line];
        continue;
      }
      var match_ := if fenceMarker.None? then HeadingOf(line) else None;
      if match_.None? {
        body := body + [line];
        continue;
      }
      sections := Flush(sections, ls, body, heading, level, startLine, index, fallbackTitle, strip);
      body := [];
      heading, level := strip(match_.value.title), match_.value.level;
      HeadingSeen(ls, sections, index, heading, level, fallbackTitle, strip);
      startLine := index + 2;
    }
    sections := Flush(sections, ls, body, heading, level, startLine, |ls|, fallbackTitle, strip);
    AllReported(ls, sections, fallbackTitle, strip);
  }

  lemma {:induction false} NoFenceYet(lines: seq<string>)
    ensures FenceBefore(lines, 0) == None
  {
  }

  lemma {:induction false} LineRead(lines: seq<string>, start: nat, i: nat)
    requires start <= i < |lines|
    ensures lines[start..i] + [lines[i]] == lines[start..i + 1]
    ensures var before, fence := FenceBefore(lines, i), FenceOf(lines[i]);
      && FenceBefore(lines, i + 1)
         == (if fence.None? then before else if before.None? then fence else if fence == before then None else before)
      && (IsHeading(lines, i) <==> before.None? && fence.None? && HeadingOf(lines[i]).Some?)
  {
    hide FenceOf, HeadingOf;
  }

  method Flush(
    before: seq<Section>, ghost lines: seq<string>, body: seq<string>, heading: string, level: nat, startLine: nat,
    endLine: nat, ghost fallback: string, ghost strip: string -> string)
    returns (sections: seq<Section>)
    requires 1 <= startLine <= endLine + 1 && endLine <= |lines| && body == lines[startLine - 1..endLine]
    requires forall j :: startLine - 1 <= j < endLine ==> !IsHeading(lines, j)
    requires endLine == |lines| || IsHeading(lines, endLine)
    requires TitledAt(lines, startLine - 1, heading, level, fallback, strip)
    requires Reported(lines, before, startLine - 1, fallback, strip)
    ensures Reported(lines, sections, endLine, fallback, strip)
  {
    hide TitledAt, IsHeading, Trim, JoinLines;
    sections := before;
    var content := Trim(JoinLines(body));
    if content != "" {
      EmptyRange(lines, startLine - 1);
      sections := sections + [Section(heading, level, content, startLine, endLine)];
      assert IsSection(lines, sections[|before|], fallback, strip);
      CoveredBySection(lines, before, sections, startLine - 1, endLine);
    } else {
      BlankRange(lines, before, startLine - 1, endLine);
    }
  }

  lemma {:induction false} NothingReported(lines: seq<string>, fallback: string, strip: string -> string)
    ensures Reported(lines, [], 0, fallback, strip) && TitledAt(lines, 0, fallback, 1, fallback, strip)
  {
  }

  lemma {:induction false} HeadingSeen(
    lines: seq<string>, sections: seq<Section>, i: nat, heading: string, level: nat, fallback: string, strip: string -> string)
    requires i < |lines| && IsHeading(lines, i) && Reported(lines, sections, i, fallback, strip)
    requires heading == strip(HeadingOf(lines[i]).value.title) && level == HeadingOf(lines[i]).value.level
    ensures Reported(lines, sections, i + 1, fallback, strip) && TitledAt(lines, i + 1, heading, level, fallback, strip)
  {
    hide HeadingOf, FenceOf;
  }

  lemma {:induction false} AllReported(lines: seq<string>, sections: seq<Section>, fallback: string, strip: string -> string)
    requires Reported(lines, sections, |lines|, fallback, strip)
    ensures forall k :: 0 <= k < |sections| ==> IsSection(lines, sections[k], fallback, strip)
    ensures Ascending(sections) && Covered(lines, |lines|, sections)
  {
    hide IsSection, Covered;
  }

  lemma {:induction false} EmptyRange(lines: seq<string>, start: nat)
    requires start <= |lines|
    ensures ContentOf(lines, start, start) == ""
  {
    assert lines[start..start] == [];
    AllSpacePads("");
  }

  lemma {:induction false} CoveredBySection(
    lines: seq<string>, before: seq<Section>, sections: seq<Section>, start: nat, end: nat)
    requires start <= end <= |lines| && Covered(lines, start, before)
    requires |sections| == |before| + 1 && sections[..|before|] == before
    requires sections[|before|].startLine == start + 1 && sections[|before|].endLine == end
    ensures Covered(lines, end, sections)
  {
    hide IsHeading, AllSpace;
    forall i | 0 <= i < end && !AllSpace(lines[i]) && !IsHeading(lines, i)
      ensures exists k :: 0 <= k < |sections| && Inside(sections[k], i)
    {
      if i < start {
        var k :| 0 <= k < |before| && Inside(before[k], i);
        assert sections[k] == before[k];
      } else {
        assert Inside(sections[|before|], i);
      }
    }
  }

  lemma {:induction false} JoinAllSpace(lines: seq<string>, i: nat)
    requires i < |lines| && AllSpace(JoinLines(lines))
    ensures AllSpace(lines[i])
  {
    hide IsSpace;
    var all := JoinLines(lines);
    if |lines| <= 1 {
    } else {
      var rest := Join(lines[1..], "\n");
      var n := |lines[0]| + 1;
      assert all == lines[0] + "\n" + rest;
      forall k | 0 <= k < |lines[0]| ensures IsSpace(lines[0][k]) { assert all[k] == lines[0][k]; }
      forall k | 0 <= k < |rest| ensures IsSpace(rest[k]) { assert all[n + k] == rest[k]; }
      if i > 0 { JoinAllSpace(lines[1..], i - 1); }
    }
  }

  lemma {:induction false} BlankRange(lines: seq<string>, before: seq<Section>, start: nat, end: nat)
    requires start <= end <= |lines| && Covered(lines, start, before) && ContentOf(lines, start, end) == ""
    ensures Covered(lines, end, before)
  {
    hide IsHeading, Trim, JoinLines, AllSpace;
    var range := lines[start..end];
    TrimIsEmpty(JoinLines(range));
    forall i | start <= i < end ensures AllSpace(lines[i]) {
      JoinAllSpace(range, i - start);
      assert range[i - start] == lines[i];
    }
  }

  // ---------- Consequences ----------

  /** Sections share no line, so a covered line is in exactly one. */
  lemma {:induction false} OneSectionEach(lines: seq<string>, sections: seq<Section>, i: nat, k: nat, l: nat)
    requires Ascending(sections) && k < |sections| && l < |sections|
    requires Inside(sections[k], i) && Inside(sections[l], i)
    ensures k == l
  {
  }

  /** A line inside a fence never starts a section. */
  lemma {:induction false} FencedLinesStay(lines: seq<string>, s: Section, fallback: string, strip: string -> string)
    requires IsSection(lines, s, fallback, strip) && s.startLine > 1
    ensures FenceBefore(lines, s.startLine - 2).None? && FenceOf(lines[s.startLine - 2]).None?
  {
    hide FenceBefore, FenceOf, HeadingOf, ContentOf;
  }

  /** Between an opening fence and the next fence line of its character every line is fenced. */
  lemma {:induction false} FenceLasts(lines: seq<string>, open: nat, i: nat)
    requires open < i <= |lines| && FenceBefore(lines, open).None? && FenceOf(lines[open]).Some?
    requires forall j :: open < j < i ==> FenceOf(lines[j]) != FenceOf(lines[open])
    ensures FenceBefore(lines, i) == FenceOf(lines[open])
  {
    hide FenceOf;
    if i <= open + 1 {
    } else {
      FenceLasts(lines, open, i - 1);
    }
  }

  // ---------- The result is determined ----------

  lemma {:induction false} SameBounds(lines: seq<string>, s: Section, t: Section, i: nat, fallback: string, strip: string -> string)
    requires IsSection(lines, s, fallback, strip) && IsSection(lines, t, fallback, strip) && Inside(s, i) && Inside(t, i)
    ensures s == t
  {
    hide IsHeading, HeadingOf, ContentOf;
    assert t.startLine > 1 ==> IsHeading(lines, t.startLine - 2);
    assert s.startLine > 1 ==> IsHeading(lines, s.startLine - 2);
    assert s.endLine < |lines| ==> IsHeading(lines, s.endLine);
    assert t.endLine < |lines| ==> IsHeading(lines, t.endLine);
  }

  lemma {:induction false} JoinOfBlank(lines: seq<string>)
    requires forall i :: 0 <= i < |lines| ==> AllSpace(lines[i])
    ensures AllSpace(JoinLines(lines))
  {
    hide IsSpace;
    if |lines| <= 1 {
    } else {
      JoinOfBlank(lines[1..]);
      var rest := Join(lines[1..], "\n");
      var all := lines[0] + "\n" + rest;
      NewlineIsSpace();
      forall k | 0 <= k < |all| ensures IsSpace(all[k]) {
        if k > |lines[0]| { assert all[k] == rest[k - |lines[0]| - 1]; }
      }
    }
  }

  lemma {:induction false} NewlineIsSpace()
    ensures IsSpace('\n')
  {
  }

  /** A reported section holds a line that is not blank. */
  lemma {:induction false} HoldsInk(lines: seq<string>, s: Section, fallback: string, strip: string -> string) returns (i: nat)
    requires IsSection(lines, s, fallback, strip)
    ensures i < |lines| && Inside(s, i) && !AllSpace(lines[i]) && !IsHeading(lines, i)
  {
    hide IsHeading, HeadingOf, Trim, JoinLines, AllSpace, TitledAt;
    var range := lines[s.startLine - 1..s.endLine];
    TrimIsEmpty(JoinLines(range));
    if forall k :: 0 <= k < |range| ==> AllSpace(range[k]) { JoinOfBlank(range); }
    var k :| 0 <= k < |range| && !AllSpace(range[k]);
    i := s.startLine - 1 + k;
    assert range[k] == lines[i];
  }

  ghost predicate AllIn(a: seq<Section>, b: seq<Section>) {
    forall k :: 0 <= k < |a| ==> a[k] in b
  }

  predicate Proper(sections: seq<Section>) {
    Ascending(sections) && forall k :: 0 <= k < |sections| ==> sections[k].startLine <= sections[k].endLine
  }

  lemma {:induction false} SameFirst(a: seq<Section>, b: seq<Section>)
    requires Proper(a) && Proper(b) && AllIn(a, b) && AllIn(b, a) && a != [] && b != []
    ensures a[0] == b[0]
  {
    assert a[0] in b && b[0] in a;
    var k :| 0 <= k < |b| && b[k] == a[0];
    var j :| 0 <= j < |a| && a[j] == b[0];
  }

  lemma {:induction false} ProperTail(a: seq<Section>)
    requires Proper(a) && a != []
    ensures Proper(a[1..])
  {
  }

  lemma {:induction false} NotInNothing(b: seq<Section>)
    ensures AllIn(b, []) ==> b == []
  {
    if b != [] { assert b[0] !in []; }
  }

  lemma {:induction false} SameList(a: seq<Section>, b: seq<Section>)
    requires Proper(a) && Proper(b) && AllIn(a, b) && AllIn(b, a)
    ensures a == b
    decreases |a|
  {
    hide Proper;
    if a == [] {
      NotInNothing(b);
    } else {
      assert a[0] in b;
      SameFirst(a, b);
      TailIn(a, b);
      TailIn(b, a);
      ProperTail(a);
      ProperTail(b);
      SameList(a[1..], b[1..]);
    }
  }

  lemma {:induction false} TailIn(a: seq<Section>, b: seq<Section>)
    requires Proper(a) && Proper(b) && AllIn(a, b) && a != [] && b != [] && a[0] == b[0]
    ensures AllIn(a[1..], b[1..])
  {
    forall k | 0 <= k < |a[1..]| ensures a[1..][k] in b[1..] {
      assert a[k + 1] in b;
      var l :| 0 <= l < |b| && b[l] == a[k + 1];
      assert b[1..][l - 1] == a[k + 1];
    }
  }

  lemma {:induction false} ReportedInOther(
    lines: seq<string>, a: seq<Section>, b: seq<Section>, fallback: string, strip: string -> string)
    requires forall k :: 0 <= k < |a| ==> IsSection(lines, a[k], fallback, strip)
    requires forall k :: 0 <= k < |b| ==> IsSection(lines, b[k], fallback, strip)
    requires Covered(lines, |lines|, b)
    ensures AllIn(a, b)
  {
    hide IsSection, IsHeading, AllSpace;
    forall k | 0 <= k < |a| ensures a[k] in b {
      var i := HoldsInk(lines, a[k], fallback, strip);
      var l :| 0 <= l < |b| && Inside(b[l], i);
      SameBounds(lines, a[k], b[l], i, fallback, strip);
    }
  }

  /** Only one list of sections is as the parser promises: what it returns is determined. */
  lemma {:induction false} SectionsAreDetermined(
    lines: seq<string>, a: seq<Section>, b: seq<Section>, fallback: string, strip: string -> string)
    requires forall k :: 0 <= k < |a| ==> IsSection(lines, a[k], fallback, strip)
    requires forall k :: 0 <= k < |b| ==> IsSection(lines, b[k], fallback, strip)
    requires Ascending(a) && Covered(lines, |lines|, a) && Ascending(b) && Covered(lines, |lines|, b)
    ensures a == b
  {
    hide IsHeading, AllSpace, TitledAt, ContentOf;
    ReportedInOther(lines, a, b, fallback, strip);
    ReportedInOther(lines, b, a, fallback, strip);
    SameList(a, b);
  }
}
