/** Merging is a simultaneous splice, keeps human edits, and is idempotent. */
module RegionsTheorems {
  import opened Strings
  import opened Regions

  // ---------- Documents with matched, disjoint regions ----------

  /** One region and the text between it and the region before it. */
  datatype Section = Section(gap: Doc, id: string, recorded: Option<Digest>, content: Doc)

  predicate NoOpen(d: Doc) { forall i :: 0 <= i < |d| ==> !d[i].Open? }

  predicate Plain(d: Doc) { forall i :: 0 <= i < |d| ==> d[i].Char? }

  /** Stray end markers may stand between regions; inside one there is only text. */
  predicate Tidy(s: Section) { NoOpen(s.gap) && Plain(s.content) }

  predicate AllTidy(ss: seq<Section>) { forall i :: 0 <= i < |ss| ==> Tidy(ss[i]) }

  function Body1(s: Section): Doc { [Open(s.id, s.recorded)] + s.content + [Close(s.id)] }

  function Shown(s: Section): Doc { s.gap + Body1(s) }

  /** The document made of these sections and the text after them. */
  function Whole(ss: seq<Section>, tail: Doc): Doc
    decreases |ss|
  {
    if ss == [] then tail else Whole(ss[..|ss| - 1], Shown(ss[|ss| - 1]) + tail)
  }

  predicate Edited(s: Section) { s.recorded.Some? && s.recorded.value != HashContent(s.content) }

  function RegionOf(s: Section, offset: nat): Region {
    var start := offset + |s.gap|;
    Region(s.id, s.recorded, HashContent(s.content), s.content, start, start + |s.content| + 2, Edited(s))
  }

  function Length(ss: seq<Section>): nat { |Whole(ss, [])| }

  function RegionsOf(ss: seq<Section>): (r: seq<Region>)
    ensures |r| == |ss|
    decreases |ss|
  {
    if ss == [] then []
    else RegionsOf(ss[..|ss| - 1]) + [RegionOf(ss[|ss| - 1], Length(ss[..|ss| - 1]))]
  }

  lemma {:induction false} WholeAppend(ss: seq<Section>, a: Doc)
    ensures Whole(ss, a) == Whole(ss, []) + a
    decreases |ss|
  {
    if ss == [] {
    } else {
      var s := Shown(ss[|ss| - 1]);
      WholeAppend(ss[..|ss| - 1], s + a);
      WholeAppend(ss[..|ss| - 1], s + []);
      assert s + [] == s;
    }
  }

  lemma {:induction false} LengthSnoc(ss: seq<Section>)
    requires ss != []
    ensures Length(ss) == Length(ss[..|ss| - 1]) + |Shown(ss[|ss| - 1])|
  {
    WholeAppend(ss[..|ss| - 1], Shown(ss[|ss| - 1]) + []);
  }

  // ---------- Parsing such a document ----------

  predicate At(d: Doc, i: nat, part: Doc) { i + |part| <= |d| && d[i..i + |part|] == part }

  lemma {:induction false} AtSplit(d: Doc, i: nat, a: Doc, b: Doc)
    requires At(d, i, a + b)
    ensures At(d, i, a) && At(d, i + |a|, b)
  {
    var t := d[i..i + |a + b|];
    assert t[..|a|] == a && t[|a|..] == b;
  }

  lemma {:induction false} SkipText(d: Doc, i: nat, part: Doc)
    requires At(d, i, part) && NoOpen(part)
    ensures RegionsFrom(d, i) == RegionsFrom(d, i + |part|)
    decreases |part|
  {
    if part == [] {
    } else {
      assert part == [part[0]] + part[1..];
      AtSplit(d, i, [part[0]], part[1..]);
      assert d[i] == d[i..i + 1][0] == part[0];
      assert NoOpen(part[1..]);
      SkipText(d, i + 1, part[1..]);
    }
  }

  lemma {:induction false} CloseAfter(d: Doc, i: nat, part: Doc, id: string)
    requires At(d, i, part) && Plain(part) && i + |part| < |d| && d[i + |part|] == Close(id)
    ensures FirstClose(d, id, i) == i + |part|
    decreases |part|
  {
    if part == [] {
    } else {
      assert part == [part[0]] + part[1..];
      AtSplit(d, i, [part[0]], part[1..]);
      assert d[i] == d[i..i + 1][0] == part[0];
      assert Plain(part[1..]);
      CloseAfter(d, i + 1, part[1..], id);
    }
  }

  lemma {:induction false} SectionLayout(d: Doc, i: nat, s: Section)
    requires At(d, i, Shown(s))
    ensures var start, end := i + |s.gap|, i + |s.gap| + 1 + |s.content|;
      && At(d, i, s.gap) && end < |d| && end + 1 == i + |Shown(s)|
      && d[start] == Open(s.id, s.recorded) && At(d, start + 1, s.content) && d[end] == Close(s.id)
  {
    var start := i + |s.gap|;
    var open, close := [Open(s.id, s.recorded)], [Close(s.id)];
    AtSplit(d, i, s.gap, Body1(s));
    assert Body1(s) == open + (s.content + close);
    AtSplit(d, start, open, s.content + close);
    AtSplit(d, start + 1, s.content, close);
    assert d[start..start + 1][0] == d[start];
    var end := start + 1 + |s.content|;
    assert d[end..end + 1][0] == d[end];
  }

  lemma {:induction false} PartsParsed(d: Doc, start: nat, id: string, content: Doc)
    requires start + 1 + |content| < |d| && d[start].Open? && d[start].id == id
    requires At(d, start + 1, content) && Plain(content) && d[start + 1 + |content|] == Close(id)
    ensures var end := start + 1 + |content|;
      RegionsFrom(d, start) == [RegionAt(d, start, end)] + RegionsFrom(d, end + 1)
  {
    CloseAfter(d, start + 1, content, id);
    ContentSkipped(d, start + 1, content);
  }

  lemma {:induction false} RegionIs(d: Doc, start: nat, s: Section)
    requires start >= |s.gap| && start + 1 + |s.content| < |d|
    requires d[start] == Open(s.id, s.recorded) && At(d, start + 1, s.content)
    ensures RegionAt(d, start, start + 1 + |s.content|) == RegionOf(s, start - |s.gap|)
  {
  }

  lemma {:induction false} SectionParsed(d: Doc, i: nat, s: Section)
    requires At(d, i, Shown(s)) && Tidy(s)
    ensures i + |Shown(s)| <= |d|
    ensures RegionsFrom(d, i) == [RegionOf(s, i)] + RegionsFrom(d, i + |Shown(s)|)
  {
    hide RegionsFrom;
    SectionLayout(d, i, s);
    SkipText(d, i, s.gap);
    PartsParsed(d, i + |s.gap|, s.id, s.content);
    RegionIs(d, i + |s.gap|, s);
  }

  lemma {:induction false} ContentSkipped(d: Doc, i: nat, content: Doc)
    requires At(d, i, content) && Plain(content) && i + |content| < |d| && d[i + |content|].Close?
    ensures RegionsFrom(d, i) == RegionsFrom(d, i + |content| + 1)
  {
    PlainNoOpen(content);
    SkipText(d, i, content);
  }

  lemma {:induction false} PlainNoOpen(d: Doc)
    requires Plain(d)
    ensures NoOpen(d)
  {
  }

  lemma {:induction false} LastLayout(front: seq<Section>, shown: Doc, tail: Doc)
    ensures var d := Whole(front, shown + tail);
      && At(d, Length(front), shown) && At(d, Length(front) + |shown|, tail)
      && |d| == Length(front) + |shown| + |tail|
  {
    WholeAppend(front, shown + tail);
    var d := Whole(front, shown + tail);
    assert d[Length(front)..] == shown + tail;
    assert At(d, Length(front), shown + tail);
    AtSplit(d, Length(front), shown, tail);
  }

  lemma {:induction false} LastParsed(front: seq<Section>, s: Section, tail: Doc)
    requires Tidy(s)
    ensures var d, i := Whole(front, Shown(s) + tail), Length(front);
      && i + |Shown(s)| <= |d|
      && RegionsFrom(d, i) == [RegionOf(s, i)] + RegionsFrom(d, i + |Shown(s)|)
  {
    LastLayout(front, Shown(s), tail);
    SectionParsed(Whole(front, Shown(s) + tail), Length(front), s);
  }

  lemma {:induction false} WholeLast(ss: seq<Section>, tail: Doc)
    requires ss != [] && AllTidy(ss)
    ensures var front, s := ss[..|ss| - 1], ss[|ss| - 1];
      && Whole(ss, tail) == Whole(front, Shown(s) + tail) && AllTidy(front) && Tidy(s)
      && RegionsOf(ss) == RegionsOf(front) + [RegionOf(s, Length(front))] && Length(ss) == Length(front) + |Shown(s)|
  {
    hide Tidy, RegionOf, Shown, Length;
    LengthSnoc(ss);
  }

  lemma {:induction false} WholeParsed(ss: seq<Section>, tail: Doc)
    requires AllTidy(ss)
    ensures Length(ss) <= |Whole(ss, tail)|
    ensures RegionsFrom(Whole(ss, tail), 0) == RegionsOf(ss) + RegionsFrom(Whole(ss, tail), Length(ss))
    decreases |ss|
  {
    hide RegionsFrom, RegionOf, Shown, Tidy, AllTidy, Whole, Length;
    if ss == [] {
      NothingWhole(tail);
    } else {
      var front, s := ss[..|ss| - 1], ss[|ss| - 1];
      WholeLast(ss, tail);
      LastParsed(front, s, tail);
      WholeParsed(front, Shown(s) + tail);
      Assoc(RegionsOf(front), RegionOf(s, Length(front)), RegionsFrom(Whole(ss, tail), Length(ss)));
    }
  }

  lemma {:induction false} NothingWhole(tail: Doc)
    ensures Whole([], tail) == tail && Length([]) == 0
    ensures RegionsFrom(tail, 0) == [] + RegionsFrom(tail, 0)
  {
  }

  lemma {:induction false} Assoc(xs: seq<Region>, x: Region, ys: seq<Region>)
    ensures xs + ([x] + ys) == xs + [x] + ys
  {
  }

  /** A tidy document parses to its regions, at their offsets. */
  lemma {:induction false} ParsesBack(ss: seq<Section>, tail: Doc)
    requires AllTidy(ss) && NoOpen(tail)
    ensures RegionsFrom(Whole(ss, tail), 0) == RegionsOf(ss)
  {
    var d := Whole(ss, tail);
    WholeParsed(ss, tail);
    WholeAppend(ss, tail);
    assert At(d, Length(ss), tail);
    SkipText(d, Length(ss), tail);
    assert RegionsFrom(d, |d|) == [];
  }

  // ---------- What a rendered region holds ----------

  predicate AllBlank(d: Doc) { forall i :: 0 <= i < |d| ==> IsBlank(d[i]) }

  lemma {:induction false} BlankTrims(d: Doc)
    requires AllBlank(d)
    ensures DocTrimStart(d) == [] && DocTrimEnd(d) == []
    decreases |d|
  {
    if d == [] {
    } else {
      assert AllBlank(d[1..]) && AllBlank(d[..|d| - 1]);
      BlankTrims(d[1..]);
      BlankTrims(d[..|d| - 1]);
    }
  }

  lemma {:induction false} TrimEndBlankTail(d: Doc, w: Doc)
    requires AllBlank(w)
    ensures DocTrimEnd(d + w) == DocTrimEnd(d)
    decreases |w|
  {
    if w == [] {
      assert d + w == d;
    } else {
      assert (d + w)[..|d + w| - 1] == d + w[..|w| - 1];
      TrimEndBlankTail(d, w[..|w| - 1]);
    }
  }

  /** White space at the end does not reach the hash. */
  lemma {:induction false} TrimBlankTail(d: Doc, w: Doc)
    requires AllBlank(w)
    ensures DocTrim(d + w) == DocTrim(d)
    decreases |d|
  {
    if d == [] {
      assert d + w == w;
      BlankTrims(w);
    } else if IsBlank(d[0]) {
      assert (d + w)[1..] == d[1..] + w;
      TrimBlankTail(d[1..], w);
    } else {
      TrimEndBlankTail(d, w);
    }
  }

  lemma {:induction false} TrimEndCuts(d: Doc)
    ensures AllBlank(d[|DocTrimEnd(d)|..])
    decreases |d|
  {
    if d != [] && IsBlank(d[|d| - 1]) {
      var front := d[..|d| - 1];
      TrimEndCuts(front);
      var n := |DocTrimEnd(d)|;
      forall i | 0 <= i < |d[n..]| ensures IsBlank(d[n..][i]) {
        if n + i < |front| { assert d[n..][i] == front[n..][i]; }
      }
    }
  }

  /** Trimming the end stops at something other than white space. */
  lemma {:induction false} TrimEndStops(d: Doc)
    ensures DocTrimEnd(d) != [] ==> !IsBlank(d[|DocTrimEnd(d)| - 1])
    decreases |d|
  {
    if d != [] && IsBlank(d[|d| - 1]) { TrimEndStops(d[..|d| - 1]); }
  }

  /** The content without white space at its end, on lines of its own. */
  function OwnLines(content: Doc): Doc { [Char('\n')] + DocTrimEnd(content) + [Char('\n')] }

  lemma {:induction false} NewlineIsBlank()
    ensures AllBlank([Char('\n')])
  {
  }

  lemma {:induction false} InnerIs(content: Doc)
    ensures Inner(content) == OwnLines(content)
  {
    NewlineIsBlank();
    TrimEndBlankTail(content, [Char('\n')]);
  }

  lemma {:induction false} TrimBlankHead(d: Doc)
    ensures DocTrim([Char('\n')] + d) == DocTrim(d)
  {
    NewlineIsBlank();
    assert ([Char('\n')] + d)[1..] == d;
  }

  /** The hash of a content is that of the content on lines of its own. */
  lemma {:induction false} HashOfOwnLines(content: Doc)
    ensures HashContent(OwnLines(content)) == HashContent(content) == HashContent(NEWLINE + Body(content))
  {
    hide DocTrim, DocTrimStart, DocTrimEnd;
    var newline, kept := [Char('\n')], DocTrimEnd(content);
    NewlineIsBlank();
    TrimEndCuts(content);
    assert content == kept + content[|kept|..];
    TrimBlankTail(kept, content[|kept|..]);
    TrimBlankTail(kept, newline);
    assert newline + kept + newline == newline + (kept + newline);
    TrimBlankHead(kept + newline);
    TrimBlankTail(content, newline);
    TrimBlankHead(Body(content));
  }

  // ---------- The simultaneous splice ----------

  /** A region that holds this content as it was generated. */
  function RenderedSection(gap: Doc, id: string, content: Doc): Section {
    Section(gap, id, Some(HashContent(content)), OwnLines(content))
  }

  /** What becomes of one section, whatever happens to the others. */
  function MergeSection(s: Section, generated: Generated, force: bool): Section {
    var latest := Get(generated, s.id);
    if latest.None? || (Edited(s) && !force) then s
    else RenderedSection(s.gap, s.id, latest.value)
  }

  function MergeAll(ss: seq<Section>, generated: Generated, force: bool): (r: seq<Section>)
    ensures |r| == |ss| && forall i :: 0 <= i < |r| ==> r[i] == MergeSection(ss[i], generated, force)
    decreases |ss|
  {
    if ss == [] then []
    else MergeAll(ss[..|ss| - 1], generated, force) + [MergeSection(ss[|ss| - 1], generated, force)]
  }

  lemma {:induction false} RenderedShown(gap: Doc, id: string, content: Doc)
    ensures Shown(RenderedSection(gap, id, content)) == gap + RenderRegion(id, content)
  {
    hide Inner, OwnLines, Body, HashContent;
    InnerIs(content);
    HashOfOwnLines(content);
  }

  lemma {:induction false} SpliceOne(d: Doc, a: Doc, gap: Doc, body: Doc, tail: Doc, render: Doc, start: nat, end: nat)
    requires d == a + (gap + body + tail) && start == |a| + |gap| && end == start + |body|
    ensures SliceTo(d, start) + render + SliceFrom(d, end) == a + (gap + render + tail)
  {
    assert d[..start] == a + gap;
    assert d[end..] == tail;
  }

  lemma {:induction false} ReplacedLast(front: seq<Section>, s: Section, tail: Doc, content: Doc, next: Section)
    requires Shown(next) == s.gap + RenderRegion(s.id, content)
    ensures Replaced(Whole(front, Shown(s) + tail), RegionOf(s, Length(front)), content)
         == Whole(front, Shown(next) + tail)
  {
    var region := RegionOf(s, Length(front));
    WholeAppend(front, Shown(s) + tail);
    WholeAppend(front, Shown(next) + tail);
    assert |Body1(s)| == |s.content| + 2;
    SpliceOne(Whole(front, Shown(s) + tail), Whole(front, []), s.gap, Body1(s), tail,
              RenderRegion(s.id, content), region.startIndex, region.endIndex);
  }

  lemma {:induction false} SpliceIsSimultaneous(ss: seq<Section>, tail: Doc, generated: Generated, force: bool)
    ensures SpliceBack(Whole(ss, tail), RegionsOf(ss), generated, force)
         == Whole(MergeAll(ss, generated, force), tail)
    decreases |ss|
  {
    if ss == [] {
    } else {
      var front, s := ss[..|ss| - 1], ss[|ss| - 1];
      var regions := RegionsOf(ss);
      var s' := MergeSection(s, generated, force);
      assert regions[..|regions| - 1] == RegionsOf(front);
      if s' != s || Replaces(RegionOf(s, Length(front)), generated, force) {
        RenderedShown(s.gap, s.id, Get(generated, s.id).value);
        ReplacedLast(front, s, tail, Get(generated, s.id).value, s');
      }
      SpliceIsSimultaneous(front, Shown(s') + tail, generated, force);
      var merged := MergeAll(ss, generated, force);
      assert merged[..|merged| - 1] == MergeAll(front, generated, force);
    }
  }

  // ---------- Appending ----------

  lemma {:induction false} TrimEndAfter(d: Doc, tail: Doc)
    requires d == [] || !IsBlank(d[|d| - 1])
    ensures DocTrimEnd(d + tail) == d + DocTrimEnd(tail)
    decreases |tail|
  {
    if tail == [] {
      assert d + tail == d;
    } else if IsBlank(tail[|tail| - 1]) {
      var front := tail[..|tail| - 1];
      assert (d + tail)[..|d + tail| - 1] == d + front;
      TrimEndAfter(d, front);
    }
  }

  lemma {:induction false} TrimWhole(ss: seq<Section>, tail: Doc)
    ensures DocTrimEnd(Whole(ss, tail)) == Whole(ss, DocTrimEnd(tail))
  {
    WholeAppend(ss, tail);
    WholeAppend(ss, DocTrimEnd(tail));
    if ss != [] {
      LastLayout(ss[..|ss| - 1], Shown(ss[|ss| - 1]), []);
      var d, s := Whole(ss, []), Shown(ss[|ss| - 1]);
      assert s + [] == s && s[|s| - 1] == Close(ss[|ss| - 1].id);
      assert d[|d| - 1] == d[|d| - |s|..|d|][|s| - 1];
    }
    TrimEndAfter(Whole(ss, []), tail);
  }

  lemma {:induction false} WholeSnoc(ss: seq<Section>, s: Section, tail: Doc)
    ensures Whole(ss + [s], tail) == Whole(ss, Shown(s) + tail)
  {
    assert (ss + [s])[..|ss|] == ss;
  }

  function AppendedSection(tail: Doc, id: string, content: Doc): Section {
    RenderedSection(DocTrimEnd(tail) + [Char('\n'), Char('\n')], id, content)
  }

  lemma {:induction false} AppendOneSection(ss: seq<Section>, tail: Doc, id: string, content: Doc)
    ensures AppendOne(Whole(ss, tail), id, content) == Whole(ss + [AppendedSection(tail, id, content)], [Char('\n')])
  {
    hide RenderRegion, OwnLines, DocTrimEnd, Shown, Whole, HashContent;
    var s := AppendedSection(tail, id, content);
    TrimWhole(ss, tail);
    WholeSnoc(ss, s, NEWLINE);
    RenderedShown(s.gap, id, content);
    WholeAppend(ss, DocTrimEnd(tail));
    WholeAppend(ss, Shown(s) + NEWLINE);
    AppendRegroups(Whole(ss, []), DocTrimEnd(tail), RenderRegion(id, content));
    TwoNewlines(DocTrimEnd(tail));
  }

  lemma {:induction false} TwoNewlines(d: Doc)
    ensures d + [Char('\n'), Char('\n')] == d + NEWLINE + NEWLINE
  {
  }

  lemma {:induction false} AppendRegroups(a: Doc, tail: Doc, render: Doc)
    ensures (a + tail) + NEWLINE + NEWLINE + render + NEWLINE
         == a + (((tail + NEWLINE + NEWLINE) + render) + NEWLINE)
  {
  }

  /** The sections and the text after them once the missing regions are appended. */
  function AppendState(ss: seq<Section>, tail: Doc, regions: seq<Region>, generated: Generated): (seq<Section>, Doc)
    decreases |generated|
  {
    if generated == [] then (ss, tail)
    else if HasRegion(regions, generated[0].0) then AppendState(ss, tail, regions, generated[1..])
    else AppendState(ss + [AppendedSection(tail, generated[0].0, generated[0].1)], [Char('\n')], regions, generated[1..])
  }

  lemma {:induction false} AppendsSections(ss: seq<Section>, tail: Doc, regions: seq<Region>, generated: Generated)
    ensures var (ss', tail') := AppendState(ss, tail, regions, generated);
      AppendMissing(Whole(ss, tail), regions, generated) == Whole(ss', tail')
    decreases |generated|
  {
    if generated == [] {
    } else {
      var (id, content) := generated[0];
      if HasRegion(regions, id) {
        AppendsSections(ss, tail, regions, generated[1..]);
      } else {
        AppendOneSection(ss, tail, id, content);
        AppendsSections(ss + [AppendedSection(tail, id, content)], [Char('\n')], regions, generated[1..]);
      }
    }
  }

  // ---------- Merging a tidy document ----------

  /** The sections and the last text of the merged document. */
  function MergeState(ss: seq<Section>, tail: Doc, generated: Generated, force: bool): (seq<Section>, Doc) {
    AppendState(MergeAll(ss, generated, force), tail, RegionsOf(ss), generated)
  }

  /** Merging replaces, keeps and appends whole regions; every other token stays where it was,
      except that white space at the very end goes when something is appended. */
  lemma {:induction false} MergeIsSplice(ss: seq<Section>, tail: Doc, generated: Generated, force: bool)
    requires AllTidy(ss) && NoOpen(tail)
    ensures var (ss', tail') := MergeState(ss, tail, generated, force);
      Merged(Whole(ss, tail), generated, force) == Whole(ss', tail')
  {
    ParsesBack(ss, tail);
    SpliceIsSimultaneous(ss, tail, generated, force);
    AppendsSections(MergeAll(ss, generated, force), tail, RegionsOf(ss), generated);
  }

  // ---------- A fresh region is never taken for an edited one ----------

  /** A freshly rendered region never reads as edited by a human. */
  lemma {:induction false} FreshIsUnedited(gap: Doc, id: string, content: Doc)
    ensures !Edited(RenderedSection(gap, id, content))
  {
    HashOfOwnLines(content);
  }

  // ---------- Idempotence ----------

  predicate PlainContents(generated: Generated) {
    forall k :: 0 <= k < |generated| ==> Plain(generated[k].1)
  }

  predicate Settled(s: Section, generated: Generated, force: bool) {
    MergeSection(s, generated, force) == s
  }

  predicate AllSettled(ss: seq<Section>, generated: Generated, force: bool) {
    forall i :: 0 <= i < |ss| ==> Settled(ss[i], generated, force)
  }

  lemma {:induction false} RenderedSettles(gap: Doc, id: string, content: Doc, generated: Generated, force: bool)
    requires Get(generated, id) == Some(content)
    ensures Settled(RenderedSection(gap, id, content), generated, force)
  {
    FreshIsUnedited(gap, id, content);
  }

  lemma {:induction false} MergeSettles(s: Section, generated: Generated, force: bool)
    ensures Settled(MergeSection(s, generated, force), generated, force)
  {
    var latest := Get(generated, s.id);
    if latest.Some? { RenderedSettles(s.gap, s.id, latest.value, generated, force); }
  }

  lemma {:induction false} GetPlain(generated: Generated, id: string)
    requires PlainContents(generated) && Get(generated, id).Some?
    ensures Plain(Get(generated, id).value)
  {
    if generated[0].0 == id {
    } else {
      GetPlain(generated[1..], id);
    }
  }

  lemma {:induction false} PlainJoin(a: Doc, b: Doc)
    requires Plain(a) && Plain(b)
    ensures Plain(a + b)
  {
  }

  lemma {:induction false} PlainCut(d: Doc, n: nat)
    requires Plain(d) && n <= |d|
    ensures Plain(d[..n])
  {
  }

  lemma {:induction false} OwnLinesPlain(content: Doc)
    requires Plain(content)
    ensures Plain(OwnLines(content))
  {
    var newline, kept := [Char('\n')], DocTrimEnd(content);
    PlainCut(content, |kept|);
    PlainJoin(newline, kept);
    PlainJoin(newline + kept, newline);
  }

  lemma {:induction false} MergeTidy(s: Section, generated: Generated, force: bool)
    requires Tidy(s) && PlainContents(generated)
    ensures Tidy(MergeSection(s, generated, force))
  {
    if Get(generated, s.id).Some? {
      GetPlain(generated, s.id);
      OwnLinesPlain(Get(generated, s.id).value);
    }
  }

  predicate HasSection(ss: seq<Section>, id: string) {
    exists i :: 0 <= i < |ss| && ss[i].id == id
  }

  lemma {:induction false} RegionsHaveIds(ss: seq<Section>)
    ensures forall i :: 0 <= i < |ss| ==> RegionsOf(ss)[i].id == ss[i].id
    decreases |ss|
  {
    if ss == [] {
    } else {
      RegionsHaveIds(ss[..|ss| - 1]);
    }
  }

  lemma {:induction false} HasRegionOf(ss: seq<Section>, id: string)
    ensures HasRegion(RegionsOf(ss), id) <==> HasSection(ss, id)
  {
    RegionsHaveIds(ss);
    if HasSection(ss, id) {
      var i :| 0 <= i < |ss| && ss[i].id == id;
      assert RegionsOf(ss)[i].id == id;
    }
  }

  lemma {:induction false} OneMore(ss: seq<Section>, s: Section, generated: Generated, force: bool)
    requires AllTidy(ss) && AllSettled(ss, generated, force) && Tidy(s) && Settled(s, generated, force)
    ensures AllTidy(ss + [s]) && AllSettled(ss + [s], generated, force)
  {
    hide Tidy, Settled;
  }

  lemma {:induction false} AppendedIsTidy(tail: Doc, id: string, content: Doc, generated: Generated, force: bool)
    requires NoOpen(tail) && Plain(content) && Get(generated, id) == Some(content)
    ensures Tidy(AppendedSection(tail, id, content)) && Settled(AppendedSection(tail, id, content), generated, force)
    ensures AppendedSection(tail, id, content).id == id && NoOpen([Char('\n')])
  {
    hide OwnLines, Settled, Get;
    var s := AppendedSection(tail, id, content);
    OwnLinesPlain(content);
    RenderedSettles(s.gap, id, content, generated, force);
  }

  lemma {:induction false} FirstContents(rest: Generated, generated: Generated)
    requires rest != [] && PlainContents(rest) && forall k :: 0 <= k < |rest| ==> Get(generated, rest[k].0) == Some(rest[k].1)
    ensures Plain(rest[0].1) && PlainContents(rest[1..]) && Get(generated, rest[0].0) == Some(rest[0].1)
    ensures forall k :: 0 <= k < |rest[1..]| ==> Get(generated, rest[1..][k].0) == Some(rest[1..][k].1)
  {
    hide Get, Plain;
  }

  lemma {:induction false} AppendKeeps(
    ss: seq<Section>, tail: Doc, regions: seq<Region>, rest: Generated, generated: Generated, force: bool)
    requires AllTidy(ss) && NoOpen(tail) && AllSettled(ss, generated, force) && PlainContents(rest)
    requires forall k :: 0 <= k < |rest| ==> Get(generated, rest[k].0) == Some(rest[k].1)
    ensures var (ss', tail') := AppendState(ss, tail, regions, rest);
      && AllTidy(ss') && NoOpen(tail') && AllSettled(ss', generated, force) && ss <= ss'
      && (forall k :: 0 <= k < |rest| ==> HasRegion(regions, rest[k].0) || HasSection(ss', rest[k].0))
    decreases |rest|
  {
    hide HasRegion, Settled, AllTidy, AllSettled, PlainContents, NoOpen, AppendedSection, Get, HasSection;
    if rest == [] {
    } else {
      var (id, content) := rest[0];
      FirstContents(rest, generated);
      if HasRegion(regions, id) {
        AppendKeeps(ss, tail, regions, rest[1..], generated, force);
      } else {
        var s := AppendedSection(tail, id, content);
        AppendedIsTidy(tail, id, content, generated, force);
        OneMore(ss, s, generated, force);
        AppendKeeps(ss + [s], [Char('\n')], regions, rest[1..], generated, force);
        SectionAdded(ss, s, AppendState(ss, tail, regions, rest).0);
      }
      RestCovered(ss, tail, regions, rest);
    }
  }

  lemma {:induction false} SectionAdded(ss: seq<Section>, s: Section, more: seq<Section>)
    requires ss + [s] <= more
    ensures ss <= more && HasSection(more, s.id)
  {
    assert more[|ss|] == s;
  }

  lemma {:induction false} RestCovered(ss: seq<Section>, tail: Doc, regions: seq<Region>, rest: Generated)
    requires rest != []
    requires var ss' := AppendState(ss, tail, regions, rest).0;
      && (HasRegion(regions, rest[0].0) || HasSection(ss', rest[0].0))
      && forall k :: 0 <= k < |rest[1..]| ==> HasRegion(regions, rest[1..][k].0) || HasSection(ss', rest[1..][k].0)
    ensures var ss' := AppendState(ss, tail, regions, rest).0;
      forall k :: 0 <= k < |rest| ==> HasRegion(regions, rest[k].0) || HasSection(ss', rest[k].0)
  {
    hide HasRegion, HasSection, AppendState;
    var ss' := AppendState(ss, tail, regions, rest).0;
    forall k | 0 <= k < |rest| ensures HasRegion(regions, rest[k].0) || HasSection(ss', rest[k].0) {
      if k > 0 { assert rest[k] == rest[1..][k - 1]; }
    }
  }

  lemma {:induction false} AppendNothing(ss: seq<Section>, tail: Doc, regions: seq<Region>, rest: Generated)
    requires forall k :: 0 <= k < |rest| ==> HasRegion(regions, rest[k].0)
    ensures AppendState(ss, tail, regions, rest) == (ss, tail)
    decreases |rest|
  {
    if rest == [] {
    } else {
      AppendNothing(ss, tail, regions, rest[1..]);
    }
  }

  lemma {:induction false} DistinctGet(generated: Generated, k: nat)
    requires DistinctKeys(generated) && k < |generated|
    ensures Get(generated, generated[k].0) == Some(generated[k].1)
  {
    if k == 0 {
    } else {
      assert generated[1..][k - 1] == generated[k];
      DistinctGet(generated[1..], k - 1);
    }
  }

  lemma {:induction false} MergedState(ss: seq<Section>, tail: Doc, generated: Generated, force: bool)
    requires AllTidy(ss) && NoOpen(tail) && PlainContents(generated) && DistinctKeys(generated)
    ensures var (ss', tail') := MergeState(ss, tail, generated, force);
      && AllTidy(ss') && NoOpen(tail') && AllSettled(ss', generated, force)
      && (forall k :: 0 <= k < |generated| ==> HasSection(ss', generated[k].0))
  {
    var merged := MergeAll(ss, generated, force);
    forall i | 0 <= i < |ss| ensures Tidy(merged[i]) && Settled(merged[i], generated, force) {
      MergeTidy(ss[i], generated, force);
      MergeSettles(ss[i], generated, force);
    }
    forall k | 0 <= k < |generated| ensures Get(generated, generated[k].0) == Some(generated[k].1) {
      DistinctGet(generated, k);
    }
    AppendKeeps(merged, tail, RegionsOf(ss), generated, generated, force);
    var (ss', tail') := MergeState(ss, tail, generated, force);
    forall k | 0 <= k < |generated| ensures HasSection(ss', generated[k].0) {
      HasRegionOf(ss, generated[k].0);
      if HasSection(ss, generated[k].0) { MergedHas(ss, ss', generated[k].0, generated, force); }
    }
  }

  lemma {:induction false} MergedHas(ss: seq<Section>, ss': seq<Section>, id: string, generated: Generated, force: bool)
    requires MergeAll(ss, generated, force) <= ss' && HasSection(ss, id)
    ensures HasSection(ss', id)
  {
    var i :| 0 <= i < |ss| && ss[i].id == id;
    assert ss'[i] == MergeSection(ss[i], generated, force);
  }

  lemma {:induction false} SettledMerge(ss: seq<Section>, generated: Generated, force: bool)
    requires AllSettled(ss, generated, force)
    ensures MergeAll(ss, generated, force) == ss
    decreases |ss|
  {
  }

  /** Merging the same contents twice is merging them once. */
  lemma {:induction false} MergeIdempotent(ss: seq<Section>, tail: Doc, generated: Generated, force: bool)
    requires AllTidy(ss) && NoOpen(tail) && PlainContents(generated) && DistinctKeys(generated)
    ensures var once := Merged(Whole(ss, tail), generated, force);
      Merged(once, generated, force) == once
  {
    var (ss', tail') := MergeState(ss, tail, generated, force);
    MergeIsSplice(ss, tail, generated, force);
    MergedState(ss, tail, generated, force);
    MergeIsSplice(ss', tail', generated, force);
    SettledMerge(ss', generated, force);
    forall k | 0 <= k < |generated| ensures HasRegion(RegionsOf(ss'), generated[k].0) {
      HasRegionOf(ss', generated[k].0);
    }
    AppendNothing(ss', tail', RegionsOf(ss'), generated);
  }

  /** Without force, a region a human edited comes out token for token, as do the regions nobody
      generated; another one holds the new content on lines of its own, with its hash. The text before each
      region is kept in every case. */
  lemma {:induction false} HumanEditsSurvive(ss: seq<Section>, tail: Doc, generated: Generated, i: nat)
    requires AllTidy(ss) && NoOpen(tail) && PlainContents(generated) && DistinctKeys(generated) && i < |ss|
    ensures var (ss', tail') := MergeState(ss, tail, generated, false);
      && Merged(Whole(ss, tail), generated, false) == Whole(ss', tail')
      && i < |ss'| && ss'[i].gap == ss[i].gap && ss'[i].id == ss[i].id
      && (Edited(ss[i]) || Get(generated, ss[i].id).None? ==> ss'[i] == ss[i])
      && (!Edited(ss[i]) && Get(generated, ss[i].id).Some? ==>
            var content := Get(generated, ss[i].id).value;
            && ss'[i].content == [Char('\n')] + DocTrimEnd(content) + [Char('\n')]
            && ss'[i].recorded == Some(HashContent(content)))
  {
    MergeIsSplice(ss, tail, generated, false);
    AppendPrefix(MergeAll(ss, generated, false), tail, RegionsOf(ss), generated);
  }

  lemma {:induction false} AppendPrefix(ss: seq<Section>, tail: Doc, regions: seq<Region>, rest: Generated)
    ensures ss <= AppendState(ss, tail, regions, rest).0
    decreases |rest|
  {
    if rest == [] {
    } else {
      if HasRegion(regions, rest[0].0) {
        AppendPrefix(ss, tail, regions, rest[1..]);
      } else {
        AppendPrefix(ss + [AppendedSection(tail, rest[0].0, rest[0].1)], [Char('\n')], regions, rest[1..]);
      }
    }
  }

  // ---------- The appended regions ----------

  /** The generated contents that have no region yet, in the order of the map. */
  function News(regions: seq<Region>, generated: Generated): Generated {
    if generated == [] then []
    else (if exists k :: 0 <= k < |regions| && regions[k].id == generated[0].0 then [] else [generated[0]]) + News(regions, generated[1..])
  }

  /** An appended section: two newlines after what was there, and the content on lines of its own. */
  ghost predicate IsAppended(s: Section, entry: (string, Doc), before: Doc) {
    && s.id == entry.0 && s.gap == before + [Char('\n'), Char('\n')]
    && s.content == [Char('\n')] + DocTrimEnd(entry.1) + [Char('\n')] && s.recorded == Some(HashContent(entry.1))
  }

  lemma {:induction false} NewlineTrims()
    ensures DocTrimEnd([Char('\n')]) == []
  {
    NewlineIsBlank();
    assert [Char('\n')][..0] == [];
  }

  /** From position `at` on the sections are the appended ones. */
  ghost predicate AreAppended(sections: seq<Section>, at: nat, news: Generated, before: Doc) {
    |sections| == at + |news|
    && forall j :: 0 <= j < |news| ==> IsAppended(sections[at + j], news[j], if j == 0 then before else [])
  }

  lemma {:induction false} OneMoreAppended(sections: seq<Section>, at: nat, entry: (string, Doc), news: Generated, before: Doc)
    requires at < |sections| && IsAppended(sections[at], entry, before) && AreAppended(sections, at + 1, news, [])
    ensures AreAppended(sections, at, [entry] + news, before)
  {
    hide IsAppended;
    var all := [entry] + news;
    forall j | 0 <= j < |all| ensures IsAppended(sections[at + j], all[j], if j == 0 then before else []) {
      if j > 0 { assert all[j] == news[j - 1] && sections[at + j] == sections[at + 1 + (j - 1)]; }
    }
  }

  lemma {:induction false} AppendsNews(ss: seq<Section>, tail: Doc, regions: seq<Region>, rest: Generated)
    ensures var (ss', tail') := AppendState(ss, tail, regions, rest);
      var news := News(regions, rest);
      && ss <= ss' && AreAppended(ss', |ss|, news, DocTrimEnd(tail)) && tail' == if news == [] then tail else [Char('\n')]
    decreases |rest|
  {
    hide IsAppended, DocTrimEnd, AppendedSection, HasRegion;
    if rest != [] {
      NewOne(regions, rest);
      if HasRegion(regions, rest[0].0) {
        AppendsNews(ss, tail, regions, rest[1..]);
      } else {
        hide AreAppended;
        FirstAppended(tail, rest[0]);
        NewlineTrims();
        AppendsNews(ss + [AppendedSection(tail, rest[0].0, rest[0].1)], [Char('\n')], regions, rest[1..]);
        var all := AppendState(ss, tail, regions, rest).0;
        assert all[|ss|] == AppendedSection(tail, rest[0].0, rest[0].1);
        OneMoreAppended(all, |ss|, rest[0], News(regions, rest[1..]), DocTrimEnd(tail));
      }
    }
  }

  lemma {:induction false} NewOne(regions: seq<Region>, rest: Generated)
    requires rest != []
    ensures News(regions, rest) == if HasRegion(regions, rest[0].0) then News(regions, rest[1..]) else [rest[0]] + News(regions, rest[1..])
  {
  }

  lemma {:induction false} FirstAppended(tail: Doc, entry: (string, Doc))
    ensures IsAppended(AppendedSection(tail, entry.0, entry.1), entry, DocTrimEnd(tail))
  {
    hide DocTrimEnd, HashContent;
  }

  /** A merged document is the old sections, merged one by one, and then a section for each content that had no region. */
  lemma {:induction false} NewsAreAppended(ss: seq<Section>, tail: Doc, generated: Generated, force: bool)
    requires AllTidy(ss) && NoOpen(tail)
    ensures var (ss', tail') := MergeState(ss, tail, generated, force);
      var news := News(RegionsOf(ss), generated);
      && Merged(Whole(ss, tail), generated, force) == Whole(ss', tail')
      && MergeAll(ss, generated, force) <= ss' && AreAppended(ss', |ss|, news, DocTrimEnd(tail))
      && tail' == if news == [] then tail else [Char('\n')]
  {
    hide AppendState, News, Whole, RegionsOf, AreAppended, AllTidy;
    MergeIsSplice(ss, tail, generated, force);
    AppendsNews(MergeAll(ss, generated, force), tail, RegionsOf(ss), generated);
  }
}
