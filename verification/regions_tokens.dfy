/** Which tokens of any document make a region, and what trimming leaves, token by token,
    packages/docgen/src/regions.ts. */
module RegionsTokens {
  import opened Strings
  import opened StringOrder
  import opened Regions

  // ---------- Regions ----------

  /** The end marker at `end` is the first with the id of the start marker at `start`. */
  predicate FirstEnd(d: Doc, start: nat, end: nat) {
    && start < end < |d| && d[start].Open? && d[end] == Close(d[start].id)
    && forall j :: start < j < end ==> d[j] != Close(d[start].id)
  }

  /** The region between these markers, edited when a hash is recorded that is not that of the content. */
  predicate Stands(r: Region, d: Doc) {
    && 0 < r.endIndex && FirstEnd(d, r.startIndex, r.endIndex - 1)
    && d[r.startIndex] == Open(r.id, r.recorded) && r.content == d[r.startIndex + 1..r.endIndex - 1]
    && r.actual == HashContent(r.content) && r.humanEdited == (r.recorded != None && r.recorded != Some(r.actual))
  }

  lemma {:induction false} CloseIs(d: Doc, id: string, i: nat)
    requires i <= |d|
    ensures var at := FirstClose(d, id, i);
      if at < 0 then forall j :: i <= j < |d| ==> d[j] != Close(id)
      else at < |d| && d[at] == Close(id) && forall j :: i <= j < at ==> d[j] != Close(id)
    decreases |d| - i
  {
    if i < |d| && d[i] != Close(id) { CloseIs(d, id, i + 1); }
  }

  predicate Listed(regions: seq<Region>, start: nat, end: nat) {
    exists k :: 0 <= k < |regions| && regions[k].startIndex == start && regions[k].endIndex == end + 1
  }

  /** The regions whose start marker stands at `i` or later, from front to back. */
  ghost predicate AreRegions(regions: seq<Region>, d: Doc, i: nat) {
    && (forall k :: 0 <= k < |regions| ==> regions[k].startIndex >= i && Stands(regions[k], d))
    && (forall k, l :: 0 <= k < l < |regions| ==> regions[k].startIndex < regions[l].startIndex)
    && (forall start: nat, end: nat :: i <= start && FirstEnd(d, start, end) ==> Listed(regions, start, end))
  }

  lemma {:induction false} RegionStands(d: Doc, start: nat, end: nat)
    requires FirstEnd(d, start, end)
    ensures var r := RegionAt(d, start, end); Stands(r, d) && r.startIndex == start && r.endIndex == end + 1
  {
    hide HashContent;
  }

  lemma {:induction false} OneEnd(d: Doc, start: nat, end: nat, other: nat)
    requires FirstEnd(d, start, end) && FirstEnd(d, start, other)
    ensures end == other
  {
  }

  lemma {:induction false} AddRegion(d: Doc, i: nat, at: nat, r: Region, rest: seq<Region>)
    requires AreRegions(rest, d, i + 1) && FirstEnd(d, i, at) && Stands(r, d) && r.startIndex == i && r.endIndex == at + 1
    ensures AreRegions([r] + rest, d, i)
  {
    hide FirstEnd, Stands;
    var regions := [r] + rest;
    forall start: nat, end: nat | i <= start && FirstEnd(d, start, end) ensures Listed(regions, start, end) {
      if start == i {
        OneEnd(d, i, at, end);
        assert regions[0].startIndex == start;
      } else {
        var k :| 0 <= k < |rest| && rest[k].startIndex == start && rest[k].endIndex == end + 1;
        assert regions[k + 1] == rest[k];
      }
    }
  }

  lemma {:induction false} SkipToken(d: Doc, i: nat, rest: seq<Region>)
    requires AreRegions(rest, d, i + 1) && forall end: nat :: !FirstEnd(d, i, end)
    ensures AreRegions(rest, d, i)
  {
    hide FirstEnd, Stands, Listed;
  }

  /** Every start marker with an end marker of its id behind it makes a region, nested and crossing ones too; no other
      does. */
  lemma {:induction false} RegionsAre(d: Doc, i: nat)
    requires i <= |d|
    ensures AreRegions(RegionsFrom(d, i), d, i)
    decreases |d| - i
  {
    hide FirstClose, AreRegions, RegionAt;
    if i == |d| {
      NoRegions(d);
    } else {
      RegionsAre(d, i + 1);
      if d[i].Open? { CloseIs(d, d[i].id, i + 1); }
      if d[i].Open? && FirstClose(d, d[i].id, i + 1) >= 0 {
        var at := FirstClose(d, d[i].id, i + 1);
        RegionStands(d, i, at);
        AddRegion(d, i, at, RegionAt(d, i, at), RegionsFrom(d, i + 1));
      } else {
        SkipToken(d, i, RegionsFrom(d, i + 1));
      }
    }
  }

  lemma {:induction false} NoRegions(d: Doc)
    ensures AreRegions([], d, |d|)
  {
  }

  // ---------- Trimming ----------

  predicate IsWhite(t: Token) { t.Char? && t.c as int in WHITE_SPACE }

  predicate AllWhite(d: Doc) { forall k :: 0 <= k < |d| ==> IsWhite(d[k]) }

  lemma {:induction false} BlankIs(t: Token)
    ensures IsBlank(t) <==> IsWhite(t)
  {
    if t.Char? { WhiteSpaceIs(t.c); }
  }

  /** What is left has no white space at its end, and only white space is gone. */
  lemma {:induction false} TrimEndIs(d: Doc)
    ensures var r := DocTrimEnd(d);
      && r <= d && AllWhite(d[|r|..]) && (r != [] ==> !IsWhite(r[|r| - 1]))
  {
    hide IsBlank, IsWhite;
    if d != [] {
      var front, last := d[..|d| - 1], d[|d| - 1];
      BlankIs(last);
      if IsBlank(last) {
        TrimEndIs(front);
        var n := |DocTrimEnd(front)|;
        assert d[n..] == front[n..] + [last];
      }
    }
  }

  lemma {:induction false} TrimStartIs(d: Doc)
    ensures var r := DocTrimStart(d);
      && |r| <= |d| && r == d[|d| - |r|..] && AllWhite(d[..|d| - |r|]) && (r != [] ==> !IsWhite(r[0]))
  {
    hide IsBlank, IsWhite;
    if d != [] {
      BlankIs(d[0]);
      if IsBlank(d[0]) {
        TrimStartIs(d[1..]);
        var n := |d| - |DocTrimStart(d[1..])|;
        assert d[..n] == [d[0]] + d[1..][..n - 1];
      }
    }
  }

  /** The text without white space around it. */
  ghost predicate IsCore(core: Doc, d: Doc) {
    && (exists front: Doc, back: Doc {:trigger front + core + back} :: AllWhite(front) && AllWhite(back) && d == front + core + back)
    && (core != [] ==> !IsWhite(core[0]) && !IsWhite(core[|core| - 1]))
  }

  /** A hash is that of the text without white space around it, so two contents have one hash exactly when they are the
      same but for that. */
  lemma {:induction false} HashIs(c: Doc, d: Doc)
    ensures IsCore(DocTrim(c), c) && HashContent(c) == Of(DocTrim(c))
    ensures HashContent(c) == HashContent(d) <==> DocTrim(c) == DocTrim(d)
  {
    hide IsWhite, DocTrimStart, DocTrimEnd;
    var start := DocTrimStart(c);
    var core := DocTrimEnd(start);
    TrimStartIs(c);
    TrimEndIs(start);
    var front, back := c[..|c| - |start|], start[|core|..];
    assert c == front + core + back;
    assert core != [] ==> core[0] == start[0];
  }

  // ---------- What becomes of a region ----------

  /** Without new content a region is an orphan; with new content it is kept when a human edited it and nothing forces
      it, and replaced otherwise, in the document as in the lists. */
  lemma {:induction false} FateIs(region: Region, generated: Generated, force: bool)
    ensures var known := exists k :: 0 <= k < |generated| && generated[k].0 == region.id;
      && (FateOf(region, generated, force) == Orphan <==> !known)
      && (FateOf(region, generated, force) == Preserve <==> known && region.humanEdited && !force)
      && (FateOf(region, generated, force) == Replace <==> known && (region.humanEdited ==> force))
      && (FateOf(region, generated, force) == Replace <==> Replaces(region, generated, force))
  {
  }

  /** A content is the first one of its id. */
  lemma {:induction false} GetIs(generated: Generated, id: string, content: Doc)
    ensures Get(generated, id) == Some(content) <==>
      exists k :: 0 <= k < |generated| && generated[k] == (id, content) && forall j :: 0 <= j < k ==> generated[j].0 != id
  {
    if generated != [] && generated[0].0 != id {
      GetIs(generated[1..], id, content);
      if k :| 0 <= k < |generated| && generated[k] == (id, content) && forall j :: 0 <= j < k ==> generated[j].0 != id {
        assert k > 0 && generated[1..][k - 1] == (id, content);
        assert forall j :: 0 <= j < k - 1 ==> generated[1..][j] == generated[j + 1];
      }
      if k :| 0 <= k < |generated[1..]| && generated[1..][k] == (id, content)
              && forall j :: 0 <= j < k ==> generated[1..][j].0 != id {
        assert generated[k + 1] == (id, content);
        assert forall j :: 0 < j < k + 1 ==> generated[j] == generated[1..][j - 1];
      }
    }
  }
}
