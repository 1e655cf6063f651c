/** Generated regions of packages/docgen/src/regions.ts: `parseRegions`, `renderRegion`,
    `mergeRegions`.

    A document is the sequence of its characters and markers, a marker being what the START or the
    END pattern matches; offsets count these tokens. */
module Regions {
  import opened Strings

  datatype Token =
    | Char(c: char)
    | Open(id: string, recorded: Option<Digest>)
    | Close(id: string)

  type Doc = seq<Token>

  /** The hash of a content is an injective function of what is left of it after trimming; a marker
      can also carry a hash of nothing. */
  datatype Digest = Of(trimmed: Doc) | Unknown(hex: string)

  datatype Region = Region(
    id: string, recorded: Option<Digest>, actual: Digest, content: Doc,
    startIndex: nat, endIndex: nat, humanEdited: bool)

  // ---------- Trimming ----------

  predicate IsBlank(t: Token) { t.Char? && IsSpace(t.c) }

  function DocTrimEnd(d: Doc): (r: Doc)
    ensures |r| <= |d| && r == d[..|r|]
  {
    if d != [] && IsBlank(d[|d| - 1]) then DocTrimEnd(d[..|d| - 1]) else d
  }

  function DocTrimStart(d: Doc): Doc {
    if d != [] && IsBlank(d[0]) then DocTrimStart(d[1..]) else d
  }

  function DocTrim(d: Doc): Doc { DocTrimEnd(DocTrimStart(d)) }

  function HashContent(content: Doc): Digest { Of(DocTrim(content)) }

  // ---------- parseRegions ----------

  /** The first end marker with this id from `i` on, or -1. */
  function FirstClose(d: Doc, id: string, i: nat): (at: int)
    requires i <= |d|
    ensures at == -1 || (i <= at < |d| && d[at] == Close(id))
    decreases |d| - i
  {
    if i == |d| then -1 else if d[i] == Close(id) then i else FirstClose(d, id, i + 1)
  }

  function RegionAt(d: Doc, start: nat, end: nat): Region
    requires start < end < |d| && d[start].Open?
  {
    var content := d[start + 1..end];
    var recorded := d[start].recorded;
    Region(d[start].id, recorded, HashContent(content), content, start, end + 1,
           recorded.Some? && recorded.value != HashContent(content))
  }

  /** The regions whose start marker stands at `i` or later, in document order. */
  function RegionsFrom(d: Doc, i: nat): (r: seq<Region>)
    requires i <= |d|
    ensures forall k :: 0 <= k < |r| ==> r[k].startIndex < r[k].endIndex <= |d|
    decreases |d| - i
  {
    if i == |d| then []
    else if d[i].Open? && FirstClose(d, d[i].id, i + 1) >= 0 then
      [RegionAt(d, i, FirstClose(d, d[i].id, i + 1))] + RegionsFrom(d, i + 1)
    else RegionsFrom(d, i + 1)
  }

  method ParseRegions(d: Doc) returns (regions: seq<Region>)
    ensures regions == RegionsFrom(d, 0)
  {
    regions := [];
    for i := 0 to |d|
      invariant regions + RegionsFrom(d, i) == RegionsFrom(d, 0)
    {
      if d[i].Open? {
        var end := i + 1;
        while end < |d| && d[end] != Close(d[i].id)
          invariant i < end <= |d|
          invariant FirstClose(d, d[i].id, end) == FirstClose(d, d[i].id, i + 1)
        {
          end := end + 1;
        }
        if end == |d| { continue; }
        regions := regions + [RegionAt(d, i, end)];
      }
    }
  }

  // ---------- renderRegion ----------

  const NEWLINE: Doc := [Char('\n')]

  function Body(content: Doc): Doc {
    if content != [] && content[|content| - 1] == Char('\n') then content else content + NEWLINE
  }

  /** What stands between the markers of a rendered region. */
  function Inner(content: Doc): Doc {
    NEWLINE + DocTrimEnd(Body(content)) + NEWLINE
  }

  function RenderRegion(id: string, content: Doc): Doc {
    [Open(id, Some(HashContent(NEWLINE + Body(content))))] + Inner(content) + [Close(id)]
  }

  // ---------- mergeRegions ----------

  /** The generated contents by id, in the order of the map that holds them. */
  type Generated = seq<(string, Doc)>

  function Get(generated: Generated, id: string): (r: Option<Doc>)
    ensures r.Some? <==> exists k :: 0 <= k < |generated| && generated[k].0 == id
  {
    if generated == [] then None
    else if generated[0].0 == id then Some(generated[0].1)
    else Get(generated[1..], id)
  }

  predicate Replaces(region: Region, generated: Generated, force: bool) {
    Get(generated, region.id).Some? && (!region.humanEdited || force)
  }

  /** `slice(0, n)` and `slice(n)`: an offset past the end means the end. */
  function SliceTo(d: Doc, n: nat): Doc { if n <= |d| then d[..n] else d }

  function SliceFrom(d: Doc, n: nat): Doc { if n <= |d| then d[n..] else [] }

  function Replaced(d: Doc, region: Region, content: Doc): Doc {
    SliceTo(d, region.startIndex) + RenderRegion(region.id, content) + SliceFrom(d, region.endIndex)
  }

  /** Replaces the listed regions, the last one first, so that earlier offsets stay valid. */
  function SpliceBack(d: Doc, regions: seq<Region>, generated: Generated, force: bool): Doc
    decreases |regions|
  {
    if regions == [] then d
    else
      var region := regions[|regions| - 1];
      SpliceBack(
        if Replaces(region, generated, force) then Replaced(d, region, Get(generated, region.id).value) else d,
        regions[..|regions| - 1], generated, force)
  }

  predicate HasRegion(regions: seq<Region>, id: string) {
    exists k :: 0 <= k < |regions| && regions[k].id == id
  }

  function AppendOne(d: Doc, id: string, content: Doc): Doc {
    DocTrimEnd(d) + NEWLINE + NEWLINE + RenderRegion(id, content) + NEWLINE
  }

  function AppendMissing(d: Doc, regions: seq<Region>, generated: Generated): Doc
    decreases |generated|
  {
    if generated == [] then d
    else if HasRegion(regions, generated[0].0) then AppendMissing(d, regions, generated[1..])
    else AppendMissing(AppendOne(d, generated[0].0, generated[0].1), regions, generated[1..])
  }

  datatype MergeResult = MergeResult(
    document: Doc, replaced: seq<string>, appended: seq<string>, preserved: seq<string>, orphaned: seq<string>)

  datatype Fate = Replace | Preserve | Orphan

  function FateOf(region: Region, generated: Generated, force: bool): Fate {
    if Get(generated, region.id).None? then Orphan
    else if region.humanEdited && !force then Preserve
    else Replace
  }

  /** `ids` and then the ids of the regions with one fate, last region first. */
  function IdsBack(regions: seq<Region>, fate: Fate, generated: Generated, force: bool, ids: seq<string>): seq<string>
    decreases |regions|
  {
    if regions == [] then ids
    else
      var region := regions[|regions| - 1];
      IdsBack(regions[..|regions| - 1], fate, generated, force,
              if FateOf(region, generated, force) == fate then ids + [region.id] else ids)
  }

  function Orphans(regions: seq<Region>, generated: Generated): seq<string> {
    if regions == [] then []
    else if Get(generated, regions[0].id).None? then [regions[0].id] + Orphans(regions[1..], generated)
    else Orphans(regions[1..], generated)
  }

  /** `ids` and then the generated ids that no region has. */
  function MissingIds(regions: seq<Region>, generated: Generated, ids: seq<string>): seq<string>
    decreases |generated|
  {
    if generated == [] then ids
    else MissingIds(regions, generated[1..], if HasRegion(regions, generated[0].0) then ids else ids + [generated[0].0])
  }

  function Merged(existing: Doc, generated: Generated, force: bool): Doc {
    var regions := RegionsFrom(existing, 0);
    AppendMissing(SpliceBack(existing, regions, generated, force), regions, generated)
  }

  lemma {:induction false} BackStep(d: Doc, regions: seq<Region>, k: nat, generated: Generated, force: bool)
    requires k < |regions|
    ensures SpliceBack(d, regions[..k + 1], generated, force)
         == SpliceBack(if Replaces(regions[k], generated, force)
                       then Replaced(d, regions[k], Get(generated, regions[k].id).value) else d,
                       regions[..k], generated, force)
  {
    assert regions[..k + 1][..k] == regions[..k];
  }

  lemma {:induction false} BackIds(regions: seq<Region>, k: nat, fate: Fate, generated: Generated, force: bool, ids: seq<string>)
    requires k < |regions|
    ensures IdsBack(regions[..k + 1], fate, generated, force, ids)
         == IdsBack(regions[..k], fate, generated, force,
                    if FateOf(regions[k], generated, force) == fate then ids + [regions[k].id] else ids)
  {
    assert regions[..k + 1][..k] == regions[..k];
  }

  lemma {:induction false} MissingStep(d: Doc, regions: seq<Region>, generated: Generated, i: nat)
    requires i < |generated|
    ensures AppendMissing(d, regions, generated[i..])
         == AppendMissing(if HasRegion(regions, generated[i].0) then d
                          else AppendOne(d, generated[i].0, generated[i].1),
                          regions, generated[i + 1..])
  {
    assert generated[i..][1..] == generated[i + 1..];
  }

  lemma {:induction false} MissingId(regions: seq<Region>, generated: Generated, i: nat, ids: seq<string>)
    requires i < |generated|
    ensures MissingIds(regions, generated[i..], ids)
         == MissingIds(regions, generated[i + 1..],
                       if HasRegion(regions, generated[i].0) then ids else ids + [generated[i].0])
  {
    assert generated[i..][1..] == generated[i + 1..];
  }

  /** The first loop of `mergeRegions`. */
  method SpliceRegions(existing: Doc, regions: seq<Region>, generated: Generated, force: bool)
    returns (document: Doc, replaced: seq<string>, preserved: seq<string>)
    ensures document == SpliceBack(existing, regions, generated, force)
    ensures replaced == IdsBack(regions, Replace, generated, force, [])
    ensures preserved == IdsBack(regions, Preserve, generated, force, [])
  {
    document, replaced, preserved := existing, [], [];
    var k := |regions|;
    assert regions[..k] == regions;
    while k > 0
      invariant 0 <= k <= |regions|
      invariant SpliceBack(document, regions[..k], generated, force)
             == SpliceBack(existing, regions, generated, force)
      invariant IdsBack(regions[..k], Replace, generated, force, replaced)
             == IdsBack(regions, Replace, generated, force, [])
      invariant IdsBack(regions[..k], Preserve, generated, force, preserved)
             == IdsBack(regions, Preserve, generated, force, [])
    {
      k := k - 1;
      var region := regions[k];
      BackStep(document, regions, k, generated, force);
      BackIds(regions, k, Replace, generated, force, replaced);
      BackIds(regions, k, Preserve, generated, force, preserved);
      var latest := Get(generated, region.id);
      if latest.None? { continue; }
      if region.humanEdited && !force {
        preserved := preserved + [region.id];
        continue;
      }
      document := Replaced(document, region, latest.value);
      replaced := replaced + [region.id];
    }
  }

  /** The second loop of `mergeRegions`. */
  method AppendGenerated(spliced: Doc, regions: seq<Region>, generated: Generated)
    returns (document: Doc, appended: seq<string>)
    ensures document == AppendMissing(spliced, regions, generated)
    ensures appended == MissingIds(regions, generated, [])
  {
    document, appended := spliced, [];
    for i := 0 to |generated|
      invariant AppendMissing(document, regions, generated[i..]) == AppendMissing(spliced, regions, generated)
      invariant MissingIds(regions, generated[i..], appended) == MissingIds(regions, generated, [])
    {
      MissingStep(document, regions, generated, i);
      MissingId(regions, generated, i, appended);
      if HasRegion(regions, generated[i].0) { continue; }
      document := AppendOne(document, generated[i].0, generated[i].1);
      appended := appended + [generated[i].0];
    }
  }

  method MergeRegions(existing: Doc, generated: Generated, force: bool) returns (r: MergeResult)
    ensures r.document == Merged(existing, generated, force)
    ensures var regions := RegionsFrom(existing, 0);
      && r.replaced == IdsBack(regions, Replace, generated, force, [])
      && r.preserved == IdsBack(regions, Preserve, generated, force, [])
      && r.appended == MissingIds(regions, generated, [])
      && r.orphaned == Orphans(regions, generated)
  {
    var regions := ParseRegions(existing);
    var document, replaced, preserved := SpliceRegions(existing, regions, generated, force);
    var appended;
    document, appended := AppendGenerated(document, regions, generated);
    r := MergeResult(document, replaced, appended, preserved, Orphans(regions, generated));
  }

  // ---------- Every region and every generated id is accounted for once ----------

  function Back<T>(xs: seq<T>): (r: seq<T>)
    ensures |r| == |xs| && forall k :: 0 <= k < |xs| ==> r[k] == xs[|xs| - 1 - k]
  {
    seq(|xs|, (k: nat) requires k < |xs| => xs[|xs| - 1 - k])
  }

  /** The ids of the regions with one fate, in document order. */
  function IdsWith(regions: seq<Region>, fate: Fate, generated: Generated, force: bool): seq<string> {
    if regions == [] then []
    else
      var region := regions[|regions| - 1];
      IdsWith(regions[..|regions| - 1], fate, generated, force)
      + if FateOf(region, generated, force) == fate then [region.id] else []
  }

  /** Some region has that id and that fate. */
  ghost predicate Meets(regions: seq<Region>, fate: Fate, generated: Generated, force: bool, id: string) {
    exists k :: 0 <= k < |regions| && regions[k].id == id && FateOf(regions[k], generated, force) == fate
  }

  lemma {:induction false} IdsMeet(regions: seq<Region>, fate: Fate, generated: Generated, force: bool, id: string)
    ensures id in IdsWith(regions, fate, generated, force) <==> Meets(regions, fate, generated, force, id)
    decreases |regions|
  {
    hide FateOf;
    if regions == [] {
    } else {
      var front, last := regions[..|regions| - 1], |regions| - 1;
      IdsMeet(front, fate, generated, force, id);
      if Meets(front, fate, generated, force, id) {
        var k :| 0 <= k < |front| && front[k].id == id && FateOf(front[k], generated, force) == fate;
        assert regions[k] == front[k];
      }
      if Meets(regions, fate, generated, force, id) {
        var k :| 0 <= k < |regions| && regions[k].id == id && FateOf(regions[k], generated, force) == fate;
        assert k < last ==> front[k] == regions[k];
      }
    }
  }

  lemma {:induction false} FatesCount(regions: seq<Region>, generated: Generated, force: bool)
    ensures |IdsWith(regions, Replace, generated, force)| + |IdsWith(regions, Preserve, generated, force)|
            + |IdsWith(regions, Orphan, generated, force)| == |regions|
    decreases |regions|
  {
    hide FateOf;
    if regions == [] {
    } else {
      FatesCount(regions[..|regions| - 1], generated, force);
    }
  }

  /** The first loop meets the regions last to first. */
  lemma {:induction false} BackIsReversed(regions: seq<Region>, fate: Fate, generated: Generated, force: bool, ids: seq<string>)
    ensures IdsBack(regions, fate, generated, force, ids) == ids + Back(IdsWith(regions, fate, generated, force))
    decreases |regions|
  {
    hide FateOf;
    if regions == [] {
    } else {
      var front, region := regions[..|regions| - 1], regions[|regions| - 1];
      var with := IdsWith(front, fate, generated, force);
      var meets := FateOf(region, generated, force) == fate;
      BackIsReversed(front, fate, generated, force, if meets then ids + [region.id] else ids);
      assert Back(with + [region.id]) == [region.id] + Back(with);
      assert with + [] == with;
    }
  }

  lemma {:induction false} OrphansSnoc(front: seq<Region>, region: Region, generated: Generated)
    ensures Orphans(front + [region], generated)
         == Orphans(front, generated) + (if Get(generated, region.id).None? then [region.id] else [])
  {
    hide Get;
    if front == [] {
      assert front + [region] == [region] && [region][1..] == [];
    } else {
      assert (front + [region])[1..] == front[1..] + [region];
      OrphansSnoc(front[1..], region, generated);
    }
  }

  lemma {:induction false} OrphansAre(regions: seq<Region>, generated: Generated, force: bool)
    ensures Orphans(regions, generated) == IdsWith(regions, Orphan, generated, force)
    decreases |regions|
  {
    hide Get;
    if regions == [] {
    } else {
      var front, region := regions[..|regions| - 1], regions[|regions| - 1];
      OrphansAre(front, generated, force);
      OrphansSnoc(front, region, generated);
      assert regions == front + [region];
    }
  }

  /** The keys of a map are distinct. */
  predicate DistinctKeys(generated: Generated) {
    generated == [] || (Get(generated[1..], generated[0].0).None? && DistinctKeys(generated[1..]))
  }

  /** The generated ids that no region has, in the order of the map. */
  function NewIds(regions: seq<Region>, generated: Generated): (r: seq<string>)
    ensures forall id :: id in r <==> Get(generated, id).Some? && !HasRegion(regions, id)
    ensures DistinctKeys(generated) ==> Distinct(r)
  {
    if generated == [] then []
    else if HasRegion(regions, generated[0].0) then NewIds(regions, generated[1..])
    else [generated[0].0] + NewIds(regions, generated[1..])
  }

  lemma {:induction false} MissingAreNew(regions: seq<Region>, generated: Generated, ids: seq<string>)
    ensures MissingIds(regions, generated, ids) == ids + NewIds(regions, generated)
    decreases |generated|
  {
    hide HasRegion;
    if generated == [] {
    } else {
      MissingAreNew(regions, generated[1..], if HasRegion(regions, generated[0].0) then ids else ids + [generated[0].0]);
    }
  }

  /** Each region is reported once, under its fate: replaced and preserved ids last region first, orphaned
      ones in document order. Appended are exactly the generated ids that no region has, once each. */
  lemma {:induction false} RegionsAccounted(d: Doc, generated: Generated, force: bool)
    ensures var regions := RegionsFrom(d, 0);
      && IdsBack(regions, Replace, generated, force, []) == Back(IdsWith(regions, Replace, generated, force))
      && IdsBack(regions, Preserve, generated, force, []) == Back(IdsWith(regions, Preserve, generated, force))
      && Orphans(regions, generated) == IdsWith(regions, Orphan, generated, force)
      && |IdsWith(regions, Replace, generated, force)| + |IdsWith(regions, Preserve, generated, force)|
         + |IdsWith(regions, Orphan, generated, force)| == |regions|
    ensures forall fate, id :: id in IdsWith(RegionsFrom(d, 0), fate, generated, force)
              <==> Meets(RegionsFrom(d, 0), fate, generated, force, id)
    ensures var appended := MissingIds(RegionsFrom(d, 0), generated, []);
      && (forall id :: id in appended <==> Get(generated, id).Some? && !HasRegion(RegionsFrom(d, 0), id))
      && (DistinctKeys(generated) ==> Distinct(appended))
  {
    hide RegionsFrom, IdsBack, IdsWith, Orphans, MissingIds, Meets, Get, HasRegion;
    var regions := RegionsFrom(d, 0);
    BackIsReversed(regions, Replace, generated, force, []);
    BackIsReversed(regions, Preserve, generated, force, []);
    OrphansAre(regions, generated, force);
    FatesCount(regions, generated, force);
    forall fate, id ensures id in IdsWith(regions, fate, generated, force) <==> Meets(regions, fate, generated, force, id) {
      IdsMeet(regions, fate, generated, force, id);
    }
    MissingAreNew(regions, generated, []);
    assert [] + NewIds(regions, generated) == NewIds(regions, generated);
  }
}
