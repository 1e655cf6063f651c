/** Every piece fits the budget and nothing is lost: `splitToBudget` and `chunkSymbols`. */
module ChunkBudget {
  import opened Strings
  import opened Numbers
  import opened Chunker

  // ---------- splitToBudget ----------

  predicate Fits(piece: string, maxTokens: nat) { EstimateTokens(piece) <= maxTokens }

  predicate AllFit(pieces: seq<string>, maxTokens: nat) {
    forall k :: 0 <= k < |pieces| ==> Fits(pieces[k], maxTokens)
  }

  function WindowIfNeeded(piece: string, maxTokens: nat): seq<string> {
    if Fits(piece, maxTokens) then [piece] else Windows(piece, 0, WindowChars(maxTokens))
  }

  function RefineLines(pieces: seq<string>, maxTokens: nat): seq<string> {
    if pieces == [] then [] else WindowIfNeeded(pieces[0], maxTokens) + RefineLines(pieces[1..], maxTokens)
  }

  function Refine(piece: string, maxTokens: nat): seq<string> {
    if Fits(piece, maxTokens) then [piece] else RefineLines(LinePieces(piece, maxTokens), maxTokens)
  }

  function RefineAll(pieces: seq<string>, maxTokens: nat): seq<string> {
    if pieces == [] then [] else Refine(pieces[0], maxTokens) + RefineAll(pieces[1..], maxTokens)
  }

  function BudgetPieces(text: string, maxTokens: nat, overlapTokens: nat): (r: seq<string>) {
    var out := RefineAll(StatementPieces(text, maxTokens, overlapTokens), maxTokens);
    if out == [] then [text] else out
  }

  lemma {:induction false} RefineAppend(out: seq<string>, piece: seq<string>, rest: seq<string>)
    ensures out + (piece + rest) == out + piece + rest
  {
  }

  method SplitToBudget(text: string, maxTokens: nat, overlapTokens: nat) returns (out: seq<string>)
    ensures out == BudgetPieces(text, maxTokens, overlapTokens)
  {
    out := [];
    var pieces := SplitAtStatementBoundaries(text, maxTokens, overlapTokens);
    for i := 0 to |pieces|
      invariant out + RefineAll(pieces[i..], maxTokens) == RefineAll(pieces, maxTokens)
    {
      assert pieces[i..][1..] == pieces[i + 1..];
      RefineAppend(out, Refine(pieces[i], maxTokens), RefineAll(pieces[i + 1..], maxTokens));
      if EstimateTokens(pieces[i]) <= maxTokens {
        out := out + [pieces[i]];
        continue;
      }
      var refined := RefineByLine(pieces[i], maxTokens);
      out := out + refined;
    }
    assert pieces[|pieces|..] == [];
    if |out| == 0 { out := [text]; }
  }

  /** The inner loop, over the line pieces of one oversized piece. */
  method RefineByLine(piece: string, maxTokens: nat) returns (out: seq<string>)
    ensures out == RefineLines(LinePieces(piece, maxTokens), maxTokens)
  {
    out := [];
    var byLine := SplitAtLineBoundaries(piece, maxTokens);
    for i := 0 to |byLine|
      invariant out + RefineLines(byLine[i..], maxTokens) == RefineLines(byLine, maxTokens)
    {
      assert byLine[i..][1..] == byLine[i + 1..];
      RefineAppend(out, WindowIfNeeded(byLine[i], maxTokens), RefineLines(byLine[i + 1..], maxTokens));
      if EstimateTokens(byLine[i]) <= maxTokens {
        out := out + [byLine[i]];
      } else {
        var windows := SplitByCharacterWindow(byLine[i], maxTokens);
        out := out + windows;
      }
    }
    assert byLine[|byLine|..] == [];
  }

  // ---------- Every piece fits, from 74 tokens on ----------

  lemma {:induction false} WindowFits(size: nat, maxTokens: nat)
    requires maxTokens >= 74 && size <= WindowChars(maxTokens)
    ensures Tokens(size) <= maxTokens
  {
  }

  lemma {:induction false} WindowIfNeededFits(piece: string, maxTokens: nat)
    requires maxTokens >= 74
    ensures AllFit(WindowIfNeeded(piece, maxTokens), maxTokens)
  {
    if !Fits(piece, maxTokens) {
      var windows := Windows(piece, 0, WindowChars(maxTokens));
      WindowsTile(piece, 0, WindowChars(maxTokens));
      forall k | 0 <= k < |windows| ensures Fits(windows[k], maxTokens) {
        WindowFits(|windows[k]|, maxTokens);
      }
    }
  }

  lemma {:induction false} RefineLinesFits(pieces: seq<string>, maxTokens: nat)
    requires maxTokens >= 74
    ensures AllFit(RefineLines(pieces, maxTokens), maxTokens)
  {
    if pieces == [] {
    } else {
      WindowIfNeededFits(pieces[0], maxTokens);
      RefineLinesFits(pieces[1..], maxTokens);
    }
  }

  lemma {:induction false} RefineAllFits(pieces: seq<string>, maxTokens: nat)
    requires maxTokens >= 74
    ensures AllFit(RefineAll(pieces, maxTokens), maxTokens)
  {
    if pieces == [] {
    } else {
      RefineLinesFits(LinePieces(pieces[0], maxTokens), maxTokens);
      RefineAllFits(pieces[1..], maxTokens);
    }
  }

  lemma {:induction false} RefineLinesNonempty(pieces: seq<string>, maxTokens: nat)
    requires pieces != []
    ensures RefineLines(pieces, maxTokens) != []
  {
    assert WindowIfNeeded(pieces[0], maxTokens) != [];
  }

  lemma {:induction false} RunsNonempty(lines: seq<string>, current: seq<string>, tokens: nat, maxTokens: nat)
    requires lines != [] || current != []
    ensures LineRuns(lines, current, tokens, maxTokens) != []
    decreases |lines|
  {
    if lines == [] {
    } else {
      var lineTokens := EstimateTokens(lines[0]);
      if !(tokens + lineTokens > maxTokens && current != []) {
        RunsNonempty(lines[1..], current + [lines[0]], tokens + lineTokens, maxTokens);
      }
    }
  }

  /** The fallback for an empty result is never taken. */
  lemma {:induction false} PiecesNonempty(text: string, maxTokens: nat, overlapTokens: nat)
    ensures RefineAll(StatementPieces(text, maxTokens, overlapTokens), maxTokens) != []
  {
    var pieces := StatementPieces(text, maxTokens, overlapTokens);
    if !Fits(pieces[0], maxTokens) {
      RunsNonempty(Lines(pieces[0]), [], 0, maxTokens);
      RefineLinesNonempty(LinePieces(pieces[0], maxTokens), maxTokens);
    }
  }

  lemma {:induction false} BudgetPiecesFit(text: string, maxTokens: nat, overlapTokens: nat)
    requires maxTokens >= 74
    ensures AllFit(BudgetPieces(text, maxTokens, overlapTokens), maxTokens)
  {
    PiecesNonempty(text, maxTokens, overlapTokens);
    RefineAllFits(StatementPieces(text, maxTokens, overlapTokens), maxTokens);
  }

  function Repeat(c: char, n: nat): (s: string)
    ensures |s| == n && forall i :: 0 <= i < n ==> s[i] == c
  {
    seq(n, i => c)
  }

  lemma {:induction false} OneLine(text: string)
    requires '\n' !in text
    ensures Lines(text) == [text]
  {
    if text == "" {
    } else {
      assert text[0] in text && (forall c :: c in text[1..] ==> c in text);
      OneLine(text[1..]);
      assert text == [text[0]] + text[1..];
    }
  }

  predicate LongLine(text: string) {
    |text| == 256 && '\n' !in text && !IsSpace(text[255]) && text[255] != ';' && text[255] != '}'
  }

  /** Below 74 tokens the 256-character floor lets a long line through: its one piece is too big. */
  lemma {:induction false} FloorBreaksSmallBudget(text: string, maxTokens: nat, overlapTokens: nat)
    requires maxTokens < 74 && LongLine(text)
    ensures !AllFit(BudgetPieces(text, maxTokens, overlapTokens), maxTokens)
  {
    OneLine(text);
    NoBoundary(text, maxTokens, overlapTokens);
    OneRun(text, maxTokens);
    OneWindow(text, maxTokens);
    assert Refine(text, maxTokens) == RefineLines([text], maxTokens) == [text] + RefineLines([], maxTokens);
    assert RefineAll([text], maxTokens) == [text] + RefineAll([], maxTokens);
    assert BudgetPieces(text, maxTokens, overlapTokens)[0] == text && !Fits(text, maxTokens);
  }

  lemma {:induction false} OneRun(text: string, maxTokens: nat)
    requires Lines(text) == [text]
    ensures LinePieces(text, maxTokens) == [text]
  {
    assert [] + [text] == [text] && [text][1..] == [];
    assert LineRuns([text], [], 0, maxTokens) == LineRuns([], [text], EstimateTokens(text), maxTokens) == [[text]];
    assert JoinAll([[text]]) == [JoinLines([text])] + JoinAll([]);
  }

  lemma {:induction false} OneWindow(text: string, maxTokens: nat)
    requires |text| == 256 && maxTokens < 74
    ensures WindowIfNeeded(text, maxTokens) == [text]
  {
    assert WindowChars(maxTokens) == 256;
    assert Windows(text, 0, 256) == [text[0..256]] + Windows(text, 256, 256);
    assert text[0..256] == text;
  }

  lemma {:induction false} NoBoundary(text: string, maxTokens: nat, overlapTokens: nat)
    requires Lines(text) == [text] && text != "" && !IsSpace(text[|text| - 1])
    requires text[|text| - 1] != ';' && text[|text| - 1] != '}'
    ensures StatementPieces(text, maxTokens, overlapTokens) == [text]
  {
    assert TrailLen(text) == 0;
    assert TrimEnd(text) == text;
    assert !EndsStatement(text);
    assert [] + [text] == [text];
    assert [text][1..] == [];
    var depth := DepthAfter(0, text);
    assert StatementRuns([text], [], 0, 0, maxTokens, overlapTokens)
        == StatementRuns([], [text], EstimateTokens(text), depth, maxTokens, overlapTokens) == [[text]];
  }

  /** `splitToBudget` keeps its contract for every text exactly when the budget is at least 74. */
  lemma {:induction false} ContractHoldsFrom74(maxTokens: nat, overlapTokens: nat)
    ensures (forall text :: AllFit(BudgetPieces(text, maxTokens, overlapTokens), maxTokens)) <==> maxTokens >= 74
  {
    if maxTokens >= 74 {
      forall text ensures AllFit(BudgetPieces(text, maxTokens, overlapTokens), maxTokens) {
        BudgetPiecesFit(text, maxTokens, overlapTokens);
      }
    } else {
      FloorBreaksSmallBudget(Repeat('x', 256), maxTokens, overlapTokens);
    }
  }

  // ---------- Nothing is lost ----------

  /** Each run is the tail of the run before it followed by the next lines, none left out. */
  ghost predicate Covers(runs: seq<seq<string>>, previous: seq<string>, lines: seq<string>)
    decreases |runs|
  {
    if runs == [] then lines == []
    else
      exists k: nat, n: nat ::
        Extends(runs[0], previous, k, lines, n) && Covers(runs[1..], runs[0], lines[n..])
  }

  /** The run is the last `k` lines of the run before it and the next `n` lines. */
  predicate Extends(run: seq<string>, previous: seq<string>, k: nat, lines: seq<string>, n: nat) {
    k <= |previous| && n <= |lines| && run == previous[|previous| - k..] + lines[..n]
  }

  lemma {:induction false} CoversCons(
    run: seq<string>, rest: seq<seq<string>>, previous: seq<string>, k: nat, lines: seq<string>, n: nat)
    requires Extends(run, previous, k, lines, n) && Covers(rest, run, lines[n..])
    ensures Covers([run] + rest, previous, lines)
  {
    var runs := [run] + rest;
    assert runs[0] == run && runs[1..] == rest;
    assert Extends(runs[0], previous, k, lines, n) && Covers(runs[1..], runs[0], lines[n..]);
  }

  lemma {:induction false} RunsCover(
    lines: seq<string>, previous: seq<string>, k: nat, pending: seq<string>, tokens: nat, depth: int,
    maxTokens: nat, overlapTokens: nat)
    requires k <= |previous|
    ensures var current := previous[|previous| - k..] + pending;
      Covers(StatementRuns(lines, current, tokens, depth, maxTokens, overlapTokens), previous, pending + lines)
    decreases |lines|
  {
    var current := previous[|previous| - k..] + pending;
    var all := pending + lines;
    if lines == [] {
      if current != [] {
        assert all[..|pending|] == pending && all[|pending|..] == [];
        assert [current] + [] == [current];
        CoversCons(current, [], previous, k, all, |pending|);
      }
    } else {
      var run := current + [lines[0]];
      var runTokens := tokens + EstimateTokens(lines[0]);
      var next := DepthAfter(depth, lines[0]);
      var pending' := pending + [lines[0]];
      assert lines == [lines[0]] + lines[1..];
      assert run == previous[|previous| - k..] + pending' && all == pending' + lines[1..];
      if runTokens >= maxTokens && next <= 0 && EndsStatement(lines[0]) {
        var (overlap, count) := Overlap(run, overlapTokens);
        var rest := StatementRuns(lines[1..], overlap, count, next, maxTokens, overlapTokens);
        RunsCover(lines[1..], run, |overlap|, [], count, next, maxTokens, overlapTokens);
        assert run[|run| - |overlap|..] + [] == overlap && [] + lines[1..] == lines[1..];
        assert all[..|pending'|] == pending' && all[|pending'|..] == lines[1..];
        CoversCons(run, rest, previous, k, all, |pending'|);
      } else {
        RunsCover(lines[1..], previous, k, pending', runTokens, next, maxTokens, overlapTokens);
      }
    }
  }

  /** Splitting at statement boundaries: overlapping runs that cover the source line by line. */
  lemma {:induction false} StatementRunsCover(source: string, maxTokens: nat, overlapTokens: nat)
    ensures Covers(StatementRuns(Lines(source), [], 0, 0, maxTokens, overlapTokens), [], Lines(source))
    ensures JoinLines(Lines(source)) == source
  {
    RunsCover(Lines(source), [], 0, [], 0, 0, maxTokens, overlapTokens);
    assert [] + Lines(source) == Lines(source);
    LinesRejoin(source);
  }

  /** The tokens of the lines from `i` on. */
  function SumTokens(lines: seq<string>, i: nat): nat
    decreases |lines| - i
  {
    if i >= |lines| then 0 else EstimateTokens(lines[i]) + SumTokens(lines, i + 1)
  }

  lemma {:induction false} OverlapStartSums(lines: seq<string>, start: nat, count: nat, overlapTokens: nat)
    requires start <= |lines| && count == SumTokens(lines, start)
    requires start < |lines| ==> SumTokens(lines, start + 1) < overlapTokens
    ensures var (at, total) := OverlapStart(lines, start, count, overlapTokens);
      && total == SumTokens(lines, at) && (at == 0 || total >= overlapTokens)
      && (at < |lines| ==> SumTokens(lines, at + 1) < overlapTokens)
    decreases start
  {
    if start > 0 && count < overlapTokens {
      OverlapStartSums(lines, start - 1, count + EstimateTokens(lines[start - 1]), overlapTokens);
    }
  }

  /** The overlap is the shortest tail of a run that holds the overlap budget, or the whole run. */
  lemma {:induction false} OverlapIsEnough(lines: seq<string>, overlapTokens: nat)
    ensures var (overlap, count) := Overlap(lines, overlapTokens);
      var start := |lines| - |overlap|;
      && start >= 0 && overlap == lines[start..] && count == SumTokens(lines, start)
      && (start == 0 || count >= overlapTokens)
      && (overlap != [] ==> SumTokens(lines, start + 1) < overlapTokens)
  {
    OverlapStartSums(lines, |lines|, 0, overlapTokens);
  }

  /** The pieces of one refined piece, grouped by the line piece they come from. */
  function GroupLines(pieces: seq<string>, maxTokens: nat): (r: seq<seq<string>>)
    ensures |r| == |pieces|
  {
    if pieces == [] then []
    else [WindowIfNeeded(pieces[0], maxTokens)] + GroupLines(pieces[1..], maxTokens)
  }

  function Groups(piece: string, maxTokens: nat): seq<seq<string>> {
    if Fits(piece, maxTokens) then [[piece]] else GroupLines(LinePieces(piece, maxTokens), maxTokens)
  }

  function ConcatEach(groups: seq<seq<string>>): (r: seq<string>)
    ensures |r| == |groups|
  {
    if groups == [] then [] else [Flatten(groups[0])] + ConcatEach(groups[1..])
  }

  lemma {:induction false} FlattenOne(piece: string)
    ensures Flatten([piece]) == piece
  {
    assert Flatten([piece]) == piece + Flatten([]);
  }

  lemma {:induction false} GroupLinesRejoin(pieces: seq<string>, maxTokens: nat)
    ensures Flatten(GroupLines(pieces, maxTokens)) == RefineLines(pieces, maxTokens)
    ensures ConcatEach(GroupLines(pieces, maxTokens)) == pieces
  {
    if pieces == [] {
    } else {
      GroupLinesRejoin(pieces[1..], maxTokens);
      FlattenOne(pieces[0]);
      WindowsTile(pieces[0], 0, WindowChars(maxTokens));
      assert pieces[0][0..] == pieces[0];
      assert GroupLines(pieces, maxTokens)[1..] == GroupLines(pieces[1..], maxTokens);
    }
  }

  /** Refining an oversized piece loses nothing: the pieces of each group tile a line piece, and the
      line pieces rejoin to the piece. */
  lemma {:induction false} RefineRejoins(piece: string, maxTokens: nat)
    ensures Flatten(Groups(piece, maxTokens)) == Refine(piece, maxTokens)
    ensures JoinLines(ConcatEach(Groups(piece, maxTokens))) == piece
  {
    if Fits(piece, maxTokens) {
      FlattenOne(piece);
      assert Flatten([[piece]]) == [piece] + Flatten([]);
      assert ConcatEach([[piece]]) == [piece];
    } else {
      GroupLinesRejoin(LinePieces(piece, maxTokens), maxTokens);
      LinePiecesRejoin(piece, maxTokens);
    }
  }

  /** The groups of every piece, in order. */
  function AllGroups(pieces: seq<string>, maxTokens: nat): (r: seq<seq<seq<string>>>)
    ensures |r| == |pieces| && forall k :: 0 <= k < |r| ==> r[k] == Groups(pieces[k], maxTokens)
  {
    if pieces == [] then [] else [Groups(pieces[0], maxTokens)] + AllGroups(pieces[1..], maxTokens)
  }

  function FlattenGroups(all: seq<seq<seq<string>>>): seq<string> {
    if all == [] then [] else Flatten(all[0]) + FlattenGroups(all[1..])
  }

  lemma {:induction false} AllGroupsFlatten(pieces: seq<string>, maxTokens: nat)
    ensures FlattenGroups(AllGroups(pieces, maxTokens)) == RefineAll(pieces, maxTokens)
  {
    hide Groups, Refine, Flatten;
    if pieces == [] {
    } else {
      RefineRejoins(pieces[0], maxTokens);
      AllGroupsFlatten(pieces[1..], maxTokens);
      assert AllGroups(pieces, maxTokens)[1..] == AllGroups(pieces[1..], maxTokens);
    }
  }

  lemma {:induction false} StatementRunsExist(
    lines: seq<string>, current: seq<string>, tokens: nat, depth: int, maxTokens: nat, overlapTokens: nat)
    requires lines != [] || current != []
    ensures StatementRuns(lines, current, tokens, depth, maxTokens, overlapTokens) != []
    decreases |lines|
  {
    hide Overlap, DepthAfter, EndsStatement, EstimateTokens;
    if lines == [] {
    } else {
      var next := DepthAfter(depth, lines[0]);
      var runTokens := tokens + EstimateTokens(lines[0]);
      if !(runTokens >= maxTokens && next <= 0 && EndsStatement(lines[0])) {
        StatementRunsExist(lines[1..], current + [lines[0]], runTokens, next, maxTokens, overlapTokens);
      }
    }
  }

  lemma {:induction false} JoinAllAt(runs: seq<seq<string>>, k: nat)
    requires k < |runs|
    ensures JoinAll(runs)[k] == JoinLines(runs[k])
  {
    hide JoinLines;
    if k == 0 {
    } else {
      JoinAllAt(runs[1..], k - 1);
      assert JoinAll(runs)[k] == JoinAll(runs[1..])[k - 1];
    }
  }

  /** The pieces of a split cover the whole text in order: they fall into groups, one per run of
      lines; each group restores its run, and the runs, overlaps aside, are the text's lines. */
  lemma {:induction false} BudgetPiecesCover(text: string, maxTokens: nat, overlapTokens: nat)
    ensures var runs := StatementRuns(Lines(text), [], 0, 0, maxTokens, overlapTokens);
      var all := AllGroups(JoinAll(runs), maxTokens);
      && FlattenGroups(all) == BudgetPieces(text, maxTokens, overlapTokens)
      && |all| == |runs|
      && (forall k :: 0 <= k < |runs| ==> JoinLines(ConcatEach(all[k])) == JoinLines(runs[k]))
      && Covers(runs, [], Lines(text)) && JoinLines(Lines(text)) == text
  {
    hide Groups, Covers, StatementRuns, Lines, JoinLines, RefineAll, FlattenGroups, ConcatEach, Flatten;
    var runs := StatementRuns(Lines(text), [], 0, 0, maxTokens, overlapTokens);
    StatementRunsExist(Lines(text), [], 0, 0, maxTokens, overlapTokens);
    AllGroupsFlatten(JoinAll(runs), maxTokens);
    PiecesNonempty(text, maxTokens, overlapTokens);
    StatementRunsCover(text, maxTokens, overlapTokens);
    forall k | 0 <= k < |runs|
      ensures JoinLines(ConcatEach(AllGroups(JoinAll(runs), maxTokens)[k])) == JoinLines(runs[k])
    {
      JoinAllAt(runs, k);
      RefineRejoins(JoinLines(runs[k]), maxTokens);
    }
  }

  // ---------- chunkSymbols ----------

  datatype Kind = EnumMember | FieldOrProperty | Other

  /** What chunking reads of a symbol: the rendered header and facts, and the uploaded source. */
  datatype Symbol = Symbol(
    restricted: bool, kind: Kind, hasDocComment: bool, header: string, facts: string, source: Option<string>)

  datatype Chunk = Chunk(content: string, ordinal: nat, tokenCount: nat)

  const PART_MARKER_TOKENS := 12
  const MIN_PIECE_TOKENS := 64

  function NonEmpty(parts: seq<string>): seq<string> {
    if parts == [] then []
    else if parts[0] == "" then NonEmpty(parts[1..])
    else [parts[0]] + NonEmpty(parts[1..])
  }

  /** `parts.filter(Boolean).join('\n\n')`. */
  function JoinBlocks(parts: seq<string>): string { Join(NonEmpty(parts), "\n\n") }

  predicate Skipped(symbol: Symbol) {
    symbol.restricted || symbol.kind.EnumMember? || (symbol.kind.FieldOrProperty? && !symbol.hasDocComment)
  }

  function SourceText(symbol: Symbol): string {
    if symbol.source.Some? then symbol.source.value else ""
  }

  function FullText(symbol: Symbol): string {
    var body := JoinBlocks([symbol.facts, SourceText(symbol)]);
    if symbol.header != "" then symbol.header + "\n\n" + body else body
  }

  /** What repeats on each piece, and what is split. */
  function Divide(symbol: Symbol, maxTokens: nat): (r: (string, string))
    ensures EstimateTokens(r.0) <= maxTokens / 2
  {
    var both := JoinBlocks([symbol.header, symbol.facts]);
    if SourceText(symbol) != "" && EstimateTokens(both) <= maxTokens / 2 then (both, SourceText(symbol))
    else if EstimateTokens(symbol.header) <= maxTokens / 2 then
      (symbol.header, JoinBlocks([symbol.facts, SourceText(symbol)]))
    else ("", FullText(symbol))
  }

  function PieceBudget(preamble: string, maxTokens: nat): nat {
    var left := maxTokens - EstimateTokens(preamble) - PART_MARKER_TOKENS;
    if left < MIN_PIECE_TOKENS then MIN_PIECE_TOKENS else left
  }

  function PartText(preamble: string, piece: string, index: nat, count: nat): string {
    JoinBlocks([preamble, "// part " + Decimal(index + 1) + " of " + Decimal(count) + "\n" + piece])
  }

  function MakeChunk(content: string, ordinal: nat): Chunk {
    Chunk(content, ordinal, EstimateTokens(content))
  }

  function PartChunks(preamble: string, pieces: seq<string>): (r: seq<Chunk>)
    ensures |r| == |pieces|
    ensures forall i :: 0 <= i < |r| ==> r[i] == MakeChunk(PartText(preamble, pieces[i], i, |pieces|), i)
  {
    seq(|pieces|, i requires 0 <= i < |pieces| => MakeChunk(PartText(preamble, pieces[i], i, |pieces|), i))
  }

  function PiecesOf(symbol: Symbol, maxTokens: nat, overlapTokens: nat): seq<string> {
    var (preamble, splittable) := Divide(symbol, maxTokens);
    BudgetPieces(splittable, PieceBudget(preamble, maxTokens), overlapTokens)
  }

  function SymbolChunks(symbol: Symbol, maxTokens: nat, overlapTokens: nat): seq<Chunk> {
    if Skipped(symbol) then []
    else if EstimateTokens(FullText(symbol)) <= maxTokens then [MakeChunk(FullText(symbol), 0)]
    else PartChunks(Divide(symbol, maxTokens).0, PiecesOf(symbol, maxTokens, overlapTokens))
  }

  function AllChunks(symbols: seq<Symbol>, maxTokens: nat, overlapTokens: nat): seq<Chunk> {
    if symbols == [] then []
    else SymbolChunks(symbols[0], maxTokens, overlapTokens) + AllChunks(symbols[1..], maxTokens, overlapTokens)
  }

  lemma {:induction false} ChunksStep(
    symbols: seq<Symbol>, i: nat, maxTokens: nat, overlapTokens: nat, chunks: seq<Chunk>)
    requires i < |symbols|
    ensures chunks + AllChunks(symbols[i..], maxTokens, overlapTokens)
         == chunks + SymbolChunks(symbols[i], maxTokens, overlapTokens)
            + AllChunks(symbols[i + 1..], maxTokens, overlapTokens)
    ensures Skipped(symbols[i]) ==> chunks + SymbolChunks(symbols[i], maxTokens, overlapTokens) == chunks
  {
    assert symbols[i..][1..] == symbols[i + 1..];
  }

  method ChunkSymbols(symbols: seq<Symbol>, maxTokens: nat, overlapTokens: nat) returns (chunks: seq<Chunk>)
    ensures chunks == AllChunks(symbols, maxTokens, overlapTokens)
  {
    hide FullText, Divide;
    chunks := [];
    for i := 0 to |symbols|
      invariant chunks + AllChunks(symbols[i..], maxTokens, overlapTokens)
             == AllChunks(symbols, maxTokens, overlapTokens)
    {
      var symbol := symbols[i];
      ChunksStep(symbols, i, maxTokens, overlapTokens, chunks);
      if Skipped(symbol) { continue; }
      var full := FullText(symbol);
      if EstimateTokens(full) <= maxTokens {
        chunks := chunks + [MakeChunk(full, 0)];
        continue;
      }
      var (preamble, splittable) := Divide(symbol, maxTokens);
      var pieces := SplitToBudget(splittable, PieceBudget(preamble, maxTokens), overlapTokens);
      chunks := chunks + PartChunks(preamble, pieces);
    }
    assert symbols[|symbols|..] == [];
  }

  lemma {:induction false} MarkerLength(index: nat, count: nat, digits: nat)
    requires 1 <= digits && index < count < Pow10(digits)
    ensures |"// part " + Decimal(index + 1) + " of " + Decimal(count) + "\n"| <= 13 + 2 * digits
  {
    DecimalLength(index + 1, digits);
    DecimalLength(count, digits);
  }

  lemma {:induction false} TwoBlocks(a: string, b: string)
    requires b != ""
    ensures |JoinBlocks([a, b])| <= |a| + 2 + |b|
  {
    assert NonEmpty([b]) == [b];
    assert [a, b][1..] == [b];
    assert Join([b], "\n\n") == b;
    if a != "" { assert NonEmpty([a, b]) == [a, b]; }
  }

  lemma {:induction false} PartFits(preamble: string, piece: string, index: nat, count: nat, digits: nat, budget: nat)
    requires 1 <= digits <= 13 && index < count < Pow10(digits) && Fits(piece, budget)
    ensures EstimateTokens(PartText(preamble, piece, index, count))
         <= EstimateTokens(preamble) + PART_MARKER_TOKENS + budget
  {
    hide Decimal;
    var marker := "// part " + Decimal(index + 1) + " of " + Decimal(count) + "\n";
    MarkerLength(index, count, digits);
    TwoBlocks(preamble, marker + piece);
    assert |PartText(preamble, piece, index, count)| <= |preamble| + 41 + |piece|;
  }

  /** A piece, floor or not, has at most 256 characters when its budget is below 74. */
  lemma {:induction false} WindowIfNeededShort(piece: string, maxTokens: nat)
    requires maxTokens < 74
    ensures forall p :: p in WindowIfNeeded(piece, maxTokens) ==> |p| <= 256
  {
    WindowsTile(piece, 0, WindowChars(maxTokens));
  }

  lemma {:induction false} RefineLinesShort(pieces: seq<string>, maxTokens: nat)
    requires maxTokens < 74
    ensures forall p :: p in RefineLines(pieces, maxTokens) ==> |p| <= 256
  {
    hide WindowIfNeeded;
    if pieces == [] {
    } else {
      WindowIfNeededShort(pieces[0], maxTokens);
      RefineLinesShort(pieces[1..], maxTokens);
    }
  }

  lemma {:induction false} RefineAllShort(pieces: seq<string>, maxTokens: nat)
    requires maxTokens < 74
    ensures forall p :: p in RefineAll(pieces, maxTokens) ==> |p| <= 256
  {
    hide RefineLines, LinePieces;
    if pieces == [] {
    } else {
      RefineLinesShort(LinePieces(pieces[0], maxTokens), maxTokens);
      RefineAllShort(pieces[1..], maxTokens);
    }
  }

  lemma {:induction false} BudgetPiecesShort(text: string, maxTokens: nat, overlapTokens: nat)
    requires maxTokens < 74
    ensures forall p :: p in BudgetPieces(text, maxTokens, overlapTokens) ==> |p| <= 256
  {
    hide RefineAll, StatementPieces;
    PiecesNonempty(text, maxTokens, overlapTokens);
    RefineAllShort(StatementPieces(text, maxTokens, overlapTokens), maxTokens);
  }

  /** The tokens of the fullest part of a symbol with part numbers of so many digits: a preamble of as many
      characters as half the limit allows, a blank line, the marker, and 256 characters. */
  function FullestPart(maxTokens: nat, digits: nat): nat { Tokens(7 * (maxTokens / 2) / 2 + 271 + 2 * digits) }

  lemma {:induction false} ShortPartFits(preamble: string, piece: string, index: nat, count: nat, digits: nat, maxTokens: nat)
    requires 1 <= digits && index < count < Pow10(digits) && |piece| <= 256 && EstimateTokens(preamble) <= maxTokens / 2
    ensures EstimateTokens(PartText(preamble, piece, index, count)) <= FullestPart(maxTokens, digits)
  {
    hide Decimal;
    var marker := "// part " + Decimal(index + 1) + " of " + Decimal(count) + "\n";
    MarkerLength(index, count, digits);
    TwoBlocks(preamble, marker + piece);
    assert |PartText(preamble, piece, index, count)| <= |preamble| + 271 + 2 * digits;
    assert |preamble| <= 7 * (maxTokens / 2) / 2;
  }

  /** The size bound that the embedding provider imposes. */
  lemma {:induction false} SymbolChunksFit(symbol: Symbol, digits: nat, maxTokens: nat, overlapTokens: nat, k: nat)
    requires 1 <= digits <= 13 && FullestPart(maxTokens, digits) <= maxTokens
    requires |PiecesOf(symbol, maxTokens, overlapTokens)| < Pow10(digits)
    requires k < |SymbolChunks(symbol, maxTokens, overlapTokens)|
    ensures var chunk := SymbolChunks(symbol, maxTokens, overlapTokens)[k];
      EstimateTokens(chunk.content) <= maxTokens && chunk.tokenCount == EstimateTokens(chunk.content)
  {
    hide FullText, BudgetPieces, PartText, FullestPart;
    if !Skipped(symbol) && EstimateTokens(FullText(symbol)) > maxTokens {
      var (preamble, splittable) := Divide(symbol, maxTokens);
      var budget := PieceBudget(preamble, maxTokens);
      var pieces := PiecesOf(symbol, maxTokens, overlapTokens);
      if budget >= 74 {
        BudgetPiecesFit(splittable, budget, overlapTokens);
        PartFits(preamble, pieces[k], k, |pieces|, digits, budget);
      } else {
        BudgetPiecesShort(splittable, budget, overlapTokens);
        ShortPartFits(preamble, pieces[k], k, |pieces|, digits, maxTokens);
      }
    }
  }

  predicate ChunksWithin(chunks: seq<Chunk>, maxTokens: nat) {
    forall k :: 0 <= k < |chunks| ==> EstimateTokens(chunks[k].content) <= maxTokens
  }

  /** The least limit under which every chunk fits when the part numbers have so many digits. */
  function LeastLimit(digits: nat): nat {
    var characters := 271 + 2 * digits;
    2 * Tokens(characters) - (if 2 * characters % 7 == 1 then 2 else 1)
  }

  lemma {:induction false} FullestPartIs(maxTokens: nat, digits: nat)
    ensures var half := maxTokens / 2;
      FullestPart(maxTokens, digits) == if half % 2 == 0 then half + (548 + 4 * digits) / 7 else half - 1 + (554 + 4 * digits) / 7
  {
    var half := maxTokens / 2;
    var quarter := half / 2;
    assert half == 2 * quarter + half % 2;
    if half % 2 == 0 {
      assert 7 * half / 2 == 7 * quarter;
    } else {
      assert 7 * half / 2 == 7 * quarter + 3;
    }
  }

  lemma {:induction false} LeastLimitIs(maxTokens: nat, digits: nat)
    requires 1 <= digits <= 13
    ensures FullestPart(maxTokens, digits) <= maxTokens <==> maxTokens >= LeastLimit(digits)
    ensures LeastLimit(digits) <= 169
  {
    hide FullestPart, LeastLimit;
    FullestPartIs(maxTokens, digits);
    LimitValues(digits);
    var even, odd := (548 + 4 * digits) / 7, (554 + 4 * digits) / 7;
    assert maxTokens == 2 * (maxTokens / 2) + maxTokens % 2;
  }

  /** Rounding up leaves the two kinds of half a limit one token apart, or not. */
  lemma {:induction false} LimitValues(digits: nat)
    requires 1 <= digits <= 13
    ensures var even, odd := (548 + 4 * digits) / 7, (554 + 4 * digits) / 7;
      && 78 <= even <= 85 && even <= odd <= even + 1
      && LeastLimit(digits) == (if odd == even then 2 * even - 2 else 2 * even - 1) && (odd == even ==> even % 2 == 0)
  {
    assert 1 <= digits <= 3 || 4 <= digits <= 6 || 7 <= digits <= 9 || 10 <= digits <= 13;
  }

  /** No chunk exceeds the limit, split or not, preamble and part marker included. */
  lemma {:induction false} ChunksFit(symbols: seq<Symbol>, digits: nat, maxTokens: nat, overlapTokens: nat)
    requires 1 <= digits <= 13 && maxTokens >= LeastLimit(digits)
    requires forall i :: 0 <= i < |symbols| ==> |PiecesOf(symbols[i], maxTokens, overlapTokens)| < Pow10(digits)
    ensures ChunksWithin(AllChunks(symbols, maxTokens, overlapTokens), maxTokens)
  {
    hide EstimateTokens, FullestPart, LeastLimit;
    LeastLimitIs(maxTokens, digits);
    if symbols == [] {
    } else {
      var first := SymbolChunks(symbols[0], maxTokens, overlapTokens);
      forall k | 0 <= k < |first| ensures EstimateTokens(first[k].content) <= maxTokens {
        SymbolChunksFit(symbols[0], digits, maxTokens, overlapTokens, k);
      }
      ChunksFit(symbols[1..], digits, maxTokens, overlapTokens);
    }
  }

  // ---------- No smaller limit does ----------

  lemma {:induction false} WindowsCount(text: string, i: nat, n: nat)
    requires i <= |text| && |text| - i == 256 * n
    ensures |Windows(text, i, 256)| == n
    ensures forall k :: 0 <= k < n ==> |Windows(text, i, 256)[k]| == 256
    decreases n
  {
    if n == 0 {
    } else {
      WindowsCount(text, i + 256, n - 1);
    }
  }

  /** One long line under a budget below 74 falls into windows of 256 characters. */
  lemma {:induction false} LongLinePieces(text: string, n: nat, maxTokens: nat, overlapTokens: nat)
    requires maxTokens < 74 && n >= 1 && |text| == 256 * n && '\n' !in text
    requires !IsSpace(text[|text| - 1]) && text[|text| - 1] != ';' && text[|text| - 1] != '}'
    ensures var pieces := BudgetPieces(text, maxTokens, overlapTokens);
      |pieces| == n && forall k :: 0 <= k < n ==> |pieces[k]| == 256
  {
    hide Lines, LinePieces, StatementPieces, Windows, IsSpace;
    OneLine(text);
    NoBoundary(text, maxTokens, overlapTokens);
    OneRun(text, maxTokens);
    WindowsCount(text, 0, n);
    var windows := Windows(text, 0, 256);
    assert WindowIfNeeded(text, maxTokens) == windows;
    assert RefineLines([text], maxTokens) == windows + RefineLines([], maxTokens) == windows;
    assert Refine(text, maxTokens) == windows;
    assert RefineAll([text], maxTokens) == windows + RefineAll([], maxTokens) == windows;
  }

  /** The largest number of `k` digits has `k` digits. */
  lemma {:induction false} NinesLength(k: nat)
    requires k >= 1
    ensures Pow10(k) >= 10 && |Decimal(Pow10(k) - 1)| == k
  {
    assert Pow10(k) == 10 * Pow10(k - 1);
    if k == 1 {
    } else {
      NinesLength(k - 1);
      assert (Pow10(k) - 1) / 10 == Pow10(k - 1) - 1;
    }
  }

  /** The largest number of windows that the digits can number. */
  function Nines(digits: nat): nat { Pow10(digits) - 1 }

  /** A header of as many characters as half the limit allows, and so many windows of source. */
  function LongSymbol(maxTokens: nat, parts: nat): Symbol {
    Symbol(false, Other, false, Repeat('h', 7 * (maxTokens / 2) / 2), "", Some(Repeat('x', 256 * parts)))
  }

  lemma {:induction false} LongSymbolDivides(maxTokens: nat, parts: nat)
    requires parts >= 1
    ensures var symbol := LongSymbol(maxTokens, parts);
      Divide(symbol, maxTokens) == (symbol.header, symbol.source.value) && EstimateTokens(symbol.header) == maxTokens / 2
  {
    hide Repeat;
    var symbol := LongSymbol(maxTokens, parts);
    OneBlock(symbol.header);
  }

  lemma {:induction false} OneBlock(header: string)
    ensures JoinBlocks([header, ""]) == header
  {
    assert [header, ""][1..] == [""] && [""][1..] == [];
    assert NonEmpty([""]) == [];
  }

  lemma {:induction false} LongSymbolFull(maxTokens: nat, parts: nat)
    requires maxTokens < 169 && parts >= 9
    ensures EstimateTokens(FullText(LongSymbol(maxTokens, parts))) > maxTokens
  {
    hide Repeat, JoinBlocks;
    var symbol := LongSymbol(maxTokens, parts);
    var source := symbol.source.value;
    SecondBlock(source);
    assert |FullText(symbol)| >= |source|;
  }

  lemma {:induction false} SecondBlock(source: string)
    requires source != ""
    ensures JoinBlocks(["", source]) == source
  {
    assert ["", source][1..] == [source] && [source][1..] == [];
    assert NonEmpty([source]) == [source];
  }

  lemma {:induction false} LastPart(header: string, piece: string, digits: nat)
    requires digits >= 1 && |piece| == 256
    ensures var n := Nines(digits);
      n >= 9 && |PartText(header, piece, n - 1, n)| == (if header == "" then 0 else |header| + 2) + 269 + 2 * digits
  {
    hide Decimal, Pow10;
    NinesLength(digits);
    var n := Nines(digits);
    var part := "// part " + Decimal(n) + " of " + Decimal(n) + "\n" + piece;
    assert [header, part][1..] == [part] && [part][1..] == [];
    assert NonEmpty([part]) == [part] && Join([part], "\n\n") == part;
    assert header != "" ==> NonEmpty([header, part]) == [header, part];
  }

  /** Below the least limit the last part of that symbol is too big. */
  lemma {:induction false} PartTooBig(digits: nat, maxTokens: nat, overlapTokens: nat)
    requires 1 <= digits <= 13 && maxTokens < 169 && FullestPart(maxTokens, digits) > maxTokens
    ensures var symbol := LongSymbol(maxTokens, Nines(digits));
      && |PiecesOf(symbol, maxTokens, overlapTokens)| == Nines(digits)
      && !ChunksWithin(SymbolChunks(symbol, maxTokens, overlapTokens), maxTokens)
  {
    hide Divide, FullText, BudgetPieces, PartText, Pow10, Repeat, Decimal, Nines;
    var n := Nines(digits);
    var symbol := LongSymbol(maxTokens, n);
    ManyParts(digits);
    LongSymbolDivides(maxTokens, n);
    LongSymbolFull(maxTokens, n);
    var header, source := symbol.header, symbol.source.value;
    LongSource(source, n);
    LongLinePieces(source, n, PieceBudget(header, maxTokens), overlapTokens);
    var pieces := PiecesOf(symbol, maxTokens, overlapTokens);
    var chunks := SymbolChunks(symbol, maxTokens, overlapTokens);
    LastPart(header, pieces[n - 1], digits);
    assert chunks[n - 1].content == PartText(header, pieces[n - 1], n - 1, n);
  }

  lemma {:induction false} ManyParts(digits: nat)
    requires digits >= 1
    ensures 9 <= Nines(digits) < Pow10(digits)
  {
    hide Pow10;
    NinesLength(digits);
  }

  lemma {:induction false} LongSource(source: string, parts: nat)
    requires parts >= 1 && source == Repeat('x', 256 * parts)
    ensures source != "" && '\n' !in source && source[|source| - 1] == 'x'
  {
  }

  /** Every chunk of every symbol whose parts are numbered with so many digits is within the limit exactly when
      the limit is at least 2 * ceil((542 + 4 * digits) / 7) - 1, or one less where that division leaves one. */
  lemma {:induction false} LeastChunkLimit(digits: nat, maxTokens: nat, overlapTokens: nat)
    requires 1 <= digits <= 13
    ensures (forall symbol :: |PiecesOf(symbol, maxTokens, overlapTokens)| < Pow10(digits) ==>
               ChunksWithin(SymbolChunks(symbol, maxTokens, overlapTokens), maxTokens))
       <==> maxTokens >= LeastLimit(digits)
  {
    hide SymbolChunks, PiecesOf, EstimateTokens, Pow10, FullestPart, LeastLimit, LongSymbol, Nines;
    LeastLimitIs(maxTokens, digits);
    if maxTokens >= LeastLimit(digits) {
      forall symbol | |PiecesOf(symbol, maxTokens, overlapTokens)| < Pow10(digits)
        ensures ChunksWithin(SymbolChunks(symbol, maxTokens, overlapTokens), maxTokens)
      {
        forall k | 0 <= k < |SymbolChunks(symbol, maxTokens, overlapTokens)|
          ensures EstimateTokens(SymbolChunks(symbol, maxTokens, overlapTokens)[k].content) <= maxTokens
        {
          SymbolChunksFit(symbol, digits, maxTokens, overlapTokens, k);
        }
      }
    } else {
      ManyParts(digits);
      PartTooBig(digits, maxTokens, overlapTokens);
    }
  }
}
