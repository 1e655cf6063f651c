/** Token-budgeted chunking of packages/chunking/src/chunker.ts. */
module Chunker {
  import opened Strings

  /** `Math.ceil(length / 3.5)`. */
  function Tokens(length: nat): nat { (2 * length + 6) / 7 }

  function EstimateTokens(text: string): nat { Tokens(|text|) }

  // ---------- Lines ----------

  /** `text.split('\n')`. */
  function Lines(text: string): (r: seq<string>)
    ensures |r| >= 1
  {
    if text == "" then [""]
    else
      var rest := Lines(text[1..]);
      if text[0] == '\n' then [""] + rest else [[text[0]] + rest[0]] + rest[1..]
  }

  function JoinLines(lines: seq<string>): string { Join(lines, "\n") }

  lemma {:induction false} LinesRejoin(text: string)
    ensures JoinLines(Lines(text)) == text
  {
    if text == "" {
    } else {
      var rest := Lines(text[1..]);
      LinesRejoin(text[1..]);
      assert text == [text[0]] + text[1..];
      if text[0] == '\n' {
        assert ([""] + rest)[1..] == rest;
      } else {
        var lines := [[text[0]] + rest[0]] + rest[1..];
        assert lines[1..] == rest[1..];
      }
    }
  }

  function Flatten<T>(parts: seq<seq<T>>): seq<T> {
    if parts == [] then [] else parts[0] + Flatten(parts[1..])
  }

  // ---------- splitByCharacterWindow ----------

  /** `Math.max(Math.floor(maxTokens * 3.5 * 0.9), 256)`. */
  function WindowChars(maxTokens: nat): (n: nat)
    ensures n >= 256
  {
    if maxTokens * 63 / 20 < 256 then 256 else maxTokens * 63 / 20
  }

  /** The slices of `size` characters from `i` on; the last one may be shorter. */
  function Windows(text: string, i: nat, size: nat): seq<string>
    requires size > 0
    decreases |text| - i
  {
    if i >= |text| then []
    else [text[i..if i + size <= |text| then i + size else |text|]] + Windows(text, i + size, size)
  }

  method SplitByCharacterWindow(text: string, maxTokens: nat) returns (pieces: seq<string>)
    ensures pieces == Windows(text, 0, WindowChars(maxTokens))
  {
    var windowChars := WindowChars(maxTokens);
    pieces := [];
    var i := 0;
    while i < |text|
      invariant 0 <= i
      invariant pieces + Windows(text, i, windowChars) == Windows(text, 0, windowChars)
    {
      pieces := pieces + [text[i..if i + windowChars <= |text| then i + windowChars else |text|]];
      i := i + windowChars;
    }
  }

  /** The windows tile the text. */
  lemma {:induction false} WindowsTile(text: string, i: nat, size: nat)
    requires size > 0 && i <= |text|
    ensures Flatten(Windows(text, i, size)) == text[i..]
    ensures forall k :: 0 <= k < |Windows(text, i, size)| ==> 0 < |Windows(text, i, size)[k]| <= size
    decreases |text| - i
  {
    if i == |text| {
    } else {
      var end := if i + size <= |text| then i + size else |text|;
      if i + size <= |text| { WindowsTile(text, i + size, size); }
      assert text[i..] == text[i..end] + text[end..];
    }
  }

  // ---------- splitAtLineBoundaries ----------

  /** Runs of lines; a run is closed before the line that would take it over the budget. */
  function LineRuns(lines: seq<string>, current: seq<string>, tokens: nat, maxTokens: nat): seq<seq<string>> {
    if lines == [] then (if current == [] then [] else [current])
    else
      var lineTokens := EstimateTokens(lines[0]);
      if tokens + lineTokens > maxTokens && current != [] then
        [current] + LineRuns(lines[1..], [lines[0]], lineTokens, maxTokens)
      else
        LineRuns(lines[1..], current + [lines[0]], tokens + lineTokens, maxTokens)
  }

  function JoinAll(runs: seq<seq<string>>): (r: seq<string>)
    ensures |r| == |runs|
  {
    if runs == [] then [] else [JoinLines(runs[0])] + JoinAll(runs[1..])
  }

  function LinePieces(text: string, maxTokens: nat): seq<string> {
    JoinAll(LineRuns(Lines(text), [], 0, maxTokens))
  }

  lemma {:induction false} PushPiece(pieces: seq<string>, run: seq<string>, runs: seq<seq<string>>)
    ensures pieces + JoinAll([run] + runs) == pieces + [JoinLines(run)] + JoinAll(runs)
  {
    assert ([run] + runs)[1..] == runs;
  }

  lemma {:induction false} LineStep(
    lines: seq<string>, i: nat, current: seq<string>, tokens: nat, maxTokens: nat, pieces: seq<string>)
    requires i < |lines|
    ensures var lineTokens := EstimateTokens(lines[i]);
      var close := tokens + lineTokens > maxTokens && current != [];
      pieces + JoinAll(LineRuns(lines[i..], current, tokens, maxTokens))
      == (if close then pieces + [JoinLines(current)] else pieces)
         + JoinAll(LineRuns(lines[i + 1..], (if close then [] else current) + [lines[i]],
                            (if close then 0 else tokens) + lineTokens, maxTokens))
  {
    assert lines[i..][1..] == lines[i + 1..];
    var lineTokens := EstimateTokens(lines[i]);
    if tokens + lineTokens > maxTokens && current != [] {
      assert [] + [lines[i]] == [lines[i]];
      PushPiece(pieces, current, LineRuns(lines[i + 1..], [lines[i]], lineTokens, maxTokens));
    }
  }

  method SplitAtLineBoundaries(text: string, maxTokens: nat) returns (pieces: seq<string>)
    ensures pieces == LinePieces(text, maxTokens)
  {
    var lines := Lines(text);
    var current: seq<string> := [];
    var tokens: nat := 0;
    pieces := [];
    for i := 0 to |lines|
      invariant pieces + JoinAll(LineRuns(lines[i..], current, tokens, maxTokens)) == LinePieces(text, maxTokens)
    {
      LineStep(lines, i, current, tokens, maxTokens, pieces);
      var lineTokens := EstimateTokens(lines[i]);
      if tokens + lineTokens > maxTokens && |current| > 0 {
        pieces := pieces + [JoinLines(current)];
        current := [];
        tokens := 0;
      }
      current := current + [lines[i]];
      tokens := tokens + lineTokens;
    }
    assert lines[|lines|..] == [];
    if |current| > 0 { pieces := pieces + [JoinLines(current)]; }
  }

  lemma {:induction false} RunsFlatten(lines: seq<string>, current: seq<string>, tokens: nat, maxTokens: nat)
    ensures var runs := LineRuns(lines, current, tokens, maxTokens);
      && Flatten(runs) == current + lines && (forall k :: 0 <= k < |runs| ==> runs[k] != [])
    decreases |lines|
  {
    if lines == [] {
      assert current + lines == current;
      assert Flatten([current]) == current + Flatten([]);
    } else {
      var lineTokens := EstimateTokens(lines[0]);
      assert lines == [lines[0]] + lines[1..];
      if tokens + lineTokens > maxTokens && current != [] {
        RunsFlatten(lines[1..], [lines[0]], lineTokens, maxTokens);
      } else {
        RunsFlatten(lines[1..], current + [lines[0]], tokens + lineTokens, maxTokens);
        assert current + lines == current + [lines[0]] + lines[1..];
      }
    }
  }

  lemma {:induction false} JoinAcross(a: seq<string>, b: seq<string>, sep: string)
    requires a != [] && b != []
    ensures Join(a + b, sep) == Join(a, sep) + sep + Join(b, sep)
  {
    if |a| == 1 {
      assert (a + b)[1..] == b;
    } else {
      JoinAcross(a[1..], b, sep);
      assert (a + b)[1..] == a[1..] + b;
    }
  }

  lemma {:induction false} JoinOfRuns(runs: seq<seq<string>>)
    requires forall k :: 0 <= k < |runs| ==> runs[k] != []
    ensures JoinLines(JoinAll(runs)) == JoinLines(Flatten(runs))
    ensures runs != [] ==> Flatten(runs) != []
  {
    if |runs| == 1 {
      assert Flatten(runs) == runs[0] + Flatten([]) == runs[0];
    } else if |runs| > 1 {
      JoinOfRuns(runs[1..]);
      JoinAcross(runs[0], Flatten(runs[1..]), "\n");
      assert JoinAll(runs)[1..] == JoinAll(runs[1..]);
    }
  }

  /** Splitting at line boundaries loses nothing: the newlines between pieces restore the text. */
  lemma {:induction false} LinePiecesRejoin(text: string, maxTokens: nat)
    ensures JoinLines(LinePieces(text, maxTokens)) == text
  {
    var runs := LineRuns(Lines(text), [], 0, maxTokens);
    RunsFlatten(Lines(text), [], 0, maxTokens);
    JoinOfRuns(runs);
    assert [] + Lines(text) == Lines(text);
    LinesRejoin(text);
  }

  // ---------- splitAtStatementBoundaries ----------

  function DepthAfter(depth: int, line: string): int
    decreases line
  {
    if line == "" then depth
    else
      DepthAfter(if line[0] in {'{', '(', '['} then depth + 1
                 else if line[0] in {'}', ')', ']'} then depth - 1 else depth, line[1..])
  }

  /** The line ends in `;` or `}`, white space aside. */
  predicate EndsStatement(line: string) {
    var s := TrimEnd(line);
    s != "" && s[|s| - 1] in {';', '}'}
  }

  /** Where the overlap starts: lines are taken from the end until they hold enough tokens. */
  function OverlapStart(lines: seq<string>, start: nat, count: nat, overlapTokens: nat): (r: (nat, nat))
    requires start <= |lines|
    ensures r.0 <= start
    decreases start
  {
    if start > 0 && count < overlapTokens then
      OverlapStart(lines, start - 1, count + EstimateTokens(lines[start - 1]), overlapTokens)
    else (start, count)
  }

  function Overlap(lines: seq<string>, overlapTokens: nat): (seq<string>, nat) {
    var (start, count) := OverlapStart(lines, |lines|, 0, overlapTokens);
    (lines[start..], count)
  }

  /** The pieces as runs of lines, `current` being the run in progress. */
  function StatementRuns(
    lines: seq<string>, current: seq<string>, tokens: nat, depth: int, maxTokens: nat, overlapTokens: nat)
    : seq<seq<string>>
    decreases |lines|
  {
    if lines == [] then (if current == [] then [] else [current])
    else
      var run := current + [lines[0]];
      var runTokens := tokens + EstimateTokens(lines[0]);
      var next := DepthAfter(depth, lines[0]);
      if runTokens >= maxTokens && next <= 0 && EndsStatement(lines[0]) then
        var (overlap, count) := Overlap(run, overlapTokens);
        [run] + StatementRuns(lines[1..], overlap, count, next, maxTokens, overlapTokens)
      else
        StatementRuns(lines[1..], run, runTokens, next, maxTokens, overlapTokens)
  }

  function StatementPieces(source: string, maxTokens: nat, overlapTokens: nat): seq<string> {
    var pieces := JoinAll(StatementRuns(Lines(source), [], 0, 0, maxTokens, overlapTokens));
    if pieces == [] then [source] else pieces
  }

  method OverlapOf(current: seq<string>, overlapTokens: nat) returns (overlap: seq<string>, overlapCount: nat)
    ensures (overlap, overlapCount) == Overlap(current, overlapTokens)
  {
    overlap, overlapCount := [], 0;
    var i := |current|;
    while i > 0 && overlapCount < overlapTokens
      invariant 0 <= i <= |current|
      invariant overlap == current[i..]
      invariant OverlapStart(current, i, overlapCount, overlapTokens)
             == OverlapStart(current, |current|, 0, overlapTokens)
    {
      i := i - 1;
      overlap := [current[i]] + overlap;
      overlapCount := overlapCount + EstimateTokens(current[i]);
    }
  }

  lemma {:induction false} StatementStep(
    lines: seq<string>, i: nat, current: seq<string>, tokens: nat, depth: int, maxTokens: nat, overlapTokens: nat,
    pieces: seq<string>)
    requires i < |lines|
    ensures var run, runTokens := current + [lines[i]], tokens + EstimateTokens(lines[i]);
      var next := DepthAfter(depth, lines[i]);
      var close := runTokens >= maxTokens && next <= 0 && EndsStatement(lines[i]);
      pieces + JoinAll(StatementRuns(lines[i..], current, tokens, depth, maxTokens, overlapTokens))
      == (if close then pieces + [JoinLines(run)] else pieces)
         + JoinAll(StatementRuns(lines[i + 1..], if close then Overlap(run, overlapTokens).0 else run,
                                 if close then Overlap(run, overlapTokens).1 else runTokens,
                                 next, maxTokens, overlapTokens))
  {
    assert lines[i..][1..] == lines[i + 1..];
    var run, next := current + [lines[i]], DepthAfter(depth, lines[i]);
    var (overlap, count) := Overlap(run, overlapTokens);
    PushPiece(pieces, run, StatementRuns(lines[i + 1..], overlap, count, next, maxTokens, overlapTokens));
  }

  /** The inner loop over the characters of a line. */
  method CountBrackets(line: string, before: int) returns (depth: int)
    ensures depth == DepthAfter(before, line)
  {
    depth := before;
    for j := 0 to |line|
      invariant DepthAfter(depth, line[j..]) == DepthAfter(before, line)
    {
      assert line[j..][1..] == line[j + 1..];
      if line[j] in {'{', '(', '['} {
        depth := depth + 1;
      } else if line[j] in {'}', ')', ']'} {
        depth := depth - 1;
      }
    }
  }

  method SplitAtStatementBoundaries(source: string, maxTokens: nat, overlapTokens: nat) returns (pieces: seq<string>)
    ensures pieces == StatementPieces(source, maxTokens, overlapTokens)
  {
    var lines := Lines(source);
    var current: seq<string> := [];
    var currentTokens: nat := 0;
    var depth := 0;
    ghost var all := JoinAll(StatementRuns(lines, [], 0, 0, maxTokens, overlapTokens));
    pieces := [];
    for i := 0 to |lines|
      invariant pieces + JoinAll(StatementRuns(lines[i..], current, currentTokens, depth, maxTokens, overlapTokens))
             == all
    {
      var line := lines[i];
      StatementStep(lines, i, current, currentTokens, depth, maxTokens, overlapTokens, pieces);
      current := current + [line];
      currentTokens := currentTokens + EstimateTokens(line);
      depth := CountBrackets(line, depth);
      var atBoundary := depth <= 0 && EndsStatement(line);
      if currentTokens >= maxTokens && atBoundary {
        pieces := pieces + [JoinLines(current)];
        current, currentTokens := OverlapOf(current, overlapTokens);
      }
    }
    assert lines[|lines|..] == [];
    if |current| > 0 { pieces := pieces + [JoinLines(current)]; }
    if |pieces| == 0 { pieces := [source]; }
  }
}
