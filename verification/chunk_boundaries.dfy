/** Where packages/chunking/src/chunker.ts cuts: at the first line that ends a statement outside every bracket,
    once there are enough tokens; or before the line that would be one too many. */
module ChunkBoundaries {
  import opened Strings
  import opened Chunker
  import opened ChunkBudget

  // ---------- Brackets and ends of statements ----------

  function Count(s: string, chars: set<char>): nat {
    if s == "" then 0 else (if s[0] in chars then 1 else 0) + Count(s[1..], chars)
  }

  /** How many brackets more the first `n` lines open than close. */
  function DepthOf(lines: seq<string>, n: nat): int
    requires n <= |lines|
  {
    if n == 0 then 0
    else DepthOf(lines, n - 1) + Count(lines[n - 1], {'(', '[', '{'}) - Count(lines[n - 1], {')', ']', '}'})
  }

  lemma {:induction false} DepthIs(depth: int, line: string)
    ensures DepthAfter(depth, line) == depth + Count(line, {'(', '[', '{'}) - Count(line, {')', ']', '}'})
    decreases |line|
  {
    if line == "" {
    } else {
      DepthIs(if line[0] in {'{', '(', '['} then depth + 1 else if line[0] in {'}', ')', ']'} then depth - 1 else depth, line[1..]);
    }
  }

  /** The last character other than white space is a semicolon or a closing brace. */
  predicate EndsInStatement(line: string) {
    exists k :: 0 <= k < |line| && (line[k] == ';' || line[k] == '}') && AllSpace(line[k + 1..])
  }

  lemma {:induction false} EndsAre(line: string)
    ensures EndsStatement(line) <==> EndsInStatement(line)
  {
    hide AllSpace, TrailLen;
    TrailLenStops(line);
    var n := |line| - TrailLen(line);
    assert TrimEnd(line) == line[..n];
    if EndsStatement(line) { assert n > 0 && line[n - 1] == line[..n][n - 1]; }
    if EndsInStatement(line) {
      var k :| 0 <= k < |line| && (line[k] == ';' || line[k] == '}') && AllSpace(line[k + 1..]);
      EndIs(line, k);
    }
  }

  lemma {:induction false} EndIs(line: string, k: nat)
    requires k < |line| && (line[k] == ';' || line[k] == '}') && AllSpace(line[k + 1..])
    ensures TrailLen(line) == |line| - (k + 1)
  {
    hide AllSpace, TrailLen;
    TrailLenOf(line[..k + 1], line[k + 1..]);
    assert line == line[..k + 1] + line[k + 1..];
  }

  // ---------- Tokens ----------

  function TokensBetween(lines: seq<string>, from: nat, end: nat): nat
    requires from <= end <= |lines|
  {
    if from == end then 0 else TokensBetween(lines, from, end - 1) + EstimateTokens(lines[end - 1])
  }

  lemma {:induction false} TokensFromFront(lines: seq<string>, from: nat, end: nat)
    requires from < end <= |lines|
    ensures TokensBetween(lines, from, end) == EstimateTokens(lines[from]) + TokensBetween(lines, from + 1, end)
    decreases end
  {
    hide EstimateTokens;
    if from + 1 < end { TokensFromFront(lines, from, end - 1); }
  }

  lemma {:induction false} SumIs(lines: seq<string>, from: nat, end: nat, i: nat)
    requires from <= i <= end <= |lines|
    ensures SumTokens(lines[from..end], i - from) == TokensBetween(lines, i, end)
    decreases end - i
  {
    hide EstimateTokens;
    if i < end {
      SumIs(lines, from, end, i + 1);
      TokensFromFront(lines, i, end);
      assert lines[from..end][i - from] == lines[i];
    }
  }

  // ---------- Statement boundaries ----------

  /** A run from `from` may end after `end` lines. */
  predicate MayEnd(lines: seq<string>, from: nat, end: nat, maxTokens: nat)
    requires from < end <= |lines|
  {
    TokensBetween(lines, from, end) >= maxTokens && DepthOf(lines, end) <= 0 && EndsInStatement(lines[end - 1])
  }

  /** The next run starts with the shortest tail of this one that holds enough tokens, or with all of it. */
  predicate IsOverlap(lines: seq<string>, from: nat, end: nat, next: nat, overlapTokens: nat)
    requires from <= next <= end <= |lines|
  {
    && (next == from || TokensBetween(lines, next, end) >= overlapTokens)
    && (next < end ==> TokensBetween(lines, next + 1, end) < overlapTokens)
  }

  predicate NoneEnds(lines: seq<string>, from: nat, i: nat, end: nat, maxTokens: nat)
    requires from <= i <= end <= |lines| + 1
  {
    forall n :: i < n < end ==> !MayEnd(lines, from, n, maxTokens)
  }

  /** The runs cut the lines as described: the run in progress began at `from`, and `i` lines have been read. */
  ghost predicate IsSplit(lines: seq<string>, from: nat, i: nat, runs: seq<seq<string>>, maxTokens: nat, overlapTokens: nat)
    requires from <= i <= |lines|
    decreases |lines| - i
  {
    || (NoneEnds(lines, from, i, |lines| + 1, maxTokens) && runs == if from == |lines| then [] else [lines[from..]])
    || exists end: nat, next: nat ::
         && i < end <= |lines| && MayEnd(lines, from, end, maxTokens) && NoneEnds(lines, from, i, end, maxTokens)
         && from <= next <= end && IsOverlap(lines, from, end, next, overlapTokens)
         && runs != [] && runs[0] == lines[from..end] && IsSplit(lines, next, end, runs[1..], maxTokens, overlapTokens)
  }

  lemma {:induction false} OneLineOn(lines: seq<string>, from: nat, i: nat, runs: seq<seq<string>>, maxTokens: nat, overlapTokens: nat)
    requires from <= i < |lines| && !MayEnd(lines, from, i + 1, maxTokens)
    requires IsSplit(lines, from, i + 1, runs, maxTokens, overlapTokens)
    ensures IsSplit(lines, from, i, runs, maxTokens, overlapTokens)
  {
    hide MayEnd, IsOverlap;
    if !(NoneEnds(lines, from, i + 1, |lines| + 1, maxTokens) && runs == if from == |lines| then [] else [lines[from..]]) {
      var end: nat, next: nat :|
        && i + 1 < end <= |lines| && MayEnd(lines, from, end, maxTokens) && NoneEnds(lines, from, i + 1, end, maxTokens)
        && from <= next <= end && IsOverlap(lines, from, end, next, overlapTokens)
        && runs != [] && runs[0] == lines[from..end] && IsSplit(lines, next, end, runs[1..], maxTokens, overlapTokens);
      assert NoneEnds(lines, from, i, end, maxTokens);
    }
  }

  lemma {:induction false} OverlapIs(lines: seq<string>, from: nat, end: nat, overlapTokens: nat) returns (next: nat)
    requires from <= end <= |lines|
    ensures from <= next <= end && IsOverlap(lines, from, end, next, overlapTokens)
    ensures Overlap(lines[from..end], overlapTokens) == (lines[next..end], TokensBetween(lines, next, end))
  {
    hide EstimateTokens, Overlap;
    var run := lines[from..end];
    OverlapIsEnough(run, overlapTokens);
    var (overlap, count) := Overlap(run, overlapTokens);
    next := end - |overlap|;
    SumIs(lines, from, end, next);
    if next < end { SumIs(lines, from, end, next + 1); }
    assert run[next - from..] == lines[next..end];
  }

  /** The runs from the `i`th line on, the one in progress having begun at `from`. */
  function RunsAt(lines: seq<string>, from: nat, i: nat, maxTokens: nat, overlapTokens: nat): seq<seq<string>>
    requires from <= i <= |lines|
  {
    StatementRuns(lines[i..], lines[from..i], TokensBetween(lines, from, i), DepthOf(lines, i), maxTokens, overlapTokens)
  }

  lemma {:induction false} RunsStep(lines: seq<string>, from: nat, i: nat, maxTokens: nat, overlapTokens: nat) returns (next: nat)
    requires from <= i < |lines|
    ensures from <= next <= i + 1 && IsOverlap(lines, from, i + 1, next, overlapTokens)
    ensures RunsAt(lines, from, i, maxTokens, overlapTokens)
         == if MayEnd(lines, from, i + 1, maxTokens) then [lines[from..i + 1]] + RunsAt(lines, next, i + 1, maxTokens, overlapTokens)
            else RunsAt(lines, from, i + 1, maxTokens, overlapTokens)
  {
    hide EstimateTokens, DepthAfter, EndsStatement, Overlap, EndsInStatement, IsOverlap;
    DepthIs(DepthOf(lines, i), lines[i]);
    EndsAre(lines[i]);
    assert lines[i..][1..] == lines[i + 1..] && lines[from..i] + [lines[i]] == lines[from..i + 1];
    next := OverlapIs(lines, from, i + 1, overlapTokens);
  }

  lemma {:induction false} RunsSplit(lines: seq<string>, from: nat, i: nat, maxTokens: nat, overlapTokens: nat)
    requires from <= i <= |lines|
    ensures IsSplit(lines, from, i, RunsAt(lines, from, i, maxTokens, overlapTokens), maxTokens, overlapTokens)
    decreases |lines| - i
  {
    hide RunsAt, IsSplit, MayEnd, IsOverlap;
    if i == |lines| {
      NoMoreRuns(lines, from, maxTokens, overlapTokens);
    } else {
      var next := RunsStep(lines, from, i, maxTokens, overlapTokens);
      if MayEnd(lines, from, i + 1, maxTokens) {
        RunsSplit(lines, next, i + 1, maxTokens, overlapTokens);
        SplitHere(lines, from, i, next, maxTokens, overlapTokens, RunsAt(lines, next, i + 1, maxTokens, overlapTokens));
      } else {
        RunsSplit(lines, from, i + 1, maxTokens, overlapTokens);
        OneLineOn(lines, from, i, RunsAt(lines, from, i + 1, maxTokens, overlapTokens), maxTokens, overlapTokens);
      }
    }
  }

  lemma {:induction false} NoMoreRuns(lines: seq<string>, from: nat, maxTokens: nat, overlapTokens: nat)
    requires from <= |lines|
    ensures IsSplit(lines, from, |lines|, RunsAt(lines, from, |lines|, maxTokens, overlapTokens), maxTokens, overlapTokens)
  {
    assert lines[from..|lines|] == lines[from..];
  }

  lemma {:induction false} SplitHere(
    lines: seq<string>, from: nat, i: nat, next: nat, maxTokens: nat, overlapTokens: nat, rest: seq<seq<string>>)
    requires from <= i < |lines| && MayEnd(lines, from, i + 1, maxTokens) && from <= next <= i + 1
    requires IsOverlap(lines, from, i + 1, next, overlapTokens) && IsSplit(lines, next, i + 1, rest, maxTokens, overlapTokens)
    ensures IsSplit(lines, from, i, [lines[from..i + 1]] + rest, maxTokens, overlapTokens)
  {
    hide MayEnd, IsOverlap;
    var runs := [lines[from..i + 1]] + rest;
    assert runs[1..] == rest && NoneEnds(lines, from, i, i + 1, maxTokens);
  }

  /** The source is cut after the first line, each time, that ends a statement outside every bracket once the run
      holds enough tokens, and nowhere else. */
  lemma {:induction false} CutAtStatements(source: string, maxTokens: nat, overlapTokens: nat)
    ensures IsSplit(Lines(source), 0, 0, StatementRuns(Lines(source), [], 0, 0, maxTokens, overlapTokens), maxTokens, overlapTokens)
  {
    hide StatementRuns, IsSplit;
    var lines := Lines(source);
    RunsSplit(lines, 0, 0, maxTokens, overlapTokens);
    assert lines[0..] == lines && lines[0..0] == [];
  }

  // ---------- Lines ----------

  /** The first run has as many lines as fit, and at least one. */
  predicate TakesLines(lines: seq<string>, from: nat, end: nat, runs: seq<seq<string>>, maxTokens: nat) {
    && from < end <= |lines| && (end == from + 1 || TokensBetween(lines, from, end) <= maxTokens)
    && (end < |lines| ==> TokensBetween(lines, from, end + 1) > maxTokens)
    && runs != [] && runs[0] == lines[from..end]
  }

  /** And so has each run after it. */
  ghost predicate IsLineSplit(lines: seq<string>, from: nat, runs: seq<seq<string>>, maxTokens: nat)
    requires from <= |lines|
    decreases |lines| - from
  {
    if from == |lines| then runs == []
    else
      exists end: nat :: TakesLines(lines, from, end, runs, maxTokens) && IsLineSplit(lines, end, runs[1..], maxTokens)
  }

  function LinesAt(lines: seq<string>, from: nat, i: nat, maxTokens: nat): seq<seq<string>>
    requires from <= i <= |lines|
  {
    LineRuns(lines[i..], lines[from..i], TokensBetween(lines, from, i), maxTokens)
  }

  lemma {:induction false} LinesStep(lines: seq<string>, from: nat, i: nat, maxTokens: nat)
    requires from < i < |lines|
    ensures LinesAt(lines, from, i, maxTokens)
         == if TokensBetween(lines, from, i + 1) > maxTokens then [lines[from..i]] + LinesAt(lines, i, i + 1, maxTokens)
            else LinesAt(lines, from, i + 1, maxTokens)
  {
    hide EstimateTokens;
    assert lines[i..][1..] == lines[i + 1..] && lines[i..][0] == lines[i];
    assert lines[from..i] + [lines[i]] == lines[from..i + 1] && lines[i..i + 1] == [lines[i]];
    assert TokensBetween(lines, i, i + 1) == TokensBetween(lines, i, i) + EstimateTokens(lines[i]);
  }

  lemma {:induction false} LinesSplit(lines: seq<string>, from: nat, i: nat, maxTokens: nat)
    requires from < i <= |lines| && (i == from + 1 || TokensBetween(lines, from, i) <= maxTokens)
    ensures IsLineSplit(lines, from, LinesAt(lines, from, i, maxTokens), maxTokens)
    decreases |lines| - i
  {
    hide LinesAt, TokensBetween;
    if i == |lines| {
      LastLines(lines, from, maxTokens);
    } else {
      LinesStep(lines, from, i, maxTokens);
      if TokensBetween(lines, from, i + 1) > maxTokens {
        LinesSplit(lines, i, i + 1, maxTokens);
        var rest := LinesAt(lines, i, i + 1, maxTokens);
        var runs := [lines[from..i]] + rest;
        assert runs[1..] == rest && TakesLines(lines, from, i, runs, maxTokens);
      } else {
        LinesSplit(lines, from, i + 1, maxTokens);
      }
    }
  }

  lemma {:induction false} LastLines(lines: seq<string>, from: nat, maxTokens: nat)
    requires from < |lines| && (|lines| == from + 1 || TokensBetween(lines, from, |lines|) <= maxTokens)
    ensures IsLineSplit(lines, from, LinesAt(lines, from, |lines|, maxTokens), maxTokens)
  {
    hide TokensBetween;
    var end: nat := |lines|;
    var runs := [lines[from..end]];
    assert lines[end..] == [] && LinesAt(lines, from, end, maxTokens) == runs;
    assert runs[1..] == [] && IsLineSplit(lines, end, runs[1..], maxTokens);
    assert TakesLines(lines, from, end, runs, maxTokens);
  }

  /** The lines of an oversized piece are put together as long as they fit. */
  lemma {:induction false} CutAtLines(text: string, maxTokens: nat)
    ensures IsLineSplit(Lines(text), 0, LineRuns(Lines(text), [], 0, maxTokens), maxTokens)
  {
    hide EstimateTokens;
    var lines := Lines(text);
    LinesSplit(lines, 0, 1, maxTokens);
    assert [] + [lines[0]] == [lines[0]] == lines[0..1];
    assert TokensBetween(lines, 0, 1) == EstimateTokens(lines[0]);
  }

  // ---------- Lines and windows ----------

  /** The lines hold no line feed, and with line feeds between them they are the text. */
  lemma {:induction false} LinesAre(text: string)
    ensures Join(Lines(text), [10 as char]) == text && forall k :: 0 <= k < |Lines(text)| ==> (10 as char) !in Lines(text)[k]
  {
    assert [10 as char] == "\n";
    LinesRejoin(text);
    NoLineFeed(text);
  }

  lemma {:induction false} NoLineFeed(text: string)
    ensures forall k :: 0 <= k < |Lines(text)| ==> '\n' !in Lines(text)[k]
  {
    if text != "" { NoLineFeed(text[1..]); }
  }

  /** Nine tenths of three and a half characters a token, rounded down, and 256 at the least. */
  lemma {:induction false} WindowIs(maxTokens: nat)
    ensures var size := (maxTokens as real * 3.5 * 0.9).Floor; WindowChars(maxTokens) == if size < 256 then 256 else size
  {
    var size := maxTokens * 63 / 20;
    assert 20 * size <= maxTokens * 63 < 20 * (size + 1);
    assert size as real <= maxTokens as real * 3.5 * 0.9 < (size + 1) as real;
  }

  /** Every window but the last has the full size. */
  lemma {:induction false} WindowAt(text: string, i: nat, size: nat, k: nat)
    requires size > 0 && i + k * size < |text|
    ensures var windows, start, end := Windows(text, i, size), i + k * size, i + (k + 1) * size;
      && k < |windows|
      && windows[k] == text[start..if end < |text| then end else |text|]
      && (k + 1 == |windows| <==> end >= |text|)
    decreases k
  {
    var rest := Windows(text, i + size, size);
    if k == 0 {
    } else {
      Times(k, size);
      WindowAt(text, i + size, size, k - 1);
      assert Windows(text, i, size)[k] == rest[k - 1];
    }
  }

  lemma {:induction false} Times(k: nat, size: nat)
    requires k > 0
    ensures k * size == size + (k - 1) * size && (k + 1) * size == size + k * size && k * size >= size
  {
  }
}
