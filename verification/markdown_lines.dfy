/** What packages/documents/src/markdown.ts takes for a line, for a fence and for a heading, with the characters
    written out. */
module MarkdownLines {
  import opened Strings
  import opened Markdown

  // ---------- Lines ----------

  predicate NoCrLf(text: string) { forall k :: 0 <= k < |text| - 1 ==> !(text[k] as int == 13 && text[k + 1] as int == 10) }

  /** Text without a carriage return before a line feed is left alone. */
  lemma {:induction false} UnixStays(text: string)
    requires NoCrLf(text)
    ensures UnixLines(text) == text
  {
    if |text| >= 2 {
      assert text == [text[0]] + text[1..];
      assert NoCrLf(text[1..]) by { assert forall k :: 0 <= k < |text[1..]| ==> text[1..][k] == text[k + 1]; }
      UnixStays(text[1..]);
    }
  }

  /** At the first such pair the carriage return goes, and the text after it is read the same way. */
  lemma {:induction false} CrLfGoes(front: string, back: string)
    requires NoCrLf(front + "\U{000D}")
    ensures UnixLines(front + "\U{000D}\U{000A}" + back) == front + "\U{000A}" + UnixLines(back)
  {
    hide UnixLines;
    var pair := "\U{000D}\U{000A}";
    var text := front + pair + back;
    if front == "" {
      assert text == pair + back;
      PairGoes(back);
    } else {
      var rest := front[1..] + pair + back;
      FrontStep(front);
      assert text == [front[0]] + rest && rest[0] == (front + "\U{000D}")[1];
      OtherStays(front[0], rest);
      CrLfGoes(front[1..], back);
      assert front == [front[0]] + front[1..];
    }
  }

  lemma {:induction false} PairGoes(back: string)
    ensures UnixLines("\U{000D}\U{000A}" + back) == "\U{000A}" + UnixLines(back)
  {
    assert ("\U{000D}\U{000A}" + back)[2..] == back;
  }

  lemma {:induction false} OtherStays(c: char, rest: string)
    requires rest != "" && !(c as int == 13 && rest[0] as int == 10)
    ensures UnixLines([c] + rest) == [c] + UnixLines(rest)
  {
    assert ([c] + rest)[1..] == rest;
  }

  lemma {:induction false} FrontStep(front: string)
    requires front != "" && NoCrLf(front + "\U{000D}")
    ensures NoCrLf(front[1..] + "\U{000D}") && !(front[0] as int == 13 && (front + "\U{000D}")[1] as int == 10)
  {
    var all, rest := front + "\U{000D}", front[1..] + "\U{000D}";
    assert all[1..] == rest && all[0] == front[0];
    forall k | 0 <= k < |rest| - 1 ensures !(rest[k] as int == 13 && rest[k + 1] as int == 10) {
      assert rest[k] == all[k + 1] && rest[k + 1] == all[k + 2];
    }
  }

  // ---------- Fences ----------

  /** White space, then the character three times. */
  predicate IsFence(line: string, c: char) {
    exists k :: 0 <= k <= |line| - 3 && AllSpace(line[..k]) && line[k..k + 3] == [c, c, c]
  }

  /** A line is a fence of backquotes or of tildes, or none. */
  lemma {:induction false} FenceIs(line: string, c: char)
    ensures FenceOf(line) == Some(c) <==> (c == '`' || c == '~') && IsFence(line, c)
  {
    var i := SpaceEnd(line, 0);
    SpaceEndStops(line, 0);
    if (c == '`' || c == '~') && IsFence(line, c) {
      var k :| 0 <= k <= |line| - 3 && AllSpace(line[..k]) && line[k..k + 3] == [c, c, c];
      assert line[k] == line[k..k + 3][0] == c;
      forall j | 0 <= j < k ensures IsSpace(line[j]) { assert line[..k][j] == line[j]; }
      SpaceEndAt(line, 0, k);
    }
    if FenceOf(line) == Some(c) {
      assert AllSpace(line[..i]);
      assert line[i..i + 3] == [c, c, c];
    }
  }

  lemma {:induction false} SpaceEndStops(s: string, i: nat)
    requires i <= |s|
    ensures var end := SpaceEnd(s, i); (forall k :: i <= k < end ==> IsSpace(s[k])) && (end < |s| ==> !IsSpace(s[end]))
    decreases |s| - i
  {
    if i < |s| && IsSpace(s[i]) { SpaceEndStops(s, i + 1); }
  }

  // ---------- Headings ----------

  predicate AllHashes(s: string) { forall k :: 0 <= k < |s| ==> s[k] == '#' }

  /** White space, hashes, white space; each may be missing. */
  predicate IsClosing(s: string) {
    exists a: nat, b: nat {:trigger s[..a], s[b..]} :: a <= b <= |s| && AllSpace(s[..a]) && AllHashes(s[a..b]) && AllSpace(s[b..])
  }

  /** A character that a dot of a regular expression does not match. */
  predicate EndsLine(c: char) { c as int in {10, 13, 0x2028, 0x2029} }

  /** One to six hashes, white space up to `start`, a title up to `end` on one line, and a closing run. */
  predicate IsReading(line: string, level: nat, start: nat, end: nat) {
    && 1 <= level <= 6 && level < start < end <= |line|
    && AllHashes(line[..level]) && AllSpace(line[level..start])
    && (forall k :: start <= k < end ==> !EndsLine(line[k])) && IsClosing(line[end..])
  }

  lemma {:induction false} TerminatorIs(c: char)
    ensures IsTerminator(c) <==> EndsLine(c)
  {
  }

  lemma {:induction false} RunEndStops(line: string, c: char, i: nat)
    requires i <= |line|
    ensures var end := RunEnd(line, c, i); (forall k :: i <= k < end ==> line[k] == c) && (end < |line| ==> line[end] != c)
    decreases |line| - i
  {
    if i < |line| && line[i] == c { RunEndStops(line, c, i + 1); }
  }

  lemma {:induction false} RunEndAt(line: string, c: char, i: nat, end: nat)
    requires i <= end <= |line| && (forall k :: i <= k < end ==> line[k] == c) && (end < |line| ==> line[end] != c)
    ensures RunEnd(line, c, i) == end
    decreases end - i
  {
    if i < end { RunEndAt(line, c, i + 1, end); }
  }

  lemma {:induction false} ClosingIs(line: string, k: nat)
    requires k <= |line|
    ensures ClosesHeading(line, k) <==> IsClosing(line[k..])
  {
    var s := line[k..];
    if ClosesHeading(line, k) {
      var a := SpaceEnd(line, k);
      var b := RunEnd(line, '#', a);
      SpaceEndStops(line, k);
      RunEndStops(line, '#', a);
      SpaceEndStops(line, b);
      assert s[..a - k] == line[k..a] && s[a - k..b - k] == line[a..b] && s[b - k..] == line[b..];
      assert AllSpace(s[..a - k]) && AllHashes(s[a - k..b - k]) && AllSpace(s[b - k..]);
    }
    if IsClosing(s) {
      var a: nat, b: nat :| a <= b <= |s| && AllSpace(s[..a]) && AllHashes(s[a..b]) && AllSpace(s[b..]);
      ClosingReads(line, k, a, b);
    }
  }

  lemma {:induction false} ClosingReads(line: string, k: nat, a: nat, b: nat)
    requires k <= |line| && a <= b <= |line| - k
    requires AllSpace(line[k..][..a]) && AllHashes(line[k..][a..b]) && AllSpace(line[k..][b..])
    ensures ClosesHeading(line, k)
  {
    var s := line[k..];
    forall j | k <= j < k + a ensures IsSpace(line[j]) { assert s[..a][j - k] == line[j]; }
    forall j | k + a <= j < k + b ensures line[j] == '#' { assert s[a..b][j - k - a] == line[j]; }
    forall j | k + b <= j < |line| ensures IsSpace(line[j]) { assert s[b..][j - k - b] == line[j]; }
    if a == b {
      SpaceEndAt(line, k, |line|);
      RunEndAt(line, '#', |line|, |line|);
    } else {
      SpaceEndAt(line, k, k + a);
      HashIsNoSpace();
      RunEndAt(line, '#', k + a, k + b);
      SpaceEndAt(line, k + b, |line|);
    }
  }

  lemma {:induction false} HashIsNoSpace()
    ensures !IsSpace('#')
  {
  }

  lemma {:induction false} TitleEndIs(line: string, k: nat)
    requires k <= |line|
    ensures var end := TitleEnd(line, k);
      && (end.Some? ==>
            && IsClosing(line[end.value..]) && (forall j :: k <= j < end.value ==> !EndsLine(line[j]))
            && forall e :: k <= e < end.value ==> !IsClosing(line[e..]))
      && (end.None? ==> forall e :: k <= e <= |line| && IsClosing(line[e..]) ==> exists j :: k <= j < e && EndsLine(line[j]))
    decreases |line| - k
  {
    hide IsClosing, ClosesHeading;
    ClosingIs(line, k);
    if k < |line| { TerminatorIs(line[k]); }
    if !ClosesHeading(line, k) && k < |line| && !IsTerminator(line[k]) { TitleEndIs(line, k + 1); }
  }

  /** A reading with these hashes starts its title at `start` or before. */
  ghost predicate NoneAfter(line: string, level: nat, start: nat) {
    forall s: nat, e: nat :: start < s ==> !IsReading(line, level, s, e)
  }

  lemma {:induction false} TitleFromIs(line: string, level: nat, p: nat)
    requires p <= |line| && 1 <= level <= 6 && level <= p && AllHashes(line[..level]) && AllSpace(line[level..p]) && NoneAfter(line, level, p)
    ensures var h := TitleFrom(line, level, p);
      && (h.Some? ==> h.value.level == level && exists s: nat, e: nat ::
            && IsReading(line, level, s, e) && h.value.title == line[s..e] && NoneAfter(line, level, s)
            && forall e': nat :: e' < e ==> !IsReading(line, level, s, e'))
      && (h.None? ==> forall s: nat, e: nat :: !IsReading(line, level, s, e))
    decreases p
  {
    hide IsClosing, AllHashes, AllSpace, TitleEnd;
    if p > level {
      if p < |line| { TerminatorIs(line[p]); }
      if p < |line| && !IsTerminator(line[p]) && TitleEnd(line, p + 1).Some? {
        var e := TitleEnd(line, p + 1).value;
        TitleEndIs(line, p + 1);
        assert IsReading(line, level, p, e);
      } else {
        if p < |line| { TitleEndIs(line, p + 1); }
        assert forall e: nat :: !IsReading(line, level, p, e);
        ShorterSpace(line, level, p);
        TitleFromIs(line, level, p - 1);
      }
    }
  }

  lemma {:induction false} ShorterSpace(line: string, level: nat, p: nat)
    requires level < p <= |line| && AllSpace(line[level..p])
    ensures AllSpace(line[level..p - 1])
  {
    hide IsSpace;
    var shorter := line[level..p - 1];
    forall k | 0 <= k < |shorter| ensures IsSpace(shorter[k]) { assert shorter[k] == line[level..p][k]; }
  }

  /** A line is a heading exactly when it can be read as one; of several readings the title that starts last
      counts, and of those the shortest. */
  lemma {:induction false} HeadingIs(line: string)
    ensures var h := HeadingOf(line);
      && (h.Some? ==> exists s: nat, e: nat ::
            && IsReading(line, h.value.level, s, e) && h.value.title == line[s..e] && NoneAfter(line, h.value.level, s)
            && forall e': nat :: e' < e ==> !IsReading(line, h.value.level, s, e'))
      && (h.None? ==> forall level: nat, s: nat, e: nat :: !IsReading(line, level, s, e))
  {
    hide IsClosing, TitleFrom;
    var hashes := RunEnd(line, '#', 0);
    RunEndStops(line, '#', 0);
    var p := SpaceEnd(line, hashes);
    SpaceEndStops(line, hashes);
    forall s: nat, e: nat | p < s ensures !IsReading(line, hashes, s, e) {
      if IsReading(line, hashes, s, e) { ReadingIs(line, hashes, s, e); }
    }
    if 1 <= hashes <= 6 {
      assert AllHashes(line[..hashes]) && AllSpace(line[hashes..p]);
      TitleFromIs(line, hashes, p);
    }
    forall level: nat, s: nat, e: nat | level != hashes || !(1 <= hashes <= 6) ensures !IsReading(line, level, s, e) {
      if IsReading(line, level, s, e) { ReadingIs(line, level, s, e); }
    }
  }

  lemma {:induction false} ReadingIs(line: string, level: nat, s: nat, e: nat)
    requires IsReading(line, level, s, e)
    ensures level == RunEnd(line, '#', 0) && s <= SpaceEnd(line, level)
  {
    hide IsClosing;
    forall k | 0 <= k < level ensures line[k] == '#' { assert line[..level][k] == line[k]; }
    forall k | level <= k < s ensures IsSpace(line[k]) { assert line[level..s][k - level] == line[k]; }
    HashIsNoSpace();
    RunEndAt(line, '#', 0, level);
    SpaceEndStops(line, level);
  }
}
