/** On every text, well-formed or not, normalisation terminates and keeps every character other
    than white space, `|` and `&`. */
module TypeConservation {
  import opened Strings
  import opened TypeText

  predicate IsKept(c: char) { !IsSpace(c) && c != '|' && c != '&' }

  /** How often a character occurs. */
  function Count(s: string, c: char): nat {
    if s == "" then 0 else (if s[0] == c then 1 else 0) + Count(s[1..], c)
  }

  function CountAll(xs: seq<string>, c: char): nat {
    if xs == [] then 0 else Count(xs[0], c) + CountAll(xs[1..], c)
  }

  lemma {:induction false} CountAppend(a: string, b: string, c: char)
    ensures Count(a + b, c) == Count(a, c) + Count(b, c)
  {
    if a == "" {
      assert a + b == b;
    } else {
      assert (a + b)[1..] == a[1..] + b;
      CountAppend(a[1..], b, c);
    }
  }

  lemma {:induction false} CountCut(s: string, i: nat, c: char)
    requires i <= |s|
    ensures Count(s, c) == Count(s[..i], c) + Count(s[i..], c)
  {
    CountAppend(s[..i], s[i..], c);
    assert s == s[..i] + s[i..];
  }

  lemma {:induction false} CountMiddle(s: string, i: nat, j: nat, c: char)
    requires i <= j <= |s|
    ensures Count(s[i..], c) == Count(s[i..j], c) + Count(s[j..], c)
  {
    CountCut(s[i..], j - i, c);
    assert s[i..][..j - i] == s[i..j] && s[i..][j - i..] == s[j..];
  }

  lemma {:induction false} CountSpace(s: string, c: char)
    requires AllSpace(s) && !IsSpace(c)
    ensures Count(s, c) == 0
  {
    if s == "" {
    } else {
      assert AllSpace(s[1..]);
      CountSpace(s[1..], c);
    }
  }

  lemma {:induction false} CountTrim(s: string, c: char)
    requires !IsSpace(c)
    ensures Count(Trim(s), c) == Count(s, c)
  {
    var trail := Trailing(s[LeadLen(s)..]);
    TrimSplits(s);
    LeadLenStops(s);
    TrailLenStops(s[LeadLen(s)..]);
    CountAppend(Leading(s) + Trim(s), trail, c);
    CountAppend(Leading(s), Trim(s), c);
    CountSpace(Leading(s), c);
    CountSpace(trail, c);
  }

  // ---------- Sums over pieces ----------

  lemma {:induction false} CountCleaned(pieces: seq<string>, c: char)
    requires !IsSpace(c)
    ensures CountAll(DropEmpty(TrimAll(pieces)), c) == CountAll(pieces, c)
  {
    if pieces == [] {
    } else {
      CountTrim(pieces[0], c);
      CountCleaned(pieces[1..], c);
      assert TrimAll(pieces)[1..] == TrimAll(pieces[1..]);
      assert DropEmpty(TrimAll(pieces)) == DropEmpty([Trim(pieces[0])] + TrimAll(pieces[1..]));
    }
  }

  lemma {:induction false} CountAround(text: string, start: nat, at: nat, c: char)
    requires start <= at < |text| && text[at] != c
    ensures Count(text[start..], c) == Count(text[start..at], c) + Count(text[at + 1..], c)
  {
    CountMiddle(text, start, at, c);
    assert text[at..][0] == text[at] && text[at..][1..] == text[at + 1..];
  }

  lemma {:induction false} CountPieces(text: string, bar: char, start: nat, c: char)
    requires start <= |text| && bar != c
    ensures CountAll(RawPieces(text, Symbol({bar}), start), c) == Count(text[start..], c)
    decreases |text| - start
  {
    var at := Find(text, Symbol({bar}), start, 0);
    if at < 0 {
      assert CountAll([text[start..]], c) == Count(text[start..], c);
    } else {
      FoundHits(text, Symbol({bar}), start, 0);
      CountPieces(text, bar, at + 1, c);
      CountPiece(text, start, at, RawPieces(text, Symbol({bar}), start), RawPieces(text, Symbol({bar}), at + 1), c);
    }
  }

  lemma {:induction false} CountPiece(text: string, start: nat, at: nat, pieces: seq<string>, rest: seq<string>, c: char)
    requires start <= at < |text| && text[at] != c && pieces == [text[start..at]] + rest
    requires CountAll(rest, c) == Count(text[at + 1..], c)
    ensures CountAll(pieces, c) == Count(text[start..], c)
  {
    CountAround(text, start, at, c);
    assert pieces[1..] == rest;
  }

  lemma {:induction false} FoundHits(text: string, needle: Needle, i: nat, depth: int)
    requires i <= |text| && needle.Symbol?
    ensures var at := Find(text, needle, i, depth); at >= 0 ==> text[at] in needle.chars
    decreases |text| - i
  {
    if i == |text| {
    } else if IsQuote(text[i]) {
      FoundHits(text, needle, StringEnd(text, i), depth);
    } else if ArrowAt(text, i) {
      FoundHits(text, needle, i + 2, depth);
    } else if IsOpener(text[i]) {
      FoundHits(text, needle, i + 1, depth + 1);
    } else if IsCloser(text[i]) {
      FoundHits(text, needle, i + 1, depth - 1);
    } else if !(depth == 0 && text[i] in needle.chars) {
      FoundHits(text, needle, i + 1, depth);
    }
  }

  lemma {:induction false} CountMembers(text: string, bar: char, c: char)
    requires bar != c && !IsSpace(c)
    ensures CountAll(Members(text, Symbol({bar})), c) == Count(text, c)
  {
    CountCleaned(RawPieces(text, Symbol({bar}), 0), c);
    CountPieces(text, bar, 0, c);
    assert text[0..] == text;
  }

  lemma {:induction false} CountJoin(parts: seq<string>, sep: string, c: char)
    requires Count(sep, c) == 0
    ensures Count(Join(parts, sep), c) == CountAll(parts, c)
  {
    if |parts| == 1 {
      assert CountAll(parts, c) == Count(parts[0], c);
    } else if |parts| > 1 {
      CountAppend(parts[0] + sep, Join(parts[1..], sep), c);
      CountAppend(parts[0], sep, c);
      CountJoin(parts[1..], sep, c);
    }
  }

  lemma {:induction false} CountRejoin(parts: seq<string>, separators: seq<string>, c: char)
    requires |parts| == |separators| + 1
    ensures Count(Rejoin(parts, separators), c) == CountAll(parts, c) + CountAll(separators, c)
  {
    if separators == [] {
      assert CountAll(parts, c) == Count(parts[0], c);
    } else {
      var rest := Rejoin(parts[1..], separators[1..]);
      CountAppend(parts[0] + separators[0], rest, c);
      CountAppend(parts[0], separators[0], c);
      CountRejoin(parts[1..], separators[1..], c);
    }
  }

  lemma {:induction false} CountRemove(xs: seq<string>, k: nat, c: char)
    requires k < |xs|
    ensures CountAll(xs, c) == Count(xs[k], c) + CountAll(xs[..k] + xs[k + 1..], c)
  {
    var rest := xs[..k] + xs[k + 1..];
    if k == 0 {
      assert rest == xs[1..];
    } else {
      CountRemove(xs[1..], k - 1, c);
      assert rest[0] == xs[0] && rest[1..] == xs[1..][..k - 1] + xs[1..][k..];
    }
  }

  lemma {:induction false} BagRemove(xs: seq<string>, k: nat)
    requires k < |xs|
    ensures multiset(xs) == multiset(xs[..k] + xs[k + 1..]) + multiset{xs[k]}
  {
    assert xs == xs[..k] + [xs[k]] + xs[k + 1..];
  }

  lemma {:induction false} CountReordered(xs: seq<string>, ys: seq<string>, c: char)
    requires multiset(xs) == multiset(ys)
    ensures CountAll(xs, c) == CountAll(ys, c)
    decreases |xs|
  {
    assert |multiset(xs)| == |xs| && |multiset(ys)| == |ys|;
    if xs == [] {
    } else {
      assert xs[0] in multiset(ys);
      var k :| 0 <= k < |ys| && ys[k] == xs[0];
      CountRemove(ys, k, c);
      BagRemove(ys, k);
      TailBag(xs);
      CountReordered(xs[1..], ys[..k] + ys[k + 1..], c);
    }
  }

  // ---------- Descending ----------

  ghost predicate Conserving(inside: string -> string, bound: nat, c: char) {
    forall raw: string {:trigger inside(raw)} :: |raw| < bound ==> Count(inside(raw), c) == Count(raw, c)
  }

  lemma {:induction false} CopyConserves(text: string, i: nat, next: nat, out: string, piece: string, rest: string, c: char)
    requires i <= next <= |text| && text[i..next] == piece && out == piece + rest
    requires Count(rest, c) == Count(text[next..], c)
    ensures Count(out, c) == Count(text[i..], c)
  {
    CountAppend(piece, rest, c);
    CountMiddle(text, i, next, c);
  }

  lemma {:induction false} DescendConserves(inside: string -> string, text: string, i: nat, bound: nat, c: char)
    requires i <= |text| <= bound && Conserving(inside, bound, c)
    ensures Count(DescendFrom(inside, text, i), c) == Count(text[i..], c)
    decreases |text| - i, 1
  {
    if i == |text| {
    } else if IsOpener(text[i]) {
      RegionConserves(inside, text, i, bound, c);
    } else {
      var next := if IsQuote(text[i]) then StringEnd(text, i) else if ArrowAt(text, i) then i + 2 else i + 1;
      DescendConserves(inside, text, next, bound, c);
      CopiedPiece(inside, text, i, next);
      CopyConserves(text, i, next, DescendFrom(inside, text, i), text[i..next], DescendFrom(inside, text, next), c);
    }
  }

  lemma {:induction false} CopiedPiece(inside: string -> string, text: string, i: nat, next: nat)
    requires i < |text| && !IsOpener(text[i])
    requires next == if IsQuote(text[i]) then StringEnd(text, i) else if ArrowAt(text, i) then i + 2 else i + 1
    ensures DescendFrom(inside, text, i) == text[i..next] + DescendFrom(inside, text, next)
  {
    FirstChars(text, i);
  }

  lemma {:induction false} FirstChars(text: string, i: nat)
    requires i < |text|
    ensures text[i..i + 1] == [text[i]]
    ensures i + 1 < |text| ==> text[i..i + 2] == [text[i], text[i + 1]]
  {
  }

  lemma {:induction false} RegionConserves(inside: string -> string, text: string, i: nat, bound: nat, c: char)
    requires i < |text| <= bound && Conserving(inside, bound, c) && IsOpener(text[i])
    ensures Count(DescendFrom(inside, text, i), c) == Count(text[i..], c)
    decreases |text| - i, 0
  {
    hide Count, CloseFrom, DescendFrom;
    var end := CloseFrom(text, text[i], i + 1, 1);
    var body := inside(text[i + 1..end]);
    assert Count(body, c) == Count(text[i + 1..end], c);
    if end < |text| {
      DescendConserves(inside, text, end + 1, bound, c);
      CountRegion(text, i, end, body, DescendFrom(inside, text, end + 1), c);
      RegionText(inside, text, i);
    } else {
      assert text[i + 1..end] == text[i + 1..];
      CountOpen(text, i, body, c);
      RegionText(inside, text, i);
    }
  }

  lemma {:induction false} RegionText(inside: string -> string, text: string, i: nat)
    requires i < |text| && IsOpener(text[i])
    ensures var end := CloseFrom(text, text[i], i + 1, 1);
      DescendFrom(inside, text, i)
      == if end < |text| then [text[i]] + inside(text[i + 1..end]) + [text[end]] + DescendFrom(inside, text, end + 1)
         else [text[i]] + inside(text[i + 1..end])
  {
    assert !IsQuote(text[i]) && !ArrowAt(text, i);
  }

  lemma {:induction false} CountOpen(text: string, i: nat, body: string, c: char)
    requires i < |text| && Count(body, c) == Count(text[i + 1..], c)
    ensures Count([text[i]] + body, c) == Count(text[i..], c)
  {
    assert text[i..i + 1] == [text[i]];
    CopyConserves(text, i, i + 1, [text[i]] + body, [text[i]], body, c);
  }

  lemma {:induction false} CountRegion(text: string, i: nat, end: nat, body: string, rest: string, c: char)
    requires i < end < |text| && Count(body, c) == Count(text[i + 1..end], c) && Count(rest, c) == Count(text[end + 1..], c)
    ensures Count([text[i]] + body + [text[end]] + rest, c) == Count(text[i..], c)
  {
    CountOpen(text, end, rest, c);
    CountMiddle(text, i + 1, end, c);
    CountAppend(body, [text[end]] + rest, c);
    CountOpen(text, i, body + ([text[end]] + rest), c);
    assert [text[i]] + body + [text[end]] + rest == [text[i]] + (body + ([text[end]] + rest));
  }

  // ---------- The whole normaliser ----------

  lemma {:induction false} NormaliseConserves(text: string, c: char)
    requires IsKept(c)
    ensures Count(Normalise(text), c) == Count(text, c)
    decreases |text|, 4
  {
    SplitListingRejoins(text);
    var list := SplitListing(text);
    if |list.parts| > 1 {
      AllConserve(list.parts, |text|, c);
      CountRejoin(list.parts, list.separators, c);
      CountRejoin(NormaliseAll(list.parts, |text|), list.separators, c);
    } else {
      UnlistedConserves(text, c);
    }
  }

  lemma {:induction false} UnlistedConserves(text: string, c: char)
    requires IsKept(c)
    requires |SplitListing(text).parts| == 1
    ensures Count(Normalise(text), c) == Count(text, c)
    decreases |text|, 3
  {
    hide Count, SplitListing, Find, Keep, Members, DescendFrom;
    var colon, arrow := TopIndex(text, COLON), TopIndex(text, Arrow);
    if ConditionalParts(text).Some? {
      ConditionalConserves(text, c);
    } else if colon >= 0 {
      DeeperConserves(|text|, c);
      DescendConserves(Deeper(|text|), text[..colon + 1], 0, |text|, c);
      assert text[..colon + 1][0..] == text[..colon + 1];
      KeepConserves(text[colon + 1..], c);
      CountAppend(DescendFrom(Deeper(|text|), text[..colon + 1], 0), Keep(text[colon + 1..]), c);
      CountCut(text, colon + 1, c);
    } else if arrow >= 0 {
      ArrowConserves(text, arrow, c);
    } else {
      TightConserves(text, c);
    }
  }

  lemma {:induction false} ConditionalConserves(text: string, c: char)
    requires IsKept(c)
    requires |SplitListing(text).parts| == 1 && ConditionalParts(text).Some?
    ensures Count(Normalise(text), c) == Count(text, c)
    decreases |text|, 2
  {
    var (check, yes, no) := ConditionalParts(text).value;
    KeepConserves(check, c);
    KeepConserves(yes, c);
    KeepConserves(no, c);
    CountFive(Keep(check), "?", Keep(yes), ":", Keep(no), c);
    CountFive(check, "?", yes, ":", no, c);
    ConditionalRejoins(text);
  }

  lemma {:induction false} CountFive(s1: string, s2: string, s3: string, s4: string, s5: string, c: char)
    ensures Count(s1 + s2 + s3 + s4 + s5, c)
         == Count(s1, c) + Count(s2, c) + Count(s3, c) + Count(s4, c) + Count(s5, c)
  {
    CountAppend(s1 + s2 + s3 + s4, s5, c);
    CountThree(s1 + s2, s3, s4, c);
    CountAppend(s1, s2, c);
  }

  lemma {:induction false} ConditionalRejoins(text: string)
    requires ConditionalParts(text).Some?
    ensures var parts := ConditionalParts(text).value;
      text == parts.0 + "?" + parts.1 + ":" + parts.2
  {
    var question := TopIndex(text, QUESTION);
    var after := text[question + 1..];
    var colon := TopIndex(after, COLON);
    FoundHits(text, QUESTION, 0, 0);
    FoundHits(after, COLON, 0, 0);
    assert after == after[..colon] + ":" + after[colon + 1..];
    assert text == text[..question] + "?" + after;
  }

  lemma {:induction false} ArrowConserves(text: string, arrow: nat, c: char)
    requires IsKept(c)
    requires |SplitListing(text).parts| == 1 && ConditionalParts(text) == None
    requires TopIndex(text, COLON) == -1 && TopIndex(text, Arrow) == arrow
    ensures Count(Normalise(text), c) == Count(text, c)
    decreases |text|, 2
  {
    var left, right := text[..arrow], text[arrow + 2..];
    DeeperConserves(|text|, c);
    DescendConserves(Deeper(|text|), left, 0, |text|, c);
    assert left[0..] == left;
    KeepConserves(right, c);
    CountThree(DescendFrom(Deeper(|text|), left, 0), "=>", Keep(right), c);
    CountThree(left, "=>", right, c);
    CutArrow(text, arrow);
  }

  lemma {:induction false} CountThree(s1: string, s2: string, s3: string, c: char)
    ensures Count(s1 + s2 + s3, c) == Count(s1, c) + Count(s2, c) + Count(s3, c)
  {
    CountAppend(s1 + s2, s3, c);
    CountAppend(s1, s2, c);
  }

  lemma {:induction false} CutArrow(text: string, arrow: nat)
    requires ArrowAt(text, arrow)
    ensures text == text[..arrow] + "=>" + text[arrow + 2..]
  {
    assert text[arrow..arrow + 2] == "=>";
  }

  lemma {:induction false} TightConserves(text: string, c: char)
    requires IsKept(c)
    requires |SplitListing(text).parts| == 1 && ConditionalParts(text) == None
    requires TopIndex(text, COLON) == -1 && TopIndex(text, Arrow) == -1
    ensures Count(Normalise(text), c) == Count(text, c)
    decreases |text|, 2
  {
    MembersShorter(text, BAR);
    MembersShorter(text, AMPERSAND);
    var union, intersection := Members(text, BAR), Members(text, AMPERSAND);
    if |union| > 1 {
      var parts := NormaliseAll(union, |text|);
      AllConserve(union, |text|, c);
      CountMembers(text, '|', c);
      CountReordered(Sort(parts), parts, c);
      CountBlank(" | ", c);
      CountJoin(Sort(parts), " | ", c);
    } else if |intersection| > 1 {
      AllConserve(intersection, |text|, c);
      CountMembers(text, '&', c);
      CountBlank(" & ", c);
      CountJoin(NormaliseAll(intersection, |text|), " & ", c);
    } else {
      DeeperConserves(|text|, c);
      DescendConserves(Deeper(|text|), text, 0, |text|, c);
      assert text[0..] == text;
    }
  }

  lemma {:induction false} CountBlank(sep: string, c: char)
    requires IsKept(c)
    requires sep == " | " || sep == " & "
    ensures Count(sep, c) == 0
  {
    assert Count(sep[3..], c) == 0;
    assert sep[2..][1..] == sep[3..] && Count(sep[2..], c) == 0;
    assert sep[1..][1..] == sep[2..] && Count(sep[1..], c) == 0;
  }

  lemma {:induction false} KeepConserves(raw: string, c: char)
    requires IsKept(c)
    ensures Count(Keep(raw), c) == Count(raw, c)
    decreases |raw|, 5
  {
    var body := if Trim(raw) == "" then "" else Normalise(Trim(raw));
    if Trim(raw) != "" { NormaliseConserves(Trim(raw), c); }
    CountTrim(raw, c);
    LeadLenStops(raw);
    TrailLenStops(raw);
    CountSpace(Leading(raw), c);
    CountSpace(Trailing(raw), c);
    CountAppend(Leading(raw) + body, Trailing(raw), c);
    CountAppend(Leading(raw), body, c);
  }

  lemma {:induction false} DeeperConserves(bound: nat, c: char)
    requires IsKept(c)
    ensures Conserving(Deeper(bound), bound, c)
    decreases bound, 0
  {
    forall raw: string | |raw| < bound
      ensures Count(Deeper(bound)(raw), c) == Count(raw, c)
    {
      KeepConserves(raw, c);
    }
  }

  lemma {:induction false} AllConserve(parts: seq<string>, bound: nat, c: char)
    requires IsKept(c)
    requires forall p :: p in parts ==> |p| < bound
    ensures CountAll(NormaliseAll(parts, bound), c) == CountAll(parts, c)
    decreases bound, 1, |parts|
  {
    if parts == [] {
    } else {
      assert parts[0] in parts;
      NormaliseConserves(parts[0], c);
      AllConserve(parts[1..], bound, c);
      assert NormaliseAll(parts, bound)[1..] == NormaliseAll(parts[1..], bound);
    }
  }

  /** Nothing but white space, `|` and `&` is added or lost, whatever the text. */
  lemma {:induction false} Conserves(text: string, c: char)
    requires IsKept(c)
    ensures Count(NormaliseTypeText(text), c) == Count(text, c)
  {
    NormaliseConserves(text, c);
  }
}
