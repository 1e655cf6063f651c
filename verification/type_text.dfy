/** The union canonicaliser of packages/analyzer-typescript/src/type-text.ts.

    The scanners that the source writes as loops appear twice: as a function that says what the
    scan finds, and as a method with the source's loop, proved to compute that function. */
module TypeText {
  import opened Strings

  // ---------- Characters and tokens ----------

  predicate IsQuote(c: char) { c == '"' || c == '\'' || c == '`' }

  predicate IsOpener(c: char) { c == '{' || c == '(' || c == '[' || c == '<' }

  predicate IsCloser(c: char) { c == '}' || c == ')' || c == ']' || c == '>' }

  function CloserOf(open: char): (close: char)
    ensures IsCloser(close)
  {
    match open
    case '{' => '}'
    case '(' => ')'
    case '[' => ']'
    case _ => '>'
  }

  predicate ArrowAt(text: string, i: nat) {
    i + 1 < |text| && text[i] == '=' && text[i + 1] == '>'
  }

  /** What a scan looks for at bracket depth zero: the arrow of a function type, or a character. */
  datatype Needle = Arrow | Symbol(chars: set<char>)

  const LIST := Symbol({';', ','})
  const QUESTION := Symbol({'?'})
  const COLON := Symbol({':'})
  const BAR := Symbol({'|'})
  const AMPERSAND := Symbol({'&'})

  // ---------- What each scan finds ----------

  function StringEndFrom(text: string, quote: char, i: nat): (end: nat)
    requires i <= |text|
    ensures i <= end <= |text|
    decreases |text| - i
  {
    if i == |text| then |text|
    else if text[i] == '\\' then
      if i + 2 <= |text| then StringEndFrom(text, quote, i + 2) else |text|
    else if text[i] == quote then i + 1
    else StringEndFrom(text, quote, i + 1)
  }

  /** The offset after the quoted text that opens at `start`, or the end when it never closes. */
  function StringEnd(text: string, start: nat): (end: nat)
    requires start < |text|
    ensures start < end <= |text|
  {
    StringEndFrom(text, text[start], start + 1)
  }

  /** The first offset from `i` on where the needle stands at depth zero, `depth` brackets being
      open at `i`; -1 when there is none. */
  function Find(text: string, needle: Needle, i: nat, depth: int): (at: int)
    requires i <= |text|
    ensures at == -1 || i <= at < |text|
    ensures at >= 0 && needle.Arrow? ==> ArrowAt(text, at)
    decreases |text| - i
  {
    if i == |text| then -1
    else if IsQuote(text[i]) then Find(text, needle, StringEnd(text, i), depth)
    else if ArrowAt(text, i) then
      if needle.Arrow? && depth == 0 then i else Find(text, needle, i + 2, depth)
    else if IsOpener(text[i]) then Find(text, needle, i + 1, depth + 1)
    else if IsCloser(text[i]) then Find(text, needle, i + 1, depth - 1)
    else if depth == 0 && needle.Symbol? && text[i] in needle.chars then i
    else Find(text, needle, i + 1, depth)
  }

  function TopIndex(text: string, needle: Needle): (at: int)
    ensures at == -1 || 0 <= at < |text|
    ensures at >= 0 && needle.Arrow? ==> ArrowAt(text, at)
  {
    Find(text, needle, 0, 0)
  }

  /** The offset of the bracket that closes `open`, counting brackets of that kind only. */
  function CloseFrom(text: string, open: char, i: nat, depth: int): (end: nat)
    requires i <= |text| && IsOpener(open)
    ensures i <= end <= |text|
    decreases |text| - i
  {
    if i == |text| then |text|
    else if IsQuote(text[i]) then CloseFrom(text, open, StringEnd(text, i), depth)
    else if ArrowAt(text, i) then CloseFrom(text, open, i + 2, depth)
    else if text[i] == open then CloseFrom(text, open, i + 1, depth + 1)
    else if text[i] == CloserOf(open) then
      if depth == 1 then i else CloseFrom(text, open, i + 1, depth - 1)
    else CloseFrom(text, open, i + 1, depth)
  }

  /** The pieces between top-level occurrences of the needle, from `start` on, as written. */
  function RawPieces(text: string, needle: Needle, start: nat): (pieces: seq<string>)
    requires start <= |text| && needle.Symbol?
    ensures |pieces| >= 1
    decreases |text| - start
  {
    var at := Find(text, needle, start, 0);
    if at < 0 then [text[start..]]
    else [text[start..at]] + RawPieces(text, needle, at + 1)
  }

  /** Union or intersection members: trimmed, without the empty one a leading `|` leaves. */
  function Members(text: string, needle: Needle): seq<string>
    requires needle.Symbol?
  {
    DropEmpty(TrimAll(RawPieces(text, needle, 0)))
  }

  /** Parts of a list and the separators between them, both exactly as written. */
  datatype Listing = Listing(parts: seq<string>, separators: seq<string>) {
    ghost predicate Valid() {
      |parts| == |separators| + 1 && forall k :: 0 <= k < |separators| ==> separators[k] != ""
    }
  }

  function Rejoin(parts: seq<string>, separators: seq<string>): string
    requires |parts| == |separators| + 1
  {
    if separators == [] then parts[0]
    else parts[0] + separators[0] + Rejoin(parts[1..], separators[1..])
  }

  function ListFrom(text: string, start: nat): (r: Listing)
    requires start <= |text|
    ensures r.Valid()
    decreases |text| - start
  {
    var at := Find(text, LIST, start, 0);
    if at < 0 then Listing([text[start..]], [])
    else
      var next := SpaceEnd(text, at + 1);
      var tail := ListFrom(text, next);
      Listing([text[start..at]] + tail.parts, [text[at..next]] + tail.separators)
  }

  /** A blank last part is glued, with its separator, to the part before it. */
  function Glue(list: Listing): (r: Listing)
    requires list.Valid()
    ensures r.Valid()
  {
    var n := |list.parts|;
    if n > 1 && Trim(list.parts[n - 1]) == "" then
      Listing(list.parts[..n - 2] + [list.parts[n - 2] + list.separators[n - 2] + list.parts[n - 1]],
              list.separators[..n - 2])
    else list
  }

  function SplitListing(text: string): (r: Listing)
    ensures r.Valid()
  {
    Glue(ListFrom(text, 0))
  }

  /** Check, then and else texts of a conditional type; `?:` marks an optional member instead. */
  function ConditionalParts(text: string): (r: Option<(string, string, string)>)
    ensures r.Some? ==> |r.value.0| < |text| && |r.value.1| < |text| && |r.value.2| < |text|
  {
    var question := TopIndex(text, QUESTION);
    if question < 0 || (question + 1 < |text| && text[question + 1] == ':') then None
    else
      var after := text[question + 1..];
      var colon := TopIndex(after, COLON);
      if colon < 0 then None else Some((text[..question], after[..colon], after[colon + 1..]))
  }

  // ---------- The pieces are smaller than the text, and nothing is lost ----------

  lemma {:induction false} RejoinLengths(parts: seq<string>, separators: seq<string>, i: nat)
    requires |parts| == |separators| + 1 && i < |parts|
    requires forall k :: 0 <= k < |separators| ==> separators[k] != ""
    ensures |parts[i]| + |separators| <= |Rejoin(parts, separators)|
  {
    if separators == [] {
    } else {
      RejoinLengths(parts[1..], separators[1..], if i == 0 then 0 else i - 1);
    }
  }

  lemma {:induction false} RejoinCons(part: string, separator: string, parts: seq<string>, separators: seq<string>)
    requires |parts| == |separators| + 1
    ensures Rejoin([part] + parts, [separator] + separators) == part + separator + Rejoin(parts, separators)
  {
    assert ([part] + parts)[1..] == parts && ([separator] + separators)[1..] == separators;
  }

  lemma {:induction false} CutTail(text: string, i: nat, j: nat, k: nat)
    requires i <= j <= k <= |text|
    ensures text[i..] == text[i..j] + text[j..k] + text[k..]
  {
  }

  lemma {:induction false} ListRejoins(text: string, start: nat)
    requires start <= |text|
    ensures var r := ListFrom(text, start); Rejoin(r.parts, r.separators) == text[start..]
    decreases |text| - start
  {
    var at := Find(text, LIST, start, 0);
    if at < 0 {
    } else {
      var next := SpaceEnd(text, at + 1);
      var tail := ListFrom(text, next);
      ListRejoins(text, next);
      var first, separator := text[start..at], text[at..next];
      assert ListFrom(text, start) == Listing([first] + tail.parts, [separator] + tail.separators);
      RejoinCons(first, separator, tail.parts, tail.separators);
      assert first + separator + text[next..] == text[start..] by { CutTail(text, start, at, next); }
    }
  }

  lemma {:induction false} RejoinLastTwo(parts: seq<string>, separators: seq<string>)
    requires |parts| == |separators| + 1 && |parts| >= 2
    ensures var n := |parts|;
      Rejoin(parts[..n - 2] + [parts[n - 2] + separators[n - 2] + parts[n - 1]], separators[..n - 2])
      == Rejoin(parts, separators)
  {
    var n := |parts|;
    var glued := parts[..n - 2] + [parts[n - 2] + separators[n - 2] + parts[n - 1]];
    if n <= 2 {
    } else {
      RejoinLastTwo(parts[1..], separators[1..]);
      assert glued[1..] == parts[1..][..n - 3] + [parts[n - 2] + separators[n - 2] + parts[n - 1]];
      assert separators[..n - 2][1..] == separators[1..][..n - 3];
    }
  }

  /** Rejoining the listing gives the text back, so a real list has only shorter parts. */
  lemma {:induction false} SplitListingRejoins(text: string)
    ensures var r := SplitListing(text);
      && Rejoin(r.parts, r.separators) == text
      && (|r.parts| > 1 ==> forall p :: p in r.parts ==> |p| < |text|)
  {
    var raw := ListFrom(text, 0);
    ListRejoins(text, 0);
    assert text[0..] == text;
    if |raw.parts| > 1 { RejoinLastTwo(raw.parts, raw.separators); }
    var r := SplitListing(text);
    forall p | p in r.parts && |r.parts| > 1 ensures |p| < |text| {
      var i :| 0 <= i < |r.parts| && r.parts[i] == p;
      RejoinLengths(r.parts, r.separators, i);
    }
  }

  lemma {:induction false} PiecesShorter(text: string, needle: Needle, start: nat)
    requires start <= |text| && needle.Symbol?
    ensures var r := RawPieces(text, needle, start);
      forall p :: p in r ==> |p| + (if |r| > 1 then 1 else 0) <= |text| - start
    decreases |text| - start
  {
    var at := Find(text, needle, start, 0);
    if at < 0 {
    } else {
      PiecesShorter(text, needle, at + 1);
    }
  }

  lemma {:induction false} CleanedShorter(pieces: seq<string>, bound: nat)
    requires forall p :: p in pieces ==> |p| < bound
    ensures forall p :: p in DropEmpty(TrimAll(pieces)) ==> |p| < bound
  {
    if pieces == [] {
    } else {
      assert pieces[0] in pieces;
      CleanedShorter(pieces[1..], bound);
      assert TrimAll(pieces)[1..] == TrimAll(pieces[1..]);
    }
  }

  lemma {:induction false} MembersShorter(text: string, needle: Needle)
    requires needle.Symbol?
    ensures |Members(text, needle)| > 1 ==> forall p :: p in Members(text, needle) ==> |p| < |text|
  {
    PiecesShorter(text, needle, 0);
    var raw := RawPieces(text, needle, 0);
    if |Members(text, needle)| > 1 {
      assert |raw| > 1;
      CleanedShorter(raw, |text|);
    }
  }

  /** Rewrite the inside of every bracketed region from `i` on; the text between them is copied. */
  function DescendFrom(inside: string -> string, text: string, i: nat): string
    requires i <= |text|
    decreases |text| - i
  {
    if i == |text| then ""
    else if IsQuote(text[i]) then
      text[i..StringEnd(text, i)] + DescendFrom(inside, text, StringEnd(text, i))
    else if ArrowAt(text, i) then "=>" + DescendFrom(inside, text, i + 2)
    else if IsOpener(text[i]) then
      var end := CloseFrom(text, text[i], i + 1, 1);
      if end < |text| then
        [text[i]] + inside(text[i + 1..end]) + [text[end]] + DescendFrom(inside, text, end + 1)
      else [text[i]] + inside(text[i + 1..end])
    else [text[i]] + DescendFrom(inside, text, i + 1)
  }

  // ---------- Normalisation ----------

  function NormaliseTypeText(text: string): string {
    if |Trim(text)| == 0 then text else Normalise(text)
  }

  function Normalise(text: string): string
    decreases |text|, 2
  {
    SplitListingRejoins(text);
    MembersShorter(text, BAR);
    MembersShorter(text, AMPERSAND);
    var list := SplitListing(text);
    if |list.parts| > 1 then
      Rejoin(NormaliseAll(list.parts, |text|), list.separators)
    else
      match ConditionalParts(text)
      case Some(parts) =>
        Keep(parts.0) + "?" + Keep(parts.1) + ":" + Keep(parts.2)
      case None =>
        var colon := TopIndex(text, COLON);
        if colon >= 0 then
          DescendFrom(Deeper(|text|), text[..colon + 1], 0) + Keep(text[colon + 1..])
        else
          var arrow := TopIndex(text, Arrow);
          if arrow >= 0 then
            DescendFrom(Deeper(|text|), text[..arrow], 0) + "=>" + Keep(text[arrow + 2..])
          else
            var union := Members(text, BAR);
            if |union| > 1 then
              Join(Sort(NormaliseAll(union, |text|)), " | ")
            else
              var intersection := Members(text, AMPERSAND);
              if |intersection| > 1 then
                Join(NormaliseAll(intersection, |text|), " & ")
              else
                DescendFrom(Deeper(|text|), text, 0)
  }

  function NormaliseAll(parts: seq<string>, bound: nat): (r: seq<string>)
    requires forall p :: p in parts ==> |p| < bound
    ensures |r| == |parts|
    decreases bound, 1, |parts|
  {
    if parts == [] then []
    else
      assert parts[0] in parts;
      [Normalise(parts[0])] + NormaliseAll(parts[1..], bound)
  }

  /** What a region inside a text of `bound` characters is rewritten to. */
  function Deeper(bound: nat): string -> string
    decreases bound, 0
  {
    (raw: string) => if |raw| < bound then Keep(raw) else raw
  }

  /** Normalise a fragment between its surrounding white space. */
  function Keep(raw: string): string
    decreases |raw|, 3
  {
    Leading(raw) + (if Trim(raw) == "" then "" else Normalise(Trim(raw))) + Trailing(raw)
  }

  // ---------- The source's loops ----------

  method EndOfString(text: string, start: nat) returns (end: nat)
    requires start < |text|
    ensures end == StringEnd(text, start)
  {
    var quote := text[start];
    var i := start + 1;
    while i < |text|
      invariant start < i <= |text| + 1
      invariant StringEnd(text, start) == if i <= |text| then StringEndFrom(text, quote, i) else |text|
    {
      if text[i] == '\\' {
        i := i + 2;
      } else if text[i] == quote {
        return i + 1;
      } else {
        i := i + 1;
      }
    }
    end := |text|;
  }

  method IndexOfTop(text: string, needle: Needle) returns (at: int)
    ensures at == TopIndex(text, needle)
  {
    var depth := 0;
    var i := 0;
    while i < |text|
      invariant 0 <= i <= |text|
      invariant Find(text, needle, i, depth) == TopIndex(text, needle)
    {
      var ch := text[i];
      if IsQuote(ch) {
        i := EndOfString(text, i);
        continue;
      }
      if ArrowAt(text, i) {
        if needle.Arrow? && depth == 0 { return i; }
        i := i + 2;
        continue;
      }
      if IsOpener(ch) {
        depth := depth + 1;
      } else if IsCloser(ch) {
        depth := depth - 1;
      } else if depth == 0 && needle.Symbol? && ch in needle.chars {
        return i;
      }
      i := i + 1;
    }
    at := -1;
  }

  method Matching(text: string, start: nat) returns (end: nat)
    requires start < |text| && IsOpener(text[start])
    ensures end == CloseFrom(text, text[start], start + 1, 1)
  {
    var open := text[start];
    var depth := 0;
    var i := start;
    while i < |text|
      invariant start <= i <= |text|
      invariant i == start ==> depth == 0
      invariant i > start ==> CloseFrom(text, open, i, depth) == CloseFrom(text, open, start + 1, 1)
    {
      if IsQuote(text[i]) {
        i := EndOfString(text, i);
        continue;
      }
      if ArrowAt(text, i) {
        i := i + 2;
        continue;
      }
      if text[i] == open {
        depth := depth + 1;
      } else if text[i] == CloserOf(open) {
        depth := depth - 1;
        if depth == 0 { return i; }
      }
      i := i + 1;
    }
    end := |text|;
  }

  method SplitOn(text: string, separator: char) returns (parts: seq<string>)
    ensures parts == Members(text, Symbol({separator}))
  {
    hide RawPieces, TrimAll, Trim;
    var needle := Symbol({separator});
    var trimmed: seq<string> := [];
    var depth := 0;
    var start := 0;
    var i := 0;
    while i < |text|
      invariant 0 <= start <= i <= |text|
      invariant Find(text, needle, i, depth) == Find(text, needle, start, 0)
      invariant trimmed + TrimAll(RawPieces(text, needle, start)) == TrimAll(RawPieces(text, needle, 0))
    {
      var ch := text[i];
      if IsQuote(ch) {
        i := EndOfString(text, i);
        continue;
      }
      if ArrowAt(text, i) {
        i := i + 2;
        continue;
      }
      if IsOpener(ch) {
        depth := depth + 1;
      } else if IsCloser(ch) {
        depth := depth - 1;
      } else if ch == separator && depth == 0 {
        PieceStep(text, needle, start, i, trimmed);
        trimmed := trimmed + [Trim(text[start..i])];
        start := i + 1;
      }
      i := i + 1;
    }
    PieceLast(text, needle, start, trimmed);
    trimmed := trimmed + [Trim(text[start..])];
    parts := DropEmpty(trimmed);
  }

  lemma {:induction false} PieceStep(text: string, needle: Needle, start: nat, at: nat, done: seq<string>)
    requires needle.Symbol? && start <= at < |text| && Find(text, needle, start, 0) == at
    ensures done + TrimAll(RawPieces(text, needle, start))
         == done + [Trim(text[start..at])] + TrimAll(RawPieces(text, needle, at + 1))
  {
    hide Find, Trim;
  }

  lemma {:induction false} PieceLast(text: string, needle: Needle, start: nat, done: seq<string>)
    requires needle.Symbol? && start <= |text| && Find(text, needle, start, 0) == -1
    ensures done + TrimAll(RawPieces(text, needle, start)) == done + [Trim(text[start..])]
  {
    hide Find, Trim;
    assert TrimAll([text[start..]]) == [Trim(text[start..])];
  }

  method SplitList(text: string) returns (list: Listing)
    ensures list == SplitListing(text)
  {
    hide ListFrom, SpaceEnd;
    var parts: seq<string> := [];
    var separators: seq<string> := [];
    var depth := 0;
    var start := 0;
    var i := 0;
    while i < |text|
      invariant 0 <= start <= i <= |text|
      invariant |parts| == |separators|
      invariant Find(text, LIST, i, depth) == Find(text, LIST, start, 0)
      invariant var tail := ListFrom(text, start);
        ListFrom(text, 0) == Listing(parts + tail.parts, separators + tail.separators)
    {
      var ch := text[i];
      if IsQuote(ch) {
        i := EndOfString(text, i);
        continue;
      }
      if ArrowAt(text, i) {
        i := i + 2;
        continue;
      }
      if IsOpener(ch) {
        depth := depth + 1;
      } else if IsCloser(ch) {
        depth := depth - 1;
      } else if (ch == ';' || ch == ',') && depth == 0 {
        var next := SpaceEnd(text, i + 1);
        ListingStep(text, start, i, parts, separators);
        parts := parts + [text[start..i]];
        separators := separators + [text[i..next]];
        i := next;
        start := i;
        continue;
      }
      i := i + 1;
    }
    ListingLast(text, start, parts, separators);
    parts := parts + [text[start..]];
    list := Glue(Listing(parts, separators));
  }

  lemma {:induction false} ListingStep(text: string, start: nat, at: nat, parts: seq<string>, separators: seq<string>)
    requires start <= at < |text| && Find(text, LIST, start, 0) == at
    ensures var next := SpaceEnd(text, at + 1);
      var tail, rest := ListFrom(text, start), ListFrom(text, next);
      && parts + tail.parts == parts + [text[start..at]] + rest.parts
      && separators + tail.separators == separators + [text[at..next]] + rest.separators
  {
    hide Find, SpaceEnd;
  }

  lemma {:induction false} ListingLast(text: string, start: nat, parts: seq<string>, separators: seq<string>)
    requires start <= |text| && Find(text, LIST, start, 0) == -1
    ensures var tail := ListFrom(text, start);
      parts + tail.parts == parts + [text[start..]] && separators + tail.separators == separators
  {
  }

  /** `bound` is the size of the text this one is part of. */
  method Descend(text: string, ghost bound: nat) returns (out: string)
    requires |text| <= bound
    ensures out == DescendFrom(Deeper(bound), text, 0)
  {
    hide Normalise, NormaliseAll, CloseFrom, StringEndFrom, Find;
    ghost var inside := Deeper(bound);
    out := "";
    var i := 0;
    while i < |text|
      invariant 0 <= i <= |text|
      invariant out + DescendFrom(inside, text, i) == DescendFrom(inside, text, 0)
    {
      var ch := text[i];
      if IsQuote(ch) {
        var end := EndOfString(text, i);
        CopyStep(inside, text, i, out, text[i..end], end);
        out := out + text[i..end];
        i := end;
        continue;
      }
      if ArrowAt(text, i) {
        CopyStep(inside, text, i, out, "=>", i + 2);
        out := out + "=>";
        i := i + 2;
        continue;
      }
      if IsOpener(ch) {
        var end := Matching(text, i);
        var inner := text[i + 1..end];
        var body := Trim(inner);
        var region := [ch] + (Leading(inner) + (if |body| > 0 then Normalise(body) else "") + Trailing(inner))
                      + (if end < |text| then [text[end]] else "");
        RegionStep(bound, text, i, end, out, region);
        out := out + region;
        i := if end < |text| then end + 1 else |text|;
        continue;
      }
      CopyStep(inside, text, i, out, [ch], i + 1);
      out := out + [ch];
      i := i + 1;
    }
  }

  lemma {:induction false} CopyStep(inside: string -> string, text: string, i: nat, out: string, piece: string, next: nat)
    requires i < next <= |text| && DescendFrom(inside, text, i) == piece + DescendFrom(inside, text, next)
    ensures out + DescendFrom(inside, text, i) == out + piece + DescendFrom(inside, text, next)
  {
  }

  lemma {:induction false} RegionStep(bound: nat, text: string, i: nat, end: nat, out: string, region: string)
    requires i < |text| <= bound && IsOpener(text[i]) && end == CloseFrom(text, text[i], i + 1, 1)
    requires region == [text[i]] + Keep(text[i + 1..end]) + (if end < |text| then [text[end]] else "")
    ensures var next := if end < |text| then end + 1 else |text|;
      out + DescendFrom(Deeper(bound), text, i) == out + region + DescendFrom(Deeper(bound), text, next)
  {
    hide Keep, CloseFrom;
    assert !IsQuote(text[i]) && !ArrowAt(text, i);
    assert Deeper(bound)(text[i + 1..end]) == Keep(text[i + 1..end]);
  }
}
