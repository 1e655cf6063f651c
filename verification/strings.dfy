/** The string operations of the JavaScript runtime that the modelled code relies on.
    A `char` stands for one code unit. */
module Strings {

  datatype Option<+T> = None | Some(value: T)

  // ---------- White space ----------

  /** What `\s` matches and `trim` strips: white space and line terminators. */
  predicate IsSpace(c: char) {
    || '\U{0009}' <= c <= '\U{000D}'
    || c == ' ' || c == '\U{00A0}' || c == '\U{1680}'
    || '\U{2000}' <= c <= '\U{200A}'
    || c == '\U{2028}' || c == '\U{2029}' || c == '\U{202F}'
    || c == '\U{205F}' || c == '\U{3000}' || c == '\U{FEFF}'
  }

  predicate AllSpace(s: string) {
    forall i :: 0 <= i < |s| ==> IsSpace(s[i])
  }

  /** The text starts and ends with something other than white space. */
  predicate Trimmed(s: string) {
    s != "" && !IsSpace(s[0]) && !IsSpace(s[|s| - 1])
  }

  /** Length of the longest white-space prefix. */
  function LeadLen(s: string): (n: nat)
    ensures n <= |s|
  {
    if s != "" && IsSpace(s[0]) then 1 + LeadLen(s[1..]) else 0
  }

  /** The first offset from `i` on that holds something other than white space. */
  function SpaceEnd(s: string, i: nat): (end: nat)
    requires i <= |s|
    ensures i <= end <= |s|
    decreases |s| - i
  {
    if i < |s| && IsSpace(s[i]) then SpaceEnd(s, i + 1) else i
  }

  lemma {:induction false} SpaceEndAt(s: string, i: nat, end: nat)
    requires i <= end <= |s|
    requires forall k :: i <= k < end ==> IsSpace(s[k])
    requires end < |s| ==> !IsSpace(s[end])
    ensures SpaceEnd(s, i) == end
    decreases end - i
  {
    if i >= end {
    } else {
      SpaceEndAt(s, i + 1, end);
    }
  }

  /** Length of the longest white-space suffix. */
  function TrailLen(s: string): (n: nat)
    ensures n <= |s|
  {
    if s != "" && IsSpace(s[|s| - 1]) then 1 + TrailLen(s[..|s| - 1]) else 0
  }

  function Leading(s: string): string { s[..LeadLen(s)] }

  function Trailing(s: string): string { s[|s| - TrailLen(s)..] }

  function TrimEnd(s: string): string { s[..|s| - TrailLen(s)] }

  function Trim(s: string): (r: string)
    ensures |r| <= |s|
  {
    TrimEnd(s[LeadLen(s)..])
  }

  lemma {:induction false} LeadLenOf(lead: string, rest: string)
    requires AllSpace(lead) && (rest != "" ==> !IsSpace(rest[0]))
    ensures LeadLen(lead + rest) == |lead|
  {
    if lead == "" {
      assert lead + rest == rest;
    } else {
      assert (lead + rest)[1..] == lead[1..] + rest;
      assert AllSpace(lead[1..]);
      LeadLenOf(lead[1..], rest);
    }
  }

  lemma {:induction false} TrailLenOf(front: string, trail: string)
    requires AllSpace(trail) && (front != "" ==> !IsSpace(front[|front| - 1]))
    ensures TrailLen(front + trail) == |trail|
  {
    var s := front + trail;
    if trail == "" {
      assert s == front;
    } else {
      assert s[..|s| - 1] == front + trail[..|trail| - 1];
      assert s[|s| - 1] == trail[|trail| - 1];
      TrailLenOf(front, trail[..|trail| - 1]);
    }
  }

  lemma {:induction false} LeadLenStops(s: string)
    ensures AllSpace(s[..LeadLen(s)])
    ensures LeadLen(s) < |s| ==> !IsSpace(s[LeadLen(s)])
  {
    if s != "" && IsSpace(s[0]) {
      LeadLenStops(s[1..]);
      var n := LeadLen(s[1..]);
      var head := s[..n + 1];
      forall i | 0 <= i < n + 1
        ensures IsSpace(head[i])
      {
        if i > 0 { assert s[1..][..n][i - 1] == s[i]; }
      }
    }
  }

  lemma {:induction false} TrailLenStops(s: string)
    ensures AllSpace(s[|s| - TrailLen(s)..])
    ensures TrailLen(s) < |s| ==> !IsSpace(s[|s| - TrailLen(s) - 1])
  {
    if s != "" && IsSpace(s[|s| - 1]) {
      var t := s[..|s| - 1];
      TrailLenStops(t);
      var k := |t| - TrailLen(t);
      var tail := s[k..];
      forall i | 0 <= i < |s| - k
        ensures IsSpace(tail[i])
      {
        if i < |t| - k { assert t[k..][i] == s[k + i]; }
      }
    }
  }

  /** White space around a trimmed body is recovered exactly. */
  lemma {:induction false} PadsRecovered(lead: string, body: string, trail: string)
    requires AllSpace(lead) && AllSpace(trail) && Trimmed(body)
    ensures Leading(lead + body + trail) == lead
    ensures Trailing(lead + body + trail) == trail
    ensures Trim(lead + body + trail) == body
  {
    var s := lead + body + trail;
    assert s == lead + (body + trail);
    LeadLenOf(lead, body + trail);
    TrailLenOf(lead + body, trail);
    TrailLenOf(body, trail);
    assert s[|lead|..] == body + trail;
  }

  lemma {:induction false} AllSpacePads(s: string)
    requires AllSpace(s)
    ensures Leading(s) == s && Trailing(s) == s && Trim(s) == ""
  {
    LeadLenOf(s, "");
    TrailLenOf("", s);
    assert s + "" == s && "" + s == s;
  }

  lemma {:induction false} CutInThree(s: string, l: nat, cut: nat)
    requires l <= |s| && cut <= |s| - l
    ensures s == s[..l] + s[l..][..cut] + s[l..][cut..]
  {
    var rest := s[l..];
    assert rest == rest[..cut] + rest[cut..];
    assert s == s[..l] + rest;
  }

  /** Every text is white space, a body, white space. */
  lemma {:induction false} TrimSplits(s: string)
    ensures s == Leading(s) + Trim(s) + Trailing(s[LeadLen(s)..])
  {
    var l := LeadLen(s);
    CutInThree(s, l, |s[l..]| - TrailLen(s[l..]));
  }

  lemma {:induction false} TrimIsEmpty(s: string)
    ensures Trim(s) == "" <==> AllSpace(s)
  {
    if AllSpace(s) {
      AllSpacePads(s);
    } else {
      TrimSplits(s);
      LeadLenStops(s);
      TrailLenStops(s[LeadLen(s)..]);
    }
  }

  // ---------- Lists of pieces ----------

  lemma {:induction false} Associative<T>(a: seq<T>, b: seq<T>, c: seq<T>)
    ensures a + b + c == a + (b + c)
  {
  }

  /** An element put in after the head is put in one place earlier in the tail. */
  lemma {:induction false} InsertTail<T>(s: seq<T>, i: nat, x: T)
    requires 0 < i <= |s|
    ensures var r := s[..i] + [x] + s[i..];
      r[0] == s[0] && r[1..] == s[1..][..i - 1] + [x] + s[1..][i - 1..]
  {
    var r, t := s[..i] + [x] + s[i..], s[1..];
    var tail := t[..i - 1] + [x] + t[i - 1..];
    assert |r[1..]| == |tail|;
    assert forall k :: 0 <= k < |tail| ==> r[1..][k] == tail[k];
  }

  lemma {:induction false} InsertHead<T>(s: seq<T>, x: T)
    ensures s[..0] + [x] + s[0..] == [x] + s && ([x] + s)[1..] == s
  {
  }

  function TrimAll(pieces: seq<string>): (r: seq<string>)
    ensures |r| == |pieces|
  {
    if pieces == [] then [] else [Trim(pieces[0])] + TrimAll(pieces[1..])
  }

  function DropEmpty(pieces: seq<string>): (r: seq<string>)
    ensures |r| <= |pieces|
  {
    if pieces == [] then []
    else if pieces[0] == "" then DropEmpty(pieces[1..])
    else [pieces[0]] + DropEmpty(pieces[1..])
  }

  // ---------- Joining ----------

  /** `parts.join(sep)`. */
  function Join(parts: seq<string>, sep: string): string {
    if parts == [] then ""
    else if |parts| == 1 then parts[0]
    else parts[0] + sep + Join(parts[1..], sep)
  }

  // ---------- Code-unit order and sorting ----------

  /** `a <= b` on strings: code units compared left to right, a prefix first. */
  predicate Leq(a: string, b: string) {
    a == "" || (b != "" && (a[0] < b[0] || (a[0] == b[0] && Leq(a[1..], b[1..]))))
  }

  lemma {:induction false} LeqTotal(a: string, b: string)
    ensures Leq(a, b) || Leq(b, a)
  {
    if a != "" && b != "" && a[0] == b[0] { LeqTotal(a[1..], b[1..]); }
  }

  lemma {:induction false} LeqAntisymmetric(a: string, b: string)
    requires Leq(a, b) && Leq(b, a)
    ensures a == b
  {
    if a == "" {
    } else {
      LeqAntisymmetric(a[1..], b[1..]);
      assert a == [a[0]] + a[1..] && b == [b[0]] + b[1..];
    }
  }

  lemma {:induction false} LeqTransitive(a: string, b: string, c: string)
    requires Leq(a, b) && Leq(b, c)
    ensures Leq(a, c)
  {
    if a != "" && a[0] == b[0] == c[0] { LeqTransitive(a[1..], b[1..], c[1..]); }
  }

  predicate IsSorted(xs: seq<string>) {
    |xs| <= 1 || (Leq(xs[0], xs[1]) && IsSorted(xs[1..]))
  }

  lemma {:induction false} HeadIsLeast(xs: seq<string>, x: string)
    requires IsSorted(xs) && x in xs
    ensures Leq(xs[0], x)
  {
    if x == xs[0] {
      LeqTotal(x, x);
    } else {
      HeadIsLeast(xs[1..], x);
      LeqTransitive(xs[0], xs[1], x);
    }
  }

  function Insert(x: string, xs: seq<string>): (r: seq<string>)
    ensures multiset(r) == multiset(xs) + multiset{x}
  {
    if xs == [] then [x]
    else if Leq(x, xs[0]) then [x] + xs
    else
      assert xs == [xs[0]] + xs[1..];
      [xs[0]] + Insert(x, xs[1..])
  }

  lemma {:induction false} InsertSorted(x: string, xs: seq<string>)
    requires IsSorted(xs)
    ensures IsSorted(Insert(x, xs))
  {
    if xs != [] && !Leq(x, xs[0]) {
      LeqTotal(x, xs[0]);
      InsertSorted(x, xs[1..]);
      var r := Insert(x, xs[1..]);
      assert r[0] == x || r[0] == xs[1];
      assert ([xs[0]] + r)[1..] == r;
    } else if xs != [] {
      assert ([x] + xs)[1..] == xs;
    }
  }

  /** `xs.sort()`: an ascending arrangement of the same strings, and the only one (SortedUnique). */
  function Sort(xs: seq<string>): (r: seq<string>)
    ensures multiset(r) == multiset(xs) && |r| == |xs|
    ensures IsSorted(r)
  {
    if xs == [] then []
    else
      assert xs == [xs[0]] + xs[1..];
      InsertSorted(xs[0], Sort(xs[1..]));
      var r := Insert(xs[0], Sort(xs[1..]));
      assert |multiset(r)| == |r| && |multiset(xs)| == |xs|;
      r
  }

  /** The code-unit order leaves only one sorted arrangement of a bag of strings. */
  lemma {:induction false} SortedUnique(xs: seq<string>, ys: seq<string>)
    requires IsSorted(xs) && IsSorted(ys) && multiset(xs) == multiset(ys)
    ensures xs == ys
  {
    assert |multiset(xs)| == |xs| && |multiset(ys)| == |ys|;
    if xs == [] {
    } else {
      SameHead(xs, ys);
      TailBag(xs);
      TailBag(ys);
      SortedUnique(xs[1..], ys[1..]);
      assert xs == [xs[0]] + xs[1..] && ys == [ys[0]] + ys[1..];
    }
  }

  lemma {:induction false} TailBag<T>(xs: seq<T>)
    requires xs != []
    ensures multiset(xs[1..]) == multiset(xs) - multiset{xs[0]}
  {
    assert xs == [xs[0]] + xs[1..];
  }

  lemma {:induction false} WithoutOne<T>(xs: seq<T>, j: nat)
    requires j < |xs|
    ensures multiset(xs[..j] + xs[j + 1..]) == multiset(xs) - multiset{xs[j]}
  {
    assert xs == xs[..j] + [xs[j]] + xs[j + 1..];
  }

  lemma {:induction false} SameHead(xs: seq<string>, ys: seq<string>)
    requires IsSorted(xs) && IsSorted(ys) && multiset(xs) == multiset(ys) && xs != [] && ys != []
    ensures xs[0] == ys[0]
  {
    assert xs[0] in multiset(xs) && ys[0] in multiset(ys);
    HeadIsLeast(xs, ys[0]);
    HeadIsLeast(ys, xs[0]);
    LeqAntisymmetric(xs[0], ys[0]);
  }

  lemma {:induction false} SortOfSameBag(xs: seq<string>, ys: seq<string>)
    requires multiset(xs) == multiset(ys)
    ensures Sort(xs) == Sort(ys)
  {
    SortedUnique(Sort(xs), Sort(ys));
  }

  // ---------- Sets as lists ----------

  predicate Distinct<T(==)>(xs: seq<T>) {
    forall i, j :: 0 <= i < j < |xs| ==> xs[i] != xs[j]
  }

  /** `[...new Set(xs)]`: the first occurrence of each element, in order. */
  function Unique<T(==, !new)>(xs: seq<T>): (r: seq<T>)
    ensures Distinct(r)
    ensures forall x :: x in r <==> x in xs
  {
    if xs == [] then []
    else
      var rest, x := Unique(xs[..|xs| - 1]), xs[|xs| - 1];
      assert xs == xs[..|xs| - 1] + [x];
      if x in rest then rest else rest + [x]
  }

  lemma {:induction false} DistinctBag(xs: seq<string>, ys: seq<string>)
    requires Distinct(xs) && multiset(xs) == multiset(ys)
    ensures Distinct(ys)
  {
    forall i, j | 0 <= i < j < |ys|
      ensures ys[i] != ys[j]
    {
      if ys[i] == ys[j] {
        TwiceInBag(ys, i, j);
        OnceInBag(xs, ys[i]);
      }
    }
  }

  lemma {:induction false} TwiceInBag(ys: seq<string>, i: nat, j: nat)
    requires i < j < |ys| && ys[i] == ys[j]
    ensures multiset(ys)[ys[i]] >= 2
  {
    var front, back := ys[..j], ys[j..];
    assert ys == front + back;
    assert front[i] == ys[i] && back[0] == ys[j];
    assert multiset(front)[ys[i]] >= 1 && multiset(back)[ys[i]] >= 1;
  }

  lemma {:induction false} OnceInBag(xs: seq<string>, x: string)
    requires Distinct(xs)
    ensures multiset(xs)[x] <= 1
  {
    if xs == [] {
    } else {
      var front, last := xs[..|xs| - 1], xs[|xs| - 1];
      assert xs == front + [last];
      OnceInBag(front, x);
      if x == last {
        assert forall i :: 0 <= i < |front| ==> front[i] == xs[i];
        assert x !in front;
      }
    }
  }

  /** `[...new Set(xs)].sort()` holds what the list holds, once each, in order. */
  lemma {:induction false} SortedSet(xs: seq<string>)
    ensures var r := Sort(Unique(xs)); IsSorted(r) && Distinct(r) && forall x :: x in r <==> x in xs
  {
    var u := Unique(xs);
    DistinctBag(u, Sort(u));
    forall x ensures x in Sort(u) <==> x in xs {
      assert x in Sort(u) <==> x in multiset(Sort(u));
      assert x in u <==> x in multiset(u);
    }
  }

  // ---------- Keys of two parts ----------

  predicate Colonless(s: string) { ':' !in s }

  lemma {:induction false} CutAtColon(a: string, x: string, i: nat)
    requires Colonless(a) && i <= |a|
    ensures (a + ":" + x)[i] == ':' <==> i == |a|
  {
    if i < |a| { assert a[i] in a; }
  }

  /** A colon cannot be mistaken for part of a first half that holds none. */
  lemma {:induction false} ColonSplits(a: string, x: string, b: string, y: string)
    requires Colonless(a) && Colonless(b) && a + ":" + x == b + ":" + y
    ensures a == b && x == y
  {
    var m := if |a| < |b| then |a| else |b|;
    CutAtColon(a, x, m);
    CutAtColon(b, y, m);
    assert (a + ":" + x)[..m] == a && (b + ":" + y)[..m] == b;
    assert (a + ":" + x)[m + 1..] == x && (b + ":" + y)[m + 1..] == y;
  }

  // ---------- Slips in a string ----------

  /** The strings agree everywhere but at `i`. */
  predicate DifferAt(s: string, t: string, i: nat) {
    |s| == |t| && i < |s| && s[i] != t[i] && forall j :: 0 <= j < |s| && j != i ==> s[j] == t[j]
  }

  /** `t` is `s` with the characters at `i` and `i + 1` exchanged. */
  predicate Swapped(s: string, t: string, i: nat) {
    && |s| == |t| && i + 1 < |s| && s[i] == t[i + 1] && s[i + 1] == t[i]
    && forall j :: 0 <= j < |s| && j != i && j != i + 1 ==> s[j] == t[j]
  }
}
