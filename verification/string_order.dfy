/** What the string operations of the JavaScript runtime mean, with code units and positions written out. */
module StringOrder {
  import opened Strings

  /** The code units that the language counts as white space or as the end of a line. */
  const WHITE_SPACE: set<int> := {
    0x0009, 0x000A, 0x000B, 0x000C, 0x000D, 0x0020, 0x00A0, 0x1680,
    0x2000, 0x2001, 0x2002, 0x2003, 0x2004, 0x2005, 0x2006, 0x2007, 0x2008, 0x2009, 0x200A,
    0x2028, 0x2029, 0x202F, 0x205F, 0x3000, 0xFEFF
  }

  lemma {:induction false} WhiteSpaceIs(c: char)
    ensures IsSpace(c) <==> c as int in WHITE_SPACE
  {
    assert c as int in WHITE_SPACE ==> IsSpace(c);
  }

  // ---------- Order ----------

  /** The strings agree up to `k`, where `a` ends or holds the smaller code unit. */
  predicate LessFrom(a: string, b: string, k: nat) {
    && k <= |a| && k < |b| && a[..k] == b[..k]
    && (k == |a| || (a[k] as int) < (b[k] as int))
  }

  lemma {:induction false} LessStep(a: string, b: string, k: nat)
    requires a != "" && b != "" && a[0] == b[0]
    ensures LessFrom(a, b, k + 1) <==> LessFrom(a[1..], b[1..], k)
  {
    if k + 1 <= |a| && k + 1 < |b| {
      assert a[..k + 1] == [a[0]] + a[1..][..k] && b[..k + 1] == [b[0]] + b[1..][..k];
    }
  }

  /** A string comes before another when it is its beginning, or holds the smaller code unit at the first place
      where they differ. */
  lemma {:induction false} OrderIs(a: string, b: string)
    ensures Leq(a, b) <==> a == b || exists k: nat :: LessFrom(a, b, k)
  {
    hide LessFrom;
    if a == "" || b == "" || a[0] != b[0] {
      FirstDecides(a, b);
    } else {
      OrderIs(a[1..], b[1..]);
      assert a == [a[0]] + a[1..] && b == [b[0]] + b[1..];
      if k: nat :| LessFrom(a[1..], b[1..], k) {
        LessStep(a, b, k);
      }
      if k: nat :| LessFrom(a, b, k) {
        NotAtOnce(a, b);
        LessStep(a, b, k - 1);
      }
    }
  }

  lemma {:induction false} NotAtOnce(a: string, b: string)
    requires a != "" && b != "" && a[0] == b[0]
    ensures !LessFrom(a, b, 0)
  {
  }

  lemma {:induction false} FirstDecides(a: string, b: string)
    requires a == "" || b == "" || a[0] != b[0]
    ensures Leq(a, b) <==> a == b || exists k: nat :: LessFrom(a, b, k)
  {
    forall k: nat | k > 0 ensures !LessFrom(a, b, k) {
      if k <= |a| && k <= |b| { assert a[..k][0] == a[0] && b[..k][0] == b[0]; }
    }
    assert LessFrom(a, b, 0) <==> b != "" && (a == "" || (a[0] as int) < (b[0] as int));
  }

  // ---------- Lists as sets ----------

  /** `x` is in the list, before any `y`. */
  predicate ComesBefore(xs: seq<string>, x: string, y: string) {
    exists p :: 0 <= p < |xs| && xs[p] == x && y !in xs[..p]
  }

  /** The elements of `[...new Set(xs)]` stand in the order of their first occurrences. */
  lemma {:induction false} UniqueInOrder(xs: seq<string>, i: nat, j: nat)
    requires i < j < |Unique(xs)|
    ensures ComesBefore(xs, Unique(xs)[i], Unique(xs)[j])
  {
    hide ComesBefore;
    var front, last, r := xs[..|xs| - 1], xs[|xs| - 1], Unique(xs);
    assert xs == front + [last];
    var rest := Unique(front);
    if j < |rest| {
      UniqueInOrder(front, i, j);
      StillBefore(front, last, r[i], r[j]);
    } else {
      assert rest[i] in front && r[j] == last && last !in front;
      FirstAtEnd(front, last, r[i]);
    }
  }

  lemma {:induction false} StillBefore(front: seq<string>, last: string, x: string, y: string)
    requires ComesBefore(front, x, y)
    ensures ComesBefore(front + [last], x, y)
  {
    var p :| 0 <= p < |front| && front[p] == x && y !in front[..p];
    assert (front + [last])[..p] == front[..p];
  }

  lemma {:induction false} FirstAtEnd(front: seq<string>, last: string, x: string)
    requires x in front && last !in front
    ensures ComesBefore(front + [last], x, last)
  {
    var p :| 0 <= p < |front| && front[p] == x;
    assert (front + [last])[..p] == front[..p];
  }
}
