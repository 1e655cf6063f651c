/** Maximal marginal relevance with a cap per module, packages/retrieval/src/fusion.ts. The
    similarity of two chunks is any function of their ids. */
module Diversify {
  import opened Strings

  datatype Chunk = Chunk(chunkId: string, moduleId: Option<string>, repoId: string, score: real, generated: bool)

  datatype Options = Options(lambda: real, maxPerModule: nat, limit: nat, generatedPenalty: real)

  function DiversityKey(c: Chunk): string {
    match c.moduleId
    case Some(id) => id
    case None => "repo:" + c.repoId + ":docs"
  }

  // ---------- The score ----------

  function MaxSimilarity(c: Chunk, selected: seq<Chunk>, similarity: (string, string) -> real, n: nat): (max: real)
    requires n <= |selected|
    ensures max >= 0.0
    ensures forall i :: 0 <= i < n ==> similarity(c.chunkId, selected[i].chunkId) <= max
    ensures max == 0.0 || exists i :: 0 <= i < n && similarity(c.chunkId, selected[i].chunkId) == max
  {
    if n == 0 then 0.0
    else
      var front := MaxSimilarity(c, selected, similarity, n - 1);
      var s := similarity(c.chunkId, selected[n - 1].chunkId);
      if s > front then s else front
  }

  method FindMaxSimilarity(c: Chunk, selected: seq<Chunk>, similarity: (string, string) -> real) returns (max: real)
    ensures max == MaxSimilarity(c, selected, similarity, |selected|)
  {
    max := 0.0;
    for i := 0 to |selected|
      invariant max == MaxSimilarity(c, selected, similarity, i)
    {
      var s := similarity(c.chunkId, selected[i].chunkId);
      if s > max { max := s; }
    }
  }

  function Mmr(c: Chunk, selected: seq<Chunk>, options: Options, similarity: (string, string) -> real): real {
    Tradeoff(c, MaxSimilarity(c, selected, similarity, |selected|), options)
  }

  function Tradeoff(c: Chunk, redundancy: real, options: Options): real {
    options.lambda * (c.score * if c.generated then 1.0 - options.generatedPenalty else 1.0)
    - (1.0 - options.lambda) * redundancy
  }

  // ---------- What is selected ----------

  /** The chunks at the given positions. */
  function At(chunks: seq<Chunk>, at: seq<nat>): (r: seq<Chunk>)
    requires forall i :: 0 <= i < |at| ==> at[i] < |chunks|
    ensures |r| == |at| && forall i :: 0 <= i < |at| ==> r[i] == chunks[at[i]]
  {
    seq(|at|, i requires 0 <= i < |at| => chunks[at[i]])
  }

  /** How many of the chosen chunks share the key. */
  function Chosen(chunks: seq<Chunk>, at: seq<nat>, key: string, n: nat): nat
    requires n <= |at| && forall i :: 0 <= i < |at| ==> at[i] < |chunks|
  {
    if n == 0 then 0
    else Chosen(chunks, at, key, n - 1) + if DiversityKey(chunks[at[n - 1]]) == key then 1 else 0
  }

  predicate Picked(at: seq<nat>, i: nat, p: nat)
    requires i <= |at|
  {
    exists j :: 0 <= j < i && at[j] == p
  }

  predicate Positions(chunks: seq<Chunk>, at: seq<nat>) {
    forall i :: 0 <= i < |at| ==> at[i] < |chunks|
  }

  /** At the `i`th choice the chunk at `p` is still there and its module is below the cap. */
  predicate Open(chunks: seq<Chunk>, at: seq<nat>, i: nat, max: nat, p: nat)
    requires Positions(chunks, at) && i <= |at|
  {
    p < |chunks| && !Picked(at, i, p) && Chosen(chunks, at, DiversityKey(chunks[p]), i) < max
  }

  function MmrAt(
    chunks: seq<Chunk>, at: seq<nat>, i: nat, options: Options, similarity: (string, string) -> real, p: nat): real
    requires Positions(chunks, at) && i <= |at| && p < |chunks|
  {
    Mmr(chunks[p], At(chunks, at[..i]), options, similarity)
  }

  /** The `i`th choice: the open chunk with the highest score, the earliest of equals; when none is
      open, the earliest that is left. */
  ghost predicate Choice(chunks: seq<Chunk>, at: seq<nat>, i: nat, options: Options, similarity: (string, string) -> real)
    requires Positions(chunks, at) && i < |at|
  {
    if exists p :: Open(chunks, at, i, options.maxPerModule, p) then
      && Open(chunks, at, i, options.maxPerModule, at[i])
      && forall p :: Open(chunks, at, i, options.maxPerModule, p) ==>
           var best, other := MmrAt(chunks, at, i, options, similarity, at[i]), MmrAt(chunks, at, i, options, similarity, p);
           other < best || (other == best && at[i] <= p)
    else
      !Picked(at, i, at[i]) && forall p :: 0 <= p < at[i] ==> Picked(at, i, p)
  }

  ghost predicate Selection(chunks: seq<Chunk>, at: seq<nat>, options: Options, similarity: (string, string) -> real) {
    && Positions(chunks, at)
    && |at| == (if options.limit < |chunks| then options.limit else |chunks|)
    && forall i :: 0 <= i < |at| ==> Choice(chunks, at, i, options, similarity)
  }

  // ---------- The source's loops ----------

  /** `s.splice(b, 1)`. */
  function RemoveAt<T>(s: seq<T>, b: nat): (r: seq<T>)
    requires b < |s|
    ensures |r| == |s| - 1
    ensures forall k :: 0 <= k < |r| ==> r[k] == if k < b then s[k] else s[k + 1]
  {
    s[..b] + s[b + 1..]
  }

  function Used(perModule: map<string, nat>, key: string): nat {
    if key in perModule then perModule[key] else 0
  }

  /** The uncapped candidate with the highest score, the first of equals; -1 when all are capped. */
  method FindBest(
    remaining: seq<Chunk>, selected: seq<Chunk>, perModule: map<string, nat>, options: Options,
    similarity: (string, string) -> real)
    returns (bestIndex: int)
    ensures -1 <= bestIndex < |remaining|
    ensures bestIndex >= 0 ==> Used(perModule, DiversityKey(remaining[bestIndex])) < options.maxPerModule
    ensures forall j :: 0 <= j < |remaining| && Used(perModule, DiversityKey(remaining[j])) < options.maxPerModule ==>
      bestIndex >= 0 &&
      var best, other := Mmr(remaining[bestIndex], selected, options, similarity), Mmr(remaining[j], selected, options, similarity);
      other < best || (other == best && bestIndex <= j)
  {
    hide Mmr, Tradeoff, DiversityKey, Used;
    bestIndex := -1;
    var bestScore := 0.0;
    for i := 0 to |remaining|
      invariant -1 <= bestIndex < i
      invariant bestIndex >= 0 ==>
        && Used(perModule, DiversityKey(remaining[bestIndex])) < options.maxPerModule
        && bestScore == Mmr(remaining[bestIndex], selected, options, similarity)
      invariant forall j :: 0 <= j < i && Used(perModule, DiversityKey(remaining[j])) < options.maxPerModule ==>
        bestIndex >= 0 &&
        var other := Mmr(remaining[j], selected, options, similarity);
        other < bestScore || (other == bestScore && bestIndex <= j)
    {
      var candidate := remaining[i];
      if Used(perModule, DiversityKey(candidate)) >= options.maxPerModule { continue; }
      var redundancy := FindMaxSimilarity(candidate, selected, similarity);
      MmrIs(candidate, selected, options, similarity);
      var mmr := Tradeoff(candidate, redundancy, options);
      if bestIndex == -1 || mmr > bestScore {
        bestScore := mmr;
        bestIndex := i;
      }
    }
  }

  lemma {:induction false} MmrIs(c: Chunk, selected: seq<Chunk>, options: Options, similarity: (string, string) -> real)
    ensures Mmr(c, selected, options, similarity)
         == Tradeoff(c, MaxSimilarity(c, selected, similarity, |selected|), options)
  {
  }

  /** The chunks are divided into the chosen ones and, in input order, the remaining ones. */
  ghost predicate Divided(chunks: seq<Chunk>, at: seq<nat>, left: seq<nat>) {
    && Positions(chunks, at) && Positions(chunks, left) && |at| + |left| == |chunks|
    && (forall i, j :: 0 <= i < j < |left| ==> left[i] < left[j])
    && forall p :: 0 <= p < |chunks| ==> (p in left <==> !Picked(at, |at|, p))
  }

  /** The counts are right, or they no longer matter because every remaining module is at its cap. */
  ghost predicate Tracked(chunks: seq<Chunk>, at: seq<nat>, left: seq<nat>, perModule: map<string, nat>, max: nat)
    requires Positions(chunks, at) && Positions(chunks, left)
  {
    || (forall key :: Used(perModule, key) == Chosen(chunks, at, key, |at|))
    || (forall i :: 0 <= i < |left| ==> Capped(chunks, at, perModule, max, DiversityKey(chunks[left[i]])))
  }

  predicate Capped(chunks: seq<Chunk>, at: seq<nat>, perModule: map<string, nat>, max: nat, key: string)
    requires Positions(chunks, at)
  {
    Used(perModule, key) >= max && Chosen(chunks, at, key, |at|) >= max
  }

  /** The selected chunks are those at the chosen positions. */
  ghost predicate Selected(
    chunks: seq<Chunk>, selected: seq<Chunk>, options: Options, similarity: (string, string) -> real)
  {
    exists at: seq<nat> :: Selection(chunks, at, options, similarity) && selected == At(chunks, at)
  }

  method Select(chunks: seq<Chunk>, options: Options, similarity: (string, string) -> real)
    returns (selected: seq<Chunk>)
    ensures Selected(chunks, selected, options, similarity)
  {
    hide DiversityKey, Used, Mmr, Choice, Divided, Tracked, Chosen, Picked;
    var remaining := chunks;
    var perModule: map<string, nat> := map[];
    selected := [];
    ghost var at: seq<nat> := [];
    ghost var left: seq<nat> := seq(|chunks|, (i: nat) => i);
    Start(chunks, left, options.maxPerModule);
    while |selected| < options.limit && |remaining| > 0
      invariant Positions(chunks, at) && Positions(chunks, left) && |at| + |left| == |chunks|
      invariant Divided(chunks, at, left) && Tracked(chunks, at, left, perModule, options.maxPerModule)
      invariant remaining == At(chunks, left) && selected == At(chunks, at) && |at| <= options.limit
      invariant forall i :: 0 <= i < |at| ==> Choice(chunks, at, i, options, similarity)
      decreases |remaining|
    {
      var bestIndex := FindBest(remaining, selected, perModule, options, similarity);
      ghost var taken := if bestIndex == -1 then 0 else bestIndex;
      ghost var next: seq<nat> := at + [left[taken]];
      Choose(chunks, at, left, perModule, bestIndex, options, similarity);
      ChoicesStand(chunks, at, left[taken], options, similarity);
      Divide(chunks, at, left, taken);
      MoveAt(chunks, at, left, taken);
      if bestIndex == -1 {
        StillCapped(chunks, at, left, perModule, options.maxPerModule);
        selected := selected + [remaining[0]];
        remaining := RemoveAt(remaining, 0);
        at, left := next, RemoveAt(left, 0);
        continue;
      }
      var chosen := remaining[bestIndex];
      Count(chunks, at, left, perModule, bestIndex, options.maxPerModule);
      remaining := RemoveAt(remaining, bestIndex);
      selected := selected + [chosen];
      perModule := perModule[DiversityKey(chosen) := Used(perModule, DiversityKey(chosen)) + 1];
      at, left := next, RemoveAt(left, bestIndex);
    }
    assert Selection(chunks, at, options, similarity) && selected == At(chunks, at);
  }

  lemma {:induction false} Start(chunks: seq<Chunk>, left: seq<nat>, max: nat)
    requires |left| == |chunks| && forall i :: 0 <= i < |left| ==> left[i] == i
    ensures Divided(chunks, [], left) && Tracked(chunks, [], left, map[], max)
    ensures At(chunks, left) == chunks
  {
    forall p | 0 <= p < |chunks| ensures p in left { assert left[p] == p; }
  }

  // ---------- One choice ----------

  lemma {:induction false} ChosenPrefix(chunks: seq<Chunk>, at: seq<nat>, p: nat, key: string, n: nat)
    requires Positions(chunks, at) && p < |chunks| && n <= |at|
    ensures Chosen(chunks, at + [p], key, n) == Chosen(chunks, at, key, n)
  {
    hide DiversityKey;
    if n == 0 {
    } else {
      ChosenPrefix(chunks, at, p, key, n - 1);
    }
  }

  lemma {:induction false} PickedPrefix(at: seq<nat>, p: nat, i: nat, q: nat)
    requires i <= |at|
    ensures Picked(at + [p], i, q) <==> Picked(at, i, q)
  {
    if Picked(at, i, q) {
      var j :| 0 <= j < i && at[j] == q;
      assert (at + [p])[j] == q;
    }
  }

  lemma {:induction false} SameOptions(
    chunks: seq<Chunk>, at: seq<nat>, p: nat, i: nat, options: Options, similarity: (string, string) -> real, q: nat)
    requires Positions(chunks, at) && p < |chunks| && i <= |at|
    ensures Open(chunks, at + [p], i, options.maxPerModule, q) <==> Open(chunks, at, i, options.maxPerModule, q)
    ensures q < |chunks| ==>
      MmrAt(chunks, at + [p], i, options, similarity, q) == MmrAt(chunks, at, i, options, similarity, q)
  {
    hide DiversityKey, Mmr, Picked, Chosen;
    PickedPrefix(at, p, i, q);
    if q < |chunks| { ChosenPrefix(chunks, at, p, DiversityKey(chunks[q]), i); }
    assert (at + [p])[..i] == at[..i];
  }

  lemma {:induction false} ChoicesStand(
    chunks: seq<Chunk>, at: seq<nat>, p: nat, options: Options, similarity: (string, string) -> real)
    requires Positions(chunks, at) && p < |chunks|
    requires forall i :: 0 <= i < |at| ==> Choice(chunks, at, i, options, similarity)
    ensures forall i :: 0 <= i < |at| ==> Choice(chunks, at + [p], i, options, similarity)
  {
    hide Open, MmrAt, Picked;
    forall i | 0 <= i < |at| ensures Choice(chunks, at + [p], i, options, similarity) {
      ChoiceStands(chunks, at, p, i, options, similarity);
    }
  }

  lemma {:induction false} ChoiceStands(
    chunks: seq<Chunk>, at: seq<nat>, p: nat, i: nat, options: Options, similarity: (string, string) -> real)
    requires Positions(chunks, at) && p < |chunks| && i < |at| && Choice(chunks, at, i, options, similarity)
    ensures Choice(chunks, at + [p], i, options, similarity)
  {
    hide MmrAt, Picked, Chosen, DiversityKey;
    var next, max := at + [p], options.maxPerModule;
    assert next[i] == at[i];
    forall q: nat
      ensures Open(chunks, next, i, max, q) <==> Open(chunks, at, i, max, q)
      ensures q < |chunks| ==>
        MmrAt(chunks, next, i, options, similarity, q) == MmrAt(chunks, at, i, options, similarity, q)
      ensures Picked(next, i, q) <==> Picked(at, i, q)
    {
      SameOptions(chunks, at, p, i, options, similarity, q);
      PickedPrefix(at, p, i, q);
    }
    if q :| Open(chunks, next, i, max, q) {
      assert Open(chunks, at, i, max, q);
      forall r | Open(chunks, next, i, max, r)
        ensures var best, other := MmrAt(chunks, next, i, options, similarity, next[i]), MmrAt(chunks, next, i, options, similarity, r);
          other < best || (other == best && next[i] <= r)
      {
        assert Open(chunks, at, i, max, r);
        SameOptions(chunks, at, p, i, options, similarity, r);
        SameOptions(chunks, at, p, i, options, similarity, at[i]);
      }
    } else {
      assert forall q: nat :: !Open(chunks, at, i, max, q);
    }
  }

  lemma {:induction false} OpenIsLeft(
    chunks: seq<Chunk>, at: seq<nat>, left: seq<nat>, perModule: map<string, nat>, max: nat, p: nat)
    requires Divided(chunks, at, left) && Tracked(chunks, at, left, perModule, max)
    ensures Open(chunks, at, |at|, max, p) <==>
      exists j :: 0 <= j < |left| && left[j] == p && Used(perModule, DiversityKey(chunks[left[j]])) < max
  {
    hide DiversityKey, Used, Chosen, Picked;
    if p < |chunks| && !Picked(at, |at|, p) {
      assert p in left;
      var j :| 0 <= j < |left| && left[j] == p;
    }
  }

  lemma {:induction false} Choose(
    chunks: seq<Chunk>, at: seq<nat>, left: seq<nat>, perModule: map<string, nat>, bestIndex: int,
    options: Options, similarity: (string, string) -> real)
    requires Divided(chunks, at, left) && Tracked(chunks, at, left, perModule, options.maxPerModule)
    requires left != [] && -1 <= bestIndex < |left|
    requires var remaining, selected := At(chunks, left), At(chunks, at);
      && (bestIndex >= 0 ==> Used(perModule, DiversityKey(remaining[bestIndex])) < options.maxPerModule)
      && forall j :: 0 <= j < |remaining| && Used(perModule, DiversityKey(remaining[j])) < options.maxPerModule ==>
           bestIndex >= 0 &&
           var best, other := Mmr(remaining[bestIndex], selected, options, similarity), Mmr(remaining[j], selected, options, similarity);
           other < best || (other == best && bestIndex <= j)
    ensures var p := left[if bestIndex == -1 then 0 else bestIndex];
      Choice(chunks, at + [p], |at|, options, similarity)
  {
    hide DiversityKey, Used, Chosen, Mmr, Picked, Open, Tracked;
    var i, max, next := |at|, options.maxPerModule, at + [left[if bestIndex == -1 then 0 else bestIndex]];
    var p := left[if bestIndex == -1 then 0 else bestIndex];
    assert next[..i] == at;
    forall q: nat
      ensures Open(chunks, next, i, max, q) <==>
        exists j :: 0 <= j < |left| && left[j] == q && Used(perModule, DiversityKey(chunks[left[j]])) < max
      ensures Picked(next, i, q) <==> Picked(at, i, q)
    {
      SameOptions(chunks, at, p, i, options, similarity, q);
      OpenIsLeft(chunks, at, left, perModule, max, q);
      PickedPrefix(at, p, i, q);
    }
    if bestIndex == -1 {
      assert forall q: nat :: !Open(chunks, next, i, max, q);
      assert p in left;
      forall q | 0 <= q < p ensures Picked(next, i, q) {
        BelowFirst(left, q);
      }
    } else {
      assert Open(chunks, next, i, max, p);
      forall q | Open(chunks, next, i, max, q)
        ensures var best, other := MmrAt(chunks, next, i, options, similarity, p), MmrAt(chunks, next, i, options, similarity, q);
          other < best || (other == best && p <= q)
      {
        var j :| 0 <= j < |left| && left[j] == q && Used(perModule, DiversityKey(chunks[left[j]])) < max;
      }
    }
  }

  lemma {:induction false} PickedNext(at: seq<nat>, p: nat, q: nat)
    ensures Picked(at + [p], |at| + 1, q) <==> Picked(at, |at|, q) || p == q
  {
    PickedPrefix(at, p, |at|, q);
    var next := at + [p];
    assert next[|at|] == p;
    if Picked(at, |at|, q) {
      var j :| 0 <= j < |at| && at[j] == q;
      assert next[j] == q;
    }
    if Picked(next, |at| + 1, q) && q != p {
      var j :| 0 <= j < |at| + 1 && next[j] == q;
      assert at[j] == q;
    }
  }

  lemma {:induction false} BelowFirst(left: seq<nat>, q: nat)
    requires left != [] && q < left[0] && forall i, j :: 0 <= i < j < |left| ==> left[i] < left[j]
    ensures q !in left
  {
    assert forall j :: 0 <= j < |left| ==> left[0] <= left[j];
  }

  lemma {:induction false} Divide(chunks: seq<Chunk>, at: seq<nat>, left: seq<nat>, b: nat)
    requires Divided(chunks, at, left) && b < |left|
    ensures Divided(chunks, at + [left[b]], RemoveAt(left, b))
  {
    hide Picked;
    var rest := RemoveAt(left, b);
    forall p | 0 <= p < |chunks| ensures p in rest <==> !Picked(at + [left[b]], |at + [left[b]]|, p) {
      PickedNext(at, left[b], p);
      Without(left, b, p);
    }
  }

  lemma {:induction false} MoveAt(chunks: seq<Chunk>, at: seq<nat>, left: seq<nat>, b: nat)
    requires Positions(chunks, at) && Positions(chunks, left) && b < |left|
    ensures Positions(chunks, at + [left[b]]) && Positions(chunks, RemoveAt(left, b))
    ensures At(chunks, at + [left[b]]) == At(chunks, at) + [chunks[left[b]]]
    ensures At(chunks, RemoveAt(left, b)) == RemoveAt(At(chunks, left), b)
  {
  }

  lemma {:induction false} Without(left: seq<nat>, b: nat, p: nat)
    requires b < |left| && forall i, j :: 0 <= i < j < |left| ==> left[i] < left[j]
    ensures p in RemoveAt(left, b) <==> p in left && p != left[b]
  {
    var rest := RemoveAt(left, b);
    if p in left && p != left[b] {
      var j :| 0 <= j < |left| && left[j] == p;
      assert rest[if j < b then j else j - 1] == p;
    }
  }

  lemma {:induction false} ChosenNext(chunks: seq<Chunk>, at: seq<nat>, p: nat, key: string)
    requires Positions(chunks, at) && p < |chunks|
    ensures Chosen(chunks, at + [p], key, |at| + 1)
         == Chosen(chunks, at, key, |at|) + if DiversityKey(chunks[p]) == key then 1 else 0
  {
    hide DiversityKey;
    ChosenPrefix(chunks, at, p, key, |at|);
  }

  lemma {:induction false} StillCapped(
    chunks: seq<Chunk>, at: seq<nat>, left: seq<nat>, perModule: map<string, nat>, max: nat)
    requires Positions(chunks, at) && Positions(chunks, left)
    requires Tracked(chunks, at, left, perModule, max) && left != []
    requires forall j :: 0 <= j < |left| ==> Used(perModule, DiversityKey(chunks[left[j]])) >= max
    ensures Tracked(chunks, at + [left[0]], RemoveAt(left, 0), perModule, max)
  {
    hide DiversityKey, Used, Chosen;
    var rest := RemoveAt(left, 0);
    forall i | 0 <= i < |rest|
      ensures Capped(chunks, at + [left[0]], perModule, max, DiversityKey(chunks[rest[i]]))
    {
      ChosenNext(chunks, at, left[0], DiversityKey(chunks[left[i + 1]]));
    }
  }

  lemma {:induction false} Count(
    chunks: seq<Chunk>, at: seq<nat>, left: seq<nat>, perModule: map<string, nat>, b: nat, max: nat)
    requires Positions(chunks, at) && Positions(chunks, left) && b < |left|
    requires Tracked(chunks, at, left, perModule, max)
    requires Used(perModule, DiversityKey(chunks[left[b]])) < max
    ensures var key := DiversityKey(chunks[left[b]]);
      Tracked(chunks, at + [left[b]], RemoveAt(left, b), perModule[key := Used(perModule, key) + 1], max)
  {
    hide DiversityKey, Chosen;
    var key := DiversityKey(chunks[left[b]]);
    var counted := perModule[key := Used(perModule, key) + 1];
    forall k ensures Used(counted, k) == Chosen(chunks, at + [left[b]], k, |at| + 1) {
      ChosenNext(chunks, at, left[b], k);
    }
  }
}
