/** What each choice of the diversified list is, written out, packages/retrieval/src/fusion.ts. */
module DiversifyChoices {
  import opened Diversify

  // ---------- Chunks that share a cap ----------

  /** Chunks of one module share a cap, and so do the chunks of one repository that have no module; a module whose id
      reads as `repo:` and `:docs` around a repository's id shares that repository's. */
  predicate ShareCap(a: Chunk, b: Chunk) {
    match (a.moduleId, b.moduleId)
    case (Some(m), Some(n)) => m == n
    case (None, None) => a.repoId == b.repoId
    case (Some(m), None) => m == ['r', 'e', 'p', 'o', ':'] + b.repoId + [':', 'd', 'o', 'c', 's']
    case (None, Some(n)) => n == ['r', 'e', 'p', 'o', ':'] + a.repoId + [':', 'd', 'o', 'c', 's']
  }

  lemma {:induction false} SameKey(a: Chunk, b: Chunk)
    ensures DiversityKey(a) == DiversityKey(b) <==> ShareCap(a, b)
  {
    if a.moduleId.None? && b.moduleId.None? && DiversityKey(a) == DiversityKey(b) {
      var key := DiversityKey(a);
      assert key[5..|key| - 5] == a.repoId && key[5..|key| - 5] == b.repoId;
    }
  }

  /** How many of the chosen chunks share the cap of `c`. */
  function Sharing(chosen: seq<Chunk>, c: Chunk): nat {
    if chosen == [] then 0 else (if ShareCap(chosen[0], c) then 1 else 0) + Sharing(chosen[1..], c)
  }

  lemma {:induction false} SharingLast(front: seq<Chunk>, last: Chunk, c: Chunk)
    ensures Sharing(front + [last], c) == Sharing(front, c) + if ShareCap(last, c) then 1 else 0
  {
    hide ShareCap;
    if front == [] {
      assert front + [last] == [last] && Sharing([], c) == 0;
    } else {
      assert (front + [last])[1..] == front[1..] + [last];
      SharingLast(front[1..], last, c);
    }
  }

  lemma {:induction false} ChosenShare(chunks: seq<Chunk>, at: seq<nat>, c: Chunk, n: nat)
    requires n <= |at| && Positions(chunks, at)
    ensures Chosen(chunks, at, DiversityKey(c), n) == Sharing(At(chunks, at[..n]), c)
  {
    hide DiversityKey, ShareCap, Sharing;
    if n == 0 {
      NoneShare(c);
      assert At(chunks, at[..0]) == [];
    } else {
      ChosenShare(chunks, at, c, n - 1);
      assert At(chunks, at[..n]) == At(chunks, at[..n - 1]) + [chunks[at[n - 1]]];
      SharingLast(At(chunks, at[..n - 1]), chunks[at[n - 1]], c);
      SameKey(chunks[at[n - 1]], c);
    }
  }

  lemma {:induction false} NoneShare(c: Chunk)
    ensures Sharing([], c) == 0
  {
  }

  // ---------- What a chunk is worth ----------

  /** The similarity to the most similar of the chosen chunks, and never less than none. */
  function Likeness(c: Chunk, chosen: seq<Chunk>, similarity: (string, string) -> real): real {
    if chosen == [] then 0.0
    else
      var rest, first := Likeness(c, chosen[1..], similarity), similarity(c.chunkId, chosen[0].chunkId);
      if first < rest then rest else first
  }

  lemma {:induction false} LikenessTop(c: Chunk, chosen: seq<Chunk>, similarity: (string, string) -> real)
    ensures var top := Likeness(c, chosen, similarity);
      && top >= 0.0 && (forall i :: 0 <= i < |chosen| ==> similarity(c.chunkId, chosen[i].chunkId) <= top)
      && (top == 0.0 || exists i :: 0 <= i < |chosen| && similarity(c.chunkId, chosen[i].chunkId) == top)
  {
    if chosen == [] {
    } else {
      LikenessTop(c, chosen[1..], similarity);
      assert forall i :: 0 < i < |chosen| ==> chosen[i] == chosen[1..][i - 1];
      assert forall i :: 0 <= i < |chosen[1..]| ==> chosen[1..][i] == chosen[i + 1];
    }
  }

  lemma {:induction false} SimilarityIs(c: Chunk, chosen: seq<Chunk>, similarity: (string, string) -> real)
    ensures MaxSimilarity(c, chosen, similarity, |chosen|) == Likeness(c, chosen, similarity)
  {
    hide Likeness, MaxSimilarity;
    LikenessTop(c, chosen, similarity);
  }

  /** Relevance, lowered for generated code, against likeness to what is chosen already. */
  function Worth(c: Chunk, chosen: seq<Chunk>, options: Options, similarity: (string, string) -> real): real {
    var relevance := if c.generated then c.score * (1.0 - options.generatedPenalty) else c.score;
    options.lambda * relevance - (1.0 - options.lambda) * Likeness(c, chosen, similarity)
  }

  lemma {:induction false} WorthIs(c: Chunk, chosen: seq<Chunk>, options: Options, similarity: (string, string) -> real)
    ensures Mmr(c, chosen, options, similarity) == Worth(c, chosen, options, similarity)
  {
    hide Likeness, MaxSimilarity;
    SimilarityIs(c, chosen, similarity);
  }

  // ---------- One choice ----------

  /** The chunk at `p` is not chosen yet and its cap is not used up. */
  predicate HasRoom(chunks: seq<Chunk>, at: seq<nat>, max: nat, p: nat)
    requires Positions(chunks, at)
  {
    p < |chunks| && p !in at && Sharing(At(chunks, at), chunks[p]) < max
  }

  lemma {:induction false} OpenIs(chunks: seq<Chunk>, at: seq<nat>, i: nat, max: nat, p: nat)
    requires Positions(chunks, at) && i <= |at|
    ensures Open(chunks, at, i, max, p) <==> HasRoom(chunks, at[..i], max, p)
  {
    hide DiversityKey, Chosen, Sharing;
    PickedIs(at, i, p);
    if p < |chunks| { ChosenShare(chunks, at, chunks[p], i); }
  }

  lemma {:induction false} PickedIs(at: seq<nat>, i: nat, p: nat)
    requires i <= |at|
    ensures Picked(at, i, p) <==> p in at[..i]
  {
    if Picked(at, i, p) {
      var j :| 0 <= j < i && at[j] == p;
      assert at[..i][j] == p;
    }
  }

  /** While a chunk has room, the chosen one has room too and is worth the most, and stands first among those worth as
      much; when none has room, the first chunk left is chosen. */
  lemma {:induction false} ChoiceIs(
    chunks: seq<Chunk>, at: seq<nat>, options: Options, similarity: (string, string) -> real, i: nat, p: nat)
    requires Selection(chunks, at, options, similarity) && i < |at|
    ensures at[i] !in at[..i]
    ensures HasRoom(chunks, at[..i], options.maxPerModule, p) ==>
      && HasRoom(chunks, at[..i], options.maxPerModule, at[i])
      && var chosen := At(chunks, at[..i]);
         var best, other := Worth(chunks[at[i]], chosen, options, similarity), Worth(chunks[p], chosen, options, similarity);
         other < best || (other == best && at[i] <= p)
    ensures (forall q: nat :: !HasRoom(chunks, at[..i], options.maxPerModule, q)) ==> p < at[i] ==> p in at[..i]
  {
    hide Open, HasRoom, Mmr, Worth, Picked, DiversityKey;
    assert Choice(chunks, at, i, options, similarity);
    var max, chosen := options.maxPerModule, At(chunks, at[..i]);
    PickedIs(at, i, at[i]);
    PickedIs(at, i, p);
    forall q: nat ensures Open(chunks, at, i, max, q) <==> HasRoom(chunks, at[..i], max, q) { OpenIs(chunks, at, i, max, q); }
    OpenNotPicked(chunks, at, i, max, at[i]);
    if HasRoom(chunks, at[..i], max, p) {
      RoomIsPlace(chunks, at[..i], max, p);
      WorthIs(chunks[p], chosen, options, similarity);
      WorthIs(chunks[at[i]], chosen, options, similarity);
    }
  }

  lemma {:induction false} OpenNotPicked(chunks: seq<Chunk>, at: seq<nat>, i: nat, max: nat, p: nat)
    requires Positions(chunks, at) && i <= |at|
    ensures Open(chunks, at, i, max, p) ==> !Picked(at, i, p)
  {
  }

  lemma {:induction false} RoomIsPlace(chunks: seq<Chunk>, at: seq<nat>, max: nat, p: nat)
    requires Positions(chunks, at)
    ensures HasRoom(chunks, at, max, p) ==> p < |chunks|
  {
  }
}
