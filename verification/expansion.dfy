/** Budgeted context selection, packages/retrieval/src/expansion.ts. */
module Expansion {
  import opened Strings
  import opened Numbers
  import opened Chunker

  datatype Relation = Caller | Callee | TypeUsed | Parent | Implementation

  datatype Neighbour = Neighbour(
    symbolId: string, qualifiedName: string, signature: string, docSummary: string, sourcePath: string,
    sourceStartLine: nat, relation: Relation, centrality: nat)

  datatype Seed = Seed(chunkId: string, symbolId: Option<string>)

  datatype Served = Served(symbolId: string, content: string, tokenCount: nat, relation: Relation)

  /** An absent summary is the empty one; either is left out. */
  function RenderNeighbour(n: Neighbour): string {
    var first := "// " + RelationLabel(n.relation) + ": " + n.qualifiedName;
    var second := "// " + n.sourcePath + ":" + Decimal(n.sourceStartLine);
    Join([first, second, n.signature] + (if n.docSummary != "" then ["// " + n.docSummary] else []), "\n")
  }

  function RelationLabel(relation: Relation): string {
    match relation
    case Caller => "Called by"
    case Callee => "Calls"
    case TypeUsed => "Type used"
    case Parent => "Declared in"
    case Implementation => "Implemented by"
  }

  function ServedAs(n: Neighbour): Served {
    Served(n.symbolId, RenderNeighbour(n), EstimateTokens(RenderNeighbour(n)), n.relation)
  }

  // ---------- The queues ----------

  function SeedSymbols(seeds: seq<Seed>, n: nat): set<string>
    requires n <= |seeds|
  {
    if n == 0 then {}
    else SeedSymbols(seeds, n - 1) + if seeds[n - 1].symbolId.Some? then {seeds[n - 1].symbolId.value} else {}
  }

  /** The place of the relation in the priority list, -1 when it is not there. */
  function IndexOf(priority: seq<Relation>, relation: Relation): int {
    if priority == [] then -1
    else if priority[0] == relation then 0
    else
      var rest := IndexOf(priority[1..], relation);
      if rest == -1 then -1 else rest + 1
  }

  predicate RanksBefore(priority: seq<Relation>, a: Neighbour, b: Neighbour) {
    var x, y := IndexOf(priority, a.relation), IndexOf(priority, b.relation);
    x < y || (x == y && a.centrality < b.centrality)
  }

  /** Goes in after everything it does not rank before. */
  function InsertByRank(priority: seq<Relation>, sorted: seq<Neighbour>, x: Neighbour): (r: seq<Neighbour>)
    ensures |r| == |sorted| + 1 && forall n :: n in r <==> n in sorted || n == x
  {
    if sorted == [] || RanksBefore(priority, x, sorted[0]) then [x] + sorted
    else
      assert sorted == [sorted[0]] + sorted[1..];
      [sorted[0]] + InsertByRank(priority, sorted[1..], x)
  }

  predicate Ranked(priority: seq<Relation>, ns: seq<Neighbour>) {
    forall i, j :: 0 <= i < j < |ns| ==> !RanksBefore(priority, ns[j], ns[i])
  }

  lemma {:induction false} InsertRanked(priority: seq<Relation>, sorted: seq<Neighbour>, x: Neighbour)
    requires Ranked(priority, sorted)
    ensures Ranked(priority, InsertByRank(priority, sorted, x))
  {
    hide IndexOf;
    if sorted != [] && !RanksBefore(priority, x, sorted[0]) {
      InsertRanked(priority, sorted[1..], x);
      var r := InsertByRank(priority, sorted[1..], x);
      forall j | 0 <= j < |r| ensures !RanksBefore(priority, r[j], sorted[0]) {
        assert r[j] in r;
        if r[j] != x {
          assert r[j] in sorted[1..];
          var k :| 0 <= k < |sorted[1..]| && sorted[1..][k] == r[j];
          assert sorted[k + 1] == r[j];
        }
      }
    }
  }

  function SortByRank(priority: seq<Relation>, ns: seq<Neighbour>, n: nat): (r: seq<Neighbour>)
    requires n <= |ns|
    ensures |r| == n && Ranked(priority, r)
    ensures forall x :: x in r <==> exists i :: 0 <= i < n && ns[i] == x
  {
    if n == 0 then []
    else
      var front := SortByRank(priority, ns, n - 1);
      InsertRanked(priority, front, ns[n - 1]);
      InsertByRank(priority, front, ns[n - 1])
  }

  predicate Wanted(n: Neighbour, seen: set<string>, ceiling: nat) { n.symbolId !in seen && n.centrality <= ceiling }

  function Filter(ns: seq<Neighbour>, seen: set<string>, ceiling: nat, n: nat): (r: seq<Neighbour>)
    requires n <= |ns|
    ensures forall i :: 0 <= i < |r| ==> Wanted(r[i], seen, ceiling)
  {
    if n == 0 then []
    else Filter(ns, seen, ceiling, n - 1) + if Wanted(ns[n - 1], seen, ceiling) then [ns[n - 1]] else []
  }

  function QueueOf(
    ns: seq<Neighbour>, seen: set<string>, ceiling: nat, priority: seq<Relation>, maxPerSeed: nat): (r: seq<Neighbour>)
    ensures |r| <= maxPerSeed && Ranked(priority, r)
    ensures forall i :: 0 <= i < |r| ==> Wanted(r[i], seen, ceiling)
  {
    var wanted := Filter(ns, seen, ceiling, |ns|);
    var sorted := SortByRank(priority, wanted, |wanted|);
    assert forall i :: 0 <= i < |sorted| ==> sorted[i] in sorted;
    sorted[..if maxPerSeed < |sorted| then maxPerSeed else |sorted|]
  }

  function NeighboursOf(neighboursBySeed: map<string, seq<Neighbour>>, seed: Seed): seq<Neighbour> {
    if seed.chunkId in neighboursBySeed then neighboursBySeed[seed.chunkId] else []
  }

  datatype Options = Options(
    budget: int, maxPerSeed: nat, centralityCeiling: nat, priority: seq<Relation>)

  function Queues(seeds: seq<Seed>, neighboursBySeed: map<string, seq<Neighbour>>, options: Options): (r: seq<seq<Neighbour>>)
    ensures |r| == |seeds|
    ensures forall q :: 0 <= q < |r| ==> |r[q]| <= options.maxPerSeed && Ranked(options.priority, r[q])
    ensures forall q, k :: 0 <= q < |r| && 0 <= k < |r[q]| ==>
      Wanted(r[q][k], SeedSymbols(seeds, |seeds|), options.centralityCeiling)
  {
    seq(|seeds|, q requires 0 <= q < |seeds| =>
      QueueOf(
        NeighboursOf(neighboursBySeed, seeds[q]), SeedSymbols(seeds, |seeds|), options.centralityCeiling,
        options.priority, options.maxPerSeed))
  }

  // ---------- Serving in rounds ----------

  /** `from` names the queue each served neighbour came out of. */
  datatype State = State(seen: set<string>, selected: seq<Served>, from: seq<nat>, tokensUsed: nat, exhausted: nat)

  function Serve(s: State, q: nat, n: Neighbour, budget: int): State {
    if n.symbolId in s.seen then s
    else
      var tokens := EstimateTokens(RenderNeighbour(n));
      if s.tokensUsed + tokens > budget then s.(exhausted := s.exhausted + 1)
      else
        State(s.seen + {n.symbolId}, s.selected + [ServedAs(n)], s.from + [q], s.tokensUsed + tokens, s.exhausted)
  }

  /** The first `n` queues are offered their candidate number `r`. */
  function Round(s: State, queues: seq<seq<Neighbour>>, budget: int, r: nat, n: nat): State
    requires n <= |queues|
  {
    if n == 0 then s
    else
      var before := Round(s, queues, budget, r, n - 1);
      if r < |queues[n - 1]| then Serve(before, n - 1, queues[n - 1][r], budget) else before
  }

  /** The state after `r` full rounds. */
  function Rounds(seen: set<string>, queues: seq<seq<Neighbour>>, budget: int, r: nat): State {
    if r == 0 then State(seen, [], [], 0, 0)
    else Round(Rounds(seen, queues, budget, r - 1), queues, budget, r - 1, |queues|)
  }

  predicate Waiting(queues: seq<seq<Neighbour>>, r: nat) {
    exists q :: 0 <= q < |queues| && r < |queues[q]|
  }

  /** Where the rounds stop: the budget is used up or nobody is waiting, and not before. */
  ghost predicate StopsAfter(seen: set<string>, queues: seq<seq<Neighbour>>, budget: int, rounds: nat) {
    && (Rounds(seen, queues, budget, rounds).tokensUsed >= budget || !Waiting(queues, rounds))
    && forall r :: 0 <= r < rounds ==> Rounds(seen, queues, budget, r).tokensUsed < budget
  }

  /** After `rounds` full rounds each queue has advanced by that many candidates, or to its end. */
  predicate Advanced(queues: seq<seq<Neighbour>>, index: seq<nat>, rounds: nat) {
    |index| == |queues| && forall q :: 0 <= q < |queues| ==> index[q] == Min(rounds, |queues[q]|)
  }

  /** Round-robin over the queues until the budget is used up or a round moves nothing. */
  method ServeRounds(queues: seq<seq<Neighbour>>, seeds: set<string>, budget: int)
    returns (state: State, index: seq<nat>)
    ensures exists rounds ::
      && StopsAfter(seeds, queues, budget, rounds) && Advanced(queues, index, rounds)
      && state == Rounds(seeds, queues, budget, rounds)
  {
    hide Serve;
    state := State(seeds, [], [], 0, 0);
    ghost var rounds := 0;
    index := seq(|queues|, (q: nat) => 0);
    ghost var longest := Longest(queues, |queues|);
    var progressed := true;
    while progressed && state.tokensUsed < budget
      invariant state == Rounds(seeds, queues, budget, rounds)
      invariant |index| == |queues| && forall q :: 0 <= q < |queues| ==> index[q] == Min(rounds, |queues[q]|)
      invariant !progressed ==> !Waiting(queues, rounds)
      invariant forall r :: 0 <= r < rounds ==> Rounds(seeds, queues, budget, r).tokensUsed < budget
      invariant progressed ==> rounds <= longest
      decreases progressed, longest - rounds
    {
      var before := state;
      progressed := false;
      for q := 0 to |queues|
        invariant state == Round(before, queues, budget, rounds, q)
        invariant |index| == |queues|
        invariant forall p :: 0 <= p < |queues| ==> index[p] == Min(if p < q then rounds + 1 else rounds, |queues[p]|)
        invariant progressed <==> exists p :: 0 <= p < q && rounds < |queues[p]|
      {
        if index[q] >= |queues[q]| { continue; }
        var neighbour := queues[q][index[q]];
        index := index[q := index[q] + 1];
        progressed := true;
        state := Serve(state, q, neighbour, budget);
      }
      if progressed { NotLongest(queues, rounds); }
      rounds := rounds + 1;
    }
    assert StopsAfter(seeds, queues, budget, rounds) && Advanced(queues, index, rounds);
  }

  function Longest(queues: seq<seq<Neighbour>>, n: nat): (m: nat)
    requires n <= |queues|
    ensures forall q :: 0 <= q < n ==> |queues[q]| <= m
  {
    if n == 0 then 0
    else if Longest(queues, n - 1) < |queues[n - 1]| then |queues[n - 1]|
    else Longest(queues, n - 1)
  }

  lemma {:induction false} NotLongest(queues: seq<seq<Neighbour>>, r: nat)
    requires Waiting(queues, r)
    ensures r < Longest(queues, |queues|)
  {
  }
}
