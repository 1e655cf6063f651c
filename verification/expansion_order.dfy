/** The order of the queues and of serving, written out, packages/retrieval/src/expansion.ts. */
module ExpansionOrder {
  import opened Strings
  import opened Numbers
  import opened Chunker
  import opened Expansion
  import opened ExpansionTheorems

  // ---------- The text of a neighbour ----------

  /** Relation and name, path and line, signature, and the summary if there is one. */
  lemma {:induction false} TextIs(n: Neighbour)
    ensures var what := match n.relation
        case Caller => "Called by"
        case Callee => "Calls"
        case TypeUsed => "Type used"
        case Parent => "Declared in"
        case Implementation => "Implemented by";
      RenderNeighbour(n)
      == "// " + what + ": " + n.qualifiedName + ['\n']
         + "// " + n.sourcePath + ":" + Decimal(n.sourceStartLine) + ['\n'] + n.signature
         + if |n.docSummary| == 0 then "" else ['\n'] + "// " + n.docSummary
  {
    hide Decimal;
    var first := "// " + RelationLabel(n.relation) + ": " + n.qualifiedName;
    var second := "// " + n.sourcePath + ":" + Decimal(n.sourceStartLine);
    if n.docSummary == "" {
      ThreeLines(first, second, n.signature);
      assert [first, second, n.signature] + [] == [first, second, n.signature];
    } else {
      FourLines(first, second, n.signature, "// " + n.docSummary);
      assert [first, second, n.signature] + ["// " + n.docSummary] == [first, second, n.signature, "// " + n.docSummary];
    }
  }

  lemma {:induction false} TwoLines(a: string, b: string)
    ensures Join([a, b], "\n") == a + ['\n'] + b
  {
    assert [a, b][1..] == [b];
  }

  lemma {:induction false} ThreeLines(a: string, b: string, c: string)
    ensures Join([a, b, c], "\n") == a + ['\n'] + b + ['\n'] + c
  {
    assert [a, b, c][1..] == [b, c];
    TwoLines(b, c);
  }

  lemma {:induction false} FourLines(a: string, b: string, c: string, d: string)
    ensures Join([a, b, c, d], "\n") == a + ['\n'] + b + ['\n'] + c + ['\n'] + d
  {
    assert [a, b, c, d][1..] == [b, c, d];
    ThreeLines(b, c, d);
  }

  // ---------- The queue of a seed ----------

  /** The relation's first place in the list, or -1. */
  predicate IsPlace(priority: seq<Relation>, relation: Relation, place: int) {
    if relation in priority then 0 <= place < |priority| && priority[place] == relation && relation !in priority[..place]
    else place == -1
  }

  lemma {:induction false} PlaceIs(priority: seq<Relation>, relation: Relation)
    ensures IsPlace(priority, relation, IndexOf(priority, relation))
  {
    if priority != [] && priority[0] != relation {
      PlaceIs(priority[1..], relation);
      var place := IndexOf(priority[1..], relation);
      assert priority == [priority[0]] + priority[1..];
      if place != -1 { assert priority[..place + 1] == [priority[0]] + priority[1..][..place]; }
    }
  }

  /** By place of the relation, then by centrality, then as listed. */
  ghost predicate ComesFirst(priority: seq<Relation>, ns: seq<Neighbour>, i: nat, j: nat)
    requires i < |ns| && j < |ns|
  {
    exists x, y {:trigger IsPlace(priority, ns[i].relation, x), IsPlace(priority, ns[j].relation, y)} ::
      && IsPlace(priority, ns[i].relation, x) && IsPlace(priority, ns[j].relation, y)
      && (x < y || (x == y && ns[i].centrality < ns[j].centrality)
          || (x == y && ns[i].centrality == ns[j].centrality && i < j))
  }

  lemma {:induction false} NoEarlierPlace(priority: seq<Relation>, relation: Relation, place: int, k: nat)
    requires IsPlace(priority, relation, place) && k < |priority| && priority[k] == relation
    ensures 0 <= place <= k
  {
    forall i | 0 <= i < place ensures priority[i] != relation { assert priority[..place][i] == priority[i]; }
  }

  lemma {:induction false} OnePlace(priority: seq<Relation>, relation: Relation, x: int, y: int)
    requires IsPlace(priority, relation, x) && IsPlace(priority, relation, y)
    ensures x == y
  {
    if relation in priority {
      NoEarlierPlace(priority, relation, x, y);
      NoEarlierPlace(priority, relation, y, x);
    }
  }

  lemma {:induction false} FirstIs(priority: seq<Relation>, ns: seq<Neighbour>, i: nat, j: nat)
    requires i < |ns| && j < |ns|
    ensures ComesFirst(priority, ns, i, j) <==>
      RanksBefore(priority, ns[i], ns[j]) || (!RanksBefore(priority, ns[j], ns[i]) && i < j)
  {
    hide IndexOf, IsPlace;
    var x, y := IndexOf(priority, ns[i].relation), IndexOf(priority, ns[j].relation);
    PlaceIs(priority, ns[i].relation);
    PlaceIs(priority, ns[j].relation);
    if ComesFirst(priority, ns, i, j) {
      var v, w :|
        && IsPlace(priority, ns[i].relation, v) && IsPlace(priority, ns[j].relation, w)
        && (v < w || (v == w && ns[i].centrality < ns[j].centrality)
            || (v == w && ns[i].centrality == ns[j].centrality && i < j));
      OnePlace(priority, ns[i].relation, v, x);
      OnePlace(priority, ns[j].relation, w, y);
    }
  }

  /** The positions of the wanted neighbours, in order. */
  lemma {:induction false} FilterIs(ns: seq<Neighbour>, seen: set<string>, ceiling: nat, n: nat) returns (at: seq<nat>)
    requires n <= |ns|
    ensures |at| == |Filter(ns, seen, ceiling, n)|
    ensures forall k :: 0 <= k < |at| ==> at[k] < n && Filter(ns, seen, ceiling, n)[k] == ns[at[k]]
    ensures forall k, l :: 0 <= k < l < |at| ==> at[k] < at[l]
    ensures forall i :: 0 <= i < n ==> (i in at <==> ns[i].symbolId !in seen && ns[i].centrality <= ceiling)
  {
    at := [];
    if n > 0 {
      at := FilterIs(ns, seen, ceiling, n - 1);
      if Wanted(ns[n - 1], seen, ceiling) { at := at + [n - 1]; }
    }
  }

  /** Each stands where the order puts it. */
  ghost predicate InOrder(priority: seq<Relation>, ns: seq<Neighbour>, at: seq<nat>) {
    && (forall k :: 0 <= k < |at| ==> at[k] < |ns|)
    && forall k, l :: 0 <= k < l < |at| ==> ComesFirst(priority, ns, at[k], at[l])
  }

  /** Where `x`, the position of a new neighbour, goes among the sorted ones. */
  lemma {:induction false} InsertIs(priority: seq<Relation>, ns: seq<Neighbour>, at: seq<nat>, sorted: seq<Neighbour>, x: nat)
    returns (next: seq<nat>)
    requires x < |ns| && InOrder(priority, ns, at) && (forall k :: 0 <= k < |at| ==> at[k] < x)
    requires |sorted| == |at| && forall k :: 0 <= k < |at| ==> sorted[k] == ns[at[k]]
    ensures InOrder(priority, ns, next) && |next| == |at| + 1 && forall i :: i in next <==> i in at || i == x
    ensures var r := InsertByRank(priority, sorted, ns[x]); |r| == |next| && forall k :: 0 <= k < |next| ==> r[k] == ns[next[k]]
    decreases |at|
  {
    hide ComesFirst, RanksBefore;
    if sorted == [] || RanksBefore(priority, ns[x], sorted[0]) {
      next := [x] + at;
      forall k | 0 <= k < |at| ensures ComesFirst(priority, ns, x, at[k]) {
        if k == 0 { FirstIs(priority, ns, x, at[0]); } else { FirstPasses(priority, ns, x, at[0], at[k]); }
      }
    } else {
      var rest := InsertIs(priority, ns, at[1..], sorted[1..], x);
      next := [at[0]] + rest;
      forall k | 0 <= k < |rest| ensures ComesFirst(priority, ns, at[0], rest[k]) {
        assert rest[k] in rest;
        if rest[k] == x {
          FirstIs(priority, ns, at[0], x);
        } else {
          var l :| 0 <= l < |at[1..]| && at[1..][l] == rest[k];
          assert at[l + 1] == rest[k];
        }
      }
    }
  }

  lemma {:induction false} FirstPasses(priority: seq<Relation>, ns: seq<Neighbour>, i: nat, j: nat, k: nat)
    requires i < |ns| && j < |ns| && k < |ns| && RanksBefore(priority, ns[i], ns[j]) && ComesFirst(priority, ns, j, k)
    ensures ComesFirst(priority, ns, i, k)
  {
    hide ComesFirst, IndexOf;
    FirstIs(priority, ns, j, k);
    FirstIs(priority, ns, i, k);
  }

  lemma {:induction false} SortIs(priority: seq<Relation>, ns: seq<Neighbour>, n: nat) returns (at: seq<nat>)
    requires n <= |ns|
    ensures |at| == n && InOrder(priority, ns, at) && forall i :: i in at <==> 0 <= i < n
    ensures forall k :: 0 <= k < n ==> SortByRank(priority, ns, n)[k] == ns[at[k]]
  {
    hide InOrder;
    at := [];
    if n == 0 {
      NothingInOrder(priority, ns);
    } else {
      var front := SortIs(priority, ns, n - 1);
      assert forall k :: 0 <= k < |front| ==> front[k] in front;
      at := InsertIs(priority, ns, front, SortByRank(priority, ns, n - 1), n - 1);
    }
  }

  lemma {:induction false} NothingInOrder(priority: seq<Relation>, ns: seq<Neighbour>)
    ensures InOrder(priority, ns, [])
  {
  }

  lemma {:induction false} FirstAmongAll(
    priority: seq<Relation>, ns: seq<Neighbour>, wanted: seq<Neighbour>, at: seq<nat>, i: nat, j: nat)
    requires |at| == |wanted| && (forall k :: 0 <= k < |at| ==> at[k] < |ns| && wanted[k] == ns[at[k]])
    requires forall k, l :: 0 <= k < l < |at| ==> at[k] < at[l]
    requires i < |at| && j < |at| && ComesFirst(priority, wanted, i, j)
    ensures ComesFirst(priority, ns, at[i], at[j])
  {
    hide ComesFirst, RanksBefore;
    FirstIs(priority, wanted, i, j);
    FirstIs(priority, ns, at[i], at[j]);
  }

  ghost predicate AreWanted(at: seq<nat>, ns: seq<Neighbour>, seen: set<string>, ceiling: nat) {
    && (forall i :: i in at ==> i < |ns| && ns[i].symbolId !in seen && ns[i].centrality <= ceiling)
    && (forall i :: 0 <= i < |ns| && ns[i].symbolId !in seen && ns[i].centrality <= ceiling ==> i in at)
  }

  /** All wanted neighbours, in order. */
  lemma {:induction false} AllInOrder(ns: seq<Neighbour>, seen: set<string>, ceiling: nat, priority: seq<Relation>) returns (all: seq<nat>)
    ensures var wanted := Filter(ns, seen, ceiling, |ns|);
      && |all| == |wanted| && InOrder(priority, ns, all) && AreWanted(all, ns, seen, ceiling)
      && forall k :: 0 <= k < |all| ==> SortByRank(priority, wanted, |wanted|)[k] == ns[all[k]]
  {
    hide ComesFirst, Filter, SortByRank, RanksBefore;
    var wanted := Filter(ns, seen, ceiling, |ns|);
    var at := FilterIs(ns, seen, ceiling, |ns|);
    var sorted := SortIs(priority, wanted, |wanted|);
    assert forall k :: 0 <= k < |sorted| ==> sorted[k] in sorted;
    all := seq(|sorted|, k requires 0 <= k < |sorted| => at[sorted[k]]);
    forall k, l | 0 <= k < l < |all| ensures ComesFirst(priority, ns, all[k], all[l]) {
      FirstAmongAll(priority, ns, wanted, at, sorted[k], sorted[l]);
    }
    SameMembers(at, sorted, all);
  }

  lemma {:induction false} SameMembers(at: seq<nat>, sorted: seq<nat>, all: seq<nat>)
    requires |sorted| == |all| && forall k :: 0 <= k < |sorted| ==> sorted[k] < |at| && all[k] == at[sorted[k]]
    requires forall p :: 0 <= p < |at| ==> p in sorted
    ensures forall i :: i in all <==> i in at
  {
    forall i ensures i in at ==> i in all {
      if i in at {
        var p :| 0 <= p < |at| && at[p] == i;
        assert p in sorted;
        var q :| 0 <= q < |sorted| && sorted[q] == p;
        assert all[q] == i;
      }
    }
  }

  /** A seed's queue holds the neighbours that are not there yet and not too central, in order; one is missing only when
      the queue is full of neighbours that come first. */
  lemma {:induction false} QueueIs(ns: seq<Neighbour>, seen: set<string>, ceiling: nat, priority: seq<Relation>, maxPerSeed: nat)
    returns (from: seq<nat>)
    ensures var queue := QueueOf(ns, seen, ceiling, priority, maxPerSeed);
      && |from| == |queue| && InOrder(priority, ns, from)
      && (forall k :: 0 <= k < |from| ==> queue[k] == ns[from[k]])
      && (forall i :: i in from ==> i < |ns| && ns[i].symbolId !in seen && ns[i].centrality <= ceiling)
      && (forall i :: 0 <= i < |ns| && ns[i].symbolId !in seen && ns[i].centrality <= ceiling && i !in from ==>
            |queue| == maxPerSeed && forall k :: 0 <= k < |from| ==> ComesFirst(priority, ns, from[k], i))
  {
    hide ComesFirst, Filter, SortByRank;
    var all := AllInOrder(ns, seen, ceiling, priority);
    from := all[..Min(maxPerSeed, |all|)];
    forall i | i in from ensures i in all {}
    forall k | 0 <= k < |from| ensures all[k] in from { assert from[k] == all[k]; }
    forall i | 0 <= i < |ns| && i in all && i !in from
      ensures |from| == maxPerSeed && forall k :: 0 <= k < |from| ==> ComesFirst(priority, ns, from[k], i)
    {
      var q :| 0 <= q < |all| && all[q] == i;
    }
  }

  // ---------- The order of serving ----------

  datatype Turn = Turn(queue: nat, neighbour: Neighbour)

  /** The turns of round `k`, one for each of the first `n` queues that is long enough. */
  function RoundTurns(queues: seq<seq<Neighbour>>, k: nat, n: nat): seq<Turn>
    requires n <= |queues|
  {
    if n == 0 then []
    else RoundTurns(queues, k, n - 1) + if k < |queues[n - 1]| then [Turn(n - 1, queues[n - 1][k])] else []
  }

  /** First the first neighbour of every queue, then the second of every queue, and so on. */
  function Turns(queues: seq<seq<Neighbour>>, rounds: nat): seq<Turn> {
    if rounds == 0 then [] else Turns(queues, rounds - 1) + RoundTurns(queues, rounds - 1, |queues|)
  }

  datatype Taken = Taken(served: seq<Turn>, tokens: nat, unfit: nat)

  /** Turns are taken one by one: a symbol that is there already is passed over; what does not fit the rest of the budget
      is counted and passed over; the others are served. */
  function Take(turns: seq<Turn>, seen: set<string>, used: nat, budget: int): Taken {
    if turns == [] then Taken([], used, 0)
    else
      var n := turns[0].neighbour;
      if n.symbolId in seen then Take(turns[1..], seen, used, budget)
      else if budget - used < EstimateTokens(RenderNeighbour(n)) then
        var rest := Take(turns[1..], seen, used, budget);
        rest.(unfit := 1 + rest.unfit)
      else
        var rest := Take(turns[1..], seen + {n.symbolId}, used + EstimateTokens(RenderNeighbour(n)), budget);
        rest.(served := [turns[0]] + rest.served)
  }

  function SymbolsOf(turns: seq<Turn>): set<string> { set t | t in turns :: t.neighbour.symbolId }

  /** The state shows what was taken. */
  predicate Shows(s: State, taken: Taken, seen: set<string>) {
    && |s.selected| == |s.from| == |taken.served|
    && (forall i :: 0 <= i < |taken.served| ==>
          var n := taken.served[i].neighbour;
          && s.from[i] == taken.served[i].queue
          && s.selected[i] == Served(n.symbolId, RenderNeighbour(n), EstimateTokens(RenderNeighbour(n)), n.relation))
    && s.seen == seen + SymbolsOf(taken.served)
    && s.tokensUsed == taken.tokens && s.exhausted == taken.unfit
  }

  lemma {:induction false} TakeMore(turns: seq<Turn>, last: Turn, seen: set<string>, used: nat, budget: int)
    ensures var before, after := Take(turns, seen, used, budget), Take(turns + [last], seen, used, budget);
      var n, now := last.neighbour, seen + SymbolsOf(before.served);
      after == if n.symbolId in now then before
               else if before.tokens + EstimateTokens(RenderNeighbour(n)) > budget then before.(unfit := before.unfit + 1)
               else Taken(before.served + [last], before.tokens + EstimateTokens(RenderNeighbour(n)), before.unfit)
  {
    hide RenderNeighbour, EstimateTokens;
    if turns == [] {
      assert [] + [last] == [last] && [last][1..] == [];
    } else {
      assert (turns + [last])[1..] == turns[1..] + [last];
      var n := turns[0].neighbour;
      if n.symbolId in seen || budget - used < EstimateTokens(RenderNeighbour(n)) {
        TakeMore(turns[1..], last, seen, used, budget);
      } else {
        TakeMore(turns[1..], last, seen + {n.symbolId}, used + EstimateTokens(RenderNeighbour(n)), budget);
        IdsGrow(turns[0], Take(turns[1..], seen + {n.symbolId}, used + EstimateTokens(RenderNeighbour(n)), budget).served, seen);
      }
    }
  }

  lemma {:induction false} IdsGrow(first: Turn, rest: seq<Turn>, seen: set<string>)
    ensures seen + SymbolsOf([first] + rest) == seen + {first.neighbour.symbolId} + SymbolsOf(rest)
  {
    var all := [first] + rest;
    assert forall t :: t in all <==> t == first || t in rest;
    assert first in all;
  }

  lemma {:induction false} ServeShows(
    s: State, turns: seq<Turn>, last: Turn, seen: set<string>, budget: int)
    requires Shows(s, Take(turns, seen, 0, budget), seen)
    ensures Shows(Serve(s, last.queue, last.neighbour, budget), Take(turns + [last], seen, 0, budget), seen)
  {
    hide RenderNeighbour, EstimateTokens, Take;
    TakeMore(turns, last, seen, 0, budget);
    var before, n := Take(turns, seen, 0, budget), last.neighbour;
    if n.symbolId !in s.seen && s.tokensUsed + EstimateTokens(RenderNeighbour(n)) <= budget {
      assert SymbolsOf(before.served + [last]) == SymbolsOf(before.served) + {n.symbolId} by {
        assert forall t :: t in before.served + [last] <==> t in before.served || t == last;
        assert last in before.served + [last];
      }
    }
  }

  lemma {:induction false} RoundShows(
    s: State, turns: seq<Turn>, seen: set<string>, queues: seq<seq<Neighbour>>, budget: int, r: nat, n: nat)
    requires n <= |queues| && Shows(s, Take(turns, seen, 0, budget), seen)
    ensures Shows(Round(s, queues, budget, r, n), Take(turns + RoundTurns(queues, r, n), seen, 0, budget), seen)
  {
    hide Serve, Take, Shows;
    if n == 0 {
      assert turns + [] == turns;
    } else {
      RoundShows(s, turns, seen, queues, budget, r, n - 1);
      var before := RoundTurns(queues, r, n - 1);
      if r < |queues[n - 1]| {
        var last := Turn(n - 1, queues[n - 1][r]);
        ServeShows(Round(s, queues, budget, r, n - 1), turns + before, last, seen, budget);
        assert turns + (before + [last]) == turns + before + [last];
      } else {
        assert before + [] == before;
      }
    }
  }

  /** Serving in rounds takes the turns in their order. */
  lemma {:induction false} RoundsTake(seen: set<string>, queues: seq<seq<Neighbour>>, budget: int, rounds: nat)
    ensures Shows(Rounds(seen, queues, budget, rounds), Take(Turns(queues, rounds), seen, 0, budget), seen)
  {
    hide Round, RoundTurns, RenderNeighbour;
    if rounds == 0 {
    } else {
      RoundsTake(seen, queues, budget, rounds - 1);
      RoundShows(
        Rounds(seen, queues, budget, rounds - 1), Turns(queues, rounds - 1), seen, queues, budget, rounds - 1, |queues|);
    }
  }

  // ---------- Seeds and counts ----------

  lemma {:induction false} SeedSymbolsAre(seeds: seq<Seed>, n: nat, id: string)
    requires n <= |seeds|
    ensures id in SeedSymbols(seeds, n) <==> exists i :: 0 <= i < n && seeds[i].symbolId == Some(id)
  {
    if n == 0 {
    } else {
      SeedSymbolsAre(seeds, n - 1, id);
    }
  }

  /** The positions of the neighbours that are there already. */
  function PresentAt(ns: seq<Neighbour>, seen: set<string>, n: nat): set<nat>
    requires n <= |ns|
  {
    set i: nat | i < n && ns[i].symbolId in seen
  }

  /** The positions of the others that are too central. */
  function CentralAt(ns: seq<Neighbour>, seen: set<string>, ceiling: nat, n: nat): set<nat>
    requires n <= |ns|
  {
    set i: nat | i < n && ns[i].symbolId !in seen && ns[i].centrality > ceiling
  }

  lemma {:induction false} MorePresent(ns: seq<Neighbour>, seen: set<string>, n: nat)
    requires 0 < n <= |ns|
    ensures |PresentAt(ns, seen, n)| == |PresentAt(ns, seen, n - 1)| + if ns[n - 1].symbolId in seen then 1 else 0
  {
    var before := PresentAt(ns, seen, n - 1);
    assert PresentAt(ns, seen, n) == if ns[n - 1].symbolId in seen then before + {n - 1} else before;
  }

  lemma {:induction false} MoreCentral(ns: seq<Neighbour>, seen: set<string>, ceiling: nat, n: nat)
    requires 0 < n <= |ns|
    ensures |CentralAt(ns, seen, ceiling, n)|
         == |CentralAt(ns, seen, ceiling, n - 1)| + if ns[n - 1].symbolId !in seen && ns[n - 1].centrality > ceiling then 1 else 0
  {
    var before := CentralAt(ns, seen, ceiling, n - 1);
    assert CentralAt(ns, seen, ceiling, n)
        == if ns[n - 1].symbolId !in seen && ns[n - 1].centrality > ceiling then before + {n - 1} else before;
  }

  lemma {:induction false} CountsAre(ns: seq<Neighbour>, seen: set<string>, ceiling: nat, n: nat)
    requires n <= |ns|
    ensures Present(ns, seen, n) == |PresentAt(ns, seen, n)| && Central(ns, seen, ceiling, n) == |CentralAt(ns, seen, ceiling, n)|
  {
    hide PresentAt, CentralAt;
    if n == 0 {
      NoPositions(ns, seen, ceiling);
    } else {
      CountsAre(ns, seen, ceiling, n - 1);
      MorePresent(ns, seen, n);
      MoreCentral(ns, seen, ceiling, n);
    }
  }

  lemma {:induction false} NoPositions(ns: seq<Neighbour>, seen: set<string>, ceiling: nat)
    ensures |PresentAt(ns, seen, 0)| == 0 && |CentralAt(ns, seen, ceiling, 0)| == 0
  {
    assert PresentAt(ns, seen, 0) == {} && CentralAt(ns, seen, ceiling, 0) == {};
  }

  /** The sets' sizes, added up. */
  function Sizes(sets: seq<set<nat>>): nat { if sets == [] then 0 else |sets[0]| + Sizes(sets[1..]) }

  lemma {:induction false} SizesLast(front: seq<set<nat>>, last: set<nat>)
    ensures Sizes(front + [last]) == Sizes(front) + |last|
  {
    if front == [] {
      assert front + [last] == [last];
    } else {
      assert (front + [last])[1..] == front[1..] + [last];
      SizesLast(front[1..], last);
    }
  }

  /** What the filter reports: for every seed the neighbours that are there already and those that are too central. */
  lemma {:induction false} DropsAre(
    seeds: seq<Seed>, neighboursBySeed: map<string, seq<Neighbour>>, seen: set<string>, ceiling: nat, n: nat)
    requires n <= |seeds|
    ensures var lists := seq(n, i requires 0 <= i < n =>
        if seeds[i].chunkId in neighboursBySeed then neighboursBySeed[seeds[i].chunkId] else []);
      FilterDrops(seeds, neighboursBySeed, seen, ceiling, n) == Drops(
        Sizes(seq(n, i requires 0 <= i < n => PresentAt(lists[i], seen, |lists[i]|))),
        Sizes(seq(n, i requires 0 <= i < n => CentralAt(lists[i], seen, ceiling, |lists[i]|))), 0)
  {
    hide PresentAt, CentralAt, Present, Central, Sizes;
    if n == 0 {
      NoSizes();
    } else {
      DropsAre(seeds, neighboursBySeed, seen, ceiling, n - 1);
      var ns := NeighboursOf(neighboursBySeed, seeds[n - 1]);
      CountsAre(ns, seen, ceiling, |ns|);
      var lists := seq(n, i requires 0 <= i < n =>
        if seeds[i].chunkId in neighboursBySeed then neighboursBySeed[seeds[i].chunkId] else []);
      var present := seq(n, i requires 0 <= i < n => PresentAt(lists[i], seen, |lists[i]|));
      var central := seq(n, i requires 0 <= i < n => CentralAt(lists[i], seen, ceiling, |lists[i]|));
      SizesLast(present[..n - 1], present[n - 1]);
      SizesLast(central[..n - 1], central[n - 1]);
      assert present == present[..n - 1] + [present[n - 1]] && central == central[..n - 1] + [central[n - 1]];
      var before := seq(n - 1, i requires 0 <= i < n - 1 =>
        if seeds[i].chunkId in neighboursBySeed then neighboursBySeed[seeds[i].chunkId] else []);
      assert present[..n - 1] == seq(n - 1, i requires 0 <= i < n - 1 => PresentAt(before[i], seen, |before[i]|));
      assert central[..n - 1] == seq(n - 1, i requires 0 <= i < n - 1 => CentralAt(before[i], seen, ceiling, |before[i]|));
    }
  }

  lemma {:induction false} NoSizes()
    ensures Sizes([]) == 0
  {
  }

  // ---------- The primary share ----------

  /** Each chunk is kept that fits beside those kept before it, and the very first one in any case. */
  function Fitting(chunks: seq<Primary>, used: nat, first: bool, budget: int): seq<Primary> {
    if chunks == [] then []
    else
      var tokens := if chunks[0].tokenCount == 0 then EstimateTokens(chunks[0].content) else chunks[0].tokenCount;
      if first || used + tokens <= budget then [chunks[0]] + Fitting(chunks[1..], used + tokens, false, budget)
      else Fitting(chunks[1..], used, false, budget)
  }

  lemma {:induction false} FittingMore(front: seq<Primary>, last: Primary, used: nat, first: bool, budget: int)
    ensures var before := Fitting(front, used, first, budget);
      Fitting(front + [last], used, first, budget)
      == if (first && front == []) || used + PrimaryTokens(before) + TokensOf(last) <= budget then before + [last] else before
    decreases |front|
  {
    hide EstimateTokens;
    if front == [] {
      assert [] + [last] == [last] && [last][1..] == [];
    } else {
      assert (front + [last])[1..] == front[1..] + [last];
      var tokens := TokensOf(front[0]);
      if first || used + tokens <= budget {
        FittingMore(front[1..], last, used + tokens, false, budget);
        TokensFirst(front[0], Fitting(front[1..], used + tokens, false, budget));
      } else {
        FittingMore(front[1..], last, used, false, budget);
      }
    }
  }

  lemma {:induction false} TokensFirst(first: Primary, rest: seq<Primary>)
    ensures PrimaryTokens([first] + rest) == TokensOf(first) + PrimaryTokens(rest)
  {
    hide TokensOf;
    var all := [first] + rest;
    if rest == [] {
      assert all == [first] && all[..0] == [];
    } else {
      assert all[..|all| - 1] == [first] + rest[..|rest| - 1];
      TokensFirst(first, rest[..|rest| - 1]);
    }
  }

  /** The kept chunks are those that fit in turn. */
  lemma {:induction false} KeptAre(chunks: seq<Primary>, budget: int, n: nat)
    requires n <= |chunks|
    ensures FitUpTo(chunks, budget, n).kept == Fitting(chunks[..n], 0, true, budget)
  {
    hide Fitting, TokensOf, PrimaryTokens;
    if n == 0 {
      NoneFits(chunks, budget);
    } else {
      KeptAre(chunks, budget, n - 1);
      PrimaryFits(chunks, budget, n - 1);
      assert chunks[..n] == chunks[..n - 1] + [chunks[n - 1]];
      FittingMore(chunks[..n - 1], chunks[n - 1], 0, true, budget);
    }
  }

  lemma {:induction false} NoneFits(chunks: seq<Primary>, budget: int)
    ensures Fitting(chunks[..0], 0, true, budget) == []
  {
  }

  /** A share is rounded down. */
  lemma {:induction false} ShareIs(totalTokens: nat, fraction: real)
    ensures Share(totalTokens, fraction) as real <= totalTokens as real * fraction < (Share(totalTokens, fraction) + 1) as real
  {
  }
}
