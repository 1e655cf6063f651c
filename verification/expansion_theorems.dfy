/** What context selection promises, packages/retrieval/src/expansion.ts. */
module ExpansionTheorems {
  import opened Numbers
  import opened Chunker
  import opened Expansion

  // ---------- The whole expansion ----------

  function Present(ns: seq<Neighbour>, seen: set<string>, n: nat): nat
    requires n <= |ns|
  {
    if n == 0 then 0 else Present(ns, seen, n - 1) + if ns[n - 1].symbolId in seen then 1 else 0
  }

  function Central(ns: seq<Neighbour>, seen: set<string>, ceiling: nat, n: nat): nat
    requires n <= |ns|
  {
    if n == 0 then 0
    else
      Central(ns, seen, ceiling, n - 1)
      + if ns[n - 1].symbolId !in seen && ns[n - 1].centrality > ceiling then 1 else 0
  }

  /** Every neighbour is wanted, already there or too central. */
  lemma {:induction false} NeighboursAccounted(ns: seq<Neighbour>, seen: set<string>, ceiling: nat, n: nat)
    requires n <= |ns|
    ensures |Filter(ns, seen, ceiling, n)| + Present(ns, seen, n) + Central(ns, seen, ceiling, n) == n
  {
    if n == 0 {
    } else {
      NeighboursAccounted(ns, seen, ceiling, n - 1);
    }
  }

  datatype Drops = Drops(alreadyPresent: nat, highCentrality: nat, budgetExhausted: nat)

  function FilterDrops(
    seeds: seq<Seed>, neighboursBySeed: map<string, seq<Neighbour>>, seen: set<string>, ceiling: nat, n: nat): Drops
    requires n <= |seeds|
  {
    if n == 0 then Drops(0, 0, 0)
    else
      var before, ns := FilterDrops(seeds, neighboursBySeed, seen, ceiling, n - 1), NeighboursOf(neighboursBySeed, seeds[n - 1]);
      Drops(before.alreadyPresent + Present(ns, seen, |ns|), before.highCentrality + Central(ns, seen, ceiling, |ns|), 0)
  }

  datatype Expanded = Expanded(chunks: seq<Served>, tokensUsed: nat, droppedCount: nat, droppedReasons: Drops)

  /** The outcome after some number of full rounds, none of which began over the budget. */
  ghost predicate IsOutcome(
    result: Expanded, seeds: seq<Seed>, neighboursBySeed: map<string, seq<Neighbour>>, options: Options, rounds: nat)
  {
    var seen, queues := SeedSymbols(seeds, |seeds|), Queues(seeds, neighboursBySeed, options);
    var state := Rounds(seen, queues, options.budget, rounds);
    && StopsAfter(seen, queues, options.budget, rounds)
    && result.chunks == state.selected && result.tokensUsed == state.tokensUsed
    && result.droppedReasons
       == FilterDrops(seeds, neighboursBySeed, seen, options.centralityCeiling, |seeds|).(budgetExhausted := state.exhausted)
  }

  method ExpandWithBudget(seeds: seq<Seed>, neighboursBySeed: map<string, seq<Neighbour>>, options: Options)
    returns (result: Expanded)
    ensures exists rounds :: IsOutcome(result, seeds, neighboursBySeed, options, rounds)
    ensures result.droppedCount
         == result.droppedReasons.alreadyPresent + result.droppedReasons.highCentrality + result.droppedReasons.budgetExhausted
  {
    hide Rounds, Queues, SeedSymbols, StopsAfter;
    var seen := SeedSymbols(seeds, |seeds|);
    var queues := Queues(seeds, neighboursBySeed, options);
    var drops := FilterDrops(seeds, neighboursBySeed, seen, options.centralityCeiling, |seeds|);
    var state, index := ServeRounds(queues, seen, options.budget);
    ghost var rounds :| StopsAfter(seen, queues, options.budget, rounds) && Advanced(queues, index, rounds)
      && state == Rounds(seen, queues, options.budget, rounds);
    drops := drops.(budgetExhausted := state.exhausted);
    result := Expanded(
      state.selected, state.tokensUsed, drops.alreadyPresent + drops.highCentrality + drops.budgetExhausted, drops);
    assert IsOutcome(result, seeds, neighboursBySeed, options, rounds);
  }

  // ---------- What every round keeps ----------

  function TokenSum(chunks: seq<Served>, n: nat): nat
    requires n <= |chunks|
  {
    if n == 0 then 0 else TokenSum(chunks, n - 1) + chunks[n - 1].tokenCount
  }

  lemma {:induction false} TokenSumAppend(chunks: seq<Served>, x: Served, n: nat)
    requires n <= |chunks|
    ensures TokenSum(chunks + [x], n) == TokenSum(chunks, n)
  {
    if n == 0 {
    } else {
      TokenSumAppend(chunks, x, n - 1);
    }
  }

  function CountFrom(from: seq<nat>, q: nat, n: nat): nat
    requires n <= |from|
  {
    if n == 0 then 0 else CountFrom(from, q, n - 1) + if from[n - 1] == q then 1 else 0
  }

  lemma {:induction false} CountFromAppend(from: seq<nat>, x: nat, q: nat, n: nat)
    requires n <= |from|
    ensures CountFrom(from + [x], q, n) == CountFrom(from, q, n)
  {
    if n == 0 {
    } else {
      CountFromAppend(from, x, q, n - 1);
    }
  }

  /** No symbol is served twice or is a seed; tokens are counted right and stay within the budget;
      each served chunk comes from the queue it says. */
  ghost predicate Sound(s: State, seeds: set<string>, queues: seq<seq<Neighbour>>, budget: int) {
    && (forall x :: x in s.seen <==> x in seeds || exists i :: 0 <= i < |s.selected| && s.selected[i].symbolId == x)
    && (forall i, j :: 0 <= i < j < |s.selected| ==> s.selected[i].symbolId != s.selected[j].symbolId)
    && (forall i :: 0 <= i < |s.selected| ==> s.selected[i].symbolId !in seeds)
    && s.tokensUsed == TokenSum(s.selected, |s.selected|)
    && (s.tokensUsed <= budget || s.tokensUsed == 0)
    && |s.from| == |s.selected|
    && (forall i :: 0 <= i < |s.from| ==> FromQueue(s.selected[i], queues, s.from[i]))
  }

  ghost predicate FromQueue(x: Served, queues: seq<seq<Neighbour>>, q: nat) {
    q < |queues| && exists k :: 0 <= k < |queues[q]| && x == ServedAs(queues[q][k])
  }

  lemma {:induction false} ServeSound(s: State, seeds: set<string>, queues: seq<seq<Neighbour>>, budget: int, q: nat, k: nat)
    requires Sound(s, seeds, queues, budget) && q < |queues| && k < |queues[q]|
    ensures Sound(Serve(s, q, queues[q][k], budget), seeds, queues, budget)
  {
    hide RenderNeighbour;
    var n := queues[q][k];
    var tokens := EstimateTokens(RenderNeighbour(n));
    if n.symbolId !in s.seen && s.tokensUsed + tokens <= budget {
      AppendSound(s, seeds, queues, budget, q, ServedAs(n));
    }
  }

  lemma {:induction false} AppendSound(s: State, seeds: set<string>, queues: seq<seq<Neighbour>>, budget: int, q: nat, x: Served)
    requires Sound(s, seeds, queues, budget) && FromQueue(x, queues, q)
    requires x.symbolId !in s.seen && s.tokensUsed + x.tokenCount <= budget
    ensures Sound(
      State(s.seen + {x.symbolId}, s.selected + [x], s.from + [q], s.tokensUsed + x.tokenCount, s.exhausted),
      seeds, queues, budget)
  {
    hide FromQueue;
    var selected := s.selected + [x];
    TokenSumAppend(s.selected, x, |s.selected|);
    assert selected[|s.selected|] == x;
    forall y ensures y in s.seen + {x.symbolId} <==> y in seeds || exists i :: 0 <= i < |selected| && selected[i].symbolId == y {
      if i :| 0 <= i < |s.selected| && s.selected[i].symbolId == y {
        assert selected[i].symbolId == y;
      }
    }
  }

  lemma {:induction false} RoundSound(
    s: State, seeds: set<string>, queues: seq<seq<Neighbour>>, budget: int, r: nat, n: nat)
    requires Sound(s, seeds, queues, budget) && n <= |queues|
    ensures Sound(Round(s, queues, budget, r, n), seeds, queues, budget)
  {
    hide Serve, Sound;
    if n == 0 {
    } else {
      RoundSound(s, seeds, queues, budget, r, n - 1);
      if r < |queues[n - 1]| { ServeSound(Round(s, queues, budget, r, n - 1), seeds, queues, budget, n - 1, r); }
    }
  }

  lemma {:induction false} NothingServed(seeds: set<string>, queues: seq<seq<Neighbour>>, budget: int)
    ensures Sound(State(seeds, [], [], 0, 0), seeds, queues, budget)
  {
  }

  lemma {:induction false} RoundsSound(seeds: set<string>, queues: seq<seq<Neighbour>>, budget: int, r: nat)
    ensures Sound(Rounds(seeds, queues, budget, r), seeds, queues, budget)
  {
    hide Sound, Round;
    if r == 0 {
      NothingServed(seeds, queues, budget);
    } else {
      RoundsSound(seeds, queues, budget, r - 1);
      RoundSound(Rounds(seeds, queues, budget, r - 1), seeds, queues, budget, r - 1, |queues|);
    }
  }

  function CountOf(s: State, q: nat): nat { CountFrom(s.from, q, |s.from|) }

  lemma {:induction false} ServeCount(s: State, p: nat, n: Neighbour, budget: int, q: nat)
    ensures CountOf(s, q) <= CountOf(Serve(s, p, n, budget), q) <= CountOf(s, q) + if p == q then 1 else 0
  {
    hide RenderNeighbour;
    CountFromAppend(s.from, p, q, |s.from|);
  }

  lemma {:induction false} RoundCount(s: State, queues: seq<seq<Neighbour>>, budget: int, r: nat, n: nat, q: nat)
    requires n <= |queues| && q < |queues|
    ensures CountOf(Round(s, queues, budget, r, n), q) <= CountOf(s, q) + if q < n && r < |queues[q]| then 1 else 0
  {
    hide Serve, CountOf;
    if n == 0 {
    } else {
      RoundCount(s, queues, budget, r, n - 1, q);
      if r < |queues[n - 1]| { ServeCount(Round(s, queues, budget, r, n - 1), n - 1, queues[n - 1][r], budget, q); }
    }
  }

  lemma {:induction false} RoundsCount(seeds: set<string>, queues: seq<seq<Neighbour>>, budget: int, r: nat, q: nat)
    requires q < |queues|
    ensures CountOf(Rounds(seeds, queues, budget, r), q) <= Min(r, |queues[q]|)
  {
    hide Round;
    if r == 0 {
    } else {
      RoundsCount(seeds, queues, budget, r - 1, q);
      RoundCount(Rounds(seeds, queues, budget, r - 1), queues, budget, r - 1, |queues|, q);
    }
  }

  /** The expansion keeps to its token share, serves no seed and no symbol twice, and serves each
      seed at most its allowance, never more than one per round. */
  lemma {:induction false} ExpansionIsBounded(
    seeds: seq<Seed>, neighboursBySeed: map<string, seq<Neighbour>>, options: Options, rounds: nat)
    ensures var seen, queues := SeedSymbols(seeds, |seeds|), Queues(seeds, neighboursBySeed, options);
      var s := Rounds(seen, queues, options.budget, rounds);
      && Sound(s, seen, queues, options.budget)
      && forall q :: 0 <= q < |queues| ==> CountOf(s, q) <= Min(rounds, options.maxPerSeed)
  {
    hide Sound, Rounds, CountOf;
    var seen, queues := SeedSymbols(seeds, |seeds|), Queues(seeds, neighboursBySeed, options);
    RoundsSound(seen, queues, options.budget, rounds);
    forall q | 0 <= q < |queues| ensures CountOf(Rounds(seen, queues, options.budget, rounds), q) <= Min(rounds, options.maxPerSeed) {
      RoundsCount(seen, queues, options.budget, rounds, q);
    }
  }

  // ---------- What is not served ----------

  lemma {:induction false} ServeGrows(s: State, q: nat, n: Neighbour, budget: int)
    ensures var after := Serve(s, q, n, budget);
      && s.seen <= after.seen && s.tokensUsed <= after.tokensUsed
      && (n.symbolId in after.seen || after.tokensUsed + EstimateTokens(RenderNeighbour(n)) > budget)
  {
    hide RenderNeighbour;
  }

  lemma {:induction false} RoundGrows(s: State, queues: seq<seq<Neighbour>>, budget: int, r: nat, n: nat)
    requires n <= |queues|
    ensures s.seen <= Round(s, queues, budget, r, n).seen && s.tokensUsed <= Round(s, queues, budget, r, n).tokensUsed
  {
    hide Serve;
    if n == 0 {
    } else {
      RoundGrows(s, queues, budget, r, n - 1);
      if r < |queues[n - 1]| { ServeGrows(Round(s, queues, budget, r, n - 1), n - 1, queues[n - 1][r], budget); }
    }
  }

  lemma {:induction false} OfferedInRound(s: State, queues: seq<seq<Neighbour>>, budget: int, r: nat, n: nat, q: nat)
    requires q < n <= |queues| && r < |queues[q]|
    ensures var after, x := Round(s, queues, budget, r, n), queues[q][r];
      x.symbolId in after.seen || after.tokensUsed + EstimateTokens(RenderNeighbour(x)) > budget
  {
    hide Serve, RenderNeighbour, EstimateTokens;
    var before := Round(s, queues, budget, r, n - 1);
    if r < |queues[n - 1]| { ServeGrows(before, n - 1, queues[n - 1][r], budget); }
    if q >= n - 1 {
    } else {
      OfferedInRound(s, queues, budget, r, n - 1, q);
    }
  }

  /** A neighbour whose turn came is present at the end or does not fit what is left. */
  lemma {:induction false} TurnIsUsed(seeds: set<string>, queues: seq<seq<Neighbour>>, budget: int, rounds: nat, q: nat, k: nat)
    requires q < |queues| && k < Min(rounds, |queues[q]|)
    ensures var s, x := Rounds(seeds, queues, budget, rounds), queues[q][k];
      x.symbolId in s.seen || s.tokensUsed + EstimateTokens(RenderNeighbour(x)) > budget
    decreases rounds
  {
    hide Round, RenderNeighbour, EstimateTokens;
    var before := Rounds(seeds, queues, budget, rounds - 1);
    RoundGrows(before, queues, budget, rounds - 1, |queues|);
    if k == rounds - 1 {
      OfferedInRound(before, queues, budget, rounds - 1, |queues|, q);
    } else {
      TurnIsUsed(seeds, queues, budget, rounds - 1, q, k);
    }
  }

  // ---------- The primary share ----------

  datatype Primary = Primary(content: string, tokenCount: nat)

  /** A token count of zero is estimated again. */
  function TokensOf(c: Primary): nat { if c.tokenCount != 0 then c.tokenCount else EstimateTokens(c.content) }

  datatype Fit = Fit(kept: seq<Primary>, dropped: seq<Primary>, tokensUsed: nat)

  function FitUpTo(chunks: seq<Primary>, budget: int, n: nat): Fit
    requires n <= |chunks|
  {
    if n == 0 then Fit([], [], 0)
    else
      var before, chunk := FitUpTo(chunks, budget, n - 1), chunks[n - 1];
      if before.tokensUsed + TokensOf(chunk) > budget && before.kept != [] then before.(dropped := before.dropped + [chunk])
      else Fit(before.kept + [chunk], before.dropped, before.tokensUsed + TokensOf(chunk))
  }

  method FitPrimaryToBudget(chunks: seq<Primary>, budget: int) returns (kept: seq<Primary>, dropped: seq<Primary>, tokensUsed: nat)
    ensures Fit(kept, dropped, tokensUsed) == FitUpTo(chunks, budget, |chunks|)
  {
    hide TokensOf;
    kept, dropped, tokensUsed := [], [], 0;
    for i := 0 to |chunks|
      invariant Fit(kept, dropped, tokensUsed) == FitUpTo(chunks, budget, i)
    {
      var tokens := TokensOf(chunks[i]);
      if tokensUsed + tokens > budget && |kept| > 0 {
        dropped := dropped + [chunks[i]];
        continue;
      }
      kept := kept + [chunks[i]];
      tokensUsed := tokensUsed + tokens;
    }
  }

  /** The two lists interleave to the first `n` chunks, both in their order. */
  predicate Interleaves(chunks: seq<Primary>, n: nat, kept: seq<Primary>, dropped: seq<Primary>)
    requires n <= |chunks|
  {
    if n == 0 then kept == [] && dropped == []
    else
      || (kept != [] && kept[|kept| - 1] == chunks[n - 1] && Interleaves(chunks, n - 1, kept[..|kept| - 1], dropped))
      || (dropped != [] && dropped[|dropped| - 1] == chunks[n - 1]
          && Interleaves(chunks, n - 1, kept, dropped[..|dropped| - 1]))
  }

  function PrimaryTokens(kept: seq<Primary>): nat {
    if kept == [] then 0 else PrimaryTokens(kept[..|kept| - 1]) + TokensOf(kept[|kept| - 1])
  }

  /** Nothing is lost or reordered, and the kept chunks fit their share unless the first one alone
      does not; then it is kept alone. */
  lemma {:induction false} PrimaryFits(chunks: seq<Primary>, budget: int, n: nat)
    requires n <= |chunks|
    ensures var fit := FitUpTo(chunks, budget, n);
      && Interleaves(chunks, n, fit.kept, fit.dropped) && fit.tokensUsed == PrimaryTokens(fit.kept)
      && (n > 0 ==> fit.kept != [] && fit.kept[0] == chunks[0])
      && (fit.tokensUsed <= budget || fit.kept == [] || (fit.kept == [chunks[0]] && TokensOf(chunks[0]) > budget))
  {
    hide TokensOf, Interleaves, PrimaryTokens;
    if n == 0 {
      NonePlaced(chunks);
    } else {
      PrimaryFits(chunks, budget, n - 1);
      var before := FitUpTo(chunks, budget, n - 1);
      Placed(chunks, n, before.kept, before.dropped);
    }
  }

  lemma {:induction false} NonePlaced(chunks: seq<Primary>)
    ensures Interleaves(chunks, 0, [], []) && PrimaryTokens([]) == 0
  {
  }

  lemma {:induction false} Placed(chunks: seq<Primary>, n: nat, kept: seq<Primary>, dropped: seq<Primary>)
    requires 0 < n <= |chunks| && Interleaves(chunks, n - 1, kept, dropped)
    ensures Interleaves(chunks, n, kept + [chunks[n - 1]], dropped)
    ensures Interleaves(chunks, n, kept, dropped + [chunks[n - 1]])
    ensures PrimaryTokens(kept + [chunks[n - 1]]) == PrimaryTokens(kept) + TokensOf(chunks[n - 1])
  {
    hide TokensOf;
    var more, less := kept + [chunks[n - 1]], dropped + [chunks[n - 1]];
    assert more[..|more| - 1] == kept && less[..|less| - 1] == dropped;
  }

  // ---------- Both shares ----------

  function Share(totalTokens: nat, fraction: real): int { (totalTokens as real * fraction).Floor }

  /** Primary chunks and expansion together stay within the whole budget whenever their shares do,
      unless the first primary chunk alone exceeds its share. */
  lemma {:induction false} ContextFits(
    chunks: seq<Primary>, seeds: seq<Seed>, neighboursBySeed: map<string, seq<Neighbour>>, options: Options,
    totalTokens: nat, primary: real, expansion: real, rounds: nat)
    requires primary >= 0.0 && expansion >= 0.0 && primary + expansion <= 1.0
    requires options.budget == Share(totalTokens, expansion)
    ensures var fit := FitUpTo(chunks, Share(totalTokens, primary), |chunks|);
      var queues := Queues(seeds, neighboursBySeed, options);
      var s := Rounds(SeedSymbols(seeds, |seeds|), queues, options.budget, rounds);
      fit.tokensUsed + s.tokensUsed <= totalTokens
      || (chunks != [] && fit.kept == [chunks[0]] && TokensOf(chunks[0]) > Share(totalTokens, primary))
  {
    hide Rounds, Queues, FitUpTo, Share;
    SharesFit(totalTokens, primary, expansion);
    PrimaryFits(chunks, Share(totalTokens, primary), |chunks|);
    ExpansionIsBounded(seeds, neighboursBySeed, options, rounds);
  }

  lemma {:induction false} SharesFit(totalTokens: nat, primary: real, expansion: real)
    requires primary >= 0.0 && expansion >= 0.0 && primary + expansion <= 1.0
    ensures Share(totalTokens, primary) >= 0 && Share(totalTokens, expansion) >= 0
    ensures Share(totalTokens, primary) + Share(totalTokens, expansion) <= totalTokens
  {
    var t := totalTokens as real;
    Distribute(t, primary, expansion);
    FloorSum(t * primary, t * expansion, totalTokens);
  }

  lemma {:induction false} FloorSum(a: real, b: real, total: nat)
    requires a >= 0.0 && b >= 0.0 && a + b <= total as real
    ensures a.Floor >= 0 && b.Floor >= 0 && a.Floor + b.Floor <= total
  {
    assert (a.Floor + b.Floor) as real <= total as real;
  }

  lemma {:induction false} Distribute(t: real, p: real, e: real)
    requires t >= 0.0 && p >= 0.0 && e >= 0.0 && p + e <= 1.0
    ensures t * p >= 0.0 && t * e >= 0.0 && t * p + t * e <= t
  {
    assert t * p + t * e == t * (p + e);
    Scale(t, p + e);
  }

  lemma {:induction false} Scale(t: real, x: real)
    requires t >= 0.0 && x <= 1.0
    ensures t * x <= t
  {
    assert t * (1.0 - x) >= 0.0;
  }
}
