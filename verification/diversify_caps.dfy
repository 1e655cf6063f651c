/** The module cap that `diversify` keeps, packages/retrieval/src/fusion.ts. */
module DiversifyCaps {
  import opened Strings
  import opened Numbers
  import opened Diversify

  // ---------- How many chunks the caps allow ----------

  function Total(chunks: seq<Chunk>, key: string, n: nat): nat
    requires n <= |chunks|
  {
    if n == 0 then 0 else Total(chunks, key, n - 1) + if DiversityKey(chunks[n - 1]) == key then 1 else 0
  }

  function KeysOf(chunks: seq<Chunk>): (r: seq<string>)
    ensures |r| == |chunks| && forall i :: 0 <= i < |r| ==> r[i] == DiversityKey(chunks[i])
  {
    seq(|chunks|, i requires 0 <= i < |chunks| => DiversityKey(chunks[i]))
  }

  function SumOfMins(chunks: seq<Chunk>, max: nat, keys: seq<string>, m: nat): nat
    requires m <= |keys|
  {
    if m == 0 then 0
    else SumOfMins(chunks, max, keys, m - 1) + Min(max, Total(chunks, keys[m - 1], |chunks|))
  }

  /** The sum over the modules of what each may contribute under the cap. */
  function Capacity(chunks: seq<Chunk>, max: nat): nat {
    var keys := Unique(KeysOf(chunks));
    SumOfMins(chunks, max, keys, |keys|)
  }

  // ---------- Choices are of different chunks ----------

  lemma {:induction false} ChoiceIsFree(
    chunks: seq<Chunk>, at: seq<nat>, i: nat, options: Options, similarity: (string, string) -> real)
    requires Positions(chunks, at) && i < |at| && Choice(chunks, at, i, options, similarity)
    ensures !Picked(at, i, at[i])
  {
    hide Picked, Chosen, MmrAt;
  }

  ghost predicate AllFree(at: seq<nat>, n: nat)
    requires n <= |at|
  {
    forall i :: 0 <= i < n ==> !Picked(at, i, at[i])
  }

  lemma {:induction false} FreeIsDistinct(at: seq<nat>)
    requires AllFree(at, |at|)
    ensures Distinct(at)
  {
    forall i, j | 0 <= i < j < |at| ensures at[i] != at[j] {
      assert !Picked(at, j, at[j]);
    }
  }

  // ---------- Counting ----------

  function FreeCount(chunks: seq<Chunk>, at: seq<nat>, i: nat, key: string, n: nat): nat
    requires n <= |chunks| && i <= |at|
  {
    if n == 0 then 0
    else FreeCount(chunks, at, i, key, n - 1) + if DiversityKey(chunks[n - 1]) == key && !Picked(at, i, n - 1) then 1 else 0
  }

  lemma {:induction false} FreeAtStart(chunks: seq<Chunk>, at: seq<nat>, key: string, n: nat)
    requires n <= |chunks|
    ensures FreeCount(chunks, at, 0, key, n) == Total(chunks, key, n)
  {
    hide DiversityKey;
    if n == 0 {
    } else {
      FreeAtStart(chunks, at, key, n - 1);
    }
  }

  lemma {:induction false} PickedStep(at: seq<nat>, i: nat, p: nat)
    requires i < |at|
    ensures Picked(at, i + 1, p) <==> Picked(at, i, p) || at[i] == p
  {
    if Picked(at, i, p) {
      var j :| 0 <= j < i && at[j] == p;
      assert Picked(at, i + 1, p);
    }
  }

  lemma {:induction false} FreeStep(chunks: seq<Chunk>, at: seq<nat>, i: nat, key: string, n: nat)
    requires Positions(chunks, at) && i < |at| && n <= |chunks| && !Picked(at, i, at[i])
    ensures FreeCount(chunks, at, i, key, n)
         == FreeCount(chunks, at, i + 1, key, n) + if at[i] < n && DiversityKey(chunks[at[i]]) == key then 1 else 0
  {
    hide DiversityKey, Picked;
    if n == 0 {
    } else {
      FreeStep(chunks, at, i, key, n - 1);
      PickedStep(at, i, n - 1);
    }
  }

  /** A module's chunks are the chosen ones and the free ones. */
  lemma {:induction false} ChosenPlusFree(chunks: seq<Chunk>, at: seq<nat>, i: nat, key: string)
    requires Positions(chunks, at) && i <= |at| && AllFree(at, i)
    ensures Chosen(chunks, at, key, i) + FreeCount(chunks, at, i, key, |chunks|) == Total(chunks, key, |chunks|)
  {
    hide DiversityKey, Picked;
    if i == 0 {
      FreeAtStart(chunks, at, key, |chunks|);
    } else {
      ChosenPlusFree(chunks, at, i - 1, key);
      FreeStep(chunks, at, i - 1, key, |chunks|);
    }
  }

  lemma {:induction false} FreeWitness(chunks: seq<Chunk>, at: seq<nat>, i: nat, key: string, n: nat)
    requires n <= |chunks| && i <= |at| && FreeCount(chunks, at, i, key, n) > 0
    ensures exists p :: 0 <= p < n && DiversityKey(chunks[p]) == key && !Picked(at, i, p)
  {
    hide DiversityKey, Picked;
    if DiversityKey(chunks[n - 1]) != key || Picked(at, i, n - 1) {
      FreeWitness(chunks, at, i, key, n - 1);
    }
  }

  function SumChosen(chunks: seq<Chunk>, at: seq<nat>, keys: seq<string>, m: nat, i: nat): nat
    requires Positions(chunks, at) && m <= |keys| && i <= |at|
  {
    if m == 0 then 0 else SumChosen(chunks, at, keys, m - 1, i) + Chosen(chunks, at, keys[m - 1], i)
  }

  lemma {:induction false} SumStep(chunks: seq<Chunk>, at: seq<nat>, keys: seq<string>, m: nat, i: nat)
    requires Positions(chunks, at) && m <= |keys| && i < |at| && Distinct(keys)
    ensures SumChosen(chunks, at, keys, m, i + 1)
         == SumChosen(chunks, at, keys, m, i) + if DiversityKey(chunks[at[i]]) in keys[..m] then 1 else 0
  {
    hide DiversityKey;
    if m == 0 {
    } else {
      SumStep(chunks, at, keys, m - 1, i);
      LastKey(keys, m, DiversityKey(chunks[at[i]]));
    }
  }

  lemma {:induction false} LastKey(keys: seq<string>, m: nat, key: string)
    requires 0 < m <= |keys| && Distinct(keys)
    ensures key in keys[..m] <==> key in keys[..m - 1] || key == keys[m - 1]
    ensures key == keys[m - 1] ==> key !in keys[..m - 1]
  {
    assert keys[..m] == keys[..m - 1] + [keys[m - 1]];
    assert forall q :: 0 <= q < m - 1 ==> keys[..m - 1][q] == keys[q];
  }

  /** The modules' counts add up to the number of choices. */
  lemma {:induction false} ChosenAddUp(chunks: seq<Chunk>, at: seq<nat>, keys: seq<string>, i: nat)
    requires Positions(chunks, at) && i <= |at| && keys == Unique(KeysOf(chunks))
    ensures SumChosen(chunks, at, keys, |keys|, i) == i
  {
    hide DiversityKey, Chosen;
    if i == 0 {
      NoneChosen(chunks, at, keys, |keys|);
    } else {
      ChosenAddUp(chunks, at, keys, i - 1);
      SumStep(chunks, at, keys, |keys|, i - 1);
      assert keys[..|keys|] == keys;
      assert KeysOf(chunks)[at[i - 1]] in keys;
    }
  }

  lemma {:induction false} NoneChosen(chunks: seq<Chunk>, at: seq<nat>, keys: seq<string>, m: nat)
    requires Positions(chunks, at) && m <= |keys|
    ensures SumChosen(chunks, at, keys, m, 0) == 0
  {
    if m == 0 {
    } else {
      NoneChosen(chunks, at, keys, m - 1);
    }
  }

  lemma {:induction false} SumCompare(chunks: seq<Chunk>, at: seq<nat>, max: nat, keys: seq<string>, m: nat, i: nat)
    requires Positions(chunks, at) && m <= |keys| && i <= |at|
    requires forall key :: Chosen(chunks, at, key, i) <= Min(max, Total(chunks, key, |chunks|))
    ensures SumChosen(chunks, at, keys, m, i) <= SumOfMins(chunks, max, keys, m)
    ensures (forall key :: Chosen(chunks, at, key, i) == Min(max, Total(chunks, key, |chunks|))) ==>
      SumChosen(chunks, at, keys, m, i) == SumOfMins(chunks, max, keys, m)
  {
    hide Chosen, Total, Min;
    if m == 0 {
    } else {
      SumCompare(chunks, at, max, keys, m - 1, i);
    }
  }

  // ---------- While some module is open ----------

  ghost predicate AnyOpen(chunks: seq<Chunk>, at: seq<nat>, i: nat, max: nat)
    requires Positions(chunks, at) && i <= |at|
  {
    exists p :: Open(chunks, at, i, max, p)
  }

  ghost predicate OpenUntil(chunks: seq<Chunk>, at: seq<nat>, n: nat, max: nat)
    requires Positions(chunks, at) && n <= |at|
  {
    forall i :: 0 <= i < n ==> AnyOpen(chunks, at, i, max)
  }

  lemma {:induction false} CappedWhileOpen(
    chunks: seq<Chunk>, at: seq<nat>, n: nat, options: Options, similarity: (string, string) -> real, key: string)
    requires Selection(chunks, at, options, similarity) && n <= |at| && OpenUntil(chunks, at, n, options.maxPerModule)
    ensures Chosen(chunks, at, key, n) <= options.maxPerModule
  {
    hide DiversityKey, Picked, MmrAt;
    if n == 0 {
    } else {
      CappedWhileOpen(chunks, at, n - 1, options, similarity, key);
      assert AnyOpen(chunks, at, n - 1, options.maxPerModule) && Choice(chunks, at, n - 1, options, similarity);
    }
  }

  lemma {:induction false} SelectionIsFree(
    chunks: seq<Chunk>, at: seq<nat>, options: Options, similarity: (string, string) -> real)
    requires Selection(chunks, at, options, similarity)
    ensures AllFree(at, |at|) && Distinct(at)
  {
    hide Choice, Picked;
    forall i | 0 <= i < |at| ensures !Picked(at, i, at[i]) {
      ChoiceIsFree(chunks, at, i, options, similarity);
    }
    FreeIsDistinct(at);
  }

  /** Choices made while some module is open stay within what the caps allow; when no module is open
      any more, they have used it up. */
  lemma {:induction false} OpenChoicesFit(
    chunks: seq<Chunk>, at: seq<nat>, n: nat, options: Options, similarity: (string, string) -> real)
    requires Selection(chunks, at, options, similarity) && n <= |at| && OpenUntil(chunks, at, n, options.maxPerModule)
    ensures n <= Capacity(chunks, options.maxPerModule)
    ensures !AnyOpen(chunks, at, n, options.maxPerModule) ==> n == Capacity(chunks, options.maxPerModule)
  {
    hide DiversityKey, Picked, Choice, Chosen, FreeCount, Total, OpenUntil, Unique, KeysOf;
    var max, keys := options.maxPerModule, Unique(KeysOf(chunks));
    SelectionIsFree(chunks, at, options, similarity);
    forall key
      ensures Chosen(chunks, at, key, n) <= Min(max, Total(chunks, key, |chunks|))
      ensures !AnyOpen(chunks, at, n, max) ==> Chosen(chunks, at, key, n) == Min(max, Total(chunks, key, |chunks|))
    {
      CappedWhileOpen(chunks, at, n, options, similarity, key);
      ChosenPlusFree(chunks, at, n, key);
      if !AnyOpen(chunks, at, n, max) && FreeCount(chunks, at, n, key, |chunks|) > 0 {
        FreeWitness(chunks, at, n, key, |chunks|);
        var p :| 0 <= p < |chunks| && DiversityKey(chunks[p]) == key && !Picked(at, n, p);
        assert !Open(chunks, at, n, max, p);
      }
    }
    SumCompare(chunks, at, max, keys, |keys|, n);
    ChosenAddUp(chunks, at, keys, n);
  }

  lemma {:induction false} ChosenGrows(chunks: seq<Chunk>, at: seq<nat>, key: string, i: nat)
    requires Positions(chunks, at) && i < |at|
    ensures Chosen(chunks, at, key, i) <= Chosen(chunks, at, key, i + 1)
  {
    hide DiversityKey;
  }

  lemma {:induction false} ClosedStays(chunks: seq<Chunk>, at: seq<nat>, i: nat, j: nat, max: nat)
    requires Positions(chunks, at) && i <= j <= |at| && !AnyOpen(chunks, at, i, max)
    ensures !AnyOpen(chunks, at, j, max)
    decreases j
  {
    hide DiversityKey, Picked, Chosen;
    if i >= j {
    } else {
      ClosedStays(chunks, at, i, j - 1, max);
      forall p: nat ensures !Open(chunks, at, j, max, p) {
        assert !Open(chunks, at, j - 1, max, p);
        PickedStep(at, j - 1, p);
        if p < |chunks| { ChosenGrows(chunks, at, DiversityKey(chunks[p]), j - 1); }
      }
    }
  }

  lemma {:induction false} FirstClosed(chunks: seq<Chunk>, at: seq<nat>, max: nat, n: nat) returns (t: nat)
    requires Positions(chunks, at) && n <= |at|
    ensures t <= n && OpenUntil(chunks, at, t, max)
    ensures t < n ==> !AnyOpen(chunks, at, t, max)
  {
    hide AnyOpen;
    t := 0;
    while t < n && AnyOpen(chunks, at, t, max)
      invariant t <= n && OpenUntil(chunks, at, t, max)
    {
      t := t + 1;
    }
  }

  /** From `t` on the choices are what is left, in input order. */
  ghost predicate Leftovers(chunks: seq<Chunk>, at: seq<nat>, t: nat) {
    forall i :: t <= i < |at| ==>
      !Picked(at, i, at[i]) && forall p :: 0 <= p < at[i] ==> Picked(at, i, p)
  }

  lemma {:induction false} LeftoversAscend(chunks: seq<Chunk>, at: seq<nat>, t: nat, i: nat, j: nat)
    requires Leftovers(chunks, at, t) && t <= i < j < |at|
    ensures at[i] < at[j]
  {
    if at[j] <= at[i] {
      assert !Picked(at, j, at[j]);
      assert Picked(at, j, at[i]);
      PickedLater(at, i, j, at[j]);
    }
  }

  lemma {:induction false} PickedLater(at: seq<nat>, i: nat, j: nat, p: nat)
    requires i <= j <= |at|
    ensures Picked(at, i, p) ==> Picked(at, j, p)
  {
  }

  lemma {:induction false} CapacityBound(chunks: seq<Chunk>, max: nat)
    ensures Capacity(chunks, max) <= |chunks|
  {
    hide DiversityKey, Unique, KeysOf, Total, Chosen;
    var keys := Unique(KeysOf(chunks));
    var all: seq<nat> := seq(|chunks|, (i: nat) => i);
    forall key ensures Total(chunks, key, |chunks|) == Chosen(chunks, all, key, |all|) {
      WholeChosen(chunks, all, key, |chunks|);
    }
    SumBelow(chunks, all, max, keys, |keys|);
    ChosenAddUp(chunks, all, keys, |all|);
  }

  lemma {:induction false} WholeChosen(chunks: seq<Chunk>, all: seq<nat>, key: string, n: nat)
    requires n <= |chunks| == |all| && forall i :: 0 <= i < |all| ==> all[i] == i
    ensures Total(chunks, key, n) == Chosen(chunks, all, key, n)
  {
    hide DiversityKey;
    if n == 0 {
    } else {
      WholeChosen(chunks, all, key, n - 1);
    }
  }

  lemma {:induction false} SumBelow(chunks: seq<Chunk>, all: seq<nat>, max: nat, keys: seq<string>, m: nat)
    requires Positions(chunks, all) && m <= |keys|
    requires forall key :: Total(chunks, key, |chunks|) == Chosen(chunks, all, key, |all|)
    ensures SumOfMins(chunks, max, keys, m) <= SumChosen(chunks, all, keys, m, |all|)
  {
    hide Total, Chosen;
    if m == 0 {
    } else {
      SumBelow(chunks, all, max, keys, m - 1);
    }
  }

  /** The result holds min(limit, n) different inputs. When the caps allow enough chunks, no module
      exceeds its cap; otherwise the result is a capped part of exactly the size the caps allow,
      then the rest in input order. */
  lemma {:induction false} CapsHold(
    chunks: seq<Chunk>, at: seq<nat>, options: Options, similarity: (string, string) -> real)
    requires Selection(chunks, at, options, similarity)
    ensures |at| == Min(options.limit, |chunks|) && Distinct(at)
    ensures var t := Capacity(chunks, options.maxPerModule);
      if t >= options.limit then
        forall key :: Chosen(chunks, at, key, |at|) <= options.maxPerModule
      else
        && t <= |at|
        && (forall key :: Chosen(chunks, at, key, t) <= options.maxPerModule)
        && Leftovers(chunks, at, t)
        && forall i, j :: t <= i < j < |at| ==> at[i] < at[j]
  {
    hide DiversityKey, Picked, Chosen, Capacity, Choice, OpenUntil, AnyOpen, Leftovers;
    var max := options.maxPerModule;
    SelectionIsFree(chunks, at, options, similarity);
    CapacityBound(chunks, max);
    var t := FirstClosed(chunks, at, max, |at|);
    OpenChoicesFit(chunks, at, t, options, similarity);
    forall key ensures Chosen(chunks, at, key, t) <= max {
      CappedWhileOpen(chunks, at, t, options, similarity, key);
    }
    RestIsLeftover(chunks, at, t, options, similarity);
    forall i, j | t <= i < j < |at| ensures at[i] < at[j] { LeftoversAscend(chunks, at, t, i, j); }
  }

  lemma {:induction false} RestIsLeftover(
    chunks: seq<Chunk>, at: seq<nat>, t: nat, options: Options, similarity: (string, string) -> real)
    requires Selection(chunks, at, options, similarity) && t <= |at|
    requires t < |at| ==> !AnyOpen(chunks, at, t, options.maxPerModule)
    ensures Leftovers(chunks, at, t)
  {
    hide DiversityKey, Picked, Chosen, Open, MmrAt;
    forall i | t <= i < |at|
      ensures !Picked(at, i, at[i]) && forall p :: 0 <= p < at[i] ==> Picked(at, i, p)
    {
      ClosedStays(chunks, at, t, i, options.maxPerModule);
      assert Choice(chunks, at, i, options, similarity);
    }
  }

  lemma {:induction false} OutputCounts(chunks: seq<Chunk>, at: seq<nat>, key: string, n: nat)
    requires Positions(chunks, at) && n <= |at|
    ensures Total(At(chunks, at), key, n) == Chosen(chunks, at, key, n)
  {
    hide DiversityKey;
    if n == 0 {
    } else {
      OutputCounts(chunks, at, key, n - 1);
    }
  }

  /** No module has more than `max` of the first `n` chunks. */
  ghost predicate WithinCap(selected: seq<Chunk>, n: nat, max: nat)
    requires n <= |selected|
  {
    forall key :: Total(selected, key, n) <= max
  }

  /** The same of the chunks that are returned. */
  lemma {:induction false} OutputKeepsCaps(
    chunks: seq<Chunk>, selected: seq<Chunk>, options: Options, similarity: (string, string) -> real)
    requires Selected(chunks, selected, options, similarity)
    ensures |selected| == Min(options.limit, |chunks|)
    ensures var t := Capacity(chunks, options.maxPerModule);
      if t < options.limit then t <= |selected| && WithinCap(selected, t, options.maxPerModule)
      else WithinCap(selected, |selected|, options.maxPerModule)
  {
    hide DiversityKey, Total, Chosen, Capacity, Choice, Leftovers;
    var at: seq<nat> :| Selection(chunks, at, options, similarity) && selected == At(chunks, at);
    var t := Capacity(chunks, options.maxPerModule);
    CapsHold(chunks, at, options, similarity);
    var n := if t < options.limit then t else |selected|;
    forall key ensures Total(selected, key, n) <= options.maxPerModule {
      OutputCounts(chunks, at, key, n);
    }
  }
}
