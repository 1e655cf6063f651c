/** The scores of reciprocal rank fusion, written out, packages/retrieval/src/fusion.ts. */
module FusionScores {
  import opened Strings
  import opened Fusion

  /** What a list of candidates gives to `id`: the weight over constant and rank, for each mention. */
  function Given(candidates: seq<Candidate>, weight: real, k: nat, id: string): real
    requires forall c :: c in candidates ==> k + c.rank > 0
  {
    if candidates == [] then 0.0
    else
      (if candidates[0].chunkId == id then weight / ((candidates[0].rank + k) as real) else 0.0)
      + Given(candidates[1..], weight, k, id)
  }

  function Total(arms: seq<Arm>, k: nat, id: string): real
    requires forall arm :: arm in arms ==> forall c :: c in arm.candidates ==> k + c.rank > 0
  {
    if arms == [] then 0.0 else Given(arms[0].candidates, arms[0].weight, k, id) + Total(arms[1..], k, id)
  }

  lemma {:induction false} GivenLast(front: seq<Candidate>, last: Candidate, weight: real, k: nat, id: string)
    requires forall c :: c in front + [last] ==> k + c.rank > 0
    ensures (forall c :: c in front ==> k + c.rank > 0) && k + last.rank > 0
    ensures Given(front + [last], weight, k, id)
         == Given(front, weight, k, id) + if last.chunkId == id then weight / ((last.rank + k) as real) else 0.0
  {
    var all := front + [last];
    assert last == all[|front|] && forall c :: c in front ==> c in all;
    if front == [] {
      assert all == [last] && all[1..] == [];
    } else {
      assert all[1..] == front[1..] + [last] && all[0] == front[0];
      assert forall c :: c in all[1..] ==> c in all;
      GivenLast(front[1..], last, weight, k, id);
    }
  }

  lemma {:induction false} ArmGives(arm: Arm, k: nat, n: nat, id: string)
    requires DividesIn(arm, k) && n <= |arm.candidates|
    ensures forall c :: c in arm.candidates[..n] ==> k + c.rank > 0
    ensures ArmScore(arm, k, n, id) == Given(arm.candidates[..n], arm.weight, k, id)
  {
    if n == 0 {
    } else {
      ArmGives(arm, k, n - 1, id);
      assert arm.candidates[..n] == arm.candidates[..n - 1] + [arm.candidates[n - 1]];
      GivenLast(arm.candidates[..n - 1], arm.candidates[n - 1], arm.weight, k, id);
    }
  }

  lemma {:induction false} TotalLast(front: seq<Arm>, last: Arm, k: nat, id: string)
    requires forall arm :: arm in front + [last] ==> forall c :: c in arm.candidates ==> k + c.rank > 0
    ensures forall arm :: arm in front ==> forall c :: c in arm.candidates ==> k + c.rank > 0
    ensures forall c :: c in last.candidates ==> k + c.rank > 0
    ensures Total(front + [last], k, id) == Total(front, k, id) + Given(last.candidates, last.weight, k, id)
  {
    hide Given;
    var all := front + [last];
    assert last == all[|front|] && forall arm :: arm in front ==> arm in all;
    if front == [] {
      assert all == [last] && all[1..] == [];
    } else {
      assert all[1..] == front[1..] + [last] && all[0] == front[0];
      assert forall arm :: arm in all[1..] ==> arm in all;
      TotalLast(front[1..], last, k, id);
    }
  }

  /** A chunk's score is the sum, over all arms and all its mentions in them, of weight over constant plus rank. */
  lemma {:induction false} ScoreIs(arms: seq<Arm>, k: nat, n: nat, id: string)
    requires Divides(arms, k) && n <= |arms|
    ensures forall arm :: arm in arms[..n] ==> forall c :: c in arm.candidates ==> k + c.rank > 0
    ensures Score(arms, k, n, id) == Total(arms[..n], k, id)
  {
    hide Given, ArmScore;
    if n == 0 {
    } else {
      var last := arms[n - 1];
      ScoreIs(arms, k, n - 1, id);
      ArmGives(last, k, |last.candidates|, id);
      assert last.candidates[..|last.candidates|] == last.candidates;
      assert arms[..n] == arms[..n - 1] + [last];
      TotalLast(arms[..n - 1], last, k, id);
    }
  }

  // ---------- What is returned ----------

  predicate Lists(arm: Arm, id: string) { exists j :: 0 <= j < |arm.candidates| && arm.candidates[j].chunkId == id }

  /** One of the first `n` arms lists the chunk. */
  predicate Listing(arms: seq<Arm>, n: nat, id: string)
    requires n <= |arms|
  {
    exists i :: 0 <= i < n && Lists(arms[i], id)
  }

  lemma {:induction false} MetAre(arms: seq<Arm>, n: nat, id: string)
    requires n <= |arms|
    ensures Distinct(MeetAll(arms, n)) && (id in MeetAll(arms, n) <==> Listing(arms, n, id))
  {
    hide Lists, Distinct;
    if n == 0 {
      NoIds();
    } else {
      MetAre(arms, n - 1, id);
      ArmMet(MeetAll(arms, n - 1), arms[n - 1], id);
      if Listing(arms, n, id) {
        var i :| 0 <= i < n && Lists(arms[i], id);
        assert i < n - 1 ==> Listing(arms, n - 1, id);
      }
      if Listing(arms, n - 1, id) {
        var i :| 0 <= i < n - 1 && Lists(arms[i], id);
        assert Listing(arms, n, id);
      }
    }
  }

  lemma {:induction false} NoIds()
    ensures Distinct<string>([])
  {
  }

  lemma {:induction false} ArmMet(ids: seq<string>, arm: Arm, id: string)
    requires Distinct(ids)
    ensures var met := Meet(ids, arm.candidates, |arm.candidates|); Distinct(met) && (id in met <==> id in ids || Lists(arm, id))
  {
    MeetHolds(ids, arm.candidates, |arm.candidates|);
  }

  /** Each returned chunk is listed by an arm and stands with its total score; scores do not rise. */
  lemma {:induction false} FusedAre(arms: seq<Arm>, k: nat, limit: nat, q: nat)
    requires Divides(arms, k) && q < |Fused(arms, k, limit)|
    ensures forall arm :: arm in arms ==> forall c :: c in arm.candidates ==> k + c.rank > 0
    ensures var r := Fused(arms, k, limit);
      && r[q].rank == q + 1 && Listing(arms, |arms|, r[q].chunkId) && r[q].score == Total(arms, k, r[q].chunkId)
      && (forall p :: 0 <= p < q ==> r[p].score >= r[q].score && r[p].chunkId != r[q].chunkId)
  {
    hide Score, Total, MeetAll, Listing, Distinct;
    var entries, ids := Entries(arms, k), MeetAll(arms, |arms|);
    ScoreOf(arms, k, Fused(arms, k, limit)[q].chunkId);
    SortFrom(entries, |entries|, q);
    var j :| 0 <= j < |entries| && entries[j] == FusedOrder(arms, k)[q];
    assert ids[j] in ids;
    MetAre(arms, |arms|, ids[j]);
    SortOrders(entries, |entries|);
    SortDistinct(entries, ids);
  }

  lemma {:induction false} ScoreOf(arms: seq<Arm>, k: nat, id: string)
    requires Divides(arms, k)
    ensures forall arm :: arm in arms ==> forall c :: c in arm.candidates ==> k + c.rank > 0
    ensures Score(arms, k, |arms|, id) == Total(arms, k, id)
  {
    hide Score, Total;
    ScoreIs(arms, k, |arms|, id);
    assert arms[..|arms|] == arms;
  }

  /** A listed chunk is missing only when the list is full of chunks that score as much or more. */
  lemma {:induction false} TopScores(arms: seq<Arm>, k: nat, limit: nat, id: string)
    requires Divides(arms, k) && Listing(arms, |arms|, id)
    ensures forall arm :: arm in arms ==> forall c :: c in arm.candidates ==> k + c.rank > 0
    ensures var r := Fused(arms, k, limit);
      || (exists q :: 0 <= q < |r| && r[q].chunkId == id)
      || (|r| == limit && forall q :: 0 <= q < |r| ==> r[q].score >= Total(arms, k, id))
  {
    hide Score, Total, MeetAll, Listing, Distinct;
    var entries, ids, order := Entries(arms, k), MeetAll(arms, |arms|), FusedOrder(arms, k);
    ScoreOf(arms, k, id);
    MetAre(arms, |arms|, id);
    var i :| 0 <= i < |ids| && ids[i] == id;
    SortHolds(entries, |entries|, i);
    var at :| 0 <= at < |order| && order[at] == entries[i];
    SortOrders(entries, |entries|);
    if at < limit { assert Fused(arms, k, limit)[at].chunkId == id; }
  }
}
