/** Reciprocal rank fusion, packages/retrieval/src/fusion.ts, over exact arithmetic. */
module Fusion {
  import opened Strings

  datatype Candidate = Candidate(chunkId: string, rank: nat)

  datatype Arm = Arm(candidates: seq<Candidate>, weight: real)

  datatype Entry = Entry(id: string, score: real)

  datatype Ranked = Ranked(chunkId: string, rank: nat, score: real)

  function Contribution(weight: real, k: nat, rank: nat): real
    requires k + rank > 0
  {
    weight / ((k + rank) as real)
  }

  /** No arm holds a candidate whose contribution would divide by zero. */
  predicate Divides(arms: seq<Arm>, k: nat) {
    forall i, j :: 0 <= i < |arms| && 0 <= j < |arms[i].candidates| ==> k + arms[i].candidates[j].rank > 0
  }

  predicate DividesIn(arm: Arm, k: nat) {
    forall j :: 0 <= j < |arm.candidates| ==> k + arm.candidates[j].rank > 0
  }

  // ---------- What fusion computes ----------

  /** What the first `n` candidates of an arm give to `id`. */
  function ArmScore(arm: Arm, k: nat, n: nat, id: string): real
    requires DividesIn(arm, k) && n <= |arm.candidates|
  {
    if n == 0 then 0.0
    else
      ArmScore(arm, k, n - 1, id)
      + if arm.candidates[n - 1].chunkId == id then Contribution(arm.weight, k, arm.candidates[n - 1].rank) else 0.0
  }

  function Score(arms: seq<Arm>, k: nat, n: nat, id: string): real
    requires Divides(arms, k) && n <= |arms|
  {
    if n == 0 then 0.0 else Score(arms, k, n - 1, id) + ArmScore(arms[n - 1], k, |arms[n - 1].candidates|, id)
  }

  /** The ids in the order in which they are first met. */
  function Meet(ids: seq<string>, candidates: seq<Candidate>, n: nat): seq<string>
    requires n <= |candidates|
  {
    if n == 0 then ids
    else
      var met := Meet(ids, candidates, n - 1);
      if candidates[n - 1].chunkId in met then met else met + [candidates[n - 1].chunkId]
  }

  function MeetAll(arms: seq<Arm>, n: nat): seq<string>
    requires n <= |arms|
  {
    if n == 0 then [] else Meet(MeetAll(arms, n - 1), arms[n - 1].candidates, |arms[n - 1].candidates|)
  }

  /** Position of the new entry: after everything that scores at least as much. */
  function Place(entries: seq<Entry>, x: Entry): (p: nat)
    ensures p <= |entries|
    ensures forall i :: 0 <= i < p ==> entries[i].score >= x.score
    ensures p < |entries| ==> entries[p].score < x.score
  {
    if entries == [] || entries[0].score < x.score then 0 else 1 + Place(entries[1..], x)
  }

  function Slot(entries: seq<Entry>, x: Entry): seq<Entry> {
    entries[..Place(entries, x)] + [x] + entries[Place(entries, x)..]
  }

  /** `entries.sort((a, b) => b.score - a.score)`, which keeps the order of equal scores. */
  function SortByScore(entries: seq<Entry>, n: nat): (r: seq<Entry>)
    requires n <= |entries|
    ensures |r| == n
  {
    if n == 0 then [] else Slot(SortByScore(entries, n - 1), entries[n - 1])
  }

  function Entries(arms: seq<Arm>, k: nat): (r: seq<Entry>)
    requires Divides(arms, k)
    ensures |r| == |MeetAll(arms, |arms|)|
    ensures forall i :: 0 <= i < |r| ==>
      r[i] == Entry(MeetAll(arms, |arms|)[i], Score(arms, k, |arms|, MeetAll(arms, |arms|)[i]))
  {
    var ids := MeetAll(arms, |arms|);
    seq(|ids|, i requires 0 <= i < |ids| => Entry(ids[i], Score(arms, k, |arms|, ids[i])))
  }

  function FusedOrder(arms: seq<Arm>, k: nat): seq<Entry>
    requires Divides(arms, k)
  {
    SortByScore(Entries(arms, k), |Entries(arms, k)|)
  }

  function Fused(arms: seq<Arm>, k: nat, limit: nat): (r: seq<Ranked>)
    requires Divides(arms, k)
    ensures |r| == if limit < |FusedOrder(arms, k)| then limit else |FusedOrder(arms, k)|
    ensures forall i :: 0 <= i < |r| ==>
      r[i] == Ranked(FusedOrder(arms, k)[i].id, i + 1, FusedOrder(arms, k)[i].score)
  {
    var order := FusedOrder(arms, k);
    var kept := if limit < |order| then limit else |order|;
    seq(kept, i requires 0 <= i < kept => Ranked(order[i].id, i + 1, order[i].score))
  }

  // ---------- The source's loop ----------

  /** A JavaScript map keeps its keys in the order of their first insertion. */
  datatype Scores = Scores(keys: seq<string>, values: map<string, real>)

  function Of(scores: Scores, id: string): real {
    if id in scores.values then scores.values[id] else 0.0
  }

  ghost predicate Holds(scores: Scores) {
    forall id :: id in scores.keys <==> id in scores.values
  }

  function Add(scores: Scores, id: string, amount: real): Scores {
    Scores(
      if id in scores.values then scores.keys else scores.keys + [id],
      scores.values[id := Of(scores, id) + amount])
  }

  method ReciprocalRankFusion(arms: seq<Arm>, k: nat, limit: nat) returns (fused: seq<Ranked>)
    requires Divides(arms, k)
    ensures fused == Fused(arms, k, limit)
  {
    var scores := Scores([], map[]);
    for n := 0 to |arms|
      invariant Holds(scores) && scores.keys == MeetAll(arms, n)
      invariant forall id :: Of(scores, id) == Score(arms, k, n, id)
    {
      scores := AddArm(arms[n], k, scores);
    }
    assert scores.keys == MeetAll(arms, |arms|);
    var entries := seq(|scores.keys|, i requires 0 <= i < |scores.keys| => Entry(scores.keys[i], Of(scores, scores.keys[i])));
    assert entries == Entries(arms, k);
    var sorted := SortByScore(entries, |entries|);
    var kept := sorted[..if limit < |sorted| then limit else |sorted|];
    fused := seq(|kept|, i requires 0 <= i < |kept| => Ranked(kept[i].id, i + 1, kept[i].score));
  }

  method AddArm(arm: Arm, k: nat, before: Scores) returns (scores: Scores)
    requires DividesIn(arm, k) && Holds(before)
    ensures Holds(scores) && scores.keys == Meet(before.keys, arm.candidates, |arm.candidates|)
    ensures forall id :: Of(scores, id) == Of(before, id) + ArmScore(arm, k, |arm.candidates|, id)
  {
    scores := before;
    for n := 0 to |arm.candidates|
      invariant Holds(scores) && scores.keys == Meet(before.keys, arm.candidates, n)
      invariant forall id :: Of(scores, id) == Of(before, id) + ArmScore(arm, k, n, id)
    {
      var candidate := arm.candidates[n];
      scores := Add(scores, candidate.chunkId, Contribution(arm.weight, k, candidate.rank));
    }
  }

  // ---------- The sort ----------

  ghost predicate Before(entries: seq<Entry>, x: Entry, y: Entry) {
    exists p, q :: 0 <= p < q < |entries| && entries[p] == x && entries[q] == y
  }

  predicate Descending(entries: seq<Entry>) {
    forall i, j :: 0 <= i < j < |entries| ==> entries[i].score >= entries[j].score
  }

  lemma {:induction false} SlotAt(entries: seq<Entry>, x: Entry, i: nat)
    requires i <= |entries|
    ensures var r, p := Slot(entries, x), Place(entries, x);
      |r| == |entries| + 1 && r[i] == if i < p then entries[i] else if i == p then x else entries[i - 1]
  {
    hide Place;
  }

  lemma {:induction false} SlotDescending(entries: seq<Entry>, x: Entry)
    requires Descending(entries)
    ensures Descending(Slot(entries, x))
  {
    hide Slot;
    var r, p := Slot(entries, x), Place(entries, x);
    SlotAt(entries, x, 0);
    forall i, j | 0 <= i < j < |r| ensures r[i].score >= r[j].score {
      SlotAt(entries, x, i);
      SlotAt(entries, x, j);
    }
  }

  lemma {:induction false} SlotKeeps(entries: seq<Entry>, x: Entry, a: Entry, b: Entry)
    requires Before(entries, a, b)
    ensures Before(Slot(entries, x), a, b)
  {
    hide Slot, Place;
    var p, q :| 0 <= p < q < |entries| && entries[p] == a && entries[q] == b;
    var at := Place(entries, x);
    SlotAt(entries, x, if p < at then p else p + 1);
    SlotAt(entries, x, if q < at then q else q + 1);
  }

  lemma {:induction false} SlotNew(entries: seq<Entry>, x: Entry, at: nat)
    requires Descending(entries) && at < |entries|
    ensures if entries[at].score >= x.score then Before(Slot(entries, x), entries[at], x)
            else Before(Slot(entries, x), x, entries[at])
  {
    hide Slot;
    var p := Place(entries, x);
    SlotAt(entries, x, p);
    SlotAt(entries, x, if at < p then at else at + 1);
  }

  lemma {:induction false} SlotIndex(entries: seq<Entry>, x: Entry, a: Entry)
    requires a in entries || a == x
    ensures a in Slot(entries, x)
  {
    hide Slot, Place;
    var p := Place(entries, x);
    SlotAt(entries, x, p);
    if a != x {
      var i :| 0 <= i < |entries| && entries[i] == a;
      SlotAt(entries, x, if i < p then i else i + 1);
    }
  }

  lemma {:induction false} SortHolds(entries: seq<Entry>, n: nat, i: nat)
    requires i < n <= |entries|
    ensures entries[i] in SortByScore(entries, n)
  {
    hide Slot;
    if i >= n - 1 {
    } else {
      SortHolds(entries, n - 1, i);
    }
    SlotIndex(SortByScore(entries, n - 1), entries[n - 1], entries[i]);
  }

  /** The higher score comes first, and of equal scores the one that stood first. */
  lemma {:induction false} SortOrders(entries: seq<Entry>, n: nat)
    requires n <= |entries|
    ensures Descending(SortByScore(entries, n))
    ensures forall i, j :: 0 <= i < j < n ==>
      if entries[i].score >= entries[j].score then Before(SortByScore(entries, n), entries[i], entries[j])
      else Before(SortByScore(entries, n), entries[j], entries[i])
  {
    hide Slot, Before, Descending;
    if n == 0 {
      NothingSorted(entries);
    } else {
      var front, x := SortByScore(entries, n - 1), entries[n - 1];
      SortOrders(entries, n - 1);
      SlotDescending(front, x);
      forall i, j | 0 <= i < j < n
        ensures if entries[i].score >= entries[j].score then Before(SortByScore(entries, n), entries[i], entries[j])
                else Before(SortByScore(entries, n), entries[j], entries[i])
      {
        if j == n - 1 {
          SortHolds(entries, n - 1, i);
          var at :| 0 <= at < |front| && front[at] == entries[i];
          SlotNew(front, x, at);
        } else if entries[i].score >= entries[j].score {
          SlotKeeps(front, x, entries[i], entries[j]);
        } else {
          SlotKeeps(front, x, entries[j], entries[i]);
        }
      }
    }
  }

  lemma {:induction false} NothingSorted(entries: seq<Entry>)
    ensures Descending(SortByScore(entries, 0))
  {
  }

  // ---------- Dominance ----------

  /** Ranks grow strictly along the arm and no chunk is listed twice. */
  predicate Listed(arm: Arm) {
    forall i, j :: 0 <= i < j < |arm.candidates| ==>
      arm.candidates[i].rank < arm.candidates[j].rank && arm.candidates[i].chunkId != arm.candidates[j].chunkId
  }

  /** Wherever the arm lists `b`, it lists `a` earlier. */
  predicate Dominates(arm: Arm, a: string, b: string) {
    forall j :: 0 <= j < |arm.candidates| && arm.candidates[j].chunkId == b ==>
      exists i :: 0 <= i < j && arm.candidates[i].chunkId == a
  }

  lemma {:induction false} ArmScoreOnce(arm: Arm, k: nat, n: nat, id: string)
    requires DividesIn(arm, k) && Listed(arm) && n <= |arm.candidates|
    ensures forall i :: 0 <= i < n && arm.candidates[i].chunkId == id ==>
      ArmScore(arm, k, n, id) == Contribution(arm.weight, k, arm.candidates[i].rank)
    ensures (forall i :: 0 <= i < n ==> arm.candidates[i].chunkId != id) ==> ArmScore(arm, k, n, id) == 0.0
  {
    hide Contribution;
    if n == 0 {
    } else {
      ArmScoreOnce(arm, k, n - 1, id);
    }
  }

  lemma {:induction false} LowerRankGivesMore(weight: real, k: nat, r: nat, s: nat)
    requires weight >= 0.0 && k + r > 0 && r < s
    ensures Contribution(weight, k, r) >= Contribution(weight, k, s) >= 0.0
  {
    var x, y := (k + r) as real, (k + s) as real;
    QuotientOrder(weight, x, y);
  }

  lemma {:induction false} QuotientOrder(w: real, x: real, y: real)
    requires w >= 0.0 && 0.0 < x < y
    ensures w / x >= w / y >= 0.0
  {
    var p, q := w / x, w / y;
    assert p * x == w && q * y == w;
    CancelFactor(q, 0.0, y);
    Scale(q, x, y);
    CancelFactor(p, q, x);
  }

  lemma {:induction false} CancelFactor(p: real, q: real, x: real)
    requires p * x >= q * x && x > 0.0
    ensures p >= q
  {
  }

  lemma {:induction false} Scale(q: real, x: real, y: real)
    requires x < y && q >= 0.0
    ensures q * x <= q * y
  {
  }

  lemma {:induction false} ArmDominance(arm: Arm, k: nat, a: string, b: string)
    requires DividesIn(arm, k) && Listed(arm) && Dominates(arm, a, b) && arm.weight >= 0.0
    ensures ArmScore(arm, k, |arm.candidates|, a) >= ArmScore(arm, k, |arm.candidates|, b)
  {
    hide Contribution, ArmScore;
    var n := |arm.candidates|;
    ArmScoreOnce(arm, k, n, a);
    ArmScoreOnce(arm, k, n, b);
    if j :| 0 <= j < n && arm.candidates[j].chunkId == b {
      var i :| 0 <= i < j && arm.candidates[i].chunkId == a;
      LowerRankGivesMore(arm.weight, k, arm.candidates[i].rank, arm.candidates[j].rank);
    } else if i :| 0 <= i < n && arm.candidates[i].chunkId == a {
      LowerRankGivesMore(arm.weight, k, arm.candidates[i].rank, arm.candidates[i].rank + 1);
    }
  }

  lemma {:induction false} ScoreDominance(arms: seq<Arm>, k: nat, n: nat, a: string, b: string)
    requires Divides(arms, k) && n <= |arms|
    requires forall i :: 0 <= i < |arms| ==> Listed(arms[i]) && Dominates(arms[i], a, b) && arms[i].weight >= 0.0
    ensures Score(arms, k, n, a) >= Score(arms, k, n, b)
  {
    hide ArmScore, Listed, Dominates;
    if n == 0 {
    } else {
      ScoreDominance(arms, k, n - 1, a, b);
      ArmDominance(arms[n - 1], k, a, b);
    }
  }

  /** Whenever the list holds `b`, it holds `a` at a smaller index. */
  ghost predicate Ahead(ids: seq<string>, a: string, b: string) {
    forall q :: 0 <= q < |ids| && ids[q] == b ==> exists p :: 0 <= p < q && ids[p] == a
  }

  lemma {:induction false} AheadAppend(ids: seq<string>, x: string, a: string, b: string)
    requires Ahead(ids, a, b) && (x == b ==> a in ids)
    ensures Ahead(ids + [x], a, b)
  {
    var r := ids + [x];
    forall q | 0 <= q < |r| && r[q] == b ensures exists p :: 0 <= p < q && r[p] == a {
      if q < |ids| {
        assert ids[q] == b;
        var p :| 0 <= p < q && ids[p] == a;
        assert r[p] == a;
      } else {
        var p :| 0 <= p < |ids| && ids[p] == a;
        assert r[p] == a;
      }
    }
  }

  lemma {:induction false} MeetHolds(ids: seq<string>, candidates: seq<Candidate>, n: nat)
    requires n <= |candidates| && Distinct(ids)
    ensures Distinct(Meet(ids, candidates, n))
    ensures forall x :: x in Meet(ids, candidates, n) <==>
      x in ids || exists i :: 0 <= i < n && candidates[i].chunkId == x
  {
    if n == 0 {
    } else {
      MeetHolds(ids, candidates, n - 1);
      var met, last := Meet(ids, candidates, n - 1), candidates[n - 1].chunkId;
      forall x ensures x in Meet(ids, candidates, n) <==> x in ids || exists i :: 0 <= i < n && candidates[i].chunkId == x {
        if x == last { assert candidates[n - 1].chunkId == x; }
      }
    }
  }

  lemma {:induction false} MeetAhead(ids: seq<string>, arm: Arm, n: nat, a: string, b: string)
    requires n <= |arm.candidates| && Ahead(ids, a, b) && Distinct(ids) && Dominates(arm, a, b)
    ensures Ahead(Meet(ids, arm.candidates, n), a, b)
  {
    hide Ahead;
    if n == 0 {
    } else {
      MeetAhead(ids, arm, n - 1, a, b);
      MeetHolds(ids, arm.candidates, n - 1);
      var met, last := Meet(ids, arm.candidates, n - 1), arm.candidates[n - 1].chunkId;
      if last == b {
        var i :| 0 <= i < n - 1 && arm.candidates[i].chunkId == a;
        assert a in met;
      }
      AheadAppend(met, last, a, b);
    }
  }

  lemma {:induction false} MeetAllAhead(arms: seq<Arm>, n: nat, a: string, b: string)
    requires n <= |arms| && forall i :: 0 <= i < |arms| ==> Dominates(arms[i], a, b)
    ensures Ahead(MeetAll(arms, n), a, b) && Distinct(MeetAll(arms, n))
  {
    hide Dominates;
    if n == 0 {
    } else {
      MeetAllAhead(arms, n - 1, a, b);
      MeetHolds(MeetAll(arms, n - 1), arms[n - 1].candidates, |arms[n - 1].candidates|);
      MeetAhead(MeetAll(arms, n - 1), arms[n - 1], |arms[n - 1].candidates|, a, b);
    }
  }

  /** If every arm that lists `b` lists `a` earlier, then `a` comes before `b` in the fused order,
      so no limit keeps `b` and cuts `a`. */
  lemma {:induction false} FusionRespectsDominance(arms: seq<Arm>, k: nat, limit: nat, a: string, b: string)
    requires Divides(arms, k)
    requires forall i :: 0 <= i < |arms| ==> Listed(arms[i]) && Dominates(arms[i], a, b) && arms[i].weight >= 0.0
    ensures forall q :: 0 <= q < |Fused(arms, k, limit)| && Fused(arms, k, limit)[q].chunkId == b ==>
      exists p :: 0 <= p < q && Fused(arms, k, limit)[p].chunkId == a
  {
    hide Listed, Dominates, Score, MeetAll;
    var ids, entries, order := MeetAll(arms, |arms|), Entries(arms, k), FusedOrder(arms, k);
    ScoreDominance(arms, k, |arms|, a, b);
    MeetAllAhead(arms, |arms|, a, b);
    forall q | 0 <= q < |Fused(arms, k, limit)| && Fused(arms, k, limit)[q].chunkId == b
      ensures exists p :: 0 <= p < q && Fused(arms, k, limit)[p].chunkId == a
    {
      OrderAhead(entries, ids, a, b, q);
      var p :| 0 <= p < q && order[p].id == a;
      assert Fused(arms, k, limit)[p].chunkId == a;
    }
  }

  ghost predicate Names(entries: seq<Entry>, ids: seq<string>) {
    |entries| == |ids| && forall i :: 0 <= i < |ids| ==> entries[i].id == ids[i]
  }

  lemma {:induction false} OrderAhead(entries: seq<Entry>, ids: seq<string>, a: string, b: string, q: nat)
    requires Names(entries, ids) && Distinct(ids) && Ahead(ids, a, b)
    requires forall i, j :: 0 <= i < |ids| && 0 <= j < |ids| && ids[i] == a && ids[j] == b ==> entries[i].score >= entries[j].score
    requires q < |entries| && SortByScore(entries, |entries|)[q].id == b
    ensures exists p :: 0 <= p < q && SortByScore(entries, |entries|)[p].id == a
  {
    hide SortByScore, Distinct;
    var order := SortByScore(entries, |entries|);
    SortOrders(entries, |entries|);
    SortDistinct(entries, ids);
    SortFrom(entries, |entries|, q);
    var j :| 0 <= j < |entries| && entries[j] == order[q];
    var i :| 0 <= i < j && ids[i] == a;
    assert Before(order, entries[i], entries[j]);
    var p, q' :| 0 <= p < q' < |order| && order[p] == entries[i] && order[q'] == entries[j];
    assert q' == q;
  }

  lemma {:induction false} SortFrom(entries: seq<Entry>, n: nat, q: nat)
    requires q < n <= |entries|
    ensures exists j :: 0 <= j < n && entries[j] == SortByScore(entries, n)[q]
  {
    hide Slot, Place;
    var front, x := SortByScore(entries, n - 1), entries[n - 1];
    SlotAt(front, x, q);
    var p := Place(front, x);
    if q != p {
      var at := if q < p then q else q - 1;
      SortFrom(entries, n - 1, at);
      var j :| 0 <= j < n - 1 && entries[j] == front[at];
      assert entries[j] == SortByScore(entries, n)[q];
    } else {
      assert entries[n - 1] == SortByScore(entries, n)[q];
    }
  }

  ghost predicate UniqueEntries(entries: seq<Entry>) {
    forall i, j :: 0 <= i < j < |entries| ==> entries[i].id != entries[j].id
  }

  lemma {:induction false} SlotDistinct(entries: seq<Entry>, x: Entry)
    requires UniqueEntries(entries) && forall i :: 0 <= i < |entries| ==> entries[i].id != x.id
    ensures UniqueEntries(Slot(entries, x))
  {
    hide Slot, Place;
    var r := Slot(entries, x);
    SlotAt(entries, x, 0);
    forall i, j | 0 <= i < j < |r| ensures r[i].id != r[j].id {
      SlotAt(entries, x, i);
      SlotAt(entries, x, j);
    }
  }

  lemma {:induction false} SortDistinctUpTo(entries: seq<Entry>, n: nat)
    requires n <= |entries| && UniqueEntries(entries)
    ensures UniqueEntries(SortByScore(entries, n))
  {
    hide Slot;
    if n == 0 {
    } else {
      SortDistinctUpTo(entries, n - 1);
      var front, x := SortByScore(entries, n - 1), entries[n - 1];
      forall i | 0 <= i < |front| ensures front[i].id != x.id {
        SortFrom(entries, n - 1, i);
      }
      SlotDistinct(front, x);
    }
  }

  lemma {:induction false} SortDistinct(entries: seq<Entry>, ids: seq<string>)
    requires Names(entries, ids) && Distinct(ids)
    ensures UniqueEntries(SortByScore(entries, |entries|))
  {
    SortDistinctUpTo(entries, |entries|);
  }
}
