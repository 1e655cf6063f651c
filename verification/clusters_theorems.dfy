/** Greedy clustering is a covering and a packing, packages/chunking/src/dedupe.ts. */
module ClustersTheorems {
  import opened Strings
  import opened Dedupe
  import opened Clusters

  predicate UniqueChunks(chunks: seq<Chunk>) {
    forall i, j :: 0 <= i < j < |chunks| ==> chunks[i].id != chunks[j].id
  }

  ghost predicate HasId(members: seq<Chunk>, id: string) {
    exists k :: 0 <= k < |members| && members[k].id == id
  }

  predicate Near(fingerprints: map<string, bv64>, threshold: nat, a: Chunk, b: Chunk) {
    a.id in fingerprints && b.id in fingerprints && Distance(fingerprints[a.id], fingerprints[b.id]) <= threshold
  }

  // ---------- One group ----------

  ghost predicate GatheredWell(
    eligible: seq<Chunk>, fingerprints: map<string, bv64>, threshold: nat, leader: Chunk, seen: set<string>, n: nat, g: Gathered)
    requires n <= |eligible|
  {
    && (forall id :: id in g.seen <==> id in seen || HasId(g.members, id))
    && (forall k :: 0 <= k < |g.members| ==>
          (k == 0 || (g.members[k] in eligible && Near(fingerprints, threshold, leader, g.members[k]))))
    && UniqueChunks(g.members)
    && (forall k :: 0 <= k < |g.members| ==> g.members[k].id !in seen)
    && (forall j :: 0 <= j < n ==> eligible[j].id in g.seen || !Near(fingerprints, threshold, leader, eligible[j]))
  }

  lemma {:induction false} HasIdAppend(members: seq<Chunk>, c: Chunk, id: string)
    ensures HasId(members + [c], id) <==> HasId(members, id) || c.id == id
  {
    var r := members + [c];
    assert r[|members|] == c;
    if HasId(members, id) {
      var k :| 0 <= k < |members| && members[k].id == id;
      assert r[k].id == id;
    }
    if HasId(r, id) && c.id != id {
      var k :| 0 <= k < |r| && r[k].id == id;
      assert members[k].id == id;
    }
  }

  lemma {:induction false} LeaderGathered(
    eligible: seq<Chunk>, fingerprints: map<string, bv64>, threshold: nat, leader: Chunk, seen: set<string>)
    requires leader.id in fingerprints && leader.id !in seen
    ensures GatheredWell(
      eligible, fingerprints, threshold, leader, seen, 0, Gather(eligible, fingerprints, threshold, leader, seen, 0))
  {
    hide Distance, HasId;
    forall id ensures HasId([leader], id) <==> id == leader.id {
      HasIdAppend([], leader, id);
      assert [] + [leader] == [leader];
      NoId(id);
    }
  }

  /** One more chunk, which joins the group or not. */
  lemma {:induction false} OneGathered(
    eligible: seq<Chunk>, fingerprints: map<string, bv64>, threshold: nat, leader: Chunk, seen: set<string>, n: nat, g: Gathered)
    requires n < |eligible| && leader.id in fingerprints && eligible[n].id in fingerprints
    requires GatheredWell(eligible, fingerprints, threshold, leader, seen, n, g)
    ensures var c := eligible[n];
      var joins := Joins(c, fingerprints[leader.id], fingerprints, threshold, g.seen);
      GatheredWell(eligible, fingerprints, threshold, leader, seen, n + 1,
                   if joins then Gathered(g.members + [c], g.seen + {c.id}) else g)
  {
    hide Distance, HasId, UniqueChunks;
    var c := eligible[n];
    if Joins(c, fingerprints[leader.id], fingerprints, threshold, g.seen) {
      forall id ensures HasId(g.members + [c], id) <==> HasId(g.members, id) || c.id == id {
        HasIdAppend(g.members, c, id);
      }
      NewIdStaysDistinct(g.members, c);
    }
  }

  lemma {:induction false} GatherWorks(
    eligible: seq<Chunk>, fingerprints: map<string, bv64>, threshold: nat, leader: Chunk, seen: set<string>, n: nat)
    requires n <= |eligible| && leader.id in fingerprints && leader.id !in seen
    requires forall i :: 0 <= i < |eligible| ==> eligible[i].id in fingerprints
    ensures GatheredWell(
      eligible, fingerprints, threshold, leader, seen, n, Gather(eligible, fingerprints, threshold, leader, seen, n))
  {
    hide Distance, HasId, GatheredWell, Joins;
    if n == 0 {
      LeaderGathered(eligible, fingerprints, threshold, leader, seen);
    } else {
      GatherWorks(eligible, fingerprints, threshold, leader, seen, n - 1);
      OneGathered(eligible, fingerprints, threshold, leader, seen, n - 1,
                  Gather(eligible, fingerprints, threshold, leader, seen, n - 1));
    }
  }

  lemma {:induction false} NoId(id: string)
    ensures !HasId([], id)
  {
  }

  lemma {:induction false} NewIdStaysDistinct(members: seq<Chunk>, c: Chunk)
    requires UniqueChunks(members) && !HasId(members, c.id)
    ensures UniqueChunks(members + [c])
  {
  }

  // ---------- All groups ----------

  ghost predicate InGroups(groups: seq<seq<Chunk>>, id: string) {
    exists g :: 0 <= g < |groups| && HasId(groups[g], id)
  }

  /** Groups have a leader, hold eligible chunks near it, and share no id. */
  ghost predicate GoodGroups(eligible: seq<Chunk>, fingerprints: map<string, bv64>, threshold: nat, groups: seq<seq<Chunk>>) {
    && (forall g :: 0 <= g < |groups| ==> groups[g] != [] && UniqueChunks(groups[g]))
    && (forall g, k :: 0 <= g < |groups| && 0 <= k < |groups[g]| ==>
          groups[g][k] in eligible && (k == 0 || Near(fingerprints, threshold, groups[g][0], groups[g][k])))
    && (forall g, h, id :: 0 <= g < h < |groups| ==> !(HasId(groups[g], id) && HasId(groups[h], id)))
    && (forall g, h :: 0 <= g < h < |groups| ==> !Near(fingerprints, threshold, groups[g][0], groups[h][0]))
  }

  /** Whatever is not in a group yet is far from every leader so far. */
  ghost predicate Covers(
    eligible: seq<Chunk>, fingerprints: map<string, bv64>, threshold: nat, n: nat, groups: seq<seq<Chunk>>, seen: set<string>)
    requires n <= |eligible|
  {
    && (forall id :: id in seen <==> InGroups(groups, id))
    && (forall i :: 0 <= i < n ==> eligible[i].id in seen)
    && (forall g, j :: 0 <= g < |groups| && 0 <= j < |eligible| && groups[g] != [] ==>
          eligible[j].id in seen || !Near(fingerprints, threshold, groups[g][0], eligible[j]))
  }

  lemma {:induction false} InGroupsAppend(groups: seq<seq<Chunk>>, members: seq<Chunk>, id: string)
    ensures InGroups(groups + [members], id) <==> InGroups(groups, id) || HasId(members, id)
  {
    hide HasId;
    var r := groups + [members];
    assert r[|groups|] == members;
    if InGroups(groups, id) {
      var g :| 0 <= g < |groups| && HasId(groups[g], id);
      assert HasId(r[g], id);
    }
    if InGroups(r, id) && !HasId(members, id) {
      var g :| 0 <= g < |r| && HasId(r[g], id);
      assert HasId(groups[g], id);
    }
  }

  lemma {:induction false} CoversGrow(
    eligible: seq<Chunk>, fingerprints: map<string, bv64>, threshold: nat, n: nat, before: Groups, g: Gathered)
    requires n < |eligible| && Covers(eligible, fingerprints, threshold, n, before.groups, before.seen)
    requires g.members != [] && g.members[0] == eligible[n]
    requires GatheredWell(eligible, fingerprints, threshold, eligible[n], before.seen, |eligible|, g)
    ensures Covers(eligible, fingerprints, threshold, n + 1, before.groups + [g.members], g.seen)
  {
    hide Near, HasId, UniqueChunks, InGroups;
    var groups := before.groups + [g.members];
    HeadHasId(g.members);
    forall id ensures id in g.seen <==> InGroups(groups, id) { InGroupsAppend(before.groups, g.members, id); }
  }

  lemma {:induction false} AddGroup(
    eligible: seq<Chunk>, fingerprints: map<string, bv64>, threshold: nat, n: nat, before: Groups, g: Gathered)
    requires n < |eligible| && eligible[n].id !in before.seen && eligible[n].id in fingerprints
    requires GoodGroups(eligible, fingerprints, threshold, before.groups)
    requires Covers(eligible, fingerprints, threshold, n, before.groups, before.seen)
    requires g.members != [] && g.members[0] == eligible[n]
    requires GatheredWell(eligible, fingerprints, threshold, eligible[n], before.seen, |eligible|, g)
    ensures GoodGroups(eligible, fingerprints, threshold, before.groups + [g.members])
    ensures Covers(eligible, fingerprints, threshold, n + 1, before.groups + [g.members], g.seen)
  {
    hide GoodGroups, Covers, GatheredWell;
    GroupsStayGood(eligible, fingerprints, threshold, n, before, g);
    CoversGrow(eligible, fingerprints, threshold, n, before, g);
  }

  lemma {:induction false} HeadHasId(members: seq<Chunk>)
    requires members != []
    ensures HasId(members, members[0].id)
  {
  }

  lemma {:induction false} GroupsStayGood(
    eligible: seq<Chunk>, fingerprints: map<string, bv64>, threshold: nat, n: nat, before: Groups, g: Gathered)
    requires n < |eligible| && eligible[n].id !in before.seen
    requires GoodGroups(eligible, fingerprints, threshold, before.groups)
    requires Covers(eligible, fingerprints, threshold, n, before.groups, before.seen)
    requires g.members != [] && g.members[0] == eligible[n]
    requires GatheredWell(eligible, fingerprints, threshold, eligible[n], before.seen, |eligible|, g)
    ensures GoodGroups(eligible, fingerprints, threshold, before.groups + [g.members])
  {
    hide Near, HasId, InGroups, UniqueChunks;
    var groups := before.groups + [g.members];
    forall a, b, id | 0 <= a < b < |groups| ensures !(HasId(groups[a], id) && HasId(groups[b], id)) {
      if b == |before.groups| && HasId(groups[a], id) && HasId(g.members, id) {
        OldIdIsSeen(before.groups, a, id);
        NewIdIsUnseen(g.members, before.seen, id);
        assert false;
      }
    }
  }

  lemma {:induction false} OldIdIsSeen(groups: seq<seq<Chunk>>, a: nat, id: string)
    requires a < |groups| && HasId(groups[a], id)
    ensures InGroups(groups, id)
  {
  }

  lemma {:induction false} NewIdIsUnseen(members: seq<Chunk>, seen: set<string>, id: string)
    requires HasId(members, id) && forall k :: 0 <= k < |members| ==> members[k].id !in seen
    ensures id !in seen
  {
  }

  lemma {:induction false} NoGroups(eligible: seq<Chunk>, threshold: nat)
    ensures GroupAll(eligible, threshold, 0) == Groups([], {})
    ensures forall id :: !InGroups([], id)
  {
  }

  lemma {:induction false} GroupsWork(eligible: seq<Chunk>, threshold: nat, n: nat)
    requires n <= |eligible|
    ensures var all, fingerprints := GroupAll(eligible, threshold, n), Fingerprints(eligible, |eligible|);
      && GoodGroups(eligible, fingerprints, threshold, all.groups)
      && Covers(eligible, fingerprints, threshold, n, all.groups, all.seen)
  {
    hide Distance, HasId, Gather, GatheredWell, Fingerprints, Near, UniqueChunks, InGroups;
    if n == 0 {
      NoGroups(eligible, threshold);
    } else {
      GroupsWork(eligible, threshold, n - 1);
      var before, fingerprints := GroupAll(eligible, threshold, n - 1), Fingerprints(eligible, |eligible|);
      if eligible[n - 1].id !in before.seen {
        GatherWorks(eligible, fingerprints, threshold, eligible[n - 1], before.seen, |eligible|);
        AddGroup(
          eligible, fingerprints, threshold, n - 1, before,
          Gather(eligible, fingerprints, threshold, eligible[n - 1], before.seen, |eligible|));
      }
    }
  }

  // ---------- With distinct ids ----------

  lemma {:induction false} FingerprintFrom(eligible: seq<Chunk>, n: nat, id: string)
    requires n <= |eligible| && id in Fingerprints(eligible, n)
    ensures exists i :: 0 <= i < n && eligible[i].id == id && eligible[i].fingerprint == Fingerprints(eligible, n)[id]
  {
    if n == 0 {
    } else {
      if eligible[n - 1].id != id { FingerprintFrom(eligible, n - 1, id); }
    }
  }

  lemma {:induction false} SameIdSameChunk(chunks: seq<Chunk>, minTokens: nat, a: Chunk, b: Chunk)
    requires UniqueChunks(chunks) && a.id == b.id
    requires a in Eligible(chunks, minTokens, |chunks|) && b in Eligible(chunks, minTokens, |chunks|)
    ensures a == b
  {
    hide Eligible;
    var i :| 0 <= i < |chunks| && chunks[i] == a;
    var j :| 0 <= j < |chunks| && chunks[j] == b;
  }

  lemma {:induction false} FingerprintIs(chunks: seq<Chunk>, minTokens: nat, c: Chunk)
    requires UniqueChunks(chunks) && c in Eligible(chunks, minTokens, |chunks|)
    ensures var eligible := Eligible(chunks, minTokens, |chunks|);
      c.id in Fingerprints(eligible, |eligible|) && Fingerprints(eligible, |eligible|)[c.id] == c.fingerprint
  {
    hide Eligible, Fingerprints;
    var eligible := Eligible(chunks, minTokens, |chunks|);
    var k :| 0 <= k < |eligible| && eligible[k] == c;
    assert eligible[k].id in Fingerprints(eligible, |eligible|);
    FingerprintFrom(eligible, |eligible|, c.id);
    var i :| 0 <= i < |eligible| && eligible[i].id == c.id && eligible[i].fingerprint == Fingerprints(eligible, |eligible|)[c.id];
    SameIdSameChunk(chunks, minTokens, c, eligible[i]);
  }

  function GroupsOf(chunks: seq<Chunk>, threshold: nat, minTokens: nat): seq<seq<Chunk>> {
    var eligible := Eligible(chunks, minTokens, |chunks|);
    GroupAll(eligible, threshold, |eligible|).groups
  }

  lemma {:induction false} NearIs(chunks: seq<Chunk>, threshold: nat, minTokens: nat, a: Chunk, b: Chunk)
    requires UniqueChunks(chunks)
    requires a in Eligible(chunks, minTokens, |chunks|) && b in Eligible(chunks, minTokens, |chunks|)
    ensures var eligible := Eligible(chunks, minTokens, |chunks|);
      Near(Fingerprints(eligible, |eligible|), threshold, a, b) <==> Distance(a.fingerprint, b.fingerprint) <= threshold
  {
    hide Eligible, Fingerprints, Distance, UniqueChunks;
    FingerprintIs(chunks, minTokens, a);
    FingerprintIs(chunks, minTokens, b);
  }

  /** Each eligible chunk is in a group. */
  lemma {:induction false} EveryChunkIsGrouped(chunks: seq<Chunk>, threshold: nat, minTokens: nat, i: nat)
    requires UniqueChunks(chunks) && i < |chunks| && chunks[i].tokenCount >= minTokens
    ensures var groups := GroupsOf(chunks, threshold, minTokens);
      exists g, k :: 0 <= g < |groups| && 0 <= k < |groups[g]| && groups[g][k] == chunks[i]
  {
    hide GroupAll, Near, UniqueChunks, Eligible;
    var eligible := Eligible(chunks, minTokens, |chunks|);
    var groups: seq<seq<Chunk>> := GroupsOf(chunks, threshold, minTokens);
    GroupsWork(eligible, threshold, |eligible|);
    assert chunks[i] in eligible;
    var e :| 0 <= e < |eligible| && eligible[e] == chunks[i];
    assert InGroups(groups, eligible[e].id);
    var g :| 0 <= g < |groups| && HasId(groups[g], chunks[i].id);
    var k :| 0 <= k < |groups[g]| && groups[g][k].id == chunks[i].id;
    SameIdSameChunk(chunks, minTokens, groups[g][k], chunks[i]);
  }

  /** Groups share no chunk and list none twice. */
  lemma {:induction false} GroupsAreDisjoint(chunks: seq<Chunk>, threshold: nat, minTokens: nat, g: nat, k: nat, h: nat, l: nat)
    requires var groups := GroupsOf(chunks, threshold, minTokens);
      g < |groups| && k < |groups[g]| && h < |groups| && l < |groups[h]| && groups[g][k].id == groups[h][l].id
    ensures g == h && k == l
  {
    hide GroupAll, Near, Eligible;
    var eligible := Eligible(chunks, minTokens, |chunks|);
    var groups: seq<seq<Chunk>> := GroupsOf(chunks, threshold, minTokens);
    GroupsWork(eligible, threshold, |eligible|);
    assert HasId(groups[g], groups[g][k].id) && HasId(groups[h], groups[g][k].id);
    assert UniqueChunks(groups[g]);
  }

  /** Members lie within the threshold of their leader and within twice the threshold of each other;
      leaders lie further than the threshold apart. */
  lemma {:induction false} CoveringAndPacking(chunks: seq<Chunk>, threshold: nat, minTokens: nat)
    requires UniqueChunks(chunks)
    ensures var groups := GroupsOf(chunks, threshold, minTokens);
      && (forall g :: 0 <= g < |groups| ==> groups[g] != [])
      && (forall g, k :: 0 <= g < |groups| && 0 <= k < |groups[g]| ==>
            Distance(groups[g][0].fingerprint, groups[g][k].fingerprint) <= threshold)
      && (forall g, k, l :: 0 <= g < |groups| && 0 <= k < |groups[g]| && 0 <= l < |groups[g]| ==>
            Distance(groups[g][k].fingerprint, groups[g][l].fingerprint) <= 2 * threshold)
      && (forall g, h :: 0 <= g < h < |groups| ==>
            Distance(groups[g][0].fingerprint, groups[h][0].fingerprint) > threshold)
  {
    hide GroupAll, Eligible, UniqueChunks, Distance, Near, HasId, Fingerprints;
    var eligible := Eligible(chunks, minTokens, |chunks|);
    var groups: seq<seq<Chunk>> := GroupsOf(chunks, threshold, minTokens);
    GroupsWork(eligible, threshold, |eligible|);
    forall g, k | 0 <= g < |groups| && 0 <= k < |groups[g]|
      ensures Distance(groups[g][0].fingerprint, groups[g][k].fingerprint) <= threshold
    {
      if k == 0 {
        var f := groups[g][0].fingerprint;
        DistanceIsMetric(f, f, f);
      } else {
        NearIs(chunks, threshold, minTokens, groups[g][0], groups[g][k]);
      }
    }
    forall g, k, l | 0 <= g < |groups| && 0 <= k < |groups[g]| && 0 <= l < |groups[g]|
      ensures Distance(groups[g][k].fingerprint, groups[g][l].fingerprint) <= 2 * threshold
    {
      var f := groups[g][0].fingerprint;
      DistanceIsMetric(groups[g][k].fingerprint, f, groups[g][l].fingerprint);
    }
    forall g, h | 0 <= g < h < |groups|
      ensures Distance(groups[g][0].fingerprint, groups[h][0].fingerprint) > threshold
    {
      assert groups[g][0] in eligible && groups[h][0] in eligible;
      NearIs(chunks, threshold, minTokens, groups[g][0], groups[h][0]);
    }
  }

  // ---------- Assignments and representatives ----------

  lemma {:induction false} AssignIs(before: map<string, string>, members: seq<Chunk>, clusterId: string, k: nat, id: string)
    requires k <= |members|
    ensures var r := Assign(before, members, clusterId, k);
      && (id in r <==> id in before || exists i :: 0 <= i < k && members[i].id == id)
      && ((exists i :: 0 <= i < k && members[i].id == id) ==> r[id] == clusterId)
      && (id in r && !(exists i :: 0 <= i < k && members[i].id == id) ==> r[id] == before[id])
  {
    if k == 0 {
    } else {
      AssignIs(before, members, clusterId, k - 1, id);
      if members[k - 1].id != id && exists i :: 0 <= i < k && members[i].id == id {
        var i :| 0 <= i < k && members[i].id == id;
        assert 0 <= i < k - 1;
      }
    }
  }

  lemma {:induction false} AssignedMembers(groups: seq<seq<Chunk>>, n: nat, name: seq<string> -> string, g: nat, k: nat)
    requires g < n <= |groups| && |groups[g]| > 1 && k < |groups[g]|
    ensures groups[g][k].id in Assignments(groups, n, name)
  {
    hide Assign, Sort;
    if |groups[n - 1]| > 1 {
      AssignIs(
        Assignments(groups, n - 1, name), groups[n - 1], name(Sort(Ids(groups[n - 1]))), |groups[n - 1]|, groups[g][k].id);
    }
    if g >= n - 1 {
    } else {
      AssignedMembers(groups, n - 1, name, g, k);
    }
  }

  /** A member's assignment is its own cluster's id. */
  lemma {:induction false} AssignedTo(
    chunks: seq<Chunk>, threshold: nat, minTokens: nat, name: seq<string> -> string, n: nat, g: nat, k: nat)
    requires var groups := GroupsOf(chunks, threshold, minTokens);
      g < n <= |groups| && |groups[g]| > 1 && k < |groups[g]|
    ensures var groups := GroupsOf(chunks, threshold, minTokens);
      var assignments := Assignments(groups, n, name);
      groups[g][k].id in assignments && assignments[groups[g][k].id] == name(Sort(Ids(groups[g])))
    decreases n
  {
    hide Assign, Sort, GroupsOf;
    var groups: seq<seq<Chunk>> := GroupsOf(chunks, threshold, minTokens);
    var last := groups[n - 1];
    var id := groups[g][k].id;
    if |last| > 1 { AssignIs(Assignments(groups, n - 1, name), last, name(Sort(Ids(last))), |last|, id); }
    if g < n - 1 {
      AssignedTo(chunks, threshold, minTokens, name, n - 1, g, k);
      forall l | 0 <= l < |last| ensures last[l].id != id {
        if last[l].id == id { GroupsAreDisjoint(chunks, threshold, minTokens, g, k, n - 1, l); }
      }
    } else {
      assert last[k].id == id;
    }
  }

  lemma {:induction false} ClusterFrom(
    groups: seq<seq<Chunk>>, n: nat, name: seq<string> -> string, collation: string -> real, c: nat)
    requires n <= |groups| && c < |ClustersOf(groups, n, name, collation)|
    ensures exists g :: 0 <= g < n && |groups[g]| > 1 && ClustersOf(groups, n, name, collation)[c] == ClusterOf(groups[g], name, collation)
  {
    hide ClusterOf;
    if n > 0 && c < |ClustersOf(groups, n - 1, name, collation)| { ClusterFrom(groups, n - 1, name, collation, c); }
  }

  lemma {:induction false} ClusterHere(
    groups: seq<seq<Chunk>>, n: nat, name: seq<string> -> string, collation: string -> real, g: nat)
    requires g < n <= |groups| && |groups[g]| > 1
    ensures ClusterOf(groups[g], name, collation) in ClustersOf(groups, n, name, collation)
  {
    hide ClusterOf;
    if g >= n - 1 {
    } else {
      ClusterHere(groups, n - 1, name, collation, g);
    }
  }

  lemma {:induction false} BestIsMember(members: seq<Chunk>, collation: string -> real) returns (b: nat)
    requires members != []
    ensures b < |members| && members[b] == Representative(members, |members|, collation)
  {
    hide Representative;
    assert members[..|members|] == members;
    b :| 0 <= b < |members| && members[b] == Representative(members, |members|, collation);
  }

  lemma {:induction false} ServedIsBest(
    chunks: seq<Chunk>, threshold: nat, minTokens: nat, name: seq<string> -> string, collation: string -> real,
    g: nat, k: nat, c: nat)
    requires var groups := GroupsOf(chunks, threshold, minTokens);
      && g < |groups| && k < |groups[g]| && c < |ClustersOf(groups, |groups|, name, collation)|
      && ClustersOf(groups, |groups|, name, collation)[c].representativeChunkId == groups[g][k].id
    ensures var groups := GroupsOf(chunks, threshold, minTokens);
      groups[g][k] == Representative(groups[g], |groups[g]|, collation)
  {
    hide GroupsOf, Representative, Sort, Unique, ClustersOf;
    var groups: seq<seq<Chunk>> := GroupsOf(chunks, threshold, minTokens);
    ClusterFrom(groups, |groups|, name, collation, c);
    var h :| 0 <= h < |groups| && |groups[h]| > 1
      && ClustersOf(groups, |groups|, name, collation)[c] == ClusterOf(groups[h], name, collation);
    var l := BestIsMember(groups[h], collation);
    GroupsAreDisjoint(chunks, threshold, minTokens, g, k, h, l);
  }

  /** Of each cluster exactly one member is served, the preferred one. */
  lemma {:induction false} OneRepresentativeEach(
    chunks: seq<Chunk>, threshold: nat, minTokens: nat, name: seq<string> -> string, collation: string -> real, g: nat, k: nat)
    requires var groups := GroupsOf(chunks, threshold, minTokens);
      g < |groups| && |groups[g]| > 1 && k < |groups[g]|
    ensures var groups := GroupsOf(chunks, threshold, minTokens);
      var served := Representatives(
        ClustersOf(groups, |groups|, name, collation), Assignments(groups, |groups|, name), chunks);
      groups[g][k].id in served <==> groups[g][k] == Representative(groups[g], |groups[g]|, collation)
  {
    hide GroupsOf, Representative, Sort, Unique, ClustersOf, Assignments;
    var groups: seq<seq<Chunk>> := GroupsOf(chunks, threshold, minTokens);
    var clusters, assignments := ClustersOf(groups, |groups|, name, collation), Assignments(groups, |groups|, name);
    AssignedMembers(groups, |groups|, name, g, k);
    if groups[g][k].id in Representatives(clusters, assignments, chunks) {
      var c :| 0 <= c < |clusters| && clusters[c].representativeChunkId == groups[g][k].id;
      ServedIsBest(chunks, threshold, minTokens, name, collation, g, k, c);
    }
    if groups[g][k] == Representative(groups[g], |groups[g]|, collation) {
      ClusterHere(groups, |groups|, name, collation, g);
      var c :| 0 <= c < |clusters| && clusters[c] == ClusterOf(groups[g], name, collation);
      assert clusters[c].representativeChunkId == groups[g][k].id;
    }
  }
}
