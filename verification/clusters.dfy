/** Clusters of near-duplicates and their representatives, packages/chunking/src/dedupe.ts. */
module Clusters {
  import opened Strings
  import opened Dedupe

  datatype Chunk = Chunk(id: string, moduleId: string, tokenCount: nat, generated: bool, fingerprint: bv64)

  datatype Cluster = Cluster(clusterId: string, representativeChunkId: string, memberChunkIds: seq<string>, moduleIds: seq<string>)

  // ---------- Which chunk stands for a cluster ----------

  /** `a` sorts strictly before `b`. Locale order is given as a position for each id. */
  predicate Preferred(a: Chunk, b: Chunk, collation: string -> real) {
    if a.generated != b.generated then b.generated
    else if a.tokenCount != b.tokenCount then a.tokenCount > b.tokenCount
    else collation(a.id) < collation(b.id)
  }

  /** The head of the sorted members: the first that none is preferred to. */
  function Representative(members: seq<Chunk>, n: nat, collation: string -> real): (r: Chunk)
    requires 0 < n <= |members|
    ensures r in members[..n]
    ensures forall i :: 0 <= i < n ==> !Preferred(members[i], r, collation)
  {
    if n == 1 then
      members[0]
    else
      var front := Representative(members, n - 1, collation);
      assert members[..n] == members[..n - 1] + [members[n - 1]];
      if Preferred(members[n - 1], front, collation) then members[n - 1] else front
  }

  // ---------- One cluster ----------

  function Eligible(chunks: seq<Chunk>, minTokens: nat, n: nat): (r: seq<Chunk>)
    requires n <= |chunks|
    ensures forall c :: c in r <==> exists i :: 0 <= i < n && chunks[i] == c && c.tokenCount >= minTokens
  {
    if n == 0 then []
    else Eligible(chunks, minTokens, n - 1) + if chunks[n - 1].tokenCount >= minTokens then [chunks[n - 1]] else []
  }

  function Fingerprints(eligible: seq<Chunk>, n: nat): (r: map<string, bv64>)
    requires n <= |eligible|
    ensures forall i :: 0 <= i < n ==> eligible[i].id in r
  {
    if n == 0 then map[] else Fingerprints(eligible, n - 1)[eligible[n - 1].id := eligible[n - 1].fingerprint]
  }

  datatype Gathered = Gathered(members: seq<Chunk>, seen: set<string>)

  predicate Joins(c: Chunk, fingerprint: bv64, fingerprints: map<string, bv64>, threshold: nat, seen: set<string>) {
    c.id !in seen && c.id in fingerprints && Distance(fingerprint, fingerprints[c.id]) <= threshold
  }

  /** What a leader gathers from the first `n` eligible chunks. */
  function Gather(
    eligible: seq<Chunk>, fingerprints: map<string, bv64>, threshold: nat, leader: Chunk, seen: set<string>, n: nat)
    : (r: Gathered)
    requires n <= |eligible| && leader.id in fingerprints
    ensures r.members != [] && r.members[0] == leader
  {
    if n == 0 then Gathered([leader], seen + {leader.id})
    else
      var g := Gather(eligible, fingerprints, threshold, leader, seen, n - 1);
      if Joins(eligible[n - 1], fingerprints[leader.id], fingerprints, threshold, g.seen)
      then Gathered(g.members + [eligible[n - 1]], g.seen + {eligible[n - 1].id})
      else g
  }

  // ---------- All clusters ----------

  /** Every leader with what it gathers, in order, and the ids met so far. */
  datatype Groups = Groups(groups: seq<seq<Chunk>>, seen: set<string>)

  function GroupAll(eligible: seq<Chunk>, threshold: nat, n: nat): Groups
    requires n <= |eligible|
  {
    if n == 0 then Groups([], {})
    else
      var before := GroupAll(eligible, threshold, n - 1);
      if eligible[n - 1].id in before.seen then before
      else
        var g := Gather(
          eligible, Fingerprints(eligible, |eligible|), threshold, eligible[n - 1], before.seen, |eligible|);
        Groups(before.groups + [g.members], g.seen)
  }

  function Ids(members: seq<Chunk>): (r: seq<string>)
    ensures |r| == |members| && forall i :: 0 <= i < |r| ==> r[i] == members[i].id
  {
    seq(|members|, i requires 0 <= i < |members| => members[i].id)
  }

  function ModuleIds(members: seq<Chunk>): (r: seq<string>)
    ensures |r| == |members| && forall i :: 0 <= i < |r| ==> r[i] == members[i].moduleId
  {
    seq(|members|, i requires 0 <= i < |members| => members[i].moduleId)
  }

  function ClusterOf(members: seq<Chunk>, name: seq<string> -> string, collation: string -> real): Cluster
    requires members != []
  {
    Cluster(
      name(Sort(Ids(members))), Representative(members, |members|, collation).id, Ids(members),
      Unique(ModuleIds(members)))
  }

  /** The clusters are the groups with more than one member. */
  function ClustersOf(
    groups: seq<seq<Chunk>>, n: nat, name: seq<string> -> string, collation: string -> real): seq<Cluster>
    requires n <= |groups|
  {
    if n == 0 then []
    else
      ClustersOf(groups, n - 1, name, collation)
      + if |groups[n - 1]| > 1 then [ClusterOf(groups[n - 1], name, collation)] else []
  }

  function Assign(before: map<string, string>, members: seq<Chunk>, clusterId: string, k: nat): map<string, string>
    requires k <= |members|
  {
    if k == 0 then before else Assign(before, members, clusterId, k - 1)[members[k - 1].id := clusterId]
  }

  function Assignments(groups: seq<seq<Chunk>>, n: nat, name: seq<string> -> string): map<string, string>
    requires n <= |groups|
  {
    if n == 0 then map[]
    else
      var before, members := Assignments(groups, n - 1, name), groups[n - 1];
      if |members| > 1 then Assign(before, members, name(Sort(Ids(members))), |members|) else before
  }

  function Representatives(clusters: seq<Cluster>, assignments: map<string, string>, chunks: seq<Chunk>): set<string> {
    (set i | 0 <= i < |clusters| :: clusters[i].representativeChunkId)
    + (set i | 0 <= i < |chunks| && chunks[i].id !in assignments :: chunks[i].id)
  }

  // ---------- The source's loops ----------

  method GatherMembers(
    eligible: seq<Chunk>, fingerprints: map<string, bv64>, threshold: nat, leader: Chunk, before: set<string>)
    returns (members: seq<Chunk>, seen: set<string>)
    requires leader.id in fingerprints && forall i :: 0 <= i < |eligible| ==> eligible[i].id in fingerprints
    ensures Gathered(members, seen) == Gather(eligible, fingerprints, threshold, leader, before, |eligible|)
  {
    hide Distance;
    members, seen := [leader], before + {leader.id};
    for i := 0 to |eligible|
      invariant Gathered(members, seen) == Gather(eligible, fingerprints, threshold, leader, before, i)
    {
      var candidate := eligible[i];
      if candidate.id in seen { continue; }
      var distance := HammingDistance(fingerprints[leader.id], fingerprints[candidate.id]);
      if distance <= threshold {
        members := members + [candidate];
        seen := seen + {candidate.id};
      }
    }
  }

  method ClusterChunks(
    chunks: seq<Chunk>, threshold: nat, minTokens: nat, name: seq<string> -> string, collation: string -> real)
    returns (clusters: seq<Cluster>, assignments: map<string, string>, representatives: set<string>)
    ensures var groups := GroupAll(Eligible(chunks, minTokens, |chunks|), threshold, |Eligible(chunks, minTokens, |chunks|)|).groups;
      && clusters == ClustersOf(groups, |groups|, name, collation)
      && assignments == Assignments(groups, |groups|, name)
      && representatives == Representatives(clusters, assignments, chunks)
  {
    hide Gather, Representative, ClusterOf, Assign, Fingerprints, Eligible, Distance, Sort;
    var eligible := Eligible(chunks, minTokens, |chunks|);
    var fingerprints := Fingerprints(eligible, |eligible|);
    ghost var groups: seq<seq<Chunk>> := [];
    var seen: set<string> := {};
    clusters, assignments := [], map[];
    for i := 0 to |eligible|
      invariant Groups(groups, seen) == GroupAll(eligible, threshold, i)
      invariant clusters == ClustersOf(groups, |groups|, name, collation)
      invariant assignments == Assignments(groups, |groups|, name)
    {
      var chunk := eligible[i];
      if chunk.id in seen { continue; }
      var members;
      members, seen := GatherMembers(eligible, fingerprints, threshold, chunk, seen);
      NextGroup(groups, members, name, collation);
      groups := groups + [members];
      if |members| == 1 { continue; }
      var clusterId := name(Sort(Ids(members)));
      assignments := AssignAll(assignments, members, clusterId);
      clusters := clusters + [ClusterOf(members, name, collation)];
    }
    representatives := Representatives(clusters, assignments, chunks);
  }

  method AssignAll(before: map<string, string>, members: seq<Chunk>, clusterId: string) returns (assignments: map<string, string>)
    ensures assignments == Assign(before, members, clusterId, |members|)
  {
    assignments := before;
    for k := 0 to |members|
      invariant assignments == Assign(before, members, clusterId, k)
    {
      assignments := assignments[members[k].id := clusterId];
    }
  }

  lemma {:induction false} ClustersPrefix(
    groups: seq<seq<Chunk>>, members: seq<Chunk>, n: nat, name: seq<string> -> string, collation: string -> real)
    requires n <= |groups|
    ensures ClustersOf(groups + [members], n, name, collation) == ClustersOf(groups, n, name, collation)
    ensures Assignments(groups + [members], n, name) == Assignments(groups, n, name)
  {
    hide ClusterOf, Assign, Sort;
    if n == 0 {
    } else {
      ClustersPrefix(groups, members, n - 1, name, collation);
    }
  }

  lemma {:induction false} NextGroup(
    groups: seq<seq<Chunk>>, members: seq<Chunk>, name: seq<string> -> string, collation: string -> real)
    requires members != []
    ensures ClustersOf(groups + [members], |groups + [members]|, name, collation)
         == ClustersOf(groups, |groups|, name, collation)
            + if |members| > 1 then [ClusterOf(members, name, collation)] else []
    ensures Assignments(groups + [members], |groups + [members]|, name)
         == if |members| > 1 then Assign(Assignments(groups, |groups|, name), members, name(Sort(Ids(members))), |members|)
            else Assignments(groups, |groups|, name)
  {
    hide ClusterOf, Assign, Sort;
    ClustersPrefix(groups, members, |groups|, name, collation);
  }
}
