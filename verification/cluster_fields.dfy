/** What stands in the fields of a cluster, and which chunks are served, packages/chunking/src/dedupe.ts. */
module ClusterFields {
  import opened Strings
  import opened StringOrder
  import opened Clusters
  import opened ClustersTheorems

  // ---------- The representative ----------

  /** Written by hand before generated, then the one with more tokens, then the smaller id. */
  predicate Ahead(a: Chunk, b: Chunk, collation: string -> real) {
    || (!a.generated && b.generated)
    || (a.generated == b.generated && a.tokenCount > b.tokenCount)
    || (a.generated == b.generated && a.tokenCount == b.tokenCount && collation(a.id) < collation(b.id))
  }

  /** Member `r` is ahead of all before it, and none after it is ahead of it. */
  predicate Leads(members: seq<Chunk>, r: nat, collation: string -> real) {
    && r < |members|
    && (forall i :: 0 <= i < r ==> Ahead(members[r], members[i], collation))
    && (forall i :: r < i < |members| ==> !Ahead(members[i], members[r], collation))
  }

  lemma {:induction false} PreferredIs(a: Chunk, b: Chunk, collation: string -> real)
    ensures Preferred(a, b, collation) <==> Ahead(a, b, collation)
  {
  }

  lemma {:induction false} AheadPasses(a: Chunk, b: Chunk, c: Chunk, collation: string -> real)
    requires Ahead(a, b, collation) && (b == c || Ahead(b, c, collation))
    ensures Ahead(a, c, collation)
  {
  }

  lemma {:induction false} FirstLeads(members: seq<Chunk>, collation: string -> real)
    requires members != []
    ensures Leads(members[..1], 0, collation)
  {
  }

  lemma {:induction false} StillLeads(front: seq<Chunk>, r: nat, last: Chunk, collation: string -> real)
    requires Leads(front, r, collation) && !Ahead(last, front[r], collation)
    ensures Leads(front + [last], r, collation)
  {
    hide Ahead;
  }

  lemma {:induction false} LastLeads(front: seq<Chunk>, r: nat, last: Chunk, collation: string -> real)
    requires Leads(front, r, collation) && Ahead(last, front[r], collation)
    ensures Leads(front + [last], |front|, collation)
  {
    forall i | 0 <= i < |front| ensures Ahead(last, front[i], collation) {
      if i <= r { AheadPasses(last, front[r], front[i], collation); }
    }
  }

  lemma {:induction false} RepresentativeLeads(members: seq<Chunk>, n: nat, collation: string -> real) returns (r: nat)
    requires 0 < n <= |members|
    ensures r < n && Leads(members[..n], r, collation) && members[r] == Representative(members, n, collation)
  {
    hide Ahead, Preferred, Leads;
    if n == 1 {
      r := 0;
      FirstLeads(members, collation);
    } else {
      r := RepresentativeLeads(members, n - 1, collation);
      var front, last := members[..n - 1], members[n - 1];
      assert members[..n] == front + [last] && front[r] == members[r];
      PreferredIs(last, members[r], collation);
      if Preferred(last, members[r], collation) {
        LastLeads(front, r, last, collation);
        r := n - 1;
      } else {
        StillLeads(front, r, last, collation);
      }
    }
  }

  // ---------- The fields ----------

  /** The first member of module `x` stands before every member of module `y`. */
  predicate FirstBefore(members: seq<Chunk>, x: string, y: string) {
    exists p :: 0 <= p < |members| && members[p].moduleId == x && forall q :: 0 <= q < p ==> members[q].moduleId != y
  }

  /** The modules of the members, each once, in the order in which they first occur. */
  ghost predicate AreModules(moduleIds: seq<string>, members: seq<Chunk>) {
    && Distinct(moduleIds)
    && (forall m :: m in moduleIds <==> exists k :: 0 <= k < |members| && members[k].moduleId == m)
    && (forall i, j :: 0 <= i < j < |moduleIds| ==> FirstBefore(members, moduleIds[i], moduleIds[j]))
  }

  /** The members' ids in order, their modules, and the member that leads. */
  ghost predicate Describes(c: Cluster, members: seq<Chunk>, name: seq<string> -> string, collation: string -> real) {
    && |c.memberChunkIds| == |members|
    && (forall k :: 0 <= k < |members| ==> c.memberChunkIds[k] == members[k].id)
    && c.clusterId == name(Sort(c.memberChunkIds))
    && AreModules(c.moduleIds, members)
    && exists r: nat :: Leads(members, r, collation) && members[r].id == c.representativeChunkId
  }

  lemma {:induction false} ModulesOf(members: seq<Chunk>)
    ensures AreModules(Unique(ModuleIds(members)), members)
  {
    hide Unique, ComesBefore, FirstBefore;
    var all := ModuleIds(members);
    var r := Unique(all);
    forall i, j | 0 <= i < j < |r| ensures FirstBefore(members, r[i], r[j]) {
      UniqueInOrder(all, i, j);
      FirstModule(members, r[i], r[j]);
    }
    forall m ensures m in r <==> exists k :: 0 <= k < |members| && members[k].moduleId == m {
      assert m in all <==> m in r;
      if k :| 0 <= k < |members| && members[k].moduleId == m { assert all[k] == m; }
    }
  }

  lemma {:induction false} FirstModule(members: seq<Chunk>, x: string, y: string)
    requires ComesBefore(ModuleIds(members), x, y)
    ensures FirstBefore(members, x, y)
  {
    var all := ModuleIds(members);
    var p :| 0 <= p < |all| && all[p] == x && y !in all[..p];
    forall q | 0 <= q < p ensures members[q].moduleId != y { assert all[..p][q] == members[q].moduleId; }
  }

  /** A group's cluster carries its members' data. */
  lemma {:induction false} ClusterIs(members: seq<Chunk>, name: seq<string> -> string, collation: string -> real)
    requires members != []
    ensures Describes(ClusterOf(members, name, collation), members, name, collation)
  {
    hide Leads, AreModules, Representative, Unique, Sort;
    var r := RepresentativeLeads(members, |members|, collation);
    assert members[..|members|] == members;
    ModulesOf(members);
  }

  // ---------- All clusters, and the chunks that are served ----------

  predicate NoneEmpty(groups: seq<seq<Chunk>>) { forall g :: 0 <= g < |groups| ==> groups[g] != [] }

  /** The clusters are those of the groups with two members or more, in the order of the groups. */
  lemma {:induction false} ClustersAre(
    groups: seq<seq<Chunk>>, n: nat, name: seq<string> -> string, collation: string -> real) returns (from: seq<nat>)
    requires n <= |groups| && NoneEmpty(groups)
    ensures var clusters := ClustersOf(groups, n, name, collation);
      && |from| == |clusters|
      && (forall c :: 0 <= c < |from| ==> from[c] < n && Describes(clusters[c], groups[from[c]], name, collation))
      && (forall c, d :: 0 <= c < d < |from| ==> from[c] < from[d])
      && (forall g :: 0 <= g < n ==> (g in from <==> |groups[g]| >= 2))
  {
    hide Describes, ClusterOf;
    from := [];
    if n > 0 {
      from := ClustersAre(groups, n - 1, name, collation);
      if |groups[n - 1]| > 1 {
        ClusterIs(groups[n - 1], name, collation);
        from := from + [n - 1];
      }
    }
  }

  /** The id is that of a member of a group with two members or more. */
  predicate InCluster(groups: seq<seq<Chunk>>, n: nat, id: string)
    requires n <= |groups|
  {
    exists g, k :: 0 <= g < n && |groups[g]| >= 2 && 0 <= k < |groups[g]| && groups[g][k].id == id
  }

  lemma {:induction false} AssignedAre(groups: seq<seq<Chunk>>, n: nat, name: seq<string> -> string, id: string)
    requires n <= |groups|
    ensures id in Assignments(groups, n, name) <==> InCluster(groups, n, id)
  {
    hide Assign, Sort;
    if n > 0 {
      AssignedAre(groups, n - 1, name, id);
      var last := groups[n - 1];
      if |last| > 1 { AssignIs(Assignments(groups, n - 1, name), last, name(Sort(Ids(last))), |last|, id); }
      if InCluster(groups, n - 1, id) {
        var g, k :| 0 <= g < n - 1 && |groups[g]| >= 2 && 0 <= k < |groups[g]| && groups[g][k].id == id;
        assert InCluster(groups, n, id);
      }
      if InCluster(groups, n, id) {
        var g, k :| 0 <= g < n && |groups[g]| >= 2 && 0 <= k < |groups[g]| && groups[g][k].id == id;
        assert g < n - 1 ==> InCluster(groups, n - 1, id);
      }
    }
  }

  /** A member of a cluster leads it and has this id. */
  ghost predicate LeadsCluster(groups: seq<seq<Chunk>>, id: string, collation: string -> real) {
    exists g, r: nat {:trigger groups[g][r]} ::
      0 <= g < |groups| && |groups[g]| >= 2 && r < |groups[g]| && Leads(groups[g], r, collation) && groups[g][r].id == id
  }

  lemma {:induction false} OneLeads(members: seq<Chunk>, r: nat, s: nat, collation: string -> real)
    requires Leads(members, r, collation) && Leads(members, s, collation)
    ensures r == s
  {
    hide Ahead;
    var a, b := members[r], members[s];
    assert r < s ==> Ahead(b, a, collation) && !Ahead(b, a, collation);
    assert s < r ==> Ahead(a, b, collation) && !Ahead(a, b, collation);
  }

  lemma {:induction false} LeaderOf(c: Cluster, members: seq<Chunk>, name: seq<string> -> string, collation: string -> real)
    returns (r: nat)
    requires Describes(c, members, name, collation)
    ensures r < |members| && Leads(members, r, collation) && members[r].id == c.representativeChunkId
  {
    hide Sort, AreModules;
    r :| Leads(members, r, collation) && members[r].id == c.representativeChunkId;
  }

  lemma {:induction false} RepresentativesAre(
    groups: seq<seq<Chunk>>, name: seq<string> -> string, collation: string -> real, id: string)
    requires NoneEmpty(groups)
    ensures var clusters := ClustersOf(groups, |groups|, name, collation);
      LeadsCluster(groups, id, collation) <==> exists c :: 0 <= c < |clusters| && clusters[c].representativeChunkId == id
  {
    hide Leads, ClustersOf, Describes;
    var clusters := ClustersOf(groups, |groups|, name, collation);
    var from := ClustersAre(groups, |groups|, name, collation);
    if c :| 0 <= c < |clusters| && clusters[c].representativeChunkId == id {
      var r := LeaderOf(clusters[c], groups[from[c]], name, collation);
      assert from[c] in from && groups[from[c]][r].id == id;
    }
    if LeadsCluster(groups, id, collation) {
      var g, r: nat :|
        0 <= g < |groups| && |groups[g]| >= 2 && r < |groups[g]| && Leads(groups[g], r, collation) && groups[g][r].id == id;
      assert g in from;
      var c :| 0 <= c < |from| && from[c] == g;
      var s := LeaderOf(clusters[c], groups[g], name, collation);
      OneLeads(groups[g], r, s, collation);
    }
  }

  lemma {:induction false} OneMore(groups: seq<seq<Chunk>>, members: seq<Chunk>)
    requires NoneEmpty(groups) && members != []
    ensures NoneEmpty(groups + [members])
  {
  }

  lemma {:induction false} NoGroupIsEmpty(eligible: seq<Chunk>, threshold: nat, n: nat)
    requires n <= |eligible|
    ensures NoneEmpty(GroupAll(eligible, threshold, n).groups)
  {
    hide Gather, NoneEmpty;
    if n == 0 {
      Nothing();
    } else {
      NoGroupIsEmpty(eligible, threshold, n - 1);
      var before, f := GroupAll(eligible, threshold, n - 1), Fingerprints(eligible, |eligible|);
      assert eligible[n - 1].id in f;
      if eligible[n - 1].id !in before.seen {
        OneMore(before.groups, Gather(eligible, f, threshold, eligible[n - 1], before.seen, |eligible|).members);
      }
    }
  }

  lemma {:induction false} Nothing()
    ensures NoneEmpty([])
  {
  }

  /** Served are the leading member of each cluster, and every supplied chunk that is in no cluster. */
  lemma {:induction false} ServedAre(
    chunks: seq<Chunk>, threshold: nat, minTokens: nat, name: seq<string> -> string, collation: string -> real, id: string)
    ensures var groups := GroupsOf(chunks, threshold, minTokens);
      var served := Representatives(
        ClustersOf(groups, |groups|, name, collation), Assignments(groups, |groups|, name), chunks);
      id in served <==>
        || LeadsCluster(groups, id, collation)
        || (!InCluster(groups, |groups|, id) && exists i :: 0 <= i < |chunks| && chunks[i].id == id)
  {
    hide LeadsCluster, ClustersOf, Assignments, InCluster, GroupAll, NoneEmpty;
    var groups: seq<seq<Chunk>> := GroupsOf(chunks, threshold, minTokens);
    var eligible := Eligible(chunks, minTokens, |chunks|);
    NoGroupIsEmpty(eligible, threshold, |eligible|);
    AssignedAre(groups, |groups|, name, id);
    RepresentativesAre(groups, name, collation, id);
  }
}
