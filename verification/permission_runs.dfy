/** What the resolver guarantees over whole runs, apps/api/src/auth.ts. */
module PermissionRuns {
  import opened Strings
  import opened Permissions

  // ---------- Runs ----------

  /** Between two calls the world may change in any way. */
  datatype Event =
    | Change(world: World)
    | Resolved(principal: Principal, corpus: Corpus, tier: Option<Sensitivity>)
    | Invalidated(orgId: string, principalId: string)
    | InvalidatedAll

  datatype State = State(world: World, cache: map<string, CachedPermissions>)

  function Step(s: State, e: Event, lives: Lifetimes): State {
    match e
    case Change(w) => State(w, s.cache)
    case Resolved(p, corpus, tier) => State(s.world, Resolution(s.cache, lives, p, corpus, tier, s.world).0)
    case Invalidated(orgId, principalId) => State(s.world, s.cache - {CacheKey(orgId, principalId)})
    case InvalidatedAll => State(s.world, map[])
  }

  /** The state after the first `n` events, from an empty cache. */
  function After(start: World, events: seq<Event>, n: nat, lives: Lifetimes): State
    requires n <= |events|
  {
    if n == 0 then State(start, map[]) else Step(After(start, events, n - 1, lives), events[n - 1], lives)
  }

  // ---------- Cache keys ----------

  /** Organisation ids hold no colon, so that a cache key belongs to one principal. */
  predicate PlainPrincipals(events: seq<Event>, n: nat)
    requires n <= |events|
  {
    forall i :: 0 <= i < n && events[i].Resolved? ==> Colonless(events[i].principal.orgId)
  }

  /** Two principals share a key exactly when they are the same, or one organisation's id runs on, past a
      colon, into what is the front of the other principal's id. */
  predicate KeysOverlap(orgId: string, id: string, otherOrg: string, other: string) {
    && |orgId| < |otherOrg| && otherOrg[..|orgId| + 1] == orgId + ":"
    && id == otherOrg[|orgId| + 1..] + ":" + other
  }

  lemma {:induction false} ShareAKey(orgId: string, id: string, otherOrg: string, other: string)
    ensures CacheKey(orgId, id) == CacheKey(otherOrg, other)
       <==> (orgId == otherOrg && id == other) || KeysOverlap(orgId, id, otherOrg, other) || KeysOverlap(otherOrg, other, orgId, id)
  {
    if |orgId| <= |otherOrg| {
      ShortKey(orgId, id, otherOrg, other);
    } else {
      ShortKey(otherOrg, other, orgId, id);
    }
  }

  lemma {:induction false} ShortKey(a: string, x: string, b: string, y: string)
    requires |a| <= |b|
    ensures CacheKey(a, x) == CacheKey(b, y) <==> (a == b && x == y) || KeysOverlap(a, x, b, y)
  {
    if |a| == |b| {
      FrontsSplit(a + ":", x, b + ":", y);
      FrontsSplit(a, ":", b, ":");
    } else {
      var front, back := b[..|a| + 1], b[|a| + 1..];
      assert b == front + back;
      assert b + ":" + y == front + (back + ":" + y);
      FrontsSplit(a + ":", x, front, back + ":" + y);
    }
  }

  lemma {:induction false} FrontsSplit(a: string, x: string, b: string, y: string)
    requires |a| == |b|
    ensures a + x == b + y <==> a == b && x == y
  {
    if a + x == b + y {
      assert (a + x)[..|a|] == a && (b + y)[..|b|] == b && (a + x)[|a|..] == x && (b + y)[|b|..] == y;
    }
  }

  // ---------- The cache holds past answers ----------

  /** The entry is what the `j`th event loaded: an internal call of a principal with this key, answered by the
      database as it was then. No event since has touched it. */
  ghost predicate LoadedAt(start: World, events: seq<Event>, n: nat, lives: Lifetimes, j: nat, key: string)
    requires n <= |events|
  {
    && j < n && events[j].Resolved? && events[j].corpus.InternalCorpus?
    && CacheKey(events[j].principal.orgId, events[j].principal.id) == key
    && var w := After(start, events, j, lives).world;
       w.grantsReadable
       && forall i :: j < i <= n ==> Holds(After(start, events, i, lives), key, Loaded(w, events[j].principal, lives.hardExpiryMs))
  }

  predicate Holds(s: State, key: string, entry: CachedPermissions) { key in s.cache && s.cache[key] == entry }

  ghost predicate CacheIsPast(start: World, events: seq<Event>, n: nat, lives: Lifetimes)
    requires n <= |events|
  {
    forall key :: key in After(start, events, n, lives).cache ==> exists j :: LoadedAt(start, events, n, lives, j, key)
  }

  /** A step keeps an entry, or loads it, or drops it. */
  lemma {:induction false} StepDecides(s: State, e: Event, lives: Lifetimes, key: string)
    requires var after := Step(s, e, lives); key in after.cache && !(key in s.cache && after.cache[key] == s.cache[key])
    ensures e.Resolved? && e.corpus.InternalCorpus? && CacheKey(e.principal.orgId, e.principal.id) == key && s.world.grantsReadable
    ensures Step(s, e, lives).cache[key] == Loaded(s.world, e.principal, lives.hardExpiryMs)
  {
    hide Loaded, CacheKey, DeniedRepoIds, Without;
  }

  /** In every run each entry was loaded by a call of a principal with its key, and is still as it was then. */
  lemma {:induction false} RunsKeepCache(start: World, events: seq<Event>, n: nat, lives: Lifetimes)
    requires n <= |events|
    ensures CacheIsPast(start, events, n, lives)
  {
    hide Step, CacheKey, Loaded;
    if n == 0 {
    } else {
      RunsKeepCache(start, events, n - 1, lives);
      var before, after := After(start, events, n - 1, lives), After(start, events, n, lives);
      forall key | key in after.cache
        ensures exists j :: LoadedAt(start, events, n, lives, j, key)
      {
        if key in before.cache && after.cache[key] == before.cache[key] {
          var j :| LoadedAt(start, events, n - 1, lives, j, key);
          StaysLoaded(start, events, n, lives, j, key);
        } else {
          StepDecides(before, events[n - 1], lives, key);
          NewlyLoaded(start, events, n, lives, key);
        }
      }
    }
  }

  lemma {:induction false} StaysLoaded(start: World, events: seq<Event>, n: nat, lives: Lifetimes, j: nat, key: string)
    requires 0 < n <= |events| && LoadedAt(start, events, n - 1, lives, j, key)
    requires var before, after := After(start, events, n - 1, lives), After(start, events, n, lives);
      key in before.cache && key in after.cache && after.cache[key] == before.cache[key]
    ensures LoadedAt(start, events, n, lives, j, key)
  {
    hide After, CacheKey, Loaded;
    var entry := Loaded(After(start, events, j, lives).world, events[j].principal, lives.hardExpiryMs);
    assert Holds(After(start, events, n - 1, lives), key, entry);
  }

  lemma {:induction false} NewlyLoaded(start: World, events: seq<Event>, n: nat, lives: Lifetimes, key: string)
    requires 0 < n <= |events|
    requires var e, s := events[n - 1], After(start, events, n - 1, lives);
      && e.Resolved? && e.corpus.InternalCorpus? && CacheKey(e.principal.orgId, e.principal.id) == key && s.world.grantsReadable
      && Holds(After(start, events, n, lives), key, Loaded(s.world, e.principal, lives.hardExpiryMs))
    ensures LoadedAt(start, events, n, lives, n - 1, key)
  {
    hide After, CacheKey, Loaded, Holds;
  }

  // ---------- Safety ----------

  /** The repository is revoked now: by name, or with everything else. */
  ghost predicate Revoked(w: World, p: Principal, id: string) {
    || WildcardActive(w, p)
    || exists i :: 0 <= i < |w.revocations| && Active(w.revocations[i], w, p) && w.revocations[i].repoId == Some(id)
  }

  predicate InOrg(w: World, p: Principal, ids: seq<string>) {
    forall id :: id in ids ==> id in ReposOf(w.repos, p.orgId, |w.repos|)
  }

  /** There is an entry within the cache lifetime and the tier does not ask for more. */
  predicate WithinTtl(s: State, p: Principal, tier: Option<Sensitivity>, lives: Lifetimes) {
    var key := CacheKey(p.orgId, p.id);
    !Bypasses(tier) && key in s.cache && s.world.now - s.cache[key].cachedAt < lives.cacheTtlMs
  }

  /** The `j`th moment answers now. Within the cache lifetime it is that of the call that loaded the entry; past
      it, or for a tier that bypasses the cache, the present; and only while the database cannot be read it is
      the entry's again, until the hard expiry. */
  ghost predicate Answers(start: World, events: seq<Event>, lives: Lifetimes, p: Principal, tier: Option<Sensitivity>, j: nat)
    requires j <= |events|
  {
    var n, s, key := |events|, After(start, events, |events|, lives), CacheKey(p.orgId, p.id);
    var age := s.world.now - After(start, events, j, lives).world.now;
    if WithinTtl(s, p, tier, lives) then LoadedAt(start, events, n, lives, j, key) && age < lives.cacheTtlMs
    else if s.world.grantsReadable then j == n
    else LoadedAt(start, events, n, lives, j, key) && age < lives.hardExpiryMs
  }

  /** Who asked then: the principal of the call that loaded the entry, or the present one. */
  function Asker(events: seq<Event>, j: nat, p: Principal): Principal
    requires j <= |events|
  {
    if j < |events| && events[j].Resolved? then events[j].principal else p
  }

  lemma {:induction false} SamePrincipal(events: seq<Event>, j: nat, p: Principal, w: World)
    requires PlainPrincipals(events, |events|) && Colonless(p.orgId) && j < |events| && events[j].Resolved?
    requires CacheKey(events[j].principal.orgId, events[j].principal.id) == CacheKey(p.orgId, p.id)
    ensures events[j].principal.orgId == p.orgId && events[j].principal.id == p.id
    ensures Granted(w, events[j].principal) == Granted(w, p)
  {
    hide Colonless;
    ColonSplits(p.orgId, p.id, events[j].principal.orgId, events[j].principal.id);
  }

  lemma {:induction false} EntryOf(start: World, events: seq<Event>, lives: Lifetimes, p: Principal) returns (j: nat)
    requires PlainPrincipals(events, |events|) && Colonless(p.orgId)
    requires CacheKey(p.orgId, p.id) in After(start, events, |events|, lives).cache
    ensures LoadedAt(start, events, |events|, lives, j, CacheKey(p.orgId, p.id))
    ensures var entry, w := After(start, events, |events|, lives).cache[CacheKey(p.orgId, p.id)], After(start, events, j, lives).world;
      && entry.repoIds == Granted(w, p) && entry.cachedAt == w.now && entry.hardExpiryAt == w.now + lives.hardExpiryMs
      && entry.clearance == events[j].principal.clearance && events[j].principal == p.(clearance := entry.clearance)
  {
    hide Granted, Colonless, PlainPrincipals, CacheKey, After;
    var key := CacheKey(p.orgId, p.id);
    RunsKeepCache(start, events, |events|, lives);
    j :| LoadedAt(start, events, |events|, lives, j, key);
    var w := After(start, events, j, lives).world;
    SamePrincipal(events, j, p, w);
    assert Holds(After(start, events, |events|, lives), key, Loaded(w, events[j].principal, lives.hardExpiryMs));
  }

  /** Every internal answer in every run: the principal's grants at the moment that must answer, minus what is
      denied now, with the clearance that the same principal asked with at that moment. */
  lemma {:induction false} AnswersArePastGrants(start: World, events: seq<Event>, lives: Lifetimes, p: Principal, tier: Option<Sensitivity>)
    requires PlainPrincipals(events, |events|) && Colonless(p.orgId)
    ensures var s := After(start, events, |events|, lives);
      var answer := Resolution(s.cache, lives, p, InternalCorpus, tier, s.world).1;
      answer.Ok? ==> exists j {:trigger Answers(start, events, lives, p, tier, j)} ::
        && 0 <= j <= |events| && Answers(start, events, lives, p, tier, j)
        && answer.value.permittedRepoIds == Without(Granted(After(start, events, j, lives).world, p), DeniedRepoIds(s.world, p))
        && answer.value.clearance == Asker(events, j, p).clearance && Asker(events, j, p) == p.(clearance := answer.value.clearance)
  {
    hide After, Granted, DeniedRepoIds, Without, CacheKey, PlainPrincipals, Colonless, LoadedAt;
    var n := |events|;
    var s := After(start, events, n, lives);
    var answer := Resolution(s.cache, lives, p, InternalCorpus, tier, s.world).1;
    if answer.Ok? {
      if !WithinTtl(s, p, tier, lives) && s.world.grantsReadable {
        assert Answers(start, events, lives, p, tier, n);
      } else {
        var j := EntryOf(start, events, lives, p);
        LoadedBefore(start, events, lives, j, CacheKey(p.orgId, p.id));
        assert Answers(start, events, lives, p, tier, j);
      }
    }
  }

  lemma {:induction false} LoadedBefore(start: World, events: seq<Event>, lives: Lifetimes, j: nat, key: string)
    requires LoadedAt(start, events, |events|, lives, j, key)
    ensures j < |events| && events[j].Resolved?
  {
  }

  /** A call and then a change of the world, from an empty cache. */
  lemma {:induction false} FirstLoads(start: World, p: Principal, later: World, lives: Lifetimes)
    requires start.grantsReadable
    ensures After(start, [Resolved(p, InternalCorpus, None), Change(later)], 2, lives)
         == State(later, map[CacheKey(p.orgId, p.id) := Loaded(start, p, lives.hardExpiryMs)])
  {
    hide CacheKey, Loaded, DeniedRepoIds, Without;
    var events := [Resolved(p, InternalCorpus, None), Change(later)];
    assert After(start, events, 0, lives) == State(start, map[]);
    assert After(start, events, 1, lives) == State(start, map[CacheKey(p.orgId, p.id) := Loaded(start, p, lives.hardExpiryMs)]);
  }

  /** A clearance that is lowered between two calls stays in force for the cache lifetime. */
  lemma {:induction false} LoweredClearanceStays(p: Principal, lower: Sensitivity, lives: Lifetimes, wait: nat)
    requires wait < lives.cacheTtlMs
    ensures
      var start, later := World(0, [], [], [], true, true), World(wait, [], [], [], true, true);
      var s := After(start, [Resolved(p, InternalCorpus, None), Change(later)], 2, lives);
      var answer := Resolution(s.cache, lives, p.(clearance := lower), InternalCorpus, None, s.world).1;
      answer.Ok? && answer.value.clearance == p.clearance
  {
    hide CacheKey, Granted, DeniedRepoIds, Without, After;
    FirstLoads(World(0, [], [], [], true, true), p, World(wait, [], [], [], true, true), lives);
  }

  lemma {:induction false} EmptyOrHas(ids: seq<string>)
    ensures ids == [] || exists id :: id in ids
  {
    if ids != [] { assert ids[0] in ids; }
  }

  lemma {:induction false} DeniedCovers(w: World, p: Principal, id: string)
    requires Revoked(w, p, id) && id in ReposOf(w.repos, p.orgId, |w.repos|)
    ensures id in DeniedRepoIds(w, p)
  {
    hide Active;
  }

  /** While every world's grants stay within the organisation's present repositories, no answer in any
      run contains a repository that is revoked at that moment; a wildcard leaves nothing. */
  lemma {:induction false} NothingRevokedIsPermitted(
    start: World, events: seq<Event>, lives: Lifetimes, p: Principal, tier: Option<Sensitivity>)
    requires PlainPrincipals(events, |events|) && Colonless(p.orgId)
    requires forall j :: 0 <= j <= |events| ==>
      InOrg(After(start, events, |events|, lives).world, p, Granted(After(start, events, j, lives).world, p))
    ensures var s := After(start, events, |events|, lives);
      var answer := Resolution(s.cache, lives, p, InternalCorpus, tier, s.world).1;
      answer.Ok? ==>
        && (forall id :: id in answer.value.permittedRepoIds ==> !Revoked(s.world, p, id))
        && (WildcardActive(s.world, p) ==> answer.value.permittedRepoIds == [])
  {
    hide After, Granted, DeniedRepoIds, CacheKey, PlainPrincipals, Colonless, WildcardActive, Resolution, Answers, Active, Without, Asker;
    var s := After(start, events, |events|, lives);
    var answer := Resolution(s.cache, lives, p, InternalCorpus, tier, s.world).1;
    AnswersArePastGrants(start, events, lives, p, tier);
    if answer.Ok? {
      var j :| 0 <= j <= |events| && Answers(start, events, lives, p, tier, j)
        && answer.value.permittedRepoIds == Without(Granted(After(start, events, j, lives).world, p), DeniedRepoIds(s.world, p));
      var w := After(start, events, j, lives).world;
      forall id | id in answer.value.permittedRepoIds ensures !Revoked(s.world, p, id) {
        assert id in Granted(w, p) && id !in DeniedRepoIds(s.world, p);
        if Revoked(s.world, p, id) { DeniedCovers(s.world, p, id); }
      }
      if WildcardActive(s.world, p) {
        assert forall id :: id in answer.value.permittedRepoIds ==> !Revoked(s.world, p, id);
        EmptyOrHas(answer.value.permittedRepoIds);
      }
    }
  }

  lemma {:induction false} WithoutNothing(ids: seq<string>, denied: seq<string>)
    ensures Without(ids, denied) == [] <==> forall id :: id in ids ==> id in denied
  {
    if Without(ids, denied) == [] {
      forall id | id in ids ensures id in denied {
        assert id in Without(ids, denied) <==> id in ids && id !in denied;
      }
    } else {
      assert Without(ids, denied)[0] in Without(ids, denied);
    }
  }

  /** A wildcard empties an answer exactly when the granted repositories are still the
      organisation's: it denies the repositories the organisation has now. */
  lemma {:induction false} WildcardEmpties(w: World, p: Principal, granted: seq<string>)
    requires WildcardActive(w, p)
    ensures Without(granted, DeniedRepoIds(w, p)) == [] <==> InOrg(w, p, granted)
  {
    hide WildcardActive, Without;
    WithoutNothing(granted, DeniedRepoIds(w, p));
  }

  /** A run in which a wildcard does not empty the answer: the principal resolves, then the repository
      leaves the organisation and access is revoked altogether, and within the cache lifetime the
      principal still gets the repository. */
  lemma {:induction false} WildcardMissesDepartedRepo(p: Principal, repo: string, lives: Lifetimes, wait: nat)
    requires wait < lives.cacheTtlMs
    ensures
      var start := World(0, [Grant(p.orgId, p.id, repo)], [], [Repo(p.orgId, repo)], true, true);
      var later := World(wait, [], [Revocation(p.orgId, p.id, None, wait + 1)], [], true, true);
      var s := After(start, [Resolved(p, InternalCorpus, None), Change(later)], 2, lives);
      var answer := Resolution(s.cache, lives, p, InternalCorpus, None, s.world).1;
      WildcardActive(s.world, p) && answer.Ok? && answer.value.permittedRepoIds == [repo]
  {
    hide CacheKey, After;
    var start := World(0, [Grant(p.orgId, p.id, repo)], [], [Repo(p.orgId, repo)], true, true);
    var later := World(wait, [], [Revocation(p.orgId, p.id, None, wait + 1)], [], true, true);
    assert Granted(start, p) == [repo] by { assert GrantedRepos(start.grants, p.orgId, p.id, 0) == []; }
    assert Active(later.revocations[0], later, p) && later.revocations[0].repoId.None?;
    assert DeniedRepoIds(later, p) == [];
    FirstLoads(start, p, later, lives);
    assert [repo][..0] == [];
    assert Without([repo], []) == [repo];
  }
}
