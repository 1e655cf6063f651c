/** One call of the resolver of apps/api/src/auth.ts, told by the rows of the database and the fields of the
    cached entry. */
module PermissionAnswers {
  import opened Strings
  import opened Permissions

  // ---------- What is denied ----------

  /** A row that revokes something of the principal's now. */
  ghost predicate RowApplies(r: Revocation, w: World, p: Principal) {
    r.orgId == p.orgId && r.principalId == p.id && w.now < r.expiresAt
  }

  /** A repository is denied when a row names it or, if a row names none, when it is one of the organisation's. */
  lemma {:induction false} DeniedAre(w: World, p: Principal, id: string)
    ensures var all := exists r :: r in w.revocations && RowApplies(r, w, p) && r.repoId == None;
      id in DeniedRepoIds(w, p)
      <==> (all && Repo(p.orgId, id) in w.repos) || (!all && exists r :: r in w.revocations && RowApplies(r, w, p) && r.repoId == Some(id))
  {
    if WildcardActive(w, p) {
      var i :| 0 <= i < |w.revocations| && Active(w.revocations[i], w, p) && w.revocations[i].repoId.None?;
      assert w.revocations[i] in w.revocations && RowApplies(w.revocations[i], w, p);
    }
    if r :| r in w.revocations && RowApplies(r, w, p) && r.repoId == None {
      var i :| 0 <= i < |w.revocations| && w.revocations[i] == r;
      assert Active(w.revocations[i], w, p);
    }
    if r :| r in w.revocations && RowApplies(r, w, p) && r.repoId == Some(id) {
      var i :| 0 <= i < |w.revocations| && w.revocations[i] == r;
      assert Active(w.revocations[i], w, p);
    }
    if i :| 0 <= i < |w.revocations| && Active(w.revocations[i], w, p) && w.revocations[i].repoId == Some(id) {
      assert w.revocations[i] in w.revocations && RowApplies(w.revocations[i], w, p);
    }
  }

  lemma {:induction false} GrantsAre(w: World, p: Principal, id: string)
    ensures id in Granted(w, p) <==> Grant(p.orgId, p.id, id) in w.grants
  {
    if Grant(p.orgId, p.id, id) in w.grants {
      var i :| 0 <= i < |w.grants| && w.grants[i] == Grant(p.orgId, p.id, id);
    }
  }

  // ---------- What a call answers ----------

  /** The external corpus needs no rights and shows no repository. */
  lemma {:induction false} ExternalAnswer(
    cache: map<string, CachedPermissions>, lives: Lifetimes, p: Principal, tier: Option<Sensitivity>, w: World)
    ensures Resolution(cache, lives, p, ExternalCorpus, tier, w)
         == (cache, Ok(AccessContext(p.orgId, p.id, [], Public, ExternalCorpus, [])))
  {
  }

  /** The principal's entry is young enough, and the tier leaves it at that. */
  predicate IsFresh(cache: map<string, CachedPermissions>, lives: Lifetimes, p: Principal, tier: Option<Sensitivity>, w: World) {
    var key := p.orgId + ":" + p.id;
    && key in cache && w.now < cache[key].cachedAt + lives.cacheTtlMs
    && (tier == None || tier == Some(Public) || tier == Some(Internal))
  }

  /** The principal's entry may be served while the database cannot be read. */
  predicate IsUsable(cache: map<string, CachedPermissions>, p: Principal, w: World) {
    var key := p.orgId + ":" + p.id;
    key in cache && w.now < cache[key].hardExpiryAt
  }

  lemma {:induction false} TierIs(tier: Option<Sensitivity>)
    ensures Bypasses(tier) <==> !(tier == None || tier == Some(Public) || tier == Some(Internal))
  {
    match tier
    case None =>
    case Some(s) => assert s.Public? || s.Internal? || s.Confidential? || s.Restricted?;
  }

  /** Access is refused exactly when the grants cannot be read and no entry will do; the call fails exactly when
      only the revocations cannot be read. */
  lemma {:induction false} WhenRefused(
    cache: map<string, CachedPermissions>, lives: Lifetimes, p: Principal, tier: Option<Sensitivity>, w: World)
    ensures var answer := Resolution(cache, lives, p, InternalCorpus, tier, w).1;
      var known := IsFresh(cache, lives, p, tier, w) || w.grantsReadable || IsUsable(cache, p, w);
      && (answer.PermissionsUnavailable? <==> !known)
      && (answer.DatabaseFailed? <==> known && !w.revocationsReadable)
      && (answer.Ok? <==> known && w.revocationsReadable)
  {
    hide Loaded, DeniedRepoIds, Without, Bypasses;
    TierIs(tier);
  }

  /** An answer names the principal, its denials, and the repositories of the entry or of the database that are
      not denied; the clearance comes from where the repositories do. */
  lemma {:induction false} WhatIsAnswered(
    cache: map<string, CachedPermissions>, lives: Lifetimes, p: Principal, tier: Option<Sensitivity>, w: World)
    requires Resolution(cache, lives, p, InternalCorpus, tier, w).1.Ok?
    ensures var answer, key := Resolution(cache, lives, p, InternalCorpus, tier, w).1.value, p.orgId + ":" + p.id;
      var cached := IsFresh(cache, lives, p, tier, w) || !w.grantsReadable;
      && answer.orgId == p.orgId && answer.principalId == p.id && answer.corpus == InternalCorpus
      && answer.deniedRepoIds == DeniedRepoIds(w, p)
      && (cached ==> key in cache && answer.clearance == cache[key].clearance)
      && (!cached ==> answer.clearance == p.clearance)
      && (forall id :: id in answer.permittedRepoIds <==>
            id !in answer.deniedRepoIds && if cached then id in cache[key].repoIds else Grant(p.orgId, p.id, id) in w.grants)
  {
    hide DeniedRepoIds, Granted, Bypasses;
    TierIs(tier);
    forall id ensures id in Granted(w, p) <==> Grant(p.orgId, p.id, id) in w.grants { GrantsAre(w, p, id); }
  }

  /** The cache changes exactly when the database is asked and answers: the principal's entry is then its grants
      and its clearance, with the times at which they age. */
  lemma {:induction false} WhatIsCached(
    cache: map<string, CachedPermissions>, lives: Lifetimes, p: Principal, tier: Option<Sensitivity>, w: World)
    ensures var after, key := Resolution(cache, lives, p, InternalCorpus, tier, w).0, p.orgId + ":" + p.id;
      if IsFresh(cache, lives, p, tier, w) || !w.grantsReadable then after == cache
      else
        && after.Keys == cache.Keys + {key} && (forall k :: k in cache && k != key ==> after[k] == cache[k])
        && after[key].clearance == p.clearance && after[key].cachedAt == w.now && after[key].hardExpiryAt == w.now + lives.hardExpiryMs
        && forall id :: id in after[key].repoIds <==> Grant(p.orgId, p.id, id) in w.grants
  {
    hide DeniedRepoIds, Granted, Without, Bypasses;
    TierIs(tier);
    forall id ensures id in Granted(w, p) <==> Grant(p.orgId, p.id, id) in w.grants { GrantsAre(w, p, id); }
  }
}
