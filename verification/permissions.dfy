/** The permission resolver of apps/api/src/auth.ts. The database and the clock are a `World` handed
    to each call; a call sees one world from start to end. */
module Permissions {
  import opened Strings

  datatype Sensitivity = Public | Internal | Confidential | Restricted

  datatype Corpus = InternalCorpus | ExternalCorpus

  datatype Principal = Principal(id: string, orgId: string, clearance: Sensitivity)

  /** A row without a repository denies everything. */
  datatype Revocation = Revocation(orgId: string, principalId: string, repoId: Option<string>, expiresAt: int)

  datatype Grant = Grant(orgId: string, principalId: string, repoId: string)

  datatype Repo = Repo(orgId: string, id: string)

  datatype World = World(
    now: int, grants: seq<Grant>, revocations: seq<Revocation>, repos: seq<Repo>,
    grantsReadable: bool, revocationsReadable: bool)

  datatype CachedPermissions = CachedPermissions(
    repoIds: seq<string>, clearance: Sensitivity, cachedAt: int, hardExpiryAt: int)

  datatype AccessContext = AccessContext(
    orgId: string, principalId: string, permittedRepoIds: seq<string>, clearance: Sensitivity, corpus: Corpus,
    deniedRepoIds: seq<string>)

  datatype Result<T> = Ok(value: T) | PermissionsUnavailable | DatabaseFailed

  // ---------- What the database answers ----------

  function GrantedRepos(grants: seq<Grant>, orgId: string, principalId: string, n: nat): (r: seq<string>)
    requires n <= |grants|
    ensures forall id :: id in r <==> exists i :: 0 <= i < n && grants[i] == Grant(orgId, principalId, id)
  {
    if n == 0 then []
    else
      GrantedRepos(grants, orgId, principalId, n - 1)
      + if grants[n - 1].orgId == orgId && grants[n - 1].principalId == principalId then [grants[n - 1].repoId] else []
  }

  /** The repositories the principal is granted in that world. */
  function Granted(w: World, p: Principal): seq<string> { GrantedRepos(w.grants, p.orgId, p.id, |w.grants|) }

  function ReposOf(repos: seq<Repo>, orgId: string, n: nat): (r: seq<string>)
    requires n <= |repos|
    ensures forall id :: id in r <==> exists i :: 0 <= i < n && repos[i] == Repo(orgId, id)
  {
    if n == 0 then []
    else ReposOf(repos, orgId, n - 1) + if repos[n - 1].orgId == orgId then [repos[n - 1].id] else []
  }

  predicate Active(r: Revocation, w: World, p: Principal) {
    r.orgId == p.orgId && r.principalId == p.id && r.expiresAt > w.now
  }

  predicate WildcardActive(w: World, p: Principal) {
    exists i :: 0 <= i < |w.revocations| && Active(w.revocations[i], w, p) && w.revocations[i].repoId.None?
  }

  function NamedRevocations(w: World, p: Principal, n: nat): (r: seq<string>)
    requires n <= |w.revocations|
    ensures forall id :: id in r <==>
      exists i :: 0 <= i < n && Active(w.revocations[i], w, p) && w.revocations[i].repoId == Some(id)
  {
    if n == 0 then []
    else
      NamedRevocations(w, p, n - 1)
      + if Active(w.revocations[n - 1], w, p) && w.revocations[n - 1].repoId.Some?
        then [w.revocations[n - 1].repoId.value] else []
  }

  function DeniedRepoIds(w: World, p: Principal): seq<string> {
    if WildcardActive(w, p) then ReposOf(w.repos, p.orgId, |w.repos|)
    else NamedRevocations(w, p, |w.revocations|)
  }

  function Loaded(w: World, p: Principal, hardExpiryMs: int): CachedPermissions {
    CachedPermissions(Granted(w, p), p.clearance, w.now, w.now + hardExpiryMs)
  }

  function Without(ids: seq<string>, denied: seq<string>): (r: seq<string>)
    ensures forall id :: id in r <==> id in ids && id !in denied
  {
    if ids == [] then []
    else Without(ids[..|ids| - 1], denied) + if ids[|ids| - 1] in denied then [] else [ids[|ids| - 1]]
  }

  function CacheKey(orgId: string, principalId: string): string { orgId + ":" + principalId }

  // ---------- The resolver ----------

  datatype Lifetimes = Lifetimes(cacheTtlMs: int, hardExpiryMs: int)

  predicate Bypasses(tier: Option<Sensitivity>) {
    tier == Some(Confidential) || tier == Some(Restricted)
  }

  /** The permissions in force and the cache afterwards. */
  function Settle(
    cache: map<string, CachedPermissions>, lives: Lifetimes, p: Principal, tier: Option<Sensitivity>, w: World)
    : (map<string, CachedPermissions>, Result<CachedPermissions>)
  {
    var key := CacheKey(p.orgId, p.id);
    if !Bypasses(tier) && key in cache && w.now - cache[key].cachedAt < lives.cacheTtlMs then (cache, Ok(cache[key]))
    else if w.grantsReadable then
      (cache[key := Loaded(w, p, lives.hardExpiryMs)], Ok(Loaded(w, p, lives.hardExpiryMs)))
    else if key in cache && w.now < cache[key].hardExpiryAt then (cache, Ok(cache[key]))
    else (cache, PermissionsUnavailable)
  }

  function Answer(p: Principal, permissions: CachedPermissions, w: World): AccessContext {
    var denied := DeniedRepoIds(w, p);
    AccessContext(p.orgId, p.id, Without(permissions.repoIds, denied), permissions.clearance, InternalCorpus, denied)
  }

  function Resolution(
    cache: map<string, CachedPermissions>, lives: Lifetimes, p: Principal, corpus: Corpus, tier: Option<Sensitivity>,
    w: World): (map<string, CachedPermissions>, Result<AccessContext>)
  {
    if corpus.ExternalCorpus? then
      (cache, Ok(AccessContext(p.orgId, p.id, [], Public, ExternalCorpus, [])))
    else
      var (after, settled) := Settle(cache, lives, p, tier, w);
      match settled
      case Ok(permissions) =>
        if w.revocationsReadable then (after, Ok(Answer(p, permissions, w))) else (after, DatabaseFailed)
      case PermissionsUnavailable => (after, PermissionsUnavailable)
      case DatabaseFailed => (after, DatabaseFailed)
  }

  class PermissionResolver {
    const lives: Lifetimes
    var cache: map<string, CachedPermissions>

    constructor (cacheTtlMs: int, hardExpiryMs: int)
      ensures cache == map[] && lives == Lifetimes(cacheTtlMs, hardExpiryMs)
    {
      lives := Lifetimes(cacheTtlMs, hardExpiryMs);
      cache := map[];
    }

    method Resolve(p: Principal, corpus: Corpus, requiredTier: Option<Sensitivity>, w: World)
      returns (context: Result<AccessContext>)
      modifies this`cache
      ensures (cache, context) == Resolution(old(cache), lives, p, corpus, requiredTier, w)
    {
      if corpus.ExternalCorpus? {
        return Ok(AccessContext(p.orgId, p.id, [], Public, ExternalCorpus, []));
      }
      var bypassCache := requiredTier == Some(Confidential) || requiredTier == Some(Restricted);
      var cacheKey := CacheKey(p.orgId, p.id);
      var cached := if cacheKey in cache then Some(cache[cacheKey]) else None;
      var permissions;
      if !bypassCache && cached.Some? && w.now - cached.value.cachedAt < lives.cacheTtlMs {
        permissions := cached.value;
      } else {
        var loaded := Load(p, w);
        if loaded.Ok? {
          permissions := loaded.value;
          cache := cache[cacheKey := permissions];
        } else if cached.Some? && w.now < cached.value.hardExpiryAt {
          permissions := cached.value;
        } else {
          return PermissionsUnavailable;
        }
      }
      if !w.revocationsReadable { return DatabaseFailed; }
      var denied := DeniedRepoIds(w, p);
      context := Ok(AccessContext(
        p.orgId, p.id, Without(permissions.repoIds, denied), permissions.clearance, InternalCorpus, denied));
    }

    method Load(p: Principal, w: World) returns (loaded: Result<CachedPermissions>)
      ensures loaded == if w.grantsReadable then Ok(Loaded(w, p, lives.hardExpiryMs)) else DatabaseFailed
    {
      if !w.grantsReadable { return DatabaseFailed; }
      loaded := Ok(CachedPermissions(Granted(w, p), p.clearance, w.now, w.now + lives.hardExpiryMs));
    }

    method Invalidate(orgId: string, principalId: string)
      modifies this`cache
      ensures cache == old(cache) - {CacheKey(orgId, principalId)}
    {
      cache := cache - {CacheKey(orgId, principalId)};
    }

    method InvalidateAll()
      modifies this`cache
      ensures cache == map[]
    {
      cache := map[];
    }
  }
}
