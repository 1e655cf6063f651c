/** The debounced push handler of apps/api/src/routes/webhooks.ts. Timers and the clock belong to
    the runtime; a timer runs at its due time or later. */
module Webhooks {
  import opened Strings

  const DEBOUNCE_MS := 60_000

  datatype Payload = Payload(
    ref: Option<string>, after: Option<string>, fullName: Option<string>, cloneUrl: Option<string>)

  datatype Reply = Accepted | Ignored(reason: string)

  datatype Pending = Pending(commitSha: string, timer: nat)

  datatype Timer = Timer(key: string, due: int)

  /** What happened to a key: a push was accepted for it, or its timer ran. */
  datatype Entry = Pushed(key: string, at: int, commitSha: string) | Fired(key: string, at: int)

  datatype State = State(
    now: int, pending: map<string, Pending>, timers: map<nat, Timer>, nextTimer: nat, log: seq<Entry>)

  // ---------- Which pushes count ----------

  function OrEmpty(s: Option<string>): string { if s.Some? then s.value else "" }

  function Remote(p: Payload): string { if p.fullName.Some? then p.fullName.value else OrEmpty(p.cloneUrl) }

  predicate IsDefaultBranch(ref: string) { ref == "refs/heads/main" || ref == "refs/heads/master" }

  predicate IsTag(ref: string) { "refs/tags/" <= ref }

  predicate IsDeletion(sha: string) { sha != "" && forall i :: 0 <= i < |sha| ==> sha[i] == '0' }

  /** The key of a push that is acted on, or why it is not. */
  function Judge(p: Payload, registered: string -> Option<string>): (verdict: (Reply, string)) {
    var ref, after := OrEmpty(p.ref), OrEmpty(p.after);
    if Remote(p) == "" || after == "" then (Ignored("incomplete payload"), "")
    else if !IsDefaultBranch(ref) && !IsTag(ref) then (Ignored("non-default branch"), "")
    else if IsDeletion(after) then (Ignored("deletion"), "")
    else if registered(Remote(p)).None? then (Ignored("repo not registered"), "")
    else (Accepted, registered(Remote(p)).value + ":" + ref)
  }

  // ---------- Steps ----------

  /** The pending timer of the key, if any, is cleared and a new one is set. */
  function Push(s: State, key: string, commitSha: string): State {
    var timers := if key in s.pending then s.timers - {s.pending[key].timer} else s.timers;
    State(
      s.now, s.pending[key := Pending(commitSha, s.nextTimer)],
      timers[s.nextTimer := Timer(key, s.now + DEBOUNCE_MS)], s.nextTimer + 1,
      s.log + [Pushed(key, s.now, commitSha)])
  }

  predicate MayFire(s: State, timer: nat) { timer in s.timers && s.timers[timer].due <= s.now }

  /** The runtime runs a timer: it is spent, and its callback forgets the key. */
  function Fire(s: State, timer: nat): State
    requires MayFire(s, timer)
  {
    var key := s.timers[timer].key;
    State(s.now, s.pending - {key}, s.timers - {timer}, s.nextTimer, s.log + [Fired(key, s.now)])
  }

  class PushHandler {
    var now: int
    var pending: map<string, Pending>
    var timers: map<nat, Timer>
    var nextTimer: nat
    ghost var log: seq<Entry>

    ghost function Now(): State
      reads this
    {
      State(now, pending, timers, nextTimer, log)
    }

    constructor (start: int)
      ensures Now() == State(start, map[], map[], 0, [])
    {
      now, pending, timers, nextTimer, log := start, map[], map[], 0, [];
    }

    method HandlePush(body: Payload, registered: string -> Option<string>) returns (reply: Reply)
      modifies this
      ensures reply == Judge(body, registered).0
      ensures reply == Accepted ==> Now() == Push(old(Now()), Judge(body, registered).1, OrEmpty(body.after))
      ensures reply != Accepted ==> Now() == old(Now())
    {
      var ref := OrEmpty(body.ref);
      var after := OrEmpty(body.after);
      var remote := Remote(body);
      if remote == "" || after == "" { return Ignored("incomplete payload"); }
      if !IsDefaultBranch(ref) && !IsTag(ref) { return Ignored("non-default branch"); }
      if IsDeletion(after) { return Ignored("deletion"); }
      var repo := registered(remote);
      if repo.None? { return Ignored("repo not registered"); }
      var key := repo.value + ":" + ref;
      if key in pending { timers := timers - {pending[key].timer}; }
      var timer := nextTimer;
      nextTimer := nextTimer + 1;
      timers := timers[timer := Timer(key, now + DEBOUNCE_MS)];
      pending := pending[key := Pending(after, timer)];
      log := log + [Pushed(key, now, after)];
      reply := Accepted;
    }

    method RunTimer(timer: nat)
      requires MayFire(Now(), timer)
      modifies this
      ensures Now() == Fire(old(Now()), timer)
    {
      var key := timers[timer].key;
      timers := timers - {timer};
      pending := pending - {key};
      log := log + [Fired(key, now)];
    }
  }

  // ---------- Runs ----------

  datatype Event =
    | Arrives(body: Payload, registered: string -> Option<string>)
    | Runs(timer: nat)
    | Passes(ms: nat)

  function Step(s: State, e: Event): State {
    match e
    case Arrives(body, registered) =>
      var (reply, key) := Judge(body, registered);
      if reply == Accepted then Push(s, key, OrEmpty(body.after)) else s
    case Runs(timer) => if MayFire(s, timer) then Fire(s, timer) else s
    case Passes(ms) => s.(now := s.now + ms)
  }

  function After(start: int, events: seq<Event>, n: nat): State
    requires n <= |events|
  {
    if n == 0 then State(start, map[], map[], 0, []) else Step(After(start, events, n - 1), events[n - 1])
  }

  /** When the key's last push was accepted, and its commit. */
  function LastPush(log: seq<Entry>, n: nat, key: string): Option<Entry>
    requires n <= |log|
  {
    if n == 0 then None
    else if log[n - 1].Pushed? && log[n - 1].key == key then Some(log[n - 1])
    else LastPush(log, n - 1, key)
  }

  /** How often the key's timer has run since then. */
  function FiredSince(log: seq<Entry>, n: nat, key: string): nat
    requires n <= |log|
  {
    if n == 0 || (log[n - 1].Pushed? && log[n - 1].key == key) then 0
    else FiredSince(log, n - 1, key) + if log[n - 1] == Fired(key, log[n - 1].at) then 1 else 0
  }

  lemma {:induction false} LogPrefix(log: seq<Entry>, e: Entry, n: nat, key: string)
    requires n <= |log|
    ensures LastPush(log + [e], n, key) == LastPush(log, n, key)
    ensures FiredSince(log + [e], n, key) == FiredSince(log, n, key)
  {
    if n == 0 {
    } else {
      LogPrefix(log, e, n - 1, key);
    }
  }

  // ---------- What every run keeps ----------

  /** Live timers and pending keys are one to one, and each timer is due one window after the key's
      last push. */
  ghost predicate OneTimerEach(s: State) {
    && (forall key :: key in s.pending ==>
          var last := LastPush(s.log, |s.log|, key);
          && last.Some? && last.value.Pushed? && last.value.commitSha == s.pending[key].commitSha
          && s.pending[key].timer in s.timers
          && s.timers[s.pending[key].timer] == Timer(key, last.value.at + DEBOUNCE_MS))
    && (forall t :: t in s.timers ==>
          t < s.nextTimer && s.timers[t].key in s.pending && s.pending[s.timers[t].key].timer == t)
  }

  /** Since its last push a key's timer either is still live or has run exactly once. */
  ghost predicate NoPushLost(s: State) {
    forall key ::
      FiredSince(s.log, |s.log|, key)
      == if LastPush(s.log, |s.log|, key).Some? && key !in s.pending then 1 else 0
  }

  predicate InOrder(log: seq<Entry>, now: int) {
    && (forall i, j :: 0 <= i < j < |log| ==> log[i].at <= log[j].at)
    && (forall i :: 0 <= i < |log| ==> log[i].at <= now)
  }

  /** Two runs of one key's timer lie a whole window apart. */
  ghost predicate Spaced(log: seq<Entry>) {
    forall i, j :: 0 <= i < j < |log| && log[i].Fired? && log[j].Fired? && log[i].key == log[j].key ==>
      log[j].at - log[i].at >= DEBOUNCE_MS
  }

  ghost predicate Holds(s: State) {
    OneTimerEach(s) && NoPushLost(s) && InOrder(s.log, s.now) && Spaced(s.log)
  }

  lemma {:induction false} LoggedAt(log: seq<Entry>, e: Entry, key: string)
    ensures LastPush(log + [e], |log| + 1, key)
         == if e.Pushed? && e.key == key then Some(e) else LastPush(log, |log|, key)
    ensures FiredSince(log + [e], |log| + 1, key)
         == if e.Pushed? && e.key == key then 0
            else FiredSince(log, |log|, key) + if e.Fired? && e.key == key then 1 else 0
  {
    LogPrefix(log, e, |log|, key);
  }

  lemma {:induction false} PushKeepsTimers(s: State, key: string, commitSha: string)
    requires OneTimerEach(s)
    ensures OneTimerEach(Push(s, key, commitSha))
  {
    hide LastPush;
    var e := Pushed(key, s.now, commitSha);
    var after := Push(s, key, commitSha);
    forall k ensures LastPush(after.log, |after.log|, k) == if k == key then Some(e) else LastPush(s.log, |s.log|, k) {
      LoggedAt(s.log, e, k);
    }
  }

  lemma {:induction false} FireKeepsTimers(s: State, timer: nat)
    requires OneTimerEach(s) && MayFire(s, timer)
    ensures OneTimerEach(Fire(s, timer))
  {
    hide LastPush;
    var e := Fired(s.timers[timer].key, s.now);
    var after := Fire(s, timer);
    forall k ensures LastPush(after.log, |after.log|, k) == LastPush(s.log, |s.log|, k) {
      LoggedAt(s.log, e, k);
    }
  }

  /** Runs before the last push are not later than it. */
  lemma {:induction false} RanBefore(log: seq<Entry>, n: nat, now: int, key: string, i: nat)
    requires i < n <= |log| && InOrder(log, now) && log[i].Fired? && log[i].key == key
    requires FiredSince(log, n, key) == 0
    ensures LastPush(log, n, key).Some? && log[i].at <= LastPush(log, n, key).value.at
  {
    if log[n - 1].Pushed? && log[n - 1].key == key {
    } else {
      RanBefore(log, n - 1, now, key, i);
    }
  }

  lemma {:induction false} FireKeepsSpacing(s: State, timer: nat)
    requires Holds(s) && MayFire(s, timer)
    ensures Spaced(Fire(s, timer).log)
  {
    hide LastPush, FiredSince;
    var key, after := s.timers[timer].key, Fire(s, timer).log;
    forall i, j | 0 <= i < j < |after| && after[i].Fired? && after[j].Fired? && after[i].key == after[j].key
      ensures after[j].at - after[i].at >= DEBOUNCE_MS
    {
      if j == |s.log| {
        assert s.log[i] == after[i];
        RanBefore(s.log, |s.log|, s.now, key, i);
      } else {
        assert s.log[i] == after[i] && s.log[j] == after[j];
      }
    }
  }

  lemma {:induction false} PushKeeps(s: State, key: string, commitSha: string)
    requires Holds(s)
    ensures Holds(Push(s, key, commitSha))
  {
    hide LastPush, FiredSince, OneTimerEach;
    PushKeepsTimers(s, key, commitSha);
    forall k ensures
      var after := Push(s, key, commitSha);
      FiredSince(after.log, |after.log|, k) == if LastPush(after.log, |after.log|, k).Some? && k !in after.pending then 1 else 0
    {
      LoggedAt(s.log, Pushed(key, s.now, commitSha), k);
    }
  }

  lemma {:induction false} FireKeeps(s: State, timer: nat)
    requires Holds(s) && MayFire(s, timer)
    ensures Holds(Fire(s, timer))
  {
    hide LastPush, FiredSince, Spaced;
    FireKeepsTimers(s, timer);
    FireKeepsSpacing(s, timer);
    var after := Fire(s, timer);
    forall k ensures
      FiredSince(after.log, |after.log|, k) == if LastPush(after.log, |after.log|, k).Some? && k !in after.pending then 1 else 0
    {
      LoggedAt(s.log, Fired(s.timers[timer].key, s.now), k);
    }
  }

  /** In every run, timely or not: at most one live timer per key, no push lost, and runs of one key
      at least a window apart. */
  lemma {:induction false} EveryRunHolds(start: int, events: seq<Event>, n: nat)
    requires n <= |events|
    ensures Holds(After(start, events, n))
  {
    hide Holds, Push, Fire, Judge;
    if n == 0 {
      StartHolds(start);
    } else {
      var s := After(start, events, n - 1);
      EveryRunHolds(start, events, n - 1);
      match events[n - 1]
      case Arrives(body, registered) => PushKeeps(s, Judge(body, registered).1, OrEmpty(body.after));
      case Runs(timer) => if MayFire(s, timer) { FireKeeps(s, timer); }
      case Passes(ms) => PassKeeps(s, ms);
    }
  }

  lemma {:induction false} StartHolds(start: int)
    ensures Holds(State(start, map[], map[], 0, []))
  {
  }

  lemma {:induction false} PassKeeps(s: State, ms: nat)
    requires Holds(s)
    ensures Holds(s.(now := s.now + ms))
  {
    hide LastPush, FiredSince;
  }

  /** At most one timer is live for a key. */
  lemma {:induction false} OneLiveTimer(start: int, events: seq<Event>, a: nat, b: nat)
    requires var timers := After(start, events, |events|).timers;
      a in timers && b in timers && timers[a].key == timers[b].key
    ensures a == b
  {
    hide After, LastPush, NoPushLost, Spaced, InOrder;
    EveryRunHolds(start, events, |events|);
  }

  /** When every due timer has run, a key's timer has run since its last push exactly if the key has
      been quiet for a whole window, and then once. */
  lemma {:induction false} QuietMeansOneRun(start: int, events: seq<Event>, key: string)
    requires var s := After(start, events, |events|);
      && (forall t :: t in s.timers ==> s.timers[t].due > s.now)
      && LastPush(s.log, |s.log|, key).Some?
    ensures var s := After(start, events, |events|);
      FiredSince(s.log, |s.log|, key)
      == if s.now - LastPush(s.log, |s.log|, key).value.at >= DEBOUNCE_MS then 1 else 0
  {
    hide After, LastPush, FiredSince, Spaced;
    EveryRunHolds(start, events, |events|);
    var s := After(start, events, |events|);
    if key !in s.pending { RunIsLate(start, events, |events|, key); }
  }

  /** No timer runs before its window is over. */
  lemma {:induction false} RunIsLate(start: int, events: seq<Event>, n: nat, key: string)
    requires n <= |events|
    requires var s := After(start, events, n); LastPush(s.log, |s.log|, key).Some? && key !in s.pending
    ensures var s := After(start, events, n); s.now - LastPush(s.log, |s.log|, key).value.at >= DEBOUNCE_MS
  {
    hide LastPush, FiredSince, Spaced, Judge;
    if n == 0 {
      NothingLogged(key);
    } else {
      var s, e := After(start, events, n - 1), events[n - 1];
      EveryRunHolds(start, events, n - 1);
      if e.Runs? && MayFire(s, e.timer) {
        LoggedAt(s.log, Fired(s.timers[e.timer].key, s.now), key);
        if s.timers[e.timer].key != key { RunIsLate(start, events, n - 1, key); }
      } else if e.Arrives? && Judge(e.body, e.registered).0 == Accepted {
        LoggedAt(s.log, Pushed(Judge(e.body, e.registered).1, s.now, OrEmpty(e.body.after)), key);
        RunIsLate(start, events, n - 1, key);
      } else {
        RunIsLate(start, events, n - 1, key);
      }
    }
  }

  lemma {:induction false} NothingLogged(key: string)
    ensures LastPush([], 0, key) == None
  {
  }

  /** A key stands for one repository and one ref, as repository ids hold no colon. */
  lemma {:induction false} KeyIsRepoAndRef(a: string, x: string, b: string, y: string)
    requires Colonless(a) && Colonless(b)
    ensures a + ":" + x == b + ":" + y <==> a == b && x == y
  {
    if a + ":" + x == b + ":" + y { ColonSplits(a, x, b, y); }
  }
}
