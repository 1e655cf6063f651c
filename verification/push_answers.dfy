/** Which pushes are acted on, and what each event does, with the texts and times written out,
    apps/api/src/routes/webhooks.ts. */
module PushAnswers {
  import opened Strings
  import opened Webhooks

  // ---------- The reply ----------

  /** The remote's name, when the payload gives one that is not empty; the clone address counts only without a name. */
  function Named(p: Payload): Option<string> {
    match (p.fullName, p.cloneUrl)
    case (Some(name), _) => if |name| == 0 then None else Some(name)
    case (None, Some(url)) => if |url| == 0 then None else Some(url)
    case (None, None) => None
  }

  predicate Complete(p: Payload) { Named(p).Some? && p.after.Some? && |p.after.value| > 0 }

  /** The two default branches, and every tag. */
  predicate Watched(ref: Option<string>) {
    match ref
    case None => false
    case Some(r) =>
      r in {"refs/heads/main", "refs/heads/master"}
      || (|r| >= 10 && r[..10] == ['r', 'e', 'f', 's', '/', 't', 'a', 'g', 's', '/'])
  }

  /** Some digit is not a zero. */
  predicate NamesCommit(after: string) { exists i :: 0 <= i < |after| && after[i] as int != 48 }

  lemma {:induction false} TagIs(ref: string)
    ensures IsTag(ref) <==> |ref| >= 10 && ref[..10] == ['r', 'e', 'f', 's', '/', 't', 'a', 'g', 's', '/']
  {
    assert "refs/tags/" == ['r', 'e', 'f', 's', '/', 't', 'a', 'g', 's', '/'];
    if "refs/tags/" <= ref { assert ref[..10] == "refs/tags/"; }
  }

  lemma {:induction false} DeletionIs(after: string)
    requires |after| > 0
    ensures IsDeletion(after) <==> !NamesCommit(after)
  {
    assert '0' as int == 48;
  }

  /** What a push is answered, and under which key it is acted on. */
  lemma {:induction false} ReplyIs(p: Payload, registered: string -> Option<string>)
    ensures var (reply, key) := Judge(p, registered);
      && (reply == Ignored("incomplete payload") <==> !Complete(p))
      && (reply == Ignored("non-default branch") <==> Complete(p) && !Watched(p.ref))
      && (reply == Ignored("deletion") <==> Complete(p) && Watched(p.ref) && !NamesCommit(p.after.value))
      && (reply == Ignored("repo not registered") <==>
            Complete(p) && Watched(p.ref) && NamesCommit(p.after.value) && registered(Named(p).value).None?)
      && (reply == Accepted <==>
            Complete(p) && Watched(p.ref) && NamesCommit(p.after.value) && registered(Named(p).value).Some?)
      && (reply == Accepted ==> key == registered(Named(p).value).value + [':'] + p.ref.value)
  {
    hide IsTag, IsDeletion, NamesCommit;
    RemoteIs(p);
    ReasonsDiffer();
    TagIs(OrEmpty(p.ref));
    if Complete(p) { DeletionIs(p.after.value); }
  }

  lemma {:induction false} RemoteIs(p: Payload)
    ensures Remote(p) == match Named(p) case None => "" case Some(remote) => remote
    ensures Named(p).Some? ==> Named(p).value != ""
  {
  }

  lemma {:induction false} ReasonsDiffer()
    ensures "incomplete payload" != "non-default branch" && "incomplete payload" != "deletion"
    ensures "incomplete payload" != "repo not registered" && "non-default branch" != "deletion"
    ensures "non-default branch" != "repo not registered" && "deletion" != "repo not registered"
  {
    assert "incomplete payload"[0] == 'i' && "non-default branch"[0] == 'n' && "deletion"[0] == 'd' && "repo not registered"[0] == 'r';
  }

  // ---------- The state ----------

  /** All but one key and the timers of that key are as they were. */
  ghost predicate OthersKept(s: State, t: State, key: string, started: nat) {
    && (forall k :: k != key ==> (k in t.pending <==> k in s.pending) && (k in s.pending ==> t.pending[k] == s.pending[k]))
    && (forall i :: i != started && !(key in s.pending && i == s.pending[key].timer) ==>
          (i in t.timers <==> i in s.timers) && (i in s.timers ==> t.timers[i] == s.timers[i]))
  }

  /** An accepted push leaves its commit pending under its key, with one new timer that is due after a minute, and stops
      the timer that the key had. */
  lemma {:induction false} AcceptedPush(s: State, p: Payload, registered: string -> Option<string>)
    requires Complete(p) && Watched(p.ref) && NamesCommit(p.after.value) && registered(Named(p).value).Some?
    requires forall k :: k in s.pending ==> s.pending[k].timer < s.nextTimer
    ensures var key := registered(Named(p).value).value + [':'] + p.ref.value;
      var t := Step(s, Arrives(p, registered));
      && t.now == s.now
      && key in t.pending && t.pending[key] == Pending(p.after.value, s.nextTimer)
      && s.nextTimer in t.timers && t.timers[s.nextTimer] == Timer(key, s.now + 60000)
      && (key in s.pending ==> s.pending[key].timer !in t.timers)
      && OthersKept(s, t, key, s.nextTimer)
  {
    hide Complete, Watched, NamesCommit, Judge;
    ReplyIs(p, registered);
    AfterIs(p);
  }

  lemma {:induction false} AfterIs(p: Payload)
    requires Complete(p)
    ensures OrEmpty(p.after) == p.after.value
  {
  }

  /** A push that is not accepted changes nothing. */
  lemma {:induction false} IgnoredPush(s: State, p: Payload, registered: string -> Option<string>)
    requires !(Complete(p) && Watched(p.ref) && NamesCommit(p.after.value) && registered(Named(p).value).Some?)
    ensures Step(s, Arrives(p, registered)) == s
  {
    hide Watched, NamesCommit, Judge;
    ReplyIs(p, registered);
  }

  /** From its due time on a live timer can run, once; the key it ran for is no longer pending. Before, it cannot.
      Only time passing changes the clock, and nothing else. */
  lemma {:induction false} TimerRuns(s: State, timer: nat, ms: nat)
    ensures var t := Step(s, Passes(ms));
      t.now == s.now + ms && t.pending == s.pending && t.timers == s.timers && t.log == s.log
    ensures var t := Step(s, Runs(timer));
      if timer in s.timers && s.now >= s.timers[timer].due then
        var key := s.timers[timer].key;
        && t.now == s.now && key !in t.pending && timer !in t.timers && t.log == s.log + [Fired(key, s.now)]
        && (forall k :: k != key ==> (k in t.pending <==> k in s.pending) && (k in s.pending ==> t.pending[k] == s.pending[k]))
        && (forall i :: i != timer ==> (i in t.timers <==> i in s.timers) && (i in s.timers ==> t.timers[i] == s.timers[i]))
      else
        t == s
  {
  }
}
