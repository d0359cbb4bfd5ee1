/**
 The auto-reconnect monitor inside the lifecycle machine: for every outage and every pattern of
 failures its attempts are numbered 1, 2, ..., it stops at the first success, and it gives up once.
 */
module AutoReconnect {
  import opened Wrappers
  import opened Lifecycle
  import opened LifecycleSafety
  import opened LifecycleShutdown
  import opened LifecycleHolder

  /** Every call id is in at most one of: queued, holding the lock, answered. */
  ghost predicate CallsDistinct(s: State) {
    && (forall c :: c in s.queued ==> c !in s.results)
    && (s.core.holder.Some? ==> s.core.holder.value.call !in s.queued && s.core.holder.value.call !in s.results)
  }

  ghost predicate FailedCalls(s: State, n: int) {
    n <= |s.auto.calls| && forall i :: 0 <= i < n ==> s.auto.calls[i] in s.results && s.results[s.auto.calls[i]].Err?
  }

  predicate LastSucceeded(s: State) {
    var m := s.auto;
    |m.calls| > 0 && m.calls[|m.calls| - 1] in s.results && s.results[m.calls[|m.calls| - 1]].Ok?
  }

  ghost predicate Bounded(s: State) {
    var m := s.auto;
    var n := |m.attempts|;
    && |m.calls| == n <= m.maxAttempts
    && (forall i :: 0 <= i < n ==> m.attempts[i] == i + 1)
    && FailedCalls(s, n - 1)
    && m.giveUps <= 1
    && (m.giveUps == 1 ==> m.pc.Exited? && n == m.maxAttempts && FailedCalls(s, n))
    && match m.pc
       case Sleeping(k) => k == n + 1 <= m.maxAttempts && FailedCalls(s, n)
       case Calling(k, c) => n > 0 && k == n && c == m.calls[n - 1]
       case PostingGiveUp => n == m.maxAttempts && FailedCalls(s, n)
       case EmittingGiveUp => n == m.maxAttempts && FailedCalls(s, n)
       case Exited => n == 0 || m.giveUps == 1 || LastSucceeded(s)
       case _ => n > 0 ==> LastSucceeded(s)
  }

  /** The monitor's call is in flight or answered. */
  predicate InFlight(s: State) {
    s.auto.pc.Calling? ==>
      var c := s.auto.pc.call;
      c in s.results || c in s.queued || (s.core.holder.Some? && s.core.holder.value.call == c)
  }

  ghost predicate AutoInv(s: State) {
    && CallsDistinct(s) && Bounded(s) && InFlight(s)
    && s.auto.seen <= s.version && (s.auto.pc.Exited? || s.auto.maxAttempts > 0)
  }

  /** The monitor and the answers given so far are untouched, except that one call may be answered. */
  ghost predicate AnswersOnly(s: State, t: State) {
    && t.auto == s.auto
    && (forall c :: c in s.results ==> c in t.results && t.results[c] == s.results[c])
  }

  lemma AnsweringKeepsBounded(s: State, t: State)
    requires Bounded(s) && AnswersOnly(s, t)
    ensures Bounded(t)
  {
  }

  lemma HolderKeepsAutoInv(s: State, t: State)
    requires AutoInv(s) && s.core.holder.Some? && t.auto == s.auto && t.queued == s.queued
    requires (Advances(s, t) || Finishes(s, t)) && t.version >= s.version
    ensures AutoInv(t)
  {
    AnsweringKeepsBounded(s, t);
  }

  /** Neither monitor nor calls moved, and the lock is held by the same call. */
  lemma BystandingKeepsAutoInv(s: State, t: State)
    requires AutoInv(s) && SameCalls(s, t) && t.version >= s.version
    requires t.core.holder.Some? == s.core.holder.Some?
    requires t.core.holder.Some? ==> t.core.holder.value.call == s.core.holder.value.call
    ensures AutoInv(t)
  {
    AnsweringKeepsBounded(s, t);
  }

  lemma OutcomeKeepsInv(s: State, ok: bool, call: nat, t: State)
    requires AutoInv(s) && AutoStep(s, ok, call) == Some(t) && s.auto.pc.Calling?
    ensures AutoInv(t)
  {
  }

  lemma AttemptKeepsInv(s: State, ok: bool, call: nat, t: State)
    requires AutoInv(s) && AutoStep(s, ok, call) == Some(t) && s.auto.pc.Sleeping?
    ensures AutoInv(t)
  {
  }

  lemma GiveUpKeepsInv(s: State, ok: bool, call: nat, t: State)
    requires AutoInv(s) && AutoStep(s, ok, call) == Some(t)
    requires s.auto.pc.PostingGiveUp? || s.auto.pc.EmittingGiveUp?
    ensures AutoInv(t)
  {
  }

  lemma AutoStepKeepsInv(s: State, ok: bool, call: nat, t: State)
    requires AutoInv(s) && AutoStep(s, ok, call) == Some(t)
    ensures AutoInv(t)
  {
    if s.auto.pc.Calling? {
      OutcomeKeepsInv(s, ok, call, t);
    } else if s.auto.pc.Sleeping? {
      AttemptKeepsInv(s, ok, call, t);
    } else if s.auto.pc.PostingGiveUp? || s.auto.pc.EmittingGiveUp? {
      GiveUpKeepsInv(s, ok, call, t);
    }
  }

  lemma CallKeepsAutoInv(s: State, a: Action, t: State)
    requires AutoInv(s) && CallStep(s, a) == Some(t)
    ensures AutoInv(t)
  {
    AnsweringKeepsBounded(s, t);
  }

  lemma ReconnectKeepsAutoInv(s: State, ok: bool, t: State)
    requires AutoInv(s) && ReconnectStep(s, ok) == Some(t)
    ensures AutoInv(t)
  {
    ReconnectKeepsShape(s, ok, t);
    HolderKeepsAutoInv(s, t);
  }

  lemma ShutdownKeepsAutoInv(s: State, t: State)
    requires AutoInv(s) && ShutdownStep(s) == Some(t)
    ensures AutoInv(t)
  {
    ShutdownKeepsShape(s, t);
    BystandingKeepsAutoInv(s, t);
  }

  lemma TaskKeepsAutoInv(s: State, a: Action, t: State)
    requires AutoInv(s) && a.OfTask() && TaskStep(s, a) == Some(t)
    ensures AutoInv(t)
  {
    TaskOnlyCalms(s, a, t);
    TaskKeepsShape(s, a, t);
    BystandingKeepsAutoInv(s, t);
  }

  lemma StepKeepsAutoInv(s: State, a: Action, t: State)
    requires AutoInv(s) && Step(s, a) == Some(t)
    ensures AutoInv(t)
  {
    if a.StepReconnect? {
      ReconnectKeepsAutoInv(s, a.ok, t);
    } else if a.StepShutdown? {
      ShutdownKeepsAutoInv(s, t);
    } else if a.StepDisconnect? {
      DisconnectKeepsShape(s, a.id, a.ok, t);
      BystandingKeepsAutoInv(s, t);
    } else if a.StepAuto? {
      AutoStepKeepsInv(s, a.ok, a.call, t);
    } else if a.OfTask() {
      TaskKeepsAutoInv(s, a, t);
    } else {
      CallKeepsAutoInv(s, a, t);
    }
  }

  lemma {:induction false} RunKeepsAutoInv(s: State, acts: seq<Action>, t: State)
    requires AutoInv(s) && Run(s, acts) == Some(t)
    ensures AutoInv(t)
    decreases |acts|
  {
    if acts != [] {
      var u := RunSplits(s, acts);
      StepKeepsAutoInv(s, acts[0], u);
      RunKeepsAutoInv(u, acts[1..], t);
    }
  }

  lemma ReachedIsBounded(s: State)
    requires Reached(s)
    ensures AutoInv(s)
  {
    var capacity: nat, auto: bool, max: nat, acts: seq<Action> :| ReachedBy(s, capacity, auto, max, acts);
    RunKeepsAutoInv(Init(capacity, auto, max), acts, s);
  }

  /** In the outage being handled the attempts are 1, 2, ..., n with n at most the configured maximum, and every
      attempt but the last has failed.  When the monitor waits for the next outage the last attempt, if any,
      succeeded.  It tries to emit "reconnect failed" at most once, only after as many failures as allowed, and
      then it is gone.  And once it is gone with all allowed attempts failed, it has tried exactly once. */
  lemma AutoReconnectIsBounded(s: State)
    requires Reached(s)
    ensures
      var m := s.auto;
      var n := |m.attempts|;
      && n <= m.maxAttempts && |m.calls| == n
      && (forall i :: 0 <= i < n ==> m.attempts[i] == i + 1)
      && (forall i :: 0 <= i < n - 1 ==> m.calls[i] in s.results && s.results[m.calls[i]].Err?)
      && (m.pc.Waiting? && n > 0 ==> m.calls[n - 1] in s.results && s.results[m.calls[n - 1]].Ok?)
      && m.giveUps <= 1
      && (m.giveUps == 1 || m.pc.PostingGiveUp? || m.pc.EmittingGiveUp? ==>
            n == m.maxAttempts && forall i :: 0 <= i < n ==> m.calls[i] in s.results && s.results[m.calls[i]].Err?)
      && (m.giveUps == 1 ==> m.pc.Exited?)
    ensures
      var m := s.auto;
      var n := |m.attempts|;
      m.pc.Exited? && n > 0 && m.calls[n - 1] in s.results && s.results[m.calls[n - 1]].Err? ==> m.giveUps == 1
  {
    ReachedIsBounded(s);
  }

  lemma StepKeepsExited(s: State, a: Action, t: State)
    requires s.auto.pc.Exited? && Step(s, a) == Some(t)
    ensures t.auto == s.auto
  {
    if a.StepReconnect? {
      ReconnectKeepsShape(s, a.ok, t);
    } else if a.StepShutdown? {
      ShutdownKeepsShape(s, t);
    } else if a.StepDisconnect? {
      DisconnectKeepsShape(s, a.id, a.ok, t);
    } else if a.OfTask() {
      TaskKeepsShape(s, a, t);
    } else if !a.StepAuto? {
      CallKeepsShape(s, a, t);
    }
  }

  /** Once gone, the monitor never attempts or emits again. */
  lemma {:induction false} ExitedForEver(s: State, acts: seq<Action>, t: State)
    requires s.auto.pc.Exited? && Run(s, acts) == Some(t)
    ensures t.auto == s.auto
    decreases |acts|
  {
    if acts != [] {
      var u := RunSplits(s, acts);
      StepKeepsExited(s, acts[0], u);
      ExitedForEver(u, acts[1..], t);
    }
  }
}
