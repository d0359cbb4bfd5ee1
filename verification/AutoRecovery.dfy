/**
 What the auto-reconnect monitor gets done: an outage it observes begins at attempt 1; for every pattern of
 failing and succeeding handshakes it can be driven through attempts 1, 2, ... to the first success, and the
 client is up again, or through all of them to one give-up; and it never gets stuck.
 */
module AutoRecovery {
  import opened Wrappers
  import opened Lifecycle
  import opened LifecycleSafety
  import opened LifecycleShutdown
  import opened LifecycleHolder
  import opened LifecycleProgress
  import opened LifecycleOverlap
  import opened LifecycleRecovery
  import opened AutoReconnect

  // ── Every observed outage begins ─────────────────────────────

  /** Whenever the monitor reads the watch, its move begins an outage at attempt 1 exactly when the watch shows
      `Disconnected` and attempts are allowed; otherwise it waits for the next change.  Nothing else moves. */
  lemma ObservedOutageBegins(s: State, ok: bool, call: nat, t: State)
    requires s.auto.pc.Observing? && Step(s, StepAuto(ok, call)) == Some(t)
    ensures t == s.(auto := t.auto) && t.auto.seen == s.version
    ensures s.connection.Disconnected? && s.auto.maxAttempts > 0 <==> t.auto.pc == Sleeping(1)
    ensures t.auto.pc == Sleeping(1) || t.auto.pc == Waiting
    ensures t.auto.pc == Sleeping(1) ==> t.auto.attempts == [] && t.auto.calls == []
  {
  }

  // ── Attempts follow the handshakes ───────────────────────────

  /** The client is down, nobody reconnects and no `disconnect` is in the way. */
  ghost predicate Down(s: State) {
    && Inv(s.core) && AutoInv(s) && s.core.holder.None?
    && NoneShutting(s.core) && !s.core.shuttingDown && !s.core.alive
  }

  /** Likewise, but up. */
  ghost predicate Healthy(s: State) {
    && Inv(s.core) && AutoInv(s) && s.core.holder.None?
    && NoneShutting(s.core) && Up(s.core)
  }

  /** Call `i` of the outage was answered as its handshake went. */
  predicate FollowsAt(s: State, pattern: seq<bool>, i: nat)
    requires i < |pattern| && i < |s.auto.calls|
  {
    && s.auto.calls[i] in s.results
    && s.results[s.auto.calls[i]] == if pattern[i] then Ok(()) else Err(ConnectError)
  }

  /** The first `n` attempts of the outage were 1 to `n`, and their calls answered as `pattern` says. */
  ghost predicate Follows(s: State, pattern: seq<bool>, n: nat) {
    && n <= |pattern| && |s.auto.attempts| == |s.auto.calls| == n
    && (forall i :: 0 <= i < n ==> s.auto.attempts[i] == i + 1)
    && (forall i :: 0 <= i < n ==> FollowsAt(s, pattern, i))
  }

  lemma LeadingKeepsAutoInv(s: State, t: State)
    requires AutoInv(s) && Leads(s, t)
    ensures AutoInv(t)
  {
    var acts :| LedBy(s, t, acts);
    RunKeepsAutoInv(s, acts, t);
  }

  /** A queued call takes the free lock. */
  lemma QueuedAcquires(s: State, call: nat) returns (t: State)
    requires Inv(s.core) && s.core.holder.None? && call in s.queued
    ensures Leads(s, t) && Inv(t.core)
    ensures t == s.(core := t.core, queued := s.queued - {call})
    ensures t.core == s.core.(holder := Some(Holder(call, s.queued[call], CheckShutdown)))
  {
    t := CallStep(s, AcquireReconnect(call)).value;
    CallKeepsInv(s, AcquireReconnect(call), t);
    OneStep(s, AcquireReconnect(call), t);
  }

  /** The monitor's sleep ends, and it calls. */
  lemma SleepEnds(s: State, k: nat) returns (t: State, call: nat)
    requires s.auto.pc == Sleeping(k)
    ensures Leads(s, t) && FreshCall(s, call)
    ensures
      && t == s.(queued := s.queued[call := k], auto := t.auto)
      && t.auto == s.auto.(pc := Calling(k, call), attempts := s.auto.attempts + [k], calls := s.auto.calls + [call])
  {
    call := SomeCallIsFresh(s);
    t := AutoStep(s, true, call).value;
    OneStep(s, StepAuto(true, call), t);
  }

  /** The monitor's call takes the lock. */
  lemma AttemptStarts(s: State, k: nat) returns (t: State)
    requires Down(s) && s.auto.pc == Sleeping(k)
    ensures Leads(s, t) && Recovering(t) && t.core.holder.value.attempt == k
    ensures
      var call := t.core.holder.value.call;
      && FreshCall(s, call) && t.queued == s.queued && t.results == s.results
      && t.auto == s.auto.(pc := Calling(k, call), attempts := s.auto.attempts + [k], calls := s.auto.calls + [call])
    ensures t.core.disconnects == s.core.disconnects && |t.core.gens| == |s.core.gens|
  {
    var u, call := SleepEnds(s, k);
    t := QueuedAcquires(u, call);
    assert u.queued - {call} == s.queued;
    Chain(s, u, t);
  }

  /** The attempt runs to its answer. */
  lemma AttemptEnds(s: State, succeeds: bool) returns (t: State)
    requires Recovering(s)
    ensures Leads(s, t) && Inv(t.core) && Answered(s, t, if succeeds then Ok(()) else Err(ConnectError))
    ensures |t.core.gens| == |s.core.gens| + if succeeds then 1 else 0
    ensures if succeeds then Up(t.core) && t.connection.Connected? else !t.core.alive && !t.core.shuttingDown
  {
    if succeeds {
      t := ReconnectCanSucceed(s);
    } else {
      t := ReconnectCanFail(s);
    }
  }

  lemma FollowsOneMore(s: State, pattern: seq<bool>, k: nat, t: State, call: nat)
    requires 1 <= k <= |pattern| && Follows(s, pattern, k - 1) && call !in s.results
    requires t.auto.attempts == s.auto.attempts + [k] && t.auto.calls == s.auto.calls + [call]
    requires t.results == s.results[call := if pattern[k - 1] then Ok(()) else Err(ConnectError)]
    ensures Follows(t, pattern, k)
  {
    forall i | 0 <= i < k
      ensures t.auto.attempts[i] == i + 1 && FollowsAt(t, pattern, i)
    {
      if i < k - 1 {
        assert FollowsAt(s, pattern, i);
      }
    }
  }

  /** What the client is like after an answer. */
  ghost predicate Settled(s: State, succeeded: bool) {
    if succeeded then Healthy(s) && s.connection.Connected? else Down(s)
  }

  lemma CallSettles(s: State, succeeds: bool) returns (t: State)
    requires Recovering(s) && AutoInv(s)
    ensures Leads(s, t) && Settled(t, succeeds) && Answered(s, t, if succeeds then Ok(()) else Err(ConnectError))
    ensures |t.core.gens| == |s.core.gens| + if succeeds then 1 else 0
  {
    t := AttemptEnds(s, succeeds);
    LeadingKeepsAutoInv(s, t);
  }

  /** One attempt: the call is made and answered, and the monitor has yet to look. */
  lemma AttemptSettles(s: State, pattern: seq<bool>, k: nat) returns (t: State)
    requires Down(s) && s.auto.pc == Sleeping(k) && 1 <= k <= |pattern| == s.auto.maxAttempts
    requires Follows(s, pattern, k - 1)
    ensures Leads(s, t) && Settled(t, pattern[k - 1]) && Follows(t, pattern, k)
    ensures t.auto.pc == Calling(k, t.auto.calls[k - 1])
    ensures t.auto.maxAttempts == s.auto.maxAttempts && t.auto.giveUps == s.auto.giveUps
    ensures t.core.disconnects == s.core.disconnects
    ensures |t.core.gens| == |s.core.gens| + if pattern[k - 1] then 1 else 0
  {
    var u := AttemptStarts(s, k);
    LeadingKeepsAutoInv(s, u);
    t := CallSettles(u, pattern[k - 1]);
    Chain(s, u, t);
    FollowsOneMore(s, pattern, k, t, u.core.holder.value.call);
  }

  lemma MonitorLooks(s: State, t: State)
    requires Inv(s.core) && AutoInv(s) && s.auto.pc.Calling? && AutoStep(s, true, 0) == Some(t)
    ensures Leads(s, t) && AutoInv(t) && t == s.(auto := s.auto.(pc := t.auto.pc))
  {
    AutoStepKeepsInv(s, true, 0, t);
    OneStep(s, StepAuto(true, 0), t);
  }

  lemma {:induction false} NoFollowingFails(pattern: seq<bool>, k: nat)
    requires k <= |pattern|
    ensures FirstSuccess(pattern, k) <= |pattern|
    ensures forall i :: k <= i < FirstSuccess(pattern, k) ==> !pattern[i]
    ensures FirstSuccess(pattern, k) < |pattern| ==> pattern[FirstSuccess(pattern, k)]
    decreases |pattern| - k
  {
    if k < |pattern| && !pattern[k] {
      NoFollowingFails(pattern, k + 1);
    }
  }

  /** The index of the first success from `k` on, or the length. */
  function FirstSuccess(pattern: seq<bool>, k: nat): nat
    requires k <= |pattern|
    decreases |pattern| - k
  {
    if k == |pattern| || pattern[k] then k else FirstSuccess(pattern, k + 1)
  }

  /** Some run ends the outage of `s` as `pattern` says: with the client up and the monitor waiting after the first
      success, or with all attempts failed and one give-up. */
  ghost predicate Ends(s: State, t: State, pattern: seq<bool>, first: nat) {
    && t.auto.maxAttempts == s.auto.maxAttempts && t.core.disconnects == s.core.disconnects
    && if first < |pattern|
       then && Follows(t, pattern, first + 1) && t.auto.pc.Waiting? && t.auto.giveUps == s.auto.giveUps
            && Healthy(t) && t.connection.Connected? && |t.core.gens| == |s.core.gens| + 1
       else && Follows(t, pattern, |pattern|) && t.auto.pc.Exited? && t.auto.giveUps == s.auto.giveUps + 1
            && Down(t) && t.connection.Disconnected? && |t.core.gens| == |s.core.gens|
  }

  /** After the last failure the monitor posts, emits and leaves. */
  lemma GivesUp(s: State, pattern: seq<bool>) returns (t: State)
    requires Down(s) && s.auto.pc.PostingGiveUp? && Follows(s, pattern, |pattern|)
    ensures Leads(s, t) && Ends(s, t, pattern, |pattern|)
  {
    var u := AutoStep(s, true, 0).value;
    t := AutoStep(u, true, 0).value;
    AutoKeepsShape(s, true, 0, u);
    AutoKeepsShape(u, true, 0, t);
    AutoStepKeepsInv(s, true, 0, u);
    AutoStepKeepsInv(u, true, 0, t);
    OneStep(u, StepAuto(true, 0), t);
    StepFirst(s, StepAuto(true, 0), u, t);
    assert Follows(t, pattern, |pattern|) by {
      SameFollows(s, t, pattern, |pattern|);
    }
  }

  lemma SameFollows(s: State, t: State, pattern: seq<bool>, n: nat)
    requires Follows(s, pattern, n)
    requires t.auto.attempts == s.auto.attempts && t.auto.calls == s.auto.calls && t.results == s.results
    ensures Follows(t, pattern, n)
  {
    forall i | 0 <= i < n
      ensures FollowsAt(t, pattern, i)
    {
      assert FollowsAt(s, pattern, i);
    }
  }

  /** The monitor looks at a failure: it sleeps again, or prepares to give up. */
  lemma LooksAtFailure(s: State, pattern: seq<bool>, k: nat) returns (t: State)
    requires Down(s) && 1 <= k <= |pattern| == s.auto.maxAttempts && !pattern[k - 1]
    requires Follows(s, pattern, k) && s.auto.pc == Calling(k, s.auto.calls[k - 1])
    ensures Leads(s, t) && Down(t) && Follows(t, pattern, k)
    ensures t.auto.pc == if k == |pattern| then PostingGiveUp else Sleeping(k + 1)
    ensures t.auto.maxAttempts == s.auto.maxAttempts && t.auto.giveUps == s.auto.giveUps
    ensures t.core == s.core
  {
    assert FollowsAt(s, pattern, k - 1);
    t := AutoStep(s, true, 0).value;
    MonitorLooks(s, t);
    SameFollows(s, t, pattern, k);
  }

  /** The monitor looks at a success and waits for the next outage. */
  lemma LooksAtSuccess(s: State, pattern: seq<bool>, k: nat) returns (t: State)
    requires Healthy(s) && s.connection.Connected? && 1 <= k <= |pattern| && pattern[k - 1]
    requires Follows(s, pattern, k) && s.auto.pc == Calling(k, s.auto.calls[k - 1])
    ensures Leads(s, t) && Healthy(t) && t.connection.Connected? && Follows(t, pattern, k) && t.auto.pc.Waiting?
    ensures t.auto.maxAttempts == s.auto.maxAttempts && t.auto.giveUps == s.auto.giveUps
    ensures t.core == s.core
  {
    assert FollowsAt(s, pattern, k - 1);
    t := AutoStep(s, true, 0).value;
    MonitorLooks(s, t);
    SameFollows(s, t, pattern, k);
  }

  lemma {:induction false} OutageRunsOn(s: State, pattern: seq<bool>, k: nat) returns (t: State)
    requires Down(s) && s.auto.pc == Sleeping(k) && 1 <= k <= |pattern| == s.auto.maxAttempts
    requires Follows(s, pattern, k - 1)
    ensures Leads(s, t) && Ends(s, t, pattern, FirstSuccess(pattern, k - 1))
    decreases |pattern| - k
  {
    var u := AttemptSettles(s, pattern, k);
    if pattern[k - 1] {
      t := LooksAtSuccess(u, pattern, k);
      Chain(s, u, t);
    } else {
      var v := LooksAtFailure(u, pattern, k);
      Chain(s, u, v);
      if k == |pattern| {
        t := GivesUp(v, pattern);
      } else {
        t := OutageRunsOn(v, pattern, k + 1);
      }
      Chain(s, v, t);
    }
  }

  /** For every pattern of handshakes, as long as attempts are allowed: some run takes the monitor from the start of
      an outage through attempts 1 to `n`, `n` the first success or the maximum, each answered as its handshake
      went.  After a success the client is up and the monitor waits; without one it gives up exactly once, the
      watch shows `Disconnected` and the monitor is gone. */
  lemma OutageFollowsPattern(s: State, pattern: seq<bool>) returns (t: State, first: nat)
    requires Down(s) && s.auto.pc == Sleeping(1) && s.auto.attempts == [] && |pattern| == s.auto.maxAttempts > 0
    ensures Leads(s, t) && Ends(s, t, pattern, first)
    ensures first <= |pattern| && (forall i :: 0 <= i < first ==> !pattern[i]) && (first < |pattern| ==> pattern[first])
  {
    first := FirstSuccess(pattern, 0);
    NoFollowingFails(pattern, 0);
    assert Follows(s, pattern, 0);
    t := OutageRunsOn(s, pattern, 1);
  }

  // ── Every failure is an outage ───────────────────────────────

  /** A step of a task brings the client no further down than it says. */
  ghost predicate Weakens(s: State, t: State) {
    && Leads(s, t) && Inv(t.core) && SameCalls(s, t) && t.version >= s.version
    && |t.core.gens| == |s.core.gens|
    && t.core == s.core.(gens := t.core.gens, alive := t.core.alive) && (t.core.alive ==> s.core.alive)
  }

  lemma TaskWeakens(s: State, a: Action, t: State)
    requires Inv(s.core) && a.OfTask() && TaskStep(s, a) == Some(t)
    ensures Weakens(s, t) && TaskShape(s, a, t, a.gen)
  {
    TaskOnlyCalms(s, a, t);
    TaskKeepsShape(s, a, t);
    StepKeepsInv(s, a, t);
    OneStep(s, a, t);
  }

  lemma WeakensFurther(s: State, t: State, u: State)
    requires Weakens(s, t) && Weakens(t, u)
    ensures Weakens(s, u)
  {
    Chain(s, t, u);
  }

  lemma ReaderFails(s: State, reason: Option<string>) returns (t: State)
    requires Inv(s.core) && s.core.gens[s.core.Latest()].reader.Reading?
    ensures Weakens(s, t) && s.core.Latest() == t.core.Latest()
    ensures t.core.gens[t.core.Latest()].reader == ReaderEmitting(reason) && !t.core.alive
  {
    var g: nat := s.core.Latest();
    var u := SetReader(s, g, ReaderFailed(reason));
    t := SetReader(u.(core := u.core.(alive := false)), g, ReaderEmitting(reason));
    TaskWeakens(s, FailReader(g, reason), u);
    TaskWeakens(u, StepReader(g), t);
    WeakensFurther(s, u, t);
  }

  lemma FailedReaderPosts(s: State, reason: Option<string>) returns (t: State)
    requires Inv(s.core) && s.core.gens[s.core.Latest()].reader == ReaderEmitting(reason)
    ensures Weakens(s, t) && t.version > s.version && t.connection.Disconnected?
  {
    var g: nat := s.core.Latest();
    var e := DisconnectedEvent(reason);
    var u := SetReader(EmitFrom(s, g, e), g, ReaderPosting);
    EmittingTouchesNoCore(s, g, e);
    t := SetReader(Post(u, Disconnected), g, ReaderClearing);
    TaskWeakens(s, StepReader(g), u);
    TaskWeakens(u, StepReader(g), t);
    WeakensFurther(s, u, t);
  }

  lemma WriterFailsAndPosts(s: State) returns (t: State)
    requires Inv(s.core) && s.core.gens[s.core.Latest()].writer.Writing?
    ensures Weakens(s, t) && !t.core.alive && t.version > s.version && t.connection.Disconnected?
  {
    var g: nat := s.core.Latest();
    var u := SetWriter(s, g, WriterFailed);
    var v := SetWriter(u.(core := u.core.(alive := false)), g, WriterPosting);
    t := SetWriter(Post(v, Disconnected), g, WriterDone);
    TaskWeakens(s, FailWriter(g), u);
    TaskWeakens(u, StepWriter(g), v);
    TaskWeakens(v, StepWriter(g), t);
    WeakensFurther(s, u, v);
    WeakensFurther(s, v, t);
  }

  lemma HeartFailsAndPosts(s: State) returns (t: State)
    requires Inv(s.core) && s.core.gens[s.core.Latest()].heart.Beating?
    ensures Weakens(s, t) && !t.core.alive && t.version > s.version && t.connection.Disconnected?
  {
    var g: nat := s.core.Latest();
    var u := SetHeart(s, g, HeartFailed);
    var v := SetHeart(u.(core := u.core.(alive := false)), g, HeartPosting);
    t := SetHeart(Post(v, Disconnected), g, HeartEmitting);
    TaskWeakens(s, TimeOutHeart(g), u);
    TaskWeakens(u, StepHeart(g), v);
    TaskWeakens(v, StepHeart(g), t);
    WeakensFurther(s, u, v);
    WeakensFurther(s, v, t);
  }

  /** What goes wrong: the device closes or the read fails, a write fails, or the heartbeat times out. */
  datatype Failure = ReadFailure(reason: Option<string>) | WriteFailure | Timeout

  lemma FailureBreaks(s: State, failure: Failure) returns (t: State)
    requires Inv(s.core) && Up(s.core)
    ensures Weakens(s, t) && !t.core.alive && t.version > s.version && t.connection.Disconnected?
  {
    match failure
    case ReadFailure(reason) =>
      var u := ReaderFails(s, reason);
      t := FailedReaderPosts(u, reason);
      WeakensFurther(s, u, t);
    case WriteFailure => t := WriterFailsAndPosts(s);
    case Timeout => t := HeartFailsAndPosts(s);
  }

  /** A failure takes the client down, and the watch and the monitor's view of it show that. */
  lemma FailureTakesDown(s: State, failure: Failure) returns (t: State)
    requires Healthy(s)
    ensures Leads(s, t) && Down(t) && SameCalls(s, t) && t.connection.Disconnected? && t.version != t.auto.seen
    ensures t.core.disconnects == s.core.disconnects && |t.core.gens| == |s.core.gens|
  {
    t := FailureBreaks(s, failure);
    LeadingKeepsAutoInv(s, t);
  }

  /** The waiting monitor wakes, checks the flag, reads the watch and begins an outage. */
  lemma MonitorBegins(s: State) returns (t: State)
    requires Down(s) && s.auto.pc.Waiting? && s.auto.maxAttempts > 0
    requires s.connection.Disconnected? && s.version != s.auto.seen
    ensures Leads(s, t) && Down(t) && t.core == s.core
    ensures t.auto == s.auto.(pc := Sleeping(1), seen := s.version, attempts := [], calls := [])
  {
    var u := AutoStep(s, true, 0).value;
    var v := AutoStep(u, true, 0).value;
    t := AutoStep(v, true, 0).value;
    OneStep(v, StepAuto(true, 0), t);
    StepFirst(u, StepAuto(true, 0), v, t);
    StepFirst(s, StepAuto(true, 0), u, t);
    LeadingKeepsAutoInv(s, t);
  }

  /** From every healthy client with a waiting monitor, each of the three failures is an outage, and every outage can
      be driven through the attempts of any pattern of handshakes to its end. */
  lemma FailureIsHandled(s: State, failure: Failure, pattern: seq<bool>) returns (t: State, first: nat)
    requires Healthy(s) && s.auto.pc.Waiting? && |pattern| == s.auto.maxAttempts > 0
    ensures Leads(s, t) && Ends(s, t, pattern, first)
    ensures first <= |pattern| && (forall i :: 0 <= i < first ==> !pattern[i]) && (first < |pattern| ==> pattern[first])
  {
    var u := FailureTakesDown(s, failure);
    var v := MonitorBegins(u);
    t, first := OutageFollowsPattern(v, pattern);
    Chain(u, v, t);
    Chain(s, u, t);
  }

  datatype Outage = Outage(failure: Failure, pattern: seq<bool>)

  /** Each outage allows `max` attempts, and one of them succeeds. */
  predicate Survivable(outages: seq<Outage>, max: nat) {
    forall i :: 0 <= i < |outages| ==> |outages[i].pattern| == max && true in outages[i].pattern
  }

  /** Any series of failures, each with some handshake accepted in time, is survived: after it the client is up on
      its `n`th new generation and the monitor waits. */
  lemma {:induction false} OutagesAreSurvived(s: State, outages: seq<Outage>) returns (t: State)
    requires Healthy(s) && s.auto.pc.Waiting? && Survivable(outages, s.auto.maxAttempts)
    ensures Leads(s, t) && Healthy(t) && t.auto.pc.Waiting? && |t.core.gens| == |s.core.gens| + |outages|
    decreases |outages|
  {
    if outages == [] {
      t := s;
      Stays(s);
    } else {
      var u, first := FailureIsHandled(s, outages[0].failure, outages[0].pattern);
      t := OutagesAreSurvived(u, outages[1..]);
      Chain(s, u, t);
    }
  }

  /** So every client with auto-reconnect survives any such series. */
  lemma EveryClientSurvives(capacity: nat, max: nat, outages: seq<Outage>) returns (t: State)
    requires max > 0 && Survivable(outages, max)
    ensures Leads(Init(capacity, true, max), t) && Healthy(t) && t.auto.pc.Waiting? && |t.core.gens| == 1 + |outages|
  {
    t := OutagesAreSurvived(Init(capacity, true, max), outages);
  }

  // ── The monitor never gets stuck ─────────────────────────────

  /** The lock can be had. */
  lemma LockIsReleased(s: State) returns (t: State)
    requires Inv(s.core)
    ensures Leads(s, t) && Inv(t.core) && t.core.holder.None? && t.auto == s.auto && t.queued == s.queued
    ensures s.core.holder.Some? ==> s.core.holder.value.call in t.results
    ensures s.core.holder.None? ==> t == s
  {
    if s.core.holder.Some? {
      t := HolderRunsOn(s);
    } else {
      t := s;
      Stays(s);
    }
  }

  /** A call in flight can be driven to its answer. */
  lemma CallIsAnswered(s: State, call: nat) returns (t: State)
    requires Inv(s.core)
    requires call in s.queued || (s.core.holder.Some? && s.core.holder.value.call == call)
    ensures Leads(s, t) && call in t.results && t.auto == s.auto
  {
    if call in s.queued {
      var u := LockIsReleased(s);
      var v := QueuedAcquires(u, call);
      t := HolderRunsOn(v);
      Chain(u, v, t);
      Chain(s, u, t);
    } else {
      t := HolderRunsOn(s);
    }
  }

  /** From every reachable state a monitor that neither waits for news nor has left can be driven to its next move. */
  lemma MonitorIsNeverStuck(s: State) returns (t: State, call: nat, u: State)
    requires Reached(s) && !s.auto.pc.Waiting? && !s.auto.pc.Exited?
    ensures Leads(s, t) && t.auto == s.auto && AutoStep(t, true, call) == Some(u)
  {
    ReachedIsSound(s);
    ReachedIsBounded(s);
    call := 0;
    t := s;
    Stays(s);
    if s.auto.pc.Calling? {
      if s.auto.pc.call !in s.results {
        t := CallIsAnswered(s, s.auto.pc.call);
      }
    } else if s.auto.pc.Sleeping? {
      call := SomeCallIsFresh(s);
    }
    u := AutoStep(t, true, call).value;
  }

  // ── A disconnect disables the monitor ────────────────────────

  /** The monitor is not past its check of `shutting_down`. */
  predicate Idle(m: Auto) { m.pc.Waiting? || m.pc.CheckingShutdown? }

  /** The flag is set for good, and the monitor between outages or gone. */
  predicate Disabled(s: State) {
    s.core.shuttingDown && !(8 <= s.core.Rank() <= 11) && (Idle(s.auto) || s.auto.pc.Exited?)
  }

  lemma ReconnectKeepsDisabled(s: State, ok: bool, t: State)
    requires Disabled(s) && ReconnectStep(s, ok) == Some(t)
    ensures Disabled(t)
  {
    ReconnectKeepsShape(s, ok, t);
  }

  lemma ShutdownKeepsDisabled(s: State, t: State)
    requires Inv(s.core) && Disabled(s) && ShutdownStep(s) == Some(t)
    ensures Disabled(t)
  {
    ShutdownKeepsShape(s, t);
  }

  lemma TaskKeepsDisabled(s: State, a: Action, t: State)
    requires Disabled(s) && a.OfTask() && TaskStep(s, a) == Some(t)
    ensures Disabled(t)
  {
    TaskOnlyCalms(s, a, t);
    TaskKeepsShape(s, a, t);
  }

  lemma CallKeepsDisabled(s: State, a: Action, t: State)
    requires Disabled(s) && CallStep(s, a) == Some(t)
    ensures Disabled(t)
  {
    CallKeepsShape(s, a, t);
  }

  lemma MonitorStaysDisabled(s: State, ok: bool, call: nat, t: State)
    requires Disabled(s) && AutoStep(s, ok, call) == Some(t)
    ensures Disabled(t)
  {
    AutoKeepsShape(s, ok, call, t);
  }

  lemma StepKeepsDisabled(s: State, a: Action, t: State)
    requires Inv(s.core) && Disabled(s) && Step(s, a) == Some(t)
    ensures Disabled(t)
  {
    if a.StepReconnect? {
      ReconnectKeepsDisabled(s, a.ok, t);
    } else if a.StepShutdown? {
      ShutdownKeepsDisabled(s, t);
    } else if a.StepDisconnect? {
      DisconnectKeepsShape(s, a.id, a.ok, t);
    } else if a.StepAuto? {
      MonitorStaysDisabled(s, a.ok, a.call, t);
    } else if a.OfTask() {
      TaskKeepsDisabled(s, a, t);
    } else {
      CallKeepsDisabled(s, a, t);
    }
  }

  lemma {:induction false} RunKeepsDisabled(s: State, acts: seq<Action>, t: State)
    requires Inv(s.core) && Disabled(s) && Run(s, acts) == Some(t)
    ensures Disabled(t)
    decreases |acts|
  {
    if acts != [] {
      var u := RunSplits(s, acts);
      StepKeepsInv(s, acts[0], u);
      StepKeepsDisabled(s, acts[0], u);
      RunKeepsDisabled(u, acts[1..], t);
    }
  }

  /** A reconnect about to reset the flag is driven past its reset and its first spawn. */
  lemma {:induction false} FlagIsReset(s: State) returns (t: State)
    requires Inv(s.core) && 8 <= s.core.Rank() <= 14 && (s.core.Rank() >= 12 ==> !s.core.shuttingDown)
    requires s.core.Rank() == 14 ==> s.core.gens[s.core.Latest()].writer.Writing?
    ensures Leads(s, t) && Inv(t.core) && t.auto == s.auto && !t.core.shuttingDown
    ensures t.core.gens[t.core.Latest()].writer.Writing?
    decreases 14 - s.core.Rank()
  {
    t := s;
    Stays(s);
    if s.core.Rank() < 14 {
      var u := HolderAdvances(s);
      t := FlagIsReset(u);
      Chain(s, u, t);
    }
  }

  /** An idle monitor that finds the flag clear and the watch at a new `Disconnected` calls. */
  lemma IdleMonitorCalls(s: State) returns (t: State)
    requires !s.core.shuttingDown && s.connection.Disconnected? && Idle(s.auto) && s.auto.maxAttempts > 0
    requires s.version != s.auto.seen
    ensures Leads(s, t) && t.auto.pc.Calling?
  {
    var u := if s.auto.pc.Waiting? then AutoStep(s, true, 0).value else s;
    var v := AutoStep(u, true, 0).value;
    var w := AutoStep(v, true, 0).value;
    var call;
    t, call := SleepEnds(w, 1);
    StepFirst(v, StepAuto(true, 0), w, t);
    StepFirst(u, StepAuto(true, 0), v, t);
    if s.auto.pc.Waiting? {
      StepFirst(s, StepAuto(true, 0), u, t);
    }
  }

  lemma AttemptFollows(s: State) returns (t: State)
    requires Inv(s.core) && AutoInv(s) && Idle(s.auto) && 8 <= s.core.Rank() <= 11
    ensures Leads(s, t) && t.auto.pc.Calling?
  {
    var u := FlagIsReset(s);
    LeadingKeepsAutoInv(s, u);
    var v := WriterFailsAndPosts(u);
    t := IdleMonitorCalls(v);
    Chain(u, v, t);
    Chain(s, u, t);
  }

  /** In no run does the monitor make another attempt. */
  ghost predicate NeverAttempts(s: State) {
    forall acts :: !Attempts(s, acts)
  }

  predicate Attempts(s: State, acts: seq<Action>) {
    Run(s, acts).Some? && Run(s, acts).value.auto.pc.Calling?
  }

  /** The exact condition.  A `disconnect` that begins while the monitor is between outages disables auto-reconnect, in
      every run, if and only if no reconnect stands between its second check and its reset of `shutting_down`. */
  lemma DisconnectDisablesExactly(s: State, d: nat)
    requires Reached(s) && d !in s.core.disconnects && Idle(s.auto)
    ensures NeverAttempts(BeginDisconnect(s, d)) <==> !(8 <= s.core.Rank() <= 11)
  {
    ReachedIsSound(s);
    ReachedIsBounded(s);
    var begun := BeginDisconnect(s, d);
    CallKeepsInv(s, CallDisconnect(d), begun);
    if 8 <= s.core.Rank() <= 11 {
      CallKeepsAutoInv(s, CallDisconnect(d), begun);
      var t := AttemptFollows(begun);
      var acts :| LedBy(begun, t, acts);
      assert Attempts(begun, acts);
    } else {
      forall acts
        ensures !Attempts(begun, acts)
      {
        if Run(begun, acts).Some? {
          RunKeepsDisabled(begun, acts, Run(begun, acts).value);
        }
      }
    }
  }

  /** When the last client handle is gone the waiting monitor can leave at once, and never acts again. */
  lemma MonitorLeavesWithClient(s: State, call: nat, acts: seq<Action>, u: State) returns (t: State)
    requires s.auto.pc.Waiting?
    ensures Step(s, StepAuto(false, call)) == Some(t) && t == s.(auto := s.auto.(pc := Exited))
    ensures Run(t, acts) == Some(u) ==> u.auto == t.auto
  {
    t := AutoStep(s, false, call).value;
    if Run(t, acts) == Some(u) {
      ExitedForEver(t, acts, u);
    }
  }

  /** The monitor wakes only for a version it has not seen. */
  lemma MonitorWakesForNews(s: State, ok: bool, call: nat, t: State)
    requires Reached(s) && s.auto.pc.Waiting? && Step(s, StepAuto(ok, call)) == Some(t)
    ensures t.auto.pc.CheckingShutdown? ==> s.auto.seen < s.version == t.auto.seen
    ensures t.auto.pc.CheckingShutdown? || t.auto.pc.Exited?
  {
    ReachedIsBounded(s);
  }
}
