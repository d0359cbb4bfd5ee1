/**
 What an overlap leaves behind: from every state in which a reconnect is exposed, a `disconnect` that starts
 now can return with `alive` set and no task running.  So the condition of `LifecycleTruth` is exact.
 */
module LifecycleOverlap {
  import opened Wrappers
  import opened Lifecycle
  import opened LifecycleSafety
  import opened LifecycleShutdown
  import opened LifecycleHolder
  import opened LifecycleProgress
  import opened LifecycleTruth

  /** `disconnect` call `d` has returned, yet `alive` is set, `shutting_down` is not, and nothing runs: a
      later `reconnect` believes the client connected and does nothing. */
  ghost predicate Lies(c: Core, d: nat) {
    && c.alive && !c.shuttingDown && d in c.disconnects && c.disconnects[d].Finished?
    && c.Rank() == 18
    && forall g :: 0 <= g < |c.gens| ==> !c.gens[g].AnyRunning()
  }

  /** `disconnect` call `d` waits at the `task_handles` lock, its store of `alive` behind it. */
  ghost predicate Waits(c: Core, d: nat) {
    d in c.disconnects && c.disconnects[d].LockingHandles? && NoneShutting(c)
  }

  // ── The reconnect goes on under a waiting disconnect ─────────

  /** The same call holds the lock; no other call, answer or the monitor moved. */
  ghost predicate SameHolder(s: State, t: State) {
    && SameCalls(s, t) && t.core.disconnects == s.core.disconnects
    && s.core.holder.Some? && t.core.holder.Some?
    && t.core.holder.value.(pc := s.core.holder.value.pc) == s.core.holder.value
  }

  /** From its post of `Reconnecting` to its post of `Connected`, the lock holder's attempt or `Disconnected` is what
      the watch shows. */
  predicate ShowsAttempt(s: State) {
    3 <= s.core.Rank() <= 20 ==>
      s.connection == Reconnecting(s.core.holder.value.attempt) || s.connection.Disconnected?
  }

  /** What driving the lock holder towards `rank` leaves alone. */
  ghost predicate Approaches(s: State, t: State, rank: nat) {
    && SameHolder(s, t) && t.core.Rank() == rank
    && (ShowsAttempt(s) ==> ShowsAttempt(t))
    && (!s.core.shuttingDown ==> !t.core.shuttingDown)
    && (!s.core.alive ==> !t.core.alive)
    && (rank <= 8 ==> |t.core.gens| == |s.core.gens|)
  }

  lemma ApproachesByOne(s: State) returns (t: State)
    requires Inv(s.core) && NoneShutting(s.core) && 0 <= s.core.Rank() <= 9
    requires s.core.Rank() <= 7 ==> !s.core.shuttingDown && !s.core.alive
    ensures Leads(s, t) && Inv(t.core) && Approaches(s, t, s.core.Rank() + 1)
  {
    t := HolderAdvances(s);
  }

  /** The lock holder can be driven to `rank`, at most its store of `alive`, and no call but it moves. */
  lemma {:induction false} ReachesRank(s: State, rank: nat) returns (t: State)
    requires Inv(s.core) && NoneShutting(s.core) && 0 <= s.core.Rank() <= rank <= 10
    requires s.core.Rank() <= 7 ==> !s.core.shuttingDown && !s.core.alive
    ensures Leads(s, t) && Inv(t.core) && Approaches(s, t, rank)
    decreases rank - s.core.Rank()
  {
    if s.core.Rank() == rank {
      t := s;
      Stays(s);
    } else {
      var u := ApproachesByOne(s);
      t := ReachesRank(u, rank);
      Chain(s, u, t);
    }
  }

  /** From its reset of `shutting_down` on, the lock holder can be driven to its return. */
  lemma {:induction false} Returns(s: State) returns (t: State)
    requires Inv(s.core) && NoneShutting(s.core) && s.core.Rank() >= 12 && !s.core.shuttingDown && !s.core.alive
    ensures Leads(s, t) && Inv(t.core) && t.core.holder.None? && !t.core.shuttingDown && !t.core.alive
    ensures t.core.disconnects == s.core.disconnects
    decreases 22 - s.core.Rank()
  {
    t := HolderAdvances(s);
    if t.core.holder.Some? {
      var u := t;
      t := Returns(u);
      Chain(s, u, t);
    }
  }

  /** The newest generation is relaxed, and stays the newest. */
  ghost predicate StaysRelaxed(c: Core, d: Core) {
    |c.gens| > 0 && |d.gens| == |c.gens| && (Relaxed(c.gens[c.Latest()]) ==> Relaxed(d.gens[c.Latest()]))
  }

  lemma WriterSpawns(s: State, t: State)
    requires ReconnectStep(s, true) == Some(t) && s.core.holder.value.pc.SpawnWriter?
    ensures StaysRelaxed(s.core, t.core)
  {
  }

  lemma ReaderSpawns(s: State, t: State)
    requires ReconnectStep(s, true) == Some(t) && s.core.holder.value.pc.SpawnReader?
    ensures StaysRelaxed(s.core, t.core)
  {
  }

  lemma HeartSpawns(s: State, t: State)
    requires ReconnectStep(s, true) == Some(t) && s.core.holder.value.pc.SpawnHeart?
    ensures StaysRelaxed(s.core, t.core)
  {
  }

  /** A step spawns a task, or none, and nothing happens to the others. */
  lemma SpawnedIsRelaxed(s: State, t: State)
    requires 13 <= s.core.Rank() <= 17 && ReconnectStep(s, true) == Some(t)
    ensures StaysRelaxed(s.core, t.core)
  {
    match s.core.holder.value.pc
    case SpawnWriter => WriterSpawns(s, t);
    case Touching =>
    case SpawnReader => ReaderSpawns(s, t);
    case SpawnHeart => HeartSpawns(s, t);
    case StoreHandles =>
  }

  lemma NoneShuttingNoneLocks(c: Core)
    requires Inv(c) && NoneShutting(c) && c.Rank() != 5
    ensures c.handles.lock.Free?
  {
  }

  lemma UnlockedHolderSteps(s: State) returns (t: State)
    requires Inv(s.core) && NoneShutting(s.core) && s.core.holder.Some?
    requires s.core.Rank() != 5
    ensures ReconnectStep(s, true) == Some(t) && HolderShape(s, true, t) && Inv(t.core)
  {
    NoneShuttingNoneLocks(s.core);
    t := ReconnectStep(s, true).value;
    ReconnectKeepsShape(s, true, t);
    ReconnectKeepsInv(s, true, t);
  }

  /** One step of a lock holder that waits for nothing. */
  lemma HolderSteps(s: State) returns (t: State)
    requires Inv(s.core) && NoneShutting(s.core) && 10 <= s.core.Rank() <= 17
    ensures Leads(s, t) && Inv(t.core) && (s.core.Rank() >= 13 ==> StaysRelaxed(s.core, t.core))
    ensures t.core.Rank() == s.core.Rank() + 1 && t.core.disconnects == s.core.disconnects
    ensures t.core.alive == (s.core.Rank() == 10 || s.core.alive)
    ensures t.core.shuttingDown == (s.core.Rank() != 11 && s.core.shuttingDown)
  {
    t := UnlockedHolderSteps(s);
    OneStep(s, StepReconnect(true), t);
    if s.core.Rank() >= 13 {
      SpawnedIsRelaxed(s, t);
    }
  }

  /** Between setting `alive` and the first spawn. */
  lemma {:induction false} ReachesSpawning(s: State) returns (t: State)
    requires Inv(s.core) && NoneShutting(s.core) && 10 <= s.core.Rank() <= 13
    requires (s.core.Rank() >= 11 ==> s.core.alive) && (s.core.Rank() >= 12 ==> !s.core.shuttingDown)
    ensures Leads(s, t) && Inv(t.core) && t.core.Rank() == 13 && t.core.disconnects == s.core.disconnects
    ensures t.core.alive && !t.core.shuttingDown
    decreases 13 - s.core.Rank()
  {
    if s.core.Rank() == 13 {
      t := s;
      Stays(s);
    } else {
      var u := HolderSteps(s);
      t := ReachesSpawning(u);
      Chain(s, u, t);
    }
  }

  lemma SpawningAdvances(s: State) returns (t: State)
    requires Inv(s.core) && NoneShutting(s.core) && 13 <= s.core.Rank() <= 17
    requires s.core.alive && !s.core.shuttingDown && Relaxed(s.core.gens[s.core.Latest()])
    ensures Leads(s, t) && Inv(t.core) && t.core.Rank() == s.core.Rank() + 1
    ensures t.core.disconnects == s.core.disconnects
    ensures t.core.alive && !t.core.shuttingDown && Relaxed(t.core.gens[t.core.Latest()])
  {
    t := HolderSteps(s);
  }

  /** The tasks are spawned and stored, and nothing happens to them. */
  lemma {:induction false} ReachesSending(s: State) returns (t: State)
    requires Inv(s.core) && NoneShutting(s.core) && 13 <= s.core.Rank() <= 18
    requires s.core.alive && !s.core.shuttingDown && Relaxed(s.core.gens[s.core.Latest()])
    ensures Leads(s, t) && Inv(t.core) && t.core.Rank() == 18 && t.core.disconnects == s.core.disconnects
    ensures t.core.alive && !t.core.shuttingDown && Relaxed(t.core.gens[t.core.Latest()])
    decreases 18 - s.core.Rank()
  {
    if s.core.Rank() == 18 {
      t := s;
      Stays(s);
    } else {
      var u := SpawningAdvances(s);
      t := ReachesSending(u);
      Chain(s, u, t);
    }
  }

  /** Then the `disconnect` joins the new tasks and returns. */
  lemma ThenLies(s: State, d: nat) returns (t: State)
    requires Inv(s.core) && Waits(s.core, d) && s.core.Rank() == 18
    requires s.core.alive && !s.core.shuttingDown && Relaxed(s.core.gens[s.core.Latest()])
    ensures Leads(s, t) && Lies(t.core, d)
  {
    t := DisconnectRunsOn(s, d);
    NothingHeldNothingRuns(t.core);
  }

  lemma NothingHeldNothingRuns(c: Core)
    requires Inv(c) && c.handles.lock.Free? && c.handles.Empty() && !(13 < c.Rank() <= 17)
    ensures forall g :: 0 <= g < |c.gens| ==> !c.gens[g].AnyRunning()
  {
  }

  lemma WaitingEndsInLie(s: State, d: nat) returns (t: State)
    requires Inv(s.core) && Waits(s.core, d) && 0 <= s.core.Rank() <= 10
    requires s.core.Rank() <= 7 ==> !s.core.shuttingDown && !s.core.alive
    ensures Leads(s, t) && Lies(t.core, d)
  {
    var s1 := ReachesRank(s, 10);
    var s2 := ReachesSpawning(s1);
    var s3 := ReachesSending(s2);
    t := ThenLies(s3, d);
    Chain(s2, s3, t);
    Chain(s1, s2, t);
    Chain(s, s1, t);
  }

  // ── The disconnect comes to wait ─────────────────────────────

  lemma ComesToWait(s: State, d: nat) returns (t: State)
    requires Inv(s.core) && NoneShutting(s.core) && d in s.core.disconnects && s.core.disconnects[d].StoppingMedia?
    ensures Leads(s, t) && Inv(t.core) && Waits(t.core, d)
    ensures t == s.(core := s.core.(alive := false, disconnects := s.core.disconnects[d := LockingHandles]))
  {
    var a := StepDisconnect(d, true);
    var u := DisconnectStep(s, d, true).value;
    t := DisconnectStep(u, d, true).value;
    DisconnectKeepsInv(s, d, true, u);
    DisconnectKeepsInv(u, d, true, t);
    OneStep(u, a, t);
    StepFirst(s, a, u, t);
  }

  /** Before the store of `alive` the same reconnect sets it again. */
  lemma EarlyOverlapLies(s: State, d: nat) returns (t: State)
    requires Inv(s.core) && NoneShutting(s.core) && d in s.core.disconnects && s.core.disconnects[d].StoppingMedia?
    requires 8 <= s.core.Rank() <= 10
    ensures Leads(s, t) && Lies(t.core, d)
  {
    var u := ComesToWait(s, d);
    t := WaitingEndsInLie(u, d);
    Chain(s, u, t);
  }

  lemma {:induction false} BoundedAbove(m: set<nat>) returns (n: nat)
    ensures forall k :: k in m ==> k < n
    decreases |m|
  {
    n := 0;
    if m != {} {
      var k :| k in m;
      var rest := BoundedAbove(m - {k});
      n := if rest > k then rest else k + 1;
      assert m == (m - {k}) + {k};
    }
  }

  lemma SomeCallIsFresh(s: State) returns (k: nat)
    ensures FreshCall(s, k)
  {
    k := BoundedAbove(s.queued.Keys + s.results.Keys + if s.core.holder.Some? then {s.core.holder.value.call} else {});
  }

  /** Another reconnect is called and takes the free lock. */
  lemma ReconnectStarts(s: State) returns (t: State)
    requires Inv(s.core) && s.core.holder.None?
    ensures Leads(s, t) && Inv(t.core)
    ensures t.core.Rank() == 0 && t.core == s.core.(holder := t.core.holder)
  {
    var k := SomeCallIsFresh(s);
    var u := CallStep(s, CallReconnect(k, 1)).value;
    t := CallStep(u, AcquireReconnect(k)).value;
    CallKeepsInv(s, CallReconnect(k, 1), u);
    CallKeepsInv(u, AcquireReconnect(k), t);
    OneStep(u, AcquireReconnect(k), t);
    StepFirst(s, CallReconnect(k, 1), u, t);
  }

  /** Past the store of `alive`, the reset of the flag lets a second reconnect set it again. */
  lemma LateOverlapLies(s: State, d: nat) returns (t: State)
    requires Inv(s.core) && NoneShutting(s.core) && d in s.core.disconnects && s.core.disconnects[d].StoppingMedia?
    requires s.core.Rank() == 11
    ensures Leads(s, t) && Lies(t.core, d)
  {
    var s1 := HolderSteps(s);
    var s2 := ComesToWait(s1, d);
    var s3 := Returns(s2);
    var s4 := ReconnectStarts(s3);
    t := WaitingEndsInLie(s4, d);
    Chain(s3, s4, t);
    Chain(s2, s3, t);
    Chain(s1, s2, t);
    Chain(s, s1, t);
  }

  // ── The exact condition ──────────────────────────────────────

  lemma {:induction false} NoDisconnectIsQuiet(s: State, acts: seq<Action>)
    requires StartsNoDisconnect(acts)
    ensures QuietRun(s, acts)
    decreases |acts|
  {
    if acts != [] && Step(s, acts[0]).Some? {
      NoDisconnectIsQuiet(Step(s, acts[0]).value, acts[1..]);
    }
  }

  /** Every quiet continuation keeps `alive` truthful. */
  ghost predicate StaysTruthful(s: State) {
    forall acts :: Run(s, acts).Some? && QuietRun(s, acts) ==> TellsTruth(Run(s, acts).value.core)
  }

  lemma LyingAheadIsUntruthful(s: State, t: State, d: nat)
    requires Leads(s, t) && Lies(t.core, d)
    ensures !StaysTruthful(s)
  {
    var acts :| LedBy(s, t, acts);
    NoDisconnectIsQuiet(s, acts);
    assert !TellsTruth(Run(s, acts).value.core);
  }

  lemma TruthfulStays(s: State)
    requires Inv(s.core) && Truthful(s.core)
    ensures StaysTruthful(s)
  {
    forall acts | Run(s, acts).Some? && QuietRun(s, acts)
      ensures TellsTruth(Run(s, acts).value.core)
    {
      var t := Run(s, acts).value;
      QuietRunKeepsTruth(s, acts, t);
      TruthfulTellsTruth(t.core);
    }
  }

  /** The exact condition.  In a client in which no `disconnect` has started under an exposed reconnect, one
      that starts now keeps `alive` truthful, in every continuation without a further such start, if and only
      if no reconnect is exposed now. */
  lemma AliveIsTruthfulExactly(s: State, d: nat)
    requires QuietlyReached(s) && d !in s.core.disconnects
    ensures StaysTruthful(BeginDisconnect(s, d)) <==> !Exposed(s.core)
  {
    QuietlyReachedIsSound(s);
    var begun := BeginDisconnect(s, d);
    CallKeepsInv(s, CallDisconnect(d), begun);
    if Exposed(s.core) {
      assert NoneShutting(begun.core);
      var t;
      if s.core.Rank() == 11 {
        t := LateOverlapLies(begun, d);
      } else {
        t := EarlyOverlapLies(begun, d);
      }
      LyingAheadIsUntruthful(begun, t, d);
    } else {
      CallKeepsTruth(s, CallDisconnect(d), begun);
      TruthfulStays(begun);
    }
  }

  // ── The window is reachable ──────────────────────────────────

  /** The writer fails and clears `alive`. */
  lemma WriterFails(s: State) returns (t: State)
    requires Inv(s.core) && s.core.gens[0].writer.Writing?
    ensures Leads(s, t) && Inv(t.core) && t.core == s.core.(alive := false, gens := t.core.gens)
  {
    var u := SetWriter(s, 0, WriterFailed);
    t := SetWriter(u.(core := u.core.(alive := false)), 0, WriterPosting);
    StepKeepsInv(s, FailWriter(0), u);
    StepKeepsInv(u, StepWriter(0), t);
    OneStep(u, StepWriter(0), t);
    StepFirst(s, FailWriter(0), u, t);
  }

  /** Every client has a run without any `disconnect` in which a reconnect becomes exposed. */
  lemma ExposureIsReachable(capacity: nat, auto: bool, max: nat) returns (s: State)
    ensures QuietlyReached(s) && s.core.disconnects == map[] && s.core.Rank() == 8
  {
    var start := Init(capacity, auto, max);
    var s1 := WriterFails(start);
    var s2 := ReconnectStarts(s1);
    s := ReachesRank(s2, 8);
    Chain(s1, s2, s);
    Chain(start, s1, s);
    var acts :| LedBy(start, s, acts);
    NoDisconnectIsQuiet(start, acts);
    assert QuietlyReachedBy(s, capacity, auto, max, acts);
  }

  /** So every client has a run in which a `disconnect` returns and `alive` lies about it. */
  lemma AliveCanLie(capacity: nat, auto: bool, max: nat) returns (s: State, t: State)
    ensures QuietlyReached(s) && s.core.disconnects == map[]
    ensures Leads(BeginDisconnect(s, 0), t) && Lies(t.core, 0)
  {
    s := ExposureIsReachable(capacity, auto, max);
    QuietlyReachedIsSound(s);
    var begun := BeginDisconnect(s, 0);
    CallKeepsInv(s, CallDisconnect(0), begun);
    t := EarlyOverlapLies(begun, 0);
  }
}
