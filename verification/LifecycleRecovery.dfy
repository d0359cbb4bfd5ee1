/**
 What an undisturbed reconnect achieves: with its handshake accepted the client is up again, on one new
 generation of healthy tasks; with it refused the client is down as before and the call says so.
 */
module LifecycleRecovery {
  import opened Wrappers
  import opened Lifecycle
  import opened LifecycleSafety
  import opened LifecycleShutdown
  import opened LifecycleHolder
  import opened LifecycleProgress
  import opened LifecycleOverlap

  /** The newest generation as a lock holder at `rank` leaves it when nothing else does anything. */
  function Expected(rank: int, eventTx: bool): Generation {
    Generation(
      if rank > 15 then Reading else ReaderUnborn,
      if rank > 13 then Writing else WriterUnborn,
      if rank > 16 then Beating else HeartUnborn,
      false, false, false, false, eventTx)
  }

  predicate LastIs(c: Core, rank: int) {
    && |c.gens| > 0 && c.writeSlot == c.Latest()
    && var last := c.gens[c.Latest()]; last == Expected(rank, last.eventTx)
  }

  /** All three tasks of the newest generation run undisturbed and are held, and the flags say so. */
  predicate Up(c: Core) {
    && LastIs(c, 22)
    && c.handles == Handles(Free, c.Latest(), Some(c.Latest()), Some(c.Latest()), Some(c.Latest()))
    && c.alive && !c.shuttingDown
  }

  /** A lock holder past its second check has done what its place says. */
  predicate OnTrack(s: State) {
    var c := s.core;
    && 8 <= c.Rank() && c.handles.lock.Free? && !c.shuttingDown
    && (9 <= c.Rank() ==> LastIs(c, c.Rank()))
    && (11 <= c.Rank() ==> c.alive)
    && (18 <= c.Rank() ==> Up(c))
    && (21 == c.Rank() ==> s.connection.Connected?)
  }

  lemma SwappingStaysOnTrack(s: State, t: State)
    requires OnTrack(s) && ReconnectStep(s, true) == Some(t) && s.core.holder.value.pc.SwapWriter?
    ensures OnTrack(t)
  {
  }

  lemma CloningStaysOnTrack(s: State, t: State)
    requires OnTrack(s) && ReconnectStep(s, true) == Some(t) && s.core.holder.value.pc.CloneEvents?
    ensures OnTrack(t)
  {
  }

  lemma FlaggingStaysOnTrack(s: State, t: State)
    requires OnTrack(s) && ReconnectStep(s, true) == Some(t)
    requires s.core.holder.value.pc.SetAlive? || s.core.holder.value.pc.ResetFlag?
    ensures OnTrack(t)
  {
  }

  lemma PausingStaysOnTrack(s: State, t: State)
    requires OnTrack(s) && ReconnectStep(s, true) == Some(t)
    requires s.core.holder.value.pc.ClearPending? || s.core.holder.value.pc.Touching?
    ensures OnTrack(t)
  {
  }

  lemma SpawningStaysOnTrack(s: State, t: State)
    requires OnTrack(s) && ReconnectStep(s, true) == Some(t)
    requires var pc := s.core.holder.value.pc; pc.SpawnWriter? || pc.SpawnReader? || pc.SpawnHeart?
    ensures OnTrack(t)
  {
  }

  lemma StoringStaysOnTrack(s: State, t: State)
    requires OnTrack(s) && ReconnectStep(s, true) == Some(t) && s.core.holder.value.pc.StoreHandles?
    ensures OnTrack(t)
  {
  }

  lemma ClosingStaysOnTrack(s: State, t: State)
    requires OnTrack(s) && ReconnectStep(s, true) == Some(t) && s.core.Rank() >= 18
    ensures if s.core.Rank() == 21 then Up(t.core) && t.connection.Connected? else OnTrack(t)
  {
    ReconnectKeepsShape(s, true, t);
  }

  lemma StaysOnTrack(s: State, t: State)
    requires OnTrack(s) && ReconnectStep(s, true) == Some(t)
    ensures if s.core.Rank() == 21 then Up(t.core) && t.connection.Connected? else OnTrack(t)
  {
    var pc := s.core.holder.value.pc;
    if pc.SwapWriter? {
      SwappingStaysOnTrack(s, t);
    } else if pc.CloneEvents? {
      CloningStaysOnTrack(s, t);
    } else if pc.SetAlive? || pc.ResetFlag? {
      FlaggingStaysOnTrack(s, t);
    } else if pc.ClearPending? || pc.Touching? {
      PausingStaysOnTrack(s, t);
    } else if pc.SpawnWriter? || pc.SpawnReader? || pc.SpawnHeart? {
      SpawningStaysOnTrack(s, t);
    } else if pc.StoreHandles? {
      StoringStaysOnTrack(s, t);
    } else {
      ClosingStaysOnTrack(s, t);
    }
  }

  /** Nothing but the client's connection and this call's answer has changed hands. */
  ghost predicate Answered(s: State, t: State, r: CallResult) {
    && s.core.holder.Some? && t.core.holder.None?
    && t.results == s.results[s.core.holder.value.call := r]
    && t.auto == s.auto && t.queued == s.queued && t.core.disconnects == s.core.disconnects
  }

  /** The step of a lock holder on track. */
  lemma TrackAdvances(s: State) returns (t: State)
    requires OnTrack(s) && Inv(s.core)
    ensures Leads(s, t) && Inv(t.core)
    ensures |t.core.gens| == |s.core.gens| + (if s.core.Rank() == 8 then 1 else 0)
    ensures s.core.Rank() < 21 ==> OnTrack(t) && SameHolder(s, t) && t.core.Rank() == s.core.Rank() + 1
    ensures s.core.Rank() == 21 ==> Up(t.core) && t.connection.Connected? && Answered(s, t, Ok(()))
  {
    t := ReconnectStep(s, true).value;
    ReconnectKeepsShape(s, true, t);
    ReconnectKeepsInv(s, true, t);
    StaysOnTrack(s, t);
    OneStep(s, StepReconnect(true), t);
  }

  lemma {:induction false} TrackRunsOn(s: State) returns (t: State)
    requires OnTrack(s) && Inv(s.core)
    ensures Leads(s, t) && Inv(t.core) && Up(t.core) && t.connection.Connected? && Answered(s, t, Ok(()))
    ensures |t.core.gens| == |s.core.gens| + (if s.core.Rank() == 8 then 1 else 0)
    decreases 21 - s.core.Rank()
  {
    t := TrackAdvances(s);
    if s.core.Rank() < 21 {
      var u := t;
      t := TrackRunsOn(u);
      Chain(s, u, t);
    }
  }

  /** A reconnect that has the lock, in a client that is down, with no `disconnect` in the way. */
  ghost predicate Recovering(s: State) {
    && Inv(s.core) && s.core.holder.Some? && s.core.holder.value.pc.CheckShutdown?
    && NoneShutting(s.core) && !s.core.shuttingDown && !s.core.alive
  }

  /** If the handshake is accepted and nobody interferes, the call ends with `Ok`, the watch at `Connected` and the
      client up on one new generation. */
  lemma ReconnectCanSucceed(s: State) returns (t: State)
    requires Recovering(s)
    ensures Leads(s, t) && Inv(t.core) && Answered(s, t, Ok(()))
    ensures Up(t.core) && t.connection.Connected? && |t.core.gens| == |s.core.gens| + 1
  {
    var u := ReachesRank(s, 8);
    NoneShuttingNoneLocks(u.core);
    t := TrackRunsOn(u);
    Chain(s, u, t);
  }

  /** If the handshake is refused, the call ends with `ConnectError`, the client down as before and the watch at
      this attempt, or at `Disconnected` if a task that was shut down had yet to fail. */
  lemma ReconnectCanFail(s: State) returns (t: State)
    requires Recovering(s)
    ensures Leads(s, t) && Inv(t.core) && Answered(s, t, Err(ConnectError))
    ensures !t.core.alive && !t.core.shuttingDown && |t.core.gens| == |s.core.gens|
    ensures t.connection == Reconnecting(s.core.holder.value.attempt) || t.connection.Disconnected?
  {
    var u := ReachesRank(s, 6);
    t := ReconnectStep(u, false).value;
    ReconnectKeepsShape(u, false, t);
    ReconnectKeepsInv(u, false, t);
    OneStep(u, StepReconnect(false), t);
    Chain(s, u, t);
  }
}
