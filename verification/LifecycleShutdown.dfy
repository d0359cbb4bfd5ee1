/**
 `TaskHandles::shutdown`, by whichever caller holds `task_handles`, and `disconnect` around it: what
 their steps touch.
 */
module LifecycleShutdown {
  import opened Wrappers
  import opened Lifecycle
  import opened LifecycleSafety

  /** The tasks are where they were; at most the cancellation token and abort requests changed. */
  predicate SameTasks(v: Generation, w: Generation) {
    w == v.(cancelled := w.cancelled, readerAborted := w.readerAborted, writerAborted := w.writerAborted,
            heartAborted := w.heartAborted)
  }

  ghost predicate AllSameTasks(c: Core, d: Core) {
    && |d.gens| == |c.gens|
    && (forall g :: 0 <= g < |c.gens| ==> SameTasks(c.gens[g], d.gens[g]))
  }

  /** A step inside `shutdown` sets tokens and abort requests, takes handles and advances. */
  ghost predicate Reflags(s: State, t: State) {
    && t == s.(core := s.core.(gens := t.core.gens, handles := t.core.handles))
    && AllSameTasks(s.core, t.core)
    && s.core.handles.lock.Locked? && t.core.handles.lock.Locked?
    && t.core.handles.lock.owner == s.core.handles.lock.owner
    && StageRank(t.core.handles.lock.stage) > StageRank(s.core.handles.lock.stage)
  }

  /** The first step cancels the token of the tasks to be joined. */
  predicate Cancels(s: State, t: State) {
    s.core.handles.token < |t.core.gens| && t.core.gens[s.core.handles.token].cancelled
  }

  /** The last step unlocks `task_handles` and lets its owner go on. */
  predicate Releases(s: State, t: State) {
    var h := s.core.handles;
    && h.lock.Locked? && h.lock.stage.Releasing?
    && match h.lock.owner
       case ByReconnect =>
         && s.core.holder.Some?
         && var next := s.core.holder.value.(pc := Connecting);
            t == s.(core := s.core.(handles := h.(lock := Free), holder := Some(next)))
       case ByDisconnect(d) =>
         t == s.(core := s.core.(handles := h.(lock := Free), disconnects := s.core.disconnects[d := ClearingPending]))
  }

  lemma StagingShape(s: State, stage: Stage)
    requires s.core.handles.lock.Locked? && StageRank(stage) > StageRank(s.core.handles.lock.stage)
    ensures Reflags(s, AtStage(s, stage))
  {
  }

  lemma AbortingShape(s: State, g: nat, value: Generation, handles: Handles)
    requires g < |s.core.gens| && SameTasks(s.core.gens[g], value)
    requires s.core.handles.lock.Locked? && handles.lock.Locked? && handles.lock.owner == s.core.handles.lock.owner
    requires StageRank(handles.lock.stage) > StageRank(s.core.handles.lock.stage)
    ensures Reflags(s, WithHandles(WithGen(s, g, value), handles))
  {
  }

  lemma TakingShape(s: State, t: State)
    requires ShutdownStep(s) == Some(t)
    requires var g := s.core.handles.lock.stage; g.TakingReader? || g.TakingWriter? || g.TakingHeart?
    ensures Reflags(s, t)
  {
    var h := s.core.handles;
    match h.lock.stage
    case TakingReader =>
      if h.reader.None? {
        StagingShape(s, TakingWriter);
      } else {
        var g := h.reader.value;
        var to := h.lock.(stage := AwaitingReader(g));
        AbortingShape(s, g, s.core.gens[g].(readerAborted := true), h.(reader := None, lock := to));
      }
    case TakingWriter =>
      if h.writer.None? {
        StagingShape(s, TakingHeart);
      } else {
        var g := h.writer.value;
        var to := h.lock.(stage := AwaitingWriter(g));
        AbortingShape(s, g, s.core.gens[g].(writerAborted := true), h.(writer := None, lock := to));
      }
    case TakingHeart =>
      if h.heart.None? {
        StagingShape(s, Releasing);
      } else {
        var g := h.heart.value;
        var to := h.lock.(stage := AwaitingHeart(g));
        AbortingShape(s, g, s.core.gens[g].(heartAborted := true), h.(heart := None, lock := to));
      }
  }

  lemma AwaitingShape(s: State, t: State)
    requires ShutdownStep(s) == Some(t)
    requires var g := s.core.handles.lock.stage; g.AwaitingReader? || g.AwaitingWriter? || g.AwaitingHeart?
    ensures Reflags(s, t)
  {
    match s.core.handles.lock.stage
    case AwaitingReader(_) => StagingShape(s, TakingWriter);
    case AwaitingWriter(_) => StagingShape(s, TakingHeart);
    case AwaitingHeart(_) => StagingShape(s, Releasing);
  }

  lemma CancellingShape(s: State, t: State)
    requires ShutdownStep(s) == Some(t) && s.core.handles.lock.stage.Cancelling?
    ensures Reflags(s, t) && Cancels(s, t)
  {
    var h := s.core.handles;
    var to := h.(lock := h.lock.(stage := TakingReader));
    AbortingShape(s, h.token, s.core.gens[h.token].(cancelled := true), to);
  }

  /** No step of `shutdown` moves a task, a flag, a channel, or a call other than the lock's owner. */
  lemma ShutdownKeepsShape(s: State, t: State)
    requires ShutdownStep(s) == Some(t)
    ensures if s.core.handles.lock.stage.Releasing? then Releases(s, t) else Reflags(s, t)
    ensures s.core.handles.lock.stage.Cancelling? ==> Cancels(s, t)
  {
    match s.core.handles.lock.stage
    case Cancelling => CancellingShape(s, t);
    case TakingReader => TakingShape(s, t);
    case TakingWriter => TakingShape(s, t);
    case TakingHeart => TakingShape(s, t);
    case Releasing =>
    case AwaitingReader(_) => AwaitingShape(s, t);
    case AwaitingWriter(_) => AwaitingShape(s, t);
    case AwaitingHeart(_) => AwaitingShape(s, t);
  }

  // ── disconnect ───────────────────────────────────────────────

  function DisconnectRank(pc: DisconnectPc): nat {
    match pc
    case StoppingMedia => 0
    case StoringAlive => 1
    case LockingHandles => 2
    case ShuttingTasks => 3
    case ClearingPending => 4
    case PostingDisconnected => 5
    case EmittingDisconnected => 6
    case ClosingEvents => 7
    case Finished => 8
  }

  /** A step of `disconnect` call `d` outside `shutdown`: it clears `alive` and the event slot, posts
      `Disconnected` and emits the terminal event at their places, and moves no other call and no task. */
  predicate DisconnectTouches(s: State, ok: bool, t: State, d: nat) {
    var c, e := s.core, t.core;
    && d in c.disconnects && d in e.disconnects
    && t == s.(core := e, connection := t.connection, version := t.version, stream := t.stream)
    && e == c.(alive := e.alive, eventSlot := e.eventSlot, handles := e.handles,
               disconnects := c.disconnects[d := e.disconnects[d]])
    && e.alive == (c.alive && !c.disconnects[d].StoringAlive?)
    && e.eventSlot == (c.eventSlot && !c.disconnects[d].ClosingEvents?)
    && e.handles == c.handles.(lock := e.handles.lock)
    && (c.disconnects[d].LockingHandles? || e.handles == c.handles)
    && (if c.disconnects[d].PostingDisconnected? then PostsDisconnected(s, t) else PostsNothing(s, t))
    && t.stream == if c.disconnects[d].EmittingDisconnected?
                   then EmitThroughSlot(s, DisconnectedEvent(None), ok).stream
                   else s.stream
  }

  predicate DisconnectShape(s: State, ok: bool, t: State, d: nat) {
    && DisconnectTouches(s, ok, t, d)
    && DisconnectRank(t.core.disconnects[d]) == DisconnectRank(s.core.disconnects[d]) + 1
  }

  /** Nothing but the call itself moves at these places. */
  lemma PlainDisconnectShape(s: State, ok: bool, d: nat, pc: DisconnectPc)
    requires d in s.core.disconnects && DisconnectRank(pc) == DisconnectRank(s.core.disconnects[d]) + 1
    requires s.core.disconnects[d].StoppingMedia? || s.core.disconnects[d].ClearingPending?
    ensures DisconnectShape(s, ok, MoveDisconnect(s, d, pc), d)
  {
    assert s.core.disconnects[d := s.core.disconnects[d]] == s.core.disconnects;
  }

  lemma FlagDisconnectShape(s: State, d: nat, ok: bool, t: State)
    requires DisconnectStep(s, d, ok) == Some(t)
    requires s.core.disconnects[d].StoringAlive? || s.core.disconnects[d].ClosingEvents?
    ensures DisconnectShape(s, ok, t, d)
  {
  }

  lemma LockDisconnectShape(s: State, d: nat, ok: bool, t: State)
    requires DisconnectStep(s, d, ok) == Some(t) && s.core.disconnects[d].LockingHandles?
    ensures DisconnectShape(s, ok, t, d)
  {
  }

  lemma SendDisconnectShape(s: State, d: nat, ok: bool, t: State)
    requires DisconnectStep(s, d, ok) == Some(t)
    requires s.core.disconnects[d].PostingDisconnected? || s.core.disconnects[d].EmittingDisconnected?
    ensures DisconnectShape(s, ok, t, d)
  {
  }

  lemma DisconnectKeepsShape(s: State, d: nat, ok: bool, t: State)
    requires DisconnectStep(s, d, ok) == Some(t)
    ensures DisconnectShape(s, ok, t, d)
  {
    match s.core.disconnects[d]
    case StoppingMedia => PlainDisconnectShape(s, ok, d, StoringAlive);
    case StoringAlive => FlagDisconnectShape(s, d, ok, t);
    case LockingHandles => LockDisconnectShape(s, d, ok, t);
    case ClearingPending => PlainDisconnectShape(s, ok, d, PostingDisconnected);
    case PostingDisconnected => SendDisconnectShape(s, d, ok, t);
    case EmittingDisconnected => SendDisconnectShape(s, d, ok, t);
    case ClosingEvents => FlagDisconnectShape(s, d, ok, t);
  }

  // ── The monitor and the calls ────────────────────────────────

  /** The monitor touches neither flags, tasks nor locks; it posts and emits only when it gives up. */
  predicate AutoShape(s: State, ok: bool, t: State) {
    && t == s.(auto := t.auto, queued := t.queued, connection := t.connection, version := t.version, stream := t.stream)
    && (if s.auto.pc.PostingGiveUp? then PostsDisconnected(s, t) else PostsNothing(s, t))
    && t.stream == if s.auto.pc.EmittingGiveUp?
                   then EmitThroughSlot(s, DisconnectedEvent(Some("reconnect failed")), ok).stream
                   else s.stream
  }

  lemma AutoKeepsShape(s: State, ok: bool, call: nat, t: State)
    requires AutoStep(s, ok, call) == Some(t)
    ensures AutoShape(s, ok, t)
  {
  }

  /** A user's call starts, a queued reconnect takes the lock, or the consumer takes an event. */
  predicate CallShape(s: State, a: Action, t: State) {
    && t == s.(core := t.core, queued := t.queued, stream := t.stream)
    && (a.NextEvent? || t.stream == s.stream)
    && match a
       case CallReconnect(call, attempt) =>
         FreshCall(s, call) && t.core == s.core && t.queued == s.queued[call := attempt]
       case CallDisconnect(d) =>
         d !in s.core.disconnects && t.core == BeginDisconnect(s, d).core && t.queued == s.queued
       case AcquireReconnect(call) =>
         && s.core.holder.None? && call in s.queued && t.queued == s.queued - {call}
         && t.core == s.core.(holder := Some(Holder(call, s.queued[call], CheckShutdown)))
       case _ => t.core == s.core
  }

  lemma CallKeepsShape(s: State, a: Action, t: State)
    requires CallStep(s, a) == Some(t)
    ensures CallShape(s, a, t)
  {
  }
}
