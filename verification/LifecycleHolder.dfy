/**
 `reconnect_with_attempt`, by whichever call holds `reconnect_lock`: what its steps touch.
 */
module LifecycleHolder {
  import opened Wrappers
  import opened Lifecycle

  /** The state apart from what the lock holder never touches. */
  predicate Touches(s: State, t: State) {
    && t == s.(core := t.core, connection := t.connection, version := t.version, stream := t.stream,
               results := t.results)
    && t.core == s.core.(holder := t.core.holder, gens := t.core.gens, writeSlot := t.core.writeSlot,
                         handles := t.core.handles, alive := t.core.alive, shuttingDown := t.core.shuttingDown)
  }

  /** The newest generation holds the sender it held. */
  predicate SameSender(c: Core, d: Core) {
    |c.gens| == |d.gens| && (|c.gens| > 0 ==> d.gens[|d.gens| - 1].eventTx == c.gens[|c.gens| - 1].eventTx)
  }

  /** What the watch holds after the next step of lock holder `h`: two of its places post. */
  function Posting(h: Holder, before: ConnectionState): ConnectionState {
    if h.pc.PostReconnecting? then Reconnecting(h.attempt) else if h.pc.PostConnected? then Connected else before
  }

  /** The event channel after the next step of lock holder `h`: two of its places emit. */
  function Emitting(s: State, ok: bool, h: Holder): Stream {
    if h.pc.EmitReconnecting? then EmitThroughSlot(s, ReconnectingEvent(h.attempt), ok).stream
    else if h.pc.EmitReconnected? then EmitThroughSlot(s, ReconnectedEvent, ok).stream
    else s.stream
  }

  /** The spawning places leave their task of generation `gen` in its loop. */
  predicate Spawns(pc: HolderPc, gen: Generation) {
    && (pc.SpawnWriter? ==> gen.writer.Writing?)
    && (pc.SpawnReader? ==> gen.reader.Reading?)
    && (pc.SpawnHeart? ==> gen.heart.Beating?)
  }

  /** The effects of the lock holder's next step on flags, tasks, watch and event channel. */
  predicate Effects(s: State, ok: bool, t: State)
    requires s.core.holder.Some?
  {
    var h := s.core.holder.value;
    var pc := h.pc;
    && t.core.alive == (pc.SetAlive? || s.core.alive)
    && t.core.shuttingDown == (!pc.ResetFlag? && s.core.shuttingDown)
    && (8 <= pc.Rank() <= 16 || (t.core.gens == s.core.gens && t.core.writeSlot == s.core.writeSlot))
    && |t.core.gens| == (if pc.SwapWriter? then |s.core.gens| + 1 else |s.core.gens|)
    && (pc.SwapWriter? || pc.CloneEvents? || SameSender(s.core, t.core))
    && (pc.SwapWriter? || pc.SpawnWriter? || WriterListens(t.core) == WriterListens(s.core))
    && (|s.core.gens| > 0 ==> Spawns(pc, t.core.gens[|t.core.gens| - 1]))
    && t.connection == Posting(h, s.connection)
    && t.version == s.version + (if pc.PostReconnecting? || pc.PostConnected? then 1 else 0)
    && t.stream == Emitting(s, ok, h)
  }

  predicate Advances(s: State, t: State)
    requires s.core.holder.Some?
  {
    && t.results == s.results && t.core.holder.Some?
    && t.core.holder.value == s.core.holder.value.(pc := t.core.holder.value.pc)
    && t.core.Rank() == s.core.Rank() + 1
  }

  predicate Finishes(s: State, t: State)
    requires s.core.holder.Some?
  {
    var call := s.core.holder.value.call;
    t.core.holder.None? && call in t.results && t.results == s.results[call := t.results[call]]
  }

  /** The step answers the call instead of moving it on. */
  predicate Answers(c: Core, ok: bool)
    requires c.holder.Some?
  {
    match c.holder.value.pc
    case CheckShutdown => c.shuttingDown
    case CheckAlive => c.alive
    case Connecting => !ok
    case Rechecking => c.shuttingDown
    case SendConnect => !WriterListens(c)
    case SendTransport => ok && !WriterListens(c)
    case EmitReconnected => true
    case _ => false
  }

  /** The answer of a step at `pc` that answers: success only where `alive` was found set or the connection has
      been announced. */
  function AnswerAt(pc: HolderPc): CallResult {
    if pc.CheckAlive? || pc.EmitReconnected? then Ok(())
    else if pc.Connecting? then Err(ConnectError)
    else Err(DisconnectedError)
  }

  predicate HolderShape(s: State, ok: bool, t: State) {
    && s.core.holder.Some?
    && Touches(s, t) && Effects(s, ok, t)
    && if Answers(s.core, ok)
       then Finishes(s, t) && t.results[s.core.holder.value.call] == AnswerAt(s.core.holder.value.pc)
       else Advances(s, t)
  }

  /** `u` is `s` after the effects of the step, the lock holder still in place. */
  predicate Prepared(s: State, ok: bool, u: State) {
    && s.core.holder.Some? && u.core.holder == s.core.holder && u.results == s.results
    && Touches(s, u) && Effects(s, ok, u)
  }

  lemma MovingShape(s: State, ok: bool, u: State, pc: HolderPc)
    requires Prepared(s, ok, u) && !Answers(s.core, ok) && pc.Rank() == s.core.Rank() + 1
    ensures HolderShape(s, ok, MoveHolder(u, pc))
  {
  }

  lemma FinishingShape(s: State, ok: bool, u: State)
    requires Prepared(s, ok, u) && Answers(s.core, ok)
    ensures HolderShape(s, ok, FinishHolder(u, AnswerAt(s.core.holder.value.pc)))
  {
  }

  /** A step that does nothing but move on or answer. */
  lemma MovesOrFinishes(s: State, ok: bool, pc: HolderPc)
    requires Prepared(s, ok, s) && pc.Rank() == s.core.Rank() + 1
    ensures
      var answer := AnswerAt(s.core.holder.value.pc);
      HolderShape(s, ok, if Answers(s.core, ok) then FinishHolder(s, answer) else MoveHolder(s, pc))
  {
    if Answers(s.core, ok) {
      FinishingShape(s, ok, s);
    } else {
      MovingShape(s, ok, s, pc);
    }
  }

  lemma CheckShape(s: State, ok: bool, t: State)
    requires ReconnectStep(s, ok) == Some(t)
    requires var pc := s.core.holder.value.pc; pc.CheckShutdown? || pc.CheckAlive? || pc.Connecting? || pc.Rechecking?
    ensures HolderShape(s, ok, t)
  {
    match s.core.holder.value.pc
    case CheckShutdown => MovesOrFinishes(s, ok, CheckAlive);
    case CheckAlive => MovesOrFinishes(s, ok, PostReconnecting);
    case Connecting => MovesOrFinishes(s, ok, Rechecking);
    case Rechecking => MovesOrFinishes(s, ok, SwapWriter);
  }

  lemma OpeningShape(s: State, ok: bool, t: State)
    requires ReconnectStep(s, ok) == Some(t)
    requires var pc := s.core.holder.value.pc; pc.PostReconnecting? || pc.EmitReconnecting? || pc.LockHandles?
    ensures HolderShape(s, ok, t)
  {
    var h := s.core.holder.value;
    match h.pc
    case PostReconnecting => MovingShape(s, ok, Post(s, Reconnecting(h.attempt)), EmitReconnecting);
    case EmitReconnecting => MovingShape(s, ok, EmitThroughSlot(s, ReconnectingEvent(h.attempt), ok), LockHandles);
    case LockHandles =>
      var locked := s.core.handles.(lock := Locked(ByReconnect, Cancelling));
      MovingShape(s, ok, WithHandles(s, locked), ShuttingHandles);
  }

  lemma SwappingShape(s: State, ok: bool, t: State)
    requires ReconnectStep(s, ok) == Some(t)
    requires s.core.holder.value.pc.SwapWriter? || s.core.holder.value.pc.CloneEvents?
    ensures HolderShape(s, ok, t)
  {
    var c := s.core;
    var g := |c.gens| - 1;
    match c.holder.value.pc
    case SwapWriter =>
      MovingShape(s, ok, s.(core := c.(gens := c.gens + [UNBORN], writeSlot := |c.gens|)), CloneEvents);
    case CloneEvents => MovingShape(s, ok, WithGen(s, g, c.gens[g].(eventTx := c.eventSlot)), SetAlive);
  }

  lemma FlaggingShape(s: State, ok: bool, t: State)
    requires ReconnectStep(s, ok) == Some(t)
    requires var pc := s.core.holder.value.pc; pc.SetAlive? || pc.ResetFlag? || pc.ClearPending?
    ensures HolderShape(s, ok, t)
  {
    match s.core.holder.value.pc
    case SetAlive => MovingShape(s, ok, s.(core := s.core.(alive := true)), ResetFlag);
    case ResetFlag => MovingShape(s, ok, s.(core := s.core.(shuttingDown := false)), ClearPending);
    case ClearPending => MovingShape(s, ok, s, SpawnWriter);
  }

  lemma SpawnWriterShape(s: State, ok: bool, t: State)
    requires ReconnectStep(s, ok) == Some(t) && s.core.holder.value.pc.SpawnWriter?
    ensures HolderShape(s, ok, t)
  {
    var g := |s.core.gens| - 1;
    MovingShape(s, ok, WithGen(s, g, s.core.gens[g].(writer := Writing)), Touching);
  }

  lemma SpawnReaderShape(s: State, ok: bool, t: State)
    requires ReconnectStep(s, ok) == Some(t) && s.core.holder.value.pc.SpawnReader?
    ensures HolderShape(s, ok, t)
  {
    var g := |s.core.gens| - 1;
    MovingShape(s, ok, WithGen(s, g, s.core.gens[g].(reader := Reading)), SpawnHeart);
  }

  lemma SpawnHeartShape(s: State, ok: bool, t: State)
    requires ReconnectStep(s, ok) == Some(t) && s.core.holder.value.pc.SpawnHeart?
    ensures HolderShape(s, ok, t)
  {
    var g := |s.core.gens| - 1;
    MovingShape(s, ok, WithGen(s, g, s.core.gens[g].(heart := Beating)), StoreHandles);
  }

  lemma StoringShape(s: State, ok: bool, t: State)
    requires ReconnectStep(s, ok) == Some(t)
    requires s.core.holder.value.pc.Touching? || s.core.holder.value.pc.StoreHandles?
    ensures HolderShape(s, ok, t)
  {
    var g := |s.core.gens| - 1;
    match s.core.holder.value.pc
    case Touching => MovingShape(s, ok, s, SpawnReader);
    case StoreHandles => MovingShape(s, ok, WithHandles(s, Handles(Free, g, Some(g), Some(g), Some(g))), SendConnect);
  }

  lemma SendingShape(s: State, ok: bool, t: State)
    requires ReconnectStep(s, ok) == Some(t)
    requires var pc := s.core.holder.value.pc; pc.SendConnect? || pc.SendTransport?
    ensures HolderShape(s, ok, t)
  {
    match s.core.holder.value.pc
    case SendConnect => MovesOrFinishes(s, ok, SendTransport);
    case SendTransport => MovesOrFinishes(s, ok, PostConnected);
  }

  lemma ClosingShape(s: State, ok: bool, t: State)
    requires ReconnectStep(s, ok) == Some(t)
    requires var pc := s.core.holder.value.pc; pc.PostConnected? || pc.EmitReconnected?
    ensures HolderShape(s, ok, t)
  {
    match s.core.holder.value.pc
    case PostConnected => MovingShape(s, ok, Post(s, Connected), EmitReconnected);
    case EmitReconnected => FinishingShape(s, ok, EmitThroughSlot(s, ReconnectedEvent, ok));
  }

  /** Every step of the lock holder moves it one place on or answers its call, and has the effects of its
      place only. */
  lemma ReconnectKeepsShape(s: State, ok: bool, t: State)
    requires ReconnectStep(s, ok) == Some(t)
    ensures HolderShape(s, ok, t)
  {
    match s.core.holder.value.pc
    case CheckShutdown => CheckShape(s, ok, t);
    case CheckAlive => CheckShape(s, ok, t);
    case PostReconnecting => OpeningShape(s, ok, t);
    case EmitReconnecting => OpeningShape(s, ok, t);
    case LockHandles => OpeningShape(s, ok, t);
    case Connecting => CheckShape(s, ok, t);
    case Rechecking => CheckShape(s, ok, t);
    case SwapWriter => SwappingShape(s, ok, t);
    case CloneEvents => SwappingShape(s, ok, t);
    case SetAlive => FlaggingShape(s, ok, t);
    case ResetFlag => FlaggingShape(s, ok, t);
    case ClearPending => FlaggingShape(s, ok, t);
    case SpawnWriter => SpawnWriterShape(s, ok, t);
    case Touching => StoringShape(s, ok, t);
    case SpawnReader => SpawnReaderShape(s, ok, t);
    case SpawnHeart => SpawnHeartShape(s, ok, t);
    case StoreHandles => StoringShape(s, ok, t);
    case SendConnect => SendingShape(s, ok, t);
    case SendTransport => SendingShape(s, ok, t);
    case PostConnected => ClosingShape(s, ok, t);
    case EmitReconnected => ClosingShape(s, ok, t);
  }
}
