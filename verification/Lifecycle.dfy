/**
 The connection lifecycle as a state machine whose steps are single lock acquisitions, atomic loads
 and stores, watch or event sends, spawns and joins.  The scheduler is arbitrary: any enabled action
 may come next.  Any number of `reconnect` and `disconnect` calls may be in flight.
 */
module Lifecycle {
  import opened Machine
  import opened Wrappers

  datatype ConnectionState = Connected | Disconnected | Reconnecting(attempt: nat)

  datatype CastEvent =
    | ConnectedEvent
    | DisconnectedEvent(reason: Option<string>)
    | ReconnectingEvent(attempt: nat)
    | ReconnectedEvent
    | HeartbeatTimeoutEvent
    | RoutedEvent(tag: nat) // whatever `route` emits

  datatype Error = DisconnectedError | ConnectError

  type CallResult = Result<(), Error>

  /** Program counters of the three background tasks. */
  datatype ReaderPc =
    | ReaderUnborn
    | Reading
    | ReaderFailed(reason: Option<string>)
    | ReaderEmitting(reason: Option<string>)
    | ReaderPosting
    | ReaderClearing
    | ReaderDone
  {
    predicate Running() { !ReaderUnborn? && !ReaderDone? }
  }

  datatype WriterPc = WriterUnborn | Writing | WriterFailed | WriterPosting | WriterDone {
    predicate Running() { !WriterUnborn? && !WriterDone? }
  }

  datatype HeartPc = HeartUnborn | Beating | HeartFailed | HeartPosting | HeartEmitting | HeartDone {
    predicate Running() { !HeartUnborn? && !HeartDone? }
  }

  /** One generation of tasks: what a single TLS connection spawns, with its cancellation token,
      abort requests, and whether the event sender it captured still feeds `next_event`. */
  datatype Generation = Generation(
    reader: ReaderPc, writer: WriterPc, heart: HeartPc,
    cancelled: bool, readerAborted: bool, writerAborted: bool, heartAborted: bool,
    eventTx: bool)
  {
    predicate AnyRunning() { reader.Running() || writer.Running() || heart.Running() }

    predicate Undisturbed() { !cancelled && !readerAborted && !writerAborted && !heartAborted }
  }

  /** A generation whose channel and token exist but whose tasks do not yet. */
  const UNBORN := Generation(ReaderUnborn, WriterUnborn, HeartUnborn, false, false, false, false, false)

  /** `TaskHandles::shutdown`, between its await points. */
  datatype Stage =
    | Cancelling
    | TakingReader
    | AwaitingReader(gen: nat)
    | TakingWriter
    | AwaitingWriter(gen: nat)
    | TakingHeart
    | AwaitingHeart(gen: nat)
    | Releasing

  datatype Owner = ByReconnect | ByDisconnect(id: nat)

  datatype HandlesLock = Free | Locked(owner: Owner, stage: Stage)

  /** The `task_handles` mutex and the join handles it guards. */
  datatype Handles = Handles(
    lock: HandlesLock, token: nat, reader: Option<nat>, writer: Option<nat>, heart: Option<nat>)
  {
    predicate Empty() { reader.None? && writer.None? && heart.None? }
  }

  /** Program counter of the call that holds `reconnect_lock`, in source order. */
  datatype HolderPc =
    | CheckShutdown | CheckAlive | PostReconnecting | EmitReconnecting | LockHandles | ShuttingHandles
    | Connecting | Rechecking | SwapWriter | CloneEvents | SetAlive | ResetFlag | ClearPending
    | SpawnWriter | Touching | SpawnReader | SpawnHeart | StoreHandles | SendConnect | SendTransport
    | PostConnected | EmitReconnected
  {
    function Rank(): nat {
      match this
      case CheckShutdown => 0
      case CheckAlive => 1
      case PostReconnecting => 2
      case EmitReconnecting => 3
      case LockHandles => 4
      case ShuttingHandles => 5
      case Connecting => 6
      case Rechecking => 7
      case SwapWriter => 8
      case CloneEvents => 9
      case SetAlive => 10
      case ResetFlag => 11
      case ClearPending => 12
      case SpawnWriter => 13
      case Touching => 14
      case SpawnReader => 15
      case SpawnHeart => 16
      case StoreHandles => 17
      case SendConnect => 18
      case SendTransport => 19
      case PostConnected => 20
      case EmitReconnected => 21
    }
  }

  datatype Holder = Holder(call: nat, attempt: nat, pc: HolderPc)

  /** Program counter of a `disconnect` call; the store of `shutting_down` is its first step. */
  datatype DisconnectPc =
    | StoppingMedia | StoringAlive | LockingHandles | ShuttingTasks | ClearingPending
    | PostingDisconnected | EmittingDisconnected | ClosingEvents | Finished

  /** Program counter of the auto-reconnect monitor. */
  datatype AutoPc =
    | Waiting
    | CheckingShutdown
    | Observing
    | Sleeping(attempt: nat)
    | Calling(attempt: nat, call: nat)
    | PostingGiveUp
    | EmittingGiveUp
    | Exited

  /** The monitor, with the attempt numbers and call ids of the current outage as history. */
  datatype Auto = Auto(pc: AutoPc, maxAttempts: nat, seen: nat, attempts: seq<nat>, calls: seq<nat>, giveUps: nat)

  /** The flags, tasks, slots and locks that the three tasks and the calls fight over. */
  datatype Core = Core(
    alive: bool,
    shuttingDown: bool,
    gens: seq<Generation>,
    writeSlot: nat,
    eventSlot: bool,
    handles: Handles,
    holder: Option<Holder>,
    disconnects: map<nat, DisconnectPc>)
  {
    /** The generation created last. */
    function Latest(): int { |gens| - 1 }

    /** Rank of the lock holder, or -1 when `reconnect_lock` is free. */
    function Rank(): int { if holder.Some? then holder.value.pc.Rank() else -1 }

    /** The lock holder is past its second shutdown check and has not finished. */
    predicate Committed() { Rank() >= 8 }

    /** Does some sender of the channel behind `next_event` still exist? */
    predicate AnyEventSender() {
      || eventSlot
      || (exists g :: 0 <= g < |gens| && gens[g].eventTx && (gens[g].reader.Running() || gens[g].heart.Running()))
      || (10 <= Rank() <= 16 && |gens| > 0 && gens[|gens| - 1].eventTx)
    }
  }

  /** The bounded channel behind `next_event`, and what the consumer has received so far. */
  datatype Stream = Stream(events: seq<CastEvent>, capacity: nat, delivered: seq<Option<CastEvent>>)

  datatype State = State(
    core: Core,
    connection: ConnectionState,
    version: nat,
    stream: Stream,
    queued: map<nat, nat>,
    results: map<nat, CallResult>,
    auto: Auto)

  datatype Action =
    | CallReconnect(call: nat, attempt: nat)
    | AcquireReconnect(call: nat)
    | StepReconnect(ok: bool)
    | StepShutdown
    | CallDisconnect(id: nat)
    | StepDisconnect(id: nat, ok: bool)
    | RouteEvent(gen: nat, tag: nat)
    | FailReader(gen: nat, reason: Option<string>)
    | CancelReader(gen: nat)
    | StepReader(gen: nat)
    | KillReader(gen: nat)
    | FailWriter(gen: nat)
    | EndWriter(gen: nat)
    | StepWriter(gen: nat)
    | KillWriter(gen: nat)
    | TimeOutHeart(gen: nat)
    | EndHeart(gen: nat)
    | StepHeart(gen: nat)
    | KillHeart(gen: nat)
    | NextEvent
    | StepAuto(ok: bool, call: nat)
  {
    predicate OfReader() { RouteEvent? || FailReader? || CancelReader? || StepReader? || KillReader? }

    predicate OfWriter() { FailWriter? || EndWriter? || StepWriter? || KillWriter? }

    predicate OfHeart() { TimeOutHeart? || EndHeart? || StepHeart? || KillHeart? }

    predicate OfTask() { OfReader() || OfWriter() || OfHeart() }
  }

  // ── Shared effects ───────────────────────────────────────────

  /** `watch::Sender::send`: always stores and always wakes the watchers. */
  function Post(s: State, c: ConnectionState): State {
    s.(connection := c, version := s.version + 1)
  }

  /** `try_send` on a live sender: dropped when the buffer is full. */
  function TrySend(s: State, e: CastEvent): State {
    if |s.stream.events| < s.stream.capacity then s.(stream := s.stream.(events := s.stream.events + [e])) else s
  }

  /** `try_send_event`: also dropped when the slot holds the dead sender or is being written. */
  function EmitThroughSlot(s: State, e: CastEvent, readable: bool): State {
    if s.core.eventSlot && readable then TrySend(s, e) else s
  }

  function EmitFrom(s: State, g: nat, e: CastEvent): State
    requires g < |s.core.gens|
  {
    if s.core.gens[g].eventTx then TrySend(s, e) else s
  }

  function WithGen(s: State, g: nat, value: Generation): State
    requires g < |s.core.gens|
  {
    s.(core := s.core.(gens := s.core.gens[g := value]))
  }

  function WithHandles(s: State, handles: Handles): State {
    s.(core := s.core.(handles := handles))
  }

  // ── reconnect_with_attempt ───────────────────────────────────

  function MoveHolder(s: State, pc: HolderPc): State
    requires s.core.holder.Some?
  {
    s.(core := s.core.(holder := Some(s.core.holder.value.(pc := pc))))
  }

  function FinishHolder(s: State, r: CallResult): State
    requires s.core.holder.Some?
  {
    s.(core := s.core.(holder := None), results := s.results[s.core.holder.value.call := r])
  }

  /** Can a message be enqueued on the current write channel? */
  predicate WriterListens(c: Core) {
    c.writeSlot < |c.gens| && c.gens[c.writeSlot].writer.Running()
  }

  /** The lock holder's next step; `None` while it waits.  `ok` resolves what the step cannot decide
      itself: the TLS handshake, a transport to send to, a `try_read`. */
  function ReconnectStep(s: State, ok: bool): Option<State> {
    if s.core.holder.None? || |s.core.gens| == 0 then None else
    var h := s.core.holder.value;
    var g := |s.core.gens| - 1;
    match h.pc
    case CheckShutdown =>
      Some(if s.core.shuttingDown then FinishHolder(s, Err(DisconnectedError)) else MoveHolder(s, CheckAlive))
    case CheckAlive => Some(if s.core.alive then FinishHolder(s, Ok(())) else MoveHolder(s, PostReconnecting))
    case PostReconnecting => Some(MoveHolder(Post(s, Reconnecting(h.attempt)), EmitReconnecting))
    case EmitReconnecting => Some(MoveHolder(EmitThroughSlot(s, ReconnectingEvent(h.attempt), ok), LockHandles))
    case LockHandles =>
      if !s.core.handles.lock.Free? then None
      else Some(MoveHolder(WithHandles(s, s.core.handles.(lock := Locked(ByReconnect, Cancelling))), ShuttingHandles))
    case ShuttingHandles => None
    case Connecting => Some(if ok then MoveHolder(s, Rechecking) else FinishHolder(s, Err(ConnectError)))
    case Rechecking =>
      Some(if s.core.shuttingDown then FinishHolder(s, Err(DisconnectedError)) else MoveHolder(s, SwapWriter))
    case SwapWriter =>
      Some(MoveHolder(s.(core := s.core.(gens := s.core.gens + [UNBORN], writeSlot := |s.core.gens|)), CloneEvents))
    case CloneEvents => Some(MoveHolder(WithGen(s, g, s.core.gens[g].(eventTx := s.core.eventSlot)), SetAlive))
    case SetAlive => Some(MoveHolder(s.(core := s.core.(alive := true)), ResetFlag))
    case ResetFlag => Some(MoveHolder(s.(core := s.core.(shuttingDown := false)), ClearPending))
    case ClearPending => Some(MoveHolder(s, SpawnWriter))
    case SpawnWriter => Some(MoveHolder(WithGen(s, g, s.core.gens[g].(writer := Writing)), Touching))
    case Touching => Some(MoveHolder(s, SpawnReader))
    case SpawnReader => Some(MoveHolder(WithGen(s, g, s.core.gens[g].(reader := Reading)), SpawnHeart))
    case SpawnHeart => Some(MoveHolder(WithGen(s, g, s.core.gens[g].(heart := Beating)), StoreHandles))
    case StoreHandles =>
      if !s.core.handles.lock.Free? then None
      else Some(MoveHolder(WithHandles(s, Handles(Free, g, Some(g), Some(g), Some(g))), SendConnect))
    case SendConnect =>
      Some(if WriterListens(s.core) then MoveHolder(s, SendTransport) else FinishHolder(s, Err(DisconnectedError)))
    case SendTransport =>
      // Without a transport there is nothing to send.
      Some(if WriterListens(s.core) || !ok then MoveHolder(s, PostConnected)
           else FinishHolder(s, Err(DisconnectedError)))
    case PostConnected => Some(MoveHolder(Post(s, Connected), EmitReconnected))
    case EmitReconnected => Some(FinishHolder(EmitThroughSlot(s, ReconnectedEvent, ok), Ok(())))
  }

  // ── TaskHandles::shutdown ────────────────────────────────────

  function AtStage(s: State, stage: Stage): State
    requires s.core.handles.lock.Locked?
  {
    WithHandles(s, s.core.handles.(lock := s.core.handles.lock.(stage := stage)))
  }

  /** The next step of the shutdown under way; `None` while it joins a running task. */
  function ShutdownStep(s: State): Option<State> {
    var t := s.core.handles;
    if !t.lock.Locked? then None else
    match t.lock.stage
    case Cancelling =>
      if t.token >= |s.core.gens| then None
      else Some(AtStage(WithGen(s, t.token, s.core.gens[t.token].(cancelled := true)), TakingReader))
    case TakingReader =>
      if t.reader.None? then Some(AtStage(s, TakingWriter)) else
      var g := t.reader.value;
      if g >= |s.core.gens| then None
      else
        var aborted := WithGen(s, g, s.core.gens[g].(readerAborted := true));
        Some(WithHandles(aborted, t.(reader := None, lock := t.lock.(stage := AwaitingReader(g)))))
    case AwaitingReader(g) =>
      if g >= |s.core.gens| || s.core.gens[g].reader.Running() then None else Some(AtStage(s, TakingWriter))
    case TakingWriter =>
      if t.writer.None? then Some(AtStage(s, TakingHeart)) else
      var g := t.writer.value;
      if g >= |s.core.gens| then None
      else
        var aborted := WithGen(s, g, s.core.gens[g].(writerAborted := true));
        Some(WithHandles(aborted, t.(writer := None, lock := t.lock.(stage := AwaitingWriter(g)))))
    case AwaitingWriter(g) =>
      if g >= |s.core.gens| || s.core.gens[g].writer.Running() then None else Some(AtStage(s, TakingHeart))
    case TakingHeart =>
      if t.heart.None? then Some(AtStage(s, Releasing)) else
      var g := t.heart.value;
      if g >= |s.core.gens| then None
      else
        var aborted := WithGen(s, g, s.core.gens[g].(heartAborted := true));
        Some(WithHandles(aborted, t.(heart := None, lock := t.lock.(stage := AwaitingHeart(g)))))
    case AwaitingHeart(g) =>
      if g >= |s.core.gens| || s.core.gens[g].heart.Running() then None else Some(AtStage(s, Releasing))
    case Releasing =>
      var unlocked := WithHandles(s, t.(lock := Free));
      match t.lock.owner
      case ByReconnect => if s.core.holder.None? then None else Some(MoveHolder(unlocked, Connecting))
      case ByDisconnect(d) => Some(MoveDisconnect(unlocked, d, ClearingPending))
  }

  // ── disconnect ───────────────────────────────────────────────

  function MoveDisconnect(s: State, d: nat, pc: DisconnectPc): State {
    s.(core := s.core.(disconnects := s.core.disconnects[d := pc]))
  }

  function BeginDisconnect(s: State, d: nat): State {
    MoveDisconnect(s.(core := s.core.(shuttingDown := true)), d, StoppingMedia)
  }

  /** The next step of `disconnect` call `d`; `None` while it waits. */
  function DisconnectStep(s: State, d: nat, ok: bool): Option<State> {
    if d !in s.core.disconnects then None else
    match s.core.disconnects[d]
    case StoppingMedia => Some(MoveDisconnect(s, d, StoringAlive))
    case StoringAlive => Some(MoveDisconnect(s.(core := s.core.(alive := false)), d, LockingHandles))
    case LockingHandles =>
      if !s.core.handles.lock.Free? then None
      else Some(MoveDisconnect(
                  WithHandles(s, s.core.handles.(lock := Locked(ByDisconnect(d), Cancelling))), d, ShuttingTasks))
    case ShuttingTasks => None
    case ClearingPending => Some(MoveDisconnect(s, d, PostingDisconnected))
    case PostingDisconnected => Some(MoveDisconnect(Post(s, Disconnected), d, EmittingDisconnected))
    case EmittingDisconnected =>
      Some(MoveDisconnect(EmitThroughSlot(s, DisconnectedEvent(None), ok), d, ClosingEvents))
    case ClosingEvents => Some(MoveDisconnect(s.(core := s.core.(eventSlot := false)), d, Finished))
    case Finished => None
  }

  // ── Background tasks ─────────────────────────────────────────

  /** Every sender of the generation's write channel is gone. */
  predicate WriteChannelClosed(s: State, g: nat)
    requires g < |s.core.gens|
  {
    s.core.writeSlot != g && !s.core.gens[g].reader.Running() && !s.core.gens[g].heart.Running()
  }

  function When(condition: bool, t: State): Option<State> { if condition then Some(t) else None }

  function SetReader(s: State, g: nat, pc: ReaderPc): State
    requires g < |s.core.gens|
  {
    WithGen(s, g, s.core.gens[g].(reader := pc))
  }

  function SetWriter(s: State, g: nat, pc: WriterPc): State
    requires g < |s.core.gens|
  {
    WithGen(s, g, s.core.gens[g].(writer := pc))
  }

  function SetHeart(s: State, g: nat, pc: HeartPc): State
    requires g < |s.core.gens|
  {
    WithGen(s, g, s.core.gens[g].(heart := pc))
  }

  /** `reader_loop`: route, fail, notice the cancellation, wind down, or be aborted at an await point. */
  function ReaderStep(s: State, a: Action, g: nat): Option<State>
    requires g < |s.core.gens|
  {
    var gen := s.core.gens[g];
    var pc := gen.reader;
    match a
    case RouteEvent(_, tag) => When(pc.Reading?, EmitFrom(s, g, RoutedEvent(tag)))
    case FailReader(_, reason) => When(pc.Reading?, SetReader(s, g, ReaderFailed(reason)))
    case CancelReader(_) => When(pc.Reading? && gen.cancelled, SetReader(s, g, ReaderClearing))
    case KillReader(_) => When((pc.Reading? || pc.ReaderClearing?) && gen.readerAborted, SetReader(s, g, ReaderDone))
    case StepReader(_) => (
      match pc
      case ReaderFailed(reason) => Some(SetReader(s.(core := s.core.(alive := false)), g, ReaderEmitting(reason)))
      case ReaderEmitting(reason) => Some(SetReader(EmitFrom(s, g, DisconnectedEvent(reason)), g, ReaderPosting))
      case ReaderPosting => Some(SetReader(Post(s, Disconnected), g, ReaderClearing))
      case ReaderClearing => Some(SetReader(s, g, ReaderDone))
      case _ => None
    )
    case _ => None
  }

  /** `writer_loop`. */
  function WriterStep(s: State, a: Action, g: nat): Option<State>
    requires g < |s.core.gens|
  {
    var gen := s.core.gens[g];
    var pc := gen.writer;
    match a
    case FailWriter(_) => When(pc.Writing?, SetWriter(s, g, WriterFailed))
    case EndWriter(_) => When(pc.Writing? && (gen.cancelled || WriteChannelClosed(s, g)), SetWriter(s, g, WriterDone))
    case KillWriter(_) => When(pc.Writing? && gen.writerAborted, SetWriter(s, g, WriterDone))
    case StepWriter(_) => (
      match pc
      case WriterFailed => Some(SetWriter(s.(core := s.core.(alive := false)), g, WriterPosting))
      case WriterPosting => Some(SetWriter(Post(s, Disconnected), g, WriterDone))
      case _ => None
    )
    case _ => None
  }

  /** The heartbeat task; it also ends when its write channel is closed. */
  function HeartStep(s: State, a: Action, g: nat): Option<State>
    requires g < |s.core.gens|
  {
    var gen := s.core.gens[g];
    var pc := gen.heart;
    match a
    case TimeOutHeart(_) => When(pc.Beating?, SetHeart(s, g, HeartFailed))
    case EndHeart(_) => When(pc.Beating? && (gen.cancelled || !gen.writer.Running()), SetHeart(s, g, HeartDone))
    case KillHeart(_) => When(pc.Beating? && gen.heartAborted, SetHeart(s, g, HeartDone))
    case StepHeart(_) => (
      match pc
      case HeartFailed => Some(SetHeart(s.(core := s.core.(alive := false)), g, HeartPosting))
      case HeartPosting => Some(SetHeart(Post(s, Disconnected), g, HeartEmitting))
      case HeartEmitting => Some(SetHeart(EmitFrom(s, g, HeartbeatTimeoutEvent), g, HeartDone))
      case _ => None
    )
    case _ => None
  }

  /** A step of one of the three tasks of one generation. */
  function TaskStep(s: State, a: Action): Option<State>
    requires a.OfTask()
  {
    var g := a.gen;
    if g >= |s.core.gens| then None
    else if a.OfReader() then ReaderStep(s, a, g)
    else if a.OfWriter() then WriterStep(s, a, g)
    else HeartStep(s, a, g)
  }

  // ── spawn_auto_reconnect ─────────────────────────────────────

  predicate FreshCall(s: State, call: nat) {
    call !in s.queued && call !in s.results && (s.core.holder.Some? ==> s.core.holder.value.call != call)
  }

  /** The monitor's next step.  In `Waiting`, `!ok` stands for a closed watch or a failed `Weak::upgrade`;
      `call` names the reconnect call it makes. */
  function AutoStep(s: State, ok: bool, call: nat): Option<State> {
    var m := s.auto;
    match m.pc
    case Waiting =>
      if !ok then Some(s.(auto := m.(pc := Exited)))
      else When(s.version != m.seen, s.(auto := m.(pc := CheckingShutdown, seen := s.version)))
    case CheckingShutdown => Some(s.(auto := m.(pc := if s.core.shuttingDown then Exited else Observing)))
    case Observing =>
      Some(if s.connection.Disconnected? && m.maxAttempts > 0
           then s.(auto := m.(pc := Sleeping(1), seen := s.version, attempts := [], calls := []))
           else s.(auto := m.(pc := Waiting, seen := s.version)))
    case Sleeping(k) =>
      When(FreshCall(s, call),
           s.(queued := s.queued[call := k],
              auto := m.(pc := Calling(k, call), attempts := m.attempts + [k], calls := m.calls + [call])))
    case Calling(k, c) =>
      if c !in s.results then None
      else if s.results[c].Ok? then Some(s.(auto := m.(pc := Waiting)))
      else if k == m.maxAttempts then Some(s.(auto := m.(pc := PostingGiveUp)))
      else Some(s.(auto := m.(pc := Sleeping(k + 1))))
    case PostingGiveUp => Some(Post(s, Disconnected).(auto := m.(pc := EmittingGiveUp)))
    case EmittingGiveUp =>
      Some(EmitThroughSlot(s, DisconnectedEvent(Some("reconnect failed")), ok)
           .(auto := m.(pc := Exited, giveUps := m.giveUps + 1)))
    case Exited => None
  }

  // ── The whole machine ────────────────────────────────────────

  /** A user's call, the acquisition of `reconnect_lock`, or the consumer. */
  function CallStep(s: State, a: Action): Option<State> {
    match a
    case CallReconnect(call, attempt) => When(FreshCall(s, call), s.(queued := s.queued[call := attempt]))
    case AcquireReconnect(call) =>
      if s.core.holder.Some? || call !in s.queued then None
      else
        var holder := Holder(call, s.queued[call], CheckShutdown);
        Some(s.(queued := s.queued - {call}, core := s.core.(holder := Some(holder))))
    case CallDisconnect(d) => When(d !in s.core.disconnects, BeginDisconnect(s, d))
    case NextEvent =>
      var p := s.stream;
      if p.events != []
      then Some(s.(stream := p.(delivered := p.delivered + [Some(p.events[0])], events := p.events[1..])))
      else When(!s.core.AnyEventSender(), s.(stream := p.(delivered := p.delivered + [None])))
    case _ => None
  }

  /** The state after action `a`, if `s` allows it. */
  function Step(s: State, a: Action): Option<State> {
    match a
    case StepReconnect(ok) => ReconnectStep(s, ok)
    case StepShutdown => ShutdownStep(s)
    case StepDisconnect(d, ok) => DisconnectStep(s, d, ok)
    case StepAuto(ok, call) => AutoStep(s, ok, call)
    case _ => if a.OfTask() then TaskStep(s, a) else CallStep(s, a)
  }

  /** What `from_builder` hands out: one generation running, nothing else in flight. */
  function Init(capacity: nat, autoReconnect: bool, maxAttempts: nat): State {
    State(
      Core(
        true, false,
        [Generation(Reading, Writing, Beating, false, false, false, false, true)],
        0, true, Handles(Free, 0, Some(0), Some(0), Some(0)), None, map[]),
      Connected, 1,
      Stream(if capacity > 0 then [ConnectedEvent] else [], capacity, []),
      map[], map[],
      Auto(if autoReconnect && maxAttempts > 0 then Waiting else Exited, maxAttempts, 0, [], [], 0))
  }

  /** The state after the actions in order, if each is allowed where it comes. */
  function Run(s: State, acts: seq<Action>): Option<State> { RunOf(Step, s, acts) }

  lemma RunSplits(s: State, acts: seq<Action>) returns (t: State)
    requires acts != [] && Run(s, acts).Some?
    ensures Step(s, acts[0]) == Some(t) && Run(t, acts[1..]) == Run(s, acts)
  {
    t := Splits(Step, s, acts);
  }
}
