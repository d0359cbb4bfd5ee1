/**
 Safety of the connection lifecycle over every run: the inductive invariant, and at most one generation
 of tasks.
 */
module LifecycleSafety {
  import opened Wrappers
  import opened Lifecycle

  // ── The inductive invariant ──────────────────────────────────

  function StageRank(stage: Stage): nat {
    match stage
    case Cancelling => 0
    case TakingReader => 1
    case AwaitingReader(_) => 2
    case TakingWriter => 3
    case AwaitingWriter(_) => 4
    case TakingHeart => 5
    case AwaitingHeart(_) => 6
    case Releasing => 7
  }

  /** How far the shutdown under way has come, or -1 when `task_handles` is unlocked. */
  function Progress(c: Core): int {
    if c.handles.lock.Locked? then StageRank(c.handles.lock.stage) else -1
  }

  /** The task being joined belongs to generation `g`, and its abort has been requested. */
  predicate AwaitsAborted(stage: Stage, g: int, gen: Generation) {
    match stage
    case AwaitingReader(h) => h == g && gen.readerAborted
    case AwaitingWriter(h) => h == g && gen.writerAborted
    case AwaitingHeart(h) => h == g && gen.heartAborted
    case _ => true
  }

  /** Handles name the latest generation only, and are taken in the order of `shutdown`. */
  ghost predicate HandlesSound(c: Core)
    requires |c.gens| > 0
  {
    var t := c.handles;
    && t.token <= c.Latest()
    && (t.reader.Some? ==> t.reader.value == c.Latest() && Progress(c) < 2)
    && (t.writer.Some? ==> t.writer.value == c.Latest() && Progress(c) < 4)
    && (t.heart.Some? ==> t.heart.value == c.Latest() && Progress(c) < 6)
    && (t.lock.Locked? ==> AwaitsAborted(t.lock.stage, c.Latest(), c.gens[c.Latest()]))
    && (6 <= c.Rank() <= 17 ==> t.Empty() && Progress(c) != 2 && Progress(c) != 4 && Progress(c) != 6)
    && (8 < c.Rank() <= 17 ==> t.token < c.Latest())
  }

  /** `task_handles` is locked by exactly the caller that is inside `shutdown`. */
  ghost predicate LockSound(c: Core) {
    && (c.Rank() == 5 <==> c.handles.lock.Locked? && c.handles.lock.owner.ByReconnect?)
    && (c.handles.lock.Locked? && c.handles.lock.owner.ByDisconnect? ==>
          var d := c.handles.lock.owner.id; d in c.disconnects && c.disconnects[d] == ShuttingTasks)
    && (forall d :: d in c.disconnects && c.disconnects[d].ShuttingTasks? ==>
          c.handles.lock.Locked? && c.handles.lock.owner == ByDisconnect(d))
  }

  /** Every running task of the latest generation is held, being joined, or still the spawner's. */
  ghost predicate Accounted(c: Core)
    requires |c.gens| > 0
  {
    var g := c.gens[c.Latest()];
    && (g.reader.Running() ==> c.handles.reader.Some? || Progress(c) == 2 || 15 < c.Rank() <= 17)
    && (g.writer.Running() ==> c.handles.writer.Some? || Progress(c) == 4 || 13 < c.Rank() <= 17)
    && (g.heart.Running() ==> c.handles.heart.Some? || Progress(c) == 6 || 16 < c.Rank() <= 17)
    && (g.reader.ReaderUnborn? <==> 8 < c.Rank() <= 15)
    && (g.writer.WriterUnborn? <==> 8 < c.Rank() <= 13)
    && (g.heart.HeartUnborn? <==> 8 < c.Rank() <= 16)
  }

  ghost predicate Inv(c: Core) {
    && |c.gens| > 0
    && c.writeSlot == c.Latest()
    && (forall g :: 0 <= g < c.Latest() ==> !c.gens[g].AnyRunning())
    && HandlesSound(c)
    && LockSound(c)
    && Accounted(c)
    && (2 <= c.Rank() <= 10 ==> !c.alive)
  }

  // ── Every step keeps it ──────────────────────────────────────

  /** `w` differs from `v` in its tasks only, runs none that `v` does not, and has spawned the same. */
  predicate Calmer(v: Generation, w: Generation) {
    && w == v.(reader := w.reader, writer := w.writer, heart := w.heart)
    && (w.reader.Running() ==> v.reader.Running()) && w.reader.ReaderUnborn? == v.reader.ReaderUnborn?
    && (w.writer.Running() ==> v.writer.Running()) && w.writer.WriterUnborn? == v.writer.WriterUnborn?
    && (w.heart.Running() ==> v.heart.Running()) && w.heart.HeartUnborn? == v.heart.HeartUnborn?
  }

  /** Only the tasks of `g` and `alive` changed, and both only ever towards rest. */
  predicate Calms(c: Core, d: Core, g: nat) {
    && g < |c.gens| && |d.gens| == |c.gens|
    && Calmer(c.gens[g], d.gens[g])
    && (d.alive ==> c.alive)
    && d == c.(gens := c.gens[g := d.gens[g]], alive := d.alive)
  }

  lemma CalmingKeepsInv(c: Core, d: Core, g: nat)
    requires Inv(c) && Calms(c, d, g)
    ensures Inv(d)
  {
  }

  /** A running task of `g` moves on in a state `u` that differs from the present one by `alive` at most. */
  ghost predicate OnlyQuietens(c: Core, u: State, g: nat) {
    g < |c.gens| && u.core == c.(alive := u.core.alive) && (u.core.alive ==> c.alive)
  }

  lemma SettingReaderCalms(c: Core, u: State, g: nat, pc: ReaderPc)
    requires OnlyQuietens(c, u, g) && c.gens[g].reader.Running() && !pc.ReaderUnborn?
    ensures Calms(c, SetReader(u, g, pc).core, g)
  {
  }

  lemma SettingWriterCalms(c: Core, u: State, g: nat, pc: WriterPc)
    requires OnlyQuietens(c, u, g) && c.gens[g].writer.Running() && !pc.WriterUnborn?
    ensures Calms(c, SetWriter(u, g, pc).core, g)
  {
  }

  lemma SettingHeartCalms(c: Core, u: State, g: nat, pc: HeartPc)
    requires OnlyQuietens(c, u, g) && c.gens[g].heart.Running() && !pc.HeartUnborn?
    ensures Calms(c, SetHeart(u, g, pc).core, g)
  {
  }

  lemma EmittingTouchesNoCore(s: State, g: nat, e: CastEvent)
    requires g < |s.core.gens|
    ensures EmitFrom(s, g, e).core == s.core
  {
  }

  lemma RoutingCalms(s: State, g: nat, e: CastEvent)
    requires g < |s.core.gens|
    ensures Calms(s.core, EmitFrom(s, g, e).core, g)
  {
    EmittingTouchesNoCore(s, g, e);
    assert s.core.gens[g := s.core.gens[g]] == s.core.gens;
  }

  lemma ReaderCalms(s: State, a: Action, g: nat, t: State)
    requires g < |s.core.gens| && ReaderStep(s, a, g) == Some(t)
    ensures Calms(s.core, t.core, g)
  {
    var c := s.core;
    match a
    case RouteEvent(_, tag) => RoutingCalms(s, g, RoutedEvent(tag));
    case FailReader(_, reason) => SettingReaderCalms(c, s, g, ReaderFailed(reason));
    case CancelReader(_) => SettingReaderCalms(c, s, g, ReaderClearing);
    case KillReader(_) => SettingReaderCalms(c, s, g, ReaderDone);
    case StepReader(_) =>
      match c.gens[g].reader {
        case ReaderFailed(reason) => SettingReaderCalms(c, s.(core := c.(alive := false)), g, ReaderEmitting(reason));
        case ReaderEmitting(reason) =>
          EmittingTouchesNoCore(s, g, DisconnectedEvent(reason));
          SettingReaderCalms(c, EmitFrom(s, g, DisconnectedEvent(reason)), g, ReaderPosting);
        case ReaderPosting => SettingReaderCalms(c, Post(s, Disconnected), g, ReaderClearing);
        case ReaderClearing => SettingReaderCalms(c, s, g, ReaderDone);
      }
  }

  lemma WriterCalms(s: State, a: Action, g: nat, t: State)
    requires g < |s.core.gens| && WriterStep(s, a, g) == Some(t)
    ensures Calms(s.core, t.core, g)
  {
    var c := s.core;
    match a
    case FailWriter(_) => SettingWriterCalms(c, s, g, WriterFailed);
    case EndWriter(_) => SettingWriterCalms(c, s, g, WriterDone);
    case KillWriter(_) => SettingWriterCalms(c, s, g, WriterDone);
    case StepWriter(_) =>
      match c.gens[g].writer {
        case WriterFailed => SettingWriterCalms(c, s.(core := c.(alive := false)), g, WriterPosting);
        case WriterPosting => SettingWriterCalms(c, Post(s, Disconnected), g, WriterDone);
      }
  }

  lemma HeartCalms(s: State, a: Action, g: nat, t: State)
    requires g < |s.core.gens| && HeartStep(s, a, g) == Some(t)
    ensures Calms(s.core, t.core, g)
  {
    var c := s.core;
    match a
    case TimeOutHeart(_) => SettingHeartCalms(c, s, g, HeartFailed);
    case EndHeart(_) => SettingHeartCalms(c, s, g, HeartDone);
    case KillHeart(_) => SettingHeartCalms(c, s, g, HeartDone);
    case StepHeart(_) =>
      match c.gens[g].heart {
        case HeartFailed => SettingHeartCalms(c, s.(core := c.(alive := false)), g, HeartPosting);
        case HeartPosting => SettingHeartCalms(c, Post(s, Disconnected), g, HeartEmitting);
        case HeartEmitting =>
          EmittingTouchesNoCore(s, g, HeartbeatTimeoutEvent);
          SettingHeartCalms(c, EmitFrom(s, g, HeartbeatTimeoutEvent), g, HeartDone);
      }
  }

  lemma TaskOnlyCalms(s: State, a: Action, t: State)
    requires a.OfTask() && TaskStep(s, a) == Some(t)
    ensures Calms(s.core, t.core, a.gen)
  {
    if a.OfReader() {
      ReaderCalms(s, a, a.gen, t);
    } else if a.OfWriter() {
      WriterCalms(s, a, a.gen, t);
    } else {
      HeartCalms(s, a, a.gen, t);
    }
  }

  /** The lock is taken, or its holder moves on within the first checks or is turned away. */
  predicate EarlyMove(c: Core, d: Core) {
    && c.Rank() <= 1 && d == c.(holder := d.holder)
    && d.Rank() <= 2 && (d.Rank() == 2 ==> !c.alive)
  }

  lemma EarlyMoveKeepsInv(c: Core, d: Core)
    requires Inv(c) && EarlyMove(c, d)
    ensures Inv(d)
  {
  }

  lemma ChecksShape(s: State, ok: bool, t: State)
    requires ReconnectStep(s, ok) == Some(t)
    requires s.core.holder.value.pc.CheckShutdown? || s.core.holder.value.pc.CheckAlive?
    ensures EarlyMove(s.core, t.core)
  {
  }

  lemma ChecksKeepsInv(s: State, ok: bool, t: State)
    requires Inv(s.core) && ReconnectStep(s, ok) == Some(t)
    requires s.core.holder.value.pc.CheckShutdown? || s.core.holder.value.pc.CheckAlive?
    ensures Inv(t.core)
  {
    ChecksShape(s, ok, t);
    EarlyMoveKeepsInv(s.core, t.core);
  }

  lemma AnnouncingKeepsInv(s: State, ok: bool, t: State)
    requires Inv(s.core) && ReconnectStep(s, ok) == Some(t)
    requires s.core.holder.value.pc.PostReconnecting? || s.core.holder.value.pc.EmitReconnecting?
    ensures Inv(t.core)
  {
  }

  lemma LockingKeepsInv(s: State, ok: bool, t: State)
    requires Inv(s.core) && ReconnectStep(s, ok) == Some(t)
    requires s.core.holder.value.pc.LockHandles?
    ensures Inv(t.core)
  {
  }

  lemma ConnectingKeepsInv(s: State, ok: bool, t: State)
    requires Inv(s.core) && ReconnectStep(s, ok) == Some(t)
    requires s.core.holder.value.pc.Connecting? || s.core.holder.value.pc.Rechecking?
    ensures Inv(t.core)
  {
  }

  lemma SwapKeepsInv(s: State, ok: bool, t: State)
    requires Inv(s.core) && ReconnectStep(s, ok) == Some(t)
    requires s.core.holder.value.pc.SwapWriter?
    ensures Inv(t.core)
  {
  }

  lemma CloneKeepsInv(s: State, ok: bool, t: State)
    requires Inv(s.core) && ReconnectStep(s, ok) == Some(t)
    requires s.core.holder.value.pc.CloneEvents?
    ensures Inv(t.core)
  {
  }

  lemma FlagsKeepsInv(s: State, ok: bool, t: State)
    requires Inv(s.core) && ReconnectStep(s, ok) == Some(t)
    requires s.core.holder.value.pc.SetAlive? || s.core.holder.value.pc.ResetFlag?
    ensures Inv(t.core)
  {
  }

  lemma ClearKeepsInv(s: State, ok: bool, t: State)
    requires Inv(s.core) && ReconnectStep(s, ok) == Some(t)
    requires s.core.holder.value.pc.ClearPending? || s.core.holder.value.pc.Touching?
    ensures Inv(t.core)
  {
  }

  lemma SpawnWriterKeepsInv(s: State, ok: bool, t: State)
    requires Inv(s.core) && ReconnectStep(s, ok) == Some(t)
    requires s.core.holder.value.pc.SpawnWriter?
    ensures Inv(t.core)
  {
  }

  lemma SpawnReaderKeepsInv(s: State, ok: bool, t: State)
    requires Inv(s.core) && ReconnectStep(s, ok) == Some(t)
    requires s.core.holder.value.pc.SpawnReader?
    ensures Inv(t.core)
  {
  }

  lemma SpawnHeartKeepsInv(s: State, ok: bool, t: State)
    requires Inv(s.core) && ReconnectStep(s, ok) == Some(t)
    requires s.core.holder.value.pc.SpawnHeart?
    ensures Inv(t.core)
  {
  }

  lemma StoreKeepsInv(s: State, ok: bool, t: State)
    requires Inv(s.core) && ReconnectStep(s, ok) == Some(t)
    requires s.core.holder.value.pc.StoreHandles?
    ensures Inv(t.core)
  {
  }

  /** The lock holder, and nothing else of the core, moves on within the last four steps or finishes. */
  predicate LateMove(c: Core, d: Core) {
    && c.Rank() >= 18 && d == c.(holder := d.holder)
    && (d.Rank() >= 19 || d.holder.None?)
  }

  lemma SendConnectShape(s: State, ok: bool, t: State)
    requires ReconnectStep(s, ok) == Some(t) && s.core.holder.value.pc.SendConnect?
    ensures LateMove(s.core, t.core)
  {
  }

  lemma SendTransportShape(s: State, ok: bool, t: State)
    requires ReconnectStep(s, ok) == Some(t) && s.core.holder.value.pc.SendTransport?
    ensures LateMove(s.core, t.core)
  {
  }

  lemma PostConnectedShape(s: State, ok: bool, t: State)
    requires ReconnectStep(s, ok) == Some(t) && s.core.holder.value.pc.PostConnected?
    ensures LateMove(s.core, t.core)
  {
  }

  lemma EmitReconnectedShape(s: State, ok: bool, t: State)
    requires ReconnectStep(s, ok) == Some(t) && s.core.holder.value.pc.EmitReconnected?
    ensures LateMove(s.core, t.core)
  {
  }

  lemma LateMoveKeepsInv(c: Core, d: Core)
    requires Inv(c) && LateMove(c, d)
    ensures Inv(d)
  {
  }

  lemma ReconnectKeepsInv(s: State, ok: bool, t: State)
    requires Inv(s.core) && ReconnectStep(s, ok) == Some(t)
    ensures Inv(t.core)
  {
    match s.core.holder.value.pc
    case CheckShutdown => ChecksKeepsInv(s, ok, t);
    case CheckAlive => ChecksKeepsInv(s, ok, t);
    case PostReconnecting => AnnouncingKeepsInv(s, ok, t);
    case EmitReconnecting => AnnouncingKeepsInv(s, ok, t);
    case LockHandles => LockingKeepsInv(s, ok, t);
    case Connecting => ConnectingKeepsInv(s, ok, t);
    case Rechecking => ConnectingKeepsInv(s, ok, t);
    case SwapWriter => SwapKeepsInv(s, ok, t);
    case CloneEvents => CloneKeepsInv(s, ok, t);
    case SetAlive => FlagsKeepsInv(s, ok, t);
    case ResetFlag => FlagsKeepsInv(s, ok, t);
    case ClearPending => ClearKeepsInv(s, ok, t);
    case Touching => ClearKeepsInv(s, ok, t);
    case SpawnWriter => SpawnWriterKeepsInv(s, ok, t);
    case SpawnReader => SpawnReaderKeepsInv(s, ok, t);
    case SpawnHeart => SpawnHeartKeepsInv(s, ok, t);
    case StoreHandles => StoreKeepsInv(s, ok, t);
    case SendConnect =>
      SendConnectShape(s, ok, t);
      LateMoveKeepsInv(s.core, t.core);
    case SendTransport =>
      SendTransportShape(s, ok, t);
      LateMoveKeepsInv(s.core, t.core);
    case PostConnected =>
      PostConnectedShape(s, ok, t);
      LateMoveKeepsInv(s.core, t.core);
    case EmitReconnected =>
      EmitReconnectedShape(s, ok, t);
      LateMoveKeepsInv(s.core, t.core);
  }

  lemma CancelKeepsInv(s: State, t: State)
    requires Inv(s.core) && ShutdownStep(s) == Some(t)
    requires s.core.handles.lock.stage.Cancelling?
    ensures Inv(t.core)
  {
  }

  lemma ReconnectReleaseKeepsInv(s: State, t: State)
    requires Inv(s.core) && ShutdownStep(s) == Some(t)
    requires s.core.handles.lock.stage.Releasing? && s.core.handles.lock.owner.ByReconnect?
    ensures Inv(t.core)
  {
  }

  lemma DisconnectReleaseKeepsInv(s: State, t: State)
    requires Inv(s.core) && ShutdownStep(s) == Some(t)
    requires s.core.handles.lock.stage.Releasing? && s.core.handles.lock.owner.ByDisconnect?
    ensures Inv(t.core)
  {
  }

  lemma TakeReaderKeepsInv(s: State, t: State)
    requires Inv(s.core) && ShutdownStep(s) == Some(t)
    requires s.core.handles.lock.stage.TakingReader? && s.core.handles.reader.Some?
    ensures Inv(t.core)
  {
  }

  lemma TakeWriterKeepsInv(s: State, t: State)
    requires Inv(s.core) && ShutdownStep(s) == Some(t)
    requires s.core.handles.lock.stage.TakingWriter? && s.core.handles.writer.Some?
    ensures Inv(t.core)
  {
  }

  lemma TakeHeartKeepsInv(s: State, t: State)
    requires Inv(s.core) && ShutdownStep(s) == Some(t)
    requires s.core.handles.lock.stage.TakingHeart? && s.core.handles.heart.Some?
    ensures Inv(t.core)
  {
  }

  lemma SkipReaderKeepsInv(s: State, t: State)
    requires Inv(s.core) && ShutdownStep(s) == Some(t)
    requires s.core.handles.lock.stage.TakingReader? && s.core.handles.reader.None?
    ensures Inv(t.core)
  {
  }

  lemma SkipWriterKeepsInv(s: State, t: State)
    requires Inv(s.core) && ShutdownStep(s) == Some(t)
    requires s.core.handles.lock.stage.TakingWriter? && s.core.handles.writer.None?
    ensures Inv(t.core)
  {
  }

  lemma SkipHeartKeepsInv(s: State, t: State)
    requires Inv(s.core) && ShutdownStep(s) == Some(t)
    requires s.core.handles.lock.stage.TakingHeart? && s.core.handles.heart.None?
    ensures Inv(t.core)
  {
  }

  lemma AwaitKeepsInv(s: State, t: State)
    requires Inv(s.core) && ShutdownStep(s) == Some(t)
    requires var g := s.core.handles.lock.stage; g.AwaitingReader? || g.AwaitingWriter? || g.AwaitingHeart?
    ensures Inv(t.core)
  {
  }

  lemma ShutdownKeepsInv(s: State, t: State)
    requires Inv(s.core) && ShutdownStep(s) == Some(t)
    ensures Inv(t.core)
  {
    match s.core.handles.lock.stage
    case Cancelling => CancelKeepsInv(s, t);
    case Releasing =>
      if s.core.handles.lock.owner.ByReconnect? {
        ReconnectReleaseKeepsInv(s, t);
      } else {
        DisconnectReleaseKeepsInv(s, t);
      }
    case TakingReader => if s.core.handles.reader.Some? { TakeReaderKeepsInv(s, t); } else { SkipReaderKeepsInv(s, t); }
    case TakingWriter => if s.core.handles.writer.Some? { TakeWriterKeepsInv(s, t); } else { SkipWriterKeepsInv(s, t); }
    case TakingHeart => if s.core.handles.heart.Some? { TakeHeartKeepsInv(s, t); } else { SkipHeartKeepsInv(s, t); }
    case AwaitingReader(_) => AwaitKeepsInv(s, t);
    case AwaitingWriter(_) => AwaitKeepsInv(s, t);
    case AwaitingHeart(_) => AwaitKeepsInv(s, t);
  }

  lemma BeforeShutdownKeepsInv(s: State, d: nat, ok: bool, t: State)
    requires Inv(s.core) && DisconnectStep(s, d, ok) == Some(t)
    requires var pc := s.core.disconnects[d]; pc.StoppingMedia? || pc.StoringAlive? || pc.LockingHandles?
    ensures Inv(t.core)
  {
  }

  lemma AfterShutdownKeepsInv(s: State, d: nat, ok: bool, t: State)
    requires Inv(s.core) && DisconnectStep(s, d, ok) == Some(t)
    requires s.core.disconnects[d].ClearingPending? || s.core.disconnects[d].PostingDisconnected?
    ensures Inv(t.core)
  {
  }

  lemma EndingKeepsInv(s: State, d: nat, ok: bool, t: State)
    requires Inv(s.core) && DisconnectStep(s, d, ok) == Some(t)
    requires s.core.disconnects[d].EmittingDisconnected?
    ensures Inv(t.core)
  {
  }

  lemma ClosingKeepsInv(s: State, d: nat, ok: bool, t: State)
    requires Inv(s.core) && DisconnectStep(s, d, ok) == Some(t)
    requires s.core.disconnects[d].ClosingEvents?
    ensures Inv(t.core)
  {
  }

  lemma DisconnectKeepsInv(s: State, d: nat, ok: bool, t: State)
    requires Inv(s.core) && DisconnectStep(s, d, ok) == Some(t)
    ensures Inv(t.core)
  {
    match s.core.disconnects[d]
    case StoppingMedia => BeforeShutdownKeepsInv(s, d, ok, t);
    case StoringAlive => BeforeShutdownKeepsInv(s, d, ok, t);
    case LockingHandles => BeforeShutdownKeepsInv(s, d, ok, t);
    case ClearingPending => AfterShutdownKeepsInv(s, d, ok, t);
    case PostingDisconnected => AfterShutdownKeepsInv(s, d, ok, t);
    case EmittingDisconnected => EndingKeepsInv(s, d, ok, t);
    case ClosingEvents => ClosingKeepsInv(s, d, ok, t);
  }

  lemma BeginningKeepsInv(s: State, d: nat)
    requires Inv(s.core) && d !in s.core.disconnects
    ensures Inv(BeginDisconnect(s, d).core)
  {
  }

  lemma CallsShape(s: State, a: Action, t: State)
    requires CallStep(s, a) == Some(t) && !a.CallDisconnect?
    ensures t.core == s.core || EarlyMove(s.core, t.core)
  {
  }

  lemma CallKeepsInv(s: State, a: Action, t: State)
    requires Inv(s.core) && CallStep(s, a) == Some(t)
    ensures Inv(t.core)
  {
    if a.CallDisconnect? {
      BeginningKeepsInv(s, a.id);
    } else {
      CallsShape(s, a, t);
      if t.core != s.core {
        EarlyMoveKeepsInv(s.core, t.core);
      }
    }
  }

  lemma AutoTouchesNoCore(s: State, ok: bool, call: nat, t: State)
    requires AutoStep(s, ok, call) == Some(t)
    ensures t.core == s.core
  {
  }

  lemma StepKeepsInv(s: State, a: Action, t: State)
    requires Inv(s.core) && Step(s, a) == Some(t)
    ensures Inv(t.core)
  {
    if a.StepReconnect? {
      ReconnectKeepsInv(s, a.ok, t);
    } else if a.StepShutdown? {
      ShutdownKeepsInv(s, t);
    } else if a.StepDisconnect? {
      DisconnectKeepsInv(s, a.id, a.ok, t);
    } else if a.StepAuto? {
      AutoTouchesNoCore(s, a.ok, a.call, t);
    } else if a.OfTask() {
      TaskOnlyCalms(s, a, t);
      CalmingKeepsInv(s.core, t.core, a.gen);
    } else {
      CallKeepsInv(s, a, t);
    }
  }

  lemma {:induction false} RunKeepsInv(s: State, acts: seq<Action>, t: State)
    requires Inv(s.core) && Run(s, acts) == Some(t)
    ensures Inv(t.core)
    decreases |acts|
  {
    if acts != [] {
      var u := RunSplits(s, acts);
      StepKeepsInv(s, acts[0], u);
      RunKeepsInv(u, acts[1..], t);
    }
  }

  ghost predicate ReachedBy(s: State, capacity: nat, auto: bool, max: nat, acts: seq<Action>) {
    Run(Init(capacity, auto, max), acts) == Some(s)
  }

  /** Some run of some configuration ends in `s`. */
  ghost predicate Reached(s: State) {
    exists capacity: nat, auto: bool, max: nat, acts: seq<Action> :: ReachedBy(s, capacity, auto, max, acts)
  }

  lemma ReachedIsSound(s: State)
    requires Reached(s)
    ensures Inv(s.core)
  {
    var capacity: nat, auto: bool, max: nat, acts: seq<Action> :| ReachedBy(s, capacity, auto, max, acts);
    RunKeepsInv(Init(capacity, auto, max), acts, s);
  }

  // ── At most one generation of tasks ──────────────────────────

  /** Neither the monitor nor any call's queue place or answer changed. */
  predicate SameCalls(s: State, t: State) { t.auto == s.auto && t.results == s.results && t.queued == s.queued }

  predicate PostsNothing(s: State, t: State) { t.version == s.version && t.connection == s.connection }

  predicate PostsDisconnected(s: State, t: State) { t.version == s.version + 1 && t.connection == Disconnected }

  /** A failed task posts `Disconnected` on its way out. */
  predicate TaskPosts(gen: Generation, a: Action) {
    || (a.StepReader? && gen.reader.ReaderPosting?)
    || (a.StepWriter? && gen.writer.WriterPosting?)
    || (a.StepHeart? && gen.heart.HeartPosting?)
  }

  /** The event a task's step emits through the sender of its generation. */
  function TaskEvent(gen: Generation, a: Action): Option<CastEvent> {
    if a.RouteEvent? then Some(RoutedEvent(a.tag))
    else if a.StepReader? && gen.reader.ReaderEmitting? then Some(DisconnectedEvent(gen.reader.reason))
    else if a.StepHeart? && gen.heart.HeartEmitting? then Some(HeartbeatTimeoutEvent)
    else None
  }

  /** A task answers no call; it posts and emits at its places only, and only while it runs. */
  predicate TaskShape(s: State, a: Action, t: State, g: nat)
    requires g < |s.core.gens|
  {
    var gen := s.core.gens[g];
    && SameCalls(s, t)
    && (if TaskPosts(gen, a) then PostsDisconnected(s, t) else PostsNothing(s, t))
    && (match TaskEvent(gen, a)
        case Some(e) => t.stream == EmitFrom(s, g, e).stream && (gen.reader.Running() || gen.heart.Running())
        case None => t.stream == s.stream)
  }

  lemma ReaderKeepsShape(s: State, a: Action, g: nat, t: State)
    requires g < |s.core.gens| && ReaderStep(s, a, g) == Some(t)
    ensures TaskShape(s, a, t, g)
  {
  }

  lemma WriterKeepsShape(s: State, a: Action, g: nat, t: State)
    requires g < |s.core.gens| && WriterStep(s, a, g) == Some(t)
    ensures TaskShape(s, a, t, g)
  {
  }

  lemma HeartKeepsShape(s: State, a: Action, g: nat, t: State)
    requires g < |s.core.gens| && HeartStep(s, a, g) == Some(t)
    ensures TaskShape(s, a, t, g)
  {
  }

  lemma TaskKeepsShape(s: State, a: Action, t: State)
    requires a.OfTask() && TaskStep(s, a) == Some(t)
    ensures a.gen < |s.core.gens| && TaskShape(s, a, t, a.gen)
  {
    if a.OfReader() {
      ReaderKeepsShape(s, a, a.gen, t);
    } else if a.OfWriter() {
      WriterKeepsShape(s, a, a.gen, t);
    } else {
      HeartKeepsShape(s, a, a.gen, t);
    }
  }

  /** Only a running task takes steps. */
  lemma StepsRun(s: State, a: Action)
    requires a.OfTask() && TaskStep(s, a).Some?
    ensures a.gen < |s.core.gens| && s.core.gens[a.gen].AnyRunning()
  {
  }

  /** In every interleaving all live tasks belong to the latest generation, and each of them is held
      in `task_handles`, being joined by the owner of that lock, or still the lock holder's own. */
  lemma OneGeneration(s: State, g: nat)
    requires Reached(s) && g < |s.core.gens| && s.core.gens[g].AnyRunning()
    ensures g == s.core.Latest()
    ensures
      var t := s.core.handles;
      s.core.gens[g].reader.Running() ==>
        || t.reader == Some(g) || (t.lock.Locked? && t.lock.stage == AwaitingReader(g))
        || 15 < s.core.Rank() <= 17
    ensures
      var t := s.core.handles;
      s.core.gens[g].writer.Running() ==>
        || t.writer == Some(g) || (t.lock.Locked? && t.lock.stage == AwaitingWriter(g))
        || 13 < s.core.Rank() <= 17
    ensures
      var t := s.core.handles;
      s.core.gens[g].heart.Running() ==>
        || t.heart == Some(g) || (t.lock.Locked? && t.lock.stage == AwaitingHeart(g))
        || 16 < s.core.Rank() <= 17
  {
    ReachedIsSound(s);
  }

  /** Once a newer generation exists, no task of an older one takes another step: it cannot clear
      `alive`, post `Disconnected`, emit an event or clear the pending table. */
  lemma OldTasksAreSilent(s: State, a: Action)
    requires Reached(s) && a.OfTask() && TaskStep(s, a).Some?
    ensures a.gen == s.core.Latest()
  {
    ReachedIsSound(s);
    StepsRun(s, a);
  }
}
