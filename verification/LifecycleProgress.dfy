/**
 Progress: the two locks and the joins cannot deadlock.  From every reachable state a shutdown in
 progress can be driven to its end, and so can every `disconnect` and the reconnect that holds the lock,
 by steps of the calls and of the tasks being joined.
 */
module LifecycleProgress {
  import opened Machine
  import opened Wrappers
  import opened Lifecycle
  import opened LifecycleSafety
  import opened LifecycleShutdown
  import opened LifecycleHolder

  // ── Who moves what ───────────────────────────────────────────

  /** `disconnect` call `d` stayed where it was, or moved one place on, posting where it posts. */
  predicate StaysOrMoves(s: State, t: State, d: nat) {
    && d in s.core.disconnects && d in t.core.disconnects
    && (|| t.core.disconnects[d] == s.core.disconnects[d]
        || (&& DisconnectRank(t.core.disconnects[d]) == DisconnectRank(s.core.disconnects[d]) + 1
            && (s.core.disconnects[d].PostingDisconnected? ==> PostsDisconnected(s, t))))
  }

  lemma ReleaseMovesOwner(s: State, t: State, d: nat)
    requires Inv(s.core) && d in s.core.disconnects && ShutdownStep(s) == Some(t)
    ensures StaysOrMoves(s, t, d)
  {
    ShutdownKeepsShape(s, t);
  }

  lemma DisconnectMovesItself(s: State, e: nat, ok: bool, t: State, d: nat)
    requires d in s.core.disconnects && DisconnectStep(s, e, ok) == Some(t)
    ensures StaysOrMoves(s, t, d)
  {
    DisconnectKeepsShape(s, e, ok, t);
  }

  /** No step moves a `disconnect` call but forward, one place at a time. */
  lemma DisconnectsMoveOn(s: State, a: Action, t: State, d: nat)
    requires Inv(s.core) && d in s.core.disconnects && Step(s, a) == Some(t)
    ensures StaysOrMoves(s, t, d)
  {
    if a.StepReconnect? {
      ReconnectKeepsShape(s, a.ok, t);
    } else if a.StepShutdown? {
      ReleaseMovesOwner(s, t, d);
    } else if a.StepDisconnect? {
      DisconnectMovesItself(s, a.id, a.ok, t, d);
    } else if a.StepAuto? {
      AutoKeepsShape(s, a.ok, a.call, t);
    } else if a.OfTask() {
      TaskOnlyCalms(s, a, t);
    } else {
      CallKeepsShape(s, a, t);
    }
  }

  /** The tasks that run are where they were, and the others too unless they have just been spawned. */
  predicate TasksStay(v: Generation, w: Generation) {
    && (w.reader == v.reader || (!v.reader.Running() && w.reader.Reading?))
    && (w.writer == v.writer || (!v.writer.Running() && w.writer.Writing?))
    && (w.heart == v.heart || (!v.heart.Running() && w.heart.Beating?))
  }

  /** Every generation stays so, and a new one is unborn. */
  ghost predicate AllTasksStay(c: Core, d: Core) {
    && |c.gens| <= |d.gens|
    && (forall g :: 0 <= g < |c.gens| ==> TasksStay(c.gens[g], d.gens[g]))
    && (forall g :: |c.gens| <= g < |d.gens| ==> d.gens[g] == UNBORN)
  }

  lemma RebuildingKeepsTasks(s: State, ok: bool, t: State)
    requires ReconnectStep(s, ok) == Some(t)
    requires s.core.holder.value.pc.SwapWriter? || s.core.holder.value.pc.CloneEvents?
    ensures AllTasksStay(s.core, t.core)
  {
  }

  lemma SpawningKeepsTasks(s: State, ok: bool, t: State)
    requires Inv(s.core) && ReconnectStep(s, ok) == Some(t)
    requires var pc := s.core.holder.value.pc; pc.SpawnWriter? || pc.SpawnReader? || pc.SpawnHeart?
    ensures AllTasksStay(s.core, t.core)
  {
  }

  /** The other places leave the generations alone. */
  lemma OthersKeepGenerations(s: State, ok: bool, t: State)
    requires ReconnectStep(s, ok) == Some(t)
    requires
      var pc := s.core.holder.value.pc;
      !pc.SwapWriter? && !pc.CloneEvents? && !pc.SpawnWriter? && !pc.SpawnReader? && !pc.SpawnHeart?
    ensures t.core.gens == s.core.gens
  {
    if s.core.Rank() < 8 || s.core.Rank() > 16 {
      ReconnectKeepsShape(s, ok, t);
    }
  }

  lemma ReconnectKeepsTasks(s: State, ok: bool, t: State)
    requires Inv(s.core) && ReconnectStep(s, ok) == Some(t)
    ensures AllTasksStay(s.core, t.core)
  {
    var pc := s.core.holder.value.pc;
    if pc.SwapWriter? || pc.CloneEvents? {
      RebuildingKeepsTasks(s, ok, t);
    } else if pc.SpawnWriter? || pc.SpawnReader? || pc.SpawnHeart? {
      SpawningKeepsTasks(s, ok, t);
    } else {
      OthersKeepGenerations(s, ok, t);
    }
  }

  /** Only its own steps move a task that runs. */
  lemma OthersKeepTasks(s: State, a: Action, t: State)
    requires Inv(s.core) && !a.OfTask() && Step(s, a) == Some(t)
    ensures AllTasksStay(s.core, t.core)
  {
    if a.StepReconnect? {
      ReconnectKeepsTasks(s, a.ok, t);
    } else if a.StepShutdown? {
      ShutdownKeepsShape(s, t);
    } else if a.StepDisconnect? {
      DisconnectKeepsShape(s, a.id, a.ok, t);
    } else if a.StepAuto? {
      AutoKeepsShape(s, a.ok, a.call, t);
    } else {
      CallKeepsShape(s, a, t);
    }
  }

  // ── Runs that start no `disconnect` ──────────────────────────

  predicate StartsNoDisconnect(acts: seq<Action>) {
    forall i :: 0 <= i < |acts| ==> !acts[i].CallDisconnect?
  }

  ghost predicate LedBy(s: State, t: State, acts: seq<Action>) {
    StartsNoDisconnect(acts) && Run(s, acts) == Some(t)
  }

  /** Some run that starts no `disconnect` goes from `s` to `t`. */
  ghost predicate Leads(s: State, t: State) {
    exists acts :: LedBy(s, t, acts)
  }

  lemma Stays(s: State)
    ensures Leads(s, s)
  {
    assert LedBy(s, s, []);
  }

  lemma StepFirst(s: State, a: Action, t: State, u: State)
    requires Step(s, a) == Some(t) && !a.CallDisconnect? && Leads(t, u)
    ensures Leads(s, u)
  {
    var acts :| LedBy(t, u, acts);
    Prepends(Step, s, a, t, acts);
    assert LedBy(s, u, [a] + acts);
  }

  lemma OneStep(s: State, a: Action, t: State)
    requires Step(s, a) == Some(t) && !a.CallDisconnect?
    ensures Leads(s, t)
  {
    Stays(t);
    StepFirst(s, a, t, t);
  }

  lemma Chain(s: State, t: State, u: State)
    requires Leads(s, t) && Leads(t, u)
    ensures Leads(s, u)
  {
    var acts :| LedBy(s, t, acts);
    var more :| LedBy(t, u, more);
    Concatenates(Step, s, acts, more);
    assert LedBy(s, u, acts + more);
  }

  // ── A shutdown can always finish ─────────────────────────────

  /** Steps a task needs to reach its end once its abort has been requested. */
  function ReaderLeft(pc: ReaderPc): nat {
    match pc
    case ReaderUnborn => 0
    case ReaderDone => 0
    case Reading => 1
    case ReaderClearing => 1
    case ReaderPosting => 2
    case ReaderEmitting(_) => 3
    case ReaderFailed(_) => 4
  }

  function WriterLeft(pc: WriterPc): nat {
    match pc
    case WriterUnborn => 0
    case WriterDone => 0
    case Writing => 1
    case WriterPosting => 1
    case WriterFailed => 2
  }

  function HeartLeft(pc: HeartPc): nat {
    match pc
    case HeartUnborn => 0
    case HeartDone => 0
    case Beating => 1
    case HeartEmitting => 1
    case HeartPosting => 2
    case HeartFailed => 3
  }

  /** Steps left in the shutdown under way: its stages, and the end of the task being joined. */
  function Left(c: Core): nat
    requires c.handles.lock.Locked? && |c.gens| > 0
  {
    var last := c.gens[c.Latest()];
    var stage := c.handles.lock.stage;
    10 * (7 - StageRank(stage))
    + match stage
      case AwaitingReader(_) => ReaderLeft(last.reader)
      case AwaitingWriter(_) => WriterLeft(last.writer)
      case AwaitingHeart(_) => HeartLeft(last.heart)
      case _ => 0
  }

  /** No task is winding down after a failure: each is unborn, in its loop, or done. */
  predicate Relaxed(g: Generation) {
    && (g.reader.ReaderUnborn? || g.reader.Reading? || g.reader.ReaderDone?)
    && (g.writer.WriterUnborn? || g.writer.Writing? || g.writer.WriterDone?)
    && (g.heart.HeartUnborn? || g.heart.Beating? || g.heart.HeartDone?)
  }

  /** What driving a shutdown leaves alone.  Relaxed tasks leave `alive` alone; and while the lock holder
      keeps the tasks to itself, no task moves. */
  ghost predicate Drives(c: Core, d: Core)
    requires |c.gens| > 0
  {
    && |d.gens| == |c.gens|
    && d == c.(alive := d.alive, gens := d.gens, handles := d.handles, holder := d.holder, disconnects := d.disconnects)
    && (d.alive ==> c.alive)
    && (Relaxed(c.gens[c.Latest()]) ==> Relaxed(d.gens[c.Latest()]) && d.alive == c.alive)
    && (6 <= c.Rank() <= 17 ==> AllSameTasks(c, d))
  }

  /** The watch shows what it showed, or `Disconnected`. */
  predicate NoNews(s: State, t: State) { t.connection == s.connection || t.connection.Disconnected? }

  /** Within one shutdown: the owner still holds the lock, and no call moves. */
  ghost predicate Winds(s: State, t: State)
    requires |s.core.gens| > 0
  {
    && SameCalls(s, t) && Drives(s.core, t.core) && NoNews(s, t)
    && t.core.holder == s.core.holder && t.core.disconnects == s.core.disconnects
    && s.core.handles.lock.Locked? && t.core.handles.lock.Locked?
    && t.core.handles.lock.owner == s.core.handles.lock.owner
  }

  lemma ReflagsWinds(s: State, t: State)
    requires Inv(s.core) && Reflags(s, t)
    ensures Winds(s, t)
  {
  }

  /** A task of the newest generation that is being joined takes a step: not while the lock holder
      keeps the tasks to itself. */
  lemma JoinedTaskWinds(s: State, t: State, g: nat)
    requires Inv(s.core) && g == s.core.Latest() && s.core.handles.lock.Locked? && !(6 <= s.core.Rank() <= 17)
    requires Calms(s.core, t.core, g) && SameCalls(s, t) && NoNews(s, t)
    requires Relaxed(s.core.gens[g]) ==> Relaxed(t.core.gens[g]) && t.core.alive == s.core.alive
    ensures Winds(s, t)
  {
  }

  lemma TaskIsNoNews(s: State, a: Action, t: State, g: nat)
    requires g < |s.core.gens| && TaskShape(s, a, t, g)
    ensures SameCalls(s, t) && NoNews(s, t)
  {
  }

  lemma SetReaderAt(u: State, g: nat, pc: ReaderPc)
    requires g < |u.core.gens|
    ensures g < |SetReader(u, g, pc).core.gens| && SetReader(u, g, pc).core.gens[g].reader == pc
  {
  }

  lemma FailedReaderSteps(s: State, g: nat) returns (t: State)
    requires g < |s.core.gens|
    requires var pc := s.core.gens[g].reader; pc.Running() && !pc.Reading? && !pc.ReaderClearing?
    ensures ReaderStep(s, StepReader(g), g) == Some(t)
    ensures g < |t.core.gens| && ReaderLeft(t.core.gens[g].reader) < ReaderLeft(s.core.gens[g].reader)
    ensures t.core.gens[g].reader.Running() && !t.core.gens[g].reader.Reading?
  {
    var c := s.core;
    match c.gens[g].reader
    case ReaderFailed(reason) =>
      t := SetReader(s.(core := c.(alive := false)), g, ReaderEmitting(reason));
      SetReaderAt(s.(core := c.(alive := false)), g, ReaderEmitting(reason));
    case ReaderEmitting(reason) =>
      EmittingTouchesNoCore(s, g, DisconnectedEvent(reason));
      t := SetReader(EmitFrom(s, g, DisconnectedEvent(reason)), g, ReaderPosting);
      SetReaderAt(EmitFrom(s, g, DisconnectedEvent(reason)), g, ReaderPosting);
    case ReaderPosting =>
      t := SetReader(Post(s, Disconnected), g, ReaderClearing);
      SetReaderAt(Post(s, Disconnected), g, ReaderClearing);
  }

  lemma ReaderIsKilled(s: State, g: nat) returns (t: State)
    requires g < |s.core.gens| && s.core.gens[g].readerAborted
    requires s.core.gens[g].reader.Reading? || s.core.gens[g].reader.ReaderClearing?
    ensures ReaderStep(s, KillReader(g), g) == Some(t)
    ensures g < |t.core.gens| && t.core.gens[g] == s.core.gens[g].(reader := ReaderDone) && t.core.alive == s.core.alive
  {
    t := SetReader(s, g, ReaderDone);
  }

  /** An aborted reader has a step that brings its end closer and, unless it has failed, leaves `alive` alone. */
  lemma AbortedReaderEnds(s: State, g: nat) returns (a: Action, t: State)
    requires g < |s.core.gens| && s.core.gens[g].readerAborted && s.core.gens[g].reader.Running()
    ensures a.OfReader() && a.gen == g && ReaderStep(s, a, g) == Some(t)
    ensures g < |t.core.gens| && ReaderLeft(t.core.gens[g].reader) < ReaderLeft(s.core.gens[g].reader)
    ensures Relaxed(s.core.gens[g]) ==> Relaxed(t.core.gens[g]) && t.core.alive == s.core.alive
  {
    if s.core.gens[g].reader.Reading? || s.core.gens[g].reader.ReaderClearing? {
      t := ReaderIsKilled(s, g);
      a := KillReader(g);
    } else {
      t := FailedReaderSteps(s, g);
      a := StepReader(g);
    }
  }

  lemma FailedWriterSteps(s: State, g: nat) returns (t: State)
    requires g < |s.core.gens| && s.core.gens[g].writer.Running() && !s.core.gens[g].writer.Writing?
    ensures WriterStep(s, StepWriter(g), g) == Some(t)
    ensures g < |t.core.gens| && WriterLeft(t.core.gens[g].writer) < WriterLeft(s.core.gens[g].writer)
    ensures t.core.gens[g].writer.WriterPosting? || t.core.gens[g].writer.WriterDone?
  {
    t := WriterStep(s, StepWriter(g), g).value;
  }

  lemma WriterIsKilled(s: State, g: nat) returns (t: State)
    requires g < |s.core.gens| && s.core.gens[g].writerAborted && s.core.gens[g].writer.Writing?
    ensures WriterStep(s, KillWriter(g), g) == Some(t)
    ensures g < |t.core.gens| && t.core.gens[g] == s.core.gens[g].(writer := WriterDone) && t.core.alive == s.core.alive
  {
    t := SetWriter(s, g, WriterDone);
  }

  /** An aborted writer has a step that brings its end closer and, unless it has failed, leaves `alive` alone. */
  lemma AbortedWriterEnds(s: State, g: nat) returns (a: Action, t: State)
    requires g < |s.core.gens| && s.core.gens[g].writerAborted && s.core.gens[g].writer.Running()
    ensures a.OfWriter() && a.gen == g && WriterStep(s, a, g) == Some(t)
    ensures g < |t.core.gens| && WriterLeft(t.core.gens[g].writer) < WriterLeft(s.core.gens[g].writer)
    ensures Relaxed(s.core.gens[g]) ==> Relaxed(t.core.gens[g]) && t.core.alive == s.core.alive
  {
    if s.core.gens[g].writer.Writing? {
      t := WriterIsKilled(s, g);
      a := KillWriter(g);
    } else {
      t := FailedWriterSteps(s, g);
      a := StepWriter(g);
    }
  }

  lemma FailedHeartSteps(s: State, g: nat) returns (t: State)
    requires g < |s.core.gens| && s.core.gens[g].heart.Running() && !s.core.gens[g].heart.Beating?
    ensures HeartStep(s, StepHeart(g), g) == Some(t)
    ensures g < |t.core.gens| && HeartLeft(t.core.gens[g].heart) < HeartLeft(s.core.gens[g].heart)
  {
    t := HeartStep(s, StepHeart(g), g).value;
  }

  lemma HeartIsKilled(s: State, g: nat) returns (t: State)
    requires g < |s.core.gens| && s.core.gens[g].heartAborted && s.core.gens[g].heart.Beating?
    ensures HeartStep(s, KillHeart(g), g) == Some(t)
    ensures g < |t.core.gens| && t.core.gens[g] == s.core.gens[g].(heart := HeartDone) && t.core.alive == s.core.alive
  {
    t := SetHeart(s, g, HeartDone);
  }

  /** An aborted heartbeat has a step that brings its end closer and, unless it has failed, leaves `alive` alone. */
  lemma AbortedHeartEnds(s: State, g: nat) returns (a: Action, t: State)
    requires g < |s.core.gens| && s.core.gens[g].heartAborted && s.core.gens[g].heart.Running()
    ensures a.OfHeart() && a.gen == g && HeartStep(s, a, g) == Some(t)
    ensures g < |t.core.gens| && HeartLeft(t.core.gens[g].heart) < HeartLeft(s.core.gens[g].heart)
    ensures Relaxed(s.core.gens[g]) ==> Relaxed(t.core.gens[g]) && t.core.alive == s.core.alive
  {
    if s.core.gens[g].heart.Beating? {
      t := HeartIsKilled(s, g);
      a := KillHeart(g);
    } else {
      t := FailedHeartSteps(s, g);
      a := StepHeart(g);
    }
  }

  lemma JoinReader(s: State) returns (a: Action, t: State)
    requires Inv(s.core) && s.core.handles.lock.Locked? && s.core.handles.lock.stage.AwaitingReader?
    requires s.core.gens[s.core.Latest()].reader.Running()
    ensures a.OfTask() && TaskStep(s, a) == Some(t) && Winds(s, t) && Left(t.core) < Left(s.core)
  {
    var g: nat := s.core.Latest();
    a, t := AbortedReaderEnds(s, g);
    ReaderCalms(s, a, g, t);
    assert SameCalls(s, t) && NoNews(s, t) by {
      ReaderKeepsShape(s, a, g, t);
      TaskIsNoNews(s, a, t, g);
    }
    JoinedTaskWinds(s, t, g);
  }

  lemma JoinWriter(s: State) returns (a: Action, t: State)
    requires Inv(s.core) && s.core.handles.lock.Locked? && s.core.handles.lock.stage.AwaitingWriter?
    requires s.core.gens[s.core.Latest()].writer.Running()
    ensures a.OfTask() && TaskStep(s, a) == Some(t) && Winds(s, t) && Left(t.core) < Left(s.core)
  {
    var g: nat := s.core.Latest();
    a, t := AbortedWriterEnds(s, g);
    WriterCalms(s, a, g, t);
    assert SameCalls(s, t) && NoNews(s, t) by {
      WriterKeepsShape(s, a, g, t);
      TaskIsNoNews(s, a, t, g);
    }
    JoinedTaskWinds(s, t, g);
  }

  lemma JoinHeart(s: State) returns (a: Action, t: State)
    requires Inv(s.core) && s.core.handles.lock.Locked? && s.core.handles.lock.stage.AwaitingHeart?
    requires s.core.gens[s.core.Latest()].heart.Running()
    ensures a.OfTask() && TaskStep(s, a) == Some(t) && Winds(s, t) && Left(t.core) < Left(s.core)
  {
    var g: nat := s.core.Latest();
    a, t := AbortedHeartEnds(s, g);
    HeartCalms(s, a, g, t);
    assert SameCalls(s, t) && NoNews(s, t) by {
      HeartKeepsShape(s, a, g, t);
      TaskIsNoNews(s, a, t, g);
    }
    JoinedTaskWinds(s, t, g);
  }

  /** The task being joined has not ended. */
  predicate Joining(c: Core)
    requires c.handles.lock.Locked? && |c.gens| > 0
  {
    var last := c.gens[c.Latest()];
    match c.handles.lock.stage
    case AwaitingReader(_) => last.reader.Running()
    case AwaitingWriter(_) => last.writer.Running()
    case AwaitingHeart(_) => last.heart.Running()
    case _ => false
  }

  lemma UnjoinedAdvances(s: State) returns (t: State)
    requires Inv(s.core) && s.core.handles.lock.Locked? && !s.core.handles.lock.stage.Releasing? && !Joining(s.core)
    ensures ShutdownStep(s) == Some(t) && Winds(s, t) && Left(t.core) < Left(s.core)
  {
    t := NotWaiting(s);
    ShutdownKeepsShape(s, t);
    ReflagsWinds(s, t);
    LeftDrops(s.core, t.core);
  }

  lemma LeftDrops(c: Core, d: Core)
    requires c.handles.lock.Locked? && |c.gens| > 0 && d.handles.lock.Locked? && |d.gens| > 0
    requires StageRank(d.handles.lock.stage) > StageRank(c.handles.lock.stage)
    ensures Left(d) < Left(c)
  {
  }

  lemma NotWaiting(s: State) returns (t: State)
    requires Inv(s.core) && s.core.handles.lock.Locked? && !s.core.handles.lock.stage.Releasing? && !Joining(s.core)
    ensures ShutdownStep(s) == Some(t)
  {
    t := ShutdownStep(s).value;
  }

  /** A shutdown that has not reached its last step is one step closer after some step. */
  lemma ShutdownAdvances(s: State) returns (a: Action, t: State)
    requires Inv(s.core) && s.core.handles.lock.Locked? && !s.core.handles.lock.stage.Releasing?
    ensures Step(s, a) == Some(t) && !a.CallDisconnect? && Winds(s, t) && Left(t.core) < Left(s.core)
  {
    if !Joining(s.core) {
      t := UnjoinedAdvances(s);
      a := StepShutdown;
    } else if s.core.handles.lock.stage.AwaitingReader? {
      a, t := JoinReader(s);
    } else if s.core.handles.lock.stage.AwaitingWriter? {
      a, t := JoinWriter(s);
    } else {
      a, t := JoinHeart(s);
    }
  }

  lemma WindsTransitively(s: State, t: State, u: State)
    requires |s.core.gens| > 0 && Winds(s, t) && Winds(t, u)
    ensures Winds(s, u)
  {
  }

  lemma WindsInPlace(s: State)
    requires |s.core.gens| > 0 && s.core.handles.lock.Locked?
    ensures Winds(s, s)
  {
  }

  lemma {:induction false} ShutdownReachesItsEnd(s: State) returns (t: State)
    requires Inv(s.core) && s.core.handles.lock.Locked?
    ensures Leads(s, t) && Inv(t.core) && Winds(s, t) && t.core.handles.lock.stage.Releasing?
    decreases Left(s.core)
  {
    if s.core.handles.lock.stage.Releasing? {
      t := s;
      Stays(s);
      WindsInPlace(s);
    } else {
      var a, u := ShutdownAdvances(s);
      StepKeepsInv(s, a, u);
      t := ShutdownReachesItsEnd(u);
      StepFirst(s, a, u, t);
      WindsTransitively(s, u, t);
    }
  }

  /** After the shutdown its owner goes on, and no other call has moved. */
  ghost predicate OwnerGoesOn(c: Core, d: Core) {
    && c.handles.lock.Locked?
    && match c.handles.lock.owner
       case ByReconnect =>
         && d.disconnects == c.disconnects
         && c.holder.Some? && d.holder == Some(c.holder.value.(pc := Connecting))
       case ByDisconnect(e) => d.holder == c.holder && d.disconnects == c.disconnects[e := ClearingPending]
  }

  lemma ReleaseLets(s: State) returns (t: State)
    requires Inv(s.core) && s.core.handles.lock.Locked? && s.core.handles.lock.stage.Releasing?
    ensures ShutdownStep(s) == Some(t) && Inv(t.core)
    ensures t.core.handles.lock.Free? && t.core.handles.Empty() && t.core.gens == s.core.gens
    ensures t == s.(core := t.core)
    ensures t.core == s.core.(handles := t.core.handles, holder := t.core.holder, disconnects := t.core.disconnects)
    ensures OwnerGoesOn(s.core, t.core)
  {
    t := ShutdownStep(s).value;
    ShutdownKeepsShape(s, t);
    ShutdownKeepsInv(s, t);
  }

  /** Every shutdown in progress can finish: its tasks end, the lock is freed, the handles are gone. */
  lemma ShutdownCanFinish(s: State) returns (t: State)
    requires Inv(s.core) && s.core.handles.lock.Locked?
    ensures Leads(s, t) && Inv(t.core)
    ensures t.core.handles.lock.Free? && t.core.handles.Empty()
    ensures SameCalls(s, t) && Drives(s.core, t.core) && OwnerGoesOn(s.core, t.core) && NoNews(s, t)
  {
    var u := ShutdownReachesItsEnd(s);
    t := ReleaseLets(u);
    OneStep(u, StepShutdown, t);
    Chain(s, u, t);
  }

  // ── A disconnect can always finish ───────────────────────────

  /** What driving a `disconnect` at rank `from` leaves alone. */
  ghost predicate Carries(c: Core, d: Core, from: nat)
    requires |c.gens| > 0
  {
    && |d.gens| == |c.gens| && d.shuttingDown == c.shuttingDown
    && (d.eventSlot ==> c.eventSlot) && (d.alive ==> c.alive)
    && (Relaxed(c.gens[c.Latest()]) ==> Relaxed(d.gens[c.Latest()]) && (from >= 2 ==> d.alive == c.alive))
    && (c.Rank() != 5 ==> d.holder == c.holder)
    && (6 <= c.Rank() <= 17 ==> AllSameTasks(c, d))
  }

  lemma DrivingCarries(c: Core, d: Core, from: nat)
    requires |c.gens| > 0 && Drives(c, d) && OwnerGoesOn(c, d) && (c.Rank() == 5 <==> c.handles.lock.owner.ByReconnect?)
    ensures Carries(c, d, from)
  {
  }

  lemma CarriesTransitively(c: Core, d: Core, e: Core, from: nat, next: nat)
    requires |c.gens| > 0 && Carries(c, d, from) && Carries(d, e, next) && next >= from
    ensures Carries(c, e, from)
  {
  }

  lemma EarlyDisconnectSteps(s: State, d: nat) returns (t: State)
    requires d in s.core.disconnects && (s.core.disconnects[d].LockingHandles? ==> s.core.handles.lock.Free?)
    requires DisconnectRank(s.core.disconnects[d]) <= 2
    ensures DisconnectStep(s, d, true) == Some(t) && d in t.core.disconnects
    ensures DisconnectShape(s, true, t, d)
  {
    t := DisconnectStep(s, d, true).value;
    DisconnectKeepsShape(s, d, true, t);
  }

  lemma LateDisconnectSteps(s: State, d: nat) returns (t: State)
    requires d in s.core.disconnects && 4 <= DisconnectRank(s.core.disconnects[d]) <= 7
    ensures DisconnectStep(s, d, true) == Some(t) && d in t.core.disconnects
    ensures DisconnectShape(s, true, t, d)
  {
    t := DisconnectStep(s, d, true).value;
    DisconnectKeepsShape(s, d, true, t);
  }

  /** A `disconnect` that neither waits for the lock nor holds it takes its next step. */
  lemma FreeDisconnectAdvances(s: State, d: nat) returns (t: State)
    requires Inv(s.core) && d in s.core.disconnects
    requires var pc := s.core.disconnects[d]; !pc.ShuttingTasks? && !pc.Finished?
    requires s.core.disconnects[d].LockingHandles? ==> s.core.handles.lock.Free?
    ensures Leads(s, t) && Inv(t.core) && d in t.core.disconnects
    ensures DisconnectRank(t.core.disconnects[d]) == DisconnectRank(s.core.disconnects[d]) + 1
    ensures Carries(s.core, t.core, DisconnectRank(s.core.disconnects[d]))
    ensures s.core.disconnects[d].StoringAlive? ==> !t.core.alive
    ensures s.core.handles.Empty() ==> t.core.handles.Empty()
    ensures s.core.handles.lock.Free? && !s.core.disconnects[d].LockingHandles? ==> t.core.handles.lock.Free?
  {
    if DisconnectRank(s.core.disconnects[d]) <= 2 {
      t := EarlyDisconnectSteps(s, d);
    } else {
      t := LateDisconnectSteps(s, d);
    }
    DisconnectKeepsInv(s, d, true, t);
    OneStep(s, StepDisconnect(d, true), t);
    ShapeCarries(s, t, d);
  }

  lemma ShapeCarries(s: State, t: State, d: nat)
    requires |s.core.gens| > 0 && DisconnectShape(s, true, t, d)
    ensures Carries(s.core, t.core, DisconnectRank(s.core.disconnects[d]))
  {
  }

  lemma DisconnectAdvances(s: State, d: nat) returns (t: State)
    requires Inv(s.core) && d in s.core.disconnects && !s.core.disconnects[d].Finished?
    ensures Leads(s, t) && Inv(t.core) && d in t.core.disconnects
    ensures DisconnectRank(t.core.disconnects[d]) == DisconnectRank(s.core.disconnects[d]) + 1
    ensures Carries(s.core, t.core, DisconnectRank(s.core.disconnects[d]))
    ensures s.core.handles.Empty() || s.core.disconnects[d].ShuttingTasks? ==> t.core.handles.Empty()
    ensures DisconnectRank(s.core.disconnects[d]) >= 3 ==> t.core.handles.lock.Free?
    ensures s.core.disconnects[d].StoringAlive? ==> !t.core.alive
  {
    var from := DisconnectRank(s.core.disconnects[d]);
    if s.core.disconnects[d].ShuttingTasks? {
      t := ShutdownCanFinish(s);
      DrivingCarries(s.core, t.core, from);
    } else {
      var u := LockIsFreed(s, d);
      t := FreeDisconnectAdvances(u, d);
      Chain(s, u, t);
      CarriesTransitively(s.core, u.core, t.core, from, from);
    }
  }

  /** Whoever holds `task_handles` against `disconnect` call `d` can be driven to let go of it. */
  lemma LockIsFreed(s: State, d: nat) returns (t: State)
    requires Inv(s.core) && d in s.core.disconnects && !s.core.disconnects[d].ShuttingTasks?
    ensures Leads(s, t) && Inv(t.core) && t.core.handles.lock.Free?
    ensures d in t.core.disconnects && t.core.disconnects[d] == s.core.disconnects[d]
    ensures s.core.handles.Empty() ==> t.core.handles.Empty()
    ensures Carries(s.core, t.core, DisconnectRank(s.core.disconnects[d]))
  {
    if s.core.handles.lock.Free? {
      t := s;
      Stays(s);
    } else {
      t := ShutdownCanFinish(s);
      DrivingCarries(s.core, t.core, DisconnectRank(s.core.disconnects[d]));
    }
  }

  lemma {:induction false} DisconnectRunsOn(s: State, d: nat) returns (t: State)
    requires Inv(s.core) && d in s.core.disconnects
    ensures Leads(s, t) && Inv(t.core) && d in t.core.disconnects && t.core.disconnects[d].Finished?
    ensures Carries(s.core, t.core, DisconnectRank(s.core.disconnects[d]))
    ensures DisconnectRank(s.core.disconnects[d]) <= 3 ==> t.core.handles.Empty()
    ensures DisconnectRank(s.core.disconnects[d]) <= 1 ==> !t.core.alive
    ensures DisconnectRank(s.core.disconnects[d]) <= 7 || s.core.handles.lock.Free? ==> t.core.handles.lock.Free?
    ensures s.core.handles.Empty() ==> t.core.handles.Empty()
    decreases 8 - DisconnectRank(s.core.disconnects[d])
  {
    if s.core.disconnects[d].Finished? {
      t := s;
      Stays(s);
    } else {
      var from := DisconnectRank(s.core.disconnects[d]);
      var u := DisconnectAdvances(s, d);
      t := DisconnectRunsOn(u, d);
      Chain(s, u, t);
      CarriesTransitively(s.core, u.core, t.core, from, from + 1);
    }
  }

  /** From every reachable state an unfinished `disconnect` can be driven to its return. */
  lemma DisconnectCanFinish(s: State, d: nat) returns (t: State)
    requires Reached(s) && d in s.core.disconnects
    ensures Leads(s, t) && d in t.core.disconnects && t.core.disconnects[d].Finished?
  {
    ReachedIsSound(s);
    t := DisconnectRunsOn(s, d);
  }

  // ── A reconnect can always finish ────────────────────────────

  /** No `disconnect` holds `task_handles`. */
  ghost predicate NoneShutting(c: Core) {
    forall d :: d in c.disconnects ==> !c.disconnects[d].ShuttingTasks?
  }

  /** The choice with which the lock holder is driven: the handshake succeeds, and there is no transport
      to address. */
  predicate Favoured(pc: HolderPc) { !pc.SendTransport? }

  predicate Passes(c: Core)
    requires c.holder.Some?
  {
    !Answers(c, Favoured(c.holder.value.pc))
  }

  /** What driving the lock holder by one place leaves alone. */
  ghost predicate Proceeds(s: State, t: State)
    requires |s.core.gens| > 0
  {
    && s.core.holder.Some? && t.auto == s.auto && t.queued == s.queued
    && (Advances(s, t) || Finishes(s, t)) && (Passes(s.core) ==> Advances(s, t))
    && |t.core.gens| == (if s.core.holder.value.pc.SwapWriter? then |s.core.gens| + 1 else |s.core.gens|)
    && t.core.shuttingDown == (!s.core.holder.value.pc.ResetFlag? && s.core.shuttingDown)
    && (!s.core.holder.value.pc.SetAlive? && t.core.alive ==> s.core.alive)
    && t.core.eventSlot == s.core.eventSlot
    && (NoneShutting(s.core) ==> t.core.disconnects == s.core.disconnects)
    && (s.core.Rank() >= 17 ==> AllSameTasks(s.core, t.core) && t.core.writeSlot == s.core.writeSlot)
    && (s.core.Rank() == 13 ==> t.core.gens[|t.core.gens| - 1].writer.Writing?)
    && (14 <= s.core.Rank() && WriterListens(s.core) ==> WriterListens(t.core))
    && (t.connection == Posting(s.core.holder.value, s.connection) || t.connection.Disconnected?)
  }

  predicate AwaitsHandles(c: Core) {
    c.holder.Some? && c.handles.lock.Locked? && (c.holder.value.pc.LockHandles? || c.holder.value.pc.StoreHandles?)
  }

  /** A lock holder that neither waits for `task_handles` nor shuts tasks down takes its next step. */
  lemma FreeHolderSteps(s: State) returns (ok: bool, t: State)
    requires Inv(s.core) && s.core.holder.Some? && !s.core.holder.value.pc.ShuttingHandles? && !AwaitsHandles(s.core)
    ensures ok == Favoured(s.core.holder.value.pc)
    ensures ReconnectStep(s, ok) == Some(t) && HolderShape(s, ok, t)
  {
    ok := Favoured(s.core.holder.value.pc);
    t := ReconnectStep(s, ok).value;
    ReconnectKeepsShape(s, ok, t);
  }

  lemma ShapeProceeds(s: State, ok: bool, t: State)
    requires |s.core.gens| > 0 && HolderShape(s, ok, t) && ok == Favoured(s.core.holder.value.pc)
    ensures Proceeds(s, t)
  {
  }

  lemma FreeHolderProceeds(s: State) returns (t: State)
    requires Inv(s.core) && s.core.holder.Some? && !s.core.holder.value.pc.ShuttingHandles? && !AwaitsHandles(s.core)
    ensures Leads(s, t) && Inv(t.core) && Proceeds(s, t)
  {
    var ok;
    ok, t := FreeHolderSteps(s);
    ReconnectKeepsInv(s, ok, t);
    OneStep(s, StepReconnect(ok), t);
    ShapeProceeds(s, ok, t);
  }

  /** First the lock is freed, then the holder proceeds. */
  lemma ProceedsAfterDriving(s: State, u: State, t: State)
    requires |s.core.gens| > 0 && Drives(s.core, u.core) && SameCalls(s, u) && NoNews(s, u)
    requires |u.core.gens| > 0 && Proceeds(u, t)
    requires AwaitsHandles(s.core) && u.core.holder == s.core.holder && !NoneShutting(s.core)
    ensures Proceeds(s, t)
  {
  }

  lemma WaitingHolderProceeds(s: State) returns (t: State)
    requires Inv(s.core) && AwaitsHandles(s.core)
    ensures Leads(s, t) && Inv(t.core) && Proceeds(s, t)
  {
    var u := ShutdownCanFinish(s);
    t := FreeHolderProceeds(u);
    Chain(s, u, t);
    ProceedsAfterDriving(s, u, t);
  }

  lemma ShuttingHolderProceeds(s: State) returns (t: State)
    requires Inv(s.core) && s.core.holder.Some? && s.core.holder.value.pc.ShuttingHandles?
    ensures Leads(s, t) && Inv(t.core) && Proceeds(s, t)
  {
    t := ShutdownCanFinish(s);
  }

  /** The lock holder can be driven to its next place, or to its answer. */
  lemma HolderAdvances(s: State) returns (t: State)
    requires Inv(s.core) && s.core.holder.Some?
    ensures Leads(s, t) && Inv(t.core) && Proceeds(s, t)
  {
    if s.core.holder.value.pc.ShuttingHandles? {
      t := ShuttingHolderProceeds(s);
    } else if AwaitsHandles(s.core) {
      t := WaitingHolderProceeds(s);
    } else {
      t := FreeHolderProceeds(s);
    }
  }

  lemma {:induction false} HolderRunsOn(s: State) returns (t: State)
    requires Inv(s.core) && s.core.holder.Some?
    ensures Leads(s, t) && Inv(t.core) && Finishes(s, t) && t.auto == s.auto && t.queued == s.queued
    decreases 22 - s.core.Rank()
  {
    t := HolderAdvances(s);
    if t.core.holder.Some? {
      var u := t;
      t := HolderRunsOn(u);
      Chain(s, u, t);
    }
  }

  /** From every reachable state the reconnect that holds the lock can be driven to its return. */
  lemma ReconnectCanFinish(s: State) returns (t: State)
    requires Reached(s) && s.core.holder.Some?
    ensures Leads(s, t) && t.core.holder.None? && s.core.holder.value.call in t.results
  {
    ReachedIsSound(s);
    t := HolderRunsOn(s);
  }

  // ── Cancelled tasks end by themselves ────────────────────────

  lemma SettingReaderEnds(s: State, a: Action, g: nat, pc: ReaderPc) returns (t: State)
    requires g < |s.core.gens| && a.OfReader() && a.gen == g && ReaderStep(s, a, g) == Some(SetReader(s, g, pc))
    ensures Leads(s, t) && t == SetReader(s, g, pc)
  {
    t := SetReader(s, g, pc);
    OneStep(s, a, t);
  }

  lemma CancelledReaderEnds(s: State, g: nat) returns (t: State)
    requires g < |s.core.gens| && s.core.gens[g].reader.Reading? && s.core.gens[g].cancelled
    ensures Leads(s, t) && g < |t.core.gens| && t.core.gens[g].reader.ReaderDone?
  {
    SetReaderAt(s, g, ReaderClearing);
    var u := SettingReaderEnds(s, CancelReader(g), g, ReaderClearing);
    t := ClearingReaderEnds(u, g);
    Chain(s, u, t);
  }

  lemma ClearingReaderEnds(s: State, g: nat) returns (t: State)
    requires g < |s.core.gens| && s.core.gens[g].reader.ReaderClearing?
    ensures Leads(s, t) && g < |t.core.gens| && t.core.gens[g].reader.ReaderDone?
  {
    SetReaderAt(s, g, ReaderDone);
    t := SettingReaderEnds(s, StepReader(g), g, ReaderDone);
  }

  lemma {:induction false} ReaderEnds(s: State, g: nat) returns (t: State)
    requires g < |s.core.gens| && s.core.gens[g].reader.Running()
    requires s.core.gens[g].reader.Reading? ==> s.core.gens[g].cancelled
    ensures Leads(s, t) && g < |t.core.gens| && t.core.gens[g].reader.ReaderDone?
    decreases ReaderLeft(s.core.gens[g].reader)
  {
    if s.core.gens[g].reader.Reading? {
      t := CancelledReaderEnds(s, g);
    } else if s.core.gens[g].reader.ReaderClearing? {
      t := ClearingReaderEnds(s, g);
    } else {
      var u := FailedReaderSteps(s, g);
      OneStep(s, StepReader(g), u);
      t := ReaderEnds(u, g);
      Chain(s, u, t);
    }
  }

  lemma {:induction false} WriterEnds(s: State, g: nat) returns (t: State)
    requires g < |s.core.gens| && !s.core.gens[g].writer.WriterUnborn?
    requires s.core.gens[g].writer.Writing? ==> s.core.gens[g].cancelled || WriteChannelClosed(s, g)
    ensures Leads(s, t) && g < |t.core.gens| && t.core.gens[g].writer.WriterDone?
    decreases WriterLeft(s.core.gens[g].writer)
  {
    t := s;
    Stays(s);
    if s.core.gens[g].writer.Writing? {
      t := SetWriter(s, g, WriterDone);
      OneStep(s, EndWriter(g), t);
    } else if s.core.gens[g].writer.Running() {
      var u := FailedWriterSteps(s, g);
      OneStep(s, StepWriter(g), u);
      t := WriterEnds(u, g);
      Chain(s, u, t);
    }
  }

  lemma {:induction false} HeartEnds(s: State, g: nat) returns (t: State)
    requires g < |s.core.gens| && s.core.gens[g].heart.Running()
    requires s.core.gens[g].heart.Beating? ==> s.core.gens[g].cancelled || !s.core.gens[g].writer.Running()
    ensures Leads(s, t) && g < |t.core.gens| && t.core.gens[g].heart.HeartDone?
    decreases HeartLeft(s.core.gens[g].heart)
  {
    if s.core.gens[g].heart.Beating? {
      t := SetHeart(s, g, HeartDone);
      OneStep(s, EndHeart(g), t);
    } else if s.core.gens[g].heart.HeartEmitting? {
      t := SetHeart(EmitFrom(s, g, HeartbeatTimeoutEvent), g, HeartDone);
      EmittingTouchesNoCore(s, g, HeartbeatTimeoutEvent);
      OneStep(s, StepHeart(g), t);
    } else {
      var u := FailedHeartGoesOn(s, g);
      OneStep(s, StepHeart(g), u);
      t := HeartEnds(u, g);
      Chain(s, u, t);
    }
  }

  lemma FailedHeartGoesOn(s: State, g: nat) returns (t: State)
    requires g < |s.core.gens| && (s.core.gens[g].heart.HeartFailed? || s.core.gens[g].heart.HeartPosting?)
    ensures HeartStep(s, StepHeart(g), g) == Some(t)
    ensures g < |t.core.gens| && HeartLeft(t.core.gens[g].heart) < HeartLeft(s.core.gens[g].heart)
    ensures t.core.gens[g].heart.Running() && !t.core.gens[g].heart.Beating?
  {
    t := FailedHeartSteps(s, g);
  }

  /** A cancelled task needs no abort: each of the three can be driven to its end by its own steps, and so can a
      writer whose channel is closed and a heartbeat whose writer is gone. */
  lemma CancelledTasksCanEnd(s: State, g: nat) returns (reader: State, writer: State, heart: State)
    requires g < |s.core.gens|
    ensures
      s.core.gens[g].cancelled && s.core.gens[g].reader.Running() ==>
        Leads(s, reader) && g < |reader.core.gens| && reader.core.gens[g].reader.ReaderDone?
    ensures
      (s.core.gens[g].cancelled || WriteChannelClosed(s, g)) && s.core.gens[g].writer.Running() ==>
        Leads(s, writer) && g < |writer.core.gens| && writer.core.gens[g].writer.WriterDone?
    ensures
      (s.core.gens[g].cancelled || !s.core.gens[g].writer.Running()) && s.core.gens[g].heart.Running() ==>
        Leads(s, heart) && g < |heart.core.gens| && heart.core.gens[g].heart.HeartDone?
  {
    reader, writer, heart := s, s, s;
    if s.core.gens[g].cancelled && s.core.gens[g].reader.Running() {
      reader := ReaderEnds(s, g);
    }
    if (s.core.gens[g].cancelled || WriteChannelClosed(s, g)) && s.core.gens[g].writer.Running() {
      writer := WriterEnds(s, g);
    }
    if (s.core.gens[g].cancelled || !s.core.gens[g].writer.Running()) && s.core.gens[g].heart.Running() {
      heart := HeartEnds(s, g);
    }
  }
}
