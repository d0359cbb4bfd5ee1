/**
 What the connection watch is told: a `disconnect` that has returned, and a task that has failed and gone,
 have posted `Disconnected`; and exactly when no reconnect has news ahead, the watch shows `Disconnected`
 from the return of a `disconnect` on.
 */
module LifecycleWatch {
  import opened Wrappers
  import opened Lifecycle
  import opened LifecycleSafety
  import opened LifecycleShutdown
  import opened LifecycleHolder
  import opened LifecycleProgress

  /** Some step of the run posts `Disconnected`. */
  predicate Told(s: State, acts: seq<Action>)
    decreases |acts|
  {
    && acts != [] && Step(s, acts[0]).Some?
    && var t := Step(s, acts[0]).value;
       PostsDisconnected(s, t) || Told(t, acts[1..])
  }

  lemma StepKeepsVersion(s: State, a: Action, t: State)
    requires Step(s, a) == Some(t)
    ensures t.version >= s.version
  {
    if a.StepReconnect? {
      ReconnectKeepsShape(s, a.ok, t);
    } else if a.StepShutdown? {
      ShutdownKeepsShape(s, t);
    } else if a.StepDisconnect? {
      DisconnectKeepsShape(s, a.id, a.ok, t);
    } else if a.StepAuto? {
      AutoKeepsShape(s, a.ok, a.call, t);
    } else if a.OfTask() {
      TaskKeepsShape(s, a, t);
    } else {
      CallKeepsShape(s, a, t);
    }
  }

  /** The version only grows, and does when something was told. */
  lemma {:induction false} RunKeepsVersion(s: State, acts: seq<Action>, t: State)
    requires Run(s, acts) == Some(t)
    ensures t.version >= s.version && (Told(s, acts) ==> t.version > s.version)
    decreases |acts|
  {
    if acts != [] {
      var u := RunSplits(s, acts);
      StepKeepsVersion(s, acts[0], u);
      RunKeepsVersion(u, acts[1..], t);
    }
  }

  // ── A disconnect tells the watch ─────────────────────────────

  /** `disconnect` call `d` has not yet posted. */
  predicate Untold(c: Core, d: nat) {
    d in c.disconnects && DisconnectRank(c.disconnects[d]) <= 5
  }

  lemma {:induction false} RunTells(s: State, acts: seq<Action>, t: State, d: nat)
    requires Inv(s.core) && Untold(s.core, d) && Run(s, acts) == Some(t) && !Untold(t.core, d)
    ensures Told(s, acts)
    decreases |acts|
  {
    var u := RunSplits(s, acts);
    StepKeepsInv(s, acts[0], u);
    DisconnectsMoveOn(s, acts[0], u, d);
    if Untold(u.core, d) {
      RunTells(u, acts[1..], t, d);
    }
  }

  /** Whenever `disconnect` call `d` has returned, it has posted `Disconnected` since it began. */
  lemma DisconnectIsTold(s: State, d: nat, acts: seq<Action>, t: State)
    requires Reached(s) && d !in s.core.disconnects && Run(BeginDisconnect(s, d), acts) == Some(t)
    requires d in t.core.disconnects && t.core.disconnects[d].Finished?
    ensures Told(BeginDisconnect(s, d), acts) && t.version > s.version
  {
    var begun := BeginDisconnect(s, d);
    ReachedIsSound(s);
    CallKeepsInv(s, CallDisconnect(d), begun);
    RunTells(begun, acts, t, d);
    RunKeepsVersion(begun, acts, t);
  }

  // ── So does a failed task ────────────────────────────────────

  datatype Task = Reader | Writer | Heart

  /** The task has failed and not yet posted. */
  predicate Failing(task: Task, gen: Generation) {
    match task
    case Reader => gen.reader.ReaderFailed? || gen.reader.ReaderEmitting? || gen.reader.ReaderPosting?
    case Writer => gen.writer.WriterFailed? || gen.writer.WriterPosting?
    case Heart => gen.heart.HeartFailed? || gen.heart.HeartPosting?
  }

  predicate FailingIn(task: Task, c: Core, g: nat) {
    g < |c.gens| && Failing(task, c.gens[g])
  }

  lemma SettingReaderMoves(c: Core, u: State, g: nat, pc: ReaderPc)
    requires g < |c.gens| && u.core.gens == c.gens
    ensures
      var d := SetReader(u, g, pc).core;
      d.gens == c.gens[g := c.gens[g].(reader := pc)]
  {
  }

  lemma SettingHeartMoves(c: Core, u: State, g: nat, pc: HeartPc)
    requires g < |c.gens| && u.core.gens == c.gens
    ensures
      var d := SetHeart(u, g, pc).core;
      d.gens == c.gens[g := c.gens[g].(heart := pc)]
  {
  }

  /** A failed reader emits, then posts. */
  lemma FailedReaderTells(s: State, h: nat, t: State)
    requires h < |s.core.gens| && ReaderStep(s, StepReader(h), h) == Some(t) && Failing(Reader, s.core.gens[h])
    ensures h < |t.core.gens| && t.core.gens == s.core.gens[h := s.core.gens[h].(reader := t.core.gens[h].reader)]
    ensures Failing(Reader, t.core.gens[h]) || PostsDisconnected(s, t)
  {
    var c := s.core;
    match c.gens[h].reader
    case ReaderFailed(reason) => SettingReaderMoves(c, s.(core := c.(alive := false)), h, ReaderEmitting(reason));
    case ReaderEmitting(reason) =>
      EmittingTouchesNoCore(s, h, DisconnectedEvent(reason));
      SettingReaderMoves(c, EmitFrom(s, h, DisconnectedEvent(reason)), h, ReaderPosting);
    case ReaderPosting => SettingReaderMoves(c, Post(s, Disconnected), h, ReaderClearing);
  }

  /** A failed heartbeat posts, then emits. */
  lemma FailedHeartTells(s: State, h: nat, t: State)
    requires h < |s.core.gens| && HeartStep(s, StepHeart(h), h) == Some(t) && Failing(Heart, s.core.gens[h])
    ensures h < |t.core.gens| && t.core.gens == s.core.gens[h := s.core.gens[h].(heart := t.core.gens[h].heart)]
    ensures Failing(Heart, t.core.gens[h]) || PostsDisconnected(s, t)
  {
    var c := s.core;
    match c.gens[h].heart
    case HeartFailed => SettingHeartMoves(c, s.(core := c.(alive := false)), h, HeartPosting);
    case HeartPosting => SettingHeartMoves(c, Post(s, Disconnected), h, HeartEmitting);
  }

  /** A reader that has not failed moves itself at most. */
  lemma SoundReaderMoves(s: State, a: Action, h: nat, t: State)
    requires h < |s.core.gens| && ReaderStep(s, a, h) == Some(t) && !Failing(Reader, s.core.gens[h])
    ensures h < |t.core.gens| && t.core.gens == s.core.gens[h := s.core.gens[h].(reader := t.core.gens[h].reader)]
  {
    var c := s.core;
    match a
    case RouteEvent(_, tag) => EmittingTouchesNoCore(s, h, RoutedEvent(tag));
    case FailReader(_, reason) => SettingReaderMoves(c, s, h, ReaderFailed(reason));
    case CancelReader(_) => SettingReaderMoves(c, s, h, ReaderClearing);
    case KillReader(_) => SettingReaderMoves(c, s, h, ReaderDone);
    case StepReader(_) => SettingReaderMoves(c, s, h, ReaderDone);
  }

  lemma SoundHeartMoves(s: State, a: Action, h: nat, t: State)
    requires h < |s.core.gens| && HeartStep(s, a, h) == Some(t) && !Failing(Heart, s.core.gens[h])
    ensures h < |t.core.gens| && t.core.gens == s.core.gens[h := s.core.gens[h].(heart := t.core.gens[h].heart)]
  {
    var c := s.core;
    match a
    case TimeOutHeart(_) => SettingHeartMoves(c, s, h, HeartFailed);
    case EndHeart(_) => SettingHeartMoves(c, s, h, HeartDone);
    case KillHeart(_) => SettingHeartMoves(c, s, h, HeartDone);
    case StepHeart(_) =>
      EmittingTouchesNoCore(s, h, HeartbeatTimeoutEvent);
      SettingHeartMoves(c, EmitFrom(s, h, HeartbeatTimeoutEvent), h, HeartDone);
  }

  lemma ReaderTells(s: State, a: Action, h: nat, t: State, task: Task, g: nat)
    requires h < |s.core.gens| && ReaderStep(s, a, h) == Some(t) && FailingIn(task, s.core, g)
    ensures FailingIn(task, t.core, g) || PostsDisconnected(s, t)
  {
    if Failing(Reader, s.core.gens[h]) {
      OnlyStepsAhead(s, a, h, t);
      FailedReaderTells(s, h, t);
    } else {
      SoundReaderMoves(s, a, h, t);
    }
  }

  /** A failed reader takes no step but its next one. */
  lemma OnlyStepsAhead(s: State, a: Action, h: nat, t: State)
    requires h < |s.core.gens| && ReaderStep(s, a, h) == Some(t) && Failing(Reader, s.core.gens[h])
    ensures ReaderStep(s, StepReader(h), h) == Some(t)
  {
  }

  lemma WriterTells(s: State, a: Action, h: nat, t: State, task: Task, g: nat)
    requires h < |s.core.gens| && WriterStep(s, a, h) == Some(t) && FailingIn(task, s.core, g)
    ensures FailingIn(task, t.core, g) || PostsDisconnected(s, t)
  {
  }

  lemma HeartTells(s: State, a: Action, h: nat, t: State, task: Task, g: nat)
    requires h < |s.core.gens| && HeartStep(s, a, h) == Some(t) && FailingIn(task, s.core, g)
    ensures FailingIn(task, t.core, g) || PostsDisconnected(s, t)
  {
    if Failing(Heart, s.core.gens[h]) {
      OnlyBeatsAhead(s, a, h, t);
      FailedHeartTells(s, h, t);
    } else {
      SoundHeartMoves(s, a, h, t);
    }
  }

  lemma OnlyBeatsAhead(s: State, a: Action, h: nat, t: State)
    requires h < |s.core.gens| && HeartStep(s, a, h) == Some(t) && Failing(Heart, s.core.gens[h])
    ensures HeartStep(s, StepHeart(h), h) == Some(t)
  {
  }

  lemma TaskTells(s: State, a: Action, t: State, task: Task, g: nat)
    requires a.OfTask() && TaskStep(s, a) == Some(t) && FailingIn(task, s.core, g)
    ensures FailingIn(task, t.core, g) || PostsDisconnected(s, t)
  {
    if a.OfReader() {
      ReaderTells(s, a, a.gen, t, task, g);
    } else if a.OfWriter() {
      WriterTells(s, a, a.gen, t, task, g);
    } else {
      HeartTells(s, a, a.gen, t, task, g);
    }
  }

  lemma StayingTasksFailAlike(c: Core, d: Core, task: Task, g: nat)
    requires AllTasksStay(c, d)
    ensures FailingIn(task, d, g) == FailingIn(task, c, g)
  {
    if g < |c.gens| {
      StayingFailsAlike(c.gens[g], d.gens[g], task);
    }
  }

  lemma StayingFailsAlike(v: Generation, w: Generation, task: Task)
    requires TasksStay(v, w)
    ensures Failing(task, w) == Failing(task, v)
  {
  }

  lemma StepKeepsFailing(s: State, a: Action, t: State, task: Task, g: nat)
    requires Inv(s.core) && FailingIn(task, s.core, g) && Step(s, a) == Some(t)
    ensures FailingIn(task, t.core, g) || PostsDisconnected(s, t)
  {
    if a.OfTask() {
      TaskTells(s, a, t, task, g);
    } else {
      OthersKeepTasks(s, a, t);
      StayingTasksFailAlike(s.core, t.core, task, g);
    }
  }

  lemma {:induction false} FailureIsPosted(s: State, acts: seq<Action>, t: State, task: Task, g: nat)
    requires Inv(s.core) && FailingIn(task, s.core, g) && Run(s, acts) == Some(t) && !FailingIn(task, t.core, g)
    ensures Told(s, acts)
    decreases |acts|
  {
    var u := RunSplits(s, acts);
    StepKeepsInv(s, acts[0], u);
    StepKeepsFailing(s, acts[0], u, task, g);
    if FailingIn(task, u.core, g) {
      FailureIsPosted(u, acts[1..], t, task, g);
    }
  }

  /** Once a failed reader, writer or heartbeat is done, or has gone past its post, `Disconnected` has been posted
      since it failed. */
  lemma FailureIsTold(s: State, acts: seq<Action>, t: State, task: Task, g: nat)
    requires Reached(s) && FailingIn(task, s.core, g) && Run(s, acts) == Some(t)
    ensures FailingIn(task, t.core, g) || (Told(s, acts) && t.version > s.version)
  {
    ReachedIsSound(s);
    if !FailingIn(task, t.core, g) {
      FailureIsPosted(s, acts, t, task, g);
    }
    RunKeepsVersion(s, acts, t);
  }

  // ── And no other does ────────────────────────────────────────

  /** The action is the failure of this task: an error of its read or write, or a heartbeat timeout. */
  predicate Fails(a: Action, task: Task, g: nat) {
    match task
    case Reader => a.FailReader? && a.gen == g
    case Writer => a.FailWriter? && a.gen == g
    case Heart => a.TimeOutHeart? && a.gen == g
  }

  lemma ReaderFailsAlone(s: State, a: Action, h: nat, t: State, task: Task, g: nat)
    requires a.OfReader() && h == a.gen && h < |s.core.gens| && ReaderStep(s, a, h) == Some(t)
    requires !FailingIn(task, s.core, g) && !Fails(a, task, g)
    ensures !FailingIn(task, t.core, g)
  {
    if Failing(Reader, s.core.gens[h]) {
      OnlyStepsAhead(s, a, h, t);
      FailedReaderTells(s, h, t);
    } else {
      SoundReaderMoves(s, a, h, t);
      if !a.FailReader? {
        SoundReaderStaysSound(s, a, h, t);
      }
    }
  }

  /** A reader that is cancelled or killed, or winds down, does not count as failed. */
  lemma SoundReaderStaysSound(s: State, a: Action, h: nat, t: State)
    requires h < |s.core.gens| && ReaderStep(s, a, h) == Some(t) && !a.FailReader?
    requires !Failing(Reader, s.core.gens[h])
    ensures h < |t.core.gens| && !Failing(Reader, t.core.gens[h])
  {
    if a.RouteEvent? {
      EmittingTouchesNoCore(s, h, RoutedEvent(a.tag));
    }
  }

  /** A writer moves itself only, and does not fail but by its failure. */
  lemma WriterMoves(s: State, a: Action, h: nat, t: State)
    requires h < |s.core.gens| && WriterStep(s, a, h) == Some(t) && !a.FailWriter?
    ensures h < |t.core.gens| && t.core.gens == s.core.gens[h := s.core.gens[h].(writer := t.core.gens[h].writer)]
    ensures !Failing(Writer, s.core.gens[h]) ==> !Failing(Writer, t.core.gens[h])
  {
  }

  lemma WriterFailsAlone(s: State, a: Action, h: nat, t: State, task: Task, g: nat)
    requires a.OfWriter() && h == a.gen && h < |s.core.gens| && WriterStep(s, a, h) == Some(t)
    requires !FailingIn(task, s.core, g) && !Fails(a, task, g)
    ensures !FailingIn(task, t.core, g)
  {
    if !a.FailWriter? {
      WriterMoves(s, a, h, t);
    }
  }

  lemma HeartFailsAlone(s: State, a: Action, h: nat, t: State, task: Task, g: nat)
    requires a.OfHeart() && h == a.gen && h < |s.core.gens| && HeartStep(s, a, h) == Some(t)
    requires !FailingIn(task, s.core, g) && !Fails(a, task, g)
    ensures !FailingIn(task, t.core, g)
  {
    if Failing(Heart, s.core.gens[h]) {
      OnlyBeatsAhead(s, a, h, t);
      FailedHeartTells(s, h, t);
    } else {
      SoundHeartMoves(s, a, h, t);
      if !a.TimeOutHeart? {
        SoundHeartStaysSound(s, a, h, t);
      }
    }
  }

  lemma SoundHeartStaysSound(s: State, a: Action, h: nat, t: State)
    requires h < |s.core.gens| && HeartStep(s, a, h) == Some(t) && !a.TimeOutHeart?
    requires !Failing(Heart, s.core.gens[h])
    ensures h < |t.core.gens| && !Failing(Heart, t.core.gens[h])
  {
    if s.core.gens[h].heart.HeartEmitting? {
      EmittingTouchesNoCore(s, h, HeartbeatTimeoutEvent);
    }
  }

  lemma TaskFailsAlone(s: State, a: Action, t: State, task: Task, g: nat)
    requires a.OfTask() && TaskStep(s, a) == Some(t) && !FailingIn(task, s.core, g) && !Fails(a, task, g)
    ensures !FailingIn(task, t.core, g)
  {
    if a.OfReader() {
      ReaderFailsAlone(s, a, a.gen, t, task, g);
    } else if a.OfWriter() {
      WriterFailsAlone(s, a, a.gen, t, task, g);
    } else {
      HeartFailsAlone(s, a, a.gen, t, task, g);
    }
  }

  lemma StepFailsNone(s: State, a: Action, t: State, task: Task, g: nat)
    requires Inv(s.core) && !FailingIn(task, s.core, g) && !Fails(a, task, g) && Step(s, a) == Some(t)
    ensures !FailingIn(task, t.core, g)
  {
    if a.OfTask() {
      TaskFailsAlone(s, a, t, task, g);
    } else {
      OthersKeepTasks(s, a, t);
      StayingTasksFailAlike(s.core, t.core, task, g);
    }
  }

  /** The task of generation `g` whose step an action is. */
  predicate StepsTask(a: Action, task: Task, g: nat) {
    match task
    case Reader => a.OfReader() && a.gen == g
    case Writer => a.OfWriter() && a.gen == g
    case Heart => a.OfHeart() && a.gen == g
  }

  predicate NoFailure(acts: seq<Action>, task: Task, g: nat) {
    forall i :: 0 <= i < |acts| ==> !Fails(acts[i], task, g)
  }

  lemma {:induction false} SoundTaskPostsNothing(
      s: State, acts: seq<Action>, t: State, a: Action, u: State, task: Task, g: nat)
    requires Inv(s.core) && !FailingIn(task, s.core, g) && NoFailure(acts, task, g) && Run(s, acts) == Some(t)
    requires StepsTask(a, task, g) && Step(t, a) == Some(u)
    ensures PostsNothing(t, u)
    decreases |acts|
  {
    if acts == [] {
      TaskKeepsShape(s, a, u);
    } else {
      var v := RunSplits(s, acts);
      StepKeepsInv(s, acts[0], v);
      StepFailsNone(s, acts[0], v, task, g);
      SoundTaskPostsNothing(v, acts[1..], t, a, u, task, g);
    }
  }

  /** A controlled end is silent: in every run, a task that has not failed posts nothing, however it was cancelled or
      aborted. */
  lemma SoundTasksPostNothing(s: State, acts: seq<Action>, t: State, a: Action, u: State, task: Task, g: nat)
    requires Reached(s) && !FailingIn(task, s.core, g) && NoFailure(acts, task, g) && Run(s, acts) == Some(t)
    requires StepsTask(a, task, g) && Step(t, a) == Some(u)
    ensures PostsNothing(t, u)
  {
    ReachedIsSound(s);
    SoundTaskPostsNothing(s, acts, t, a, u, task, g);
  }

  // ── What the watch shows after a disconnect ──────────────────

  /** A reconnect that can still post: it is between its first check and its post of `Reconnecting`, or past its
      second check, with its new writer still listening once spawned, and not past its post of `Connected`. */
  predicate NewsAhead(c: Core) {
    || 1 <= c.Rank() <= 2
    || 8 <= c.Rank() <= 13
    || (14 <= c.Rank() <= 18 && WriterListens(c))
    || 19 <= c.Rank() <= 20
  }

  /** `shutting_down` is set, no reconnect has news, and from its post on `disconnect` call `d` is what the watch
      shows. */
  predicate Quiets(s: State, d: nat) {
    && s.core.shuttingDown && !NewsAhead(s.core)
    && d in s.core.disconnects
    && (DisconnectRank(s.core.disconnects[d]) >= 6 ==> s.connection.Disconnected?)
  }

  lemma ReconnectKeepsQuiet(s: State, ok: bool, t: State, d: nat)
    requires Quiets(s, d) && ReconnectStep(s, ok) == Some(t)
    ensures Quiets(t, d)
  {
    ReconnectKeepsShape(s, ok, t);
  }

  lemma ShutdownKeepsQuiet(s: State, t: State, d: nat)
    requires Inv(s.core) && Quiets(s, d) && ShutdownStep(s) == Some(t)
    ensures Quiets(t, d)
  {
    ShutdownKeepsShape(s, t);
  }

  lemma DisconnectKeepsQuiet(s: State, e: nat, ok: bool, t: State, d: nat)
    requires Quiets(s, d) && DisconnectStep(s, e, ok) == Some(t)
    ensures Quiets(t, d)
  {
    DisconnectKeepsShape(s, e, ok, t);
  }

  lemma TaskKeepsQuiet(s: State, a: Action, t: State, d: nat)
    requires Quiets(s, d) && a.OfTask() && TaskStep(s, a) == Some(t)
    ensures Quiets(t, d)
  {
    TaskOnlyCalms(s, a, t);
    TaskKeepsShape(s, a, t);
  }

  lemma CallKeepsQuiet(s: State, a: Action, t: State, d: nat)
    requires Quiets(s, d) && CallStep(s, a) == Some(t)
    ensures Quiets(t, d)
  {
    CallKeepsShape(s, a, t);
  }

  lemma StepKeepsQuiet(s: State, a: Action, t: State, d: nat)
    requires Inv(s.core) && Quiets(s, d) && Step(s, a) == Some(t)
    ensures Quiets(t, d)
  {
    if a.StepReconnect? {
      ReconnectKeepsQuiet(s, a.ok, t, d);
    } else if a.StepShutdown? {
      ShutdownKeepsQuiet(s, t, d);
    } else if a.StepDisconnect? {
      DisconnectKeepsQuiet(s, a.id, a.ok, t, d);
    } else if a.StepAuto? {
      AutoKeepsShape(s, a.ok, a.call, t);
    } else if a.OfTask() {
      TaskKeepsQuiet(s, a, t, d);
    } else {
      CallKeepsQuiet(s, a, t, d);
    }
  }

  lemma {:induction false} RunKeepsQuiet(s: State, acts: seq<Action>, t: State, d: nat)
    requires Inv(s.core) && Quiets(s, d) && Run(s, acts) == Some(t)
    ensures Quiets(t, d)
    decreases |acts|
  {
    if acts != [] {
      var u := RunSplits(s, acts);
      StepKeepsInv(s, acts[0], u);
      StepKeepsQuiet(s, acts[0], u, d);
      RunKeepsQuiet(u, acts[1..], t, d);
    }
  }

  // ── News ahead is posted after the disconnect ────────────────

  predicate Returned(c: Core, d: nat) { d in c.disconnects && c.disconnects[d].Finished? }

  lemma {:induction false} RunKeepsReturned(s: State, acts: seq<Action>, t: State, d: nat)
    requires Inv(s.core) && Returned(s.core, d) && Run(s, acts) == Some(t)
    ensures Returned(t.core, d)
    decreases |acts|
  {
    if acts != [] {
      var u := RunSplits(s, acts);
      StepKeepsInv(s, acts[0], u);
      DisconnectsMoveOn(s, acts[0], u, d);
      RunKeepsReturned(u, acts[1..], t, d);
    }
  }

  lemma LeadingKeepsReturned(s: State, t: State, d: nat)
    requires Inv(s.core) && Returned(s.core, d) && Leads(s, t)
    ensures Returned(t.core, d)
  {
    var acts :| LedBy(s, t, acts);
    RunKeepsReturned(s, acts, t, d);
  }

  lemma NewsComesCloser(s: State) returns (t: State)
    requires Inv(s.core) && NewsAhead(s.core) && 8 <= s.core.Rank() < 20
    ensures Leads(s, t) && Inv(t.core) && t.core.Rank() == s.core.Rank() + 1 && NewsAhead(t.core)
  {
    t := HolderAdvances(s);
  }

  /** Driven on, such a reconnect posts `Connected`. */
  lemma {:induction false} ConnectedIsAhead(s: State) returns (t: State)
    requires Inv(s.core) && NewsAhead(s.core) && s.core.Rank() >= 8
    ensures Leads(s, t) && t.connection.Connected?
    decreases 20 - s.core.Rank()
  {
    if s.core.Rank() == 20 {
      t := ReconnectStep(s, true).value;
      OneStep(s, StepReconnect(true), t);
    } else {
      var u := NewsComesCloser(s);
      t := ConnectedIsAhead(u);
      Chain(s, u, t);
    }
  }

  /** The holder passes its check of `alive`, cleared by the `disconnect`, and posts `Reconnecting`. */
  lemma ReconnectingIsAhead(s: State) returns (t: State)
    requires Inv(s.core) && 1 <= s.core.Rank() <= 2 && !s.core.alive
    ensures Leads(s, t) && t.connection.Reconnecting?
  {
    if s.core.Rank() == 2 {
      t := ReconnectStep(s, true).value;
      OneStep(s, StepReconnect(true), t);
    } else {
      var u := ReconnectStep(s, true).value;
      t := ReconnectStep(u, true).value;
      OneStep(u, StepReconnect(true), t);
      StepFirst(s, StepReconnect(true), u, t);
    }
  }

  /** First the `disconnect` runs to its end. */
  lemma NewsOutlives(s: State, d: nat) returns (t: State)
    requires Inv(s.core) && d in s.core.disconnects && s.core.disconnects[d].StoppingMedia? && NewsAhead(s.core)
    requires s.core.Rank() != 18
    ensures Leads(s, t) && Inv(t.core) && Returned(t.core, d) && NewsAhead(t.core)
    ensures t.core.Rank() == s.core.Rank() && !t.core.alive
  {
    t := DisconnectRunsOn(s, d);
  }

  lemma NewsSurvives(s: State, d: nat) returns (t: State)
    requires Inv(s.core) && d in s.core.disconnects && s.core.disconnects[d].StoppingMedia? && NewsAhead(s.core)
    requires s.core.Rank() != 18
    ensures Leads(s, t) && Returned(t.core, d) && !t.connection.Disconnected?
  {
    var u := NewsOutlives(s, d);
    if s.core.Rank() <= 2 {
      t := ReconnectingIsAhead(u);
    } else {
      t := ConnectedIsAhead(u);
    }
    LeadingKeepsReturned(u, t, d);
    Chain(s, u, t);
  }

  /** A reconnect about to send has its message taken before the `disconnect` joins the writer. */
  lemma SendsFirst(s: State, d: nat) returns (t: State)
    requires Inv(s.core) && d in s.core.disconnects && s.core.disconnects[d].StoppingMedia?
    requires s.core.Rank() == 18 && WriterListens(s.core)
    ensures Leads(s, t) && Inv(t.core) && t.core.Rank() == 19
    ensures d in t.core.disconnects && t.core.disconnects[d].StoppingMedia?
  {
    t := ReconnectStep(s, true).value;
    ReconnectKeepsShape(s, true, t);
    ReconnectKeepsInv(s, true, t);
    OneStep(s, StepReconnect(true), t);
  }

  lemma NewsFollows(s: State, d: nat) returns (t: State)
    requires Inv(s.core) && d in s.core.disconnects && s.core.disconnects[d].StoppingMedia? && NewsAhead(s.core)
    ensures Leads(s, t) && Returned(t.core, d) && !t.connection.Disconnected?
  {
    if s.core.Rank() == 18 {
      var u := SendsFirst(s, d);
      t := NewsSurvives(u, d);
      Chain(s, u, t);
    } else {
      t := NewsSurvives(s, d);
    }
  }

  // ── The exact condition ──────────────────────────────────────

  /** In every run, whenever `disconnect` call `d` has returned the watch shows `Disconnected`. */
  ghost predicate StaysDisconnected(s: State, d: nat) {
    forall acts :: !ShowsOther(s, d, acts)
  }

  predicate ShowsOther(s: State, d: nat, acts: seq<Action>) {
    && Run(s, acts).Some?
    && var t := Run(s, acts).value; Returned(t.core, d) && !t.connection.Disconnected?
  }

  /** The exact condition.  From the return of `disconnect` call `d` on, in every run, the watch shows
      `Disconnected`, if and only if no reconnect has news ahead when it begins. */
  lemma WatchStaysDisconnectedExactly(s: State, d: nat)
    requires Reached(s) && d !in s.core.disconnects
    ensures StaysDisconnected(BeginDisconnect(s, d), d) <==> !NewsAhead(s.core)
  {
    ReachedIsSound(s);
    var begun := BeginDisconnect(s, d);
    CallKeepsInv(s, CallDisconnect(d), begun);
    if NewsAhead(s.core) {
      var t := NewsFollows(begun, d);
      var acts :| LedBy(begun, t, acts);
      assert ShowsOther(begun, d, acts);
    } else {
      forall acts
        ensures !ShowsOther(begun, d, acts)
      {
        if Run(begun, acts).Some? {
          RunKeepsQuiet(begun, acts, Run(begun, acts).value, d);
        }
      }
    }
  }
}
