/**
 `alive` is truthful, over a whole run, exactly when no `disconnect` starts between the second shutdown
 check of a reconnect and its reset of `shutting_down`.
 */
module LifecycleTruth {
  import opened Wrappers
  import opened Lifecycle
  import opened LifecycleSafety
  import opened LifecycleShutdown
  import opened LifecycleHolder
  import opened LifecycleProgress

  /** The lock holder is past its second check and has not yet reset `shutting_down`. */
  predicate Exposed(c: Core) { 8 <= c.Rank() <= 11 }

  /** Nothing has failed yet: every task is unborn, in its loop, or just about to clear `alive`. */
  predicate Healthy(g: Generation) {
    && g.Undisturbed()
    && (g.reader.ReaderUnborn? || g.reader.Reading? || g.reader.ReaderFailed?)
    && (g.writer.WriterUnborn? || g.writer.Writing? || g.writer.WriterFailed?)
    && (g.heart.HeartUnborn? || g.heart.Beating? || g.heart.HeartFailed?)
  }

  ghost predicate DisconnectsTruthful(c: Core) {
    && (forall d :: d in c.disconnects ==> c.shuttingDown && !Exposed(c))
    && (c.alive ==> forall d :: d in c.disconnects ==>
          c.disconnects[d].StoppingMedia? || c.disconnects[d].StoringAlive?)
  }

  ghost predicate Truthful(c: Core) {
    && |c.gens| > 0
    && DisconnectsTruthful(c)
    && (c.alive ==> Healthy(c.gens[c.Latest()]))
    && (9 <= c.Rank() <= 10 ==> c.gens[c.Latest()].Undisturbed())
  }

  /** The action does not start a `disconnect` under an exposed reconnect. */
  predicate Quiet(s: State, a: Action) {
    a.CallDisconnect? ==> !Exposed(s.core)
  }

  lemma ReaderStaysHealthy(s: State, a: Action, g: nat, t: State)
    requires g < |s.core.gens| && ReaderStep(s, a, g) == Some(t) && Healthy(s.core.gens[g])
    ensures t.core.alive ==> |t.core.gens| == |s.core.gens| && Healthy(t.core.gens[g])
  {
  }

  lemma WriterStaysHealthy(s: State, a: Action, g: nat, t: State)
    requires g < |s.core.gens| && WriterStep(s, a, g) == Some(t) && Healthy(s.core.gens[g]) && s.core.writeSlot == g
    ensures t.core.alive ==> |t.core.gens| == |s.core.gens| && Healthy(t.core.gens[g])
  {
  }

  lemma HeartStaysHealthy(s: State, a: Action, g: nat, t: State)
    requires g < |s.core.gens| && HeartStep(s, a, g) == Some(t) && Healthy(s.core.gens[g])
    requires !s.core.gens[g].writer.WriterUnborn?
    ensures t.core.alive ==> |t.core.gens| == |s.core.gens| && Healthy(t.core.gens[g])
  {
  }

  lemma TaskStaysHealthy(s: State, a: Action, t: State)
    requires Inv(s.core) && a.OfTask() && TaskStep(s, a) == Some(t) && Healthy(s.core.gens[s.core.Latest()])
    ensures a.gen == s.core.Latest()
    ensures t.core.alive ==> |t.core.gens| == |s.core.gens| && Healthy(t.core.gens[a.gen])
  {
    StepsRun(s, a);
    if a.OfReader() {
      ReaderStaysHealthy(s, a, a.gen, t);
    } else if a.OfWriter() {
      WriterStaysHealthy(s, a, a.gen, t);
    } else {
      HeartStaysHealthy(s, a, a.gen, t);
    }
  }

  lemma CalmingKeepsTruth(c: Core, d: Core, g: nat)
    requires Truthful(c) && Calms(c, d, g) && g == c.Latest()
    requires d.alive ==> Healthy(d.gens[g])
    ensures Truthful(d)
  {
  }

  lemma TaskKeepsTruth(s: State, a: Action, t: State)
    requires Inv(s.core) && Truthful(s.core) && a.OfTask() && TaskStep(s, a) == Some(t)
    ensures Truthful(t.core)
  {
    TaskOnlyCalms(s, a, t);
    StepsRun(s, a);
    if s.core.alive {
      TaskStaysHealthy(s, a, t);
    }
    CalmingKeepsTruth(s.core, t.core, a.gen);
  }

  /** Outside the window in which it rebuilds the generation, the lock holder leaves flags and tasks alone. */
  lemma BystandingKeepsTruth(s: State, ok: bool, t: State)
    requires Inv(s.core) && Truthful(s.core) && ReconnectStep(s, ok) == Some(t) && !(8 <= s.core.Rank() <= 16)
    requires !s.core.holder.value.pc.Rechecking?
    ensures Truthful(t.core)
  {
    ReconnectKeepsShape(s, ok, t);
  }

  /** Only a reconnect that finds `shutting_down` clear, and so no `disconnect`, becomes exposed. */
  lemma RecheckingKeepsTruth(s: State, ok: bool, t: State)
    requires Inv(s.core) && Truthful(s.core) && ReconnectStep(s, ok) == Some(t) && s.core.holder.value.pc.Rechecking?
    ensures Truthful(t.core)
  {
  }

  lemma ExposedKeepsTruth(s: State, ok: bool, t: State)
    requires Inv(s.core) && Truthful(s.core) && ReconnectStep(s, ok) == Some(t) && Exposed(s.core)
    requires
      var pc := s.core.holder.value.pc;
      pc.SwapWriter? || pc.CloneEvents? || pc.SetAlive? || pc.ResetFlag?
    ensures Truthful(t.core)
  {
    assert forall d :: d !in s.core.disconnects;
  }

  lemma PausingKeepsTruth(s: State, ok: bool, t: State)
    requires Inv(s.core) && Truthful(s.core) && ReconnectStep(s, ok) == Some(t)
    requires s.core.holder.value.pc.ClearPending? || s.core.holder.value.pc.Touching?
    ensures Truthful(t.core)
  {
  }

  lemma SpawningWriterKeepsTruth(s: State, ok: bool, t: State)
    requires Inv(s.core) && Truthful(s.core) && ReconnectStep(s, ok) == Some(t)
    requires s.core.holder.value.pc.SpawnWriter?
    ensures Truthful(t.core)
  {
  }

  lemma SpawningRestKeepsTruth(s: State, ok: bool, t: State)
    requires Inv(s.core) && Truthful(s.core) && ReconnectStep(s, ok) == Some(t)
    requires s.core.holder.value.pc.SpawnReader? || s.core.holder.value.pc.SpawnHeart?
    ensures Truthful(t.core)
  {
  }

  lemma SpawningKeepsTruth(s: State, ok: bool, t: State)
    requires Inv(s.core) && Truthful(s.core) && ReconnectStep(s, ok) == Some(t) && 12 <= s.core.Rank() <= 16
    ensures Truthful(t.core)
  {
    var pc := s.core.holder.value.pc;
    if pc.ClearPending? || pc.Touching? {
      PausingKeepsTruth(s, ok, t);
    } else if pc.SpawnWriter? {
      SpawningWriterKeepsTruth(s, ok, t);
    } else {
      SpawningRestKeepsTruth(s, ok, t);
    }
  }

  lemma ReconnectKeepsTruth(s: State, ok: bool, t: State)
    requires Inv(s.core) && Truthful(s.core) && ReconnectStep(s, ok) == Some(t)
    ensures Truthful(t.core)
  {
    if Exposed(s.core) {
      ExposedKeepsTruth(s, ok, t);
    } else if 12 <= s.core.Rank() <= 16 {
      SpawningKeepsTruth(s, ok, t);
    } else if s.core.holder.value.pc.Rechecking? {
      RecheckingKeepsTruth(s, ok, t);
    } else {
      BystandingKeepsTruth(s, ok, t);
    }
  }

  lemma ShutdownKeepsTruth(s: State, t: State)
    requires Inv(s.core) && Truthful(s.core) && ShutdownStep(s) == Some(t)
    ensures Truthful(t.core)
  {
    ShutdownKeepsShape(s, t);
  }

  lemma DisconnectKeepsTruth(s: State, d: nat, ok: bool, t: State)
    requires Inv(s.core) && Truthful(s.core) && DisconnectStep(s, d, ok) == Some(t)
    ensures Truthful(t.core)
  {
    DisconnectKeepsShape(s, d, ok, t);
  }

  lemma CallKeepsTruth(s: State, a: Action, t: State)
    requires Truthful(s.core) && CallStep(s, a) == Some(t) && Quiet(s, a)
    ensures Truthful(t.core)
  {
    CallKeepsShape(s, a, t);
  }

  lemma StepKeepsTruth(s: State, a: Action, t: State)
    requires Inv(s.core) && Truthful(s.core) && Step(s, a) == Some(t) && Quiet(s, a)
    ensures Truthful(t.core)
  {
    if a.StepReconnect? {
      ReconnectKeepsTruth(s, a.ok, t);
    } else if a.StepShutdown? {
      ShutdownKeepsTruth(s, t);
    } else if a.StepDisconnect? {
      DisconnectKeepsTruth(s, a.id, a.ok, t);
    } else if a.StepAuto? {
      AutoKeepsShape(s, a.ok, a.call, t);
    } else if a.OfTask() {
      TaskKeepsTruth(s, a, t);
    } else {
      CallKeepsTruth(s, a, t);
    }
  }

  // ── Over runs ────────────────────────────────────────────────

  /** No `disconnect` starts under an exposed reconnect. */
  predicate QuietRun(s: State, acts: seq<Action>)
    decreases |acts|
  {
    acts != [] && Step(s, acts[0]).Some? ==> Quiet(s, acts[0]) && QuietRun(Step(s, acts[0]).value, acts[1..])
  }

  lemma {:induction false} QuietRunKeepsTruth(s: State, acts: seq<Action>, t: State)
    requires Inv(s.core) && Truthful(s.core) && Run(s, acts) == Some(t) && QuietRun(s, acts)
    ensures Inv(t.core) && Truthful(t.core)
    decreases |acts|
  {
    if acts != [] {
      var u := RunSplits(s, acts);
      StepKeepsInv(s, acts[0], u);
      StepKeepsTruth(s, acts[0], u);
      QuietRunKeepsTruth(u, acts[1..], t);
    }
  }

  /** `alive` implies that the newest reader, writer and heartbeat all run, except inside the lock
      holder's window between setting the flag and spawning the three. */
  ghost predicate TellsTruth(c: Core) {
    && |c.gens| > 0
    && (c.alive && !(11 <= c.Rank() <= 16) ==>
          var g := c.gens[c.Latest()]; g.reader.Running() && g.writer.Running() && g.heart.Running())
  }

  lemma TruthfulTellsTruth(c: Core)
    requires Inv(c) && Truthful(c)
    ensures TellsTruth(c)
  {
  }

  ghost predicate QuietlyReachedBy(s: State, capacity: nat, auto: bool, max: nat, acts: seq<Action>) {
    ReachedBy(s, capacity, auto, max, acts) && QuietRun(Init(capacity, auto, max), acts)
  }

  /** Some quiet run of some configuration ends in `s`. */
  ghost predicate QuietlyReached(s: State) {
    exists capacity: nat, auto: bool, max: nat, acts: seq<Action> :: QuietlyReachedBy(s, capacity, auto, max, acts)
  }

  lemma QuietlyReachedIsSound(s: State)
    requires QuietlyReached(s)
    ensures Inv(s.core) && Truthful(s.core)
  {
    var capacity: nat, auto: bool, max: nat, acts: seq<Action> :| QuietlyReachedBy(s, capacity, auto, max, acts);
    QuietRunKeepsTruth(Init(capacity, auto, max), acts, s);
  }

  /** In every state of every quiet run `alive` tells the truth. */
  lemma AliveIsTruthful(s: State)
    requires QuietlyReached(s)
    ensures TellsTruth(s.core)
  {
    QuietlyReachedIsSound(s);
    TruthfulTellsTruth(s.core);
  }
}
