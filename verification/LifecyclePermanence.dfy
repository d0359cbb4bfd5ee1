/**
 What a `disconnect` call rules out: from its first step on nothing sets `alive`, spawns a task, posts
 `Connected` or lets a later reconnect in, exactly when no reconnect can still do one of these.
 */
module LifecyclePermanence {
  import opened Wrappers
  import opened Lifecycle
  import opened LifecycleSafety
  import opened LifecycleShutdown
  import opened LifecycleHolder
  import opened LifecycleProgress

  /** A task of generation `g` ran nothing in `c` and runs in `d`. */
  predicate StartedIn(c: Core, d: Core, g: nat) {
    && g < |d.gens|
    && (|| (d.gens[g].reader.Running() && (g < |c.gens| ==> !c.gens[g].reader.Running()))
        || (d.gens[g].writer.Running() && (g < |c.gens| ==> !c.gens[g].writer.Running()))
        || (d.gens[g].heart.Running() && (g < |c.gens| ==> !c.gens[g].heart.Running())))
  }

  ghost predicate NoneStarted(c: Core, d: Core) {
    forall g: nat :: !StartedIn(c, d, g)
  }

  /** The step sets `alive` or spawns a task. */
  ghost predicate Revives(c: Core, d: Core) { (!c.alive && d.alive) || !NoneStarted(c, d) }

  predicate PostsConnected(s: State, t: State) { t.version != s.version && t.connection.Connected? }

  /** `shutting_down` is set and the lock holder, if any, can neither set `alive` nor spawn. */
  predicate Barred(c: Core) {
    c.shuttingDown && !(8 <= c.Rank() <= 16)
  }

  /** A reconnect past its last spawn whose messages can still be sent. */
  predicate Announcing(c: Core) {
    (17 <= c.Rank() <= 18 && WriterListens(c)) || 19 <= c.Rank() <= 20
  }

  predicate Silenced(c: Core) {
    Barred(c) && !Announcing(c)
  }

  /** A step that keeps the client down. */
  ghost predicate KeepsDown(s: State, t: State) {
    && Barred(t.core) && !Revives(s.core, t.core)
    && (Silenced(s.core) ==> Silenced(t.core) && !PostsConnected(s, t))
  }

  lemma CalmingKeepsDown(c: Core, d: Core, g: nat)
    requires Barred(c) && Calms(c, d, g)
    ensures Barred(d) && !Revives(c, d) && (Silenced(c) ==> Silenced(d))
  {
  }

  lemma TaskKeepsDown(s: State, a: Action, t: State)
    requires Barred(s.core) && a.OfTask() && TaskStep(s, a) == Some(t)
    ensures KeepsDown(s, t)
  {
    TaskOnlyCalms(s, a, t);
    TaskKeepsShape(s, a, t);
    CalmingKeepsDown(s.core, t.core, a.gen);
  }

  lemma ReconnectKeepsDown(s: State, ok: bool, t: State)
    requires Inv(s.core) && Barred(s.core) && ReconnectStep(s, ok) == Some(t)
    ensures KeepsDown(s, t)
  {
    ReconnectKeepsShape(s, ok, t);
  }

  lemma ShutdownKeepsDown(s: State, t: State)
    requires Inv(s.core) && Barred(s.core) && ShutdownStep(s) == Some(t)
    ensures KeepsDown(s, t)
  {
    ShutdownKeepsShape(s, t);
  }

  lemma DisconnectKeepsDown(s: State, d: nat, ok: bool, t: State)
    requires Barred(s.core) && DisconnectStep(s, d, ok) == Some(t)
    ensures KeepsDown(s, t)
  {
    DisconnectKeepsShape(s, d, ok, t);
  }

  lemma CallKeepsDown(s: State, a: Action, t: State)
    requires Barred(s.core) && CallStep(s, a) == Some(t)
    ensures KeepsDown(s, t)
  {
    CallKeepsShape(s, a, t);
  }

  lemma StepKeepsDown(s: State, a: Action, t: State)
    requires Inv(s.core) && Barred(s.core) && Step(s, a) == Some(t)
    ensures KeepsDown(s, t)
  {
    if a.StepReconnect? {
      ReconnectKeepsDown(s, a.ok, t);
    } else if a.StepShutdown? {
      ShutdownKeepsDown(s, t);
    } else if a.StepDisconnect? {
      DisconnectKeepsDown(s, a.id, a.ok, t);
    } else if a.StepAuto? {
      AutoKeepsShape(s, a.ok, a.call, t);
    } else if a.OfTask() {
      TaskKeepsDown(s, a, t);
    } else {
      CallKeepsDown(s, a, t);
    }
  }

  // ── Later reconnects are refused ─────────────────────────────

  /** Call `k` can only be, or have been, turned away at the first shutdown check. */
  predicate OnlyRefused(s: State, k: nat) {
    && (s.core.holder.Some? && s.core.holder.value.call == k ==> s.core.holder.value.pc.CheckShutdown?)
    && (k in s.results ==> s.results[k] == Err(DisconnectedError))
  }

  lemma FirstCheckRefuses(s: State, ok: bool, t: State)
    requires ReconnectStep(s, ok) == Some(t) && s.core.shuttingDown && s.core.holder.value.pc.CheckShutdown?
    ensures t.results == s.results[s.core.holder.value.call := Err(DisconnectedError)] && t.core.holder.None?
  {
  }

  lemma ReconnectRefuses(s: State, ok: bool, t: State, k: nat)
    requires ReconnectStep(s, ok) == Some(t) && OnlyRefused(s, k) && s.core.shuttingDown
    ensures OnlyRefused(t, k)
  {
    ReconnectKeepsShape(s, ok, t);
    if s.core.holder.value.pc.CheckShutdown? {
      FirstCheckRefuses(s, ok, t);
    }
  }

  lemma StepRefuses(s: State, a: Action, t: State, k: nat)
    requires Inv(s.core) && s.core.shuttingDown && Step(s, a) == Some(t) && OnlyRefused(s, k)
    ensures OnlyRefused(t, k)
  {
    if a.StepReconnect? {
      ReconnectRefuses(s, a.ok, t, k);
    } else if a.StepShutdown? {
      ShutdownKeepsShape(s, t);
    } else if a.StepDisconnect? {
      DisconnectKeepsShape(s, a.id, a.ok, t);
    } else if a.StepAuto? {
      AutoKeepsShape(s, a.ok, a.call, t);
    } else if a.OfTask() {
      TaskOnlyCalms(s, a, t);
      TaskKeepsShape(s, a, t);
    } else {
      CallKeepsShape(s, a, t);
    }
  }

  // ── Over runs ────────────────────────────────────────────────

  lemma {:induction false} BarredRun(s: State, acts: seq<Action>, t: State)
    requires Inv(s.core) && Barred(s.core) && Run(s, acts) == Some(t)
    ensures Inv(t.core) && Barred(t.core) && (Silenced(s.core) ==> Silenced(t.core))
    decreases |acts|
  {
    if acts != [] {
      var u := RunSplits(s, acts);
      StepKeepsDown(s, acts[0], u);
      StepKeepsInv(s, acts[0], u);
      BarredRun(u, acts[1..], t);
    }
  }

  lemma {:induction false} RefusingRun(s: State, acts: seq<Action>, t: State, k: nat)
    requires Inv(s.core) && Barred(s.core) && Run(s, acts) == Some(t) && OnlyRefused(s, k)
    ensures OnlyRefused(t, k)
    decreases |acts|
  {
    if acts != [] {
      var u := RunSplits(s, acts);
      StepRefuses(s, acts[0], u, k);
      StepKeepsDown(s, acts[0], u);
      StepKeepsInv(s, acts[0], u);
      RefusingRun(u, acts[1..], t, k);
    }
  }

  /** The step from `t` to `u` undoes the disconnect: it sets `alive`, spawns a task, posts `Connected`, or
      gives an answer other than `Disconnected` to a reconnect that was yet to be called in `before`. */
  ghost predicate Undoes(before: State, t: State, u: State) {
    || Revives(t.core, u.core)
    || PostsConnected(t, u)
    || exists k :: AnswersFresh(before, u, k)
  }

  predicate AnswersFresh(before: State, u: State, k: nat) {
    FreshCall(before, k) && k in u.results && u.results[k] != Err(DisconnectedError)
  }

  /** Some run from `s` takes a step that undoes the disconnect. */
  ghost predicate CanBeUndone(s: State) {
    exists acts, a :: UndoneBy(s, acts, a)
  }

  ghost predicate UndoneBy(s: State, acts: seq<Action>, a: Action) {
    && Run(s, acts).Some?
    && var t := Run(s, acts).value;
       Step(t, a).Some? && Undoes(s, t, Step(t, a).value)
  }

  lemma SilencedIsNotUndone(s: State, acts: seq<Action>, a: Action)
    requires Inv(s.core) && Silenced(s.core)
    ensures !UndoneBy(s, acts, a)
  {
    if Run(s, acts).Some? && Step(Run(s, acts).value, a).Some? {
      var t := Run(s, acts).value;
      var u := Step(t, a).value;
      BarredRun(s, acts, t);
      StepKeepsDown(t, a, u);
      forall k | FreshCall(s, k)
        ensures !AnswersFresh(s, u, k)
      {
        RefusingRun(s, acts, t, k);
        StepRefuses(t, a, u, k);
      }
    }
  }

  /** Once `disconnect` sets `shutting_down` while no reconnect can still revive the client or announce it, no
      later step of any run sets `alive`, spawns a task or posts `Connected`, and a reconnect called
      afterwards can only fail with `Disconnected`. */
  lemma DisconnectIsPermanent(s: State, d: nat, acts: seq<Action>, t: State, a: Action, u: State, k: nat)
    requires Reached(s) && d !in s.core.disconnects && !(8 <= s.core.Rank() <= 16) && !Announcing(s.core)
    requires Run(BeginDisconnect(s, d), acts) == Some(t) && Step(t, a) == Some(u)
    ensures !Revives(t.core, u.core) && !PostsConnected(t, u)
    ensures FreshCall(s, k) && k in u.results ==> u.results[k] == Err(DisconnectedError)
  {
    ReachedIsSound(s);
    var begun := BeginDisconnect(s, d);
    CallKeepsInv(s, CallDisconnect(d), begun);
    SilencedIsNotUndone(begun, acts, a);
    assert !AnswersFresh(begun, u, k);
  }

  // ── A committed reconnect undoes it ──────────────────────────

  lemma UndoneAhead(s: State, t: State, a: Action, u: State)
    requires Leads(s, t) && Step(t, a) == Some(u) && (Revives(t.core, u.core) || PostsConnected(t, u))
    ensures CanBeUndone(s)
  {
    var acts :| LedBy(s, t, acts);
    assert UndoneBy(s, acts, a);
  }

  lemma SettingAliveRevives(s: State, t: State)
    requires Inv(s.core) && s.core.Rank() == 10 && ReconnectStep(s, true) == Some(t)
    ensures Revives(s.core, t.core)
  {
    ReconnectKeepsShape(s, true, t);
  }

  lemma SpawningRevives(s: State, t: State)
    requires Inv(s.core) && ReconnectStep(s, true) == Some(t)
    requires var pc := s.core.holder.value.pc; pc.SpawnWriter? || pc.SpawnReader? || pc.SpawnHeart?
    ensures Revives(s.core, t.core)
  {
    var g: nat := s.core.Latest();
    assert StartedIn(s.core, t.core, g);
  }

  lemma ConnectedIsPosted(s: State, t: State)
    requires ReconnectStep(s, true) == Some(t) && s.core.holder.value.pc.PostConnected?
    ensures PostsConnected(s, t)
  {
  }

  /** Driven on, a reconnect between its second check and its announcement undoes the disconnect. */
  lemma {:induction false} CommittedHolderUndoes(s: State) returns (t: State, u: State)
    requires Inv(s.core) && (8 <= s.core.Rank() <= 16 || Announcing(s.core))
    ensures Leads(s, t) && ReconnectStep(t, true) == Some(u) && (Revives(t.core, u.core) || PostsConnected(t, u))
    decreases 21 - s.core.Rank()
  {
    var pc := s.core.holder.value.pc;
    if pc.SetAlive? || pc.SpawnWriter? || pc.SpawnReader? || pc.SpawnHeart? || pc.PostConnected? {
      t, u := s, ReconnectStep(s, true).value;
      Stays(s);
      if pc.SetAlive? {
        SettingAliveRevives(t, u);
      } else if pc.PostConnected? {
        ConnectedIsPosted(t, u);
      } else {
        SpawningRevives(t, u);
      }
    } else {
      var next := HolderAdvances(s);
      t, u := CommittedHolderUndoes(next);
      Chain(s, next, t);
    }
  }

  /** The exact condition.  Once `disconnect` call `d` sets `shutting_down`, no run ever sets `alive`, spawns a
      task, posts `Connected` or answers a later reconnect with anything but `Disconnected`, if and only if no
      reconnect stands between its second check and its last spawn, or can still post `Connected`. */
  lemma DisconnectIsPermanentExactly(s: State, d: nat)
    requires Reached(s) && d !in s.core.disconnects
    ensures !CanBeUndone(BeginDisconnect(s, d)) <==> !(8 <= s.core.Rank() <= 16) && !Announcing(s.core)
  {
    ReachedIsSound(s);
    var t := BeginDisconnect(s, d);
    CallKeepsInv(s, CallDisconnect(d), t);
    if 8 <= s.core.Rank() <= 16 || Announcing(s.core) {
      var v, w := CommittedHolderUndoes(t);
      UndoneAhead(t, v, StepReconnect(true), w);
    } else {
      forall acts, a
        ensures !UndoneBy(t, acts, a)
      {
        SilencedIsNotUndone(t, acts, a);
      }
    }
  }
}
