/**
 The event stream after a `disconnect`: exactly when no reconnect can carry a sender past it, no sender is
 left, and `next_event` hands out the buffered events in order and then `None` for ever.
 */
module LifecycleEvents {
  import opened Wrappers
  import opened Lifecycle
  import opened LifecycleSafety
  import opened LifecycleShutdown
  import opened LifecycleHolder
  import opened LifecycleProgress
  import opened LifecyclePermanence

  // ── Without a sender the stream only drains ──────────────────

  /** The newest generation of `d` is that of `c` with other tasks, or one without a sender. */
  lemma RebuildingAddsNoSender(s: State, ok: bool, t: State)
    requires Inv(s.core) && !s.core.AnyEventSender() && ReconnectStep(s, ok) == Some(t)
    requires var pc := s.core.holder.value.pc; pc.SwapWriter? || pc.CloneEvents?
    ensures !t.core.AnyEventSender()
  {
  }

  lemma SpawningAddsNoSender(s: State, ok: bool, t: State)
    requires Inv(s.core) && !s.core.AnyEventSender() && ReconnectStep(s, ok) == Some(t)
    requires var pc := s.core.holder.value.pc; pc.SpawnWriter? || pc.SpawnReader? || pc.SpawnHeart?
    ensures !t.core.AnyEventSender()
  {
  }

  lemma ReconnectAddsNoSender(s: State, ok: bool, t: State)
    requires Inv(s.core) && !s.core.AnyEventSender() && ReconnectStep(s, ok) == Some(t)
    ensures !t.core.AnyEventSender() && t.stream == s.stream
  {
    ReconnectKeepsShape(s, ok, t);
    var pc := s.core.holder.value.pc;
    if pc.SwapWriter? || pc.CloneEvents? {
      RebuildingAddsNoSender(s, ok, t);
    } else if pc.SpawnWriter? || pc.SpawnReader? || pc.SpawnHeart? {
      SpawningAddsNoSender(s, ok, t);
    } else {
      OthersKeepGenerations(s, ok, t);
    }
  }

  lemma TaskAddsNoSender(s: State, a: Action, t: State)
    requires !s.core.AnyEventSender() && a.OfTask() && TaskStep(s, a) == Some(t)
    ensures !t.core.AnyEventSender() && t.stream == s.stream
  {
    TaskOnlyCalms(s, a, t);
    CalmingAddsNoSender(s.core, t.core, a.gen);
    TaskKeepsShape(s, a, t);
    SenderlessTask(s.core, a.gen);
  }

  lemma CalmingAddsNoSender(c: Core, d: Core, g: nat)
    requires !c.AnyEventSender() && Calms(c, d, g)
    ensures !d.AnyEventSender()
  {
    forall h | 0 <= h < |d.gens| && d.gens[h].eventTx
      ensures !d.gens[h].reader.Running() && !d.gens[h].heart.Running()
    {
      SenderlessTask(c, h);
    }
  }

  lemma SenderlessTask(c: Core, g: nat)
    requires !c.AnyEventSender() && g < |c.gens|
    ensures c.gens[g].eventTx ==> !c.gens[g].reader.Running() && !c.gens[g].heart.Running()
  {
  }

  lemma ShutdownAddsNoSender(s: State, t: State)
    requires Inv(s.core) && !s.core.AnyEventSender() && ShutdownStep(s) == Some(t)
    ensures !t.core.AnyEventSender() && t.stream == s.stream
  {
    ShutdownKeepsShape(s, t);
  }

  /** Once no sender is left none comes back, and only the consumer touches the stream. */
  lemma NoSenderStays(s: State, a: Action, t: State)
    requires Inv(s.core) && !s.core.AnyEventSender() && Step(s, a) == Some(t)
    ensures !t.core.AnyEventSender() && (a.NextEvent? || t.stream == s.stream)
  {
    if a.StepReconnect? {
      ReconnectAddsNoSender(s, a.ok, t);
    } else if a.StepShutdown? {
      ShutdownAddsNoSender(s, t);
    } else if a.StepDisconnect? {
      DisconnectKeepsShape(s, a.id, a.ok, t);
    } else if a.StepAuto? {
      AutoKeepsShape(s, a.ok, a.call, t);
    } else if a.OfTask() {
      TaskAddsNoSender(s, a, t);
    } else {
      CallKeepsShape(s, a, t);
    }
  }

  function Received(events: seq<CastEvent>): (r: seq<Option<CastEvent>>)
    ensures |r| == |events|
    ensures forall i :: 0 <= i < |r| ==> r[i] == Some(events[i])
  {
    seq(|events|, i requires 0 <= i < |events| => Some(events[i]))
  }

  function Nones(n: nat): (r: seq<Option<CastEvent>>)
    ensures |r| == n && forall i :: 0 <= i < n ==> r[i] == None
  {
    seq(n, _ => None)
  }

  /** From `p` to `q` the consumer took the first `k` buffered events, then `None` `n` times. */
  ghost predicate Drained(p: Stream, q: Stream, k: nat, n: nat) {
    && k <= |p.events|
    && q.events == p.events[k..]
    && q.delivered == p.delivered + Received(p.events[..k]) + Nones(n)
    && (n > 0 ==> k == |p.events|)
  }

  lemma NothingDrains(p: Stream)
    ensures Drained(p, p, 0, 0)
  {
    assert p.delivered == p.delivered + Received(p.events[..0]) + Nones(0);
  }

  lemma StepDrains(s: State, a: Action, t: State) returns (k: nat, n: nat)
    requires Inv(s.core) && !s.core.AnyEventSender() && Step(s, a) == Some(t)
    ensures Drained(s.stream, t.stream, k, n) && k + n <= 1 && !t.core.AnyEventSender()
  {
    NoSenderStays(s, a, t);
    k, n := 0, 0;
    if a.NextEvent? && s.stream.events == [] {
      n := 1;
      assert Received(s.stream.events[..0]) == [] && Nones(1) == [None];
    } else if a.NextEvent? {
      k := 1;
      assert Received(s.stream.events[..1]) == [Some(s.stream.events[0])];
    } else {
      NothingDrains(s.stream);
    }
  }

  lemma TakesCompose(events: seq<CastEvent>, k: nat, k': nat)
    requires k + k' <= |events|
    ensures Received(events[..k]) + Received(events[k..][..k']) == Received(events[..k + k'])
    ensures events[k..][k'..] == events[k + k'..]
  {
    assert events[..k] + events[k..][..k'] == events[..k + k'];
  }

  lemma MoreIsTaken(p: Stream, q: Stream, r: Stream, k: nat, k': nat, n': nat)
    requires Drained(p, q, k, 0) && Drained(q, r, k', n')
    ensures Drained(p, r, k + k', n')
  {
    var first, second := Received(p.events[..k]), Received(q.events[..k']);
    TakesCompose(p.events, k, k');
    assert q.delivered == p.delivered + first;
    Regroup(p.delivered, first, second);
  }

  lemma NothingIsLeft(p: Stream, q: Stream, r: Stream, k: nat, n: nat, k': nat, n': nat)
    requires Drained(p, q, k, n) && Drained(q, r, k', n') && n > 0
    ensures k' == 0 && Drained(p, r, k, n + n')
  {
    var taken := Received(p.events[..k]);
    assert q.events == [] && Received(q.events[..0]) == [];
    assert r.delivered == q.delivered + Nones(n');
    Regroup(p.delivered + taken, Nones(n), Nones(n'));
    assert Nones(n) + Nones(n') == Nones(n + n');
  }

  lemma DrainsCompose(p: Stream, q: Stream, r: Stream, k: nat, n: nat, k': nat, n': nat)
    requires Drained(p, q, k, n) && Drained(q, r, k', n')
    ensures Drained(p, r, k + k', n + n')
  {
    if n == 0 {
      MoreIsTaken(p, q, r, k, k', n');
    } else {
      NothingIsLeft(p, q, r, k, n, k', n');
    }
  }

  /** Without a sender, whatever happens, the consumer receives the buffered events in order and then only
      `None`. */
  lemma {:induction false} RunDrains(s: State, acts: seq<Action>, t: State) returns (k: nat, n: nat)
    requires Inv(s.core) && !s.core.AnyEventSender() && Run(s, acts) == Some(t)
    ensures Drained(s.stream, t.stream, k, n) && !t.core.AnyEventSender()
    decreases |acts|
  {
    if acts == [] {
      k, n := 0, 0;
      NothingDrains(s.stream);
    } else {
      var u := RunSplits(s, acts);
      StepKeepsInv(s, acts[0], u);
      var k1, n1 := StepDrains(s, acts[0], u);
      var k2, n2 := RunDrains(u, acts[1..], t);
      DrainsCompose(s.stream, u.stream, t.stream, k1, n1, k2, n2);
      k, n := k1 + k2, n1 + n2;
    }
  }

  // ── A disconnect that leaves no sender ───────────────────────

  /** No running task holds a sender. */
  ghost predicate Muted(c: Core) {
    forall g :: 0 <= g < |c.gens| && c.gens[g].eventTx ==> !c.gens[g].reader.Running() && !c.gens[g].heart.Running()
  }

  /** `disconnect` call `d` has joined the tasks. */
  predicate PastShutdown(c: Core, d: nat) {
    d in c.disconnects && DisconnectRank(c.disconnects[d]) >= 4
  }

  /** What `disconnect` call `d` has achieved so far. */
  ghost predicate Closing(c: Core, d: nat) {
    && Barred(c) && d in c.disconnects
    && (c.Rank() == 17 || PastShutdown(c, d) ==> Muted(c))
    && (c.disconnects[d].Finished? ==> !c.eventSlot)
  }

  lemma CalmingKeepsMuted(c: Core, d: Core, g: nat)
    requires Muted(c) && Calms(c, d, g)
    ensures Muted(d)
  {
  }

  lemma SameTasksKeepMuted(c: Core, d: Core)
    requires Muted(c) && AllSameTasks(c, d)
    ensures Muted(d)
  {
  }

  lemma NothingHeldNothingRuns(c: Core)
    requires Inv(c) && c.handles.lock.Locked? && c.handles.lock.stage.Releasing? && Barred(c) && c.Rank() != 17
    ensures Muted(c)
  {
    assert Progress(c) == 7;
  }

  lemma TaskKeepsClosing(s: State, a: Action, t: State, d: nat)
    requires Closing(s.core, d) && a.OfTask() && TaskStep(s, a) == Some(t)
    ensures Closing(t.core, d)
  {
    TaskOnlyCalms(s, a, t);
    if Muted(s.core) {
      CalmingKeepsMuted(s.core, t.core, a.gen);
    }
  }

  lemma ShutdownKeepsClosing(s: State, t: State, d: nat)
    requires Inv(s.core) && Closing(s.core, d) && ShutdownStep(s) == Some(t)
    ensures Closing(t.core, d)
  {
    ShutdownKeepsShape(s, t);
    if s.core.handles.lock.stage.Releasing? {
      if s.core.Rank() != 17 {
        NothingHeldNothingRuns(s.core);
      }
    } else if Muted(s.core) {
      SameTasksKeepMuted(s.core, t.core);
    }
  }

  lemma DisconnectKeepsClosing(s: State, e: nat, ok: bool, t: State, d: nat)
    requires Closing(s.core, d) && DisconnectStep(s, e, ok) == Some(t)
    ensures Closing(t.core, d)
  {
    DisconnectKeepsShape(s, e, ok, t);
    if e == d {
      SteppingIsNotShutting(s, d, ok, t);
    }
  }

  lemma SteppingIsNotShutting(s: State, d: nat, ok: bool, t: State)
    requires DisconnectStep(s, d, ok) == Some(t)
    ensures !s.core.disconnects[d].ShuttingTasks?
  {
  }

  lemma ReconnectKeepsClosing(s: State, ok: bool, t: State, d: nat)
    requires Closing(s.core, d) && ReconnectStep(s, ok) == Some(t) && Barred(t.core)
    ensures Closing(t.core, d)
  {
    ReconnectKeepsShape(s, ok, t);
  }

  lemma StepKeepsClosing(s: State, a: Action, t: State, d: nat)
    requires Inv(s.core) && Closing(s.core, d) && Step(s, a) == Some(t)
    ensures Closing(t.core, d)
  {
    StepKeepsDown(s, a, t);
    if a.StepReconnect? {
      ReconnectKeepsClosing(s, a.ok, t, d);
    } else if a.StepShutdown? {
      ShutdownKeepsClosing(s, t, d);
    } else if a.StepDisconnect? {
      DisconnectKeepsClosing(s, a.id, a.ok, t, d);
    } else if a.StepAuto? {
      AutoKeepsShape(s, a.ok, a.call, t);
    } else if a.OfTask() {
      TaskKeepsClosing(s, a, t, d);
    } else {
      CallKeepsShape(s, a, t);
    }
  }

  lemma {:induction false} RunKeepsClosing(s: State, acts: seq<Action>, t: State, d: nat)
    requires Inv(s.core) && Closing(s.core, d) && Run(s, acts) == Some(t)
    ensures Inv(t.core) && Closing(t.core, d)
    decreases |acts|
  {
    if acts != [] {
      var u := RunSplits(s, acts);
      StepKeepsClosing(s, acts[0], u, d);
      StepKeepsInv(s, acts[0], u);
      RunKeepsClosing(u, acts[1..], t, d);
    }
  }

  lemma NoSenderLeft(c: Core, d: nat)
    requires Closing(c, d) && c.disconnects[d].Finished?
    ensures !c.AnyEventSender()
  {
  }

  // ── What a reconnect can carry past it ───────────────────────

  /** The sender captured by the newest generation is live as long as the slot's is. */
  ghost predicate Captured(c: Core) {
    |c.gens| > 0 && (c.eventSlot && c.Rank() != 9 ==> c.gens[c.Latest()].eventTx)
  }

  lemma ReconnectKeepsCaptured(s: State, ok: bool, t: State)
    requires Captured(s.core) && ReconnectStep(s, ok) == Some(t)
    ensures Captured(t.core)
  {
    ReconnectKeepsShape(s, ok, t);
  }

  lemma StepKeepsCaptured(s: State, a: Action, t: State)
    requires Inv(s.core) && Captured(s.core) && Step(s, a) == Some(t)
    ensures Captured(t.core)
  {
    if a.StepReconnect? {
      ReconnectKeepsCaptured(s, a.ok, t);
    } else if a.StepShutdown? {
      ShutdownKeepsCaptured(s, t);
    } else if a.StepDisconnect? {
      DisconnectKeepsShape(s, a.id, a.ok, t);
    } else if a.StepAuto? {
      AutoKeepsShape(s, a.ok, a.call, t);
    } else if a.OfTask() {
      TaskOnlyCalms(s, a, t);
      CalmingKeepsCaptured(s.core, t.core, a.gen);
    } else {
      CallKeepsShape(s, a, t);
    }
  }

  lemma ShutdownKeepsCaptured(s: State, t: State)
    requires Inv(s.core) && Captured(s.core) && ShutdownStep(s) == Some(t)
    ensures Captured(t.core)
  {
    ShutdownKeepsShape(s, t);
  }

  lemma CalmingKeepsCaptured(c: Core, d: Core, g: nat)
    requires Captured(c) && Calms(c, d, g)
    ensures Captured(d)
  {
  }

  lemma {:induction false} RunKeepsCaptured(s: State, acts: seq<Action>, t: State)
    requires Inv(s.core) && Captured(s.core) && Run(s, acts) == Some(t)
    ensures Captured(t.core)
    decreases |acts|
  {
    if acts != [] {
      var u := RunSplits(s, acts);
      StepKeepsCaptured(s, acts[0], u);
      StepKeepsInv(s, acts[0], u);
      RunKeepsCaptured(u, acts[1..], t);
    }
  }

  lemma ReachedIsCaptured(s: State)
    requires Reached(s)
    ensures Captured(s.core)
  {
    var capacity: nat, auto: bool, max: nat, acts: seq<Action> :| ReachedBy(s, capacity, auto, max, acts);
    RunKeepsCaptured(Init(capacity, auto, max), acts, s);
  }

  lemma LeadingKeepsCaptured(s: State, t: State)
    requires Inv(s.core) && Captured(s.core) && Leads(s, t)
    ensures Captured(t.core)
  {
    var acts :| LedBy(s, t, acts);
    RunKeepsCaptured(s, acts, t);
  }

  /** A reconnect past its second check holds or will capture a live sender, and has not stored its tasks
      for others to join. */
  predicate CarriesSender(c: Core) {
    && |c.gens| > 0
    && var last := c.gens[c.Latest()];
       || (8 <= c.Rank() <= 9 && c.eventSlot)
       || (10 <= c.Rank() <= 16 && last.eventTx)
       || (c.Rank() == 17 && last.eventTx && (last.reader.Running() || last.heart.Running()))
  }

  /** Whenever `disconnect` call `d` has returned, no sender is left. */
  ghost predicate StreamEnds(s: State, d: nat) {
    forall acts :: !SenderOutlives(s, d, acts)
  }

  ghost predicate SenderOutlives(s: State, d: nat, acts: seq<Action>) {
    && Run(s, acts).Some?
    && var c := Run(s, acts).value.core;
       d in c.disconnects && c.disconnects[d].Finished? && c.AnyEventSender()
  }

  /** With nothing to carry, a `disconnect` leaves no sender. */
  lemma NothingCarriedNothingOutlives(s: State, d: nat, acts: seq<Action>)
    requires Reached(s) && d !in s.core.disconnects && !CarriesSender(s.core)
    ensures !SenderOutlives(BeginDisconnect(s, d), d, acts)
  {
    var begun := BeginDisconnect(s, d);
    ReachedIsSound(s);
    CallKeepsInv(s, CallDisconnect(d), begun);
    if Run(begun, acts).Some? {
      var t := Run(begun, acts).value;
      if 8 <= s.core.Rank() <= 16 {
        ReachedIsCaptured(s);
        NothingToCapture(begun.core);
        var k, n := RunDrains(begun, acts, t);
      } else {
        BeginsClosing(s, d);
        RunKeepsClosing(begun, acts, t, d);
        if t.core.disconnects[d].Finished? {
          NoSenderLeft(t.core, d);
        }
      }
    }
  }

  lemma BeginsClosing(s: State, d: nat)
    requires Inv(s.core) && d !in s.core.disconnects && !(8 <= s.core.Rank() <= 16) && !CarriesSender(s.core)
    ensures Closing(BeginDisconnect(s, d).core, d)
  {
  }

  lemma NothingToCapture(c: Core)
    requires Inv(c) && Captured(c) && 8 <= c.Rank() <= 16 && !CarriesSender(c)
    ensures !c.AnyEventSender()
  {
  }

  /** The lock holder is driven to where it holds its sender. */
  lemma {:induction false} HolderCaptures(s: State) returns (t: State)
    requires Inv(s.core) && Captured(s.core) && CarriesSender(s.core)
    ensures Leads(s, t) && Inv(t.core) && CarriesSender(t.core) && 10 <= t.core.Rank() <= 17
    ensures forall d :: d in s.core.disconnects && s.core.disconnects[d].StoppingMedia? ==> d in t.core.disconnects
    decreases 18 - s.core.Rank()
  {
    if s.core.Rank() >= 10 {
      t := s;
      Stays(s);
    } else {
      var u := ReconnectStep(s, true).value;
      ReconnectKeepsShape(s, true, u);
      ReconnectKeepsInv(s, true, u);
      StepKeepsCaptured(s, StepReconnect(true), u);
      t := HolderCaptures(u);
      StepFirst(s, StepReconnect(true), u, t);
    }
  }

  /** A carried sender outlives the `disconnect`. */
  lemma CarriedSenderOutlives(s: State, d: nat)
    requires Inv(s.core) && Captured(s.core) && CarriesSender(s.core)
    requires d in s.core.disconnects && s.core.disconnects[d].StoppingMedia?
    ensures !StreamEnds(s, d)
  {
    var u := HolderCaptures(s);
    var t := DisconnectRunsOn(u, d);
    SameTasksKeepSender(u.core, t.core);
    Chain(s, u, t);
    var acts :| LedBy(s, t, acts);
    assert SenderOutlives(s, d, acts);
  }

  lemma SameTasksKeepSender(c: Core, d: Core)
    requires CarriesSender(c) && 10 <= c.Rank() <= 17 && AllSameTasks(c, d) && d.holder == c.holder
    ensures d.AnyEventSender()
  {
    var g := |c.gens| - 1;
    assert SameTasks(c.gens[g], d.gens[g]);
  }

  /** The exact condition.  A `disconnect` that starts now leaves no event sender when it returns, in every run,
      if and only if no reconnect carries one past it. */
  lemma EventStreamEndsExactly(s: State, d: nat)
    requires Reached(s) && d !in s.core.disconnects
    ensures StreamEnds(BeginDisconnect(s, d), d) <==> !CarriesSender(s.core)
  {
    if CarriesSender(s.core) {
      ReachedIsSound(s);
      ReachedIsCaptured(s);
      CallKeepsInv(s, CallDisconnect(d), BeginDisconnect(s, d));
      CarriedSenderOutlives(BeginDisconnect(s, d), d);
    } else {
      forall acts
        ensures !SenderOutlives(BeginDisconnect(s, d), d, acts)
      {
        NothingCarriedNothingOutlives(s, d, acts);
      }
    }
  }

  /** After such a `disconnect` has returned, in state `t`, the consumer receives exactly the buffered events
      in order and then only `None`, whatever happens. */
  lemma EventStreamEnds(s: State, d: nat, before: seq<Action>, t: State, after: seq<Action>, u: State)
    returns (k: nat, n: nat)
    requires Reached(s) && d !in s.core.disconnects && !CarriesSender(s.core)
    requires Run(BeginDisconnect(s, d), before) == Some(t) && d in t.core.disconnects && t.core.disconnects[d].Finished?
    requires Run(t, after) == Some(u)
    ensures !t.core.AnyEventSender() && Step(t, NextEvent).Some?
    ensures Drained(t.stream, u.stream, k, n)
  {
    ReturnedWithoutSender(s, d, before, t);
    NextEventIsReady(t);
    k, n := RunDrains(t, after, u);
  }

  lemma NextEventIsReady(s: State)
    requires !s.core.AnyEventSender()
    ensures Step(s, NextEvent).Some?
  {
  }

  lemma ReturnedWithoutSender(s: State, d: nat, before: seq<Action>, t: State)
    requires Reached(s) && d !in s.core.disconnects && !CarriesSender(s.core)
    requires Run(BeginDisconnect(s, d), before) == Some(t) && d in t.core.disconnects && t.core.disconnects[d].Finished?
    ensures Inv(t.core) && !t.core.AnyEventSender()
  {
    NothingCarriedNothingOutlives(s, d, before);
    StaysSound(s, d, before, t);
  }

  lemma StaysSound(s: State, d: nat, before: seq<Action>, t: State)
    requires Reached(s) && d !in s.core.disconnects && Run(BeginDisconnect(s, d), before) == Some(t)
    ensures Inv(t.core)
  {
    ReachedIsSound(s);
    CallKeepsInv(s, CallDisconnect(d), BeginDisconnect(s, d));
    RunKeepsInv(BeginDisconnect(s, d), before, t);
  }

  // ── The terminal event ───────────────────────────────────────

  function Somes(delivered: seq<Option<CastEvent>>): seq<CastEvent> {
    if delivered == [] then []
    else Somes(delivered[..|delivered| - 1])
         + (if delivered[|delivered| - 1].Some? then [delivered[|delivered| - 1].value] else [])
  }

  /** Every event that entered the channel, in order: consumed ones first. */
  function History(p: Stream): seq<CastEvent> {
    Somes(p.delivered) + p.events
  }

  ghost predicate EndsDisconnected(p: Stream) {
    var h := History(p);
    |h| > 0 && h[|h| - 1] == DisconnectedEvent(None)
  }

  lemma ConsumingKeepsHistory(s: State, t: State)
    requires CallStep(s, NextEvent) == Some(t)
    ensures History(t.stream) == History(s.stream)
  {
    if s.stream.delivered != t.stream.delivered {
      assert t.stream.delivered[..|t.stream.delivered| - 1] == s.stream.delivered;
    }
  }

  /** The lock holder is about to emit `Reconnecting` or `Reconnected`, or the monitor its give-up event. */
  predicate EmitsReconnectEvent(s: State, a: Action) {
    || (a.StepReconnect? && s.core.holder.Some?
        && (s.core.holder.value.pc.EmitReconnecting? || s.core.holder.value.pc.EmitReconnected?))
    || (a.StepAuto? && s.auto.pc.EmittingGiveUp?)
  }

  predicate NoReconnectEvents(s: State, acts: seq<Action>)
    decreases |acts|
  {
    acts != [] && Step(s, acts[0]).Some? ==>
      !EmitsReconnectEvent(s, acts[0]) && NoReconnectEvents(Step(s, acts[0]).value, acts[1..])
  }

  lemma EmittingKeepsEnd(s: State, d: nat, ok: bool, t: State)
    requires EndsDisconnected(s.stream) && DisconnectStep(s, d, ok) == Some(t)
    ensures EndsDisconnected(t.stream)
  {
  }

  /** With the tasks muted, only reconnect events, the terminal event and the consumer change the stream. */
  lemma OthersLeaveStream(s: State, a: Action, t: State)
    requires Muted(s.core) && Step(s, a) == Some(t)
    requires !EmitsReconnectEvent(s, a) && !a.StepDisconnect? && !a.NextEvent?
    ensures t.stream == s.stream
  {
    if a.StepReconnect? {
      ReconnectKeepsShape(s, a.ok, t);
    } else if a.StepShutdown? {
      ShutdownKeepsShape(s, t);
    } else if a.StepAuto? {
      AutoKeepsShape(s, a.ok, a.call, t);
    } else if a.OfTask() {
      TaskKeepsShape(s, a, t);
    } else {
      CallKeepsShape(s, a, t);
    }
  }

  lemma StepKeepsEnd(s: State, a: Action, t: State)
    requires Muted(s.core) && Step(s, a) == Some(t)
    requires !EmitsReconnectEvent(s, a) && EndsDisconnected(s.stream)
    ensures EndsDisconnected(t.stream)
  {
    if a.StepDisconnect? {
      EmittingKeepsEnd(s, a.id, a.ok, t);
    } else if a.NextEvent? {
      ConsumingKeepsHistory(s, t);
    } else {
      OthersLeaveStream(s, a, t);
    }
  }

  lemma {:induction false} RunKeepsEnd(s: State, acts: seq<Action>, t: State, d: nat)
    requires Inv(s.core) && Closing(s.core, d) && PastShutdown(s.core, d) && Run(s, acts) == Some(t)
    requires NoReconnectEvents(s, acts) && EndsDisconnected(s.stream)
    ensures EndsDisconnected(t.stream)
    decreases |acts|
  {
    if acts != [] {
      var u := RunSplits(s, acts);
      StepKeepsEnd(s, acts[0], u);
      StepKeepsInv(s, acts[0], u);
      StepKeepsClosing(s, acts[0], u, d);
      DisconnectsMoveOn(s, acts[0], u, d);
      RunKeepsEnd(u, acts[1..], t, d);
    }
  }

  lemma EmittingEnds(t: State, d: nat, u: State)
    requires DisconnectStep(t, d, true) == Some(u) && t.core.disconnects[d].EmittingDisconnected?
    requires t.core.eventSlot && |t.stream.events| < t.stream.capacity
    ensures EndsDisconnected(u.stream) && PastShutdown(u.core, d)
  {
  }

  /** If the terminal emit, in state `t`, finds the sender live and room in the buffer, and no reconnect
      attempt or give-up emits after it, the last event ever handed out is `Disconnected(None)`. */
  lemma TerminalEventIsLast(s: State, d: nat, before: seq<Action>, t: State, u: State, after: seq<Action>, v: State)
    requires Reached(s) && d !in s.core.disconnects && !(8 <= s.core.Rank() <= 16) && !CarriesSender(s.core)
    requires Run(BeginDisconnect(s, d), before) == Some(t)
    requires d in t.core.disconnects && t.core.disconnects[d].EmittingDisconnected?
    requires t.core.eventSlot && |t.stream.events| < t.stream.capacity
    requires DisconnectStep(t, d, true) == Some(u) && Run(u, after) == Some(v) && NoReconnectEvents(u, after)
    ensures EndsDisconnected(v.stream)
  {
    var begun := BeginDisconnect(s, d);
    ReachedIsSound(s);
    CallKeepsInv(s, CallDisconnect(d), begun);
    BeginsClosing(s, d);
    RunKeepsClosing(begun, before, t, d);
    EmittingEnds(t, d, u);
    DisconnectKeepsClosing(t, d, true, u, d);
    DisconnectKeepsInv(t, d, true, u);
    RunKeepsEnd(u, after, v, d);
  }

  // ── The buffer ───────────────────────────────────────────────

  predicate Fits(p: Stream) { |p.events| <= p.capacity }

  /** At most one more event is buffered, and only where there was room. */
  predicate EmitsAtMost(p: Stream, q: Stream) {
    && q.capacity == p.capacity && q.delivered == p.delivered
    && (q.events == p.events
        || (|p.events| < p.capacity && |q.events| == |p.events| + 1 && q.events[..|p.events|] == p.events))
  }

  lemma SlotEmitsOne(s: State, e: CastEvent, readable: bool)
    ensures EmitsAtMost(s.stream, EmitThroughSlot(s, e, readable).stream)
    ensures !readable || !s.core.eventSlot ==> EmitThroughSlot(s, e, readable).stream == s.stream
  {
  }

  lemma SenderEmitsOne(s: State, g: nat, e: CastEvent)
    requires g < |s.core.gens|
    ensures EmitsAtMost(s.stream, EmitFrom(s, g, e).stream)
  {
  }

  lemma ReconnectEmitsOne(s: State, ok: bool, t: State)
    requires ReconnectStep(s, ok) == Some(t)
    ensures EmitsAtMost(s.stream, t.stream)
    ensures !ok || !s.core.eventSlot ==> t.stream == s.stream
  {
    ReconnectKeepsShape(s, ok, t);
    SlotEmitsOne(s, ReconnectingEvent(s.core.holder.value.attempt), ok);
    SlotEmitsOne(s, ReconnectedEvent, ok);
  }

  lemma TaskEmitsOne(s: State, a: Action, t: State)
    requires a.OfTask() && TaskStep(s, a) == Some(t)
    ensures EmitsAtMost(s.stream, t.stream)
  {
    TaskKeepsShape(s, a, t);
    if TaskEvent(s.core.gens[a.gen], a).Some? {
      SenderEmitsOne(s, a.gen, TaskEvent(s.core.gens[a.gen], a).value);
    }
  }

  /** The action emits, if at all, through the slot. */
  predicate ThroughSlot(a: Action) { a.StepReconnect? || a.StepDisconnect? || a.StepAuto? }

  /** No step but the consumer's takes an event away, and none buffers more than one event, or any without room, or
      through a slot that cannot be read or holds the dead sender. */
  lemma StepsEmitOne(s: State, a: Action, t: State)
    requires Step(s, a) == Some(t) && !a.NextEvent?
    ensures EmitsAtMost(s.stream, t.stream)
    ensures ThroughSlot(a) && (!a.ok || !s.core.eventSlot) ==> t.stream == s.stream
  {
    if a.StepReconnect? {
      ReconnectEmitsOne(s, a.ok, t);
    } else if a.StepShutdown? {
      ShutdownKeepsShape(s, t);
    } else if a.StepDisconnect? {
      DisconnectKeepsShape(s, a.id, a.ok, t);
      SlotEmitsOne(s, DisconnectedEvent(None), a.ok);
    } else if a.StepAuto? {
      AutoKeepsShape(s, a.ok, a.call, t);
      SlotEmitsOne(s, DisconnectedEvent(Some("reconnect failed")), a.ok);
    } else if a.OfTask() {
      TaskEmitsOne(s, a, t);
    } else {
      CallKeepsShape(s, a, t);
    }
  }

  /** The consumer takes the oldest event, or learns that the stream has ended. */
  lemma ConsumerTakesOldest(s: State, t: State)
    requires Step(s, NextEvent) == Some(t)
    ensures
      if s.stream.events != []
      then t.stream.delivered + Received(t.stream.events) == s.stream.delivered + Received(s.stream.events)
           && |t.stream.events| == |s.stream.events| - 1
      else t.stream.delivered == s.stream.delivered + [None] && t.stream.events == [] && !s.core.AnyEventSender()
    ensures t.stream.capacity == s.stream.capacity
  {
    if s.stream.events != [] {
      TakingKeepsAll(s.stream.delivered, s.stream.events);
    }
  }

  lemma TakingKeepsAll(delivered: seq<Option<CastEvent>>, events: seq<CastEvent>)
    requires events != []
    ensures (delivered + [Some(events[0])]) + Received(events[1..]) == delivered + Received(events)
  {
    assert Received(events) == [Some(events[0])] + Received(events[1..]);
    Regroup(delivered, [Some(events[0])], Received(events[1..]));
  }

  lemma {:induction false} RunKeepsFitting(s: State, acts: seq<Action>, t: State)
    requires Fits(s.stream) && Run(s, acts) == Some(t)
    ensures Fits(t.stream)
    decreases |acts|
  {
    if acts != [] {
      var u := RunSplits(s, acts);
      if acts[0].NextEvent? {
        ConsumerTakesOldest(s, u);
      } else {
        StepsEmitOne(s, acts[0], u);
      }
      RunKeepsFitting(u, acts[1..], t);
    }
  }

  /** In every reachable state the buffer holds at most its capacity. */
  lemma BufferIsBounded(s: State)
    requires Reached(s)
    ensures |s.stream.events| <= s.stream.capacity
  {
    var capacity: nat, auto: bool, max: nat, acts: seq<Action> :| ReachedBy(s, capacity, auto, max, acts);
    RunKeepsFitting(Init(capacity, auto, max), acts, s);
  }
}
