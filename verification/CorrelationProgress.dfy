/**
 What becomes of a call: a routed answer is delivered to the call registered under its id, every call can be
 driven to the device's answer or to its end, and each result says what happened to the request.
 */
module CorrelationProgress {
  import opened Machine
  import opened Wrappers
  import opened RequestTracker
  import opened Correlation

  // ── Routing delivers ─────────────────────────────────────────

  /** An answer with a positive id goes to the call registered under that id, truncated, and to nobody else; the
      entry leaves the table.  Any other answer changes nothing. */
  lemma RouteDelivers(s: State, m: Answer, t: State)
    requires Reached(s) && Step(s, Route(m)) == Some(t)
    ensures
      var id := m.id % U32;
      if m.id > 0 && id in s.tracker.pending
      then && t.tracker.pending == s.tracker.pending - {id}
           && t.tracker.fates == s.tracker.fates[s.tracker.pending[id] := Delivered(m)]
           && t == s.(tracker := t.tracker)
      else t == s
  {
    ReachedIsSound(s);
  }

  // ── What a result says about the request ─────────────────────

  /** A request of call `k` was handed to a connection. */
  ghost predicate Asked(sent: set<Request>, k: nat) { exists r :: r in sent && r.call == k }

  /** The sender of call `k` is gone and has delivered nothing. */
  predicate Dropped(s: State, k: nat) { k in s.tracker.fates && !s.tracker.fates[k].Delivered? }

  ghost predicate EarnedAt(s: State, k: nat)
    requires k in s.calls
  {
    match s.calls[k]
    case Waiting(c) => k in s.ids && Request(c, s.ids[k], k) in s.sent
    case Leaving(e) => Asked(s.sent, k) && e != SendFailed && (e.Disconnected? ==> Dropped(s, k))
    case Done(Ok(_)) => Asked(s.sent, k)
    case Done(Err(SendFailed)) => !Asked(s.sent, k)
    case Done(Err(Disconnected)) => Asked(s.sent, k) && Dropped(s, k)
    case Done(Err(Timeout)) => Asked(s.sent, k)
    case _ => !Asked(s.sent, k)
  }

  ghost predicate Earned(s: State) { forall k :: k in s.calls ==> EarnedAt(s, k) }

  /** Nothing about call `k` changed but that its sender may have met its fate. */
  ghost predicate Bystands(s: State, t: State, k: nat) {
    && k in s.calls && k in t.calls && t.calls[k] == s.calls[k]
    && (k in s.ids ==> k in t.ids && t.ids[k] == s.ids[k])
    && (forall r :: r in t.sent && r.call == k <==> r in s.sent && r.call == k)
    && (k in s.tracker.fates ==> SameFate(s, t, k))
  }

  lemma BystandingStaysEarned(s: State, t: State, k: nat)
    requires Bystands(s, t, k) && EarnedAt(s, k)
    ensures EarnedAt(t, k)
  {
    assert Asked(s.sent, k) <==> Asked(t.sent, k);
  }

  /** The call whose own step an action is. */
  function Actor(a: Action): Option<nat> {
    if a.Start? || a.Allocate? || a.Insert? || a.CloneSender? || a.Enqueue? || a.Deliver? || a.NoticeDrop? || a.TimeOut?
       || a.Leave?
    then Some(a.call) else None
  }

  lemma OthersKeepRequest(s: State, a: Action, t: State, k: nat)
    requires Step(s, a) == Some(t) && k in s.calls && Actor(a) != Some(k)
    ensures k in t.calls && t.calls[k] == s.calls[k]
    ensures k in s.ids ==> k in t.ids && t.ids[k] == s.ids[k]
    ensures forall r :: r in t.sent && r.call == k <==> r in s.sent && r.call == k
  {
  }

  lemma OthersKeepEarned(s: State, a: Action, t: State, k: nat)
    requires Inv(s) && Step(s, a) == Some(t) && k in s.calls && EarnedAt(s, k) && Actor(a) != Some(k)
    ensures k in t.calls && EarnedAt(t, k)
  {
    OthersKeepRequest(s, a, t, k);
    if k in s.tracker.fates {
      StepKeepsFates(s, a, t, k);
    }
    BystandingStaysEarned(s, t, k);
  }

  lemma OwnStepEarns(s: State, a: Action, t: State, k: nat)
    requires Inv(s) && Step(s, a) == Some(t) && Actor(a) == Some(k) && k in s.calls && EarnedAt(s, k)
    requires !a.Enqueue? && !a.Leave?
    ensures k in t.calls && EarnedAt(t, k)
  {
    if s.calls[k].Waiting? {
      assert Request(s.calls[k].conn, s.ids[k], k) in s.sent;
    }
  }

  lemma LeavingEarns(s: State, t: State, k: nat)
    requires Inv(s) && Step(s, Leave(k)) == Some(t) && k in s.calls && EarnedAt(s, k)
    ensures k in t.calls && EarnedAt(t, k)
  {
    if k in s.tracker.fates {
      LeaveKeepsFates(s, k, t, k);
    }
  }

  lemma EnqueuingEarns(s: State, t: State, k: nat, ok: bool)
    requires Inv(s) && Step(s, Enqueue(k, ok)) == Some(t) && k in s.calls && EarnedAt(s, k)
    ensures k in t.calls && EarnedAt(t, k)
  {
  }

  lemma StartingEarns(s: State, t: State, k: nat)
    requires Inv(s) && Step(s, Start(k)) == Some(t)
    ensures k in t.calls && EarnedAt(t, k)
  {
    assert forall r :: r in s.sent ==> r.call in s.ids;
  }

  lemma OwnStepsEarn(s: State, a: Action, t: State, k: nat)
    requires Inv(s) && Step(s, a) == Some(t) && Actor(a) == Some(k)
    requires a.Start? || (k in s.calls && EarnedAt(s, k))
    ensures k in t.calls && EarnedAt(t, k)
  {
    if a.Start? {
      StartingEarns(s, t, k);
    } else if a.Enqueue? {
      EnqueuingEarns(s, t, k, a.ok);
    } else if a.Leave? {
      LeavingEarns(s, t, k);
    } else {
      OwnStepEarns(s, a, t, k);
    }
  }

  /** Only its own steps start or move a call. */
  lemma OnlyActorStarts(s: State, a: Action, t: State, k: nat)
    requires Step(s, a) == Some(t) && k in t.calls
    ensures k in s.calls || a == Start(k)
    ensures Actor(a) == Some(k) ==> k in s.calls || a.Start?
  {
  }

  lemma StepKeepsEarned(s: State, a: Action, t: State)
    requires Inv(s) && Earned(s) && Step(s, a) == Some(t)
    ensures Earned(t)
  {
    forall k | k in t.calls
      ensures EarnedAt(t, k)
    {
      OnlyActorStarts(s, a, t, k);
      if Actor(a) == Some(k) {
        OwnStepsEarn(s, a, t, k);
      } else {
        OthersKeepEarned(s, a, t, k);
      }
    }
  }

  lemma {:induction false} RunKeepsEarned(s: State, acts: seq<Action>, t: State)
    requires Inv(s) && Earned(s) && Run(s, acts) == Some(t)
    ensures Earned(t)
    decreases |acts|
  {
    if acts != [] {
      var u := Splits(Step, s, acts);
      StepKeepsInv(s, acts[0], u);
      StepKeepsEarned(s, acts[0], u);
      RunKeepsEarned(u, acts[1..], t);
    }
  }

  lemma ReachedIsEarned(s: State)
    requires Reached(s)
    ensures Earned(s)
  {
    var acts :| ReachedBy(s, acts);
    RunKeepsEarned(INIT, acts, s);
  }

  /** A finished call failed to send exactly when no request of its was ever handed to a connection, and says
      `Disconnected` only if its sender was dropped without an answer. */
  lemma ResultsAreEarned(s: State, k: nat)
    requires Reached(s) && k in s.calls && s.calls[k].Done?
    ensures s.calls[k] == Done(Err(SendFailed)) <==> !Asked(s.sent, k)
    ensures s.calls[k] == Done(Err(Disconnected)) ==> k in s.tracker.fates && !s.tracker.fates[k].Delivered?
    ensures s.calls[k].result.Ok? ==> k in s.tracker.fates && s.tracker.fates[k] == Delivered(s.calls[k].result.value)
  {
    ReachedIsSound(s);
    ReachedIsEarned(s);
    assert EarnedAt(s, k);
  }

  // ── Answers arrive ───────────────────────────────────────────

  lemma LeadingKeepsInv(s: State, t: State)
    requires Inv(s) && Leads(Step, s, t)
    ensures Inv(t)
  {
    var acts :| LedBy(Step, s, t, acts);
    RunKeepsInv(s, acts, t);
  }

  /** Call `k` waits with its own entry in the table, under a positive id. */
  predicate AwaitsAnswer(s: State, k: nat) {
    && s.Awaiting(k) && k in s.ids && s.ids[k] > 0
    && s.ids[k] in s.tracker.pending && s.tracker.pending[s.ids[k]] == k
  }

  /** The device's answer to call `k`. */
  function AnswerTo(s: State, k: nat, body: string): Answer
    requires s.Awaiting(k) && k in s.ids
  {
    Answer(s.calls[k].conn, s.ids[k], body, k)
  }

  lemma WaitingHasAsked(s: State, k: nat, r: Request)
    requires Inv(s) && Earned(s) && s.Awaiting(k) && r in s.received && r.call == k
    ensures k in s.ids && r == Request(s.calls[k].conn, s.ids[k], k)
  {
    assert EarnedAt(s, k);
  }

  /** The device answers, a reader routes, the call returns. */
  lemma AnswerRoundTrip(s: State, k: nat, body: string) returns (t: State)
    requires AwaitsAnswer(s, k) && s.ids[k] < U32 && Request(s.calls[k].conn, s.ids[k], k) in s.received
    ensures Leads(Step, s, t) && t.calls == s.calls[k := Done(Ok(AnswerTo(s, k, body)))]
  {
    var m := AnswerTo(s, k, body);
    var u := s.(answers := s.answers + {m});
    var v := u.(tracker := AfterResolve(u.tracker, m.id % U32, m));
    t := Move(v, k, Done(Ok(m)));
    Stays(Step, s);
    Then(Step, s, s, Respond(m), u);
    Then(Step, s, u, Route(m), v);
    Then(Step, s, v, Deliver(k), t);
  }

  /** End to end: a call that waits with its own entry, its request received on its connection, can be brought the
      device's answer, whatever that says, and returns it. */
  lemma AnswersComeBack(s: State, k: nat, r: Request, body: string) returns (t: State)
    requires Reached(s) && AwaitsAnswer(s, k) && r in s.received && r.call == k
    ensures Leads(Step, s, t) && t.calls == s.calls[k := Done(Ok(AnswerTo(s, k, body)))]
  {
    ReachedIsSound(s);
    ReachedIsEarned(s);
    WaitingHasAsked(s, k, r);
    IdsFit(s, k);
    t := AnswerRoundTrip(s, k, body);
  }

  // ── Every call can be driven to its end ──────────────────────

  /** The first allocation, or the second if the first gave 0. */
  lemma GetsId(s: State, k: nat) returns (t: State)
    requires s.At(k, Allocating)
    ensures Leads(Step, s, t) && t.At(k, Inserting) && k in t.ids && t.ids[k] > 0
    ensures t == s.(tracker := t.tracker, calls := t.calls, ids := t.ids, indices := t.indices, firsts := t.firsts)
  {
    Stays(Step, s);
    if IdAt(s.tracker.allocations) == 0 {
      var u := AfterZero(s, k);
      t := AfterId(u, k);
      Then(Step, s, s, Allocate(k), u);
      Then(Step, s, u, Allocate(k), t);
    } else {
      t := AfterId(s, k);
      Then(Step, s, s, Allocate(k), t);
    }
  }

  /** A call with an id registers and sends. */
  lemma GetsToWait(s: State, k: nat) returns (t: State)
    requires s.At(k, Inserting) && k in s.ids && s.ids[k] > 0
    ensures Leads(Step, s, t) && AwaitsAnswer(t, k) && t.calls[k] == Waiting(s.slot)
    ensures Request(s.slot, t.ids[k], k) in t.received
  {
    var r := Request(s.slot, s.ids[k], k);
    var u := Move(s, k, Cloning).(tracker := AfterInsert(s.tracker, s.ids[k], k));
    var v := Move(u, k, Enqueuing(s.slot));
    var w := Move(v, k, Waiting(s.slot)).(sent := v.sent + {r});
    t := w.(received := w.received + {r});
    Stays(Step, s);
    Then(Step, s, s, Insert(k), u);
    Then(Step, s, u, CloneSender(k), v);
    Then(Step, s, v, Enqueue(k, true), w);
    Then(Step, s, w, Receive(r), t);
  }

  /** From every reachable state a new call can be driven from its start to any answer of the device, past a wrap of
      the id counter too. */
  lemma NewCallsCanSucceed(s: State, k: nat, body: string) returns (t: State, m: Answer)
    requires Reached(s) && k !in s.calls
    ensures Leads(Step, s, t) && t.At(k, Done(Ok(m))) && m.body == body && m.to == k && m.conn == s.slot
  {
    ReachedIsSound(s);
    var started := Move(s, k, Allocating);
    Stays(Step, s);
    Then(Step, s, s, Start(k), started);
    var u := GetsId(started, k);
    var v := GetsToWait(u, k);
    Chain(Step, s, started, u);
    Chain(Step, s, u, v);
    LeadingKeepsInv(s, v);
    m := AnswerTo(v, k, body);
    IdsFit(v, k);
    t := AnswerRoundTrip(v, k, body);
    Chain(Step, s, v, t);
  }

  lemma TimesOut(s: State, k: nat) returns (t: State)
    requires s.Awaiting(k) && !s.HasAnswer(k) && k in s.ids
    ensures Leads(Step, s, t) && t.At(k, Done(Err(Timeout))) && t.tracker == AfterRemove(s.tracker, s.ids[k])
  {
    var u := Move(s, k, Leaving(Timeout));
    t := Move(u, k, Done(Err(Timeout))).(tracker := AfterRemove(u.tracker, u.ids[k]));
    Stays(Step, s);
    Then(Step, s, s, TimeOut(k), u);
    Then(Step, s, u, Leave(k), t);
  }

  lemma WaiterHasId(s: State, k: nat)
    requires Inv(s) && k in s.calls && !s.calls[k].Allocating? && !s.calls[k].Reallocating?
    ensures k in s.ids
  {
  }

  /** A waiting call without an answer can time out; its entry, if it still has one, is gone then. */
  lemma WaitersCanTimeOut(s: State, k: nat) returns (t: State)
    requires Reached(s) && s.Awaiting(k) && !s.HasAnswer(k)
    ensures Leads(Step, s, t) && t.At(k, Done(Err(Timeout))) && k !in t.tracker.pending.Values
  {
    ReachedIsSound(s);
    WaiterHasId(s, k);
    t := TimesOut(s, k);
    GiveUpKeepsInv(s, k, Timeout);
    LeaveTakesOwnEntry(Move(s, k, Leaving(Timeout)), k);
  }

  /** Steps left on the shortest way to an end. */
  function Distance(pc: CallPc): nat {
    match pc
    case Allocating => 7
    case Reallocating(_) => 6
    case Inserting => 5
    case Cloning => 4
    case Enqueuing(_) => 3
    case Waiting(_) => 2
    case Leaving(_) => 1
    case Done(_) => 0
  }

  lemma CallAdvances(s: State, k: nat) returns (a: Action, t: State)
    requires k in s.calls && !s.calls[k].Done?
    requires k in s.ids || s.calls[k].Allocating? || s.calls[k].Reallocating?
    ensures Step(s, a) == Some(t) && k in t.calls && Distance(t.calls[k]) < Distance(s.calls[k])
  {
    match s.calls[k] {
      case Allocating => a := Allocate(k);
      case Reallocating(_) => a := Allocate(k);
      case Inserting => a := Insert(k);
      case Cloning => a := CloneSender(k);
      case Enqueuing(_) => a := Enqueue(k, true);
      case Waiting(_) => a := if s.HasAnswer(k) then Deliver(k) else TimeOut(k);
      case Leaving(_) => a := Leave(k);
    }
    t := Step(s, a).value;
  }

  lemma {:induction false} CallRunsOn(s: State, k: nat) returns (t: State)
    requires Inv(s) && k in s.calls
    ensures Leads(Step, s, t) && k in t.calls && t.calls[k].Done?
    decreases Distance(s.calls[k])
  {
    Stays(Step, s);
    t := s;
    if !s.calls[k].Done? {
      if !s.calls[k].Allocating? && !s.calls[k].Reallocating? {
        WaiterHasId(s, k);
      }
      var a, u := CallAdvances(s, k);
      StepKeepsInv(s, a, u);
      Then(Step, s, s, a, u);
      t := CallRunsOn(u, k);
      Chain(Step, s, u, t);
    }
  }

  /** No call hangs: from every reachable state each can be driven to its result. */
  lemma CallsCanFinish(s: State, k: nat) returns (t: State)
    requires Reached(s) && k in s.calls
    ensures Leads(Step, s, t) && k in t.calls && t.calls[k].Done?
  {
    ReachedIsSound(s);
    t := CallRunsOn(s, k);
  }

  // ── Clearing the table ───────────────────────────────────────

  lemma ClearingDrops(t: Table<Answer>, k: nat)
    requires Sound(t) && k in t.pending.Values
    ensures
      var u := AfterClear(t);
      u.pending == map[] && k in u.fates && u.fates[k].Cleared?
  {
  }

  lemma OkWasDelivered(s: State, k: nat)
    requires Inv(s) && k in s.calls && s.calls[k].Done? && s.calls[k].result.Ok?
    ensures k in s.tracker.fates && s.tracker.fates[k].Delivered?
  {
  }

  lemma TableIsSound(s: State)
    requires Inv(s)
    ensures Sound(s.tracker)
  {
  }

  lemma ClearedIsFated(s: State, k: nat, t: State)
    requires Sound(s.tracker) && k in s.tracker.pending.Values && Step(s, ClearPending) == Some(t)
    ensures k in t.tracker.fates && t.tracker.fates[k].Cleared?
  {
    ClearingDrops(s.tracker, k);
  }

  lemma UndeliveredCallsFail(s: State, k: nat, acts: seq<Action>, t: State)
    requires Inv(s) && k in s.tracker.fates && !s.tracker.fates[k].Delivered? && Run(s, acts) == Some(t)
    ensures k in t.calls && t.calls[k].Done? ==> t.calls[k].result.Err?
  {
    FatesAreFinal(s, acts, t, k);
    RunKeepsInv(s, acts, t);
    if k in t.calls && t.calls[k].Done? && t.calls[k].result.Ok? {
      OkWasDelivered(t, k);
    }
  }

  /** Once the table is cleared, no call that had an entry in it ever returns `Ok`. */
  lemma ClearedCallsFail(s: State, k: nat, t: State, acts: seq<Action>, u: State)
    requires Reached(s) && k in s.tracker.pending.Values && Step(s, ClearPending) == Some(t) && Run(t, acts) == Some(u)
    ensures k in u.calls && u.calls[k].Done? ==> u.calls[k].result.Err?
  {
    ReachedIsSound(s);
    TableIsSound(s);
    ClearedIsFated(s, k, t);
    StepKeepsInv(s, ClearPending, t);
    UndeliveredCallsFail(t, k, acts, u);
  }

  /** A dropped sender is noticed. */
  lemma NoticesDrop(s: State, k: nat) returns (t: State)
    requires s.Awaiting(k) && Dropped(s, k) && k in s.ids
    ensures Leads(Step, s, t) && t.At(k, Done(Err(Disconnected))) && t.tracker == AfterRemove(s.tracker, s.ids[k])
  {
    var u := Move(s, k, Leaving(Disconnected));
    t := Move(u, k, Done(Err(Disconnected))).(tracker := AfterRemove(u.tracker, u.ids[k]));
    Stays(Step, s);
    Then(Step, s, s, NoticeDrop(k), u);
    Then(Step, s, u, Leave(k), t);
  }

  lemma Clears(s: State, k: nat) returns (t: State)
    requires Sound(s.tracker) && k in s.tracker.pending.Values
    ensures Leads(Step, s, t) && t == s.(tracker := t.tracker) && t.tracker.pending == map[] && Dropped(t, k)
  {
    ClearingDrops(s.tracker, k);
    t := s.(tracker := AfterClear(s.tracker));
    Stays(Step, s);
    Then(Step, s, s, ClearPending, t);
  }

  /** A call waiting with an entry is released by it: it can notice at once, and returns `Disconnected`. */
  lemma ClearingReleasesWaiters(s: State, k: nat) returns (t: State)
    requires Reached(s) && s.Awaiting(k) && k in s.tracker.pending.Values
    ensures Leads(Step, s, t) && t.At(k, Done(Err(Disconnected))) && t.tracker.pending == map[]
  {
    ReachedIsSound(s);
    WaiterHasId(s, k);
    TableIsSound(s);
    var u := Clears(s, k);
    t := NoticesDrop(u, k);
    Chain(Step, s, u, t);
  }

  // ── A replaced connection ────────────────────────────────────

  /** No connection is newer than the current one. */
  ghost predicate NoneNewer(s: State) {
    && (forall r :: r in s.sent ==> r.conn <= s.slot)
    && (forall k :: k in s.calls && s.calls[k].Enqueuing? ==> s.calls[k].conn <= s.slot)
  }

  lemma StepKeepsNoneNewer(s: State, a: Action, t: State)
    requires NoneNewer(s) && Step(s, a) == Some(t)
    ensures NoneNewer(t) && t.slot >= s.slot
  {
  }

  lemma {:induction false} RunKeepsNoneNewer(s: State, acts: seq<Action>, t: State)
    requires NoneNewer(s) && Run(s, acts) == Some(t)
    ensures NoneNewer(t) && t.slot >= s.slot
    decreases |acts|
  {
    if acts != [] {
      var u := Splits(Step, s, acts);
      StepKeepsNoneNewer(s, acts[0], u);
      RunKeepsNoneNewer(u, acts[1..], t);
    }
  }

  /** A replaced connection is new: no request was sent on it, and no call holds a clone of its channel; whoever
      clones the channel from then on does not get an old one. */
  lemma ReplacedConnectionIsNew(s: State, t: State, acts: seq<Action>, u: State, k: nat, v: State)
    requires Reached(s) && Step(s, ReplaceConnection) == Some(t) && Run(t, acts) == Some(u)
    requires Step(u, CloneSender(k)) == Some(v)
    ensures v.calls[k].Enqueuing?
    ensures forall r :: r in s.sent ==> r.conn < v.calls[k].conn
    ensures forall j :: j in s.calls && s.calls[j].Enqueuing? ==> s.calls[j].conn < v.calls[k].conn
  {
    var before :| ReachedBy(s, before);
    RunKeepsNoneNewer(INIT, before, s);
    RunKeepsNoneNewer(t, acts, u);
  }
}
