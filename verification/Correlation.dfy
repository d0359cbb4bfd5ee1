/**
 Request correlation as a state machine over any number of concurrent calls, connections and readers.
 A call runs `register`, clones the write channel of the current connection, enqueues its request and
 waits; the device may answer anything it has received; any reader may route any answer at any time,
 and the table may be cleared and the connection replaced at any time.
 */
module Correlation {
  import opened Machine
  import opened Wrappers
  import opened RequestTracker

  /** An inbound message: `id` is the u64 `requestId` on the wire.  History: the connection it came
      from, and the call whose request the device was answering. */
  datatype Answer = Answer(conn: nat, id: nat, body: string, to: nat)

  datatype Request = Request(conn: nat, id: nat, call: nat)

  datatype Error = Disconnected | Timeout | SendFailed

  datatype CallPc =
    | Allocating
    | Reallocating(first: nat)
    | Inserting
    | Cloning
    | Enqueuing(conn: nat)
    | Waiting(conn: nat)
    | Leaving(error: Error)
    | Done(result: Result<Answer, Error>)

  /** `ids` holds each call's allocated id.  History: the `fetch_add` that gave it, and the one that gave
      the zero it skipped. */
  datatype State = State(
    tracker: Table<Answer>,
    calls: map<nat, CallPc>,
    ids: map<nat, nat>,
    indices: map<nat, nat>,
    firsts: map<nat, nat>,
    slot: nat,
    sent: set<Request>,
    received: set<Request>,
    answers: set<Answer>)
  {
    predicate At(k: nat, pc: CallPc) { k in calls && calls[k] == pc }

    predicate Awaiting(k: nat) { k in calls && calls[k].Waiting? }

    predicate HasAnswer(k: nat) { k in tracker.fates && tracker.fates[k].Delivered? }
  }

  datatype Action =
    | Start(call: nat)
    | Allocate(call: nat)
    | Insert(call: nat)
    | CloneSender(call: nat)
    | Enqueue(call: nat, ok: bool)
    | Receive(request: Request)
    | Respond(answer: Answer)
    | Route(answer: Answer)
    | Deliver(call: nat)
    | NoticeDrop(call: nat)
    | TimeOut(call: nat)
    | Leave(call: nat)
    | ReplaceConnection
    | ClearPending

  function Move(s: State, k: nat, pc: CallPc): State {
    s.(calls := s.calls[k := pc])
  }

  /** The state after call `k` was handed id 0. */
  function AfterZero(s: State, k: nat): State {
    var n := s.tracker.allocations;
    s.(tracker := s.tracker.(allocations := n + 1), calls := s.calls[k := Reallocating(n)], firsts := s.firsts[k := n])
  }

  /** The state after call `k` was handed the next id. */
  function AfterId(s: State, k: nat): State {
    var n := s.tracker.allocations;
    var t := s.tracker.(allocations := n + 1);
    Move(s, k, Inserting).(tracker := t, ids := s.ids[k := IdAt(n)], indices := s.indices[k := n])
  }

  /** The state after action `a`, if `s` allows it. */
  function Step(s: State, a: Action): Option<State> {
    var t := s.tracker;
    match a
    case Start(k) => if k in s.calls then None else Some(Move(s, k, Allocating))
    case Allocate(k) =>
      if k !in s.calls || !(s.calls[k].Allocating? || s.calls[k].Reallocating?) then None
      else if s.calls[k].Allocating? && IdAt(t.allocations) == 0 then Some(AfterZero(s, k))
      else Some(AfterId(s, k))
    case Insert(k) =>
      if !s.At(k, Inserting) || k !in s.ids then None
      else Some(Move(s, k, Cloning).(tracker := AfterInsert(t, s.ids[k], k)))
    case CloneSender(k) => if !s.At(k, Cloning) then None else Some(Move(s, k, Enqueuing(s.slot)))
    case Enqueue(k, ok) =>
      if k !in s.calls || !s.calls[k].Enqueuing? || k !in s.ids then None else
      var c := s.calls[k].conn;
      if ok then Some(Move(s, k, Waiting(c)).(sent := s.sent + {Request(c, s.ids[k], k)}))
      else Some(Move(s, k, Done(Err(SendFailed))))
    case Receive(r) => if r !in s.sent then None else Some(s.(received := s.received + {r}))
    case Respond(m) =>
      // The device's side of the contract: it answers on a connection only with id 0 or with an id it
      // received on that connection.
      if m.id != 0 && Request(m.conn, m.id, m.to) !in s.received then None
      else Some(s.(answers := s.answers + {m}))
    case Route(m) =>
      if m !in s.answers then None
      else if m.id > 0 then Some(s.(tracker := AfterResolve(t, m.id % U32, m))) else Some(s)
    case Deliver(k) =>
      if !s.Awaiting(k) || !s.HasAnswer(k) then None else Some(Move(s, k, Done(Ok(t.fates[k].payload))))
    case NoticeDrop(k) =>
      if !s.Awaiting(k) || k !in t.fates || t.fates[k].Delivered? then None
      else Some(Move(s, k, Leaving(Disconnected)))
    case TimeOut(k) =>
      if !s.Awaiting(k) || s.HasAnswer(k) then None else Some(Move(s, k, Leaving(Timeout)))
    case Leave(k) =>
      if k !in s.calls || !s.calls[k].Leaving? || k !in s.ids then None
      else Some(Move(s, k, Done(Err(s.calls[k].error))).(tracker := AfterRemove(t, s.ids[k])))
    case ReplaceConnection => Some(s.(slot := s.slot + 1))
    case ClearPending => Some(s.(tracker := AfterClear(t)))
  }

  const INIT := State(Table(0, map[], map[]), map[], map[], map[], map[], 0, {}, {}, {})

  function Run(s: State, acts: seq<Action>): Option<State> { RunOf(Step, s, acts) }

  ghost predicate ReachedBy(s: State, acts: seq<Action>) { Run(INIT, acts) == Some(s) }

  ghost predicate Reached(s: State) { exists acts :: ReachedBy(s, acts) }

  // ── Invariant: ids and the table ─────────────────────────────

  /** Still before `pending.insert`. */
  predicate Unregistered(pc: CallPc) { pc.Allocating? || pc.Reallocating? || pc.Inserting? }

  /** The attempt to enqueue the request is over. */
  predicate PastSend(pc: CallPc) { pc.Waiting? || pc.Leaving? || pc.Done? }

  /** Every id comes from its own allocation. */
  ghost predicate IdsDistinct(n: nat, ids: map<nat, nat>, indices: map<nat, nat>) {
    && ids.Keys == indices.Keys
    && (forall k :: k in ids ==> ids[k] == IdAt(indices[k]) && indices[k] < n)
    && (forall j, k :: j in indices && k in indices && indices[j] == indices[k] ==> j == k)
  }

  /** A call has an id from its allocation on. */
  ghost predicate IdsPlaced(calls: map<nat, CallPc>, ids: map<nat, nat>) {
    && ids.Keys <= calls.Keys
    && (forall k :: k in calls ==> (k in ids <==> !calls[k].Allocating? && !calls[k].Reallocating?))
  }

  /** Only a call that skipped a zero can be about to get, or have, another. */
  ghost predicate FirstsSound(
    n: nat, calls: map<nat, CallPc>, ids: map<nat, nat>, indices: map<nat, nat>, firsts: map<nat, nat>)
  {
    && (forall k :: k in firsts ==> IdAt(firsts[k]) == 0 && firsts[k] < n && (k in indices ==> firsts[k] < indices[k]))
    && (forall k :: k in calls && calls[k].Reallocating? ==> k in firsts)
    && (forall k :: k in ids && ids[k] == 0 ==> k in firsts)
  }

  ghost predicate IdsSound(
    n: nat, calls: map<nat, CallPc>, ids: map<nat, nat>, indices: map<nat, nat>, firsts: map<nat, nat>)
  {
    IdsDistinct(n, ids, indices) && IdsPlaced(calls, ids) && FirstsSound(n, calls, ids, indices, firsts)
  }

  ghost predicate TableSound(t: Table<Answer>, calls: map<nat, CallPc>, ids: map<nat, nat>) {
    && Sound(t)
    && (forall k :: k in Registered(t) <==> k in calls && !Unregistered(calls[k]))
    && (forall i :: i in t.pending ==> t.pending[i] in ids && i == ids[t.pending[i]])
    && (forall i :: i in t.pending && t.pending[i] in calls && calls[t.pending[i]].Done? ==>
          calls[t.pending[i]] == Done(Err(SendFailed)))
  }

  ghost predicate SentSound(sent: set<Request>, received: set<Request>, calls: map<nat, CallPc>, ids: map<nat, nat>) {
    && (forall r :: r in sent ==> r.call in ids && r.id == ids[r.call])
    && (forall r :: r in sent ==> r.call in calls && PastSend(calls[r.call]))
    && (forall q, r :: q in sent && r in sent && q.call == r.call ==> q == r)
    && received <= sent
  }

  ghost predicate AnswersSound(answers: set<Answer>, received: set<Request>) {
    forall m :: m in answers ==> m.id == 0 || Request(m.conn, m.id, m.to) in received
  }

  ghost predicate DeliveriesSound(
    answers: set<Answer>, fates: map<nat, Fate<Answer>>, calls: map<nat, CallPc>, ids: map<nat, nat>)
  {
    && (forall k :: k in fates && fates[k].Delivered? ==>
          var m := fates[k].payload;
          m in answers && m.id > 0 && k in ids && m.id % U32 == ids[k])
    && (forall k :: k in calls && calls[k].Done? && calls[k].result.Ok? ==>
          k in fates && fates[k] == Delivered(calls[k].result.value))
  }

  ghost predicate Inv(s: State) {
    && IdsSound(s.tracker.allocations, s.calls, s.ids, s.indices, s.firsts)
    && TableSound(s.tracker, s.calls, s.ids)
    && SentSound(s.sent, s.received, s.calls, s.ids)
    && AnswersSound(s.answers, s.received)
    && DeliveriesSound(s.answers, s.tracker.fates, s.calls, s.ids)
  }

  // ── Every step keeps it ──────────────────────────────────────

  lemma MoveKeepsIds(s: State, k: nat, pc: CallPc)
    requires IdsSound(s.tracker.allocations, s.calls, s.ids, s.indices, s.firsts)
    requires k in s.ids && !pc.Allocating? && !pc.Reallocating?
    ensures IdsSound(s.tracker.allocations, s.calls[k := pc], s.ids, s.indices, s.firsts)
  {
  }

  lemma MoveKeepsTable(t: Table<Answer>, calls: map<nat, CallPc>, ids: map<nat, nat>, k: nat, pc: CallPc)
    requires TableSound(t, calls, ids)
    requires k in calls && Unregistered(calls[k]) == Unregistered(pc)
    requires pc.Done? ==> pc == Done(Err(SendFailed)) || k !in t.pending.Values
    ensures TableSound(t, calls[k := pc], ids)
  {
    forall i | i in t.pending
      ensures t.pending[i] in t.pending.Values
    {
    }
  }

  lemma MoveKeepsSent(
      sent: set<Request>, received: set<Request>, calls: map<nat, CallPc>, ids: map<nat, nat>, k: nat, pc: CallPc)
    requires SentSound(sent, received, calls, ids)
    requires k in calls && (PastSend(calls[k]) ==> PastSend(pc))
    ensures SentSound(sent, received, calls[k := pc], ids)
  {
  }

  lemma MoveKeepsDeliveries(s: State, k: nat, pc: CallPc)
    requires DeliveriesSound(s.answers, s.tracker.fates, s.calls, s.ids)
    requires pc.Done? && pc.result.Ok? ==> k in s.tracker.fates && s.tracker.fates[k] == Delivered(pc.result.value)
    ensures DeliveriesSound(s.answers, s.tracker.fates, s.calls[k := pc], s.ids)
  {
  }

  /** A call with a fate has left the table. */
  lemma FatedIsGone(t: Table<Answer>, k: nat)
    requires Sound(t) && k in t.fates
    ensures k !in t.pending.Values
  {
    assert forall i :: i in t.pending ==> t.pending[i] != k;
  }

  lemma MoveKeepsInv(s: State, k: nat, pc: CallPc)
    requires Inv(s) && k in s.ids && !Unregistered(s.calls[k]) && !Unregistered(pc)
    requires PastSend(s.calls[k]) ==> PastSend(pc)
    requires pc.Done? ==> pc == Done(Err(SendFailed)) || k !in s.tracker.pending.Values
    requires pc.Done? && pc.result.Ok? ==> k in s.tracker.fates && s.tracker.fates[k] == Delivered(pc.result.value)
    ensures Inv(Move(s, k, pc))
  {
    MoveKeepsIds(s, k, pc);
    MoveKeepsTable(s.tracker, s.calls, s.ids, k, pc);
    MoveKeepsSent(s.sent, s.received, s.calls, s.ids, k, pc);
    MoveKeepsDeliveries(s, k, pc);
  }

  lemma StartKeepsInv(s: State, k: nat)
    requires Inv(s) && k !in s.calls
    ensures Inv(Move(s, k, Allocating))
  {
    StartKeepsIds(s, k);
    StartKeepsRest(s, k);
  }

  lemma StartKeepsIds(s: State, k: nat)
    requires IdsSound(s.tracker.allocations, s.calls, s.ids, s.indices, s.firsts) && k !in s.calls
    ensures IdsSound(s.tracker.allocations, s.calls[k := Allocating], s.ids, s.indices, s.firsts)
  {
  }

  lemma StartKeepsRest(s: State, k: nat)
    requires TableSound(s.tracker, s.calls, s.ids) && SentSound(s.sent, s.received, s.calls, s.ids)
    requires DeliveriesSound(s.answers, s.tracker.fates, s.calls, s.ids) && k !in s.calls
    ensures TableSound(s.tracker, s.calls[k := Allocating], s.ids)
    ensures SentSound(s.sent, s.received, s.calls[k := Allocating], s.ids)
    ensures DeliveriesSound(s.answers, s.tracker.fates, s.calls[k := Allocating], s.ids)
  {
  }

  lemma ZeroKeepsIds(s: State, k: nat)
    requires IdsSound(s.tracker.allocations, s.calls, s.ids, s.indices, s.firsts)
    requires s.At(k, Allocating) && IdAt(s.tracker.allocations) == 0
    ensures
      var t := AfterZero(s, k);
      IdsSound(t.tracker.allocations, t.calls, t.ids, t.indices, t.firsts)
  {
  }

  /** Only allocated ids matter to the table, not how many there were. */
  lemma CountKeepsTable(t: Table<Answer>, n: nat, calls: map<nat, CallPc>, ids: map<nat, nat>)
    requires TableSound(t, calls, ids)
    ensures TableSound(t.(allocations := n), calls, ids)
  {
    assert Registered(t.(allocations := n)) == Registered(t);
  }

  lemma ZeroKeepsRest(s: State, k: nat)
    requires Inv(s) && s.At(k, Allocating)
    ensures
      var t := AfterZero(s, k);
      && TableSound(t.tracker, t.calls, t.ids) && SentSound(t.sent, t.received, t.calls, t.ids)
      && DeliveriesSound(t.answers, t.tracker.fates, t.calls, t.ids)
  {
    var pc := Reallocating(s.tracker.allocations);
    MoveKeepsTable(s.tracker, s.calls, s.ids, k, pc);
    CountKeepsTable(s.tracker, s.tracker.allocations + 1, s.calls[k := pc], s.ids);
    MoveKeepsSent(s.sent, s.received, s.calls, s.ids, k, pc);
    MoveKeepsDeliveries(s, k, pc);
  }

  lemma ZeroKeepsInv(s: State, k: nat)
    requires Inv(s) && s.At(k, Allocating) && IdAt(s.tracker.allocations) == 0
    ensures Inv(AfterZero(s, k))
  {
    ZeroKeepsIds(s, k);
    ZeroKeepsRest(s, k);
  }

  /** Giving call `k` the next id: the part of the invariant about ids, and the rest. */
  lemma NewIdIsDistinct(n: nat, ids: map<nat, nat>, indices: map<nat, nat>, k: nat)
    requires IdsDistinct(n, ids, indices) && k !in ids
    ensures IdsDistinct(n + 1, ids[k := IdAt(n)], indices[k := n])
  {
  }

  lemma NewIdKeepsFirsts(
      n: nat, calls: map<nat, CallPc>, ids: map<nat, nat>, indices: map<nat, nat>, firsts: map<nat, nat>, k: nat)
    requires FirstsSound(n, calls, ids, indices, firsts) && k in calls
    requires calls[k].Reallocating? || IdAt(n) != 0
    ensures FirstsSound(n + 1, calls[k := Inserting], ids[k := IdAt(n)], indices[k := n], firsts)
  {
  }

  lemma NewIdKeepsIds(s: State, k: nat)
    requires IdsSound(s.tracker.allocations, s.calls, s.ids, s.indices, s.firsts) && k in s.calls
    requires s.calls[k].Reallocating? || (s.calls[k].Allocating? && IdAt(s.tracker.allocations) != 0)
    ensures
      var t := AfterId(s, k);
      IdsSound(t.tracker.allocations, t.calls, t.ids, t.indices, t.firsts)
  {
    NewIdIsDistinct(s.tracker.allocations, s.ids, s.indices, k);
    NewIdKeepsFirsts(s.tracker.allocations, s.calls, s.ids, s.indices, s.firsts, k);
  }

  lemma NewIdKeepsTable(s: State, k: nat)
    requires TableSound(s.tracker, s.calls, s.ids) && k in s.calls && k !in s.ids && Unregistered(s.calls[k])
    ensures TableSound(AfterId(s, k).tracker, AfterId(s, k).calls, AfterId(s, k).ids)
  {
    MoveKeepsTable(s.tracker, s.calls, s.ids, k, Inserting);
    CountKeepsTable(s.tracker, s.tracker.allocations + 1, s.calls[k := Inserting], s.ids);
    NewIdIsElsewhere(s.tracker, s.calls[k := Inserting], s.ids, k);
  }

  /** An id for a call that has none changes nothing for those in the table. */
  lemma NewIdIsElsewhere(t: Table<Answer>, calls: map<nat, CallPc>, ids: map<nat, nat>, k: nat)
    requires TableSound(t, calls, ids) && k !in ids
    ensures TableSound(t.(allocations := t.allocations + 1), calls, ids[k := IdAt(t.allocations)])
  {
    CountKeepsTable(t, t.allocations + 1, calls, ids);
  }

  lemma NewIdKeepsRest(s: State, k: nat)
    requires SentSound(s.sent, s.received, s.calls, s.ids) && k in s.calls && k !in s.ids && Unregistered(s.calls[k])
    requires DeliveriesSound(s.answers, s.tracker.fates, s.calls, s.ids)
    ensures
      var t := AfterId(s, k);
      SentSound(t.sent, t.received, t.calls, t.ids) && DeliveriesSound(t.answers, t.tracker.fates, t.calls, t.ids)
  {
    MoveKeepsSent(s.sent, s.received, s.calls, s.ids, k, Inserting);
    MoveKeepsDeliveries(s, k, Inserting);
  }

  lemma NewIdKeepsInv(s: State, k: nat)
    requires Inv(s) && k in s.calls
    requires s.calls[k].Reallocating? || (s.calls[k].Allocating? && IdAt(s.tracker.allocations) != 0)
    ensures Inv(AfterId(s, k))
  {
    NewIdKeepsIds(s, k);
    NewIdKeepsTable(s, k);
    NewIdKeepsRest(s, k);
  }

  lemma InsertKeepsTable(t: Table<Answer>, calls: map<nat, CallPc>, ids: map<nat, nat>, k: nat)
    requires TableSound(t, calls, ids) && k in calls && calls[k].Inserting? && k in ids
    ensures TableSound(AfterInsert(t, ids[k], k), calls[k := Cloning], ids)
  {
    InsertAdds(t, ids[k], k);
  }

  lemma InsertKeepsInv(s: State, k: nat)
    requires Inv(s) && s.At(k, Inserting) && k in s.ids
    ensures Inv(Move(s, k, Cloning).(tracker := AfterInsert(s.tracker, s.ids[k], k)))
  {
    InsertKeepsTable(s.tracker, s.calls, s.ids, k);
    MoveKeepsIds(s, k, Cloning);
    MoveKeepsSent(s.sent, s.received, s.calls, s.ids, k, Cloning);
    MoveKeepsDeliveries(s, k, Cloning);
    OverwritingDeliversNothing(s, k);
  }

  lemma OverwritingDeliversNothing(s: State, k: nat)
    requires DeliveriesSound(s.answers, s.tracker.fates, s.calls[k := Cloning], s.ids)
    requires TableSound(s.tracker, s.calls, s.ids) && k in s.ids
    ensures DeliveriesSound(s.answers, AfterInsert(s.tracker, s.ids[k], k).fates, s.calls[k := Cloning], s.ids)
  {
  }

  /** The state after the request of call `k` is enqueued on the connection it cloned. */
  function AfterEnqueue(s: State, k: nat): State
    requires k in s.calls && s.calls[k].Enqueuing? && k in s.ids
  {
    var c := s.calls[k].conn;
    Move(s, k, Waiting(c)).(sent := s.sent + {Request(c, s.ids[k], k)})
  }

  lemma EnqueueKeepsInv(s: State, k: nat)
    requires Inv(s) && k in s.calls && s.calls[k].Enqueuing? && k in s.ids
    ensures Inv(AfterEnqueue(s, k))
  {
    var pc := Waiting(s.calls[k].conn);
    MoveKeepsIds(s, k, pc);
    MoveKeepsTable(s.tracker, s.calls, s.ids, k, pc);
    EnqueueKeepsSent(s.sent, s.received, s.calls, s.ids, k);
    MoveKeepsDeliveries(s, k, pc);
  }

  lemma EnqueueKeepsSent(
      sent: set<Request>, received: set<Request>, calls: map<nat, CallPc>, ids: map<nat, nat>, k: nat)
    requires SentSound(sent, received, calls, ids) && k in calls && calls[k].Enqueuing? && k in ids
    ensures
      var c := calls[k].conn;
      SentSound(sent + {Request(c, ids[k], k)}, received, calls[k := Waiting(c)], ids)
  {
  }

  /** The clean-up of a leaving call takes its own entry, if it is still there. */
  lemma LeaveTakesOwnEntry(s: State, k: nat)
    requires Inv(s) && k in s.calls && s.calls[k].Leaving? && k in s.ids
    ensures
      var u := AfterRemove(s.tracker, s.ids[k]);
      k !in u.pending.Values && TableSound(u, s.calls, s.ids)
  {
    RemoveConserves(s.tracker, s.ids[k]);
  }

  lemma LeaveKeepsInv(s: State, k: nat)
    requires Inv(s) && k in s.calls && s.calls[k].Leaving? && k in s.ids
    ensures Inv(Move(s, k, Done(Err(s.calls[k].error))).(tracker := AfterRemove(s.tracker, s.ids[k])))
  {
    var pc := Done(Err(s.calls[k].error));
    LeaveTakesOwnEntry(s, k);
    RemoveConserves(s.tracker, s.ids[k]);
    MoveKeepsIds(s, k, pc);
    MoveKeepsTable(AfterRemove(s.tracker, s.ids[k]), s.calls, s.ids, k, pc);
    MoveKeepsSent(s.sent, s.received, s.calls, s.ids, k, pc);
    MoveKeepsDeliveries(s, k, pc);
  }

  lemma WireKeepsInv(s: State, a: Action, t: State)
    requires Inv(s) && Step(s, a) == Some(t)
    requires a.Receive? || a.Respond? || a.ReplaceConnection?
    ensures Inv(t)
  {
  }

  lemma RouteKeepsInv(s: State, m: Answer)
    requires Inv(s) && m in s.answers && m.id > 0
    ensures Inv(s.(tracker := AfterResolve(s.tracker, m.id % U32, m)))
  {
    ResolveConserves(s.tracker, m.id % U32, m);
  }

  lemma ClearKeepsInv(s: State)
    requires Inv(s)
    ensures Inv(s.(tracker := AfterClear(s.tracker)))
  {
    ClearConserves(s.tracker);
  }

  lemma CloneKeepsInv(s: State, k: nat, t: State)
    requires Inv(s) && Step(s, CloneSender(k)) == Some(t)
    ensures Inv(t)
  {
    MoveKeepsInv(s, k, Enqueuing(s.slot));
  }

  lemma DeliverKeepsInv(s: State, k: nat, t: State)
    requires Inv(s) && Step(s, Deliver(k)) == Some(t)
    ensures Inv(t)
  {
    FatedIsGone(s.tracker, k);
    MoveKeepsInv(s, k, Done(Ok(s.tracker.fates[k].payload)));
  }

  lemma GiveUpKeepsInv(s: State, k: nat, e: Error)
    requires Inv(s) && s.Awaiting(k)
    ensures Inv(Move(s, k, Leaving(e)))
  {
    MoveKeepsInv(s, k, Leaving(e));
  }

  /** Where a call's own step takes it, when that is all it does. */
  lemma WaitKeepsInv(s: State, a: Action, t: State)
    requires Inv(s) && Step(s, a) == Some(t)
    requires a.CloneSender? || a.Deliver? || a.NoticeDrop? || a.TimeOut?
    ensures Inv(t)
  {
    match a
    case CloneSender(k) => CloneKeepsInv(s, k, t);
    case Deliver(k) => DeliverKeepsInv(s, k, t);
    case NoticeDrop(k) => GiveUpKeepsInv(s, k, Disconnected);
    case TimeOut(k) => GiveUpKeepsInv(s, k, Timeout);
  }

  lemma RegisterKeepsInv(s: State, a: Action, t: State)
    requires Inv(s) && Step(s, a) == Some(t)
    requires a.Start? || a.Allocate? || a.Insert?
    ensures Inv(t)
  {
    match a
    case Start(k) => StartKeepsInv(s, k);
    case Insert(k) => InsertKeepsInv(s, k);
    case Allocate(k) =>
      if s.calls[k].Allocating? && IdAt(s.tracker.allocations) == 0 {
        ZeroKeepsInv(s, k);
      } else {
        NewIdKeepsInv(s, k);
      }
  }

  lemma SendKeepsInv(s: State, k: nat, ok: bool, t: State)
    requires Inv(s) && Step(s, Enqueue(k, ok)) == Some(t)
    ensures Inv(t)
  {
    if ok {
      EnqueueKeepsInv(s, k);
    } else {
      MoveKeepsInv(s, k, Done(Err(SendFailed)));
    }
  }

  lemma RoutingKeepsInv(s: State, m: Answer, t: State)
    requires Inv(s) && Step(s, Route(m)) == Some(t)
    ensures Inv(t)
  {
    if m.id > 0 {
      RouteKeepsInv(s, m);
    }
  }

  lemma StepKeepsInv(s: State, a: Action, t: State)
    requires Inv(s) && Step(s, a) == Some(t)
    ensures Inv(t)
  {
    if a.Start? || a.Allocate? || a.Insert? {
      RegisterKeepsInv(s, a, t);
    } else if a.CloneSender? || a.Deliver? || a.NoticeDrop? || a.TimeOut? {
      WaitKeepsInv(s, a, t);
    } else if a.Receive? || a.Respond? || a.ReplaceConnection? {
      WireKeepsInv(s, a, t);
    } else if a.Enqueue? {
      SendKeepsInv(s, a.call, a.ok, t);
    } else if a.Leave? {
      LeaveKeepsInv(s, a.call);
    } else if a.Route? {
      RoutingKeepsInv(s, a.answer, t);
    } else {
      ClearKeepsInv(s);
    }
  }

  lemma {:induction false} RunKeepsInv(s: State, acts: seq<Action>, t: State)
    requires Inv(s) && Run(s, acts) == Some(t)
    ensures Inv(t)
    decreases |acts|
  {
    if acts != [] {
      var u := Splits(Step, s, acts);
      StepKeepsInv(s, acts[0], u);
      RunKeepsInv(u, acts[1..], t);
    }
  }

  lemma ReachedIsSound(s: State)
    requires Reached(s)
    ensures Inv(s)
  {
    var acts :| ReachedBy(s, acts);
    RunKeepsInv(INIT, acts, s);
  }

  // ── The theorems ─────────────────────────────────────────────

  /** Fewer than 2^32 apart, two `fetch_add`s never give the same id. */
  lemma IdsCollideOnlyAfterWrap(i: nat, j: nat)
    requires i < j && IdAt(i) == IdAt(j)
    ensures j - i >= U32
  {
  }

  lemma DistinctCallsDistinctIds(s: State, j: nat, k: nat)
    requires Reached(s) && s.tracker.allocations <= U32 && j in s.ids && k in s.ids && s.ids[j] == s.ids[k]
    ensures j == k
  {
    ReachedIsSound(s);
    if s.indices[j] < s.indices[k] {
      IdsCollideOnlyAfterWrap(s.indices[j], s.indices[k]);
    } else if s.indices[k] < s.indices[j] {
      IdsCollideOnlyAfterWrap(s.indices[k], s.indices[j]);
    }
  }

  lemma IdsFit(s: State, k: nat)
    requires IdsSound(s.tracker.allocations, s.calls, s.ids, s.indices, s.firsts) && k in s.ids
    ensures s.ids[k] < U32
  {
  }

  /** What a call returned carries that call's id. */
  lemma OkCarriesOwnId(s: State, k: nat)
    requires Reached(s) && k in s.calls && s.calls[k].Done? && s.calls[k].result.Ok?
    ensures
      var m := s.calls[k].result.value;
      m in s.answers && m.id > 0 && k in s.ids && m.id % U32 == s.ids[k]
  {
    ReachedIsSound(s);
  }

  /** A non-zero answer repeats the id of the call whose request it answers. */
  lemma AnswerRepeatsId(s: State, m: Answer)
    requires Reached(s) && m in s.answers && m.id > 0
    ensures Request(m.conn, m.id, m.to) in s.received
    ensures m.to in s.ids && m.id == s.ids[m.to] < U32
    ensures forall r :: r in s.sent && r.call == m.to ==> r.conn == m.conn
  {
    ReachedIsSound(s);
    IdsFit(s, m.to);
    assert Request(m.conn, m.id, m.to) in s.sent;
  }

  /** No cross-wiring: with at most 2^32 id allocations, what a call returns is a response the device
      made to that very call, on the one connection that carried it, after receiving the request there. */
  lemma NoCrossWiring(s: State, k: nat)
    requires Reached(s) && s.tracker.allocations <= U32
    requires k in s.calls && s.calls[k].Done? && s.calls[k].result.Ok?
    ensures
      var m := s.calls[k].result.value;
      && m in s.answers && m.to == k && k in s.ids && m.id == s.ids[k]
      && Request(m.conn, m.id, k) in s.received
      && (forall r :: r in s.sent && r.call == k ==> r.conn == m.conn)
  {
    var m := s.calls[k].result.value;
    OkCarriesOwnId(s, k);
    AnswerRepeatsId(s, m);
    DistinctCallsDistinctIds(s, m.to, k);
  }

  /** `register` returns 0 only if at least 2^32 - 1 other allocations fell between its two. */
  lemma ZeroOnlyAfterWrap(s: State, k: nat)
    requires Reached(s) && k in s.ids && s.ids[k] == 0
    ensures k in s.firsts && k in s.indices && s.indices[k] - s.firsts[k] - 1 >= U32 - 1
  {
    ReachedIsSound(s);
    IdsCollideOnlyAfterWrap(s.firsts[k], s.indices[k]);
  }

  /** While every unfinished call sees at most 2^32 - 1 further allocations, an insert never replaces
      the entry of an unfinished call. */
  lemma InsertSparesLiveEntries(s: State, k: nat)
    requires Reached(s) && s.At(k, Inserting) && k in s.ids
    requires forall j :: j in s.indices && j in s.calls && !s.calls[j].Done? ==>
               s.tracker.allocations - 1 - s.indices[j] <= U32 - 1
    ensures
      var t := s.tracker;
      s.ids[k] in t.pending ==> t.pending[s.ids[k]] in s.calls && s.calls[t.pending[s.ids[k]]].Done?
  {
    ReachedIsSound(s);
    var id := s.ids[k];
    if id in s.tracker.pending {
      var j := s.tracker.pending[id];
      assert j in s.tracker.pending.Values;
      if !s.calls[j].Done? {
        assert j != k;
        if s.indices[j] < s.indices[k] {
          IdsCollideOnlyAfterWrap(s.indices[j], s.indices[k]);
        } else {
          IdsCollideOnlyAfterWrap(s.indices[k], s.indices[j]);
        }
      }
    }
  }

  /** Conservation: the registered calls are exactly the disjoint union of those waiting in the table,
      each under its own id, and those whose sender met its one fate. */
  lemma TableConserves(s: State)
    requires Reached(s)
    ensures
      var t := s.tracker;
      && (forall k :: k in s.calls && !Unregistered(s.calls[k]) <==> k in t.pending.Values || k in t.fates)
      && t.pending.Values !! t.fates.Keys
      && (forall i :: i in t.pending ==> t.pending[i] in s.ids && s.ids[t.pending[i]] == i)
  {
    ReachedIsSound(s);
    var t := s.tracker;
    assert forall k :: k in t.pending.Values || k in t.fates <==> k in Registered(t);
    forall k | k in t.fates
      ensures k !in t.pending.Values
    {
      FatedIsGone(t, k);
    }
  }

  /** One inbound message fires at most one sender, the one registered under its id if there is one, and alters no
      earlier fate. */
  lemma RouteFiresAtMostOne(s: State, m: Answer, after: State)
    requires Reached(s) && Step(s, Route(m)) == Some(after)
    ensures
      var t, u := s.tracker, after.tracker;
      && (forall k :: k in t.fates ==> k in u.fates && u.fates[k] == t.fates[k])
      && (forall j, k :: j in u.fates && k in u.fates && j !in t.fates && k !in t.fates ==> j == k)
      && (m.id > 0 && m.id % U32 in t.pending ==>
            var k := t.pending[m.id % U32]; k !in t.fates && k in u.fates && u.fates[k] == Delivered(m))
  {
    ReachedIsSound(s);
    ResolveConserves(s.tracker, m.id % U32, m);
  }

  /** The fate of `k` is in both states the same. */
  ghost predicate SameFate(s: State, t: State, k: nat) {
    k in s.tracker.fates && k in t.tracker.fates && t.tracker.fates[k] == s.tracker.fates[k]
  }

  lemma RouteKeepsFates(s: State, m: Answer, t: State, k: nat)
    requires Inv(s) && Step(s, Route(m)) == Some(t) && k in s.tracker.fates
    ensures SameFate(s, t, k)
  {
    ResolveConserves(s.tracker, m.id % U32, m);
  }

  lemma InsertKeepsFates(s: State, j: nat, t: State, k: nat)
    requires Inv(s) && Step(s, Insert(j)) == Some(t) && k in s.tracker.fates
    ensures SameFate(s, t, k)
  {
    InsertAdds(s.tracker, s.ids[j], j);
  }

  lemma LeaveKeepsFates(s: State, j: nat, t: State, k: nat)
    requires Inv(s) && Step(s, Leave(j)) == Some(t) && k in s.tracker.fates
    ensures SameFate(s, t, k)
  {
    RemoveConserves(s.tracker, s.ids[j]);
  }

  lemma OtherStepsKeepFates(s: State, a: Action, t: State, k: nat)
    requires Step(s, a) == Some(t) && k in s.tracker.fates
    requires !a.Insert? && !a.Route? && !a.Leave? && !a.ClearPending?
    ensures SameFate(s, t, k)
  {
  }

  lemma StepKeepsFates(s: State, a: Action, t: State, k: nat)
    requires Inv(s) && Step(s, a) == Some(t) && k in s.tracker.fates
    ensures SameFate(s, t, k)
  {
    if a.Insert? {
      InsertKeepsFates(s, a.call, t, k);
    } else if a.Route? {
      RouteKeepsFates(s, a.answer, t, k);
    } else if a.Leave? {
      LeaveKeepsFates(s, a.call, t, k);
    } else if a.ClearPending? {
      ClearConserves(s.tracker);
    } else {
      OtherStepsKeepFates(s, a, t, k);
    }
  }

  lemma {:induction false} FatesAreFinal(s: State, acts: seq<Action>, t: State, k: nat)
    requires Inv(s) && Run(s, acts) == Some(t) && k in s.tracker.fates
    ensures SameFate(s, t, k)
    decreases |acts|
  {
    if acts != [] {
      var u := Splits(Step, s, acts);
      StepKeepsFates(s, acts[0], u, k);
      StepKeepsInv(s, acts[0], u);
      FatesAreFinal(u, acts[1..], t, k);
    }
  }

  /** What became of a sender never changes: it is delivered, cleared, removed or overwritten once. */
  lemma FateIsFinal(s: State, acts: seq<Action>, t: State, k: nat)
    requires Reached(s) && Run(s, acts) == Some(t) && k in s.tracker.fates
    ensures k in t.tracker.fates && t.tracker.fates[k] == s.tracker.fates[k]
  {
    ReachedIsSound(s);
    FatesAreFinal(s, acts, t, k);
  }

  /** An entry belongs to a registered call, unfinished unless it failed to send. */
  lemma EntryIsAwaited(s: State, i: nat)
    requires Reached(s) && i in s.tracker.pending
    ensures
      var k := s.tracker.pending[i];
      k in s.calls && !Unregistered(s.calls[k]) && (s.calls[k].Done? ==> s.calls[k] == Done(Err(SendFailed)))
  {
    ReachedIsSound(s);
    assert s.tracker.pending[i] in Registered(s.tracker);
  }

  /** No leak: when every call that registered is finished and none of them failed to send, the table
      is empty. */
  lemma NoCallNoEntry(s: State)
    requires Reached(s)
    requires forall k :: k in s.calls && !Unregistered(s.calls[k]) ==>
               s.calls[k].Done? && s.calls[k] != Done(Err(SendFailed))
    ensures s.tracker.pending == map[]
  {
    forall i: nat
      ensures i !in s.tracker.pending
    {
      if i in s.tracker.pending {
        EntryIsAwaited(s, i);
      }
    }
  }
}
