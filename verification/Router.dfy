/**
 The router: what one inbound message does, step by step, and what any sequence of messages adds up to
 for any event capacity, with the consumer taking events between any two steps.
 */
module Router {
  import opened Wrappers
  import opened Json
  import opened Types
  import opened Parsing

  const NS_CONNECTION := "urn:x-cast:com.google.cast.tp.connection"
  const NS_HEARTBEAT := "urn:x-cast:com.google.cast.tp.heartbeat"
  const NS_RECEIVER := "urn:x-cast:com.google.cast.receiver"
  const NS_MEDIA := "urn:x-cast:com.google.cast.media"

  lemma NamespacesDiffer()
    ensures NS_CONNECTION != NS_HEARTBEAT && NS_CONNECTION != NS_RECEIVER && NS_CONNECTION != NS_MEDIA
    ensures NS_HEARTBEAT != NS_RECEIVER && NS_HEARTBEAT != NS_MEDIA && NS_RECEIVER != NS_MEDIA
  {
    assert |NS_CONNECTION| == 40 && |NS_HEARTBEAT| == 39 && |NS_RECEIVER| == 35 && |NS_MEDIA| == 32;
  }

  datatype Message = Message(namespace: string, sourceId: string, destinationId: string, payloadUtf8: Option<string>)
  {
    function Payload(): string { OrElse(payloadUtf8, "") }
  }

  datatype Event =
    | ReceiverStatusChanged(receiver: ReceiverStatus)
    | MediaStatusChanged(media: MediaStatus)
    | MediaSessionEnded(mediaSessionId: i32, idleReason: IdleReason)
    | RawMessage(namespace: string, source: string, destination: string, payload: string)

  /** `serde_json::from_str` is a parameter throughout. */
  type JsonParser = string -> Option<Value>

  predicate Contains(s: string, t: string) {
    exists i :: 0 <= i <= |s| - |t| && s[i..][..|t|] == t
  }

  predicate IsPing(m: Message) {
    m.namespace == NS_HEARTBEAT && m.payloadUtf8.Some? && Contains(m.payloadUtf8.value, "\"PING\"")
  }

  datatype MediaMessageType = Status | LoadFailed | LoadCancelled | InvalidRequest | Unknown

  function ClassifyMediaMessage(kind: string): MediaMessageType {
    if kind == "MEDIA_STATUS" then Status
    else if kind == "LOAD_FAILED" then LoadFailed
    else if kind == "LOAD_CANCELLED" then LoadCancelled
    else if kind == "INVALID_REQUEST" then InvalidRequest
    else Unknown
  }

  function TypeOf(json: Value): string { OrElse(json.StrAt("type"), "") }

  // ── What a message asks for ──────────────────────────────────

  /** A positive `requestId`, truncated to u32. */
  function CorrelationId(json: Value): Option<u32> {
    match json.U64At("requestId")
    case Some(n) => if n > 0 then Some(AsU32(n)) else None
    case None => None
  }

  /** What a JSON payload on the media namespace resolves: only the four known types do. */
  function MediaResolution(json: Value): Option<u32> {
    if ClassifyMediaMessage(TypeOf(json)).Unknown? then None else CorrelationId(json)
  }

  function MediaUpdate(json: Value): Option<MediaStatus> {
    if TypeOf(json) == "MEDIA_STATUS" then ParseMediaStatus(json) else None
  }

  function ReceiverUpdate(json: Value): Option<ReceiverStatus> {
    if TypeOf(json) == "RECEIVER_STATUS" then ParseReceiverStatus(json) else None
  }

  /** The events of a media status: the end of a real session is announced before the status. */
  function MediaEvents(status: Option<MediaStatus>): seq<Event> {
    match status
    case None => []
    case Some(s) =>
      if s.playerState.Idle? && s.mediaSessionId > 0 && s.idleReason.Some?
      then [MediaSessionEnded(s.mediaSessionId, s.idleReason.value), MediaStatusChanged(s)]
      else [MediaStatusChanged(s)]
  }

  function ReceiverEvents(status: Option<ReceiverStatus>): seq<Event> {
    match status case Some(r) => [ReceiverStatusChanged(r)] case None => []
  }

  function RawOf(m: Message): Event { RawMessage(m.namespace, m.sourceId, m.destinationId, m.Payload()) }

  /** Everything one message asks for; `events` is what the consumer gets if it can take them all. */
  datatype Effects = Effects(
    media: Option<MediaStatus>, receiver: Option<ReceiverStatus>, resolution: Option<(u32, Value)>, pong: bool,
    events: seq<Event>)

  function Paired(id: Option<u32>, json: Value): Option<(u32, Value)> {
    match id case Some(n) => Some((n, json)) case None => None
  }

  function EffectsOf(parse: JsonParser, m: Message): Effects {
    var json := parse(m.Payload());
    if m.namespace == NS_HEARTBEAT then Effects(None, None, None, IsPing(m), [])
    else if m.namespace == NS_CONNECTION then
      var closes := json.Some? && json.value.StrAt("type") == Some("CLOSE");
      Effects(None, None, None, false, if closes then [RawOf(m)] else [])
    else if m.namespace == NS_RECEIVER then
      if json.None? then Effects(None, None, None, false, [])
      else Effects(None, ReceiverUpdate(json.value), Paired(CorrelationId(json.value), json.value), false,
                   ReceiverEvents(ReceiverUpdate(json.value)))
    else if m.namespace == NS_MEDIA then
      if json.None? then Effects(None, None, None, false, [])
      else Effects(MediaUpdate(json.value), None, Paired(MediaResolution(json.value), json.value), false,
                   MediaEvents(MediaUpdate(json.value)))
    else if json.Some? && CorrelationId(json.value).Some? then
      Effects(None, None, Paired(CorrelationId(json.value), json.value), false, [])
    else Effects(None, None, None, false, [RawOf(m)])
  }

  // ── State and steps ──────────────────────────────────────────

  /** History: every emitted event with the backlog it met, and whether it was kept. */
  datatype Emission = Emission(event: Event, backlog: nat, kept: bool)

  /** What the watches hold, and what has been answered. */
  datatype Watches = Watches(
    media: Option<MediaStatus>, receiver: Option<ReceiverStatus>, mediaSessionId: i32,
    resolved: seq<(u32, Value)>, pongs: nat)

  datatype Queue = Queue(events: seq<Event>, capacity: nat, log: seq<Emission>, consumed: seq<Event>)

  datatype State = State(watches: Watches, queue: Queue)

  /** One step of the router, or of the consumer, who runs in another task. */
  datatype Step =
    | Pong
    | Resolve(id: u32, json: Value)
    | Track(mediaSessionId: i32)
    | SendMedia(media: MediaStatus)
    | SendReceiver(receiver: ReceiverStatus)
    | TrySend(event: Event)
    | Take

  function Watch(w: Watches, step: Step): Watches {
    match step
    case Pong => w.(pongs := w.pongs + 1)
    case Resolve(id, json) => w.(resolved := w.resolved + [(id, json)])
    case Track(id) => w.(mediaSessionId := id)
    case SendMedia(status) => w.(media := Some(status))
    case SendReceiver(status) => w.(receiver := Some(status))
    case TrySend(_) => w
    case Take => w
  }

  /** `try_send`: dropped when the buffer is full. */
  function Emit(q: Queue, e: Event): Queue {
    var room := |q.events| < q.capacity;
    q.(events := if room then q.events + [e] else q.events, log := q.log + [Emission(e, |q.events|, room)])
  }

  function Consume(q: Queue): Queue {
    if q.events == [] then q else q.(events := q.events[1..], consumed := q.consumed + [q.events[0]])
  }

  function Enqueue(q: Queue, step: Step): Queue {
    match step
    case TrySend(e) => Emit(q, e)
    case Take => Consume(q)
    case _ => q
  }

  function Do(s: State, step: Step): State { State(Watch(s.watches, step), Enqueue(s.queue, step)) }

  function DoAll(s: State, steps: seq<Step>): State
    decreases |steps|
  {
    if steps == [] then s else DoAll(Do(s, steps[0]), steps[1..])
  }

  // ── The steps of one message, in source order ────────────────

  function Resolving(id: Option<u32>, json: Value): seq<Step> {
    match id case Some(n) => [Resolve(n, json)] case None => []
  }

  /** A positive session id is tracked and the end of a real session announced before the watch is set. */
  function MediaWork(update: Option<MediaStatus>): seq<Step> {
    match update
    case None => []
    case Some(s) =>
      (if s.mediaSessionId > 0 then [Track(s.mediaSessionId)] else [])
      + (if s.playerState.Idle? && s.mediaSessionId > 0 && s.idleReason.Some?
         then [TrySend(MediaSessionEnded(s.mediaSessionId, s.idleReason.value))] else [])
      + [SendMedia(s), TrySend(MediaStatusChanged(s))]
  }

  function ReceiverWork(update: Option<ReceiverStatus>): seq<Step> {
    match update case Some(r) => [SendReceiver(r), TrySend(ReceiverStatusChanged(r))] case None => []
  }

  function Work(parse: JsonParser, m: Message): seq<Step> {
    var json := parse(m.Payload());
    if m.namespace == NS_HEARTBEAT then if IsPing(m) then [Pong] else []
    else if m.namespace == NS_CONNECTION then
      if json.Some? && json.value.StrAt("type") == Some("CLOSE") then [TrySend(RawOf(m))] else []
    else if m.namespace == NS_RECEIVER then
      if json.None? then []
      else Resolving(CorrelationId(json.value), json.value) + ReceiverWork(ReceiverUpdate(json.value))
    else if m.namespace == NS_MEDIA then
      if json.None? then []
      else Resolving(MediaResolution(json.value), json.value) + MediaWork(MediaUpdate(json.value))
    else if json.Some? && CorrelationId(json.value).Some? then Resolving(CorrelationId(json.value), json.value)
    else [TrySend(RawOf(m))]
  }

  // ── The imperative router ────────────────────────────────────

  lemma {:induction false} DoingConcatenates(s: State, a: seq<Step>, b: seq<Step>)
    ensures DoAll(s, a + b) == DoAll(DoAll(s, a), b)
    decreases |a|
  {
    if a == [] {
      assert a + b == b;
    } else {
      assert (a + b)[1..] == a[1..] + b;
      DoingConcatenates(Do(s, a[0]), a[1..], b);
    }
  }

  lemma DoingFew(s: State, a: Step, b: Step)
    ensures DoAll(s, [a]) == Do(s, a)
    ensures DoAll(s, [a, b]) == Do(Do(s, a), b)
  {
    assert [a][1..] == [] && [a, b][1..] == [b] && [b][1..] == [];
    assert DoAll(Do(s, a), [b]) == DoAll(Do(Do(s, a), b), []);
  }

  /** What the consumer finds: an event, the end of the stream, or nothing yet. */
  datatype Poll = Ready(event: Option<Event>) | Pending

  class Holder {
    var media: Option<MediaStatus>
    var receiver: Option<ReceiverStatus>
    var mediaSessionId: i32
    var events: seq<Event>
    const capacity: nat
    var resolved: seq<(u32, Value)>
    var pongs: nat
    ghost var log: seq<Emission>
    ghost var consumed: seq<Event>

    ghost function Abs(): State
      reads this
    {
      State(Watches(media, receiver, mediaSessionId, resolved, pongs), Queue(events, capacity, log, consumed))
    }

    constructor (capacity: nat)
      ensures Abs() == State(Watches(None, None, 0, [], 0), Queue([], capacity, [], []))
    {
      this.capacity := capacity;
      media, receiver, mediaSessionId, events, resolved, pongs, log, consumed := None, None, 0, [], [], 0, [], [];
    }

    method TrySend(e: Event)
      modifies this`events, this`log
      ensures Abs() == Do(old(Abs()), Step.TrySend(e))
    {
      log := log + [Emission(e, |events|, |events| < capacity)];
      if |events| < capacity {
        events := events + [e];
      }
    }

    method ResolveIfCorrelated(json: Value) returns (found: bool)
      modifies this`resolved
      ensures found == CorrelationId(json).Some?
      ensures Abs() == DoAll(old(Abs()), Resolving(CorrelationId(json), json))
    {
      found := CorrelationId(json).Some?;
      if found {
        resolved := resolved + [(CorrelationId(json).value, json)];
        DoingFew(old(Abs()), Resolve(CorrelationId(json).value, json), Pong);
      }
    }

    method Route(parse: JsonParser, m: Message)
      modifies this
      ensures Abs() == DoAll(old(Abs()), Work(parse, m))
    {
      NamespacesDiffer();
      DoingFew(Abs(), Step.TrySend(RawOf(m)), Pong);
      DoingFew(Abs(), Pong, Pong);
      var json := parse(m.Payload());
      if m.namespace == NS_HEARTBEAT {
        if IsPing(m) {
          pongs := pongs + 1;
        }
      } else if m.namespace == NS_CONNECTION {
        if json.Some? && json.value.StrAt("type") == Some("CLOSE") {
          TrySend(RawMessage(NS_CONNECTION, m.sourceId, m.destinationId, m.Payload()));
        }
      } else if m.namespace == NS_RECEIVER {
        if json.Some? {
          RouteReceiver(json.value);
        }
      } else if m.namespace == NS_MEDIA {
        if json.Some? {
          RouteMedia(json.value);
        }
      } else {
        var found := false;
        if json.Some? {
          found := ResolveIfCorrelated(json.value);
        }
        if !found {
          TrySend(RawMessage(m.namespace, m.sourceId, m.destinationId, m.Payload()));
        }
      }
    }

    method RouteReceiver(json: Value)
      modifies this
      ensures
        Abs() == DoAll(old(Abs()), Resolving(CorrelationId(json), json) + ReceiverWork(ReceiverUpdate(json)))
    {
      var _ := ResolveIfCorrelated(json);
      ghost var resolving := Resolving(CorrelationId(json), json);
      DoingConcatenates(old(Abs()), resolving, ReceiverWork(ReceiverUpdate(json)));
      if TypeOf(json) == "RECEIVER_STATUS" {
        var status := ParseReceiverStatus(json);
        if status.Some? {
          DoingFew(Abs(), SendReceiver(status.value), Step.TrySend(ReceiverStatusChanged(status.value)));
          receiver := status;
          TrySend(ReceiverStatusChanged(status.value));
        }
      }
    }

    method RouteMedia(json: Value)
      modifies this
      ensures Abs() == DoAll(old(Abs()), Resolving(MediaResolution(json), json) + MediaWork(MediaUpdate(json)))
    {
      DoingConcatenates(Abs(), Resolving(MediaResolution(json), json), MediaWork(MediaUpdate(json)));
      var classified := ClassifyMediaMessage(TypeOf(json));
      if classified != Unknown {
        var _ := ResolveIfCorrelated(json);
      }
      if classified == Status {
        var parsed := ParseMediaStatus(json);
        if parsed.Some? {
          RouteMediaStatus(parsed.value);
        }
      }
    }

    method RouteMediaStatus(status: MediaStatus)
      modifies this
      ensures Abs() == DoAll(old(Abs()), MediaWork(Some(status)))
    {
      ghost var start := Abs();
      ghost var tracking: seq<Step> := if status.mediaSessionId > 0 then [Track(status.mediaSessionId)] else [];
      if status.mediaSessionId > 0 {
        mediaSessionId := status.mediaSessionId;
        DoingFew(start, Track(status.mediaSessionId), Pong);
      }
      ghost var tracked := Abs();
      ghost var ending: seq<Step> := [];
      if status.playerState == Idle && status.mediaSessionId > 0 && status.idleReason.Some? {
        var ended := MediaSessionEnded(status.mediaSessionId, status.idleReason.value);
        TrySend(ended);
        ending := [Step.TrySend(ended)];
        DoingFew(tracked, Step.TrySend(ended), Pong);
      }
      DoingConcatenates(start, tracking, ending);
      DoingFew(Abs(), SendMedia(status), Step.TrySend(MediaStatusChanged(status)));
      DoingConcatenates(start, tracking + ending, [SendMedia(status), Step.TrySend(MediaStatusChanged(status))]);
      media := Some(status);
      TrySend(MediaStatusChanged(status));
    }

    /** One poll of `next_event`; `senders` says whether some event sender still exists. */
    method NextEvent(senders: bool) returns (p: Poll)
      modifies this`events, this`consumed
      ensures p == if old(events) != [] then Ready(Some(old(events)[0])) else if senders then Pending else Ready(None)
      ensures Abs() == Do(old(Abs()), Take)
    {
      if events == [] {
        return if senders then Pending else Ready(None);
      }
      p := Ready(Some(events[0]));
      consumed := consumed + [events[0]];
      events := events[1..];
    }
  }

  // ── Any schedule of router and consumer steps ────────────────

  function WorkAll(parse: JsonParser, ms: seq<Message>): seq<Step>
    decreases |ms|
  {
    if ms == [] then [] else Work(parse, ms[0]) + WorkAll(parse, ms[1..])
  }

  /** The router's own steps. */
  function Routed(steps: seq<Step>): seq<Step>
    decreases |steps|
  {
    if steps == [] then [] else (if steps[0].Take? then [] else [steps[0]]) + Routed(steps[1..])
  }

  lemma RoutedStep(steps: seq<Step>)
    requires steps != []
    ensures steps[0].Take? ==> Routed(steps) == Routed(steps[1..])
    ensures !steps[0].Take? ==>
              Routed(steps) != [] && Routed(steps)[0] == steps[0] && Routed(steps)[1..] == Routed(steps[1..])
  {
  }

  /** The router works off the messages in order; the consumer takes events between any two of its steps. */
  predicate Schedule(parse: JsonParser, ms: seq<Message>, steps: seq<Step>) {
    Routed(steps) == WorkAll(parse, ms)
  }

  function WatchAll(w: Watches, steps: seq<Step>): Watches
    decreases |steps|
  {
    if steps == [] then w else WatchAll(Watch(w, steps[0]), steps[1..])
  }

  /** The consumer touches no watch, and the queue neither. */
  lemma {:induction false} OnlyRoutedStepsCount(s: State, steps: seq<Step>)
    ensures DoAll(s, steps).watches == WatchAll(s.watches, Routed(steps))
    decreases |steps|
  {
    if steps != [] {
      OnlyRoutedStepsCount(Do(s, steps[0]), steps[1..]);
      RoutedStep(steps);
    }
  }

  lemma {:induction false} WatchingConcatenates(w: Watches, a: seq<Step>, b: seq<Step>)
    ensures WatchAll(w, a + b) == WatchAll(WatchAll(w, a), b)
    decreases |a|
  {
    if a == [] {
      assert a + b == b;
    } else {
      assert (a + b)[1..] == a[1..] + b;
      WatchingConcatenates(Watch(w, a[0]), a[1..], b);
    }
  }

  /** What one message does to the watches, whatever steps it takes. */
  function Updated(w: Watches, f: Effects): Watches {
    Watches(
      if f.media.Some? then f.media else w.media,
      if f.receiver.Some? then f.receiver else w.receiver,
      if f.media.Some? && f.media.value.mediaSessionId > 0 then f.media.value.mediaSessionId else w.mediaSessionId,
      if f.resolution.Some? then w.resolved + [f.resolution.value] else w.resolved,
      if f.pong then w.pongs + 1 else w.pongs)
  }

  lemma WatchingFew(w: Watches, a: Step, b: Step)
    ensures WatchAll(w, [a]) == Watch(w, a)
    ensures WatchAll(w, [a, b]) == Watch(Watch(w, a), b)
  {
    assert [a][1..] == [] && [a, b][1..] == [b] && [b][1..] == [];
    assert WatchAll(Watch(w, a), [b]) == WatchAll(Watch(Watch(w, a), b), []);
  }

  lemma MediaWorkUpdates(w: Watches, s: MediaStatus)
    ensures
      WatchAll(w, MediaWork(Some(s)))
      == w.(media := Some(s), mediaSessionId := if s.mediaSessionId > 0 then s.mediaSessionId else w.mediaSessionId)
  {
    var tracking: seq<Step> := if s.mediaSessionId > 0 then [Track(s.mediaSessionId)] else [];
    var ending: seq<Step> :=
      if s.playerState.Idle? && s.mediaSessionId > 0 && s.idleReason.Some?
      then [TrySend(MediaSessionEnded(s.mediaSessionId, s.idleReason.value))] else [];
    var rest := [SendMedia(s), TrySend(MediaStatusChanged(s))];
    WatchingConcatenates(w, tracking + ending, rest);
    WatchingConcatenates(w, tracking, ending);
    var tracked := WatchAll(w, tracking);
    WatchingFew(w, Track(s.mediaSessionId), Pong);
    if ending != [] {
      WatchingFew(tracked, ending[0], Pong);
    }
    WatchingFew(tracked, SendMedia(s), TrySend(MediaStatusChanged(s)));
  }

  lemma ResolvingUpdates(w: Watches, id: Option<u32>, json: Value)
    ensures
      WatchAll(w, Resolving(id, json))
      == match id case Some(n) => w.(resolved := w.resolved + [(n, json)]) case None => w
  {
    if id.Some? {
      WatchingFew(w, Resolve(id.value, json), Pong);
    }
  }

  lemma ReceiverWorkUpdates(w: Watches, r: ReceiverStatus)
    ensures WatchAll(w, ReceiverWork(Some(r))) == w.(receiver := Some(r))
  {
    WatchingFew(w, SendReceiver(r), TrySend(ReceiverStatusChanged(r)));
  }

  lemma ReceiverMessageUpdates(w: Watches, json: Value)
    ensures
      WatchAll(w, Resolving(CorrelationId(json), json) + ReceiverWork(ReceiverUpdate(json)))
      == Updated(w, Effects(None, ReceiverUpdate(json), Paired(CorrelationId(json), json), false, []))
  {
    WatchingConcatenates(w, Resolving(CorrelationId(json), json), ReceiverWork(ReceiverUpdate(json)));
    ResolvingUpdates(w, CorrelationId(json), json);
    if ReceiverUpdate(json).Some? {
      ReceiverWorkUpdates(WatchAll(w, Resolving(CorrelationId(json), json)), ReceiverUpdate(json).value);
    }
  }

  lemma MediaMessageUpdates(w: Watches, json: Value)
    ensures
      WatchAll(w, Resolving(MediaResolution(json), json) + MediaWork(MediaUpdate(json)))
      == Updated(w, Effects(MediaUpdate(json), None, Paired(MediaResolution(json), json), false, []))
  {
    WatchingConcatenates(w, Resolving(MediaResolution(json), json), MediaWork(MediaUpdate(json)));
    ResolvingUpdates(w, MediaResolution(json), json);
    if MediaUpdate(json).Some? {
      MediaWorkUpdates(WatchAll(w, Resolving(MediaResolution(json), json)), MediaUpdate(json).value);
    }
  }

  /** The steps of a message add up to its effects. */
  lemma WorkUpdates(parse: JsonParser, w: Watches, m: Message)
    ensures WatchAll(w, Work(parse, m)) == Updated(w, EffectsOf(parse, m))
  {
    var json := parse(m.Payload());
    if m.namespace == NS_HEARTBEAT {
      WatchingFew(w, Pong, Pong);
    } else if m.namespace == NS_RECEIVER && json.Some? {
      ReceiverMessageUpdates(w, json.value);
    } else if m.namespace == NS_MEDIA && json.Some? {
      MediaMessageUpdates(w, json.value);
    } else {
      WatchingFew(w, TrySend(RawOf(m)), Pong);
      if json.Some? {
        ResolvingUpdates(w, CorrelationId(json.value), json.value);
      }
    }
  }

  // ── Last status wins ─────────────────────────────────────────

  /** No message in `ms[from..]` carries a parseable media status. */
  predicate NoMediaFrom(parse: JsonParser, ms: seq<Message>, from: nat) {
    forall j :: from <= j < |ms| ==> EffectsOf(parse, ms[j]).media.None?
  }

  predicate NoReceiverFrom(parse: JsonParser, ms: seq<Message>, from: nat) {
    forall j :: from <= j < |ms| ==> EffectsOf(parse, ms[j]).receiver.None?
  }

  predicate NoSessionFrom(parse: JsonParser, ms: seq<Message>, from: nat) {
    forall j :: from <= j < |ms| ==>
      var f := EffectsOf(parse, ms[j]); f.media.Some? ==> f.media.value.mediaSessionId <= 0
  }

  lemma {:induction false} UntouchedWatches(parse: JsonParser, w: Watches, ms: seq<Message>)
    ensures NoMediaFrom(parse, ms, 0) ==> WatchAll(w, WorkAll(parse, ms)).media == w.media
    ensures NoReceiverFrom(parse, ms, 0) ==> WatchAll(w, WorkAll(parse, ms)).receiver == w.receiver
    ensures NoSessionFrom(parse, ms, 0) ==> WatchAll(w, WorkAll(parse, ms)).mediaSessionId == w.mediaSessionId
    decreases |ms|
  {
    if ms != [] {
      WatchingConcatenates(w, Work(parse, ms[0]), WorkAll(parse, ms[1..]));
      WorkUpdates(parse, w, ms[0]);
      UntouchedWatches(parse, Updated(w, EffectsOf(parse, ms[0])), ms[1..]);
      assert NoMediaFrom(parse, ms, 0) ==> NoMediaFrom(parse, ms[1..], 0);
      assert NoReceiverFrom(parse, ms, 0) ==> NoReceiverFrom(parse, ms[1..], 0);
      assert NoSessionFrom(parse, ms, 0) ==> NoSessionFrom(parse, ms[1..], 0);
    }
  }

  lemma {:induction false} LastUpdateWins(parse: JsonParser, w: Watches, ms: seq<Message>, i: nat)
    requires i < |ms|
    ensures
      var t, f := WatchAll(w, WorkAll(parse, ms)), EffectsOf(parse, ms[i]);
      && (f.media.Some? && NoMediaFrom(parse, ms, i + 1) ==> t.media == f.media)
      && (f.receiver.Some? && NoReceiverFrom(parse, ms, i + 1) ==> t.receiver == f.receiver)
      && (f.media.Some? && f.media.value.mediaSessionId > 0 && NoSessionFrom(parse, ms, i + 1) ==>
            t.mediaSessionId == f.media.value.mediaSessionId)
    decreases i
  {
    var next, rest := Updated(w, EffectsOf(parse, ms[0])), ms[1..];
    WatchingConcatenates(w, Work(parse, ms[0]), WorkAll(parse, rest));
    WorkUpdates(parse, w, ms[0]);
    assert forall k: nat :: k < |rest| ==> rest[k] == ms[k + 1];
    if i == 0 {
      UntouchedWatches(parse, next, rest);
      assert NoMediaFrom(parse, ms, 1) ==> NoMediaFrom(parse, rest, 0);
      assert NoReceiverFrom(parse, ms, 1) ==> NoReceiverFrom(parse, rest, 0);
      assert NoSessionFrom(parse, ms, 1) ==> NoSessionFrom(parse, rest, 0);
    } else {
      LastUpdateWins(parse, next, rest, i - 1);
      assert NoMediaFrom(parse, ms, i + 1) ==> NoMediaFrom(parse, rest, i);
      assert NoReceiverFrom(parse, ms, i + 1) ==> NoReceiverFrom(parse, rest, i);
      assert NoSessionFrom(parse, ms, i + 1) ==> NoSessionFrom(parse, rest, i);
    }
  }

  /** Last status wins, for any event capacity and any schedule: if message `i` is the last with a parseable
      status of a kind, that watch ends up holding it, and likewise the tracked session id. */
  lemma LastStatusWins(parse: JsonParser, s: State, ms: seq<Message>, steps: seq<Step>, i: nat)
    requires Schedule(parse, ms, steps) && i < |ms|
    ensures
      var t, f := DoAll(s, steps).watches, EffectsOf(parse, ms[i]);
      && (f.media.Some? && NoMediaFrom(parse, ms, i + 1) ==> t.media == f.media)
      && (f.receiver.Some? && NoReceiverFrom(parse, ms, i + 1) ==> t.receiver == f.receiver)
      && (f.media.Some? && f.media.value.mediaSessionId > 0 && NoSessionFrom(parse, ms, i + 1) ==>
            t.mediaSessionId == f.media.value.mediaSessionId)
  {
    OnlyRoutedStepsCount(s, steps);
    LastUpdateWins(parse, s.watches, ms, i);
  }

  // ── Resolutions ──────────────────────────────────────────────

  /** The messages that resolve a request: those whose payload is JSON with a positive `requestId`, outside the
      heartbeat and connection namespaces, and on the media namespace only a status or one of the three
      errors. */
  predicate Correlated(parse: JsonParser, m: Message) {
    var json := parse(m.Payload());
    && m.namespace != NS_HEARTBEAT && m.namespace != NS_CONNECTION
    && json.Some? && json.value.U64At("requestId").Some? && json.value.U64At("requestId").value > 0
    && (m.namespace == NS_MEDIA ==>
          TypeOf(json.value) in ["MEDIA_STATUS", "LOAD_FAILED", "LOAD_CANCELLED", "INVALID_REQUEST"])
  }

  lemma ResolvesExactly(parse: JsonParser, m: Message)
    ensures
      var f := EffectsOf(parse, m);
      && (f.resolution.Some? <==> Correlated(parse, m))
      && ResolutionOf(parse, m) == (if f.resolution.Some? then [f.resolution.value] else [])
  {
    NamespacesDiffer();
  }

  function ResolutionOf(parse: JsonParser, m: Message): seq<(u32, Value)> {
    if !Correlated(parse, m) then [] else
    var json := parse(m.Payload()).value;
    [(AsU32(json.U64At("requestId").value), json)]
  }

  /** The id and payload of every correlated message, in order. */
  function IdealResolutions(parse: JsonParser, ms: seq<Message>): seq<(u32, Value)>
    decreases |ms|
  {
    if ms == [] then [] else ResolutionOf(parse, ms[0]) + IdealResolutions(parse, ms[1..])
  }

  lemma {:induction false} MessagesResolve(parse: JsonParser, w: Watches, ms: seq<Message>)
    ensures WatchAll(w, WorkAll(parse, ms)).resolved == w.resolved + IdealResolutions(parse, ms)
    decreases |ms|
  {
    if ms == [] {
      assert w.resolved + [] == w.resolved;
    } else {
      var next := Updated(w, EffectsOf(parse, ms[0]));
      WatchingConcatenates(w, Work(parse, ms[0]), WorkAll(parse, ms[1..]));
      WorkUpdates(parse, w, ms[0]);
      ResolvesExactly(parse, ms[0]);
      MessagesResolve(parse, next, ms[1..]);
      assert w.resolved + [] == w.resolved;
      Regroup(w.resolved, ResolutionOf(parse, ms[0]), IdealResolutions(parse, ms[1..]));
    }
  }

  /** Under any schedule each correlated message, and no other, resolves one request, in order of arrival. */
  lemma ResolutionsInOrder(parse: JsonParser, s: State, ms: seq<Message>, steps: seq<Step>)
    requires Schedule(parse, ms, steps)
    ensures DoAll(s, steps).watches.resolved == s.watches.resolved + IdealResolutions(parse, ms)
  {
    OnlyRoutedStepsCount(s, steps);
    MessagesResolve(parse, s.watches, ms);
  }

  /** The PINGs among the messages. */
  function PingsIn(ms: seq<Message>): nat
    decreases |ms|
  {
    if ms == [] then 0 else (if IsPing(ms[0]) then 1 else 0) + PingsIn(ms[1..])
  }

  lemma {:induction false} MessagesPong(parse: JsonParser, w: Watches, ms: seq<Message>)
    ensures WatchAll(w, WorkAll(parse, ms)).pongs == w.pongs + PingsIn(ms)
    decreases |ms|
  {
    if ms != [] {
      WatchingConcatenates(w, Work(parse, ms[0]), WorkAll(parse, ms[1..]));
      WorkUpdates(parse, w, ms[0]);
      MessagesPong(parse, Updated(w, EffectsOf(parse, ms[0])), ms[1..]);
    }
  }

  /** Under any schedule each PING, and no other message, is answered with one PONG. */
  lemma OnePongAPing(parse: JsonParser, s: State, ms: seq<Message>, steps: seq<Step>)
    requires Schedule(parse, ms, steps)
    ensures DoAll(s, steps).watches.pongs == s.watches.pongs + PingsIn(ms)
  {
    OnlyRoutedStepsCount(s, steps);
    MessagesPong(parse, s.watches, ms);
  }

  // ── The lossy event queue ────────────────────────────────────

  function IdealEvents(parse: JsonParser, ms: seq<Message>): seq<Event>
    decreases |ms|
  {
    if ms == [] then [] else EffectsOf(parse, ms[0]).events + IdealEvents(parse, ms[1..])
  }

  /** The events that some steps try to send, in order. */
  function Sends(steps: seq<Step>): seq<Event>
    decreases |steps|
  {
    if steps == [] then [] else (if steps[0].TrySend? then [steps[0].event] else []) + Sends(steps[1..])
  }

  lemma {:induction false} SendsConcatenate(a: seq<Step>, b: seq<Step>)
    ensures Sends(a + b) == Sends(a) + Sends(b)
    decreases |a|
  {
    if a == [] {
      assert a + b == b;
    } else {
      assert (a + b)[0] == a[0] && (a + b)[1..] == a[1..] + b;
      SendsConcatenate(a[1..], b);
      Regroup(if a[0].TrySend? then [a[0].event] else [], Sends(a[1..]), Sends(b));
    }
  }

  lemma {:induction false} RoutedSendsAll(steps: seq<Step>)
    ensures Sends(Routed(steps)) == Sends(steps)
    decreases |steps|
  {
    if steps != [] {
      RoutedSendsAll(steps[1..]);
      RoutedStep(steps);
    }
  }

  lemma SendsOfFew(a: Step, b: Step)
    ensures Sends([a]) == if a.TrySend? then [a.event] else []
    ensures Sends([a, b]) == Sends([a]) + Sends([b])
  {
    assert [a][1..] == [] && [a, b][1..] == [b];
  }

  lemma MediaWorkSends(s: MediaStatus)
    ensures Sends(MediaWork(Some(s))) == MediaEvents(Some(s))
  {
    var tracking: seq<Step> := if s.mediaSessionId > 0 then [Track(s.mediaSessionId)] else [];
    var ending: seq<Step> :=
      if s.playerState.Idle? && s.mediaSessionId > 0 && s.idleReason.Some?
      then [TrySend(MediaSessionEnded(s.mediaSessionId, s.idleReason.value))] else [];
    SendsConcatenate(tracking + ending, [SendMedia(s), TrySend(MediaStatusChanged(s))]);
    SendsConcatenate(tracking, ending);
    SendsOfFew(SendMedia(s), TrySend(MediaStatusChanged(s)));
    SendsOfFew(TrySend(MediaStatusChanged(s)), Pong);
    SendsOfFew(Track(s.mediaSessionId), Pong);
    if ending != [] {
      SendsOfFew(ending[0], Pong);
    }
  }

  lemma ReceiverWorkSends(update: Option<ReceiverStatus>)
    ensures Sends(ReceiverWork(update)) == ReceiverEvents(update)
  {
    if update.Some? {
      var r := update.value;
      SendsOfFew(SendReceiver(r), TrySend(ReceiverStatusChanged(r)));
      SendsOfFew(TrySend(ReceiverStatusChanged(r)), Pong);
    }
  }

  lemma ReceiverMessageSends(json: Value)
    ensures
      Sends(Resolving(CorrelationId(json), json) + ReceiverWork(ReceiverUpdate(json)))
      == ReceiverEvents(ReceiverUpdate(json))
  {
    SendsConcatenate(Resolving(CorrelationId(json), json), ReceiverWork(ReceiverUpdate(json)));
    ResolvingSendsNothing(CorrelationId(json), json);
    ReceiverWorkSends(ReceiverUpdate(json));
  }

  lemma MediaMessageSends(json: Value)
    ensures
      Sends(Resolving(MediaResolution(json), json) + MediaWork(MediaUpdate(json))) == MediaEvents(MediaUpdate(json))
  {
    SendsConcatenate(Resolving(MediaResolution(json), json), MediaWork(MediaUpdate(json)));
    ResolvingSendsNothing(MediaResolution(json), json);
    if MediaUpdate(json).Some? {
      MediaWorkSends(MediaUpdate(json).value);
    }
  }

  /** The steps of a message try to send its events. */
  lemma WorkSends(parse: JsonParser, m: Message)
    ensures Sends(Work(parse, m)) == EffectsOf(parse, m).events
  {
    var json := parse(m.Payload());
    if m.namespace == NS_HEARTBEAT {
      SendsOfFew(Pong, Pong);
    } else if m.namespace == NS_RECEIVER && json.Some? {
      ReceiverMessageSends(json.value);
    } else if m.namespace == NS_MEDIA && json.Some? {
      MediaMessageSends(json.value);
    } else {
      SendsOfFew(TrySend(RawOf(m)), Pong);
      if json.Some? {
        ResolvingSendsNothing(CorrelationId(json.value), json.value);
      }
    }
  }

  lemma ResolvingSendsNothing(id: Option<u32>, json: Value)
    ensures Sends(Resolving(id, json)) == []
  {
    if id.Some? {
      SendsOfFew(Resolve(id.value, json), Pong);
    }
  }

  lemma {:induction false} MessagesSend(parse: JsonParser, ms: seq<Message>)
    ensures Sends(WorkAll(parse, ms)) == IdealEvents(parse, ms)
    decreases |ms|
  {
    if ms != [] {
      SendsConcatenate(Work(parse, ms[0]), WorkAll(parse, ms[1..]));
      WorkSends(parse, ms[0]);
      MessagesSend(parse, ms[1..]);
    }
  }

  function Emitted(log: seq<Emission>): (r: seq<Event>)
    ensures |r| == |log| && forall i :: 0 <= i < |r| ==> r[i] == log[i].event
  {
    seq(|log|, i requires 0 <= i < |log| => log[i].event)
  }

  function Kept(log: seq<Emission>): (r: seq<Event>)
    ensures |r| <= |log|
  {
    if log == [] then []
    else Kept(log[..|log| - 1]) + (if log[|log| - 1].kept then [log[|log| - 1].event] else [])
  }

  /** Entry `e`, logged after `before`, was kept exactly if the buffer had room. */
  predicate Accounted(before: seq<Emission>, e: Emission, capacity: nat) {
    (e.kept <==> e.backlog < capacity) && e.backlog <= |Kept(before)|
  }

  ghost predicate AllAccounted(log: seq<Emission>, capacity: nat) {
    forall i :: 0 <= i < |log| ==> Accounted(log[..i], log[i], capacity)
  }

  /** What the consumer has and will see is the kept part of the log, in order; an event is dropped only
      when it met a full buffer, and the backlog it met consists of events kept before it. */
  ghost predicate QueueSound(q: Queue) {
    && q.consumed + q.events == Kept(q.log)
    && |q.events| <= q.capacity
    && AllAccounted(q.log, q.capacity)
  }

  lemma LoggingKeepsAccounts(log: seq<Emission>, e: Emission, capacity: nat)
    requires AllAccounted(log, capacity) && Accounted(log, e, capacity)
    ensures AllAccounted(log + [e], capacity)
  {
    var more := log + [e];
    forall i | 0 <= i < |more|
      ensures Accounted(more[..i], more[i], capacity)
    {
      assert more[..i] == log[..i];
      assert log[..|log|] == log;
    }
  }

  lemma LoggingExtends(log: seq<Emission>, e: Emission)
    ensures Kept(log + [e]) == Kept(log) + (if e.kept then [e.event] else [])
    ensures Emitted(log + [e]) == Emitted(log) + [e.event]
  {
    assert (log + [e])[..|log|] == log;
  }

  lemma EmitKeepsQueueSound(q: Queue, e: Event)
    requires QueueSound(q)
    ensures QueueSound(Emit(q, e)) && Emitted(Emit(q, e).log) == Emitted(q.log) + [e]
  {
    var entry := Emission(e, |q.events|, |q.events| < q.capacity);
    LoggingExtends(q.log, entry);
    LoggingKeepsAccounts(q.log, entry, q.capacity);
    Regroup(q.consumed, q.events, [e]);
  }

  lemma ConsumingKeepsQueueSound(q: Queue)
    requires QueueSound(q)
    ensures QueueSound(Consume(q)) && Consume(q).log == q.log
  {
    var t := Consume(q);
    assert t.consumed + t.events == q.consumed + q.events;
  }

  lemma StepKeepsQueueSound(q: Queue, step: Step)
    requires QueueSound(q)
    ensures QueueSound(Enqueue(q, step)) && Enqueue(q, step).capacity == q.capacity
    ensures Emitted(Enqueue(q, step).log) == Emitted(q.log) + (if step.TrySend? then [step.event] else [])
  {
    if step.TrySend? {
      EmitKeepsQueueSound(q, step.event);
    } else {
      OtherStepsKeepQueueSound(q, step);
      NothingMore(Emitted(q.log));
    }
  }

  lemma OtherStepsKeepQueueSound(q: Queue, step: Step)
    requires QueueSound(q) && !step.TrySend?
    ensures QueueSound(Enqueue(q, step)) && Enqueue(q, step).log == q.log && Enqueue(q, step).capacity == q.capacity
  {
    if step.Take? {
      ConsumingKeepsQueueSound(q);
    } else {
      assert Enqueue(q, step) == q;
    }
  }

  lemma NothingMore(events: seq<Event>)
    ensures events + [] == events
  {
  }

  lemma {:induction false} StepsKeepQueueSound(s: State, steps: seq<Step>)
    requires QueueSound(s.queue)
    ensures
      var t := DoAll(s, steps).queue;
      QueueSound(t) && t.capacity == s.queue.capacity && Emitted(t.log) == Emitted(s.queue.log) + Sends(steps)
    decreases |steps|
  {
    if steps == [] {
      assert Emitted(s.queue.log) + [] == Emitted(s.queue.log);
    } else {
      StepKeepsQueueSound(s.queue, steps[0]);
      StepsKeepQueueSound(Do(s, steps[0]), steps[1..]);
      Regroup(Emitted(s.queue.log), if steps[0].TrySend? then [steps[0].event] else [], Sends(steps[1..]));
    }
  }

  /** After any messages, capacity and schedule, the emitted events are the ideal list, and the consumed and
      buffered events are the ideal list, in order, without the ones that met a full buffer. */
  lemma EventsAreKeptInOrder(parse: JsonParser, s: State, ms: seq<Message>, steps: seq<Step>)
    requires QueueSound(s.queue) && Schedule(parse, ms, steps)
    ensures
      var t := DoAll(s, steps).queue;
      QueueSound(t) && Emitted(t.log) == Emitted(s.queue.log) + IdealEvents(parse, ms)
  {
    StepsKeepQueueSound(s, steps);
    RoutedSendsAll(steps);
    MessagesSend(parse, ms);
  }

  lemma {:induction false} AllKept(log: seq<Emission>)
    requires forall i :: 0 <= i < |log| ==> log[i].kept
    ensures Kept(log) == Emitted(log)
    decreases |log|
  {
    if log != [] {
      AllKept(log[..|log| - 1]);
    }
  }

  lemma ShortLogsAreKept(log: seq<Emission>, capacity: nat)
    requires AllAccounted(log, capacity) && |log| <= capacity
    ensures Kept(log) == Emitted(log)
  {
    forall i | 0 <= i < |log|
      ensures log[i].kept
    {
      assert Accounted(log[..i], log[i], capacity);
    }
    AllKept(log);
  }

  /** A buffer as large as the ideal list loses nothing, however slow the consumer. */
  lemma LargeBufferLosesNothing(
      parse: JsonParser, w: Watches, capacity: nat, ms: seq<Message>, steps: seq<Step>)
    requires Schedule(parse, ms, steps) && |IdealEvents(parse, ms)| <= capacity
    ensures
      var t := DoAll(State(w, Queue([], capacity, [], [])), steps).queue;
      t.consumed + t.events == IdealEvents(parse, ms)
  {
    var s := State(w, Queue([], capacity, [], []));
    StepsKeepQueueSound(s, steps);
    EventsAreKeptInOrder(parse, s, ms, steps);
    var t := DoAll(s, steps).queue;
    assert Emitted([]) + IdealEvents(parse, ms) == IdealEvents(parse, ms);
    ShortLogsAreKept(t.log, capacity);
  }
}
