/**
 The tracked media session id over all runs: broadcasts, LOAD responses and STOP store it, commands read
 it and send it later, all interleaved by an arbitrary scheduler.
 */
module Session {
  import opened Machine
  import opened Wrappers
  import opened Json
  import opened Types
  import opened Parsing

  /** A play, pause, seek, stop or queue-insert request; `seen` counts the inbound messages before it. */
  datatype Command = Command(call: nat, mediaSessionId: i32, seen: nat)

  datatype State = State(
    session: i32,
    inbound: seq<Value>,
    responses: map<nat, Value>,
    read: map<nat, i32>,
    commands: seq<Command>)

  datatype Action =
    | RouteInbound(json: Value, isMediaStatus: bool)
    | Answer(call: nat, index: nat)
    | StoreFromLoad(call: nat)
    | StoreFromStop
    | ReadSession(call: nat)
    | SendCommand(call: nat)

  /** The state after action `a`, if `s` allows it. */
  function Step(s: State, a: Action): Option<State> {
    match a
    case RouteInbound(json, isMediaStatus) =>
      var status := if isMediaStatus then ParseMediaStatus(json) else None;
      var tracked := if status.Some? && status.value.mediaSessionId > 0 then status.value.mediaSessionId else s.session;
      Some(s.(inbound := s.inbound + [json], session := tracked))
    case Answer(k, i) =>
      if i >= |s.inbound| then None else Some(s.(responses := s.responses[k := s.inbound[i]]))
    case StoreFromLoad(k) =>
      if k !in s.responses then None else Some(s.(session := OrElse(SessionIdOf(s.responses[k]), s.session)))
    case StoreFromStop => Some(s.(session := 0))
    case ReadSession(k) => Some(if s.session > 0 then s.(read := s.read[k := s.session]) else s)
    case SendCommand(k) =>
      if k !in s.read then None else Some(s.(commands := s.commands + [Command(k, s.read[k], |s.inbound|)]))
  }

  const INIT := State(0, [], map[], map[], [])

  function Run(s: State, acts: seq<Action>): Option<State> { RunOf(Step, s, acts) }

  /** The id was announced by one of these messages. */
  ghost predicate Announced(inbound: seq<Value>, id: i32) {
    exists i :: 0 <= i < |inbound| && SessionIdOf(inbound[i]) == Some(id)
  }

  ghost predicate Inv(s: State) {
    && (s.session > 0 ==> Announced(s.inbound, s.session))
    && (forall k :: k in s.responses ==> s.responses[k] in s.inbound)
    && (forall k :: k in s.read ==> s.read[k] > 0 && Announced(s.inbound, s.read[k]))
    && (forall i :: 0 <= i < |s.commands| ==>
          var c := s.commands[i];
          c.mediaSessionId > 0 && c.seen <= |s.inbound| && Announced(s.inbound[..c.seen], c.mediaSessionId))
  }

  lemma MoreStillAnnounces(inbound: seq<Value>, json: Value, id: i32)
    requires Announced(inbound, id)
    ensures Announced(inbound + [json], id)
  {
    var i :| 0 <= i < |inbound| && SessionIdOf(inbound[i]) == Some(id);
    assert (inbound + [json])[i] == inbound[i];
  }

  lemma InboundKeepsInv(s: State, json: Value, isMediaStatus: bool, t: State)
    requires Inv(s) && Step(s, RouteInbound(json, isMediaStatus)) == Some(t)
    ensures Inv(t)
  {
    assert t.inbound[|s.inbound|] == json;
    if s.session > 0 {
      MoreStillAnnounces(s.inbound, json, s.session);
    }
    forall k | k in s.read
      ensures Announced(t.inbound, s.read[k])
    {
      MoreStillAnnounces(s.inbound, json, s.read[k]);
    }
    forall i | 0 <= i < |s.commands|
      ensures t.inbound[..s.commands[i].seen] == s.inbound[..s.commands[i].seen]
    {
    }
  }

  lemma StepKeepsInv(s: State, a: Action, t: State)
    requires Inv(s) && Step(s, a) == Some(t)
    ensures Inv(t)
  {
    if a.RouteInbound? {
      InboundKeepsInv(s, a.json, a.isMediaStatus, t);
    } else if a.SendCommand? {
      assert s.inbound[..|s.inbound|] == s.inbound;
    }
  }

  lemma {:induction false} RunKeepsInv(s: State, acts: seq<Action>, t: State)
    requires Inv(s) && Run(s, acts) == Some(t)
    ensures Inv(t)
    decreases |acts|
  {
    if acts != [] {
      var u := Splits(Step, s, acts);
      StepKeepsInv(s, acts[0], u);
      RunKeepsInv(u, acts[1..], t);
    }
  }

  /** In every run the session id of every command is positive and is the i32 value of the
      `mediaSessionId` of some message that came in before the command was sent. */
  lemma SessionIdsAreNeverInvented(acts: seq<Action>, s: State, i: nat)
    requires Run(INIT, acts) == Some(s) && i < |s.commands|
    ensures
      var c := s.commands[i];
      && c.mediaSessionId > 0
      && exists j :: 0 <= j < c.seen && j < |s.inbound| && SessionIdOf(s.inbound[j]) == Some(c.mediaSessionId)
  {
    RunKeepsInv(INIT, acts, s);
    var c := s.commands[i];
    var j :| 0 <= j < c.seen && SessionIdOf(s.inbound[..c.seen][j]) == Some(c.mediaSessionId);
    assert s.inbound[j] == s.inbound[..c.seen][j];
  }

  // ── STOP forgets the session ─────────────────────────────────

  /** None of the actions stores an id. */
  predicate StoresNothing(acts: seq<Action>) {
    forall i :: 0 <= i < |acts| ==> !acts[i].RouteInbound? && !acts[i].StoreFromLoad?
  }

  lemma {:induction false} NothingStoredNothingRead(s: State, acts: seq<Action>, t: State)
    requires s.session == 0 && StoresNothing(acts) && Run(s, acts) == Some(t)
    ensures t.session == 0 && t.read == s.read
    decreases |acts|
  {
    if acts != [] {
      var u := Splits(Step, s, acts);
      NothingStoredNothingRead(u, acts[1..], t);
    }
  }

  /** After a STOP no command finds a session id, until a broadcast or a LOAD response stores one again. */
  lemma StopForgetsSession(s: State, t: State, acts: seq<Action>, u: State)
    requires Step(s, StoreFromStop) == Some(t) && StoresNothing(acts) && Run(t, acts) == Some(u)
    ensures u.session == 0 && u.read == s.read
  {
    NothingStoredNothingRead(t, acts, u);
  }

  /** The session id that the step stores, if it is one. */
  function Stored(s: State, a: Action): Option<i32> {
    if a.RouteInbound? && a.isMediaStatus && ParseMediaStatus(a.json).Some?
    then Some(ParseMediaStatus(a.json).value.mediaSessionId)
    else if a.StoreFromLoad? && a.call in s.responses then SessionIdOf(s.responses[a.call])
    else None
  }

  /** A positive id stored from a broadcast status or a LOAD response is what the next command reads and sends. */
  lemma StoredSessionIsSent(s: State, a: Action, t: State, call: nat, u: State, v: State)
    requires Step(s, a) == Some(t) && Stored(s, a).Some? && Stored(s, a).value > 0
    requires Step(t, ReadSession(call)) == Some(u) && Step(u, SendCommand(call)) == Some(v)
    ensures v.commands == s.commands + [Command(call, Stored(s, a).value, |t.inbound|)]
  {
  }
}
