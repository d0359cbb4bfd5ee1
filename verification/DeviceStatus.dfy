/**
 What a device sends: the JSON of a media status and of a receiver status, with the protocol's own keys and
 literals.  The router reads back exactly the status that was sent, and its watch holds it.
 */
module DeviceStatus {
  import opened Wrappers
  import opened Json
  import opened Types
  import opened Parsing
  import opened Media
  import opened Router

  // ── Media status ─────────────────────────────────────────────

  function PlayerStateName(p: PlayerState): string {
    match p
    case Idle => "IDLE"
    case Playing => "PLAYING"
    case Paused => "PAUSED"
    case Buffering => "BUFFERING"
  }

  function IdleReasonName(r: IdleReason): string {
    match r
    case Cancelled => "CANCELLED"
    case Interrupted => "INTERRUPTED"
    case Finished => "FINISHED"
    case Error => "ERROR"
  }

  function IntJson(n: i32): Value { if n < 0 then Num(Signed(n)) else Num(Unsigned(n)) }

  /** A JSON number for `r`, written with a fraction or, where it is whole, without. */
  predicate Denotes(v: Value, r: real) {
    v.Num? && match v.num case Float(x) => x == r case Unsigned(n) => n as real == r case Signed(i) => i as real == r
  }

  function VolumeJson(level: Value, muted: bool): Value { Obj(map["level" := level, "muted" := Bool(muted)]) }

  function ReasonJson(st: MediaStatus): Option<Value> {
    match st.idleReason case Some(r) => Some(Str(IdleReasonName(r))) case None => None
  }

  function StatusMediaJson(st: MediaStatus): Option<Value> {
    match st.media case Some(m) => Some(MediaJson(m)) case None => None
  }

  const STATUS_KEYS := {"mediaSessionId", "playerState", "idleReason", "currentTime", "volume", "media"}

  /** The status fields, with these numbers for the time and the volume level; an absent reason or media leaves no
      key. */
  function StatusFields(st: MediaStatus, time: Value, level: Value): map<string, Value> {
    var base := map[
      "mediaSessionId" := IntJson(st.mediaSessionId),
      "playerState" := Str(PlayerStateName(st.playerState)),
      "currentTime" := time,
      "volume" := VolumeJson(level, st.volume.muted)];
    Put(Put(base, "idleReason", ReasonJson(st)), "media", StatusMediaJson(st))
  }

  /** An entry of the status list; `others` are the fields the client does not read. */
  function EntryJson(st: MediaStatus, time: Value, level: Value, others: map<string, Value>): Value {
    Obj(others + StatusFields(st, time, level))
  }

  /** A status message whose first entry is `entry`. */
  function MediaMessageJson(entry: Value, more: seq<Value>, requestId: u32): Value {
    Obj(map["type" := Str("MEDIA_STATUS"), "requestId" := FromU32(requestId), "status" := Arr([entry] + more)])
  }

  lemma StatesAreRead(p: PlayerState)
    ensures ParsePlayerState(PlayerStateName(p)) == Some(p)
  {
  }

  lemma ReasonsAreRead(r: IdleReason)
    ensures ParseIdleReason(IdleReasonName(r)) == Some(r)
  {
  }

  lemma NumbersAreRead(v: Value, r: real)
    ensures Denotes(v, r) <==> v.AsF64() == Some(r)
  {
  }

  lemma VolumesAreRead(v: Volume, level: Value)
    requires Denotes(level, v.level)
    ensures ParseVolume(Some(VolumeJson(level, v.muted))) == v
  {
    NumbersAreRead(level, v.level);
    assert VolumeJson(level, v.muted).Get("level") == Some(level);
    assert VolumeJson(level, v.muted).Get("muted") == Some(Bool(v.muted));
  }

  lemma IntsAreRead(n: i32)
    ensures IntJson(n).AsI64() == Some(n) && AsI32(n) == n
  {
  }

  /** The fields the client does not read hide none of those it does. */
  lemma EntryGets(st: MediaStatus, time: Value, level: Value, others: map<string, Value>, key: string)
    requires others.Keys !! STATUS_KEYS && key in STATUS_KEYS
    ensures
      var fields := StatusFields(st, time, level);
      EntryJson(st, time, level, others).Get(key) == if key in fields then Some(fields[key]) else None
  {
    assert key !in others.Keys;
  }

  lemma RequiredFields(st: MediaStatus, time: Value, level: Value)
    ensures
      var fields := Obj(StatusFields(st, time, level));
      && fields.Get("mediaSessionId") == Some(IntJson(st.mediaSessionId))
      && fields.Get("playerState") == Some(Str(PlayerStateName(st.playerState)))
  {
  }

  lemma MeasuredFields(st: MediaStatus, time: Value, level: Value)
    ensures
      var fields := Obj(StatusFields(st, time, level));
      && fields.Get("currentTime") == Some(time)
      && fields.Get("volume") == Some(VolumeJson(level, st.volume.muted))
  {
  }

  lemma OptionalFields(st: MediaStatus, time: Value, level: Value)
    ensures
      var fields := Obj(StatusFields(st, time, level));
      && fields.Get("idleReason") == ReasonJson(st)
      && fields.Get("media") == StatusMediaJson(st)
  {
  }

  /** `entry` says what `st` says. */
  predicate Carries(entry: Value, st: MediaStatus, time: Value, level: Value) {
    && entry.Get("mediaSessionId") == Some(IntJson(st.mediaSessionId))
    && entry.Get("playerState") == Some(Str(PlayerStateName(st.playerState)))
    && entry.Get("currentTime") == Some(time) && Denotes(time, st.currentTime)
    && entry.Get("volume") == Some(VolumeJson(level, st.volume.muted)) && Denotes(level, st.volume.level)
    && entry.Get("idleReason") == ReasonJson(st)
    && entry.Get("media") == StatusMediaJson(st)
  }

  lemma EntryCarries(st: MediaStatus, time: Value, level: Value, others: map<string, Value>)
    requires others.Keys !! STATUS_KEYS && Denotes(time, st.currentTime) && Denotes(level, st.volume.level)
    ensures Carries(EntryJson(st, time, level, others), st, time, level)
  {
    RequiredFields(st, time, level);
    MeasuredFields(st, time, level);
    OptionalFields(st, time, level);
    EntryGets(st, time, level, others, "mediaSessionId");
    EntryGets(st, time, level, others, "playerState");
    EntryGets(st, time, level, others, "currentTime");
    EntryGets(st, time, level, others, "volume");
    EntryGets(st, time, level, others, "idleReason");
    EntryGets(st, time, level, others, "media");
  }

  lemma FirstIsRead(entry: Value, more: seq<Value>, requestId: u32)
    ensures FirstEntry(MediaMessageJson(entry, more, requestId)) == Some(entry)
  {
    var json := MediaMessageJson(entry, more, requestId);
    assert json.Get("status") == Some(Arr([entry] + more));
    assert ([entry] + more)[0] == entry;
  }

  /** The status that the parser makes of such an entry. */
  function ReadBack(st: MediaStatus): MediaStatus {
    st.(duration := match st.media case Some(m) => PositiveAt(MediaJson(m), "duration") case None => None,
        media := match st.media case Some(m) => ParseMedia(MediaJson(m)) case None => None)
  }

  lemma CarriedIsRead(json: Value, entry: Value, st: MediaStatus, time: Value, level: Value)
    requires FirstEntry(json) == Some(entry) && Carries(entry, st, time, level)
    ensures ParseMediaStatus(json) == Some(ReadBack(st))
  {
    IntsAreRead(st.mediaSessionId);
    StatesAreRead(st.playerState);
    VolumesAreRead(st.volume, level);
    NumbersAreRead(time, st.currentTime);
    if st.idleReason.Some? {
      ReasonsAreRead(st.idleReason.value);
    }
  }

  /** The duration that the media announces, if it is one. */
  function DurationOf(media: Option<MediaInfo>): Option<real> {
    if media.Some? && media.value.duration.Some? && media.value.duration.value.Finite?
    then Some(media.value.duration.value.value) else None
  }

  /** The status repeats the duration of its media, and JSON can express that media. */
  predicate Sendable(st: MediaStatus) {
    && (st.media.Some? ==> Representable(st.media.value))
    && st.duration == DurationOf(st.media)
  }

  lemma DurationIsRead(m: MediaInfo)
    requires Representable(m)
    ensures PositiveAt(MediaJson(m), "duration") == DurationOf(Some(m))
  {
    MediaDuration(m);
  }

  /** Whatever the state, reason, time, volume and media, whatever other fields and entries come with it, and
      whichever request it answers: the router reads back exactly the status the device sent, if and only if the
      status repeats its media's duration and JSON can express that media. */
  lemma MediaStatusRoundTrip(
      st: MediaStatus, time: Value, level: Value, others: map<string, Value>, more: seq<Value>, requestId: u32)
    requires others.Keys !! STATUS_KEYS && Denotes(time, st.currentTime) && Denotes(level, st.volume.level)
    ensures
      ParseMediaStatus(MediaMessageJson(EntryJson(st, time, level, others), more, requestId)) == Some(st)
      <==> Sendable(st)
  {
    var entry := EntryJson(st, time, level, others);
    EntryCarries(st, time, level, others);
    FirstIsRead(entry, more, requestId);
    CarriedIsRead(MediaMessageJson(entry, more, requestId), entry, st, time, level);
    if st.media.Some? {
      MediaRoundTrip(st.media.value);
      if Representable(st.media.value) {
        DurationIsRead(st.media.value);
      }
    }
  }

  /** Of a status with nothing but its id and state the rest is read as the defaults: time 0, full volume. */
  lemma BareStatusHasDefaults(id: i32, p: PlayerState, more: seq<Value>, requestId: u32)
    ensures
      var entry := Obj(map["mediaSessionId" := IntJson(id), "playerState" := Str(PlayerStateName(p))]);
      ParseMediaStatus(MediaMessageJson(entry, more, requestId))
      == Some(MediaStatus(id, p, None, 0.0, None, Volume(1.0, false), None))
  {
    var entry := Obj(map["mediaSessionId" := IntJson(id), "playerState" := Str(PlayerStateName(p))]);
    IntsAreRead(id);
    StatesAreRead(p);
    FirstIsRead(entry, more, requestId);
    assert entry.Get("mediaSessionId") == Some(IntJson(id));
    assert entry.Get("playerState") == Some(Str(PlayerStateName(p)));
  }

  /** A media status is accepted exactly if its first entry names one of the four player states and has an integer
      session id. */
  lemma MediaStatusIsAcceptedExactly(json: Value)
    ensures
      ParseMediaStatus(json).Some?
      <==> && FirstEntry(json).Some?
           && var entry := FirstEntry(json).value;
              && (exists p: PlayerState :: entry.StrAt("playerState") == Some(PlayerStateName(p)))
              && entry.Get("mediaSessionId").Some? && entry.Get("mediaSessionId").value.AsI64().Some?
  {
    if FirstEntry(json).Some? {
      var name := FirstEntry(json).value.StrAt("playerState");
      if name.Some? {
        NamesAreKnown(name.value);
      }
      forall p: PlayerState | name == Some(PlayerStateName(p))
        ensures ParsePlayerState(name.value) == Some(p)
      {
        StatesAreRead(p);
      }
    }
  }

  lemma NamesAreKnown(name: string)
    ensures ParsePlayerState(name).Some? ==> name == PlayerStateName(ParsePlayerState(name).value)
  {
  }

  // ── Receiver status ──────────────────────────────────────────

  function NamespaceJson(name: string): Value { Obj(map["name" := Str(name)]) }

  /** The named entries of the list, in order, are these names; entries without a name may stand between. */
  predicate Names(items: seq<Value>, names: seq<string>) {
    if items == [] then names == []
    else if items[0].StrAt("name").None? then Names(items[1..], names)
    else names != [] && items[0] == NamespaceJson(names[0]) && Names(items[1..], names[1..])
  }

  function AppJson(app: Application, namespaces: seq<Value>): Value {
    Obj(map[
          "appId" := Str(app.appId),
          "displayName" := Str(app.displayName),
          "sessionId" := Str(app.sessionId),
          "transportId" := Str(app.transportId),
          "namespaces" := Arr(namespaces),
          "statusText" := Str(app.statusText)])
  }

  predicate IsAppJson(v: Value, app: Application) {
    && v.ArrayAt("namespaces").Some?
    && v == AppJson(app, v.ArrayAt("namespaces").value)
    && Names(v.ArrayAt("namespaces").value, app.namespaces)
  }

  predicate Identified(v: Value) {
    v.StrAt("appId").Some? && v.StrAt("sessionId").Some? && v.StrAt("transportId").Some?
  }

  /** The identified entries of the list, in order, are these applications; entries that lack an id may stand
      between. */
  predicate Lists(items: seq<Value>, apps: seq<Application>) {
    if items == [] then apps == []
    else if !Identified(items[0]) then Lists(items[1..], apps)
    else apps != [] && IsAppJson(items[0], apps[0]) && Lists(items[1..], apps[1..])
  }

  function StatusJson(rs: ReceiverStatus, level: Value, items: seq<Value>): Value {
    Obj(map[
          "volume" := VolumeJson(level, rs.volume.muted),
          "applications" := Arr(items),
          "isActiveInput" := Bool(rs.isActiveInput),
          "isStandBy" := Bool(rs.isStandBy)])
  }

  function ReceiverMessageJson(status: Value, requestId: u32): Value {
    Obj(map["type" := Str("RECEIVER_STATUS"), "requestId" := FromU32(requestId), "status" := status])
  }

  lemma NameIsRead(name: string)
    ensures NamespaceJson(name).StrAt("name") == Some(name)
  {
    assert NamespaceJson(name).Get("name") == Some(Str(name));
  }

  lemma {:induction false} NamesAreRead(items: seq<Value>, names: seq<string>)
    requires Names(items, names)
    ensures ParseNamespaces(items) == names
    decreases |items|
  {
    if items != [] {
      if items[0].StrAt("name").None? {
        NamesAreRead(items[1..], names);
      } else {
        NameIsRead(names[0]);
        NamesAreRead(items[1..], names[1..]);
      }
    }
  }

  lemma AppIds(app: Application, namespaces: seq<Value>)
    ensures
      var v := AppJson(app, namespaces);
      && v.StrAt("appId") == Some(app.appId)
      && v.StrAt("sessionId") == Some(app.sessionId)
      && v.StrAt("transportId") == Some(app.transportId)
  {
  }

  lemma AppRest(app: Application, namespaces: seq<Value>)
    ensures
      var v := AppJson(app, namespaces);
      && v.StrAt("displayName") == Some(app.displayName)
      && v.StrAt("statusText") == Some(app.statusText)
      && v.ArrayAt("namespaces") == Some(namespaces)
  {
  }

  lemma AppIsRead(v: Value, app: Application)
    requires IsAppJson(v, app)
    ensures ParseApplication(v) == Some(app)
  {
    AppIds(app, v.ArrayAt("namespaces").value);
    AppRest(app, v.ArrayAt("namespaces").value);
    NamesAreRead(v.ArrayAt("namespaces").value, app.namespaces);
  }

  /** An entry is kept exactly if it has its three ids. */
  lemma AppIsKeptExactly(v: Value)
    ensures ParseApplication(v).Some? <==> Identified(v)
  {
  }

  lemma {:induction false} AppsAreRead(items: seq<Value>, apps: seq<Application>)
    requires Lists(items, apps)
    ensures ParseApplications(items) == apps
    decreases |items|
  {
    if items != [] {
      AppIsKeptExactly(items[0]);
      if !Identified(items[0]) {
        AppsAreRead(items[1..], apps);
      } else {
        AppIsRead(items[0], apps[0]);
        AppsAreRead(items[1..], apps[1..]);
      }
    }
  }

  lemma ReceiverFields(rs: ReceiverStatus, level: Value, items: seq<Value>)
    ensures
      var v := StatusJson(rs, level, items);
      && v.Get("volume") == Some(VolumeJson(level, rs.volume.muted))
      && v.ArrayAt("applications") == Some(items)
      && v.Get("isActiveInput") == Some(Bool(rs.isActiveInput))
      && v.Get("isStandBy") == Some(Bool(rs.isStandBy))
  {
  }

  lemma ReceiverIsRead(json: Value, status: Value, level: Value, items: seq<Value>, rs: ReceiverStatus)
    requires json.Get("status") == Some(status) && Denotes(level, rs.volume.level)
    requires status.Get("volume") == Some(VolumeJson(level, rs.volume.muted))
    requires status.ArrayAt("applications") == Some(items)
    requires status.Get("isActiveInput") == Some(Bool(rs.isActiveInput))
    requires status.Get("isStandBy") == Some(Bool(rs.isStandBy))
    requires Lists(items, rs.applications)
    ensures ParseReceiverStatus(json) == Some(rs)
  {
    VolumesAreRead(rs.volume, level);
    AppsAreRead(items, rs.applications);
  }

  /** Every receiver status comes back as it was sent, its applications in order, entries that lack an id and
      namespaces that lack a name skipped. */
  lemma ReceiverStatusRoundTrip(rs: ReceiverStatus, level: Value, items: seq<Value>, requestId: u32)
    requires Lists(items, rs.applications) && Denotes(level, rs.volume.level)
    ensures ParseReceiverStatus(ReceiverMessageJson(StatusJson(rs, level, items), requestId)) == Some(rs)
  {
    var status := StatusJson(rs, level, items);
    var json := ReceiverMessageJson(status, requestId);
    assert json.Get("status") == Some(status);
    ReceiverFields(rs, level, items);
    ReceiverIsRead(json, status, level, items, rs);
  }

  /** Of a receiver status with nothing but its volume the rest is read as no application, neither active input nor
      standing by. */
  lemma BareReceiverHasDefaults(volume: Volume, level: Value, requestId: u32)
    requires Denotes(level, volume.level)
    ensures
      var status := Obj(map["volume" := VolumeJson(level, volume.muted)]);
      ParseReceiverStatus(ReceiverMessageJson(status, requestId)) == Some(ReceiverStatus(volume, [], false, false))
  {
    var status := Obj(map["volume" := VolumeJson(level, volume.muted)]);
    assert ReceiverMessageJson(status, requestId).Get("status") == Some(status);
    assert status.Get("volume") == Some(VolumeJson(level, volume.muted));
    VolumesAreRead(volume, level);
  }

  // ── Through the router ───────────────────────────────────────

  lemma MediaTypeIsRead(entry: Value, more: seq<Value>, requestId: u32)
    ensures TypeOf(MediaMessageJson(entry, more, requestId)) == "MEDIA_STATUS"
  {
    assert MediaMessageJson(entry, more, requestId).Get("type") == Some(Str("MEDIA_STATUS"));
  }

  lemma ReceiverTypeIsRead(status: Value, requestId: u32)
    ensures TypeOf(ReceiverMessageJson(status, requestId)) == "RECEIVER_STATUS"
  {
    assert ReceiverMessageJson(status, requestId).Get("type") == Some(Str("RECEIVER_STATUS"));
  }

  lemma MediaMessageUpdates(parse: JsonParser, m: Message, json: Value)
    requires m.namespace == NS_MEDIA && parse(m.Payload()) == Some(json) && TypeOf(json) == "MEDIA_STATUS"
    ensures EffectsOf(parse, m).media == ParseMediaStatus(json)
  {
    NamespacesDiffer();
  }

  lemma ReceiverMessageUpdates(parse: JsonParser, m: Message, json: Value)
    requires m.namespace == NS_RECEIVER && parse(m.Payload()) == Some(json) && TypeOf(json) == "RECEIVER_STATUS"
    ensures EffectsOf(parse, m).receiver == ParseReceiverStatus(json)
  {
    NamespacesDiffer();
  }

  /** The events of such a status: the end of a session that was real and has a reason, and then the status. */
  lemma MediaStatusIsAnnounced(
      parse: JsonParser, m: Message,
      st: MediaStatus, time: Value, level: Value, others: map<string, Value>, more: seq<Value>, requestId: u32)
    requires others.Keys !! STATUS_KEYS && Denotes(time, st.currentTime) && Denotes(level, st.volume.level)
    requires Sendable(st) && m.namespace == NS_MEDIA
    requires parse(m.Payload()) == Some(MediaMessageJson(EntryJson(st, time, level, others), more, requestId))
    ensures
      EffectsOf(parse, m).events
      == (if st.playerState.Idle? && st.mediaSessionId > 0 && st.idleReason.Some?
          then [MediaSessionEnded(st.mediaSessionId, st.idleReason.value)] else [])
         + [MediaStatusChanged(st)]
  {
    var entry := EntryJson(st, time, level, others);
    MediaStatusRoundTrip(st, time, level, others, more, requestId);
    MediaTypeIsRead(entry, more, requestId);
    NamespacesDiffer();
  }

  /** Once a device has sent a media status and no later one is readable, the media watch holds it, after any
      messages and under any schedule, and a positive session id is the one tracked. */
  lemma MediaWatchHoldsStatus(
      parse: JsonParser, s: State, ms: seq<Message>, steps: seq<Step>, i: nat,
      st: MediaStatus, time: Value, level: Value, others: map<string, Value>, more: seq<Value>, requestId: u32)
    requires Schedule(parse, ms, steps) && i < |ms| && NoMediaFrom(parse, ms, i + 1)
    requires others.Keys !! STATUS_KEYS && Denotes(time, st.currentTime) && Denotes(level, st.volume.level)
    requires Sendable(st) && ms[i].namespace == NS_MEDIA
    requires parse(ms[i].Payload()) == Some(MediaMessageJson(EntryJson(st, time, level, others), more, requestId))
    ensures DoAll(s, steps).watches.media == Some(st)
    ensures st.mediaSessionId > 0 ==> DoAll(s, steps).watches.mediaSessionId == st.mediaSessionId
  {
    var entry := EntryJson(st, time, level, others);
    var json := MediaMessageJson(entry, more, requestId);
    MediaStatusRoundTrip(st, time, level, others, more, requestId);
    MediaTypeIsRead(entry, more, requestId);
    MediaMessageUpdates(parse, ms[i], json);
    LastStatusWins(parse, s, ms, steps, i);
  }

  /** Likewise for the receiver watch. */
  lemma ReceiverWatchHoldsStatus(
      parse: JsonParser, s: State, ms: seq<Message>, steps: seq<Step>, i: nat,
      rs: ReceiverStatus, level: Value, items: seq<Value>, requestId: u32)
    requires Schedule(parse, ms, steps) && i < |ms| && NoReceiverFrom(parse, ms, i + 1)
    requires ms[i].namespace == NS_RECEIVER && Lists(items, rs.applications) && Denotes(level, rs.volume.level)
    requires parse(ms[i].Payload()) == Some(ReceiverMessageJson(StatusJson(rs, level, items), requestId))
    ensures DoAll(s, steps).watches.receiver == Some(rs)
  {
    var json := ReceiverMessageJson(StatusJson(rs, level, items), requestId);
    ReceiverStatusRoundTrip(rs, level, items, requestId);
    ReceiverTypeIsRead(StatusJson(rs, level, items), requestId);
    ReceiverMessageUpdates(parse, ms[i], json);
    LastStatusWins(parse, s, ms, steps, i);
  }
}
