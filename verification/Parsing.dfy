/** The JSON parsers of the router. */
module Parsing {
  import opened Wrappers
  import opened Json
  import opened Types

  function ParseImage(img: Value): Option<Image> {
    match img.StrAt("url")
    case Some(url) => Some(Image(url, img.U32At("width"), img.U32At("height")))
    case None => None
  }

  /** `filter_map`: elements that do not parse are skipped. */
  function ParseImageList(items: seq<Value>): seq<Image> {
    if items == [] then []
    else (match ParseImage(items[0]) case Some(i) => [i] case None => []) + ParseImageList(items[1..])
  }

  function ParseImages(meta: Value): seq<Image> {
    match meta.ArrayAt("images") case Some(items) => ParseImageList(items) case None => []
  }

  function Floats(r: Option<real>): Option<F64> {
    match r case Some(x) => Some(Finite(x)) case None => None
  }

  /** `a.get(first).or_else(|| a.get(second)).and_then(as_str)`: a present first key wins even when it is
      not a string. */
  function StrAtEither(v: Value, first: string, second: string): Option<string> {
    if v.Get(first).Some? then v.StrAt(first) else v.StrAt(second)
  }

  function ParseMetadata(meta: Value): MediaMetadata {
    var kind := OrElse(meta.U64At("metadataType"), 0);
    var images := ParseImages(meta);
    if kind == 1 then
      Movie(meta.StrAt("title"), meta.StrAt("subtitle"), meta.StrAt("studio"), images)
    else if kind == 2 then
      TvShow(meta.StrAt("seriesTitle"), StrAtEither(meta, "episodeTitle", "title"), meta.U32At("season"),
             meta.U32At("episode"), images)
    else if kind == 3 then
      MusicTrack(meta.StrAt("title"), StrAtEither(meta, "artist", "albumArtist"), meta.StrAt("albumName"),
                 meta.StrAt("composer"), meta.U32At("trackNumber"), meta.U32At("discNumber"), images)
    else if kind == 4 then
      Photo(meta.StrAt("title"), meta.StrAt("artist"), meta.StrAt("location"), Floats(meta.F64At("latitude")),
            Floats(meta.F64At("longitude")), meta.U32At("width"), meta.U32At("height"), images)
    else if kind == 5 then
      AudiobookChapter(meta.StrAt("bookTitle"), meta.StrAt("chapterTitle"), meta.U32At("chapterNumber"),
                       meta.StrAt("subtitle"), images)
    else
      Generic(meta.StrAt("title"), meta.StrAt("subtitle"), images)
  }

  function PositiveAt(v: Value, key: string): Option<real> {
    match v.F64At(key) case Some(d) => (if d > 0.0 then Some(d) else None) case None => None
  }

  function ParseStreamType(s: string): StreamType {
    if s == "BUFFERED" then Buffered else if s == "LIVE" then Live else Unspecified
  }

  function ParseMedia(m: Value): Option<MediaInfo> {
    match m.StrAt("contentId")
    case None => None
    case Some(id) =>
      Some(MediaInfo(
             id,
             OrElse(m.StrAt("contentType"), ""),
             ParseStreamType(OrElse(m.StrAt("streamType"), "")),
             Floats(PositiveAt(m, "duration")),
             match m.Get("metadata") case Some(meta) => Some(ParseMetadata(meta)) case None => None))
  }

  function ParsePlayerState(s: string): Option<PlayerState> {
    if s == "IDLE" then Some(Idle)
    else if s == "PLAYING" then Some(Playing)
    else if s == "PAUSED" then Some(Paused)
    else if s == "BUFFERING" then Some(Buffering)
    else None
  }

  function ParseIdleReason(s: string): Option<IdleReason> {
    if s == "CANCELLED" then Some(Cancelled)
    else if s == "INTERRUPTED" then Some(Interrupted)
    else if s == "FINISHED" then Some(Finished)
    else if s == "ERROR" then Some(Error)
    else None
  }

  function ParseVolume(v: Option<Value>): Volume {
    match v
    case Some(o) => Volume(OrElse(o.F64At("level"), 1.0), o.BoolAt("muted", false))
    case None => Volume(1.0, false)
  }

  /** The first entry of the `status` array. */
  function FirstEntry(json: Value): Option<Value> {
    match json.ArrayAt("status")
    case Some(entries) => if entries == [] then None else Some(entries[0])
    case None => None
  }

  /** The `mediaSessionId` of the first status entry, cast to i32. */
  function SessionIdOf(json: Value): Option<i32> {
    match FirstEntry(json)
    case None => None
    case Some(entry) =>
      match entry.Get("mediaSessionId")
      case None => None
      case Some(v) => match v.AsI64() case Some(i) => Some(AsI32(i)) case None => None
  }

  function ParseMediaStatus(json: Value): Option<MediaStatus> {
    match FirstEntry(json)
    case None => None
    case Some(entry) =>
      match entry.StrAt("playerState")
      case None => None
      case Some(name) =>
        match ParsePlayerState(name)
        case None => None
        case Some(playerState) =>
          match SessionIdOf(json)
          case None => None
          case Some(msid) =>
            var media := entry.Get("media");
            Some(MediaStatus(
                   msid,
                   playerState,
                   match entry.StrAt("idleReason") case Some(r) => ParseIdleReason(r) case None => None,
                   OrElse(entry.F64At("currentTime"), 0.0),
                   match media case Some(m) => PositiveAt(m, "duration") case None => None,
                   ParseVolume(entry.Get("volume")),
                   match media case Some(m) => ParseMedia(m) case None => None))
  }

  function ParseNamespaces(items: seq<Value>): seq<string> {
    if items == [] then []
    else (match items[0].StrAt("name") case Some(n) => [n] case None => []) + ParseNamespaces(items[1..])
  }

  function ParseApplication(app: Value): Option<Application> {
    match (app.StrAt("appId"), app.StrAt("sessionId"), app.StrAt("transportId"))
    case (Some(appId), Some(sessionId), Some(transportId)) =>
      Some(Application(
             appId, OrElse(app.StrAt("displayName"), ""), sessionId, transportId,
             match app.ArrayAt("namespaces") case Some(items) => ParseNamespaces(items) case None => [],
             OrElse(app.StrAt("statusText"), "")))
    case _ => None
  }

  function ParseApplications(items: seq<Value>): seq<Application> {
    if items == [] then []
    else (match ParseApplication(items[0]) case Some(a) => [a] case None => []) + ParseApplications(items[1..])
  }

  function ParseReceiverStatus(json: Value): Option<ReceiverStatus> {
    match json.Get("status")
    case None => None
    case Some(status) =>
      match status.Get("volume")
      case None => None
      case Some(volume) =>
        Some(ReceiverStatus(
               ParseVolume(Some(volume)),
               match status.ArrayAt("applications") case Some(items) => ParseApplications(items) case None => [],
               status.BoolAt("isActiveInput", false),
               status.BoolAt("isStandBy", false)))
  }
}
