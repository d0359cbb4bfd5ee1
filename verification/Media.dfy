/** The media channel's serializers, and the proof that the router's parsers undo them. */
module Media {
  import opened Wrappers
  import opened Json
  import opened Types
  import opened Parsing

  // ── What is written ──────────────────────────────────────────

  function Put(m: map<string, Value>, key: string, value: Option<Value>): map<string, Value> {
    if value.Some? then m[key := value.value] else m
  }

  function Text(s: Option<string>): Option<Value> {
    match s case Some(t) => Some(Str(t)) case None => None
  }

  function Count(n: Option<u32>): Option<Value> {
    match n case Some(k) => Some(FromU32(k)) case None => None
  }

  function Real(f: Option<F64>): Option<Value> {
    match f case Some(x) => Some(FromF64(x)) case None => None
  }

  function ImageJson(i: Image): Value {
    Obj(Put(Put(map["url" := Str(i.url)], "width", Count(i.width)), "height", Count(i.height)))
  }

  function ImagesJson(images: seq<Image>): Value {
    Arr(seq(|images|, i requires 0 <= i < |images| => ImageJson(images[i])))
  }

  function MetadataFields(meta: MediaMetadata): map<string, Value> {
    var images := Some(ImagesJson(meta.images));
    match meta
    case Generic(title, subtitle, _) =>
      var m := Put(Put(map["metadataType" := FromU32(0)], "title", Text(title)), "subtitle", Text(subtitle));
      Put(m, "images", images)
    case Movie(title, subtitle, studio, _) =>
      var m := Put(Put(map["metadataType" := FromU32(1)], "title", Text(title)), "subtitle", Text(subtitle));
      Put(Put(m, "studio", Text(studio)), "images", images)
    case TvShow(seriesTitle, episodeTitle, season, episode, _) =>
      var series := Put(map["metadataType" := FromU32(2)], "seriesTitle", Text(seriesTitle));
      var m := Put(series, "title", Text(episodeTitle));
      Put(Put(Put(m, "season", Count(season)), "episode", Count(episode)), "images", images)
    case MusicTrack(title, artist, albumName, composer, trackNumber, discNumber, _) =>
      var m := Put(Put(map["metadataType" := FromU32(3)], "title", Text(title)), "artist", Text(artist));
      var n := Put(Put(m, "albumName", Text(albumName)), "composer", Text(composer));
      Put(Put(Put(n, "trackNumber", Count(trackNumber)), "discNumber", Count(discNumber)), "images", images)
    case Photo(title, artist, location, latitude, longitude, width, height, _) =>
      var m := Put(Put(map["metadataType" := FromU32(4)], "title", Text(title)), "artist", Text(artist));
      var n := Put(Put(Put(m, "location", Text(location)), "latitude", Real(latitude)), "longitude", Real(longitude));
      Put(Put(Put(n, "width", Count(width)), "height", Count(height)), "images", images)
    case AudiobookChapter(bookTitle, chapterTitle, chapterNumber, subtitle, _) =>
      var book := Put(map["metadataType" := FromU32(5)], "bookTitle", Text(bookTitle));
      var m := Put(book, "chapterTitle", Text(chapterTitle));
      Put(Put(Put(m, "chapterNumber", Count(chapterNumber)), "subtitle", Text(subtitle)), "images", images)
  }

  function MetadataJson(meta: MediaMetadata): Value { Obj(MetadataFields(meta)) }

  function StreamTypeName(t: StreamType): string {
    match t case Buffered => "BUFFERED" case Live => "LIVE" case Unspecified => "NONE"
  }

  function MediaJson(media: MediaInfo): Value {
    var base := map[
      "contentId" := Str(media.contentId),
      "contentType" := Str(media.contentType),
      "streamType" := Str(StreamTypeName(media.streamType))];
    Obj(Put(Put(base, "duration", Real(media.duration)), "metadata",
            match media.metadata case Some(meta) => Some(MetadataJson(meta)) case None => None))
  }

  function QueueItemJson(item: QueueItem): Value {
    Obj(map[
          "media" := MediaJson(item.media),
          "autoplay" := Bool(item.autoplay),
          "startTime" := FromF64(item.startTime)])
  }

  /** The payload of a LOAD request. */
  function LoadPayload(
    requestId: u32, sessionId: string, media: MediaInfo, autoplay: bool, currentTime: F64, customData: Option<Value>):
    Value
  {
    Obj(map[
          "type" := Str("LOAD"),
          "requestId" := FromU32(requestId),
          "sessionId" := Str(sessionId),
          "media" := MediaJson(media),
          "autoplay" := Bool(autoplay),
          "currentTime" := FromF64(currentTime),
          "customData" := OrElse(customData, Obj(map[]))])
  }

  // ── The serializers, in place ────────────────────────────────

  /** `serde_json::Map`, mutated by insertion. */
  class JsonMap {
    var fields: map<string, Value>

    constructor ()
      ensures fields == map[]
    {
      fields := map[];
    }

    method Insert(key: string, value: Value)
      modifies this
      ensures fields == old(fields)[key := value]
    {
      fields := fields[key := value];
    }

    /** Insert a field only if the value is `Some`. */
    method InsertOpt(key: string, value: Option<Value>)
      modifies this
      ensures fields == Put(old(fields), key, value)
    {
      if value.Some? {
        Insert(key, value.value);
      }
    }
  }

  method SerializeImages(images: seq<Image>) returns (v: Value)
    ensures v == ImagesJson(images)
  {
    var items: seq<Value> := [];
    for i := 0 to |images|
      invariant |items| == i
      invariant forall j :: 0 <= j < i ==> items[j] == ImageJson(images[j])
    {
      var obj := new JsonMap();
      obj.Insert("url", Str(images[i].url));
      obj.InsertOpt("width", Count(images[i].width));
      obj.InsertOpt("height", Count(images[i].height));
      items := items + [Obj(obj.fields)];
    }
    v := Arr(items);
  }

  method SerializeMetadata(meta: MediaMetadata) returns (v: Value)
    ensures v == MetadataJson(meta)
  {
    var m := new JsonMap();
    match meta {
      case Generic(title, subtitle, _) =>
        m.Insert("metadataType", FromU32(0));
        m.InsertOpt("title", Text(title));
        m.InsertOpt("subtitle", Text(subtitle));
      case Movie(title, subtitle, studio, _) =>
        m.Insert("metadataType", FromU32(1));
        m.InsertOpt("title", Text(title));
        m.InsertOpt("subtitle", Text(subtitle));
        m.InsertOpt("studio", Text(studio));
      case TvShow(seriesTitle, episodeTitle, season, episode, _) =>
        m.Insert("metadataType", FromU32(2));
        m.InsertOpt("seriesTitle", Text(seriesTitle));
        m.InsertOpt("title", Text(episodeTitle));
        m.InsertOpt("season", Count(season));
        m.InsertOpt("episode", Count(episode));
      case MusicTrack(title, artist, albumName, composer, trackNumber, discNumber, _) =>
        m.Insert("metadataType", FromU32(3));
        m.InsertOpt("title", Text(title));
        m.InsertOpt("artist", Text(artist));
        m.InsertOpt("albumName", Text(albumName));
        m.InsertOpt("composer", Text(composer));
        m.InsertOpt("trackNumber", Count(trackNumber));
        m.InsertOpt("discNumber", Count(discNumber));
      case Photo(title, artist, location, latitude, longitude, width, height, _) =>
        m.Insert("metadataType", FromU32(4));
        m.InsertOpt("title", Text(title));
        m.InsertOpt("artist", Text(artist));
        m.InsertOpt("location", Text(location));
        m.InsertOpt("latitude", Real(latitude));
        m.InsertOpt("longitude", Real(longitude));
        m.InsertOpt("width", Count(width));
        m.InsertOpt("height", Count(height));
      case AudiobookChapter(bookTitle, chapterTitle, chapterNumber, subtitle, _) =>
        m.Insert("metadataType", FromU32(5));
        m.InsertOpt("bookTitle", Text(bookTitle));
        m.InsertOpt("chapterTitle", Text(chapterTitle));
        m.InsertOpt("chapterNumber", Count(chapterNumber));
        m.InsertOpt("subtitle", Text(subtitle));
    }
    var images := SerializeImages(meta.images);
    m.Insert("images", images);
    v := Obj(m.fields);
  }

  /** The `media` object of a LOAD request and of every queue item. */
  method SerializeMedia(media: MediaInfo) returns (v: Value)
    ensures v == MediaJson(media)
  {
    var obj := new JsonMap();
    obj.Insert("contentId", Str(media.contentId));
    obj.Insert("contentType", Str(media.contentType));
    obj.Insert("streamType", Str(StreamTypeName(media.streamType)));
    obj.InsertOpt("duration", Real(media.duration));
    if media.metadata.Some? {
      var meta := SerializeMetadata(media.metadata.value);
      obj.Insert("metadata", meta);
    }
    v := Obj(obj.fields);
  }

  method SerializeQueueItem(item: QueueItem) returns (v: Value)
    ensures v == QueueItemJson(item)
  {
    var media := SerializeMedia(item.media);
    var obj := new JsonMap();
    obj.Insert("media", media);
    obj.Insert("autoplay", Bool(item.autoplay));
    obj.Insert("startTime", FromF64(item.startTime));
    v := Obj(obj.fields);
  }

  // ── The parsers undo them ────────────────────────────────────

  lemma ImageRoundTrip(i: Image)
    ensures ParseImage(ImageJson(i)) == Some(i)
  {
  }

  lemma {:induction false} ImageListRoundTrip(images: seq<Image>)
    ensures ParseImageList(ImagesJson(images).items) == images
  {
    if images != [] {
      ImageRoundTrip(images[0]);
      ImageListRoundTrip(images[1..]);
      assert ImagesJson(images).items[1..] == ImagesJson(images[1..]).items;
    }
  }

  predicate IsFinite(f: Option<F64>) { f.Some? ==> f.value.Finite? }

  /** Every float the metadata holds is finite. */
  predicate FiniteMetadata(meta: MediaMetadata) {
    meta.Photo? ==> IsFinite(meta.latitude) && IsFinite(meta.longitude)
  }

  lemma ImagesSurvive(meta: MediaMetadata)
    ensures ParseImages(MetadataJson(meta)) == meta.images
  {
    ImageListRoundTrip(meta.images);
    assert MetadataJson(meta).Get("images") == Some(ImagesJson(meta.images));
  }

  lemma GenericRoundTrip(meta: MediaMetadata)
    requires meta.Generic?
    ensures ParseMetadata(MetadataJson(meta)) == meta <==> FiniteMetadata(meta)
  {
    ImagesSurvive(meta);
  }

  lemma MovieRoundTrip(meta: MediaMetadata)
    requires meta.Movie?
    ensures ParseMetadata(MetadataJson(meta)) == meta <==> FiniteMetadata(meta)
  {
    ImagesSurvive(meta);
  }

  lemma TvShowKind(meta: MediaMetadata)
    requires meta.TvShow?
    ensures
      var v := MetadataJson(meta);
      && v.U64At("metadataType") == Some(2)
  {
  }

  lemma TvShowTexts(meta: MediaMetadata)
    requires meta.TvShow?
    ensures
      var v := MetadataJson(meta);
      && v.StrAt("seriesTitle") == meta.seriesTitle
      && StrAtEither(v, "episodeTitle", "title") == meta.episodeTitle
  {
  }

  lemma TvShowNumbers(meta: MediaMetadata)
    requires meta.TvShow?
    ensures
      var v := MetadataJson(meta);
      && v.U32At("season") == meta.season
      && v.U32At("episode") == meta.episode
  {
  }

  lemma TvShowRoundTrip(meta: MediaMetadata)
    requires meta.TvShow?
    ensures ParseMetadata(MetadataJson(meta)) == meta <==> FiniteMetadata(meta)
  {
    ImagesSurvive(meta);
    TvShowKind(meta);
    TvShowTexts(meta);
    TvShowNumbers(meta);
  }

  lemma MusicTrackKind(meta: MediaMetadata)
    requires meta.MusicTrack?
    ensures MetadataJson(meta).U64At("metadataType") == Some(3)
  {
  }

  lemma MusicTrackTitle(meta: MediaMetadata)
    requires meta.MusicTrack?
    ensures MetadataJson(meta).StrAt("title") == meta.title
  {
  }

  lemma MusicTrackArtist(meta: MediaMetadata)
    requires meta.MusicTrack?
    ensures StrAtEither(MetadataJson(meta), "artist", "albumArtist") == meta.artist
  {
  }

  lemma MusicTrackTexts(meta: MediaMetadata)
    requires meta.MusicTrack?
    ensures
      var v := MetadataJson(meta);
      && v.StrAt("albumName") == meta.albumName
      && v.StrAt("composer") == meta.composer
  {
  }

  lemma MusicTrackNumbers(meta: MediaMetadata)
    requires meta.MusicTrack?
    ensures
      var v := MetadataJson(meta);
      && v.U32At("trackNumber") == meta.trackNumber
      && v.U32At("discNumber") == meta.discNumber
  {
  }

  lemma MusicTrackRoundTrip(meta: MediaMetadata)
    requires meta.MusicTrack?
    ensures ParseMetadata(MetadataJson(meta)) == meta <==> FiniteMetadata(meta)
  {
    ImagesSurvive(meta);
    MusicTrackKind(meta);
    MusicTrackTitle(meta);
    MusicTrackArtist(meta);
    MusicTrackTexts(meta);
    MusicTrackNumbers(meta);
  }

  lemma PhotoKind(meta: MediaMetadata)
    requires meta.Photo?
    ensures MetadataJson(meta).U64At("metadataType") == Some(4)
  {
  }

  lemma PhotoTitle(meta: MediaMetadata)
    requires meta.Photo?
    ensures MetadataJson(meta).StrAt("title") == meta.title
  {
  }

  lemma PhotoArtist(meta: MediaMetadata)
    requires meta.Photo?
    ensures MetadataJson(meta).StrAt("artist") == meta.artist
  {
  }

  lemma PhotoLocation(meta: MediaMetadata)
    requires meta.Photo?
    ensures MetadataJson(meta).StrAt("location") == meta.location
  {
  }

  lemma PhotoLatitude(meta: MediaMetadata)
    requires meta.Photo?
    ensures Floats(MetadataJson(meta).F64At("latitude")) == meta.latitude <==> IsFinite(meta.latitude)
  {
  }

  lemma PhotoLongitude(meta: MediaMetadata)
    requires meta.Photo?
    ensures Floats(MetadataJson(meta).F64At("longitude")) == meta.longitude <==> IsFinite(meta.longitude)
  {
  }

  lemma PhotoSizes(meta: MediaMetadata)
    requires meta.Photo?
    ensures
      var v := MetadataJson(meta);
      && v.U32At("width") == meta.width
      && v.U32At("height") == meta.height
  {
  }

  lemma PhotoRoundTrip(meta: MediaMetadata)
    requires meta.Photo?
    ensures ParseMetadata(MetadataJson(meta)) == meta <==> FiniteMetadata(meta)
  {
    ImagesSurvive(meta);
    PhotoKind(meta);
    PhotoTitle(meta);
    PhotoArtist(meta);
    PhotoLocation(meta);
    PhotoLatitude(meta);
    PhotoLongitude(meta);
    PhotoSizes(meta);
  }

  lemma AudiobookChapterKind(meta: MediaMetadata)
    requires meta.AudiobookChapter?
    ensures
      var v := MetadataJson(meta);
      && v.U64At("metadataType") == Some(5)
  {
  }

  lemma AudiobookChapterFields(meta: MediaMetadata)
    requires meta.AudiobookChapter?
    ensures
      var v := MetadataJson(meta);
      && v.StrAt("bookTitle") == meta.bookTitle
      && v.StrAt("chapterTitle") == meta.chapterTitle
      && v.StrAt("subtitle") == meta.subtitle
  {
  }

  lemma AudiobookChapterNumber(meta: MediaMetadata)
    requires meta.AudiobookChapter?
    ensures MetadataJson(meta).U32At("chapterNumber") == meta.chapterNumber
  {
  }

  lemma AudiobookChapterRoundTrip(meta: MediaMetadata)
    requires meta.AudiobookChapter?
    ensures ParseMetadata(MetadataJson(meta)) == meta <==> FiniteMetadata(meta)
  {
    ImagesSurvive(meta);
    AudiobookChapterKind(meta);
    AudiobookChapterFields(meta);
    AudiobookChapterNumber(meta);
  }

  /** For all six variants and any image list, parsing what was written gives the metadata back exactly
      when its floats are finite. */
  lemma MetadataRoundTrip(meta: MediaMetadata)
    ensures ParseMetadata(MetadataJson(meta)) == meta <==> FiniteMetadata(meta)
  {
    match meta
    case Generic(_, _, _) => GenericRoundTrip(meta);
    case Movie(_, _, _, _) => MovieRoundTrip(meta);
    case TvShow(_, _, _, _, _) => TvShowRoundTrip(meta);
    case MusicTrack(_, _, _, _, _, _, _) => MusicTrackRoundTrip(meta);
    case Photo(_, _, _, _, _, _, _, _) => PhotoRoundTrip(meta);
    case AudiobookChapter(_, _, _, _, _) => AudiobookChapterRoundTrip(meta);
  }

  predicate Representable(media: MediaInfo) {
    && (media.duration.Some? ==> media.duration.value.Finite? && media.duration.value.value > 0.0)
    && (media.metadata.Some? ==> FiniteMetadata(media.metadata.value))
  }

  lemma MediaFields(media: MediaInfo)
    ensures
      var v := MediaJson(media);
      && v.StrAt("contentId") == Some(media.contentId)
      && v.StrAt("contentType") == Some(media.contentType)
      && v.StrAt("streamType") == Some(StreamTypeName(media.streamType))
  {
  }

  lemma MediaDuration(media: MediaInfo)
    ensures
      Floats(PositiveAt(MediaJson(media), "duration")) == media.duration
      <==> (media.duration.Some? ==> media.duration.value.Finite? && media.duration.value.value > 0.0)
  {
  }

  lemma MediaMetadataField(media: MediaInfo)
    ensures
      MediaJson(media).Get("metadata")
      == (match media.metadata case Some(meta) => Some(MetadataJson(meta)) case None => None)
  {
  }

  /** What the parser makes of a media with these fields. */
  function ParsedMedia(v: Value, media: MediaInfo): MediaInfo {
    media.(duration := Floats(PositiveAt(v, "duration")),
           metadata := match media.metadata
                       case Some(meta) => Some(ParseMetadata(MetadataJson(meta)))
                       case None => None)
  }

  lemma FieldsAreParsed(v: Value, media: MediaInfo)
    requires v.StrAt("contentId") == Some(media.contentId) && v.StrAt("contentType") == Some(media.contentType)
    requires v.StrAt("streamType") == Some(StreamTypeName(media.streamType))
    requires v.Get("metadata") == match media.metadata case Some(meta) => Some(MetadataJson(meta)) case None => None
    ensures ParseMedia(v) == Some(ParsedMedia(v, media))
  {
  }

  lemma ParseOfMediaJson(media: MediaInfo)
    ensures ParseMedia(MediaJson(media)) == Some(ParsedMedia(MediaJson(media), media))
  {
    MediaFields(media);
    MediaMetadataField(media);
    FieldsAreParsed(MediaJson(media), media);
  }

  /** A whole `MediaInfo` comes back exactly when its duration is absent or finite and positive and its
      metadata is finite. */
  lemma MediaRoundTrip(media: MediaInfo)
    ensures ParseMedia(MediaJson(media)) == Some(media) <==> Representable(media)
  {
    ParseOfMediaJson(media);
    MediaDuration(media);
    if media.metadata.Some? {
      MetadataRoundTrip(media.metadata.value);
    }
  }

  lemma ParsedMetadataIsFinite(v: Value)
    ensures FiniteMetadata(ParseMetadata(v))
  {
  }

  /** Parse, serialize, parse again: the same as parsing once, for every JSON value. */
  lemma ParseSerializeParse(v: Value)
    ensures ParseMedia(v).Some? ==> ParseMedia(MediaJson(ParseMedia(v).value)) == ParseMedia(v)
  {
    if ParseMedia(v).Some? {
      if v.Get("metadata").Some? {
        ParsedMetadataIsFinite(v.Get("metadata").value);
      }
      MediaRoundTrip(ParseMedia(v).value);
    }
  }

  /** Two representable media with the same JSON are the same media. */
  lemma MediaJsonIsInjective(a: MediaInfo, b: MediaInfo)
    requires Representable(a) && Representable(b) && MediaJson(a) == MediaJson(b)
    ensures a == b
  {
    MediaRoundTrip(a);
    MediaRoundTrip(b);
  }

  lemma LoadFields(
      requestId: u32, sessionId: string, media: MediaInfo, autoplay: bool, currentTime: F64, customData: Option<Value>)
    ensures
      var p := LoadPayload(requestId, sessionId, media, autoplay, currentTime, customData);
      && p.Get("type") == Some(Str("LOAD"))
      && p.Get("sessionId") == Some(Str(sessionId))
      && p.Get("autoplay") == Some(Bool(autoplay))
      && p.Get("currentTime") == Some(FromF64(currentTime))
      && p.Get("customData") == Some(if customData.Some? then customData.value else Obj(map[]))
  {
  }

  /** A LOAD request carries everything it was built from: its media exactly when that is representable, its start
      time exactly when that is finite, and an empty object where there is no custom data. */
  lemma LoadCarriesMedia(
      requestId: u32, sessionId: string, media: MediaInfo, autoplay: bool, currentTime: F64, customData: Option<Value>)
    ensures
      var p := LoadPayload(requestId, sessionId, media, autoplay, currentTime, customData);
      && p.StrAt("type") == Some("LOAD")
      && p.U64At("requestId") == Some(requestId)
      && p.StrAt("sessionId") == Some(sessionId)
      && p.BoolAt("autoplay", !autoplay) == autoplay
      && (Floats(p.F64At("currentTime")) == Some(currentTime) <==> currentTime.Finite?)
      && p.Get("customData") == Some(if customData.Some? then customData.value else Obj(map[]))
      && p.Get("media").Some?
      && (ParseMedia(p.Get("media").value) == Some(media) <==> Representable(media))
  {
    MediaRoundTrip(media);
    LoadFields(requestId, sessionId, media, autoplay, currentTime, customData);
    var p := LoadPayload(requestId, sessionId, media, autoplay, currentTime, customData);
    assert p.Get("requestId") == Some(FromU32(requestId));
    assert p.Get("media") == Some(MediaJson(media));
  }

  /** So does a queue item, beside its flag and start time. */
  lemma QueueItemCarriesMedia(item: QueueItem)
    ensures
      var v := QueueItemJson(item);
      && v.Get("media").Some?
      && (ParseMedia(v.Get("media").value) == Some(item.media) <==> Representable(item.media))
      && v.Get("autoplay") == Some(Bool(item.autoplay))
      && (Floats(v.F64At("startTime")) == Some(item.startTime) <==> item.startTime.Finite?)
  {
    MediaRoundTrip(item.media);
    assert QueueItemJson(item).Get("media") == Some(MediaJson(item.media));
  }
}
