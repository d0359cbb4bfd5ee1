/** The data types of `types.rs`. */
module Types {
  import opened Wrappers
  import opened Json

  datatype Volume = Volume(level: real, muted: bool)

  datatype StreamType = Unspecified | Buffered | Live

  datatype PlayerState = Idle | Playing | Paused | Buffering

  datatype IdleReason = Cancelled | Interrupted | Finished | Error

  datatype Image = Image(url: string, width: Option<u32>, height: Option<u32>)

  datatype MediaMetadata =
    | Generic(title: Option<string>, subtitle: Option<string>, images: seq<Image>)
    | Movie(title: Option<string>, subtitle: Option<string>, studio: Option<string>, images: seq<Image>)
    | TvShow(seriesTitle: Option<string>, episodeTitle: Option<string>, season: Option<u32>, episode: Option<u32>,
             images: seq<Image>)
    | MusicTrack(title: Option<string>, artist: Option<string>, albumName: Option<string>, composer: Option<string>,
                 trackNumber: Option<u32>, discNumber: Option<u32>, images: seq<Image>)
    | Photo(title: Option<string>, artist: Option<string>, location: Option<string>,
            latitude: Option<F64>, longitude: Option<F64>, width: Option<u32>, height: Option<u32>, images: seq<Image>)
    | AudiobookChapter(bookTitle: Option<string>, chapterTitle: Option<string>, chapterNumber: Option<u32>,
                       subtitle: Option<string>, images: seq<Image>)

  datatype MediaInfo = MediaInfo(
    contentId: string, contentType: string, streamType: StreamType, duration: Option<F64>,
    metadata: Option<MediaMetadata>)

  datatype QueueItem = QueueItem(media: MediaInfo, autoplay: bool, startTime: F64)

  datatype MediaStatus = MediaStatus(
    mediaSessionId: i32, playerState: PlayerState, idleReason: Option<IdleReason>, currentTime: real,
    duration: Option<real>, volume: Volume, media: Option<MediaInfo>)

  datatype Application = Application(
    appId: string, displayName: string, sessionId: string, transportId: string, namespaces: seq<string>,
    statusText: string)

  datatype ReceiverStatus = ReceiverStatus(
    volume: Volume, applications: seq<Application>, isActiveInput: bool, isStandBy: bool)
}
