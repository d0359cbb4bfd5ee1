/**
 Wire framing: a 4-byte big-endian length before each encoded message.  The reader and the writer work
 in place on a byte stream and a byte sink, both of which may fail; `reader_loop` and `writer_loop` run
 until the first error or their cancellation.
 */
module Framing {
  import opened Wrappers
  import opened Proto

  const MAX_FRAME := 65_536

  datatype Error = Disconnected | ZeroLength | TooLarge | Io | Protobuf(error: DecodeError)

  /** What a stream reports once its bytes are used up: its end, or another I/O error. */
  datatype End = Eof | Broken

  function EndError(end: End): Error { if end.Eof? then Disconnected else Io }

  function BigEndian(n: nat): (r: Bytes)
    requires n < 0x1_0000_0000
    ensures |r| == 4
  {
    var high: nat, upper: nat, lower: nat := n / 0x100_0000, n / 0x1_0000, n / 0x100;
    assert high < 0x100;
    [high, upper % 0x100, lower % 0x100, n % 0x100]
  }

  function FromBigEndian(b: Bytes): nat
    requires |b| == 4
  {
    var b0: nat, b1: nat, b2: nat, b3: nat := b[0], b[1], b[2], b[3];
    b0 * 0x100_0000 + b1 * 0x1_0000 + b2 * 0x100 + b3
  }

  lemma BigEndianRoundTrip(n: nat)
    requires n < 0x1_0000_0000
    ensures FromBigEndian(BigEndian(n)) == n
  {
    assert n / 0x100 == (n / 0x1_0000) * 0x100 + n / 0x100 % 0x100;
    assert n / 0x1_0000 == (n / 0x100_0000) * 0x100 + n / 0x1_0000 % 0x100;
  }

  /** The most significant byte comes first. */
  lemma BigEndianIsMostSignificantFirst(n: nat)
    requires n < 0x1_0000_0000
    ensures
      var b := BigEndian(n);
      var b0: nat, b1: nat, b2: nat, b3: nat := b[0], b[1], b[2], b[3];
      n == 0x100 * (0x100 * (0x100 * b0 + b1) + b2) + b3
  {
    BigEndianRoundTrip(n);
  }

  /** The message codec, a parameter of the framing layer: `CastCodec` below is the real one. */
  datatype Codec = Codec(encode: CastMessage -> Bytes, decode: Bytes -> Result<CastMessage, DecodeError>)
  {
    /** `m` survives the codec, and its encoding is neither empty nor too long for the prefix. */
    predicate Carries(m: CastMessage) {
      decode(encode(m)) == Ok(m) && 0 < |encode(m)| < 0x1_0000_0000
    }

    /** Fits in a frame. */
    predicate Sendable(m: CastMessage) { Carries(m) && |encode(m)| <= MAX_FRAME }
  }

  function CastCodec(utf8: Utf8): Codec { Codec(m => Encode(m), bs => Decode(utf8, bs)) }

  /** The protobuf codec carries every message whose strings are valid and whose encoding is under 4 GB. */
  lemma CastCodecCarries(utf8: Utf8, m: CastMessage)
    requires Valid(utf8, m) && |Encode(m)| < 0x1_0000_0000
    ensures CastCodec(utf8).Carries(m)
  {
    MessageRoundTrip(utf8, m);
    EncodingIsNotEmpty(m);
  }

  /** What one frame read from `bs` yields, and what it leaves unread. */
  function ReadFrame(codec: Codec, bs: Bytes, end: End): (Result<CastMessage, Error>, Bytes) {
    if |bs| < 4 then (Err(EndError(end)), []) else
    var len := FromBigEndian(bs[..4]);
    if len == 0 then (Err(ZeroLength), bs[4..])
    else if len > MAX_FRAME then (Err(TooLarge), bs[4..])
    else if |bs| < 4 + len then (Err(EndError(end)), [])
    else
      match codec.decode(bs[4..4 + len])
      case Ok(m) => (Ok(m), bs[4 + len..])
      case Err(e) => (Err(Protobuf(e)), bs[4 + len..])
  }

  /** The messages read until the first error, and that error. */
  function ReadAll(codec: Codec, bs: Bytes, end: End): (seq<CastMessage>, Error)
    decreases |bs|
  {
    var (r, rest) := ReadFrame(codec, bs, end);
    match r
    case Err(e) => ([], e)
    case Ok(m) => var (more, e) := ReadAll(codec, rest, end); ([m] + more, e)
  }

  function Frame(codec: Codec, m: CastMessage): Bytes
    requires |codec.encode(m)| < 0x1_0000_0000
  {
    BigEndian(|codec.encode(m)|) + codec.encode(m)
  }

  /** What a length prefix of `n` leads to, whatever follows: 0 and too long are refused at once, a body that is cut off
      ends the stream, and a whole one is decoded. */
  lemma EveryPrefixIsJudged(codec: Codec, n: nat, rest: Bytes, end: End)
    requires n < 0x1_0000_0000
    ensures
      ReadFrame(codec, BigEndian(n) + rest, end)
      == if n == 0 then (Err(ZeroLength), rest)
         else if n > MAX_FRAME then (Err(TooLarge), rest)
         else if |rest| < n then (Err(if end.Eof? then Disconnected else Io), [])
         else (match codec.decode(rest[..n]) case Ok(m) => Ok(m) case Err(e) => Err(Protobuf(e)), rest[n..])
  {
    var bs := BigEndian(n) + rest;
    BigEndianRoundTrip(n);
    assert bs[..4] == BigEndian(n) && bs[4..] == rest;
    if n <= |rest| {
      assert bs[4..4 + n] == rest[..n] && bs[4 + n..] == rest[n..];
    }
  }

  // ── The reader and the writer ────────────────────────────────

  /** The read half of a connection that delivers `data` and then reports `end`. */
  class ByteStream {
    const data: Bytes
    const end: End
    var pos: nat

    ghost predicate Valid()
      reads this
    {
      pos <= |data|
    }

    ghost function Rest(): Bytes
      reads this
      requires Valid()
    {
      data[pos..]
    }

    constructor (data: Bytes, end: End)
      ensures Valid() && Rest() == data && this.end == end
    {
      this.data, this.end, pos := data, end, 0;
      new;
      assert data[0..] == data;
    }

    /** `read_exact`: all `n` bytes, or the rest is consumed and the end of the stream reported. */
    method ReadExact(n: nat) returns (buf: Option<Bytes>)
      requires Valid()
      modifies this`pos
      ensures Valid()
      ensures buf == if n <= |old(Rest())| then Some(old(Rest())[..n]) else None
      ensures Rest() == if n <= |old(Rest())| then old(Rest())[n..] else []
    {
      if pos + n <= |data| {
        assert data[pos..pos + n] == data[pos..][..n];
        buf := Some(data[pos..pos + n]);
        pos := pos + n;
      } else {
        buf := None;
        pos := |data|;
      }
    }
  }

  /** How a sink refuses bytes: the peer has gone, or another I/O error. */
  datatype Fault = BrokenPipe | OtherFault

  function FaultError(fault: Fault): Error { if fault.BrokenPipe? then Disconnected else Io }

  /** The write half of a connection that takes `limit` bytes in all, if any limit, before it fails. */
  class ByteSink {
    var data: Bytes
    const limit: Option<nat>
    const fault: Fault
    const flushes: bool

    ghost predicate Valid()
      reads this
    {
      limit.Some? ==> |data| <= limit.value
    }

    constructor (limit: Option<nat>, fault: Fault, flushes: bool)
      ensures Valid() && data == [] && this.limit == limit && this.fault == fault && this.flushes == flushes
    {
      this.data, this.limit, this.fault, this.flushes := [], limit, fault, flushes;
    }

    predicate Takes(n: nat)
      reads this
    {
      limit.Some? ==> |data| + n <= limit.value
    }

    /** `write_all`: all of `buf`, or as much of it as is taken before the fault. */
    method WriteAll(buf: Bytes) returns (ok: bool)
      requires Valid()
      modifies this`data
      ensures Valid() && ok == old(Takes(|buf|))
      ensures old(data) <= data <= old(data) + buf
      ensures ok ==> data == old(data) + buf
      ensures !ok ==> data < old(data) + buf
    {
      ok := Takes(|buf|);
      if ok {
        data := data + buf;
      } else {
        data := data + buf[..limit.value - |data|];
      }
    }
  }

  method ReadMessage(codec: Codec, reader: ByteStream) returns (r: Result<CastMessage, Error>)
    requires reader.Valid()
    modifies reader`pos
    ensures reader.Valid()
    ensures (r, reader.Rest()) == ReadFrame(codec, old(reader.Rest()), reader.end)
  {
    var lenBuf := reader.ReadExact(4);
    if lenBuf.None? {
      return Err(if reader.end.Eof? then Disconnected else Io);
    }
    var len := FromBigEndian(lenBuf.value);
    if len == 0 {
      return Err(ZeroLength);
    }
    if len > MAX_FRAME {
      return Err(TooLarge);
    }
    ghost var unread := old(reader.Rest());
    assert reader.Rest() == unread[4..];
    var buf := reader.ReadExact(len);
    if buf.None? {
      return Err(if reader.end.Eof? then Disconnected else Io);
    }
    assert buf.value == unread[4..4 + len] && reader.Rest() == unread[4 + len..];
    match codec.decode(buf.value) {
      case Ok(m) => r := Ok(m);
      case Err(e) => r := Err(Protobuf(e));
    }
  }

  /** Why a task's loop ended. */
  datatype Exit = Cancelled | ChannelClosed | Failed(error: Error)

  /** The reader task's loop: every decoded message is routed; the first error ends it, and so does the
      cancellation, which here comes after `cancelAfter` messages. */
  method ReaderLoop(codec: Codec, reader: ByteStream, cancelAfter: Option<nat>)
    returns (routed: seq<CastMessage>, exit: Exit)
    requires reader.Valid()
    modifies reader`pos
    ensures
      var (all, error) := ReadAll(codec, old(reader.Rest()), reader.end);
      if cancelAfter.Some? && cancelAfter.value <= |all|
      then routed == all[..cancelAfter.value] && exit == Cancelled
      else routed == all && exit == Failed(error)
  {
    routed := [];
    ghost var all := ReadAll(codec, old(reader.Rest()), reader.end);
    while true
      invariant reader.Valid()
      invariant routed + ReadAll(codec, reader.Rest(), reader.end).0 == all.0
      invariant ReadAll(codec, reader.Rest(), reader.end).1 == all.1
      invariant cancelAfter.Some? ==> |routed| <= cancelAfter.value
      decreases |reader.Rest()|
    {
      if cancelAfter == Some(|routed|) {
        assert all.0[..|routed|] == routed;
        return routed, Cancelled;
      }
      ghost var unread := reader.Rest();
      var r := ReadMessage(codec, reader);
      match r {
        case Ok(m) =>
          Regroup(routed, [m], ReadAll(codec, reader.Rest(), reader.end).0);
          routed := routed + [m];
        case Err(e) =>
          assert routed + [] == routed;
          return routed, Failed(e);
      }
    }
  }

  method WriteMessage(codec: Codec, writer: ByteSink, m: CastMessage) returns (r: Result<(), Error>)
    requires writer.Valid()
    modifies writer`data
    ensures writer.Valid()
    ensures |codec.encode(m)| > MAX_FRAME ==> r == Err(TooLarge) && writer.data == old(writer.data)
    ensures |codec.encode(m)| <= MAX_FRAME ==>
              && old(writer.data) <= writer.data <= old(writer.data) + Frame(codec, m)
              && r == (if !old(writer.Takes(|Frame(codec, m)|)) then Err(FaultError(writer.fault))
                       else if !writer.flushes then Err(Io) else Ok(()))
              && (writer.data == old(writer.data) + Frame(codec, m) <==> old(writer.Takes(|Frame(codec, m)|)))
  {
    var encoded := codec.encode(m);
    if |encoded| > MAX_FRAME {
      return Err(TooLarge);
    }
    var buf := BigEndian(|encoded|);
    buf := buf + encoded;
    var ok := writer.WriteAll(buf);
    if !ok {
      return Err(if writer.fault.BrokenPipe? then Disconnected else Io);
    }
    r := if writer.flushes then Ok(()) else Err(Io);
  }

  // ── Round trip over prefixes of the stream ───────────────────

  /** A frame is read back exactly when the writer would have sent it. */
  lemma FrameRoundTrip(codec: Codec, m: CastMessage, rest: Bytes, end: End)
    requires codec.Carries(m)
    ensures ReadFrame(codec, Frame(codec, m) + rest, end) == (Ok(m), rest) <==> |codec.encode(m)| <= MAX_FRAME
  {
    var bs := Frame(codec, m) + rest;
    BigEndianRoundTrip(|codec.encode(m)|);
    assert bs[..4] == BigEndian(|codec.encode(m)|);
    assert bs[4..4 + |codec.encode(m)|] == codec.encode(m);
    assert bs[4 + |codec.encode(m)|..] == rest;
  }

  /** A frame cut short reads as the end of the stream: a closed connection, or its I/O error. */
  lemma CutFrameDisconnects(codec: Codec, m: CastMessage, n: nat, end: End)
    requires codec.Sendable(m) && n < |Frame(codec, m)|
    ensures ReadFrame(codec, Frame(codec, m)[..n], end).0 == Err(EndError(end))
  {
    BigEndianRoundTrip(|codec.encode(m)|);
    if n >= 4 {
      assert Frame(codec, m)[..n][..4] == BigEndian(|codec.encode(m)|);
    }
  }

  ghost predicate AllSendable(codec: Codec, ms: seq<CastMessage>) {
    forall i :: 0 <= i < |ms| ==> codec.Sendable(ms[i])
  }

  function Frames(codec: Codec, ms: seq<CastMessage>): Bytes
    requires AllSendable(codec, ms)
  {
    if ms == [] then [] else Frame(codec, ms[0]) + Frames(codec, ms[1..])
  }

  /** The first `k` frames are exactly those that lie wholly in the first `n` bytes. */
  ghost predicate WhollyWithin(codec: Codec, ms: seq<CastMessage>, k: nat, n: nat)
    requires AllSendable(codec, ms)
  {
    && k <= |ms|
    && |Frames(codec, ms[..k])| <= n
    && (k < |ms| ==> n < |Frames(codec, ms[..k + 1])|)
  }

  lemma FramesOfPrefix(codec: Codec, ms: seq<CastMessage>, k: nat)
    requires AllSendable(codec, ms) && 0 < k <= |ms|
    ensures Frames(codec, ms[..k]) == Frame(codec, ms[0]) + Frames(codec, ms[1..][..k - 1])
  {
    assert ms[..k][1..] == ms[1..][..k - 1];
  }

  lemma DropFirst(codec: Codec, ms: seq<CastMessage>, k: nat, n: nat)
    requires AllSendable(codec, ms) && 0 < k <= |ms| && n >= |Frame(codec, ms[0])|
    ensures WhollyWithin(codec, ms, k, n) <==> WhollyWithin(codec, ms[1..], k - 1, n - |Frame(codec, ms[0])|)
  {
    FramesOfPrefix(codec, ms, k);
    if k < |ms| {
      FramesOfPrefix(codec, ms, k + 1);
    }
  }

  lemma NoFrameFits(codec: Codec, ms: seq<CastMessage>, n: nat)
    requires AllSendable(codec, ms) && ms != []
    ensures WhollyWithin(codec, ms, 0, n) <==> n < |Frame(codec, ms[0])|
  {
    FramesOfPrefix(codec, ms, 1);
    assert ms[1..][..0] == [] && ms[..0] == [];
  }

  /** Reading any prefix of the concatenated frames yields exactly the messages whose frames lie wholly in
      the prefix, and then how the stream ended: `Disconnected` at its end. */
  lemma {:induction false} PrefixRoundTrip(codec: Codec, ms: seq<CastMessage>, k: nat, n: nat, end: End)
    requires AllSendable(codec, ms) && n <= |Frames(codec, ms)| && WhollyWithin(codec, ms, k, n)
    ensures ReadAll(codec, Frames(codec, ms)[..n], end) == (ms[..k], EndError(end))
    decreases |ms|
  {
    if ms == [] {
      assert Frames(codec, ms)[..n] == [];
    } else if k == 0 {
      CutFirstFrame(codec, ms, n, end);
    } else {
      FramesOfPrefix(codec, ms, k);
      DropFirst(codec, ms, k, n);
      PrefixRoundTrip(codec, ms[1..], k - 1, n - |Frame(codec, ms[0])|, end);
      ThenTheRest(codec, ms, k, n, end);
    }
  }

  lemma ThenTheRest(codec: Codec, ms: seq<CastMessage>, k: nat, n: nat, end: End)
    requires AllSendable(codec, ms) && 0 < k <= |ms| && |Frame(codec, ms[0])| <= n <= |Frames(codec, ms)|
    requires
      var rest := Frames(codec, ms[1..])[..n - |Frame(codec, ms[0])|];
      ReadAll(codec, rest, end) == (ms[1..][..k - 1], EndError(end))
    ensures ReadAll(codec, Frames(codec, ms)[..n], end) == (ms[..k], EndError(end))
  {
    var rest := Frames(codec, ms[1..])[..n - |Frame(codec, ms[0])|];
    FirstFrameReads(codec, ms, n, end);
    ReadAllFromOk(codec, Frames(codec, ms)[..n], ms[0], rest, ms[1..][..k - 1], end);
    assert ms[..k] == [ms[0]] + ms[1..][..k - 1];
  }

  lemma CutFirstFrame(codec: Codec, ms: seq<CastMessage>, n: nat, end: End)
    requires AllSendable(codec, ms) && ms != [] && n <= |Frames(codec, ms)| && WhollyWithin(codec, ms, 0, n)
    ensures ReadAll(codec, Frames(codec, ms)[..n], end) == ([], EndError(end))
  {
    NoFrameFits(codec, ms, n);
    TakeWithin(Frame(codec, ms[0]), Frames(codec, ms[1..]), n);
    assert codec.Sendable(ms[0]);
    CutFrameDisconnects(codec, ms[0], n, end);
  }

  lemma FirstFrameReads(codec: Codec, ms: seq<CastMessage>, n: nat, end: End)
    requires AllSendable(codec, ms) && ms != [] && |Frame(codec, ms[0])| <= n <= |Frames(codec, ms)|
    ensures
      ReadFrame(codec, Frames(codec, ms)[..n], end)
      == (Ok(ms[0]), Frames(codec, ms[1..])[..n - |Frame(codec, ms[0])|])
  {
    var head, tail := Frame(codec, ms[0]), Frames(codec, ms[1..]);
    var rest := tail[..n - |head|];
    assert Frames(codec, ms)[..n] == head + rest by {
      TakeBeyond(head, tail, n);
    }
    assert codec.Sendable(ms[0]);
    SentFrameReads(codec, ms[0], rest, end);
  }

  lemma SentFrameReads(codec: Codec, m: CastMessage, rest: Bytes, end: End)
    requires codec.Sendable(m)
    ensures ReadFrame(codec, Frame(codec, m) + rest, end) == (Ok(m), rest)
  {
    FrameRoundTrip(codec, m, rest, end);
  }

  lemma TakeBeyond(head: Bytes, tail: Bytes, n: nat)
    requires |head| <= n <= |head| + |tail|
    ensures (head + tail)[..n] == head + tail[..n - |head|]
  {
  }

  lemma TakeWithin(head: Bytes, tail: Bytes, n: nat)
    requires n <= |head|
    ensures (head + tail)[..n] == head[..n]
  {
  }

  lemma ReadAllFromOk(codec: Codec, bs: Bytes, m: CastMessage, rest: Bytes, ms: seq<CastMessage>, end: End)
    requires ReadFrame(codec, bs, end) == (Ok(m), rest) && |rest| < |bs|
    requires ReadAll(codec, rest, end) == (ms, EndError(end))
    ensures ReadAll(codec, bs, end) == ([m] + ms, EndError(end))
  {
  }

  /** Some number of frames always lies wholly within a prefix. */
  lemma {:induction false} PrefixSplits(codec: Codec, ms: seq<CastMessage>, n: nat) returns (k: nat)
    requires AllSendable(codec, ms) && n <= |Frames(codec, ms)|
    ensures WhollyWithin(codec, ms, k, n)
    decreases |ms|
  {
    if ms == [] {
      k := 0;
    } else if n < |Frame(codec, ms[0])| {
      k := 0;
      NoFrameFits(codec, ms, n);
    } else {
      var j := PrefixSplits(codec, ms[1..], n - |Frame(codec, ms[0])|);
      k := j + 1;
      DropFirst(codec, ms, k, n);
    }
  }

  /** The stream determines the messages: two lists with the same frames are the same list. */
  lemma StreamIsUnambiguous(codec: Codec, ms: seq<CastMessage>, ns: seq<CastMessage>)
    requires AllSendable(codec, ms) && AllSendable(codec, ns) && Frames(codec, ms) == Frames(codec, ns)
    ensures ms == ns
  {
    var n := |Frames(codec, ms)|;
    assert ms[..|ms|] == ms && ns[..|ns|] == ns;
    PrefixRoundTrip(codec, ms, |ms|, n, Eof);
    PrefixRoundTrip(codec, ns, |ns|, n, Eof);
    assert Frames(codec, ms)[..n] == Frames(codec, ms);
  }

  /** The theorem for the protobuf codec: any list of messages each encoding to at most 65,536 bytes, cut
      off anywhere. */
  lemma StreamRoundTrip(utf8: Utf8, ms: seq<CastMessage>, n: nat, end: End) returns (k: nat)
    requires forall i :: 0 <= i < |ms| ==> Valid(utf8, ms[i]) && |Encode(ms[i])| <= MAX_FRAME
    ensures AllSendable(CastCodec(utf8), ms)
    ensures
      var codec := CastCodec(utf8);
      n <= |Frames(codec, ms)| ==>
        WhollyWithin(codec, ms, k, n) && ReadAll(codec, Frames(codec, ms)[..n], end) == (ms[..k], EndError(end))
  {
    var codec := CastCodec(utf8);
    forall i | 0 <= i < |ms|
      ensures codec.Sendable(ms[i])
    {
      CastCodecCarries(utf8, ms[i]);
    }
    k := 0;
    if n <= |Frames(codec, ms)| {
      k := PrefixSplits(codec, ms, n);
      PrefixRoundTrip(codec, ms, k, n, end);
    }
  }

  // ── The writer loop against the reader ───────────────────────

  /** Every reader of `bytes`, however the stream ends, gets exactly `ms`. */
  ghost predicate ReadsBack(codec: Codec, bytes: Bytes, ms: seq<CastMessage>) {
    forall end :: ReadsAs(codec, bytes, ms, end)
  }

  /** A reader of `bytes` gets exactly `ms` and then the end of the stream. */
  predicate ReadsAs(codec: Codec, bytes: Bytes, ms: seq<CastMessage>, end: End) {
    ReadAll(codec, bytes, end) == (ms, EndError(end))
  }

  lemma {:induction false} FramesGrow(codec: Codec, ms: seq<CastMessage>, m: CastMessage)
    requires AllSendable(codec, ms) && codec.Sendable(m)
    ensures AllSendable(codec, ms + [m]) && Frames(codec, ms + [m]) == Frames(codec, ms) + Frame(codec, m)
    decreases |ms|
  {
    if ms == [] {
      assert ms + [m] == [m] && [m][1..] == [];
    } else {
      assert (ms + [m])[0] == ms[0] && (ms + [m])[1..] == ms[1..] + [m];
      FramesGrow(codec, ms[1..], m);
      Regroup(Frame(codec, ms[0]), Frames(codec, ms[1..]), Frame(codec, m));
    }
  }

  lemma WholeFramesRead(codec: Codec, ms: seq<CastMessage>)
    requires AllSendable(codec, ms)
    ensures ReadsBack(codec, Frames(codec, ms), ms)
  {
    var n := |Frames(codec, ms)|;
    forall end
      ensures ReadsAs(codec, Frames(codec, ms), ms, end)
    {
      assert ms[..|ms|] == ms && Frames(codec, ms)[..n] == Frames(codec, ms);
      PrefixRoundTrip(codec, ms, |ms|, n, end);
    }
  }

  /** A frame torn by a fault reads as the messages before it. */
  lemma TornFrameReads(codec: Codec, ms: seq<CastMessage>, m: CastMessage, torn: Bytes)
    requires AllSendable(codec, ms) && codec.Sendable(m) && torn < Frame(codec, m)
    ensures ReadsBack(codec, Frames(codec, ms) + torn, ms)
  {
    FramesGrow(codec, ms, m);
    var all := ms + [m];
    var n := |Frames(codec, ms)| + |torn|;
    assert all[..|ms|] == ms && all[..|ms| + 1] == all;
    assert Frames(codec, all)[..n] == Frames(codec, ms) + torn;
    forall end
      ensures ReadsAs(codec, Frames(codec, ms) + torn, ms, end)
    {
      PrefixRoundTrip(codec, all, |ms|, n, end);
    }
  }

  /** The writer task's loop over the messages of its channel, cancelled, if at all, after `cancelAfter` of them.
      Whatever ends it, a reader of what it wrote gets exactly the first `written` messages, and no error but
      the end of the stream. */
  method WriterLoop(codec: Codec, writer: ByteSink, queue: seq<CastMessage>, cancelAfter: Option<nat>)
    returns (written: nat, exit: Exit)
    requires writer.Valid() && writer.data == []
    requires forall i :: 0 <= i < |queue| ==> codec.Carries(queue[i])
    modifies writer`data
    ensures written <= |queue| && ReadsBack(codec, writer.data, queue[..written])
    ensures exit.ChannelClosed? ==> written == |queue|
    ensures exit.Cancelled? ==> cancelAfter == Some(written)
    ensures exit == Failed(TooLarge) ==> written < |queue| && |codec.encode(queue[written])| > MAX_FRAME
    ensures exit.Failed? && exit != Failed(TooLarge) ==> writer.limit.Some? || !writer.flushes
  {
    written := 0;
    assert queue[..0] == [];
    while written < |queue|
      invariant written <= |queue| && writer.Valid() && AllSendable(codec, queue[..written])
      invariant writer.data == Frames(codec, queue[..written])
    {
      WholeFramesRead(codec, queue[..written]);
      if cancelAfter == Some(written) {
        return written, Cancelled;
      }
      var m := queue[written];
      ghost var sent := queue[..written];
      assert queue[..written + 1] == sent + [m];
      var before := |writer.data|;
      var r := WriteMessage(codec, writer, m);
      if |codec.encode(m)| <= MAX_FRAME {
        assert codec.Sendable(m);
        FramesGrow(codec, sent, m);
        WholeFramesRead(codec, sent + [m]);
      }
      match r {
        case Err(e) =>
          if |codec.encode(m)| <= MAX_FRAME {
            if |writer.data| == before + 4 + |codec.encode(m)| {
              written := written + 1;
            } else {
              ghost var torn := writer.data[|Frames(codec, sent)|..];
              assert writer.data == Frames(codec, sent) + torn;
              TornFrameReads(codec, sent, m, torn);
            }
          }
          return written, Failed(e);
        case Ok(_) => written := written + 1;
      }
    }
    WholeFramesRead(codec, queue);
    assert queue[..written] == queue;
    exit := ChannelClosed;
  }
}
