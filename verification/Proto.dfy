/**
 The protobuf codec for `CastMessage`: varints, tag and wire-type keys and length-delimited fields, as
 the "Encoding" page of the Protocol Buffers documentation defines them, for the tags of the schema.
 Strings are byte strings; UTF-8 validity is a parameter.
 */
module Proto {
  import opened Wrappers
  import opened Json

  type byte = b: nat | b < 256

  type Bytes = seq<byte>

  type Utf8 = Bytes -> bool

  datatype CastMessage = CastMessage(
    protocolVersion: i32,
    sourceId: Bytes,
    destinationId: Bytes,
    namespace: Bytes,
    payloadType: i32,
    payloadUtf8: Option<Bytes>,
    payloadBinary: Option<Bytes>,
    continued: Option<bool>,
    remainingLength: Option<u32>)

  const DEFAULT := CastMessage(0, [], [], [], 0, None, None, None, None)

  datatype DecodeError =
    InvalidVarint | InvalidKey | WrongWireType | Underflow | InvalidUtf8 | UnexpectedEndGroup | TooDeep

  // ── Varints ──────────────────────────────────────────────────

  const U64 := 0x1_0000_0000_0000_0000

  function EncodeVarint(n: nat): Bytes {
    if n < 128 then [n] else [n % 128 + 128] + EncodeVarint(n / 128)
  }

  /** One past the largest value that fits when `count` bytes have already been read. */
  function Bound(count: nat): nat
    decreases 9 - count
  {
    if count >= 9 then 2 else 128 * Bound(count + 1)
  }

  /** At most ten bytes, and the tenth may only hold one bit.  Returns the value and the bytes used. */
  function DecodeVarintFrom(bs: Bytes, count: nat): (r: Result<(nat, nat), DecodeError>)
    ensures r.Ok? ==> 0 < r.value.1 <= |bs|
    decreases |bs|
  {
    if bs == [] || count >= 10 then Err(InvalidVarint)
    else if bs[0] < 128 then
      if count == 9 && bs[0] >= 2 then Err(InvalidVarint) else Ok((bs[0], 1))
    else
      match DecodeVarintFrom(bs[1..], count + 1)
      case Ok((v, used)) => Ok((bs[0] - 128 + 128 * v, used + 1))
      case Err(e) => Err(e)
  }

  function DecodeVarint(bs: Bytes): (r: Result<(nat, nat), DecodeError>)
    ensures r.Ok? ==> 0 < r.value.1 <= |bs|
  {
    DecodeVarintFrom(bs, 0)
  }

  lemma {:induction false} VarintRoundTripFrom(n: nat, count: nat, rest: Bytes)
    requires count <= 9 && n < Bound(count)
    ensures DecodeVarintFrom(EncodeVarint(n) + rest, count) == Ok((n, |EncodeVarint(n)|))
    decreases n
  {
    var bs := EncodeVarint(n) + rest;
    if n >= 128 {
      VarintRoundTripFrom(n / 128, count + 1, rest);
      assert bs[1..] == EncodeVarint(n / 128) + rest;
    }
  }

  lemma BoundIsU64()
    ensures Bound(0) == U64
  {
    assert Bound(8) == 256;
    assert Bound(6) == 256 * 128 * 128;
    assert Bound(4) == 256 * 128 * 128 * 128 * 128;
    assert Bound(2) == 256 * 128 * 128 * 128 * 128 * 128 * 128;
  }

  /** Every u64 comes back from its varint, whatever follows it. */
  lemma VarintRoundTrip(n: nat, rest: Bytes)
    requires n < U64
    ensures DecodeVarint(EncodeVarint(n) + rest) == Ok((n, |EncodeVarint(n)|))
  {
    BoundIsU64();
    VarintRoundTripFrom(n, 0, rest);
  }

  lemma {:induction false} BoundIsPositive(count: nat)
    ensures Bound(count) >= 2
    decreases 9 - count
  {
    if count < 9 {
      BoundIsPositive(count + 1);
    }
  }

  lemma {:induction false} DecodedVarintFits(bs: Bytes, count: nat)
    requires DecodeVarintFrom(bs, count).Ok?
    ensures DecodeVarintFrom(bs, count).value.0 < Bound(count) && count < 10
    decreases |bs|
  {
    BoundIsPositive(count);
    if bs[0] >= 128 {
      DecodedVarintFits(bs[1..], count + 1);
    } else if count < 9 {
      BoundIsPositive(count + 1);
    }
  }

  // ── Encoding ─────────────────────────────────────────────────

  /** `as u64` of an i32: sign extension. */
  function SignExtend(i: i32): nat { if i < 0 then i + U64 else i }

  /** `as i32` of a u64. */
  function Narrow(v: nat): i32 { (v + 0x8000_0000) % 0x1_0000_0000 - 0x8000_0000 }

  predicate IsVarintTag(tag: nat) { tag == 1 || tag == 5 || tag == 8 || tag == 9 }

  predicate IsTextTag(tag: nat) { tag == 2 || tag == 3 || tag == 4 || tag == 6 }

  function VarintOf(m: CastMessage, tag: nat): Option<nat> {
    if tag == 1 then Some(SignExtend(m.protocolVersion))
    else if tag == 5 then Some(SignExtend(m.payloadType))
    else if tag == 8 && m.continued.Some? then Some(if m.continued.value then 1 else 0)
    else if tag == 9 && m.remainingLength.Some? then Some(m.remainingLength.value)
    else None
  }

  function BytesOf(m: CastMessage, tag: nat): Option<Bytes> {
    if tag == 2 then Some(m.sourceId)
    else if tag == 3 then Some(m.destinationId)
    else if tag == 4 then Some(m.namespace)
    else if tag == 6 then m.payloadUtf8
    else if tag == 7 then m.payloadBinary
    else None
  }

  function EncodeField(m: CastMessage, tag: nat): Bytes {
    if IsVarintTag(tag) then
      match VarintOf(m, tag) case Some(v) => EncodeVarint(tag * 8) + EncodeVarint(v) case None => []
    else
      match BytesOf(m, tag) case Some(b) => EncodeVarint(tag * 8 + 2) + (EncodeVarint(|b|) + b) case None => []
  }

  /** The fields from `tag` on, in tag order. */
  function EncodeFrom(m: CastMessage, tag: nat): Bytes
    decreases 10 - tag
  {
    if tag > 9 then [] else EncodeField(m, tag) + EncodeFrom(m, tag + 1)
  }

  function Encode(m: CastMessage): Bytes { EncodeFrom(m, 1) }

  // ── Decoding ─────────────────────────────────────────────────

  function SetVarint(m: CastMessage, tag: nat, v: nat): CastMessage {
    if tag == 1 then m.(protocolVersion := Narrow(v))
    else if tag == 5 then m.(payloadType := Narrow(v))
    else if tag == 8 then m.(continued := Some(v != 0))
    else m.(remainingLength := Some(v % 0x1_0000_0000))
  }

  function SetBytes(m: CastMessage, tag: nat, b: Bytes): CastMessage {
    if tag == 2 then m.(sourceId := b)
    else if tag == 3 then m.(destinationId := b)
    else if tag == 4 then m.(namespace := b)
    else if tag == 6 then m.(payloadUtf8 := Some(b))
    else m.(payloadBinary := Some(b))
  }

  /** A key: tag, wire type and the bytes used. */
  function DecodeKey(bs: Bytes): (r: Result<(nat, nat, nat), DecodeError>)
    ensures r.Ok? ==> 0 < r.value.2 <= |bs|
  {
    match DecodeVarint(bs)
    case Err(e) => Err(e)
    case Ok((key, used)) =>
      if key >= 0x1_0000_0000 || key % 8 > 5 || key / 8 == 0 then Err(InvalidKey) else Ok((key / 8, key % 8, used))
  }

  function DecodeLength(bs: Bytes): (r: Result<(nat, nat), DecodeError>)
    ensures r.Ok? ==> 0 < r.value.1 && r.value.1 + r.value.0 <= |bs|
  {
    match DecodeVarint(bs)
    case Err(e) => Err(e)
    case Ok((n, used)) => if n > |bs| - used then Err(Underflow) else Ok((n, used))
  }

  /** Bytes taken by an unknown field's value; groups nest at most `depth` deep. */
  function Skip(wire: nat, tag: nat, bs: Bytes, depth: nat): (r: Result<nat, DecodeError>)
    ensures r.Ok? ==> r.value <= |bs|
    decreases depth, |bs| + 1, 0
  {
    if depth == 0 then Err(TooDeep)
    else if wire == 0 then (match DecodeVarint(bs) case Ok((_, used)) => Ok(used) case Err(e) => Err(e))
    else if wire == 1 then if |bs| < 8 then Err(Underflow) else Ok(8)
    else if wire == 5 then if |bs| < 4 then Err(Underflow) else Ok(4)
    else if wire == 2 then (match DecodeLength(bs) case Ok((n, used)) => Ok(used + n) case Err(e) => Err(e))
    else if wire == 3 then SkipGroup(tag, bs, depth)
    else Err(UnexpectedEndGroup)
  }

  /** One field of a group, or its end: whether it is the end, and the bytes it takes. */
  function GroupField(tag: nat, bs: Bytes, depth: nat): (r: Result<(bool, nat), DecodeError>)
    requires depth > 0
    ensures r.Ok? ==> 0 < r.value.1 <= |bs|
    decreases depth, |bs|, 0
  {
    match DecodeKey(bs)
    case Err(e) => Err(e)
    case Ok((inner, wire, used)) =>
      if wire == 4 then if inner == tag then Ok((true, used)) else Err(UnexpectedEndGroup)
      else match Skip(wire, inner, bs[used..], depth - 1) case Ok(n) => Ok((false, used + n)) case Err(e) => Err(e)
  }

  function SkipGroup(tag: nat, bs: Bytes, depth: nat): (r: Result<nat, DecodeError>)
    requires depth > 0
    ensures r.Ok? ==> r.value <= |bs|
    decreases depth, |bs|, 1
  {
    match GroupField(tag, bs, depth)
    case Err(e) => Err(e)
    case Ok((ends, used)) =>
      if ends then Ok(used)
      else match SkipGroup(tag, bs[used..], depth) case Ok(k) => Ok(used + k) case Err(e) => Err(e)
  }

  /** One field: the bytes used and the message with the field set; unknown fields are skipped. */
  function DecodeField(utf8: Utf8, bs: Bytes, m: CastMessage): (r: Result<(nat, CastMessage), DecodeError>)
    ensures r.Ok? ==> 0 < r.value.0 <= |bs|
  {
    match DecodeKey(bs)
    case Err(e) => Err(e)
    case Ok((tag, wire, used)) =>
      var body := bs[used..];
      if IsVarintTag(tag) then
        if wire != 0 then Err(WrongWireType) else
        match DecodeVarint(body)
        case Err(e) => Err(e)
        case Ok((v, n)) => Ok((used + n, SetVarint(m, tag, v)))
      else if IsTextTag(tag) || tag == 7 then
        if wire != 2 then Err(WrongWireType) else
        match DecodeLength(body)
        case Err(e) => Err(e)
        case Ok((len, n)) =>
          var b := body[n..n + len];
          if IsTextTag(tag) && !utf8(b) then Err(InvalidUtf8) else Ok((used + n + len, SetBytes(m, tag, b)))
      else
        match Skip(wire, tag, body, 100)
        case Err(e) => Err(e)
        case Ok(n) => Ok((used + n, m))
  }

  /** Fields in any order; the last value of a field wins. */
  function DecodeInto(utf8: Utf8, bs: Bytes, m: CastMessage): Result<CastMessage, DecodeError>
    decreases |bs|
  {
    if bs == [] then Ok(m) else
    match DecodeField(utf8, bs, m)
    case Err(e) => Err(e)
    case Ok((used, n)) => DecodeInto(utf8, bs[used..], n)
  }

  function Decode(utf8: Utf8, bs: Bytes): Result<CastMessage, DecodeError> { DecodeInto(utf8, bs, DEFAULT) }

  // ── Round trip ───────────────────────────────────────────────

  /** What Rust's `String` guarantees. */
  predicate Valid(utf8: Utf8, m: CastMessage) {
    && utf8(m.sourceId) && utf8(m.destinationId) && utf8(m.namespace)
    && (m.payloadUtf8.Some? ==> utf8(m.payloadUtf8.value))
  }

  lemma KeyDecodes(tag: nat, wire: nat, body: Bytes)
    requires 1 <= tag <= 9 && wire <= 5
    ensures
      var key := EncodeVarint(tag * 8 + wire);
      DecodeKey(key + body) == Ok((tag, wire, |key|)) && (key + body)[|key|..] == body
  {
    VarintRoundTrip(tag * 8 + wire, body);
  }

  lemma LengthDecodes(b: Bytes, rest: Bytes)
    requires |b| < U64
    ensures
      var len := EncodeVarint(|b|);
      var body := len + (b + rest);
      && DecodeLength(body) == Ok((|b|, |len|))
      && body[|len|..|len| + |b|] == b && body[|len| + |b|..] == rest
  {
    VarintRoundTrip(|b|, b + rest);
  }

  lemma VarintFieldDecodes(utf8: Utf8, tag: nat, v: nat, rest: Bytes, m: CastMessage)
    requires IsVarintTag(tag) && v < U64
    ensures
      var field := EncodeVarint(tag * 8) + EncodeVarint(v);
      DecodeField(utf8, field + rest, m) == Ok((|field|, SetVarint(m, tag, v)))
  {
    Regroup(EncodeVarint(tag * 8), EncodeVarint(v), rest);
    KeyDecodes(tag, 0, EncodeVarint(v) + rest);
    VarintRoundTrip(v, rest);
  }

  lemma BytesFieldDecodes(utf8: Utf8, tag: nat, b: Bytes, rest: Bytes, m: CastMessage)
    requires (IsTextTag(tag) && utf8(b)) || tag == 7
    requires |b| < U64
    ensures
      var field := EncodeVarint(tag * 8 + 2) + (EncodeVarint(|b|) + b);
      DecodeField(utf8, field + rest, m) == Ok((|field|, SetBytes(m, tag, b)))
  {
    Regroup(EncodeVarint(tag * 8 + 2), EncodeVarint(|b|) + b, rest);
    Regroup(EncodeVarint(|b|), b, rest);
    KeyDecodes(tag, 2, EncodeVarint(|b|) + (b + rest));
    LengthDecodes(b, rest);
  }

  lemma FirstFieldDecodes(utf8: Utf8, field: Bytes, rest: Bytes, m: CastMessage, n: CastMessage)
    requires field != [] && DecodeField(utf8, field + rest, m) == Ok((|field|, n))
    ensures DecodeInto(utf8, field + rest, m) == DecodeInto(utf8, rest, n)
  {
    assert (field + rest)[|field|..] == rest;
  }

  /** `m` with the fields from `tag` on still at their defaults. */
  function Prefix(m: CastMessage, tag: nat): CastMessage {
    CastMessage(
      if tag > 1 then m.protocolVersion else 0,
      if tag > 2 then m.sourceId else [],
      if tag > 3 then m.destinationId else [],
      if tag > 4 then m.namespace else [],
      if tag > 5 then m.payloadType else 0,
      if tag > 6 then m.payloadUtf8 else None,
      if tag > 7 then m.payloadBinary else None,
      if tag > 8 then m.continued else None,
      if tag > 9 then m.remainingLength else None)
  }

  lemma SettingExtendsPrefix(m: CastMessage, tag: nat)
    requires 1 <= tag <= 9
    ensures VarintOf(m, tag).Some? ==> SetVarint(Prefix(m, tag), tag, VarintOf(m, tag).value) == Prefix(m, tag + 1)
    ensures BytesOf(m, tag).Some? ==> SetBytes(Prefix(m, tag), tag, BytesOf(m, tag).value) == Prefix(m, tag + 1)
    ensures VarintOf(m, tag).None? && BytesOf(m, tag).None? ==> Prefix(m, tag) == Prefix(m, tag + 1)
  {
  }

  lemma FieldDecodes(utf8: Utf8, m: CastMessage, tag: nat, rest: Bytes)
    requires Valid(utf8, m) && 1 <= tag <= 9 && |EncodeField(m, tag)| < U64
    ensures
      DecodeInto(utf8, EncodeField(m, tag) + rest, Prefix(m, tag)) == DecodeInto(utf8, rest, Prefix(m, tag + 1))
  {
    SettingExtendsPrefix(m, tag);
    if EncodeField(m, tag) == [] {
      assert EncodeField(m, tag) + rest == rest;
    } else {
      if IsVarintTag(tag) {
        VarintFieldDecodes(utf8, tag, VarintOf(m, tag).value, rest, Prefix(m, tag));
      } else {
        BytesFieldDecodes(utf8, tag, BytesOf(m, tag).value, rest, Prefix(m, tag));
      }
      FirstFieldDecodes(utf8, EncodeField(m, tag), rest, Prefix(m, tag), Prefix(m, tag + 1));
    }
  }

  lemma {:induction false} FieldsDecode(utf8: Utf8, m: CastMessage, tag: nat)
    requires Valid(utf8, m) && 1 <= tag <= 10 && |EncodeFrom(m, tag)| < U64
    ensures DecodeInto(utf8, EncodeFrom(m, tag), Prefix(m, tag)) == Ok(m)
    decreases 10 - tag
  {
    if tag == 10 {
      assert Prefix(m, 10) == m;
    } else {
      FieldDecodes(utf8, m, tag, EncodeFrom(m, tag + 1));
      FieldsDecode(utf8, m, tag + 1);
    }
  }

  /** Every message comes back from its encoding. */
  lemma MessageRoundTrip(utf8: Utf8, m: CastMessage)
    requires Valid(utf8, m) && |Encode(m)| < U64
    ensures Decode(utf8, Encode(m)) == Ok(m)
  {
    assert Prefix(m, 1) == DEFAULT;
    FieldsDecode(utf8, m, 1);
  }

  lemma EncodingIsNotEmpty(m: CastMessage)
    ensures |Encode(m)| > 0
  {
    assert EncodeField(m, 1) != [];
  }

  // ── The bytes on the wire ────────────────────────────────────

  /** `n` shifted right by `7 * k` bits. */
  function Shift(n: nat, k: nat): nat {
    if k == 0 then n else Shift(n / 128, k - 1)
  }

  /** Byte `i` of a varint holds the `i`th group of seven bits, the least significant group first, and a continuation
      bit exactly if another byte follows. */
  lemma {:induction false} VarintLayout(n: nat, i: nat)
    requires i < |EncodeVarint(n)|
    ensures EncodeVarint(n)[i] % 128 == Shift(n, i) % 128
    ensures EncodeVarint(n)[i] >= 128 <==> i < |EncodeVarint(n)| - 1
    decreases n
  {
    if n >= 128 && i > 0 {
      VarintLayout(n / 128, i - 1);
    }
  }

  function Delimited(b: Bytes): Bytes { EncodeVarint(|b|) + b }

  function OptionalBytes(key: byte, b: Option<Bytes>): Bytes {
    match b case Some(x) => [key] + Delimited(x) case None => []
  }

  /** The encoding, byte by byte: the five required fields under their keys, then the optional ones that are there. */
  function Wire(m: CastMessage): Bytes {
    [0x08] + EncodeVarint(SignExtend(m.protocolVersion))
    + ([0x12] + Delimited(m.sourceId)
    + ([0x1A] + Delimited(m.destinationId)
    + ([0x22] + Delimited(m.namespace)
    + ([0x28] + EncodeVarint(SignExtend(m.payloadType))
    + (OptionalBytes(0x32, m.payloadUtf8)
    + (OptionalBytes(0x3A, m.payloadBinary)
    + ((match m.continued case Some(b) => [0x40, if b then 1 else 0] case None => [])
    + (match m.remainingLength case Some(n) => [0x48] + EncodeVarint(n) case None => []))))))))
  }

  lemma FieldOnWire(m: CastMessage, tag: nat)
    requires 1 <= tag <= 9
    ensures tag == 1 ==> EncodeField(m, tag) == [0x08] + EncodeVarint(SignExtend(m.protocolVersion))
    ensures tag == 2 ==> EncodeField(m, tag) == [0x12] + Delimited(m.sourceId)
    ensures tag == 3 ==> EncodeField(m, tag) == [0x1A] + Delimited(m.destinationId)
    ensures tag == 4 ==> EncodeField(m, tag) == [0x22] + Delimited(m.namespace)
    ensures tag == 5 ==> EncodeField(m, tag) == [0x28] + EncodeVarint(SignExtend(m.payloadType))
    ensures tag == 6 ==> EncodeField(m, tag) == OptionalBytes(0x32, m.payloadUtf8)
    ensures tag == 7 ==> EncodeField(m, tag) == OptionalBytes(0x3A, m.payloadBinary)
    ensures tag == 8 ==>
              EncodeField(m, tag) == match m.continued case Some(b) => [0x40, if b then 1 else 0] case None => []
    ensures tag == 9 ==>
              EncodeField(m, tag) == match m.remainingLength case Some(n) => [0x48] + EncodeVarint(n) case None => []
  {
  }

  lemma NextOnWire(m: CastMessage, tag: nat)
    requires 1 <= tag <= 9
    ensures EncodeFrom(m, tag) == EncodeField(m, tag) + EncodeFrom(m, tag + 1)
  {
  }

  /** What is written is exactly that. */
  lemma WireLayout(m: CastMessage)
    ensures Encode(m) == Wire(m)
  {
    FieldOnWire(m, 1);
    FieldOnWire(m, 2);
    FieldOnWire(m, 3);
    FieldOnWire(m, 4);
    FieldOnWire(m, 5);
    FieldOnWire(m, 6);
    FieldOnWire(m, 7);
    FieldOnWire(m, 8);
    FieldOnWire(m, 9);
    NextOnWire(m, 1);
    NextOnWire(m, 2);
    NextOnWire(m, 3);
    NextOnWire(m, 4);
    NextOnWire(m, 5);
    NextOnWire(m, 6);
    NextOnWire(m, 7);
    NextOnWire(m, 8);
    NextOnWire(m, 9);
    assert EncodeFrom(m, 10) == [];
    assert EncodeFrom(m, 9) == EncodeField(m, 9);
  }

  // ── Fields in any order ──────────────────────────────────────

  lemma {:induction false} VarintExtends(bs: Bytes, more: Bytes, count: nat)
    requires DecodeVarintFrom(bs, count).Ok?
    ensures DecodeVarintFrom(bs + more, count) == DecodeVarintFrom(bs, count)
    decreases |bs|
  {
    if bs[0] >= 128 {
      VarintExtends(bs[1..], more, count + 1);
      assert (bs + more)[1..] == bs[1..] + more;
    }
  }

  lemma {:induction false} KeyExtends(bs: Bytes, more: Bytes)
    requires DecodeKey(bs).Ok?
    ensures DecodeKey(bs + more) == DecodeKey(bs)
  {
    VarintExtends(bs, more, 0);
  }

  lemma {:induction false} LengthExtends(bs: Bytes, more: Bytes)
    requires DecodeLength(bs).Ok?
    ensures DecodeLength(bs + more) == DecodeLength(bs)
  {
    VarintExtends(bs, more, 0);
  }

  lemma {:induction false} SkipExtends(wire: nat, tag: nat, bs: Bytes, depth: nat, more: Bytes)
    requires Skip(wire, tag, bs, depth).Ok?
    ensures Skip(wire, tag, bs + more, depth) == Skip(wire, tag, bs, depth)
    decreases depth, |bs| + 1, 0
  {
    if wire == 0 {
      VarintExtends(bs, more, 0);
    } else if wire == 2 {
      LengthExtends(bs, more);
    } else if wire == 3 {
      SkipGroupExtends(tag, bs, depth, more);
    }
  }

  lemma {:induction false} GroupFieldExtends(tag: nat, bs: Bytes, depth: nat, more: Bytes)
    requires depth > 0 && GroupField(tag, bs, depth).Ok?
    ensures GroupField(tag, bs + more, depth) == GroupField(tag, bs, depth)
    decreases depth, |bs|, 0
  {
    KeyExtends(bs, more);
    var (inner, wire, used) := DecodeKey(bs).value;
    if wire != 4 {
      SkipExtends(wire, inner, bs[used..], depth - 1, more);
      assert (bs + more)[used..] == bs[used..] + more;
    }
  }

  lemma {:induction false} SkipGroupExtends(tag: nat, bs: Bytes, depth: nat, more: Bytes)
    requires depth > 0 && SkipGroup(tag, bs, depth).Ok?
    ensures SkipGroup(tag, bs + more, depth) == SkipGroup(tag, bs, depth)
    decreases depth, |bs|, 1
  {
    GroupFieldExtends(tag, bs, depth, more);
    var (ends, used) := GroupField(tag, bs, depth).value;
    if !ends {
      SkipGroupExtends(tag, bs[used..], depth, more);
      assert (bs + more)[used..] == bs[used..] + more;
    }
  }

  /** The value of a field does not depend on what follows it. */
  lemma {:induction false} VarintValueExtends(body: Bytes, more: Bytes)
    requires DecodeVarint(body).Ok?
    ensures DecodeVarint(body + more) == DecodeVarint(body)
  {
    VarintExtends(body, more, 0);
  }

  lemma {:induction false} BytesValueExtends(body: Bytes, more: Bytes)
    requires DecodeLength(body).Ok?
    ensures DecodeLength(body + more) == DecodeLength(body)
    ensures var (len, n) := DecodeLength(body).value; (body + more)[n..n + len] == body[n..n + len]
  {
    LengthExtends(body, more);
  }

  lemma {:induction false} FieldExtends(utf8: Utf8, bs: Bytes, more: Bytes, m: CastMessage)
    requires DecodeField(utf8, bs, m).Ok?
    ensures DecodeField(utf8, bs + more, m) == DecodeField(utf8, bs, m)
  {
    KeyExtends(bs, more);
    var (tag, wire, used) := DecodeKey(bs).value;
    var body := bs[used..];
    assert (bs + more)[used..] == body + more;
    if IsVarintTag(tag) {
      VarintValueExtends(body, more);
    } else if IsTextTag(tag) || tag == 7 {
      BytesValueExtends(body, more);
    } else {
      SkipExtends(wire, tag, body, 100, more);
    }
  }

  /** Decoding a concatenation is decoding the parts in turn, later fields overriding earlier ones: so fields may come
      in any order and any split, and a message may be sent as a base and its changes. */
  lemma {:induction false} DecodingConcatenates(utf8: Utf8, a: Bytes, b: Bytes, m: CastMessage)
    requires DecodeInto(utf8, a, m).Ok?
    ensures DecodeInto(utf8, a + b, m) == DecodeInto(utf8, b, DecodeInto(utf8, a, m).value)
    decreases |a|
  {
    if a == [] {
      assert a + b == b;
    } else {
      FieldExtends(utf8, a, b, m);
      var (used, n) := DecodeField(utf8, a, m).value;
      assert (a + b)[used..] == a[used..] + b;
      DecodingConcatenates(utf8, a[used..], b, n);
    }
  }

  /** A field the schema does not know, of any type, groups included. */
  predicate IsUnknownField(bs: Bytes) {
    && DecodeKey(bs).Ok?
    && var (tag, wire, used) := DecodeKey(bs).value;
       tag > 9 && Skip(wire, tag, bs[used..], 100) == Ok(|bs| - used)
  }

  lemma {:induction false} UnknownFieldDecodes(utf8: Utf8, field: Bytes, m: CastMessage)
    requires IsUnknownField(field)
    ensures DecodeField(utf8, field, m) == Ok((|field|, m)) && field != []
  {
  }

  lemma {:induction false} SkippedFirst(utf8: Utf8, field: Bytes, b: Bytes, m: CastMessage)
    requires IsUnknownField(field)
    ensures DecodeInto(utf8, field + b, m) == DecodeInto(utf8, b, m)
  {
    UnknownFieldDecodes(utf8, field, m);
    FieldExtends(utf8, field, b, m);
    FirstFieldDecodes(utf8, field, b, m, m);
  }

  /** Unknown fields are skipped wherever they stand. */
  lemma {:induction false} UnknownFieldIsSkipped(utf8: Utf8, a: Bytes, field: Bytes, b: Bytes, m: CastMessage)
    requires DecodeInto(utf8, a, m).Ok? && IsUnknownField(field)
    ensures DecodeInto(utf8, a + (field + b), m) == DecodeInto(utf8, a + b, m)
  {
    DecodingConcatenates(utf8, a, field + b, m);
    DecodingConcatenates(utf8, a, b, m);
    SkippedFirst(utf8, field, b, DecodeInto(utf8, a, m).value);
  }
}
