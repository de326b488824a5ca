/** The twelve-byte message header on the wire (src/remote/message_protocol.rs). */
module HeaderCodec {
  import opened Common

  newtype u8 = x: int | 0 <= x < 0x100
  newtype u16 = x: int | 0 <= x < 0x1_0000
  newtype u32 = x: int | 0 <= x < 0x1_0000_0000

  const SIZE: nat := 12

  datatype MessageType = Tell | Ask | Response

  const GENERIC_ACTOR: u8 := 1
  const COMPRESSED: u8 := 2
  const PRIORITY: u8 := 4
  const EXTENDED_HEADER: u8 := 8

  const ALL_FLAGS: u8 := GENERIC_ACTOR + COMPRESSED + PRIORITY + EXTENDED_HEADER

  /** Any combination of the four flags. */
  type MessageFlags = bits: u8 | bits <= ALL_FLAGS

  datatype Header = Header(msgType: MessageType, correlationId: u16, flags: MessageFlags, typeHash: u32, reserved: u32)

  datatype HeaderError = InvalidSize | InvalidMessageType | InvalidFlags | Io

  datatype Result<T> = Ok(value: T) | Err(error: HeaderError)

  function TypeByte(t: MessageType): u8 {
    match t
    case Tell => 0
    case Ask => 1
    case Response => 2
  }

  function TypeFromByte(b: u8): Option<MessageType> {
    if b == 0 then Some(Tell) else if b == 1 then Some(Ask) else if b == 2 then Some(Response) else None
  }

  function FlagsFromBits(b: u8): Option<MessageFlags> {
    if b <= ALL_FLAGS then Some(b) else None
  }

  // ---------- Big-endian numbers ----------

  function Bytes16(x: u16): (bytes: seq<u8>)
    ensures |bytes| == 2
  {
    [(x / 256) as u8, (x % 256) as u8]
  }

  function From16(bytes: seq<u8>): u16
    requires |bytes| == 2
  {
    bytes[0] as u16 * 256 + bytes[1] as u16
  }

  function Bytes32(x: u32): (bytes: seq<u8>)
    ensures |bytes| == 4
  {
    [(x / 0x100_0000) as u8, (x / 0x1_0000 % 256) as u8, (x / 0x100 % 256) as u8, (x % 256) as u8]
  }

  function From32(bytes: seq<u8>): u32
    requires |bytes| == 4
  {
    bytes[0] as u32 * 0x100_0000 + bytes[1] as u32 * 0x1_0000 + bytes[2] as u32 * 0x100 + bytes[3] as u32
  }

  lemma RoundTrip16(x: u16)
    ensures From16(Bytes16(x)) == x
  {
  }

  lemma RoundTripBytes16(bytes: seq<u8>)
    requires |bytes| == 2
    ensures Bytes16(From16(bytes)) == bytes
  {
  }

  lemma RoundTrip32(x: u32)
    ensures From32(Bytes32(x)) == x
  {
    var n := x as int;
    assert n == n / 0x100 * 0x100 + n % 256;
    assert n / 0x100 == n / 0x1_0000 * 0x100 + n / 0x100 % 256;
    assert n / 0x1_0000 == n / 0x100_0000 * 0x100 + n / 0x1_0000 % 256;
  }

  /** Digits are recovered one at a time. */
  lemma LastDigit(high: int, low: int)
    requires 0 <= low < 256
    ensures (high * 256 + low) / 256 == high && (high * 256 + low) % 256 == low
  {
  }

  lemma RoundTripBytes32(bytes: seq<u8>)
    requires |bytes| == 4
    ensures Bytes32(From32(bytes)) == bytes
  {
    var b0, b1, b2, b3 := bytes[0] as int, bytes[1] as int, bytes[2] as int, bytes[3] as int;
    var n := From32(bytes) as int;
    assert n == ((b0 * 256 + b1) * 256 + b2) * 256 + b3;
    LastDigit((b0 * 256 + b1) * 256 + b2, b3);
    LastDigit(b0 * 256 + b1, b2);
    LastDigit(b0, b1);
    assert n / 0x100 == (b0 * 256 + b1) * 256 + b2;
    assert n / 0x1_0000 == n / 0x100 / 256 == b0 * 256 + b1;
    assert n / 0x100_0000 == n / 0x1_0000 / 256 == b0;
  }

  // ---------- Headers ----------

  function Encode(h: Header): (bytes: seq<u8>)
    ensures |bytes| == SIZE
  {
    [TypeByte(h.msgType)] + Bytes16(h.correlationId) + [h.flags] + Bytes32(h.typeHash) + Bytes32(h.reserved)
  }

  function Decode(bytes: seq<u8>): Result<Header> {
    if |bytes| < SIZE then Err(InvalidSize)
    else
      match TypeFromByte(bytes[0])
      case None => Err(InvalidMessageType)
      case Some(msgType) =>
        match FlagsFromBits(bytes[3])
        case None => Err(InvalidFlags)
        case Some(flags) => Ok(Header(msgType, From16(bytes[1..3]), flags, From32(bytes[4..8]), From32(bytes[8..12])))
  }

  lemma EncodedParts(h: Header, rest: seq<u8>)
    ensures var bytes := Encode(h) + rest;
      && bytes[0] == TypeByte(h.msgType) && bytes[3] == h.flags
      && bytes[1..3] == Bytes16(h.correlationId)
      && bytes[4..8] == Bytes32(h.typeHash)
      && bytes[8..12] == Bytes32(h.reserved)
      && bytes[12..] == rest
  {
  }

  /** Decoding an encoded header gives it back, whatever bytes follow. */
  lemma DecodeEncode(h: Header, rest: seq<u8>)
    ensures Decode(Encode(h) + rest) == Ok(h)
  {
    EncodedParts(h, rest);
    RoundTrip16(h.correlationId);
    RoundTrip32(h.typeHash);
    RoundTrip32(h.reserved);
    hide Encode, Bytes16, Bytes32, From16, From32;
  }

  /** Any accepted bytes are the encoding of what they decode to. */
  lemma EncodeDecode(bytes: seq<u8>)
    requires Decode(bytes).Ok?
    ensures Encode(Decode(bytes).value) == bytes[..SIZE]
  {
    RoundTripBytes16(bytes[1..3]);
    RoundTripBytes32(bytes[4..8]);
    RoundTripBytes32(bytes[8..12]);
    hide Bytes16, Bytes32, From16, From32;
    assert bytes[..SIZE] == [bytes[0]] + bytes[1..3] + [bytes[3]] + bytes[4..8] + bytes[8..12];
  }

  /** Exactly which bytes are accepted, and which error comes first otherwise. */
  lemma AcceptedExactly(bytes: seq<u8>)
    ensures Decode(bytes).Ok? <==> |bytes| >= SIZE && bytes[0] < 3 && bytes[3] < 16
    ensures Decode(bytes) == Err(InvalidSize) <==> |bytes| < SIZE
    ensures Decode(bytes) == Err(InvalidMessageType) <==> |bytes| >= SIZE && bytes[0] >= 3
    ensures Decode(bytes) == Err(InvalidFlags) <==> |bytes| >= SIZE && bytes[0] < 3 && bytes[3] >= 16
    ensures Decode(bytes).Ok? <==> exists h :: |bytes| >= SIZE && bytes[..SIZE] == Encode(h)
  {
    if Decode(bytes).Ok? {
      EncodeDecode(bytes);
    }
    if h :| |bytes| >= SIZE && bytes[..SIZE] == Encode(h) {
      DecodeEncode(h, bytes[SIZE..]);
      assert bytes == Encode(h) + bytes[SIZE..];
    }
  }

  /** Headers that differ are encoded differently, even as prefixes of longer messages. */
  lemma EncodeIsInjective(h: Header, h1: Header, rest: seq<u8>, rest1: seq<u8>)
    requires Encode(h) + rest == Encode(h1) + rest1
    ensures h == h1 && rest == rest1
  {
    DecodeEncode(h, rest);
    DecodeEncode(h1, rest1);
    assert rest == (Encode(h) + rest)[SIZE..] && rest1 == (Encode(h1) + rest1)[SIZE..];
  }

  /** The layout on the wire: the type's byte, then each number with its most significant byte first. */
  lemma {:induction false} WireLayout(h: Header)
    ensures var bytes := Encode(h);
      && bytes[0] == (match h.msgType case Tell => 0 case Ask => 1 case Response => 2)
      && bytes[1] as int * 0x100 + bytes[2] as int == h.correlationId as int
      && bytes[3] == h.flags
      && bytes[4] as int * 0x100_0000 + bytes[5] as int * 0x1_0000 + bytes[6] as int * 0x100 + bytes[7] as int
         == h.typeHash as int
      && bytes[8] as int * 0x100_0000 + bytes[9] as int * 0x1_0000 + bytes[10] as int * 0x100 + bytes[11] as int
         == h.reserved as int
  {
    EncodedParts(h, []);
    DigitsOf(h.typeHash);
    DigitsOf(h.reserved);
    var bytes := Encode(h) + [];
    assert bytes == Encode(h);
    assert bytes[4..8][0] == bytes[4] && bytes[4..8][1] == bytes[5];
    assert bytes[4..8][2] == bytes[6] && bytes[4..8][3] == bytes[7];
    assert bytes[8..12][0] == bytes[8] && bytes[8..12][1] == bytes[9];
    assert bytes[8..12][2] == bytes[10] && bytes[8..12][3] == bytes[11];
    assert bytes[1..3][0] == bytes[1] && bytes[1..3][1] == bytes[2];
    hide Encode, Bytes32;
  }

  lemma DigitsOf(x: u32)
    ensures var b := Bytes32(x);
      b[0] as int * 0x100_0000 + b[1] as int * 0x1_0000 + b[2] as int * 0x100 + b[3] as int == x as int
  {
    RoundTrip32(x);
  }

  // ---------- Streams ----------

  function EncodeAll(hs: seq<Header>): seq<u8> {
    if hs == [] then [] else Encode(hs[0]) + EncodeAll(hs[1..])
  }

  /** One read: what it answers, and what it leaves of an in-memory stream. */
  function ReadOne(data: seq<u8>): (Result<Header>, seq<u8>) {
    if |data| < SIZE then (Err(Io), []) else (Decode(data[..SIZE]), data[SIZE..])
  }

  function ReadMany(data: seq<u8>, n: nat): (Result<seq<Header>>, seq<u8>) {
    if n == 0 then (Ok([]), data)
    else
      match ReadOne(data)
      case (Err(e), rest) => (Err(e), rest)
      case (Ok(h), rest) =>
        match ReadMany(rest, n - 1)
        case (Err(e), left) => (Err(e), left)
        case (Ok(hs), left) => (Ok([h] + hs), left)
  }

  lemma ReadBack(h: Header, rest: seq<u8>)
    ensures ReadOne(Encode(h) + rest) == (Ok(h), rest)
  {
    DecodeEncode(h, []);
    assert Encode(h) + [] == Encode(h);
    assert (Encode(h) + rest)[..SIZE] == Encode(h);
    assert (Encode(h) + rest)[SIZE..] == rest;
  }

  /** A stream of written headers reads back as the same headers, and leaves what follows them. */
  lemma {:induction false} StreamReadsBack(hs: seq<Header>, rest: seq<u8>)
    ensures ReadMany(EncodeAll(hs) + rest, |hs|) == (Ok(hs), rest)
    decreases |hs|
  {
    hide Encode, Decode, ReadOne;
    if hs == [] {
      assert EncodeAll(hs) + rest == rest;
    } else {
      assert EncodeAll(hs) + rest == Encode(hs[0]) + (EncodeAll(hs[1..]) + rest);
      ReadBack(hs[0], EncodeAll(hs[1..]) + rest);
      StreamReadsBack(hs[1..], rest);
      assert [hs[0]] + hs[1..] == hs;
    }
  }

  /** The bytes of the i-th header, if they are all there. */
  function Chunk(data: seq<u8>, i: nat): seq<u8> {
    if SIZE * i + SIZE <= |data| then data[SIZE * i..SIZE * i + SIZE] else []
  }

  lemma ChunkOfRest(data: seq<u8>, i: nat)
    requires |data| >= SIZE
    ensures Chunk(data[SIZE..], i) == Chunk(data, i + 1)
  {
  }

  /** The first n headers' bytes are accepted. */
  ghost predicate Readable(data: seq<u8>, n: nat) {
    forall i :: 0 <= i < n ==> Decode(Chunk(data, i)).Ok?
  }

  lemma ReadableRest(data: seq<u8>, n: nat)
    requires n > 0 && |data| >= SIZE
    ensures Readable(data, n) <==> Decode(data[..SIZE]).Ok? && Readable(data[SIZE..], n - 1)
  {
    hide Decode;
    assert Chunk(data, 0) == data[..SIZE];
    forall i: nat ensures Chunk(data[SIZE..], i) == Chunk(data, i + 1) {
      ChunkOfRest(data, i);
    }
    hide Chunk;
    if !Readable(data, n) {
      var i: nat :| i < n && !Decode(Chunk(data, i)).Ok?;
      assert i > 0 ==> Chunk(data[SIZE..], i - 1) == Chunk(data, i);
    }
  }

  /** What a stream leaves after n headers: nothing if it ran out before. */
  function Behind(data: seq<u8>, n: nat): seq<u8> {
    if SIZE * n <= |data| then data[SIZE * n..] else []
  }

  /** Each of these headers is the one its bytes decode to. */
  ghost predicate ReadsAs(data: seq<u8>, hs: seq<Header>) {
    forall i :: 0 <= i < |hs| ==> Decode(Chunk(data, i)) == Ok(hs[i])
  }

  /** The read failed at the i-th header, the first that is missing or malformed. */
  ghost predicate FailsAt(data: seq<u8>, n: nat, i: nat, error: HeaderError, left: seq<u8>) {
    && i < n && Readable(data, i) && left == Behind(data, i + 1)
    && (if SIZE * i + SIZE <= |data| then Decode(Chunk(data, i)) == Err(error) else error == Io)
  }

  ghost predicate Fails(data: seq<u8>, n: nat, error: HeaderError, left: seq<u8>) {
    exists i :: FailsAt(data, n, i, error, left)
  }

  /**
   Reading n headers succeeds exactly if each has its twelve bytes and they are accepted, and takes just those. It
   fails at the first that is not so, for that header's reason, and reads no further.
   */
  lemma {:induction false} ReadsExactly(data: seq<u8>, n: nat)
    ensures var (r, left) := ReadMany(data, n);
      && (r.Ok? <==> forall i :: 0 <= i < n ==> Decode(Chunk(data, i)).Ok?)
      && (r.Ok? ==> SIZE * n <= |data| && left == data[SIZE * n..] && |r.value| == n && ReadsAs(data, r.value))
      && (r.Err? ==> Fails(data, n, r.error, left))
  {
    ReadsAll(data, n);
    ReadsEach(data, n);
    if ReadMany(data, n).0.Ok? {
      LeavesBehind(data, n);
    }
    hide ReadMany, Chunk, Decode;
  }

  lemma ReadsOn(data: seq<u8>, n: nat)
    requires n > 0 && |data| >= SIZE
    ensures var (r, left) := ReadMany(data, n);
      var (r1, left1) := ReadMany(data[SIZE..], n - 1);
      (r.Ok? <==> Decode(data[..SIZE]).Ok? && r1.Ok?) && (r.Ok? ==> left == left1)
  {
    hide Decode;
  }

  lemma {:induction false} ReadsAll(data: seq<u8>, n: nat)
    ensures ReadMany(data, n).0.Ok? <==> Readable(data, n)
    decreases n
  {
    hide Readable, Decode;
    if n == 0 {
      NoneToRead(data);
    } else if |data| < SIZE {
      NotReadable(data, n);
    } else {
      ReadableRest(data, n);
      ReadsOn(data, n);
      ReadsAll(data[SIZE..], n - 1);
      hide ReadMany;
    }
  }

  /** A suffix of a suffix. */
  lemma SuffixOfRest(data: seq<u8>, left: seq<u8>)
    requires |data| >= SIZE && |left| <= |data| - SIZE && left == data[SIZE..][|data| - SIZE - |left|..]
    ensures left == data[|data| - |left|..]
  {
  }

  lemma {:induction false} LeavesBehind(data: seq<u8>, n: nat)
    requires ReadMany(data, n).0.Ok?
    ensures var left := ReadMany(data, n).1; |left| + SIZE * n == |data| && left == data[|data| - |left|..]
    decreases n
  {
    if n > 0 {
      ReadsOn(data, n);
      LeavesBehind(data[SIZE..], n - 1);
      SuffixOfRest(data, ReadMany(data, n).1);
      hide ReadMany;
    }
  }

  lemma NotReadable(data: seq<u8>, n: nat)
    requires n > 0 && |data| < SIZE
    ensures !Readable(data, n)
  {
    assert Decode(Chunk(data, 0)).Err?;
  }

  lemma {:induction false} ReadsEach(data: seq<u8>, n: nat)
    ensures var (r, left) := ReadMany(data, n);
      if r.Ok? then |r.value| == n && ReadsAs(data, r.value) else Fails(data, n, r.error, left)
    decreases n
  {
    if n > 0 && |data| < SIZE {
      assert FailsAt(data, n, 0, Io, []);
    } else if n > 0 {
      ReadsEach(data[SIZE..], n - 1);
      ReadsOneMore(data, n);
      hide ReadMany, Fails, ReadsAs;
    }
  }

  lemma ReadsOneMore(data: seq<u8>, n: nat)
    requires n > 0 && |data| >= SIZE
    requires var (r, left) := ReadMany(data[SIZE..], n - 1);
      if r.Ok? then |r.value| == n - 1 && ReadsAs(data[SIZE..], r.value)
      else Fails(data[SIZE..], n - 1, r.error, left)
    ensures var (r, left) := ReadMany(data, n);
      if r.Ok? then |r.value| == n && ReadsAs(data, r.value)
      else Fails(data, n, r.error, left)
  {
    hide Decode, Readable;
    var (r, left) := ReadMany(data, n);
    assert Chunk(data, 0) == data[..SIZE];
    if r.Ok? {
      forall i | 0 <= i < n ensures Decode(Chunk(data, i)) == Ok(r.value[i]) {
        if i > 0 {
          ChunkOfRest(data, i - 1);
        }
      }
    } else if Decode(data[..SIZE]).Err? {
      assert Readable(data, 0) by { NoneToRead(data); }
      assert FailsAt(data, n, 0, r.error, left);
    } else {
      var i: nat :| FailsAt(data[SIZE..], n - 1, i, r.error, left);
      FailsLater(data, n, i, r.error, left);
    }
  }

  lemma NoneToRead(data: seq<u8>)
    ensures Readable(data, 0)
  {
  }

  lemma FailsLater(data: seq<u8>, n: nat, i: nat, error: HeaderError, left: seq<u8>)
    requires n > 0 && |data| >= SIZE && Decode(data[..SIZE]).Ok? && FailsAt(data[SIZE..], n - 1, i, error, left)
    ensures FailsAt(data, n, i + 1, error, left)
  {
    ReadableRest(data, i + 1);
    ChunkOfRest(data, i);
    hide Decode, Readable, Chunk;
  }

  /** No header is read from nothing, and a read never takes part of a header. */
  lemma {:induction false} NothingLeftOver(hs: seq<Header>)
    ensures |EncodeAll(hs)| == SIZE * |hs|
    ensures ReadMany(EncodeAll(hs), |hs|) == (Ok(hs), [])
    ensures ReadOne(ReadMany(EncodeAll(hs), |hs|).1).0 == Err(Io)
    decreases |hs|
  {
    StreamReadsBack(hs, []);
    assert EncodeAll(hs) + [] == EncodeAll(hs);
    if hs != [] {
      NothingLeftOver(hs[1..]);
    }
  }

  method ToBytes(h: Header) returns (bytes: array<u8>)
    ensures bytes[..] == Encode(h)
  {
    bytes := new u8[12](_ => 0);
    bytes[0] := TypeByte(h.msgType);
    CopyInto(bytes, 1, Bytes16(h.correlationId));
    bytes[3] := h.flags;
    CopyInto(bytes, 4, Bytes32(h.typeHash));
    CopyInto(bytes, 8, Bytes32(h.reserved));
    assert bytes[..] == bytes[..1] + bytes[1..3] + bytes[3..4] + bytes[4..8] + bytes[8..];
  }

  method CopyInto(bytes: array<u8>, at: nat, part: seq<u8>)
    requires at + |part| <= bytes.Length
    modifies bytes
    ensures bytes[..] == old(bytes[..at]) + part + old(bytes[at + |part|..])
  {
    for i := 0 to |part|
      invariant bytes[at..at + i] == part[..i]
      invariant bytes[..at] == old(bytes[..at])
      invariant bytes[at + i..] == old(bytes[at + i..])
    {
      bytes[at + i] := part[i];
    }
  }

  class Stream {
    var data: seq<u8>

    constructor ()
      ensures data == []
    {
      data := [];
    }

    method Write(h: Header)
      modifies this
      ensures data == old(data) + Encode(h)
    {
      var bytes := ToBytes(h);
      data := data + bytes[..];
    }

    method Read() returns (r: Result<Header>)
      modifies this
      ensures (r, data) == ReadOne(old(data))
    {
      if |data| < SIZE {
        data := [];
        return Err(Io);
      }
      var bytes := data[..SIZE];
      data := data[SIZE..];
      r := Decode(bytes);
    }
  }
}
