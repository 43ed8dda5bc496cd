/**
  The Connect envelope: a flag byte, a big-endian length and the payload. A
  stream of frames arrives in chunks cut anywhere; the decoder buffers until a
  whole frame stands at the front.
*/
module FrameModel {
  import opened Base

  type Byte = x: int | 0 <= x < 256

  type Bytes = seq<Byte>

  datatype Frame = Frame(flags: Byte, payload: Bytes) {
    predicate Compressed() { flags % 2 == 1 }
    predicate EndStream() { flags / 2 % 2 == 1 }
  }

  const HEADER := 5
  const LIMIT := 0x1_0000_0000

  // ---------------------------------------------------------------- encoding

  function BigEndian(n: nat): (b: Bytes)
    requires n < LIMIT
    ensures |b| == 4
  {
    var a: int := n / 256;
    var b: int := a / 256;
    var c: int := b / 256;
    var (x: int, y: int, z: int) := (b % 256, a % 256, n % 256);
    [c, x, y, z]
  }

  function FromBigEndian(b: Bytes): (n: nat)
    requires |b| == 4
    ensures n < LIMIT
  {
    var (w: int, x: int, y: int, z: int) := (b[0], b[1], b[2], b[3]);
    w * 0x100_0000 + x * 0x1_0000 + y * 256 + z
  }

  lemma BigEndianReadsBack(n: nat)
    requires n < LIMIT
    ensures FromBigEndian(BigEndian(n)) == n
  {
  }

  /** The highest byte stands first. */
  lemma BigEndianPlaces(a: Byte, b: Byte, c: Byte, d: Byte)
    ensures BigEndian((a as int) * 0x100_0000 + (b as int) * 0x1_0000 + (c as int) * 0x100 + d as int) == [a, b, c, d]
  {
    var (w: int, x: int, y: int, z: int) := (a, b, c, d);
    ByteOff(w * 0x1_0000 + x * 0x100 + y, z);
    ByteOff(w * 0x100 + x, y);
    ByteOff(w, x);
  }

  lemma ByteOff(high: nat, low: nat)
    requires low < 256
    ensures (high * 256 + low) / 256 == high && (high * 256 + low) % 256 == low
  {
  }

  function Encode(f: Frame): Bytes
    requires |f.payload| < LIMIT
  {
    [f.flags] + BigEndian(|f.payload|) + f.payload
  }

  predicate Sendable(fs: seq<Frame>) {
    forall f | f in fs :: |f.payload| < LIMIT && !f.Compressed()
  }

  function EncodeAll(fs: seq<Frame>): Bytes
    requires Sendable(fs)
  {
    if fs == [] then [] else Encode(fs[0]) + EncodeAll(fs[1..])
  }

  datatype Error = TooLong | Compressed | Truncated | Broken

  /** The written message behind its envelope: the header stands first and its length is patched in. */
  method Envelope(message: Bytes) returns (r: Result<Bytes, Error>)
    ensures r == if |message| < LIMIT then Ok(Encode(Frame(0, message))) else Err(TooLong)
    ensures r.Ok? ==> FrontOf(r.value) == Whole(Frame(0, message), |r.value|)
  {
    var body: Bytes := [0, 0, 0, 0, 0] + message;
    var length := |body| - 5;
    if length >= LIMIT {
      return Err(TooLong);
    }
    var patch := BigEndian(length);
    body := body[1 := patch[0]][2 := patch[1]][3 := patch[2]][4 := patch[3]];
    assert body == Encode(Frame(0, message));
    assert body + [] == body;
    EncodedFront(Frame(0, message), []);
    return Ok(body);
  }

  // -------------------------------------------------------- what bytes stand for

  /** How a byte stream goes on: with a whole frame, or with none for one of three reasons. */
  datatype Front = Whole(frame: Frame, size: nat) | Partial | Empty | Refused

  function FrontOf(b: Bytes): (r: Front)
    ensures r.Whole? ==> HEADER <= r.size <= |b|
  {
    if b == [] then Empty
    else if |b| < HEADER then Partial
    else if b[0] % 2 == 1 then Refused
    else
      var length := FromBigEndian(b[1..5]);
      if |b| < HEADER + length then Partial else Whole(Frame(b[0], b[5..5 + length]), HEADER + length)
  }

  /** The frames of a whole byte stream, and why it stops: an end between frames, or an error. */
  datatype Reading = Reading(frames: seq<Frame>, end: Option<Error>)

  function ReadAll(b: Bytes): Reading
    decreases |b|
  {
    match FrontOf(b)
    case Empty => Reading([], None)
    case Partial => Reading([], Some(Truncated))
    case Refused => Reading([], Some(Compressed))
    case Whole(frame, size) =>
      var rest := ReadAll(b[size..]);
      Reading([frame] + rest.frames, rest.end)
  }

  lemma EncodedFront(f: Frame, rest: Bytes)
    requires |f.payload| < LIMIT && !f.Compressed()
    ensures FrontOf(Encode(f) + rest) == Whole(f, |Encode(f)|)
    ensures (Encode(f) + rest)[|Encode(f)|..] == rest
  {
    var b := Encode(f) + rest;
    BigEndianReadsBack(|f.payload|);
    assert b[1..5] == BigEndian(|f.payload|) && b[5..5 + |f.payload|] == f.payload && b[0] == f.flags;
  }

  lemma EncodedStep(f: Frame, rest: Bytes)
    requires |f.payload| < LIMIT && !f.Compressed()
    ensures ReadAll(Encode(f) + rest) == Reading([f] + ReadAll(rest).frames, ReadAll(rest).end)
  {
    hide Encode, FrontOf;
    EncodedFront(f, rest);
  }

  /** Encoded frames are read back as themselves, followed by whatever follows them. */
  lemma {:induction false} EncodedReadsBack(fs: seq<Frame>, rest: Bytes)
    requires Sendable(fs)
    ensures ReadAll(EncodeAll(fs) + rest) == Reading(fs + ReadAll(rest).frames, ReadAll(rest).end)
    decreases |fs|
  {
    hide Encode, ReadAll;
    if fs == [] {
      assert EncodeAll(fs) + rest == rest;
      assert fs + ReadAll(rest).frames == ReadAll(rest).frames;
    } else {
      var tail := EncodeAll(fs[1..]) + rest;
      EncodedReadsBack(fs[1..], rest);
      EncodedStep(fs[0], tail);
      assert EncodeAll(fs) + rest == Encode(fs[0]) + tail;
      assert [fs[0]] + (fs[1..] + ReadAll(rest).frames) == fs + ReadAll(rest).frames;
    }
  }

  /** The first n bytes of the frame are some of it but not all. */
  predicate CutInside(last: Frame, n: nat) {
    |last.payload| < LIMIT && !last.Compressed() && 0 < n < |Encode(last)|
  }

  /** A stream cut inside a frame has all the whole frames and then a truncation. */
  lemma CutMidFrame(fs: seq<Frame>, last: Frame, n: nat)
    requires Sendable(fs) && CutInside(last, n)
    ensures ReadAll(EncodeAll(fs) + Encode(last)[..n]) == Reading(fs, Some(Truncated))
  {
    var part := Encode(last)[..n];
    PartIsPartial(last, n);
    hide FrontOf, Encode;
    EncodedReadsBack(fs, part);
    assert fs + [] == fs;
  }

  lemma PartIsPartial(last: Frame, n: nat)
    requires CutInside(last, n)
    ensures FrontOf(Encode(last)[..n]) == Partial
  {
    hide BigEndian, FromBigEndian;
    var part := Encode(last)[..n];
    if n >= HEADER {
      BigEndianReadsBack(|last.payload|);
      assert part[1..5] == BigEndian(|last.payload|) && part[0] == last.flags;
    }
  }

  /** Behind whole frames a header whose flag byte is odd is refused, whatever it and what follows say. */
  lemma CompressedIsRefused(fs: seq<Frame>, flags: Byte, length: Bytes, rest: Bytes)
    requires Sendable(fs) && (flags as int) % 2 == 1 && |length| == 4
    ensures ReadAll(EncodeAll(fs) + ([flags] + length + rest)) == Reading(fs, Some(Compressed))
  {
    var tail := [flags] + length + rest;
    EncodedReadsBack(fs, tail);
    assert tail[0] == flags && FrontOf(tail) == Refused;
    assert fs + [] == fs;
  }

  /** An even flag byte, a length and that many bytes are a frame of that flag byte and those bytes. */
  lemma HeaderMeans(flags: Byte, a: Byte, b: Byte, c: Byte, d: Byte, payload: Bytes, rest: Bytes)
    requires (flags as int) % 2 == 0
    requires |payload| == (a as int) * 0x100_0000 + (b as int) * 0x1_0000 + (c as int) * 0x100 + d as int
    ensures FrontOf([flags, a, b, c, d] + payload + rest) == Whole(Frame(flags, payload), 5 + |payload|)
  {
    var bytes := [flags, a, b, c, d] + payload + rest;
    assert bytes[1..5] == [a, b, c, d] && bytes[5..5 + |payload|] == payload && bytes[0] == flags;
  }

  // ----------------------------------------------------------------- the stream

  /** A piece of the body: data, something that is not data, or a transport error. */
  datatype Chunk = Data(bytes: Bytes) | Trailers | Failure

  /** All the data still to come, up to the first transport error. */
  function DataOf(body: seq<Chunk>): Bytes {
    if body == [] || body[0].Failure? then []
    else (if body[0].Data? then body[0].bytes else []) + DataOf(body[1..])
  }

  predicate Unbroken(body: seq<Chunk>) {
    Failure !in body
  }

  /** More bytes at the end never change a frame, or a refusal, already at the front. */
  lemma FrontStays(b: Bytes, more: Bytes)
    requires FrontOf(b).Whole? || FrontOf(b).Refused?
    ensures FrontOf(b + more) == FrontOf(b)
  {
  }

  lemma EmptyFront(b: Bytes)
    ensures FrontOf(b).Empty? <==> b == []
  {
  }

  class FrameStream {
    var body: seq<Chunk>
    var buffer: Bytes

    /** Every byte not yet handed out. */
    function Rest(): Bytes
      reads this
    {
      buffer + DataOf(body)
    }

    constructor (chunks: seq<Chunk>)
      ensures body == chunks && buffer == []
    {
      body, buffer := chunks, [];
    }

    /** The first whole frame taken off the buffer's front; the buffer untouched until it is there in full. */
    method DecodeFrame() returns (r: Result<Option<Frame>, Error>)
      modifies this`buffer
      ensures match FrontOf(old(buffer))
              case Whole(frame, size) => r == Ok(Some(frame)) && buffer == old(buffer)[size..]
              case Refused => r == Err(Compressed) && buffer == old(buffer)
              case _ => r == Ok(None) && buffer == old(buffer)
    {
      if |buffer| < 5 {
        return Ok(None);
      }
      var flags := buffer[0];
      if flags % 2 == 1 {
        return Err(Compressed);
      }
      var length := FromBigEndian(buffer[1..5]);
      if |buffer| < 5 + length {
        return Ok(None);
      }
      ghost var was := buffer;
      buffer := buffer[5..];
      var payload := buffer[..length];
      buffer := buffer[length..];
      assert payload == was[5..5 + length] && buffer == was[5 + length..];
      return Ok(Some(Frame(flags, payload)));
    }

    /**
      The next frame, however the bytes were cut: it depends only on the bytes
      not yet handed out, and on whether a transport error follows them.
    */
    method Next() returns (r: Result<Option<Frame>, Error>)
      modifies this
      ensures match FrontOf(old(Rest()))
              case Whole(frame, size) =>
                r == Ok(Some(frame)) && Rest() == old(Rest())[size..] && Unbroken(body) == old(Unbroken(body))
              case Refused => r == Err(Compressed)
              case Empty => r == if old(Unbroken(body)) then Ok(None) else Err(Broken)
              case Partial => r == if old(Unbroken(body)) then Err(Truncated) else Err(Broken)
    {
      hide FrontOf;
      ghost var all, sound := Rest(), Unbroken(body);
      while true
        invariant Rest() == all && Unbroken(body) == sound
        decreases |body|
      {
        ghost var was := buffer;
        if FrontOf(buffer).Whole? || FrontOf(buffer).Refused? {
          FrontStays(buffer, DataOf(body));
        }
        var decoded := DecodeFrame();
        if decoded.Err? {
          return Err(decoded.error);
        }
        if decoded.value.Some? {
          assert (was + DataOf(body))[FrontOf(was).size..] == buffer + DataOf(body);
          return decoded;
        }
        EmptyFront(buffer);
        if body == [] {
          assert buffer + DataOf(body) == buffer;
          if buffer != [] {
            return Err(Truncated);
          }
          return Ok(None);
        }
        var chunk := body[0];
        if chunk.Failure? {
          assert buffer + DataOf(body) == buffer;
          return Err(Broken);
        }
        assert body == [chunk] + body[1..];
        if chunk.Data? {
          assert buffer + (chunk.bytes + DataOf(body[1..])) == (buffer + chunk.bytes) + DataOf(body[1..]);
          buffer := buffer + chunk.bytes;
        }
        body := body[1..];
      }
    }
  }

  /** Frames encoded and cut into any chunks are read as exactly those frames and a clean end. */
  lemma ChunkingDoesNotMatter(fs: seq<Frame>, chunks: seq<Chunk>)
    requires Sendable(fs) && DataOf(chunks) == EncodeAll(fs)
    ensures ReadAll(DataOf(chunks)) == Reading(fs, None)
  {
    EncodedReadsBack(fs, []);
    assert EncodeAll(fs) + [] == EncodeAll(fs) && fs + [] == fs;
  }

  /** Calling `Next` until it gives no frame: the reading of the bytes, whatever the chunks. */
  method Drain(chunks: seq<Chunk>) returns (reading: Reading)
    requires Unbroken(chunks)
    ensures reading == ReadAll(DataOf(chunks))
    ensures forall fs | Sendable(fs) && DataOf(chunks) == EncodeAll(fs) :: reading == Reading(fs, None)
    ensures forall fs, last, n: nat |
              Sendable(fs) && CutInside(last, n) && DataOf(chunks) == EncodeAll(fs) + Encode(last)[..n] ::
              reading == Reading(fs, Some(Truncated))
  {
    forall fs | Sendable(fs) && DataOf(chunks) == EncodeAll(fs)
      ensures ReadAll(DataOf(chunks)) == Reading(fs, None)
    {
      ChunkingDoesNotMatter(fs, chunks);
    }
    forall fs, last, n: nat | Sendable(fs) && CutInside(last, n) && DataOf(chunks) == EncodeAll(fs) + Encode(last)[..n]
      ensures ReadAll(DataOf(chunks)) == Reading(fs, Some(Truncated))
    {
      CutMidFrame(fs, last, n);
    }
    hide Encode, EncodeAll, FrontOf;
    var stream := new FrameStream(chunks);
    var frames: seq<Frame> := [];
    ghost var all := DataOf(chunks);
    assert stream.Rest() == all;
    while true
      invariant Unbroken(stream.body)
      invariant ReadAll(all) == Reading(frames + ReadAll(stream.Rest()).frames, ReadAll(stream.Rest()).end)
      decreases |stream.Rest()|
    {
      ghost var rest := stream.Rest();
      var next := stream.Next();
      if next.Err? {
        assert frames + [] == frames;
        return Reading(frames, Some(next.error));
      }
      if next.value.None? {
        assert frames + [] == frames;
        return Reading(frames, None);
      }
      assert frames + ([next.value.value] + ReadAll(stream.Rest()).frames)
             == (frames + [next.value.value]) + ReadAll(stream.Rest()).frames;
      frames := frames + [next.value.value];
    }
  }
}
