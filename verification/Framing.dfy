/** Length-prefixed framing: packages/protocol/src/framing.ts.

    `Parse` is the reference meaning of a byte stream, defined on the whole stream at once.
    The decoder works chunk by chunk in fixed buffers; its contract says that it always
    agrees with `Parse` on everything it was given so far.
 */
module Framing {
  import opened Outcomes
  import opened Sequences

  const FRAME_HEADER_LENGTH := 4
  const MAX_UINT32 := 0xffff_ffff
  const PAYLOAD_BLOCK_SIZE := 65536
  const DEFAULT_MAX_FRAME_LENGTH := 16777216

  newtype Byte = b: int | 0 <= b < 256

  /** What storing a number in a Uint8Array keeps of it. */
  function ToUint8(n: nat): Byte { (n % 256) as Byte }

  function HeaderBytes(n: nat): seq<Byte>
  {
    [ToUint8(n / 0x100_0000), ToUint8(n / 0x1_0000), ToUint8(n / 0x100), ToUint8(n)]
  }

  function HeaderValue(h: seq<Byte>): nat
    requires |h| == FRAME_HEADER_LENGTH
  {
    h[0] as int * 0x100_0000 + h[1] as int * 0x1_0000 + h[2] as int * 0x100 + h[3] as int
  }

  lemma {:induction false} HeaderRoundTrip(n: nat)
    ensures n <= MAX_UINT32 <==> HeaderValue(HeaderBytes(n)) == n
  {
    var a, b, c := n / 0x100_0000, n / 0x1_0000, n / 0x100;
    assert c == n / 256 && b == c / 256 && a == b / 256;
    assert n == 256 * c + n % 256 && c == 256 * b + c % 256 && b == 256 * a + b % 256;
    if n <= MAX_UINT32 {
      assert a % 256 == a;
    }
  }

  lemma {:induction false} HeaderInverse(h: seq<Byte>)
    requires |h| == FRAME_HEADER_LENGTH
    ensures HeaderValue(h) <= MAX_UINT32 && HeaderBytes(HeaderValue(h)) == h
  {
    var b := h[0] as int * 0x100 + h[1] as int;
    var c := b * 0x100 + h[2] as int;
    LastDigit(c, h[3]);
    LastDigit(b, h[2]);
    LastDigit(h[0] as int, h[1]);
    assert HeaderValue(h) == c * 0x100 + h[3] as int;
  }

  /** The number that the bytes spell, the most significant one first. */
  function BigEndian(bytes: seq<Byte>): nat
  {
    if bytes == [] then 0 else 0x100 * BigEndian(bytes[..|bytes| - 1]) + bytes[|bytes| - 1] as int
  }

  /** A header is four bytes that spell the length in network order. */
  lemma {:induction false} HeaderIsBigEndian(h: seq<Byte>)
    requires |h| == 4
    ensures HeaderValue(h) == BigEndian(h)
    ensures forall n: nat | n <= 0xffff_ffff :: BigEndian(HeaderBytes(n)) == n && |HeaderBytes(n)| == 4
  {
    BigEndianOf(h);
    forall n: nat | n <= 0xffff_ffff ensures BigEndian(HeaderBytes(n)) == n && |HeaderBytes(n)| == 4 {
      BigEndianOf(HeaderBytes(n));
      HeaderRoundTrip(n);
    }
  }

  lemma {:induction false} BigEndianOf(h: seq<Byte>)
    requires |h| == 4
    ensures BigEndian(h)
            == ((h[0] as int * 0x100 + h[1] as int) * 0x100 + h[2] as int) * 0x100 + h[3] as int
  {
    var h3, h2, h1 := h[..3], h[..2], h[..1];
    assert h3[..2] == h2 && h2[..1] == h1 && h1[..0] == [];
    assert BigEndian(h1) == h[0] as int;
    assert BigEndian(h2) == 0x100 * BigEndian(h1) + h[1] as int;
    assert BigEndian(h3) == 0x100 * BigEndian(h2) + h[2] as int;
  }

  lemma {:induction false} LastDigit(rest: nat, last: Byte)
    ensures var n := rest * 0x100 + last as int;
            && n / 0x100 == rest && ToUint8(n) == last
            && n / 0x1_0000 == rest / 0x100 && n / 0x100_0000 == rest / 0x1_0000
  {
  }

  function FrameBytes(payload: seq<Byte>): seq<Byte> { HeaderBytes(|payload|) + payload }

  function StreamBytes(payloads: seq<seq<Byte>>): seq<Byte>
  {
    if payloads == [] then [] else FrameBytes(payloads[0]) + StreamBytes(payloads[1..])
  }

  datatype FrameError =
    | PayloadTooLong
    | HasEnded
    | HasFailed
    | FrameTooLong(length: nat)
    | Truncated

  method EncodeFrame(payload: array<Byte>) returns (r: Result<array<Byte>, FrameError>)
    ensures r.Ok? <==> payload.Length <= MAX_UINT32
    ensures r.Ok? ==> fresh(r.value) && r.value[..] == FrameBytes(payload[..])
    ensures r.Err? ==> r.error == PayloadTooLong
  {
    if payload.Length > MAX_UINT32 {
      return Err(PayloadTooLong);
    }
    var length := payload.Length;
    var frame := new Byte[FRAME_HEADER_LENGTH + length];
    frame[0] := ToUint8(length / 0x100_0000);
    frame[1] := ToUint8(length / 0x1_0000);
    frame[2] := ToUint8(length / 0x100);
    frame[3] := ToUint8(length);
    forall i | 0 <= i < length {
      frame[FRAME_HEADER_LENGTH + i] := payload[i];
    }
    assert frame[..] == HeaderBytes(length) + payload[..];
    r := Ok(frame);
  }

  // ---- The meaning of a byte stream -------------------------------------------------

  /** Complete frames, the bytes of an unfinished one, and the announced length that broke the limit. */
  datatype Parsed = Parsed(frames: seq<seq<Byte>>, rest: seq<Byte>, overlong: Option<nat>)

  function Parse(bytes: seq<Byte>, max: nat): Parsed
  {
    if |bytes| < FRAME_HEADER_LENGTH then
      Parsed([], bytes, None)
    else
      var n := HeaderValue(bytes[..FRAME_HEADER_LENGTH]);
      var end := FRAME_HEADER_LENGTH + n;
      if n > max then
        Parsed([], [], Some(n))
      else if |bytes| < end then
        Parsed([], bytes, None)
      else
        After([bytes[FRAME_HEADER_LENGTH..end]], Parse(bytes[end..], max))
  }

  function After(frames: seq<seq<Byte>>, p: Parsed): Parsed
  {
    p.(frames := frames + p.frames)
  }

  /** The start of a frame that is not complete, whatever the limit. */
  predicate Unfinished(bytes: seq<Byte>)
  {
    |bytes| < FRAME_HEADER_LENGTH || |bytes| < FRAME_HEADER_LENGTH + HeaderValue(bytes[..FRAME_HEADER_LENGTH])
  }

  /** One encoded frame is parsed as that frame, whatever follows it. */
  lemma {:induction false} ParseFrame(payload: seq<Byte>, tail: seq<Byte>, max: nat)
    requires |payload| <= max <= MAX_UINT32
    ensures Parse(FrameBytes(payload) + tail, max) == After([payload], Parse(tail, max))
  {
    HeaderRoundTrip(|payload|);
    var header, bytes := HeaderBytes(|payload|), FrameBytes(payload) + tail;
    assert bytes[..FRAME_HEADER_LENGTH] == header;
    assert bytes[FRAME_HEADER_LENGTH..FRAME_HEADER_LENGTH + |payload|] == payload;
    assert bytes[FRAME_HEADER_LENGTH + |payload|..] == tail;
  }

  /** And every stream that starts with a complete frame has the form `ParseFrame` speaks of. */
  lemma {:induction false} SplitFrame(bytes: seq<Byte>) returns (payload: seq<Byte>, tail: seq<Byte>)
    requires !Unfinished(bytes)
    ensures bytes == FrameBytes(payload) + tail
    ensures |payload| == HeaderValue(bytes[..FRAME_HEADER_LENGTH]) <= MAX_UINT32
    ensures |tail| < |bytes|
  {
    var header := bytes[..FRAME_HEADER_LENGTH];
    var end := FRAME_HEADER_LENGTH + HeaderValue(header);
    HeaderInverse(header);
    payload, tail := bytes[FRAME_HEADER_LENGTH..end], bytes[end..];
    assert bytes == header + payload + tail;
  }

  /** Parsing resumes from the unfinished bytes alone: earlier complete frames can be forgotten. */
  lemma {:induction false} ParseAppend(a: seq<Byte>, b: seq<Byte>, max: nat)
    requires max <= MAX_UINT32
    requires Parse(a, max).overlong.None?
    ensures Parse(a + b, max) == After(Parse(a, max).frames, Parse(Parse(a, max).rest + b, max))
    decreases |a|
  {
    if !Unfinished(a) {
      var payload, tail := SplitFrame(a);
      assert a + b == FrameBytes(payload) + (tail + b);
      calc {
        Parse(a + b, max);
        { ParseFrame(payload, tail + b, max); }
        After([payload], Parse(tail + b, max));
        { ParseFrame(payload, tail, max); ParseAppend(tail, b, max); }
        After([payload], After(Parse(tail, max).frames, Parse(Parse(tail, max).rest + b, max)));
        { ParseFrame(payload, tail, max);
          AfterAfter([payload], Parse(tail, max).frames, Parse(Parse(tail, max).rest + b, max)); }
        After(Parse(a, max).frames, Parse(Parse(a, max).rest + b, max));
      }
    }
  }

  lemma {:induction false} AfterAfter(f: seq<seq<Byte>>, g: seq<seq<Byte>>, p: Parsed)
    ensures After(f, After(g, p)) == After(f + g, p)
  {
    assert f + (g + p.frames) == f + g + p.frames;
  }

  /** Once a stream has broken the limit, nothing that follows can repair or change that. */
  lemma {:induction false} ParseFailed(a: seq<Byte>, b: seq<Byte>, max: nat)
    requires max <= MAX_UINT32
    requires Parse(a, max).overlong.Some?
    ensures Parse(a + b, max) == Parse(a, max)
    decreases |a|
  {
    if HeaderValue(a[..FRAME_HEADER_LENGTH]) > max {
      assert (a + b)[..FRAME_HEADER_LENGTH] == a[..FRAME_HEADER_LENGTH];
    } else {
      var payload, tail := SplitFrame(a);
      assert a + b == FrameBytes(payload) + (tail + b);
      calc {
        Parse(a + b, max);
        { ParseFrame(payload, tail + b, max); }
        After([payload], Parse(tail + b, max));
        { ParseFrame(payload, tail, max); ParseFailed(tail, b, max); }
        After([payload], Parse(tail, max));
        { ParseFrame(payload, tail, max); }
        Parse(a, max);
      }
    }
  }

  /** The start of a frame that may still become one within the limit. */
  predicate MayGoOn(rest: seq<Byte>, max: nat)
  {
    |rest| >= 4 ==> BigEndian(rest[..4]) <= max && |rest| < 4 + BigEndian(rest[..4])
  }

  /** The bytes spell these frames, all within the limit, and then the start of another, or the header of one that
      is longer than the limit. */
  predicate Means(bytes: seq<Byte>, max: nat, p: Parsed)
  {
    && Within(p.frames, max)
    && match p.overlong
       case None => bytes == StreamBytes(p.frames) + p.rest && MayGoOn(p.rest, max)
       case Some(n) =>
         p.rest == [] && max < n <= MAX_UINT32 && StreamBytes(p.frames) + HeaderBytes(n) <= bytes
  }

  lemma {:induction false} MeansCons(payload: seq<Byte>, tail: seq<Byte>, max: nat, p: Parsed)
    requires |payload| <= max && Means(tail, max, p)
    ensures Means(FrameBytes(payload) + tail, max, After([payload], p))
  {
    var all := [payload] + p.frames;
    StreamCons(payload, p.frames);
    forall i | 0 <= i < |all| ensures |all[i]| <= max {
      assert i > 0 ==> all[i] == p.frames[i - 1];
    }
    match p.overlong
    case None =>
    case Some(n) =>
      assert StreamBytes(all) + HeaderBytes(n) == FrameBytes(payload) + (StreamBytes(p.frames) + HeaderBytes(n));
  }

  lemma {:induction false} ParseMeans(bytes: seq<Byte>, max: nat)
    requires max <= MAX_UINT32
    ensures Means(bytes, max, Parse(bytes, max))
    decreases |bytes|
  {
    if |bytes| >= 4 {
      var n := HeaderValue(bytes[..4]);
      HeaderIsBigEndian(bytes[..4]);
      HeaderInverse(bytes[..4]);
      if n <= max && |bytes| >= 4 + n {
        var payload, tail := SplitFrame(bytes);
        ParseFrame(payload, tail, max);
        ParseMeans(tail, max);
        MeansCons(payload, tail, max, Parse(tail, max));
      }
    }
  }

  /** Nothing is lost or invented: what was parsed spells the stream again, byte for byte. */
  lemma {:induction false} ParseSound(bytes: seq<Byte>, max: nat)
    requires max <= MAX_UINT32
    requires Parse(bytes, max).overlong.None?
    ensures bytes == StreamBytes(Parse(bytes, max).frames) + Parse(bytes, max).rest
    ensures Unfinished(Parse(bytes, max).rest)
    ensures Parse(Parse(bytes, max).rest, max) == Parsed([], Parse(bytes, max).rest, None)
  {
    var rest := Parse(bytes, max).rest;
    ParseMeans(bytes, max);
    if |rest| >= FRAME_HEADER_LENGTH {
      HeaderIsBigEndian(rest[..FRAME_HEADER_LENGTH]);
    }
  }

  lemma {:induction false} StreamCons(payload: seq<Byte>, payloads: seq<seq<Byte>>)
    ensures StreamBytes([payload] + payloads) == FrameBytes(payload) + StreamBytes(payloads)
  {
    assert ([payload] + payloads)[1..] == payloads;
  }

  /** Framing round trip: payloads within the limit, empty ones included, come back in order. */
  lemma {:induction false} RoundTrip(payloads: seq<seq<Byte>>, max: nat)
    requires max <= MAX_UINT32
    requires Within(payloads, max)
    ensures Parse(StreamBytes(payloads), max) == Parsed(payloads, [], None)
  {
    if payloads != [] {
      RoundTrip(payloads[1..], max);
      ParseFrame(payloads[0], StreamBytes(payloads[1..]), max);
      assert payloads == [payloads[0]] + payloads[1..];
    }
  }

  // ---- Whole runs of pushes ---------------------------------------------------------

  function Joined(chunks: seq<seq<Byte>>): seq<Byte>
  {
    if chunks == [] then [] else chunks[0] + Joined(chunks[1..])
  }

  /** Everything a decoder holding `buffered` delivers when it is pushed `chunks` in turn:
      `FrameDecoder.Push` says what one push does, and a failed push delivers nothing. */
  function PushAll(buffered: seq<Byte>, chunks: seq<seq<Byte>>, max: nat): Parsed
    decreases |chunks|
  {
    if chunks == [] then
      Parsed([], buffered, None)
    else
      var p := Parse(buffered + chunks[0], max);
      if p.overlong.Some? then
        p.(frames := [])
      else
        After(p.frames, PushAll(p.rest, chunks[1..], max))
  }

  /** The frames that the failing push completes before it fails. */
  function LostFrames(buffered: seq<Byte>, chunks: seq<seq<Byte>>, max: nat): seq<seq<Byte>>
    decreases |chunks|
  {
    if chunks == [] then
      []
    else
      var p := Parse(buffered + chunks[0], max);
      if p.overlong.Some? then p.frames else LostFrames(p.rest, chunks[1..], max)
  }

  /** How a stream is cut into chunks changes nothing but what the failing push takes with it: the pushes fail
      where the stream does and keep the same unfinished bytes, and what they deliver, followed by what is
      lost, are the frames of the stream. */
  lemma {:induction false} CutsLose(buffered: seq<Byte>, chunks: seq<seq<Byte>>, max: nat)
    requires max <= MAX_UINT32
    requires Parse(buffered, max) == Parsed([], buffered, None)
    ensures var one, many := Parse(buffered + Joined(chunks), max), PushAll(buffered, chunks, max);
            && one == many.(frames := many.frames + LostFrames(buffered, chunks, max))
            && (one.overlong.None? ==> LostFrames(buffered, chunks, max) == [])
    decreases |chunks|
  {
    if chunks == [] {
      assert buffered + Joined(chunks) == buffered;
    } else {
      var now, later := buffered + chunks[0], Joined(chunks[1..]);
      var p := Parse(now, max);
      assert buffered + Joined(chunks) == now + later;
      if p.overlong.Some? {
        ParseFailed(now, later, max);
      } else {
        ParseAppend(now, later, max);
        ParseSound(now, max);
        CutsLose(p.rest, chunks[1..], max);
        AfterAfter(p.frames, PushAll(p.rest, chunks[1..], max).frames,
                   Parsed(LostFrames(p.rest, chunks[1..], max), [], None));
      }
    }
  }

  /** So the cuts are invisible exactly if the failing push, if there is one, completes no frame. */
  lemma {:induction false} ChunkingInvisible(buffered: seq<Byte>, chunks: seq<seq<Byte>>, max: nat)
    requires max <= MAX_UINT32
    requires Parse(buffered, max) == Parsed([], buffered, None)
    ensures var one, many := Parse(buffered + Joined(chunks), max), PushAll(buffered, chunks, max);
            && many.overlong == one.overlong && many.rest == one.rest
            && (many == one <==> LostFrames(buffered, chunks, max) == [])
            && (one.overlong.None? ==> many == one)
  {
    CutsLose(buffered, chunks, max);
  }

  lemma {:induction false} LongHeader(long: nat, max: nat)
    requires max < long <= MAX_UINT32
    ensures Parse(HeaderBytes(long), max) == Parsed([], [], Some(long))
  {
    HeaderRoundTrip(long);
    assert HeaderBytes(long)[..FRAME_HEADER_LENGTH] == HeaderBytes(long);
  }

  lemma {:induction false} PushOnce(chunk: seq<Byte>, max: nat)
    ensures var p := Parse(chunk, max);
            PushAll([], [chunk], max) == if p.overlong.Some? then p.(frames := []) else p
  {
    assert [] + chunk == chunk;
    AppendNone(Parse(chunk, max).frames);
  }

  /** A frame and the header of one that is too long: pushed together, the frame is lost; pushed one after the
      other, it is delivered. */
  lemma {:induction false} CutsDiffer(payload: seq<Byte>, long: nat, max: nat)
    requires |payload| <= max < long <= MAX_UINT32
    ensures var frame, header := FrameBytes(payload), HeaderBytes(long);
            && Joined([frame + header]) == Joined([frame, header])
            && PushAll([], [frame + header], max) == Parsed([], [], Some(long))
            && PushAll([], [frame, header], max) == Parsed([payload], [], Some(long))
  {
    var frame, header := FrameBytes(payload), HeaderBytes(long);
    LongHeader(long, max);
    ParseFrame(payload, header, max);
    PushOnce(frame + header, max);
    PushOnce(header, max);
    ParseFrame(payload, [], max);
    AppendNone(frame);
    assert [] + frame == frame && [frame, header][1..] == [header];
    assert Joined([frame + header]) == frame + header + Joined([]);
    assert Joined([header]) == header + Joined([]);
  }

  /** The wire keeps every message: however the encoded payloads are cut into chunks, the pushes
      deliver exactly the payloads, and the decoder may then end. */
  lemma {:induction false} WireRoundTrip(payloads: seq<seq<Byte>>, chunks: seq<seq<Byte>>, max: nat)
    requires max <= MAX_UINT32
    requires Within(payloads, max)
    requires Joined(chunks) == StreamBytes(payloads)
    ensures PushAll([], chunks, max) == Parsed(payloads, [], None)
  {
    RoundTrip(payloads, max);
    ChunkingInvisible([], chunks, max);
    assert [] + Joined(chunks) == Joined(chunks);
  }

  /** A stream cut off early has delivered a prefix of the payloads and holds the start of the next. */
  lemma {:induction false} CutStream(payloads: seq<seq<Byte>>, sent: seq<Byte>, lost: seq<Byte>, max: nat)
    requires max <= MAX_UINT32
    requires Within(payloads, max)
    requires sent + lost == StreamBytes(payloads)
    ensures var p := Parse(sent, max);
            && p.overlong.None?
            && p.frames <= payloads
            && (p.rest == [] <==> sent == StreamBytes(p.frames))
  {
    RoundTrip(payloads, max);
    if Parse(sent, max).overlong.Some? {
      ParseFailed(sent, lost, max);
    } else {
      ParseAppend(sent, lost, max);
      ParseSound(sent, max);
    }
  }

  lemma {:induction false} StreamSnoc(payloads: seq<seq<Byte>>, payload: seq<Byte>)
    ensures StreamBytes(payloads + [payload]) == StreamBytes(payloads) + FrameBytes(payload)
  {
    if payloads == [] {
      StreamCons(payload, []);
    } else {
      StreamSnoc(payloads[1..], payload);
      StreamCons(payloads[0], payloads[1..] + [payload]);
      assert payloads + [payload] == [payloads[0]] + (payloads[1..] + [payload]);
    }
  }

  predicate Within(payloads: seq<seq<Byte>>, max: nat)
  {
    forall i | 0 <= i < |payloads| :: |payloads[i]| <= max
  }

  /** A stream that spells some frames and then other bytes is parsed as it is spelled. */
  lemma {:induction false} ParseSpelled(payloads: seq<seq<Byte>>, rest: seq<Byte>, max: nat)
    requires max <= MAX_UINT32 && Within(payloads, max)
    ensures Parse(StreamBytes(payloads) + rest, max) == After(payloads, Parse(rest, max))
  {
    RoundTrip(payloads, max);
    ParseAppend(StreamBytes(payloads), rest, max);
    assert [] + rest == rest;
  }

  /** A stream has one meaning: it is parsed as it is spelled, and in no other way. */
  lemma {:induction false} ParsedExactly(bytes: seq<Byte>, max: nat, p: Parsed)
    requires max <= MAX_UINT32
    ensures Parse(bytes, max) == p <==> Means(bytes, max, p)
  {
    ParseMeans(bytes, max);
    if Means(bytes, max, p) {
      var rest := bytes[|StreamBytes(p.frames)|..];
      assert bytes == StreamBytes(p.frames) + rest;
      ParseSpelled(p.frames, rest, max);
      if |rest| >= 4 {
        HeaderIsBigEndian(rest[..4]);
      }
      if p.overlong.Some? {
        HeaderRoundTrip(p.overlong.value);
        assert rest[..4] == HeaderBytes(p.overlong.value);
      }
    }
  }

  // ---- The decoder ------------------------------------------------------------------

  datatype DecoderState = Open | Ended | Failed

  /** The arrays hold these byte strings. */
  ghost predicate Hold(frames: seq<array<Byte>>, payloads: seq<seq<Byte>>)
    reads frames
  {
    |frames| == |payloads| && forall i | 0 <= i < |frames| :: frames[i][..] == payloads[i]
  }

  /** `target.set(source, at)` on a Uint8Array. */
  method SetBytes(target: array<Byte>, source: seq<Byte>, at: nat)
    requires at + |source| <= target.Length
    modifies target
    ensures target[..at + |source|] == old(target[..at]) + source
    ensures target[at + |source|..] == old(target[at + |source|..])
  {
    forall i | 0 <= i < |source| {
      target[at + i] := source[i];
    }
  }

  function BlockLength(left: nat): nat
  {
    if left < PAYLOAD_BLOCK_SIZE then left else PAYLOAD_BLOCK_SIZE
  }

  /** Full 64 KiB blocks that spell `bytes`. */
  ghost predicate FullBlocks(blocks: seq<array<Byte>>, bytes: seq<Byte>)
    reads blocks
  {
    var k, start := |blocks| - 1, |bytes| - PAYLOAD_BLOCK_SIZE;
    if blocks == [] then
      bytes == []
    else
      && start >= 0
      && blocks[k].Length == PAYLOAD_BLOCK_SIZE
      && blocks[k][..] == bytes[start..]
      && FullBlocks(blocks[..k], bytes[..start])
  }

  lemma {:induction false} FullBlockAt(blocks: seq<array<Byte>>, bytes: seq<Byte>, i: nat)
    requires FullBlocks(blocks, bytes) && i <= |blocks|
    ensures |bytes| == PAYLOAD_BLOCK_SIZE * |blocks|
    ensures i < |blocks| ==>
              && blocks[i].Length == PAYLOAD_BLOCK_SIZE
              && blocks[i][..] == bytes[PAYLOAD_BLOCK_SIZE * i..PAYLOAD_BLOCK_SIZE * (i + 1)]
  {
    if blocks != [] {
      var k, start := |blocks| - 1, |bytes| - PAYLOAD_BLOCK_SIZE;
      FullBlockAt(blocks[..k], bytes[..start], if i < k then i else k);
    }
  }

  lemma {:induction false} FullBlocksAppend(blocks: seq<array<Byte>>, bytes: seq<Byte>, block: array<Byte>)
    requires FullBlocks(blocks, bytes) && block.Length == PAYLOAD_BLOCK_SIZE
    ensures FullBlocks(blocks + [block], bytes + block[..])
  {
    assert (blocks + [block])[..|blocks|] == blocks;
    assert (bytes + block[..])[..|bytes|] == bytes;
  }

  function Allocated(blocks: seq<array<Byte>>): nat
  {
    if blocks == [] then 0 else Allocated(blocks[..|blocks| - 1]) + blocks[|blocks| - 1].Length
  }

  lemma {:induction false} FullBlocksAllocation(blocks: seq<array<Byte>>, bytes: seq<Byte>)
    requires FullBlocks(blocks, bytes)
    ensures Allocated(blocks) == |bytes|
  {
    if blocks != [] {
      FullBlocksAllocation(blocks[..|blocks| - 1], bytes[..|bytes| - PAYLOAD_BLOCK_SIZE]);
    }
  }

  ghost function Spelled(frame: array?<Byte>): seq<Byte>
    reads frame
  {
    if frame == null then [] else FrameBytes(frame[..])
  }

  /** A step hands out its old current block or a new array, and keeps neither as its current block. */
  twostate predicate Kept(before: array?<Byte>, new after: array?<Byte>, new frame: array?<Byte>)
  {
    && (after == null || after == before || fresh(after))
    && (frame != null ==> frame != after && (frame == before || fresh(frame)))
  }

  lemma CutAfter(b: seq<Byte>, c: seq<Byte>, i: nat, j: nat, k: nat)
    requires i <= j <= k <= |c|
    ensures b + c[i..k] == b + c[i..j] + c[j..k]
  {
  }

  /** If `s` and `c[..i]` spell `x` with `b` left over, and `b` and `c[i..j]` spell `y` with `b'`
      left over, then `s` and `c[..j]` spell `x + y` with `b'` left over. */
  lemma {:induction false} Splice(s: seq<Byte>, c: seq<Byte>, i: nat, j: nat, x: seq<Byte>, b: seq<Byte>, y: seq<Byte>,
                                  b': seq<Byte>)
    requires i <= j <= |c|
    requires s + c[..i] == x + b && b + c[i..j] == y + b'
    ensures s + c[..j] == x + y + b'
  {
    calc {
      s + c[..j];
      { CutAfter(s, c, 0, i, j); }
      s + c[..i] + c[i..j];
      x + b + c[i..j];
      x + (b + c[i..j]);
      x + (y + b');
      x + y + b';
    }
  }

  lemma {:induction false} Advance(s: seq<Byte>, c: seq<Byte>, i: nat, j: nat, payloads: seq<seq<Byte>>, b: seq<Byte>,
                got: Option<seq<Byte>>, b': seq<Byte>)
    requires i <= j <= |c| && s + c[..i] == StreamBytes(payloads) + b
    requires b + c[i..j] == (if got.None? then [] else FrameBytes(got.value)) + b'
    ensures s + c[..j] == StreamBytes(if got.None? then payloads else payloads + [got.value]) + b'
  {
    Splice(s, c, i, j, StreamBytes(payloads), b, if got.None? then [] else FrameBytes(got.value), b');
    if got.None? {
      assert StreamBytes(payloads) + [] == StreamBytes(payloads);
    } else {
      StreamSnoc(payloads, got.value);
    }
  }

  predicate Announces(bytes: seq<Byte>, n: nat)
  {
    |bytes| == FRAME_HEADER_LENGTH && HeaderValue(bytes) == n
  }

  lemma {:induction false} Overlong(s: seq<Byte>, chunk: seq<Byte>, i: nat, j: nat, payloads: seq<seq<Byte>>,
                                    rest: seq<Byte>, n: nat, max: nat)
    requires max <= MAX_UINT32 && i <= j <= |chunk| && Within(payloads, max)
    requires s + chunk[..i] == StreamBytes(payloads) + rest
    requires Announces(rest + chunk[i..j], n) && n > max
    ensures Parse(s + chunk, max).overlong == Some(n)
  {
    var seen, tail := rest + chunk[i..j], chunk[j..];
    Splice(s, chunk, i, |chunk|, StreamBytes(payloads), rest, [], seen + tail) by {
      CutAfter(rest, chunk, i, j, |chunk|);
    }
    ParseSpelled(payloads, seen + tail, max);
    assert (seen + tail)[..FRAME_HEADER_LENGTH] == seen;
    assert s + chunk[..|chunk|] == s + chunk;
    assert StreamBytes(payloads) + [] == StreamBytes(payloads);
  }

  class FrameDecoder {
    const header: array<Byte>
    const maxFrameLength: nat
    var headerLength: nat
    var payloadBlocks: seq<array<Byte>>
    var currentPayloadBlock: array?<Byte>
    var currentPayloadBlockLength: nat
    var expectedPayloadLength: Option<nat>
    var payloadLength: nat
    var state: DecoderState
    /** The blocks before the current one, the bytes in them, and those in the current block. */
    ghost var fullBlocks: seq<array<Byte>>
    ghost var full: seq<Byte>
    ghost var partial: seq<Byte>

    /** The payload bytes copied so far. */
    ghost function Received(): seq<Byte>
      reads this
    {
      full + partial
    }

    /** All blocks but the current one are full 64 KiB blocks; the current one is as long as the
        announced length `n` requires and holds what remains. */
    ghost predicate BlocksHold(n: nat)
      reads this, fullBlocks, currentPayloadBlock
    {
      && FullBlocks(fullBlocks, full)
      && payloadLength == |full| + |partial|
      && |partial| == currentPayloadBlockLength
      && if currentPayloadBlock == null then
           payloadBlocks == fullBlocks == [] && partial == []
         else
           && payloadBlocks == fullBlocks + [currentPayloadBlock]
           && currentPayloadBlock !in fullBlocks && currentPayloadBlock != header
           && |full| < n && currentPayloadBlock.Length == BlockLength(n - |full|)
           && currentPayloadBlockLength <= currentPayloadBlock.Length
           && currentPayloadBlock[..currentPayloadBlockLength] == partial
    }

    ghost predicate Valid()
      reads this, header, fullBlocks, currentPayloadBlock
    {
      && header.Length == FRAME_HEADER_LENGTH
      && maxFrameLength <= MAX_UINT32
      && headerLength < FRAME_HEADER_LENGTH
      && (expectedPayloadLength.None? ==> Reset())
      && (expectedPayloadLength.Some? ==> Partway(expectedPayloadLength.value))
      && (!state.Open? ==> headerLength == 0 && expectedPayloadLength.None?)
    }

    /** In the middle of a payload of `n` bytes, which may just have become complete. */
    ghost predicate Receiving(n: nat)
      reads this, header, fullBlocks, currentPayloadBlock
    {
      && header.Length == FRAME_HEADER_LENGTH && maxFrameLength <= MAX_UINT32
      && state.Open? && headerLength == 0
      && 0 < n <= maxFrameLength
      && expectedPayloadLength == Some(n)
      && BlocksHold(n)
    }

    /** Between two pushes every block holds at least one byte and the payload is incomplete. */
    ghost predicate Partway(n: nat)
      reads this, header, fullBlocks, currentPayloadBlock
    {
      Receiving(n) && payloadLength < n && (currentPayloadBlock != null ==> 0 < currentPayloadBlockLength)
    }

    ghost predicate Reset()
      reads this
    {
      && payloadBlocks == fullBlocks == [] && full == partial == []
      && currentPayloadBlock == null && currentPayloadBlockLength == 0 && payloadLength == 0
    }

    /** The bytes of the unfinished frame, as they came over the wire. */
    ghost function Buffered(): seq<Byte>
      requires header.Length == FRAME_HEADER_LENGTH && headerLength <= FRAME_HEADER_LENGTH
      reads this, header
    {
      match expectedPayloadLength
      case None => header[..headerLength]
      case Some(n) => HeaderBytes(n) + Received()
    }

    constructor (limit: nat)
      requires limit <= MAX_UINT32
      ensures Valid() && fresh(this) && fresh(header)
      ensures maxFrameLength == limit && state == Open && Buffered() == []
    {
      header := new Byte[FRAME_HEADER_LENGTH];
      maxFrameLength := limit;
      headerLength := 0;
      payloadBlocks := [];
      currentPayloadBlock := null;
      currentPayloadBlockLength := 0;
      expectedPayloadLength := None;
      payloadLength := 0;
      state := Open;
      fullBlocks, full, partial := [], [], [];
    }

    /** Bytes of `chunk` up to a complete header; `length` is the value it announces. */
    method TakeHeader(chunk: seq<Byte>, offset: nat) returns (next: nat, length: Option<nat>)
      requires Valid() && state.Open? && expectedPayloadLength.None? && offset < |chunk|
      modifies this`headerLength, header
      ensures Valid()
      ensures offset < next <= |chunk|
      ensures var seen := old(Buffered()) + chunk[offset..next];
              match length
              case None => Buffered() == seen && |seen| < FRAME_HEADER_LENGTH
              case Some(n) => Buffered() == [] && |seen| == FRAME_HEADER_LENGTH && n == HeaderValue(seen)
    {
      var missing := FRAME_HEADER_LENGTH - headerLength;
      var headerBytes := if missing < |chunk| - offset then missing else |chunk| - offset;
      next := offset + headerBytes;
      SetBytes(header, chunk[offset..next], headerLength);
      ghost var seen := old(header[..headerLength]) + chunk[offset..next];
      headerLength := headerLength + headerBytes;
      assert header[..headerLength] == seen;
      if headerLength < FRAME_HEADER_LENGTH {
        return next, None;
      }
      assert header[..] == seen;
      length := Some(header[0] as int * 0x100_0000 + header[1] as int * 0x1_0000
                     + header[2] as int * 0x100 + header[3] as int);
      headerLength := 0;
    }
    lemma {:induction false} AllBlocksFull(n: nat)
      requires BlocksHold(n) && payloadLength < n
      requires currentPayloadBlock == null || currentPayloadBlockLength == currentPayloadBlock.Length
      ensures FullBlocks(payloadBlocks, Received())
    {
      if currentPayloadBlock != null {
        FullBlocksAppend(fullBlocks, full, currentPayloadBlock);
        assert currentPayloadBlock[..] == partial;
      }
    }

    method OpenBlock(n: nat)
      requires BlocksHold(n) && payloadLength < n
      requires currentPayloadBlock == null || currentPayloadBlockLength == currentPayloadBlock.Length
      modifies this`payloadBlocks, this`currentPayloadBlock, this`currentPayloadBlockLength,
               this`fullBlocks, this`full, this`partial
      ensures BlocksHold(n) && Received() == old(Received())
      ensures currentPayloadBlock != null && fresh(currentPayloadBlock) && currentPayloadBlockLength == 0
    {
      AllBlocksFull(n);
      fullBlocks, full, partial := payloadBlocks, Received(), [];
      var block := new Byte[BlockLength(n - payloadLength)];
      payloadBlocks := payloadBlocks + [block];
      currentPayloadBlock := block;
      currentPayloadBlockLength := 0;
    }

    /** As many bytes as both the current block and the chunk still have. */
    method StoreBytes(chunk: seq<Byte>, offset: nat, n: nat) returns (next: nat)
      requires BlocksHold(n) && payloadLength < n && offset < |chunk|
      requires currentPayloadBlock != null && currentPayloadBlockLength < currentPayloadBlock.Length
      modifies this`currentPayloadBlockLength, this`payloadLength, this`partial, currentPayloadBlock
      ensures BlocksHold(n) && 0 < currentPayloadBlockLength
      ensures offset < next <= |chunk|
      ensures Received() == old(Received()) + chunk[offset..next]
    {
      var block := currentPayloadBlock;
      var room, available := block.Length - currentPayloadBlockLength, |chunk| - offset;
      var payloadBytes := if room < available then room else available;
      next := offset + payloadBytes;
      SetBytes(block, chunk[offset..next], currentPayloadBlockLength);
      partial := partial + chunk[offset..next];
      currentPayloadBlockLength := currentPayloadBlockLength + payloadBytes;
      payloadLength := payloadLength + payloadBytes;
    }

    /** One pass of the payload loop: a new block when the last one is full, then its bytes. */
    method FillBlock(chunk: seq<Byte>, offset: nat, n: nat) returns (next: nat)
      requires BlocksHold(n) && payloadLength < n && offset < |chunk|
      modifies this`payloadBlocks, this`currentPayloadBlock, this`currentPayloadBlockLength,
               this`payloadLength, this`fullBlocks, this`full, this`partial, currentPayloadBlock
      ensures BlocksHold(n) && 0 < currentPayloadBlockLength
      ensures currentPayloadBlock == old(currentPayloadBlock) || fresh(currentPayloadBlock)
      ensures offset < next <= |chunk|
      ensures Received() == old(Received()) + chunk[offset..next]
    {
      if currentPayloadBlock == null || currentPayloadBlockLength == currentPayloadBlock.Length {
        OpenBlock(n);
      }
      next := StoreBytes(chunk, offset, n);
    }

    method CopyPayload(chunk: seq<Byte>, offset: nat, n: nat) returns (next: nat)
      requires BlocksHold(n) && payloadLength < n && offset <= |chunk|
      requires currentPayloadBlock != null ==> 0 < currentPayloadBlockLength
      modifies this`payloadBlocks, this`currentPayloadBlock, this`currentPayloadBlockLength,
               this`payloadLength, this`fullBlocks, this`full, this`partial, currentPayloadBlock
      ensures BlocksHold(n) && (currentPayloadBlock != null ==> 0 < currentPayloadBlockLength)
      ensures currentPayloadBlock == old(currentPayloadBlock) || fresh(currentPayloadBlock)
      ensures offset <= next <= |chunk|
      ensures Received() == old(Received()) + chunk[offset..next]
      ensures payloadLength < n ==> next == |chunk|
    {
      next := offset;
      while next < |chunk| && payloadLength < n
        invariant BlocksHold(n) && (currentPayloadBlock != null ==> 0 < currentPayloadBlockLength)
        invariant currentPayloadBlock == old(currentPayloadBlock) || fresh(currentPayloadBlock)
        invariant offset <= next <= |chunk|
        invariant Received() == old(Received()) + chunk[offset..next]
      {
        ghost var last := next;
        next := FillBlock(chunk, next, n);
        CutAfter(old(Received()), chunk, offset, last, next);
      }
    }

    method JoinBlocks(n: nat) returns (payload: array<Byte>)
      requires BlocksHold(n) && payloadLength == n
      ensures fresh(payload) && payload[..] == Received()
    {
      payload := new Byte[n];
      var offset := 0;
      ghost var bytes := Received();
      for i := 0 to |payloadBlocks|
        invariant offset == (if i < |payloadBlocks| then PAYLOAD_BLOCK_SIZE * i else n)
        invariant offset <= n && payload[..offset] == bytes[..offset]
      {
        var block := payloadBlocks[i];
        ghost var end := BlockAt(n, i);
        SetBytes(payload, block[..], offset);
        assert bytes[..end] == bytes[..offset] + bytes[offset..end];
        offset := offset + block.Length;
      }
    }

    lemma {:induction false} BlockAt(n: nat, i: nat) returns (end: nat)
      requires BlocksHold(n) && payloadLength == n && i < |payloadBlocks|
      ensures PAYLOAD_BLOCK_SIZE * i + payloadBlocks[i].Length == end <= n
      ensures payloadBlocks[i][..] == Received()[PAYLOAD_BLOCK_SIZE * i..end]
      ensures end == if i + 1 < |payloadBlocks| then PAYLOAD_BLOCK_SIZE * (i + 1) else n
    {
      end := PAYLOAD_BLOCK_SIZE * i + payloadBlocks[i].Length;
      FullBlockAt(fullBlocks, full, i);
    }

    /** Hands a complete payload over: the only block itself, or a copy joining several blocks. */
    method Deliver(n: nat) returns (frame: array<Byte>)
      requires Receiving(n) && payloadLength == n
      modifies this
      ensures Valid() && state == old(state) && Buffered() == []
      ensures frame[..] == old(Received())
      ensures currentPayloadBlock == null && (fresh(frame) || frame == old(currentPayloadBlock))
    {
      if |payloadBlocks| == 1 {
        frame := payloadBlocks[0];
      } else {
        frame := JoinBlocks(n);
      }
      payloadBlocks := [];
      currentPayloadBlock := null;
      currentPayloadBlockLength := 0;
      expectedPayloadLength := None;
      payloadLength := 0;
      fullBlocks, full, partial := [], [], [];
    }

    method Fail()
      requires Valid()
      modifies this
      ensures Valid() && state == Failed && Buffered() == [] && currentPayloadBlock == null
    {
      state := Failed;
      headerLength := 0;
      payloadBlocks := [];
      currentPayloadBlock := null;
      currentPayloadBlockLength := 0;
      expectedPayloadLength := None;
      payloadLength := 0;
      fullBlocks, full, partial := [], [], [];
    }

    /** The decoder will not write to these frames any more. */
    ghost predicate Released(frames: seq<array<Byte>>)
      reads this
    {
      header !in frames && (currentPayloadBlock != null ==> currentPayloadBlock !in frames)
    }

    lemma {:induction false} BufferedIsUnfinished()
      requires Valid()
      ensures Parse(Buffered(), maxFrameLength) == Parsed([], Buffered(), None)
    {
      if expectedPayloadLength.Some? {
        HeaderRoundTrip(expectedPayloadLength.value);
        assert Buffered()[..FRAME_HEADER_LENGTH] == HeaderBytes(expectedPayloadLength.value);
      }
    }

    /** Memory follows the bytes that really arrived: the blocks never exceed the announced length
        (hence the limit), nor what was received by a whole block. */
    lemma {:induction false} AllocationBounded()
      requires Valid() && expectedPayloadLength.Some?
      ensures Allocated(payloadBlocks) <= expectedPayloadLength.value <= maxFrameLength
      ensures Allocated(payloadBlocks) <= |Received()| + PAYLOAD_BLOCK_SIZE - 1
    {
      FullBlocksAllocation(fullBlocks, full);
      if currentPayloadBlock != null {
        assert payloadBlocks[..|payloadBlocks| - 1] == fullBlocks;
      }
    }

    /** The payload part of one pass: `frame` is the payload if the chunk completes it. */
    method TakePayload(chunk: seq<Byte>, offset: nat) returns (next: nat, frame: array?<Byte>)
      requires Valid() && state.Open? && expectedPayloadLength.Some? && offset <= |chunk|
      modifies this, currentPayloadBlock
      ensures Valid() && state.Open?
      ensures offset <= next <= |chunk| && (offset < |chunk| ==> offset < next)
      ensures old(Buffered()) + chunk[offset..next] == Spelled(frame) + Buffered()
      ensures frame != null ==> frame.Length <= maxFrameLength
      ensures Kept(old(currentPayloadBlock), currentPayloadBlock, frame)
    {
      var n := expectedPayloadLength.value;
      next := CopyPayload(chunk, offset, n);
      Associative(HeaderBytes(n), old(Received()), chunk[offset..next]);
      frame := null;
      if payloadLength == n {
        frame := Deliver(n);
      }
    }

    /** The header part of one pass. */
    method StartFrame(n: nat) returns (frame: array?<Byte>)
      requires Valid() && state.Open? && expectedPayloadLength.None? && headerLength == 0 && n <= maxFrameLength
      modifies this`expectedPayloadLength
      ensures Valid() && state.Open?
      ensures HeaderBytes(n) == Spelled(frame) + Buffered()
      ensures frame != null ==> fresh(frame) && n == 0 == frame.Length
      ensures n > 0 ==> expectedPayloadLength == Some(n)
    {
      if n == 0 {
        frame := new Byte[0];
      } else {
        frame := null;
        expectedPayloadLength := Some(n);
      }
    }

    /** One pass of the outer loop: what is left of a header, then what is there of the payload. */
    method Step(chunk: seq<Byte>, offset: nat) returns (next: nat, frame: array?<Byte>, overlong: Option<nat>)
      requires Valid() && state.Open? && offset < |chunk|
      modifies this, header, currentPayloadBlock
      ensures Valid() && state.Open?
      ensures offset < next <= |chunk|
      ensures overlong.None? ==> old(Buffered()) + chunk[offset..next] == Spelled(frame) + Buffered()
      ensures overlong.None? && frame != null ==> frame.Length <= maxFrameLength
      ensures overlong.Some? ==>
                Announces(old(Buffered()) + chunk[offset..next], overlong.value) && overlong.value > maxFrameLength
      ensures Kept(old(currentPayloadBlock), currentPayloadBlock, frame)
    {
      next, overlong, frame := offset, None, null;
      ghost var seen := Buffered();
      if expectedPayloadLength.None? {
        var length;
        next, length := TakeHeader(chunk, offset);
        seen := seen + chunk[offset..next];
        if length.None? {
          return;
        }
        if length.value > maxFrameLength {
          return next, null, length;
        }
        HeaderInverse(seen);
        frame := StartFrame(length.value);
        if expectedPayloadLength.None? {
          return;
        }
      }
      ghost var start := next;
      assert old(Buffered()) + chunk[offset..start] == Buffered();
      next, frame := TakePayload(chunk, next);
      CutAfter(old(Buffered()), chunk, offset, start, next);
    }

    /** The decoder has read `s` and then `chunk[..offset]`, which spell `payloads` and leave the
        buffered bytes over. */
    ghost predicate Reached(s: seq<Byte>, chunk: seq<Byte>, offset: nat, payloads: seq<seq<Byte>>)
      reads this, header, fullBlocks, currentPayloadBlock
    {
      && Valid() && state.Open?
      && offset <= |chunk| && s + chunk[..offset] == StreamBytes(payloads) + Buffered()
      && Within(payloads, maxFrameLength)
    }

    /** One pass, with the frame it completes added to the list. */
    method Pass(chunk: seq<Byte>, offset: nat, frames: seq<array<Byte>>, ghost s: seq<Byte>,
                ghost payloads: seq<seq<Byte>>)
      returns (next: nat, all: seq<array<Byte>>, overlong: Option<nat>, ghost spelled: seq<seq<Byte>>)
      requires Reached(s, chunk, offset, payloads) && offset < |chunk|
      requires Hold(frames, payloads) && Released(frames)
      modifies this, header, currentPayloadBlock
      ensures Valid() && state.Open? && offset < next <= |chunk|
      ensures overlong.None? ==> Reached(s, chunk, next, spelled)
      ensures overlong.Some? ==> Parse(s + chunk, maxFrameLength).overlong == overlong
      ensures Hold(all, spelled) && Released(all)
      ensures currentPayloadBlock == null || currentPayloadBlock == old(currentPayloadBlock)
              || fresh(currentPayloadBlock)
    {
      all, spelled := frames, payloads;
      var frame;
      next, frame, overlong := Step(chunk, offset);
      assert Hold(frames, payloads);
      if overlong.Some? {
        Overlong(s, chunk, offset, next, payloads, old(Buffered()), overlong.value, maxFrameLength);
        return;
      }
      ghost var got := if frame == null then None else Some(frame[..]);
      Advance(s, chunk, offset, next, payloads, old(Buffered()), got, Buffered());
      if frame != null {
        var delivered: array<Byte> := frame;
        all, spelled := frames + [delivered], payloads + [delivered[..]];
      }
    }

    /** The outer loop, on a decoder that has not failed or ended. */
    method Consume(chunk: seq<Byte>) returns (frames: seq<array<Byte>>, overlong: Option<nat>,
                                              ghost payloads: seq<seq<Byte>>)
      requires Valid() && state.Open?
      modifies this, header, currentPayloadBlock
      ensures Valid() && state.Open?
      ensures overlong.None? ==> Reached(old(Buffered()), chunk, |chunk|, payloads)
      ensures overlong.Some? ==> Parse(old(Buffered()) + chunk, maxFrameLength).overlong == overlong
      ensures Hold(frames, payloads) && Released(frames)
      ensures currentPayloadBlock == null || currentPayloadBlock == old(currentPayloadBlock)
              || fresh(currentPayloadBlock)
    {
      frames, overlong, payloads := [], None, [];
      var offset := 0;
      ghost var s := Buffered();
      while offset < |chunk| && overlong.None?
        invariant Valid() && state.Open? && offset <= |chunk|
        invariant overlong.None? ==> Reached(s, chunk, offset, payloads)
        invariant overlong.Some? ==> Parse(s + chunk, maxFrameLength).overlong == overlong
        invariant Hold(frames, payloads) && Released(frames)
        invariant currentPayloadBlock == null || currentPayloadBlock == old(currentPayloadBlock)
                  || fresh(currentPayloadBlock)
      {
        offset, frames, overlong, payloads := Pass(chunk, offset, frames, s, payloads);
      }
    }

    /** Delivers the frames that `chunk` completes. The frames are never written again: later
        pushes modify only this object, its header buffer and its current block. */
    method Push(chunk: seq<Byte>) returns (r: Result<seq<array<Byte>>, FrameError>)
      requires Valid()
      modifies this, header, currentPayloadBlock
      ensures Valid()
      ensures old(state).Ended? ==> r == Err(HasEnded) && state.Ended?
      ensures old(state).Failed? ==> r == Err(HasFailed) && state.Failed?
      ensures old(state).Open? ==>
                var p := Parse(old(Buffered()) + chunk, maxFrameLength);
                match p.overlong
                case Some(n) => r == Err(FrameTooLong(n)) && state.Failed?
                case None => r.Ok? && Hold(r.value, p.frames) && Buffered() == p.rest && state.Open?
      ensures r.Ok? ==> Released(r.value)
      ensures currentPayloadBlock == null || currentPayloadBlock == old(currentPayloadBlock)
              || fresh(currentPayloadBlock)
    {
      if state.Ended? {
        return Err(HasEnded);
      }
      if state.Failed? {
        return Err(HasFailed);
      }
      var frames, overlong, payloads := Consume(chunk);
      if overlong.Some? {
        Fail();
        return Err(FrameTooLong(overlong.value));
      }
      assert chunk[..|chunk|] == chunk;
      ParseSpelled(payloads, Buffered(), maxFrameLength);
      BufferedIsUnfinished();
      r := Ok(frames);
    }

    method End() returns (r: Result<(), FrameError>)
      requires Valid()
      modifies this
      ensures Valid()
      ensures old(state).Ended? ==> r == Err(HasEnded) && state.Ended?
      ensures old(state).Failed? ==> r == Err(HasFailed) && state.Failed?
      ensures old(state).Open? ==>
                if old(Buffered()) == [] then r == Ok(()) && state.Ended? else r == Err(Truncated) && state.Failed?
    {
      if state.Ended? {
        return Err(HasEnded);
      }
      if state.Failed? {
        return Err(HasFailed);
      }
      if headerLength != 0 || expectedPayloadLength.Some? {
        Fail();
        return Err(Truncated);
      }
      state := Ended;
      r := Ok(());
    }
  }

  // ---- A stream that is received chunk by chunk ---------------------------------------

  lemma {:induction false} PushOne(buffered: seq<Byte>, chunks: seq<seq<Byte>>, max: nat)
    requires chunks != []
    ensures var p := Parse(buffered + chunks[0], max);
            PushAll(buffered, chunks, max) == if p.overlong.Some? then p.(frames := [])
            else After(p.frames, PushAll(p.rest, chunks[1..], max))
  {
  }

  /** The decoder has delivered `payloads`; the remaining chunks complete what `whole` says. */
  ghost predicate Pending(decoder: FrameDecoder, rest: seq<seq<Byte>>, whole: Parsed, payloads: seq<seq<Byte>>)
    reads decoder, decoder.header, decoder.fullBlocks, decoder.currentPayloadBlock
  {
    decoder.Valid() && decoder.state.Open?
    && whole == After(payloads, PushAll(decoder.Buffered(), rest, decoder.maxFrameLength))
  }

  ghost predicate Broken(decoder: FrameDecoder, error: FrameError, whole: Parsed, payloads: seq<seq<Byte>>)
    reads decoder, decoder.header, decoder.fullBlocks, decoder.currentPayloadBlock
  {
    && decoder.Valid() && decoder.state.Failed?
    && whole.frames == payloads && whole.overlong.Some? && error == FrameTooLong(whole.overlong.value)
  }

  lemma {:induction false} WholeStep(buffered: seq<Byte>, rest: seq<seq<Byte>>, max: nat, whole: Parsed,
                                     payloads: seq<seq<Byte>>)
    requires rest != [] && whole == After(payloads, PushAll(buffered, rest, max))
    ensures var p := Parse(buffered + rest[0], max);
            if p.overlong.Some? then whole.frames == payloads && whole.overlong == p.overlong
            else whole == After(payloads + p.frames, PushAll(p.rest, rest[1..], max))
  {
    var p := Parse(buffered + rest[0], max);
    PushOne(buffered, rest, max);
    if p.overlong.None? {
      AfterAfter(payloads, p.frames, PushAll(p.rest, rest[1..], max));
    }
  }

  lemma {:induction false} HoldBoth(frames: seq<array<Byte>>, more: seq<array<Byte>>, payloads: seq<seq<Byte>>,
                                    got: seq<seq<Byte>>)
    requires Hold(frames, payloads) && Hold(more, got)
    ensures Hold(frames + more, payloads + got)
  {
  }

  /** Pushes one chunk, and adds its frames to those delivered before. */
  method PushNext(decoder: FrameDecoder, rest: seq<seq<Byte>>, frames: seq<array<Byte>>, ghost whole: Parsed,
                  ghost payloads: seq<seq<Byte>>)
    returns (all: seq<array<Byte>>, failure: Option<FrameError>, ghost got: seq<seq<Byte>>)
    requires rest != [] && Pending(decoder, rest, whole, payloads)
    requires Hold(frames, payloads) && decoder.Released(frames)
    modifies decoder, decoder.header, decoder.currentPayloadBlock
    ensures Hold(all, got) && decoder.Released(all)
    ensures match failure
            case None => Pending(decoder, rest[1..], whole, got)
            case Some(e) => Broken(decoder, e, whole, got)
    ensures var block := decoder.currentPayloadBlock;
            block == null || block == old(decoder.currentPayloadBlock) || fresh(block)
  {
    WholeStep(decoder.Buffered(), rest, decoder.maxFrameLength, whole, payloads);
    all, failure, got := frames, None, payloads;
    ghost var p := Parse(decoder.Buffered() + rest[0], decoder.maxFrameLength);
    var r := decoder.Push(rest[0]);
    assert Hold(frames, payloads);
    match r
    case Err(e) => failure := Some(e);
    case Ok(more) =>
      HoldBoth(frames, more, payloads, p.frames);
      all, got := frames + more, payloads + p.frames;
  }

  /** Pushes the chunks in turn until one fails. The frames that earlier pushes delivered still hold
      their payloads when later pushes have returned. */
  method PushChunks(decoder: FrameDecoder, chunks: seq<seq<Byte>>)
    returns (frames: seq<array<Byte>>, failure: Option<FrameError>)
    requires decoder.Valid() && decoder.state.Open?
    modifies decoder, decoder.header, decoder.currentPayloadBlock
    ensures decoder.Valid()
    ensures var p := PushAll(old(decoder.Buffered()), chunks, decoder.maxFrameLength);
            && Hold(frames, p.frames) && decoder.Released(frames)
            && match p.overlong
               case None => failure == None && decoder.state.Open? && decoder.Buffered() == p.rest
               case Some(n) => failure == Some(FrameTooLong(n)) && decoder.state.Failed?
  {
    frames, failure := [], None;
    ghost var whole := PushAll(decoder.Buffered(), chunks, decoder.maxFrameLength);
    ghost var payloads: seq<seq<Byte>> := [];
    var i := 0;
    while i < |chunks| && failure.None?
      invariant i <= |chunks| && Hold(frames, payloads) && decoder.Released(frames)
      invariant match failure
                case None => Pending(decoder, chunks[i..], whole, payloads)
                case Some(e) => Broken(decoder, e, whole, payloads)
      invariant var block := decoder.currentPayloadBlock;
                block == null || block == old(decoder.currentPayloadBlock) || fresh(block)
    {
      frames, failure, payloads := PushNext(decoder, chunks[i..], frames, whole, payloads);
      i := i + 1;
    }
  }

  /** Whatever way the encoded payloads are cut, a new decoder hands over arrays that hold exactly these
      payloads, in order, and ends without an error. */
  method Receive(payloads: seq<seq<Byte>>, chunks: seq<seq<Byte>>, limit: nat)
    returns (frames: seq<array<Byte>>, ended: Result<(), FrameError>)
    requires limit <= MAX_UINT32 && Within(payloads, limit) && Joined(chunks) == StreamBytes(payloads)
    ensures Hold(frames, payloads) && ended == Ok(())
  {
    WireRoundTrip(payloads, chunks, limit);
    var decoder := new FrameDecoder(limit);
    var failure;
    frames, failure := PushChunks(decoder, chunks);
    ended := decoder.End();
  }
}
