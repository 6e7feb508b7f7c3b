/**
 The frame codec of the binary device protocol (internal/transport/devotcp/protocol.go): a 16-octet
 header, then the payload. The reader and the writer work on octet buffers; what they compute is
 Parse and Framed, and those two are proved to be inverse to each other up to the flags octet.
 */
module Frames {
  import opened Basics
  import opened BigEndian

  type u16 = n: int | 0 <= n < 0x1_0000
  type u32 = n: int | 0 <= n < 0x1_0000_0000

  const HEADER_LENGTH := 16
  const MAX_PAYLOAD := 8192
  const MAGIC: Bytes := [0x46, 0x52, 0x4d, 0x31]
  const VERSION: byte := 1

  datatype Frame = Frame(msgType: u16, reqId: u32, payload: Bytes)

  datatype FrameError = EndOfInput | UnexpectedEnd | BadFrame | PayloadTooBig

  datatype ReadResult = Read(frame: Frame, rest: Bytes) | Unread(error: FrameError)

  /** Frames the writer accepts. */
  predicate Writable(f: Frame) {
    |f.payload| <= MAX_PAYLOAD
  }

  function Header(msgType: u16, reqId: u32, length: u32): (h: Bytes)
    ensures |h| == HEADER_LENGTH
  {
    MAGIC + [VERSION, 0] + Encode(msgType, 2) + Encode(reqId, 4) + Encode(length, 4)
  }

  /** The octets of a frame as the writer sends them. */
  function Framed(f: Frame): (b: Bytes)
    requires Writable(f)
    ensures |b| == HEADER_LENGTH + |f.payload|
  {
    Header(f.msgType, f.reqId, |f.payload|) + f.payload
  }

  function WordAt(b: Bytes, at: nat, k: nat): (n: nat)
    requires at + k <= |b|
    ensures n < Words(k)
  {
    EncodeDecode(b[at..at + k]);
    Decode(b[at..at + k])
  }

  function U16At(b: Bytes, at: nat): u16
    requires at + 2 <= |b|
  {
    WordsOf(2);
    WordAt(b, at, 2)
  }

  function U32At(b: Bytes, at: nat): u32
    requires at + 4 <= |b|
  {
    WordsOf(4);
    WordAt(b, at, 4)
  }

  /** The first frame of the input, or why there is none. The flags octet is not looked at. */
  function Parse(b: Bytes): (r: ReadResult) {
    if |b| < HEADER_LENGTH then Unread(if b == [] then EndOfInput else UnexpectedEnd)
    else if b[..4] != MAGIC || b[4] != VERSION then Unread(BadFrame)
    else
      var length := U32At(b, 12);
      if length > MAX_PAYLOAD then Unread(PayloadTooBig)
      else if |b| < HEADER_LENGTH + length
      then Unread(if |b| == HEADER_LENGTH then EndOfInput else UnexpectedEnd)
      else Read(Frame(U16At(b, 6), U32At(b, 8), b[HEADER_LENGTH..HEADER_LENGTH + length]), b[HEADER_LENGTH + length..])
  }

  // ---------------------------------------------------------------------------
  // Headers
  // ---------------------------------------------------------------------------

  lemma HeaderFields(h: Bytes, msgType: u16, reqId: u32, length: u32)
    requires h == Header(msgType, reqId, length)
    ensures h[..4] == MAGIC && h[4] == VERSION && h[5] == 0
    ensures h[6..8] == Encode(msgType, 2) && h[8..12] == Encode(reqId, 4) && h[12..16] == Encode(length, 4)
  {
  }

  lemma FieldsMakeHeader(h: Bytes, msgType: u16, reqId: u32, length: u32)
    requires |h| == HEADER_LENGTH && h[..4] == MAGIC && h[4] == VERSION
    requires h[6..8] == Encode(msgType, 2) && h[8..12] == Encode(reqId, 4) && h[12..16] == Encode(length, 4)
    ensures h[5 := 0] == Header(msgType, reqId, length)
  {
    var z := h[5 := 0];
    assert z[..4] == h[..4] && z[6..8] == h[6..8] && z[8..12] == h[8..12] && z[12..16] == h[12..16];
    assert z == z[..4] + [z[4], z[5]] + z[6..8] + z[8..12] + z[12..16];
  }

  /** The fields of a header are the fields of any input that starts with it. */
  lemma HeaderPrefix(b: Bytes)
    requires |b| >= HEADER_LENGTH
    ensures var h := b[..HEADER_LENGTH];
            h[..4] == b[..4] && h[4] == b[4] && U16At(h, 6) == U16At(b, 6) && U32At(h, 8) == U32At(b, 8) && U32At(h, 12) == U32At(b, 12)
  {
    var h := b[..HEADER_LENGTH];
    assert h[6..8] == b[6..8] && h[8..12] == b[8..12] && h[12..16] == b[12..16];
  }

  lemma WordRoundTrip(b: Bytes, at: nat, k: nat, n: nat)
    requires at + k <= |b| && n < Words(k)
    ensures b[at..at + k] == Encode(n, k) <==> WordAt(b, at, k) == n
  {
    DecodeEncode(n, k);
    EncodeDecode(b[at..at + k]);
  }

  // ---------------------------------------------------------------------------
  // Main results
  // ---------------------------------------------------------------------------

  lemma WrittenFramesParse(f: Frame, rest: Bytes)
    requires Writable(f)
    ensures Parse(Framed(f) + rest) == Read(f, rest)
  {
    var b, h := Framed(f) + rest, Header(f.msgType, f.reqId, |f.payload|);
    WordsOf(2);
    WordsOf(4);
    HeaderFields(h, f.msgType, f.reqId, |f.payload|);
    assert b[..4] == h[..4] && b[6..8] == h[6..8] && b[8..12] == h[8..12] && b[12..16] == h[12..16];
    WordRoundTrip(b, 6, 2, f.msgType);
    WordRoundTrip(b, 8, 4, f.reqId);
    WordRoundTrip(b, 12, 4, |f.payload|);
  }

  lemma ParsedHeader(b: Bytes)
    requires Parse(b).Read?
    ensures var f := Parse(b).frame;
            b[..HEADER_LENGTH][5 := 0] == Header(f.msgType, f.reqId, |f.payload|)
  {
    var f, h := Parse(b).frame, b[..HEADER_LENGTH];
    WordsOf(2);
    WordsOf(4);
    WordRoundTrip(b, 6, 2, f.msgType);
    WordRoundTrip(b, 8, 4, f.reqId);
    WordRoundTrip(b, 12, 4, |f.payload|);
    assert h[..4] == b[..4] && h[6..8] == b[6..8] && h[8..12] == b[8..12] && h[12..16] == b[12..16];
    FieldsMakeHeader(h, f.msgType, f.reqId, |f.payload|);
  }

  lemma ClearThenSplit(b: Bytes, i: nat, j: nat)
    requires 5 < i <= j <= |b|
    ensures b[5 := 0] == b[..i][5 := 0] + b[i..j] + b[j..]
  {
  }

  /** What was read, written again, is what was consumed with the flags octet cleared. */
  lemma ParsedFramesRewrite(b: Bytes)
    requires Parse(b).Read?
    ensures var r := Parse(b);
            |b| > 5 && Writable(r.frame) && b[5 := 0] == Framed(r.frame) + r.rest
  {
    ParsedHeader(b);
    ClearThenSplit(b, HEADER_LENGTH, HEADER_LENGTH + |Parse(b).frame.payload|);
  }

  /** The reader accepts exactly what the writer produces, whatever the flags octet. */
  lemma ParseInvertsFramed(b: Bytes, f: Frame, rest: Bytes)
    ensures Parse(b) == Read(f, rest) <==> |b| > 5 && Writable(f) && b[5 := 0] == Framed(f) + rest
  {
    if Parse(b) == Read(f, rest) {
      ParsedFramesRewrite(b);
    }
    if |b| > 5 && Writable(f) && b[5 := 0] == Framed(f) + rest {
      WrittenFramesParse(f, rest);
      FlagsAreIgnored(b, 0);
    }
  }

  lemma FlagsAreIgnored(b: Bytes, flags: byte)
    requires |b| > 5
    ensures Parse(b[5 := flags]) == Parse(b)
  {
    var c := b[5 := flags];
    if |b| >= HEADER_LENGTH {
      assert c[..4] == b[..4] && c[6..8] == b[6..8] && c[8..12] == b[8..12] && c[12..16] == b[12..16];
      assert c[HEADER_LENGTH..] == b[HEADER_LENGTH..];
      assert forall n | HEADER_LENGTH <= n <= |b| ::
        c[HEADER_LENGTH..n] == b[HEADER_LENGTH..n] && c[n..] == b[n..];
    }
  }

  /** A frame cut short anywhere is an end of input, never a different frame. */
  lemma NoProperPrefixParses(b: Bytes, k: nat)
    requires Parse(b).Read? && Parse(b).rest == [] && k < |b|
    ensures Parse(b[..k]) == Unread(if k == 0 || k == HEADER_LENGTH then EndOfInput else UnexpectedEnd)
  {
    var p := b[..k];
    if k >= HEADER_LENGTH {
      assert p[..4] == b[..4] && p[12..16] == b[12..16];
    }
  }

  function WriteAll(frames: seq<Frame>): Bytes
    requires forall i | 0 <= i < |frames| :: Writable(frames[i])
  {
    if frames == [] then [] else Framed(frames[0]) + WriteAll(frames[1..])
  }

  datatype Stream = Stream(frames: seq<Frame>, leftover: Bytes)

  /** Reading frames for as long as they come. */
  function ParseAll(b: Bytes): (s: Stream)
    decreases |b|
  {
    var r := Parse(b);
    if r.Unread? then Stream([], b)
    else
      var tail := ParseAll(r.rest);
      Stream([r.frame] + tail.frames, tail.leftover)
  }

  lemma OneMoreFrame(f: Frame, more: Bytes)
    requires Writable(f)
    ensures ParseAll(Framed(f) + more) == Stream([f] + ParseAll(more).frames, ParseAll(more).leftover)
  {
    WrittenFramesParse(f, more);
  }

  lemma Associates<T>(a: seq<T>, b: seq<T>, c: seq<T>)
    ensures (a + b) + c == a + (b + c)
  {
  }

  lemma HeadFirst<T>(a: seq<T>, b: seq<T>)
    requires a != []
    ensures a + b == [a[0]] + (a[1..] + b)
  {
  }

  /** A stream of written frames reads back as those frames, followed by whatever the tail reads as. */
  lemma {:induction false} StreamRoundTrip(frames: seq<Frame>, tail: Bytes)
    requires forall i | 0 <= i < |frames| :: Writable(frames[i])
    ensures ParseAll(WriteAll(frames) + tail) == Stream(frames + ParseAll(tail).frames, ParseAll(tail).leftover)
  {
    if frames == [] {
      assert WriteAll(frames) + tail == tail;
    } else {
      var more := WriteAll(frames[1..]) + tail;
      StreamRoundTrip(frames[1..], tail);
      OneMoreFrame(frames[0], more);
      Associates(Framed(frames[0]), WriteAll(frames[1..]), tail);
      HeadFirst(frames, ParseAll(tail).frames);
    }
  }

  /** Exactly the written frames, nothing left over. */
  lemma {:induction false} WrittenStreamsParse(frames: seq<Frame>)
    requires forall i | 0 <= i < |frames| :: Writable(frames[i])
    ensures ParseAll(WriteAll(frames)) == Stream(frames, [])
  {
    StreamRoundTrip(frames, []);
    assert WriteAll(frames) + [] == WriteAll(frames);
    assert ParseAll([]) == Stream([], []);
    assert frames + [] == frames;
  }

  /** No two lists of frames are written the same way. */
  lemma {:induction false} WritingIsInjective(a: seq<Frame>, b: seq<Frame>)
    requires forall i | 0 <= i < |a| :: Writable(a[i])
    requires forall i | 0 <= i < |b| :: Writable(b[i])
    requires WriteAll(a) == WriteAll(b)
    ensures a == b
  {
    WrittenStreamsParse(a);
    WrittenStreamsParse(b);
  }

  // ---------------------------------------------------------------------------
  // The reader and the writer
  // ---------------------------------------------------------------------------

  lemma TwoOctets(v: u16)
    ensures Encode(v, 2) == [v / 256, v % 256]
  {
    assert Encode(v / 256, 1) == [v / 256 % 256];
  }

  lemma FourOctets(v: u32)
    ensures Encode(v, 4) == [v / 0x100_0000, v / 0x1_0000 % 256, v / 256 % 256, v % 256]
  {
    assert Encode(v / 256 / 256 / 256, 1) == [v / 256 / 256 / 256 % 256];
    assert Encode(v / 256 / 256, 2) == [v / 256 / 256 / 256 % 256, v / 256 / 256 % 256];
    assert Encode(v / 256, 3) == [v / 256 / 256 / 256 % 256, v / 256 / 256 % 256, v / 256 % 256];
  }

  /** binary.BigEndian.PutUint16 */
  method PutU16(buf: array<byte>, at: nat, v: u16)
    requires at + 2 <= buf.Length
    modifies buf
    ensures buf[..] == old(buf[..at]) + Encode(v, 2) + old(buf[at + 2..])
  {
    TwoOctets(v);
    buf[at], buf[at + 1] := v / 256, v % 256;
  }

  /** binary.BigEndian.PutUint32 */
  method PutU32(buf: array<byte>, at: nat, v: u32)
    requires at + 4 <= buf.Length
    modifies buf
    ensures buf[..] == old(buf[..at]) + Encode(v, 4) + old(buf[at + 4..])
  {
    FourOctets(v);
    buf[at], buf[at + 1] := v / 0x100_0000, v / 0x1_0000 % 256;
    buf[at + 2], buf[at + 3] := v / 256 % 256, v % 256;
  }

  /** One connection: everything the peer will ever send, and everything sent to it so far. */
  class Connection {
    const input: Bytes
    var consumed: nat
    var output: Bytes

    ghost predicate Valid()
      reads this
    {
      consumed <= |input|
    }

    function Pending(): Bytes
      requires Valid()
      reads this
    {
      input[consumed..]
    }

    constructor (input: Bytes)
      ensures Valid() && this.input == input && consumed == 0 && output == []
    {
      this.input, consumed, output := input, 0, [];
    }

    /** io.ReadFull: all of the buffer, or an error telling whether anything was there. */
    method ReadFull(buf: array<byte>) returns (error: Option<FrameError>)
      requires Valid() && buf.Length > 0
      modifies this`consumed, buf
      ensures Valid()
      ensures error.None? <==> old(|Pending()|) >= buf.Length
      ensures error.None? ==> buf[..] == old(Pending())[..buf.Length] && Pending() == old(Pending())[buf.Length..]
      ensures error.Some? ==> error.value == if old(Pending()) == [] then EndOfInput else UnexpectedEnd
    {
      ghost var before := Pending();
      var n := 0;
      while n < buf.Length && consumed < |input|
        invariant n <= buf.Length && n <= |before| && Valid()
        invariant consumed == old(consumed) + n
        invariant buf[..n] == before[..n]
        decreases buf.Length - n
      {
        buf[n] := input[consumed];
        n, consumed := n + 1, consumed + 1;
      }
      if n == buf.Length {
        error := None;
      } else {
        error := Some(if n == 0 then EndOfInput else UnexpectedEnd);
      }
    }

    method Write(b: Bytes)
      modifies this`output
      ensures output == old(output) + b
    {
      output := output + b;
    }

    method ReadFrame() returns (r: Result<Frame, FrameError>)
      requires Valid()
      modifies this`consumed
      ensures Valid()
      ensures match Parse(old(Pending()))
              case Read(frame, rest) => r == Ok(frame) && Pending() == rest
              case Unread(error) => r == Err(error)
    {
      ghost var before := Pending();
      var hdr := new byte[HEADER_LENGTH];
      var error := ReadFull(hdr);
      if error.Some? {
        return Err(error.value);
      }
      var h := hdr[..];
      HeaderPrefix(before);
      if hdr[0] != 0x46 || hdr[1] != 0x52 || hdr[2] != 0x4d || hdr[3] != 0x31 {
        return Err(BadFrame);
      }
      assert h[..4] == MAGIC;
      if hdr[4] != VERSION {
        return Err(BadFrame);
      }
      var msgType, reqId, length := U16At(h, 6), U32At(h, 8), U32At(h, 12);
      if length > MAX_PAYLOAD {
        return Err(PayloadTooBig);
      }
      var payload: Bytes := [];
      if length > 0 {
        var buf := new byte[length];
        error := ReadFull(buf);
        if error.Some? {
          return Err(error.value);
        }
        payload := buf[..];
      }
      assert payload == before[HEADER_LENGTH..HEADER_LENGTH + length];
      r := Ok(Frame(msgType, reqId, payload));
    }

    method WriteFrame(msgType: u16, reqId: u32, payload: Bytes) returns (ok: bool)
      modifies this`output
      ensures ok <==> |payload| <= MAX_PAYLOAD
      ensures output == old(output) + if ok then Framed(Frame(msgType, reqId, payload)) else []
    {
      if |payload| > MAX_PAYLOAD {
        return false;
      }
      var hdr := new byte[HEADER_LENGTH];
      hdr[0], hdr[1], hdr[2], hdr[3] := 0x46, 0x52, 0x4d, 0x31;
      hdr[4] := VERSION;
      hdr[5] := 0;
      assert hdr[..6] == MAGIC + [VERSION, 0];
      PutU16(hdr, 6, msgType);
      PutU32(hdr, 8, reqId);
      PutU32(hdr, 12, |payload|);
      assert hdr[..] == Header(msgType, reqId, |payload|);
      Write(hdr[..]);
      if |payload| > 0 {
        Write(payload);
      }
      ok := true;
    }
  }
}
