/**
 Docker's multiplexed output format: each frame is an 8-byte header (stream type, three zero
 bytes, big-endian payload size) and its payload. Two decoders are modelled: the one that
 separates standard output from standard error, and the older one that only strips headers.
 */
module DockerStream {
  import opened Common

  const HEADER_SIZE: nat := 8

  datatype Frame = Frame(stream: Byte, payload: Bytes) {
    predicate Valid() {
      |payload| < 0x1_0000_0000
    }

    function Encode(): Bytes
      requires Valid()
    {
      [stream, 0, 0, 0] + Put32(|payload|) + payload
    }
  }

  predicate AllValid(frames: seq<Frame>) {
    forall f <- frames :: f.Valid()
  }

  function EncodeAll(frames: seq<Frame>): Bytes
    requires AllValid(frames)
  {
    if frames == [] then [] else frames[0].Encode() + EncodeAll(frames[1..])
  }

  /** The payloads of the frames whose stream type satisfies `keep`, in order. */
  function Payloads(frames: seq<Frame>, keep: Byte -> bool): Bytes {
    if frames == [] then []
    else (if keep(frames[0].stream) then frames[0].payload else []) + Payloads(frames[1..], keep)
  }

  /** Stream type 2 is standard error; every other type counts as standard output. */
  const IsStderr: Byte -> bool := t => t == 2
  const IsStdout: Byte -> bool := t => t != 2
  const Any: Byte -> bool := t => true

  function SizeOf(header: Bytes): (n: nat)
    requires |header| == HEADER_SIZE
  {
    BigEndian32(header[4..])
  }

  // ----- Separating the two streams ----------------------------------------------------------

  datatype ReadError = UnexpectedEOF | EOF

  /** What the decoder has written, and how it ended. */
  datatype Demuxed = Demuxed(stdout: Bytes, stderr: Bytes, error: Option<ReadError>)

  /** The decoder on the bytes that are still unread. */
  function Demux(input: Bytes): (d: Demuxed)
    decreases |input|
  {
    if input == [] then Demuxed([], [], None)
    else if |input| < HEADER_SIZE then Demuxed([], [], Some(UnexpectedEOF))
    else
      var size := SizeOf(input[..HEADER_SIZE]);
      var body := input[HEADER_SIZE..];
      var payload := if size <= |body| then body[..size] else body;
      var rest := if size <= |body| then Demux(body[size..]) else Demuxed([], [], Some(EOF));
      if IsStderr(input[0]) then rest.(stderr := payload + rest.stderr)
      else rest.(stdout := payload + rest.stdout)
  }

  /**
   Byte by byte: a frame begins with its type, three unused bytes and its size, most
   significant byte first; type 2 goes to standard error and any other to standard output.
   */
  lemma DemuxBytes(header: Bytes, payload: Bytes, rest: Bytes)
    requires |header| == 8
    requires |payload| ==
             ((header[4] as int * 256 + header[5] as int) * 256 + header[6] as int) * 256 + header[7] as int
    ensures var (d, after) := (Demux(header + (payload + rest)), Demux(rest));
            if header[0] == 2 then d == after.(stderr := payload + after.stderr)
            else d == after.(stdout := payload + after.stdout)
  {
    var input := header + (payload + rest);
    SizeOfBytes(header);
    assert input[..8] == header && input[8..] == payload + rest;
    assert (payload + rest)[..|payload|] == payload && (payload + rest)[|payload|..] == rest;
  }

  lemma SizeOfBytes(header: Bytes)
    requires |header| == 8
    ensures SizeOf(header) ==
            ((header[4] as int * 256 + header[5] as int) * 256 + header[6] as int) * 256 + header[7] as int
  {
    BigEndianIs(header[4], header[5], header[6], header[7]);
    assert header[4..] == [header[4], header[5], header[6], header[7]];
  }

  /** A reader over a byte stream that has ended. */
  class ByteReader {
    var rest: Bytes

    constructor (input: Bytes)
      ensures rest == input
    {
      rest := input;
    }

    /** Reads exactly `n` bytes, or reports how the stream fell short. */
    method ReadFull(n: nat) returns (data: Bytes, error: Option<ReadError>)
      modifies this
      ensures data + rest == old(rest)
      ensures |old(rest)| >= n ==> |data| == n && error == None
      ensures |old(rest)| < n ==> rest == [] && error == Some(if data == [] then EOF else UnexpectedEOF)
    {
      var k := if n < |rest| then n else |rest|;
      data := rest[..k];
      error := if k == n then None else if k == 0 then Some(EOF) else Some(UnexpectedEOF);
      rest := rest[k..];
    }

    /** Reads up to `n` bytes; a short copy is reported as the end of the stream. */
    method CopyN(n: nat) returns (data: Bytes, error: Option<ReadError>)
      modifies this
      ensures data + rest == old(rest)
      ensures |old(rest)| >= n ==> |data| == n && error == None
      ensures |old(rest)| < n ==> rest == [] && error == Some(EOF)
    {
      var k := if n < |rest| then n else |rest|;
      data := rest[..k];
      error := if k == n then None else Some(EOF);
      rest := rest[k..];
    }
  }

  method DemuxDockerStream(reader: ByteReader) returns (stdout: Bytes, stderr: Bytes, error: Option<ReadError>)
    modifies reader
    ensures Demuxed(stdout, stderr, error) == Demux(old(reader.rest))
  {
    stdout, stderr, error := [], [], None;
    ghost var goal := Demux(reader.rest);
    while true
      invariant error == None
      invariant var d := Demux(reader.rest);
                goal == Demuxed(stdout + d.stdout, stderr + d.stderr, d.error)
      decreases |reader.rest|
    {
      ghost var before := reader.rest;
      var header, headerError := reader.ReadFull(HEADER_SIZE);
      if headerError.Some? {
        assert stdout + [] == stdout && stderr + [] == stderr;
        error := if headerError.value == EOF then None else headerError;
        return;
      }
      assert before[..HEADER_SIZE] == header && before[HEADER_SIZE..] == reader.rest;
      var size := SizeOf(header);
      if size == 0 {
        EmptyFrame(before);
        continue;
      }
      ghost var body := reader.rest;
      var payload, copyError := reader.CopyN(size);
      ghost var d := Demux(reader.rest);
      DemuxFrame(before, payload, reader.rest);
      if header[0] == 2 {
        ConcatAssociates(stderr, payload, d.stderr);
        stderr := stderr + payload;
      } else {
        ConcatAssociates(stdout, payload, d.stdout);
        stdout := stdout + payload;
      }
      if copyError.Some? {
        assert stdout + [] == stdout && stderr + [] == stderr;
        return stdout, stderr, copyError;
      }
    }
  }

  lemma EmptyFrame(input: Bytes)
    requires |input| >= HEADER_SIZE && SizeOf(input[..HEADER_SIZE]) == 0
    ensures Demux(input) == Demux(input[HEADER_SIZE..])
  {
    var body := input[HEADER_SIZE..];
    assert body[..0] == [] && body[0..] == body;
    var d := Demux(body);
    assert [] + d.stdout == d.stdout && [] + d.stderr == d.stderr;
  }

  /** The first frame of the input goes to its stream, in front of what follows. */
  lemma DemuxFrame(input: Bytes, payload: Bytes, rest: Bytes)
    requires |input| >= HEADER_SIZE && input[HEADER_SIZE..] == payload + rest
    requires var size := SizeOf(input[..HEADER_SIZE]);
             |payload| == size || (|payload| < size && rest == [])
    ensures var size := SizeOf(input[..HEADER_SIZE]);
            var d := if |payload| == size then Demux(rest) else Demuxed([], [], Some(EOF));
            Demux(input) ==
            if input[0] == 2 then d.(stderr := payload + d.stderr) else d.(stdout := payload + d.stdout)
  {
    var size := SizeOf(input[..HEADER_SIZE]);
    var body := input[HEADER_SIZE..];
    if |payload| == size {
      assert body[..size] == payload && body[size..] == rest;
    } else {
      assert body == payload;
    }
  }

  lemma HeaderOfEncoding(f: Frame, rest: Bytes)
    requires f.Valid()
    ensures var wire := f.Encode() + rest;
            && |wire| >= HEADER_SIZE && wire[0] == f.stream
            && SizeOf(wire[..HEADER_SIZE]) == |f.payload|
            && wire[HEADER_SIZE..] == f.payload + rest
            && wire != []
  {
    var wire := f.Encode() + rest;
    assert wire[..HEADER_SIZE][4..] == Put32(|f.payload|);
  }

  /** Every encoded list of frames is taken apart again, each payload to its own stream. */
  lemma {:induction false} DemuxOfEncoding(frames: seq<Frame>)
    requires AllValid(frames)
    ensures Demux(EncodeAll(frames)) == Demuxed(Payloads(frames, IsStdout), Payloads(frames, IsStderr), None)
    decreases |frames|
  {
    hide Frame.Encode, SizeOf;
    if frames != [] {
      var f := frames[0];
      var rest := EncodeAll(frames[1..]);
      HeaderOfEncoding(f, rest);
      DemuxFrame(EncodeAll(frames), f.payload, rest);
      DemuxOfEncoding(frames[1..]);
      var d := Demux(rest);
      assert [] + d.stdout == d.stdout && [] + d.stderr == d.stderr;
    }
  }

  /** A stream cut off inside a frame delivers everything before the cut, and then an error. */
  lemma {:induction false} TruncationIsReported(frames: seq<Frame>, last: Frame, kept: nat)
    requires AllValid(frames) && last.Valid() && 0 < kept < HEADER_SIZE + |last.payload|
    ensures |last.Encode()| == HEADER_SIZE + |last.payload|
    ensures var part := if kept < HEADER_SIZE then [] else last.payload[..kept - HEADER_SIZE];
            Demux(EncodeAll(frames) + last.Encode()[..kept]) ==
            Demuxed(Payloads(frames, IsStdout) + (if last.stream == 2 then [] else part),
                    Payloads(frames, IsStderr) + (if last.stream == 2 then part else []),
                    Some(if kept < HEADER_SIZE then UnexpectedEOF else EOF))
    decreases |frames|
  {
    var tail := last.Encode()[..kept];
    if frames == [] {
      assert EncodeAll(frames) + tail == tail;
      CutFrame(last, kept);
    } else {
      hide Frame.Encode, SizeOf, Demux;
      var f := frames[0];
      var rest := EncodeAll(frames[1..]) + tail;
      ConcatAssociates(f.Encode(), EncodeAll(frames[1..]), tail);
      HeaderOfEncoding(f, rest);
      DemuxFrame(f.Encode() + rest, f.payload, rest);
      TruncationIsReported(frames[1..], last, kept);
      var part := if kept < HEADER_SIZE then [] else last.payload[..kept - HEADER_SIZE];
      ConcatAssociates(f.payload, Payloads(frames[1..], IsStdout), if last.stream == 2 then [] else part);
      ConcatAssociates(f.payload, Payloads(frames[1..], IsStderr), if last.stream == 2 then part else []);
      assert [] + Payloads(frames[1..], IsStdout) == Payloads(frames[1..], IsStdout);
      assert [] + Payloads(frames[1..], IsStderr) == Payloads(frames[1..], IsStderr);
    }
  }

  lemma CutFrame(f: Frame, kept: nat)
    requires f.Valid() && 0 < kept < HEADER_SIZE + |f.payload|
    ensures |f.Encode()| == HEADER_SIZE + |f.payload|
    ensures var part := if kept < HEADER_SIZE then [] else f.payload[..kept - HEADER_SIZE];
            Demux(f.Encode()[..kept]) ==
            Demuxed([] + (if f.stream == 2 then [] else part), [] + (if f.stream == 2 then part else []),
                    Some(if kept < HEADER_SIZE then UnexpectedEOF else EOF))
  {
    var wire := f.Encode();
    var tail := wire[..kept];
    HeaderOfEncoding(f, []);
    assert wire + [] == wire && f.payload + [] == f.payload;
    if kept >= HEADER_SIZE {
      var part := f.payload[..kept - HEADER_SIZE];
      assert tail[..HEADER_SIZE] == wire[..HEADER_SIZE];
      assert tail[HEADER_SIZE..] == wire[HEADER_SIZE..][..kept - HEADER_SIZE] == part;
      assert part + [] == part;
      DemuxFrame(tail, part, []);
    }
  }

  // ----- Only stripping headers ----------------------------------------------------------------

  /** Strips headers as long as they look valid; from the first that does not, the rest is raw. */
  function Strip(data: Bytes): Bytes
    decreases |data|
  {
    if data == [] then []
    else if |data| >= HEADER_SIZE && data[0] <= 2 then
      var size := SizeOf(data[..HEADER_SIZE]);
      var body := data[HEADER_SIZE..];
      if 0 < size <= |body| then body[..size] + Strip(body[size..]) else body
    else data
  }

  /** Data that does not begin with a whole header of type 0, 1 or 2 is returned as it is. */
  lemma RawDataStays(data: Bytes)
    requires |data| < 8 || data[0] > 2
    ensures Strip(data) == data
  {}

  /** A header of those types goes; its payload stays, and after a size that does not fit, all the rest. */
  lemma StripBytes(header: Bytes, body: Bytes)
    requires |header| == 8 && header[0] <= 2
    ensures var size := ((header[4] as int * 256 + header[5] as int) * 256 + header[6] as int) * 256 + header[7] as int;
            Strip(header + body) == if 0 < size <= |body| then body[..size] + Strip(body[size..]) else body
  {
    SizeOfBytes(header);
    assert (header + body)[..8] == header && (header + body)[8..] == body;
  }

  method StripDockerLogHeaders(input: Bytes) returns (result: Bytes)
    ensures result == Strip(input)
  {
    var data := input;
    result := [];
    while |data| > 0
      invariant result + Strip(data) == Strip(input)
      decreases |data|
    {
      if |data| >= HEADER_SIZE && (data[0] == 0 || data[0] == 1 || data[0] == 2) {
        var size := SizeOf(data[..HEADER_SIZE]);
        data := data[HEADER_SIZE..];
        if size > 0 && size <= |data| {
          ConcatAssociates(result, data[..size], Strip(data[size..]));
          result := result + data[..size];
          data := data[size..];
        } else {
          return result + data;
        }
      } else {
        return result + data;
      }
    }
    assert result + [] == result;
  }

  /** Stream types 0 to 2 only, and no empty frame except possibly the last one. */
  predicate Strippable(frames: seq<Frame>) {
    forall k :: 0 <= k < |frames| ==>
      frames[k].stream <= 2 && (frames[k].payload != [] || k == |frames| - 1)
  }

  lemma {:induction false} EncodedLength(frames: seq<Frame>)
    requires AllValid(frames)
    ensures |EncodeAll(frames)| == |Payloads(frames, Any)| + HEADER_SIZE * |frames|
  {
    if frames != [] {
      EncodedLength(frames[1..]);
    }
  }

  lemma StrippableTail(frames: seq<Frame>)
    requires frames != []
    ensures Strippable(frames) <==>
            frames[0].stream <= 2 && (frames[0].payload != [] || |frames| == 1) && Strippable(frames[1..])
  {
    if frames[0].stream <= 2 && (frames[0].payload != [] || |frames| == 1) && Strippable(frames[1..]) {
      forall k | 0 <= k < |frames|
        ensures frames[k].stream <= 2 && (frames[k].payload != [] || k == |frames| - 1)
      {
        assert k > 0 ==> frames[k] == frames[1..][k - 1];
      }
    }
    if Strippable(frames) {
      assert forall k :: 0 <= k < |frames| - 1 ==> frames[1..][k] == frames[k + 1];
    }
  }

  /**
   Stripping the headers of an encoded frame list yields all payloads in order if and only if
   the list is strippable; otherwise headers are left in the output and it is longer.
   */
  lemma {:induction false} StripIsExactIffStrippable(frames: seq<Frame>)
    requires AllValid(frames)
    ensures Strip(EncodeAll(frames)) == Payloads(frames, Any) <==> Strippable(frames)
    ensures |Strip(EncodeAll(frames))| >= |Payloads(frames, Any)|
    ensures |Strip(EncodeAll(frames))| == |Payloads(frames, Any)| ==> Strippable(frames)
    decreases |frames|
  {
    hide Frame.Encode, SizeOf, Strippable;
    if frames == [] {
      EmptyIsStrippable();
    } else {
      var f := frames[0];
      var rest := EncodeAll(frames[1..]);
      HeaderOfEncoding(f, rest);
      StrippableTail(frames);
      EncodedLength(frames);
      EncodedLength(frames[1..]);
      StripIsExactIffStrippable(frames[1..]);
      assert (f.payload + rest)[..|f.payload|] == f.payload && (f.payload + rest)[|f.payload|..] == rest;
      assert [] + rest == rest;
      if |frames| == 1 {
        assert rest == [] && Payloads(frames[1..], Any) == [] && f.payload + [] == f.payload;
      }
    }
  }

  lemma EmptyIsStrippable()
    ensures Strippable([])
  {}
}
