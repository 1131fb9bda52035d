/**
 * The clamd INSTREAM framing of a buffer: each slice of at most 64 KiB is preceded by its length as four bytes, most
 * significant first, and a zero length ends the stream.
 */
module ScanFraming {
  import opened Common

  newtype Byte = x: int | 0 <= x < 256

  const CHUNK_SIZE := 65536

  function Command(): seq<Byte> {
    // "zINSTREAM" and a zero byte
    [122, 73, 78, 83, 84, 82, 69, 65, 77, 0]
  }

  /** writeUInt32BE. */
  function BigEndian(n: nat): (r: seq<Byte>)
    requires n < 0x1_0000_0000
    ensures |r| == 4
  {
    [(n / 0x100_0000) as Byte, (n / 0x1_0000 % 256) as Byte, (n / 256 % 256) as Byte, (n % 256) as Byte]
  }

  function ReadBigEndian(b: seq<Byte>): (n: nat)
    requires |b| >= 4
  {
    b[0] as nat * 0x100_0000 + b[1] as nat * 0x1_0000 + b[2] as nat * 256 + b[3] as nat
  }

  lemma BigEndianRoundTrip(n: nat)
    requires n < 0x1_0000_0000
    ensures ReadBigEndian(BigEndian(n)) == n
  {
    var a, b, c := n / 256, n / 0x1_0000, n / 0x100_0000;
    assert b == a / 256 && c == b / 256;
    assert n == a * 256 + n % 256 && a == b * 256 + a % 256 && b == c * 256 + b % 256;
  }

  /** The frames of the buffer from offset on. */
  function Frames(buffer: seq<Byte>): seq<seq<Byte>>
    decreases |buffer|
  {
    if buffer == [] then []
    else
      var n := Min(CHUNK_SIZE, |buffer|);
      [buffer[..n]] + Frames(buffer[n..])
  }

  function Encode(frames: seq<seq<Byte>>): seq<Byte>
    requires forall i :: 0 <= i < |frames| ==> 0 < |frames[i]| < 0x1_0000_0000
  {
    if frames == [] then BigEndian(0)
    else BigEndian(|frames[0]|) + frames[0] + Encode(frames[1..])
  }

  /** What the daemon does with the bytes after the command: read lengths and slices up to the zero length. */
  function Decode(stream: seq<Byte>): Option<(seq<Byte>, seq<Byte>)>
    decreases |stream|
  {
    if |stream| < 4 then None
    else
      var n := ReadBigEndian(stream);
      var rest := stream[4..];
      if n == 0 then Some(([], rest))
      else if |rest| < n then None
      else
        var more := Decode(rest[n..]);
        if more.None? then None else Some((rest[..n] + more.value.0, more.value.1))
  }

  /** Every data frame holds 1 to 65536 bytes, only the last may be short, and together they are the buffer. */
  lemma {:induction false} FramesCoverBuffer(buffer: seq<Byte>)
    ensures var frames := Frames(buffer);
            && (forall i :: 0 <= i < |frames| ==> 1 <= |frames[i]| <= CHUNK_SIZE)
            && (forall i :: 0 <= i < |frames| - 1 ==> |frames[i]| == CHUNK_SIZE)
            && Flatten(frames) == buffer
            && |frames| == FrameCount(|buffer|)
    decreases |buffer|
  {
    if buffer != [] {
      hide Frames, Flatten;
      var n := Min(CHUNK_SIZE, |buffer|);
      FramesCoverBuffer(buffer[n..]);
      FirstFrame(buffer);
      FrameCountStep(|buffer|);
      assert buffer == buffer[..n] + buffer[n..];
      assert |buffer| < CHUNK_SIZE ==> Frames(buffer[n..]) == [] by { FrameCountStep(0); }
    }
  }

  lemma {:induction false} FirstFrame(buffer: seq<Byte>)
    requires buffer != []
    ensures var n := Min(CHUNK_SIZE, |buffer|);
            && Frames(buffer) == [buffer[..n]] + Frames(buffer[n..])
            && Flatten(Frames(buffer)) == buffer[..n] + Flatten(Frames(buffer[n..]))
  {
    var n := Min(CHUNK_SIZE, |buffer|);
    assert Frames(buffer)[1..] == Frames(buffer[n..]);
  }

  /** The number of slices of CHUNK_SIZE it takes to cover n bytes. */
  function FrameCount(n: nat): nat {
    (n + CHUNK_SIZE - 1) / CHUNK_SIZE
  }

  lemma FrameCountStep(n: nat)
    ensures FrameCount(n) == if n == 0 then 0 else 1 + FrameCount(n - Min(CHUNK_SIZE, n))
  {
    if n >= CHUNK_SIZE {
      assert n + CHUNK_SIZE - 1 == (n - CHUNK_SIZE + CHUNK_SIZE - 1) + CHUNK_SIZE;
    }
  }

  lemma {:induction false} FrameCountOfMultiple(k: nat)
    ensures FrameCount(k * CHUNK_SIZE) == k
  {
  }

  function Flatten(frames: seq<seq<Byte>>): seq<Byte> {
    if frames == [] then [] else frames[0] + Flatten(frames[1..])
  }

  lemma {:induction false} DecodeFrames(frames: seq<seq<Byte>>, tail: seq<Byte>)
    requires forall i :: 0 <= i < |frames| ==> 0 < |frames[i]| < 0x1_0000_0000
    ensures Decode(Encode(frames) + tail) == Some((Flatten(frames), tail))
    decreases |frames|
  {
    var stream := Encode(frames) + tail;
    if frames == [] {
      BigEndianRoundTrip(0);
      assert stream[4..] == tail;
      assert ReadBigEndian(stream) == ReadBigEndian(BigEndian(0));
    } else {
      var n := |frames[0]|;
      var more := Encode(frames[1..]) + tail;
      DecodeFrames(frames[1..], tail);
      BigEndianRoundTrip(n);
      assert stream == BigEndian(n) + frames[0] + more;
      assert ReadBigEndian(stream) == ReadBigEndian(BigEndian(n));
      assert stream[4..] == frames[0] + more;
      assert stream[4..][..n] == frames[0] && stream[4..][n..] == more;
    }
  }

  /**
   * Decoding what is sent for a buffer gives exactly the buffer and stops exactly at the terminator, whatever bytes
   * follow: no data can be taken for the zero length.
   */
  lemma {:induction false} InstreamRoundTrip(buffer: seq<Byte>, tail: seq<Byte>)
    ensures forall i :: 0 <= i < |Frames(buffer)| ==> 0 < |Frames(buffer)[i]| < 0x1_0000_0000
    ensures Decode(Encode(Frames(buffer)) + tail) == Some((buffer, tail))
  {
    FramesCoverBuffer(buffer);
    DecodeFrames(Frames(buffer), tail);
  }

  /** Two buffers that frame to the same bytes are the same. */
  lemma {:induction false} FramingIsInjective(a: seq<Byte>, b: seq<Byte>)
    ensures (forall i :: 0 <= i < |Frames(a)| ==> 0 < |Frames(a)[i]| < 0x1_0000_0000)
            && (forall i :: 0 <= i < |Frames(b)| ==> 0 < |Frames(b)[i]| < 0x1_0000_0000)
    ensures Encode(Frames(a)) == Encode(Frames(b)) ==> a == b
  {
    InstreamRoundTrip(a, []);
    InstreamRoundTrip(b, []);
    assert Encode(Frames(a)) + [] == Encode(Frames(a)) && Encode(Frames(b)) + [] == Encode(Frames(b));
  }

  lemma {:induction false} EncodeLast(frames: seq<seq<Byte>>, frame: seq<Byte>)
    requires forall i :: 0 <= i < |frames| ==> 0 < |frames[i]| < 0x1_0000_0000
    requires 0 < |frame| < 0x1_0000_0000
    ensures Body(frames + [frame]) == Body(frames) + BigEndian(|frame|) + frame
    decreases |frames|
  {
    if frames == [] {
      assert [frame][1..] == [];
      assert [] + [frame] == [frame];
    } else {
      EncodeLast(frames[1..], frame);
      assert (frames + [frame])[1..] == frames[1..] + [frame];
    }
  }

  /** The frames without the terminator. */
  function Body(frames: seq<seq<Byte>>): seq<Byte>
    requires forall i :: 0 <= i < |frames| ==> 0 < |frames[i]| < 0x1_0000_0000
  {
    if frames == [] then [] else BigEndian(|frames[0]|) + frames[0] + Body(frames[1..])
  }

  lemma {:induction false} EncodeIsBody(frames: seq<seq<Byte>>)
    requires forall i :: 0 <= i < |frames| ==> 0 < |frames[i]| < 0x1_0000_0000
    ensures Encode(frames) == Body(frames) + BigEndian(0)
  {
    if frames != [] {
      EncodeIsBody(frames[1..]);
    }
  }

  lemma {:induction false} FramesSplit(buffer: seq<Byte>, k: nat)
    requires k * CHUNK_SIZE <= |buffer|
    ensures Frames(buffer) == Frames(buffer[..k * CHUNK_SIZE]) + Frames(buffer[k * CHUNK_SIZE..])
    decreases k
  {
    if k == 0 {
      assert buffer[0..] == buffer && buffer[..0] == [];
    } else {
      var rest := buffer[CHUNK_SIZE..];
      FramesSplit(rest, k - 1);
      var m := k * CHUNK_SIZE;
      assert buffer[..m][..CHUNK_SIZE] == buffer[..CHUNK_SIZE];
      assert buffer[..m][CHUNK_SIZE..] == rest[..m - CHUNK_SIZE];
      assert buffer[m..] == rest[m - CHUNK_SIZE..];
    }
  }

  /** The k-th frame, as the writing loop cuts it. */
  lemma {:induction false} NextFrame(buffer: seq<Byte>, k: nat)
    requires k * CHUNK_SIZE < |buffer|
    ensures k < |Frames(buffer)| && Frames(buffer)[k] == buffer[k * CHUNK_SIZE..Min((k + 1) * CHUNK_SIZE, |buffer|)]
    ensures (k + 1) * CHUNK_SIZE >= |buffer| <==> k + 1 == |Frames(buffer)|
  {
    var m := k * CHUNK_SIZE;
    FramesSplit(buffer, k);
    FramesCoverBuffer(buffer[..m]);
    FramesCoverBuffer(buffer);
    FrameCountOfMultiple(k);
    assert |Frames(buffer[..m])| == k;
    assert Frames(buffer[m..])[0] == buffer[m..][..Min(CHUNK_SIZE, |buffer| - m)];
  }

  /** The writing loop: what reaches the socket for a buffer. */
  method SendBuffer(buffer: seq<Byte>) returns (socket: seq<Byte>)
    ensures forall i :: 0 <= i < |Frames(buffer)| ==> 0 < |Frames(buffer)[i]| < 0x1_0000_0000
    ensures socket == Command() + Encode(Frames(buffer))
    ensures Decode(socket[|Command()|..]) == Some((buffer, []))
  {
    hide Frames, Body, Encode, Decode, Command, BigEndian;
    FramesCoverBuffer(buffer);
    socket := Command();
    ghost var sent: seq<seq<Byte>> := [];
    NoBody();
    var offset := 0;
    while offset < |buffer|
      invariant offset >= 0 && |sent| <= |Frames(buffer)| && sent == Frames(buffer)[..|sent|]
      invariant if offset < |buffer| then offset == |sent| * CHUNK_SIZE else |sent| == |Frames(buffer)|
      invariant socket == Command() + Body(sent)
      decreases |buffer| - offset
    {
      var slice := buffer[offset..Min(offset + CHUNK_SIZE, |buffer|)];
      NextFrame(buffer, |sent|);
      EncodeLast(sent, slice);
      assert sent + [slice] == Frames(buffer)[..|sent| + 1];
      Grouped(Command(), Body(sent), BigEndian(|slice|), slice);
      socket := socket + BigEndian(|slice|);
      socket := socket + slice;
      sent := sent + [slice];
      offset := offset + CHUNK_SIZE;
    }
    assert sent == Frames(buffer);
    EncodeIsBody(sent);
    Grouped(Command(), Body(sent), BigEndian(0), []);
    socket := socket + BigEndian(0);
    InstreamRoundTrip(buffer, []);
    Remainder(Command(), Encode(Frames(buffer)));
  }

  lemma Grouped(command: seq<Byte>, body: seq<Byte>, len: seq<Byte>, slice: seq<Byte>)
    ensures command + body + len + slice == command + (body + len + slice)
    ensures command + body + len == command + (body + len)
  {
  }

  lemma NoBody()
    ensures Body([]) == [] && Command() + [] == Command()
  {
  }

  lemma Remainder(command: seq<Byte>, rest: seq<Byte>)
    ensures (command + rest)[|command|..] == rest && rest + [] == rest
  {
  }
}
