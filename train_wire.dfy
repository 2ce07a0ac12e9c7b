/**
 * The byte protocol between the server and a train's microcontroller
 * (model_train.go, train.go): one size byte and that many payload bytes per
 * frame in both directions, and a little-endian 32-bit access key.
 */
module TrainWire {
  import opened ServerUtils

  /** `sendMessageToTrain`'s two writes: `byte(len(message))`, which keeps the low 8 bits, then the message. */
  function TrainFrame(message: seq<uint8>): (f: seq<uint8>)
    ensures |f| == |message| + 1 && f[0] == |message| % 0x100 && f[1..] == message
  {
    [|message| % 0x100] + message
  }

  /**
   * The frames `handleTrainMessages` reads from a stream: a zero size byte
   * is skipped, and the stream ending inside a size byte or a payload ends
   * the reading.
   */
  function ReadFrames(stream: seq<uint8>): (frames: seq<seq<uint8>>)
    ensures |frames| <= |stream|
    decreases |stream|
  {
    if |stream| == 0 then []
    else if stream[0] == 0 then ReadFrames(stream[1..])
    else if |stream| - 1 < stream[0] then []
    else [stream[1..1 + stream[0]]] + ReadFrames(stream[1 + stream[0]..])
  }

  /** The reader's three cases on a non-empty stream. */
  lemma ReadFramesStep(stream: seq<uint8>)
    requires |stream| > 0
    ensures stream[0] == 0 ==> ReadFrames(stream) == ReadFrames(stream[1..])
    ensures stream[0] != 0 && |stream| - 1 < stream[0] as int ==> ReadFrames(stream) == []
    ensures stream[0] != 0 && |stream| - 1 >= stream[0] as int ==>
              ReadFrames(stream) == [stream[1..1 + stream[0] as int]] + ReadFrames(stream[1 + stream[0] as int..])
  {
  }

  /** Every frame read carries between 1 and 255 bytes. */
  lemma {:induction false} FramesAreNonEmpty(stream: seq<uint8>)
    ensures forall i :: 0 <= i < |ReadFrames(stream)| ==> 0 < |ReadFrames(stream)[i]| < 0x100
    decreases |stream|
  {
    if |stream| == 0 {
    } else if stream[0] == 0 {
      FramesAreNonEmpty(stream[1..]);
    } else if |stream| - 1 < stream[0] {
    } else {
      FramesAreNonEmpty(stream[1 + stream[0]..]);
    }
  }

  /** A message of 1 to 255 bytes is read back as itself, and what follows it is read on. */
  lemma ReadFrameOfFrame(m: seq<uint8>, rest: seq<uint8>)
    requires 0 < |m| < 0x100
    ensures ReadFrames(TrainFrame(m) + rest) == [m] + ReadFrames(rest)
  {
    var s := TrainFrame(m) + rest;
    assert s[0] == |m|;
    assert s[1..1 + |m|] == m;
    assert s[1 + |m|..] == rest;
  }

  /** An empty message is a lone zero size byte, which the reader skips. */
  lemma EmptyFrameSkipped(rest: seq<uint8>)
    ensures ReadFrames(TrainFrame([]) + rest) == ReadFrames(rest)
  {
    assert (TrainFrame([]) + rest)[1..] == rest;
  }

  /** The bytes of several messages sent one after the other. */
  function Framed(ms: seq<seq<uint8>>): seq<uint8>
  {
    if ms == [] then [] else TrainFrame(ms[0]) + Framed(ms[1..])
  }

  /** The reader recovers every message the sender framed, in order, when each has 1 to 255 bytes. */
  lemma {:induction false} ReadFramesOfFramed(ms: seq<seq<uint8>>)
    requires forall i :: 0 <= i < |ms| ==> 0 < |ms[i]| < 0x100
    ensures ReadFrames(Framed(ms)) == ms
  {
    if ms != [] {
      ReadFrameOfFrame(ms[0], Framed(ms[1..]));
      ReadFramesOfFramed(ms[1..]);
    }
  }

  /** `binary.LittleEndian.Uint32`. */
  function LeUint32(b: seq<uint8>): (x: uint32)
    requires |b| == 4
    ensures x % 0x100 == b[0] && x / 0x100_0000 == b[3]
  {
    b[0] as int + 0x100 * (b[1] as int) + 0x1_0000 * (b[2] as int) + 0x100_0000 * (b[3] as int)
  }

  /** The four bytes a train sends for its key, lowest first. */
  function LeBytes(x: uint32): (b: seq<uint8>)
    ensures |b| == 4
  {
    [x % 0x100, (x / 0x100) % 0x100, (x / 0x1_0000) % 0x100, x / 0x100_0000]
  }

  /** Encoding a key and decoding it gives the key back. */
  lemma LeUint32OfLeBytes(x: uint32)
    ensures LeUint32(LeBytes(x)) == x
  {
    var b := LeBytes(x);
    assert x == b[0] + 0x100 * (x / 0x100);
    assert x / 0x100 == b[1] + 0x100 * (x / 0x1_0000);
    assert x / 0x1_0000 == b[2] + 0x100 * (x / 0x100_0000);
  }

  /** Decoding four bytes and encoding the key gives the bytes back, so distinct byte strings are distinct keys. */
  lemma LeBytesOfLeUint32(b: seq<uint8>)
    requires |b| == 4
    ensures LeBytes(LeUint32(b)) == b
  {
    var x := LeUint32(b);
    assert x % 0x100 == b[0];
    assert x / 0x100 == b[1] as int + 0x100 * (b[2] as int) + 0x1_0000 * (b[3] as int);
    assert x / 0x1_0000 == b[2] as int + 0x100 * (b[3] as int);
    assert x / 0x100_0000 == b[3];
  }
}
