/** Decoding and re-chunking: decoder frames of any size are cut into PortAudio callbacks of any
    size (Decode, ApplyVolume and PaCallback of MusicPlayer.cc).

    The decoder is a finite list of packets, each of which decodes into a finite list of frames;
    the container ends after the last packet. */
module Playback {
  import opened Sequences

  type Byte = x: int | 0 <= x < 256

  /** One sample of one channel. */
  type Sample = seq<Byte>

  /** The samples of all channels at one point in time. */
  type Step = seq<Sample>

  // ---------------------------------------------------------------------------------------------
  // Volume

  datatype SampleFormat = UInt8 | Int16 | Int32 | Float32 | Other

  /** The sample layout of a stream. `scaleFloat` is the multiplication of a 32-bit float sample by
      the volume, of which only the width of the result is known. */
  datatype Layout = Layout(planar: bool, channels: nat, sampleSize: nat, format: SampleFormat,
                           scaleFloat: (Sample, nat) -> Sample)

  ghost predicate ValidLayout(l: Layout) {
    && l.sampleSize in {1, 2, 4}
    && (l.format == UInt8 ==> l.sampleSize == 1)
    && (l.format == Int16 ==> l.sampleSize == 2)
    && (l.format == Int32 || l.format == Float32 ==> l.sampleSize == 4)
    && forall s, v :: |l.scaleFloat(s, v)| == |s|
  }

  /** The value of little-endian bytes. */
  function Unsigned(s: Sample): nat {
    if s == [] then 0 else s[0] + 256 * Unsigned(s[1..])
  }

  function Encode(n: nat, size: nat): (s: Sample)
    ensures |s| == size
  {
    if size == 0 then [] else [n % 256] + Encode(n / 256, size - 1)
  }

  /** 256 to the power of a sample size. */
  function Range(size: nat): nat {
    if size == 0 then 1 else 256 * Range(size - 1)
  }

  /** Two's complement. */
  function Signed(s: Sample): int {
    if 2 * Unsigned(s) < Range(|s|) then Unsigned(s) else Unsigned(s) - Range(|s|)
  }

  function EncodeSigned(n: int, size: nat): (s: Sample)
    requires 0 <= n + Range(size)
  {
    Encode(if n < 0 then n + Range(size) else n, size)
  }

  /** n * volume / 100, rounded toward zero as a C++ conversion to an integer type does. */
  function Scale(n: int, volume: nat): (r: int)
    ensures volume <= 100 ==> if n >= 0 then 0 <= r <= n else n <= r <= 0
  {
    if n >= 0 then n * volume / 100 else -((-n) * volume / 100)
  }

  function ApplyVolume(l: Layout, volume: nat, s: Sample): (r: Sample)
    requires ValidLayout(l) && |s| == l.sampleSize && volume <= 100
    ensures |r| == |s|
  {
    match l.format
    case UInt8 => Encode(Scale(Unsigned(s), volume), 1)
    case Int16 => UnsignedRange(s); EncodeSigned(Scale(Signed(s), volume), 2)
    case Int32 => UnsignedRange(s); EncodeSigned(Scale(Signed(s), volume), 4)
    case Float32 => l.scaleFloat(s, volume)
    case Other => s
  }

  lemma {:induction false} UnsignedRange(s: Sample)
    ensures Unsigned(s) < Range(|s|)
  {
    if s != [] {
      UnsignedRange(s[1..]);
    }
  }

  lemma {:induction false} DecodeEncode(n: nat, size: nat)
    requires n < Range(size)
    ensures Unsigned(Encode(n, size)) == n
  {
    if size > 0 {
      DecodeEncode(n / 256, size - 1);
      assert Encode(n, size)[1..] == Encode(n / 256, size - 1);
    }
  }

  lemma {:induction false} EncodeDecode(s: Sample)
    ensures Encode(Unsigned(s), |s|) == s
  {
    if s != [] {
      EncodeDecode(s[1..]);
      LowByte(s[0], Unsigned(s[1..]));
    }
  }

  lemma LowByte(low: Byte, high: nat)
    ensures (low + 256 * high) % 256 == low && (low + 256 * high) / 256 == high
  {
  }

  lemma RangeEven(size: nat)
    requires size > 0
    ensures Range(size) % 2 == 0 && Range(size) >= 2
  {
    var r := Range(size - 1);
    RangePositive(size - 1);
    assert Range(size) == 2 * (128 * r);
  }

  lemma {:induction false} RangePositive(size: nat)
    ensures Range(size) >= 1
  {
    if size > 0 {
      RangePositive(size - 1);
    }
  }

  lemma SignedEncode(n: int, size: nat)
    requires size > 0 && 0 <= 2 * n + Range(size) && 2 * n < Range(size)
    ensures Signed(EncodeSigned(n, size)) == n
  {
    RangeEven(size);
    DecodeEncode(if n < 0 then n + Range(size) else n, size);
  }

  lemma ScaleUnsigned(s: Sample, volume: nat)
    requires volume <= 100
    ensures Unsigned(Encode(Scale(Unsigned(s), volume), |s|)) == Scale(Unsigned(s), volume)
  {
    UnsignedRange(s);
    DecodeEncode(Scale(Unsigned(s), volume), |s|);
  }

  lemma ScaleSigned(s: Sample, volume: nat)
    requires volume <= 100 && s != []
    ensures 0 <= Scale(Signed(s), volume) + Range(|s|)
    ensures Signed(EncodeSigned(Scale(Signed(s), volume), |s|)) == Scale(Signed(s), volume)
  {
    UnsignedRange(s);
    RangeEven(|s|);
    SignedEncode(Scale(Signed(s), volume), |s|);
  }

  lemma ScaleFull(n: int)
    ensures Scale(n, 100) == n
  {
  }

  lemma FullVolume(s: Sample)
    requires s != []
    ensures Encode(Scale(Unsigned(s), 100), |s|) == s
    ensures 0 <= Scale(Signed(s), 100) + Range(|s|) && EncodeSigned(Scale(Signed(s), 100), |s|) == s
  {
    hide Scale, Unsigned, Encode, Range;
    UnsignedRange(s);
    EncodeDecode(s);
    ScaleFull(Unsigned(s));
    ScaleFull(Signed(s));
  }

  /** y is x times volume percent, cut off toward zero. */
  predicate CutToward(x: int, y: int, volume: nat) {
    if x >= 0 then y >= 0 && 100 * y <= x * volume < 100 * (y + 1)
    else y <= 0 && 100 * -y <= -x * volume < 100 * (-y + 1)
  }

  lemma ScaleCuts(n: int, volume: nat)
    ensures CutToward(n, Scale(n, volume), volume)
  {
  }

  /** The values of samples of one, two and four bytes, by their bytes. */
  lemma ByteValues(s: Sample)
    ensures |s| == 1 ==> Unsigned(s) == s[0]
    ensures |s| == 2 ==>
              var a: int, b: int := s[0], s[1];
              Signed(s) == a + 256 * b - if b < 128 then 0 else 65536
    ensures |s| == 4 ==>
              var a: int, b: int, c: int, d: int := s[0], s[1], s[2], s[3];
              Signed(s) == a + 256 * b + 65536 * c + 16777216 * d - if d < 128 then 0 else 4294967296
  {
    if |s| == 1 {
      assert Unsigned(s[1..]) == 0;
    } else if |s| == 2 {
      assert Unsigned(s[1..][1..]) == 0;
      assert Unsigned(s[1..]) == s[1];
      assert Range(1) == 256 && Range(2) == 65536;
    } else if |s| == 4 {
      var b: int, c: int, d: int := s[1], s[2], s[3];
      assert Unsigned(s[1..][1..][1..][1..]) == 0;
      assert Unsigned(s[1..][1..][1..]) == d;
      assert Unsigned(s[1..][1..]) == c + 256 * d;
      assert Unsigned(s[1..]) == b + 256 * c + 65536 * d;
      assert Range(1) == 256 && Range(2) == 65536 && Range(3) == 16777216 && Range(4) == 4294967296;
    }
  }

  /** What the volume does to a sample: an integer value is multiplied by the volume and cut off toward
      zero, a float is left to its own multiplication, and any other format is not touched. Full volume
      changes no byte but those of floats. */
  lemma VolumeScales(l: Layout, volume: nat, s: Sample)
    requires ValidLayout(l) && |s| == l.sampleSize && volume <= 100
    ensures l.format == UInt8 ==> CutToward(Unsigned(s), Unsigned(ApplyVolume(l, volume, s)), volume)
    ensures l.format == Int16 || l.format == Int32 ==> CutToward(Signed(s), Signed(ApplyVolume(l, volume, s)), volume)
    ensures l.format == Float32 ==> ApplyVolume(l, volume, s) == l.scaleFloat(s, volume)
    ensures l.format == Other ==> ApplyVolume(l, volume, s) == s
    ensures volume == 100 && l.format != Float32 ==> ApplyVolume(l, volume, s) == s
  {
    hide Scale, Signed, Unsigned, Encode, EncodeSigned, Range, CutToward;
    ScaleUnsigned(s, volume);
    ScaleSigned(s, volume);
    ScaleCuts(Unsigned(s), volume);
    ScaleCuts(Signed(s), volume);
    FullVolume(s);
  }

  // ---------------------------------------------------------------------------------------------
  // Frames, and the sample stream they stand for

  /** A decoded frame: one plane per channel when the layout is planar, one plane otherwise. */
  datatype Frame = Frame(nbSamples: nat, data: seq<seq<Byte>>)

  /** A packet of the container, and what the decoder makes of it. */
  datatype Packet = Packet(size: nat, frames: seq<Frame>)

  const NO_FRAME := Frame(0, [])
  const NO_PACKET := Packet(0, [])

  function BlockSize(l: Layout): nat {
    l.channels * l.sampleSize
  }

  ghost predicate ValidFrame(l: Layout, f: Frame) {
    f.nbSamples > 0 ==>
      if l.planar then |f.data| >= l.channels && forall ch :: 0 <= ch < l.channels ==> |f.data[ch]| >= l.sampleSize * f.nbSamples
      else |f.data| >= 1 && |f.data[0]| >= f.nbSamples * BlockSize(l)
  }

  /** Where the sample of channel ch at time i starts in its plane. */
  function Offset(l: Layout, i: nat, ch: nat): nat {
    if l.planar then l.sampleSize * i else l.sampleSize * i * l.channels + l.sampleSize * ch
  }

  lemma OffsetInPlane(l: Layout, f: Frame, i: nat, ch: nat)
    requires ValidFrame(l, f) && i < f.nbSamples && ch < l.channels
    ensures |f.data| > 0 && (l.planar ==> ch < |f.data|)
    ensures Offset(l, i, ch) + l.sampleSize <= |f.data[if l.planar then ch else 0]|
  {
    if l.planar {
      assert l.sampleSize * i + l.sampleSize == l.sampleSize * (i + 1);
      MulMonotone(l.sampleSize, i + 1, f.nbSamples);
    } else {
      assert l.sampleSize * ch + l.sampleSize == l.sampleSize * (ch + 1);
      MulMonotone(l.sampleSize, ch + 1, l.channels);
      assert l.sampleSize * i * l.channels == i * BlockSize(l);
      assert i * BlockSize(l) + BlockSize(l) == BlockSize(l) * (i + 1);
      MulMonotone(BlockSize(l), i + 1, f.nbSamples);
    }
  }

  lemma MulMonotone(k: nat, a: nat, b: nat)
    requires a <= b
    ensures k * a <= k * b
  {
  }

  function SampleAt(l: Layout, f: Frame, i: nat, ch: nat): (s: Sample)
    requires ValidFrame(l, f) && i < f.nbSamples && ch < l.channels
    ensures |s| == l.sampleSize
  {
    OffsetInPlane(l, f, i, ch);
    f.data[if l.planar then ch else 0][Offset(l, i, ch)..Offset(l, i, ch) + l.sampleSize]
  }

  /** The first n samples at time i. */
  function Samples(l: Layout, f: Frame, i: nat, n: nat): (step: Step)
    requires ValidFrame(l, f) && i < f.nbSamples && n <= l.channels
    ensures |step| == n
  {
    if n == 0 then [] else Samples(l, f, i, n - 1) + [SampleAt(l, f, i, n - 1)]
  }

  /** The points in time of a frame, up to `upTo`. */
  function Steps(l: Layout, f: Frame, from: nat, upTo: nat): (steps: seq<Step>)
    requires ValidFrame(l, f) && from <= upTo <= f.nbSamples
    ensures |steps| == upTo - from
  {
    if from == upTo then [] else Steps(l, f, from, upTo - 1) + [Samples(l, f, upTo - 1, l.channels)]
  }

  ghost predicate ValidFrames(l: Layout, fs: seq<Frame>) {
    forall f :: f in fs ==> ValidFrame(l, f)
  }

  /** The container holds no empty packets. */
  ghost predicate ValidPackets(l: Layout, ps: seq<Packet>) {
    forall p :: p in ps ==> p.size > 0 && ValidFrames(l, p.frames)
  }

  ghost function FrameStream(l: Layout, fs: seq<Frame>): seq<Step>
    requires ValidFrames(l, fs)
  {
    if fs == [] then [] else Steps(l, fs[0], 0, fs[0].nbSamples) + FrameStream(l, fs[1..])
  }

  ghost function PacketStream(l: Layout, ps: seq<Packet>): seq<Step>
    requires ValidPackets(l, ps)
  {
    if ps == [] then [] else FrameStream(l, ps[0].frames) + PacketStream(l, ps[1..])
  }

  /** The samples fit the layout. */
  ghost predicate ValidStep(l: Layout, step: Step) {
    |step| <= l.channels && forall ch :: 0 <= ch < |step| ==> |step[ch]| == l.sampleSize
  }

  ghost predicate ValidSteps(l: Layout, steps: seq<Step>) {
    forall k :: 0 <= k < |steps| ==> ValidStep(l, steps[k]) && |steps[k]| == l.channels
  }

  /** The bytes PortAudio gets for one point in time, and for several. */
  ghost function StepBytes(l: Layout, volume: nat, step: Step): seq<Byte>
    requires ValidLayout(l) && volume <= 100 && ValidStep(l, step)
  {
    if step == [] then []
    else StepBytes(l, volume, step[..|step| - 1]) + ApplyVolume(l, volume, step[|step| - 1])
  }

  ghost function Bytes(l: Layout, volume: nat, steps: seq<Step>): seq<Byte>
    requires ValidLayout(l) && volume <= 100 && ValidSteps(l, steps)
  {
    if steps == [] then []
    else Bytes(l, volume, steps[..|steps| - 1]) + StepBytes(l, volume, steps[|steps| - 1])
  }

  lemma OneTimesMore(n: nat, k: nat)
    ensures (n + 1) * k == n * k + k
  {
  }

  lemma {:induction false} StepBytesLength(l: Layout, volume: nat, step: Step)
    requires ValidLayout(l) && volume <= 100 && ValidStep(l, step)
    ensures |StepBytes(l, volume, step)| == |step| * l.sampleSize
  {
    if step != [] {
      StepBytesLength(l, volume, step[..|step| - 1]);
      OneTimesMore(|step| - 1, l.sampleSize);
    }
  }

  lemma {:induction false} BytesLength(l: Layout, volume: nat, steps: seq<Step>)
    requires ValidLayout(l) && volume <= 100 && ValidSteps(l, steps)
    ensures |Bytes(l, volume, steps)| == |steps| * BlockSize(l)
  {
    if steps != [] {
      BytesLength(l, volume, steps[..|steps| - 1]);
      StepBytesLength(l, volume, steps[|steps| - 1]);
      OneTimesMore(|steps| - 1, BlockSize(l));
    }
  }

  /** There is room for one more sample, and for one more point in time. */
  lemma SampleFits(l: Layout, volume: nat, step: Step)
    requires ValidLayout(l) && volume <= 100 && ValidStep(l, step)
    ensures |step| < l.channels ==> |StepBytes(l, volume, step)| + l.sampleSize <= BlockSize(l)
    ensures |step| == l.channels ==> |StepBytes(l, volume, step)| == BlockSize(l)
  {
    StepBytesLength(l, volume, step);
    if |step| < l.channels {
      OneTimesMore(|step|, l.sampleSize);
      MulMonotone(l.sampleSize, |step| + 1, l.channels);
    }
  }

  lemma Block(n: nat, room: nat, k: nat)
    requires n < room
    ensures n * k + k <= room * k
  {
    OneTimesMore(n, k);
    MulMonotone(k, n + 1, room);
  }

  lemma StepFits(l: Layout, volume: nat, steps: seq<Step>, room: nat)
    requires ValidLayout(l) && volume <= 100 && ValidSteps(l, steps)
    ensures |steps| < room ==> |Bytes(l, volume, steps)| + BlockSize(l) <= room * BlockSize(l)
  {
    hide BlockSize, Bytes, ValidLayout, ValidStep;
    BytesLength(l, volume, steps);
    if |steps| < room {
      Block(|steps|, room, BlockSize(l));
    }
  }

  /** One more sample, and one more point in time. */
  lemma AddSample(l: Layout, volume: nat, f: Frame, i: nat, ch: nat)
    requires ValidLayout(l) && volume <= 100 && ValidFrame(l, f) && i < f.nbSamples && ch < l.channels
    requires ValidStep(l, Samples(l, f, i, ch))
    ensures ValidStep(l, Samples(l, f, i, ch + 1))
    ensures StepBytes(l, volume, Samples(l, f, i, ch + 1)) ==
            StepBytes(l, volume, Samples(l, f, i, ch)) + ApplyVolume(l, volume, SampleAt(l, f, i, ch))
  {
  }

  lemma AddStep(l: Layout, volume: nat, steps: seq<Step>, step: Step)
    requires ValidLayout(l) && volume <= 100 && ValidSteps(l, steps) && ValidStep(l, step) && |step| == l.channels
    ensures ValidSteps(l, steps + [step])
    ensures Bytes(l, volume, steps + [step]) == Bytes(l, volume, steps) + StepBytes(l, volume, step)
  {
    assert (steps + [step])[..|steps|] == steps;
  }

  lemma {:induction false} BytesConcat(l: Layout, volume: nat, a: seq<Step>, b: seq<Step>)
    requires ValidLayout(l) && volume <= 100 && ValidSteps(l, a) && ValidSteps(l, b)
    ensures ValidSteps(l, a + b)
    ensures Bytes(l, volume, a + b) == Bytes(l, volume, a) + Bytes(l, volume, b)
  {
    hide ApplyVolume, StepBytes, ValidLayout;
    if b == [] {
      assert a + b == a;
    } else {
      var front := b[..|b| - 1];
      assert (a + b)[..|a + b| - 1] == a + front;
      BytesConcat(l, volume, a, front);
      Assoc(Bytes(l, volume, a), Bytes(l, volume, front), StepBytes(l, volume, b[|b| - 1]));
    }
  }

  /** The steps of a frame by their position. */
  lemma {:induction false} StepsAt(l: Layout, f: Frame, from: nat, upTo: nat)
    requires ValidFrame(l, f) && from <= upTo <= f.nbSamples
    ensures forall k :: 0 <= k < upTo - from ==> Steps(l, f, from, upTo)[k] == Samples(l, f, from + k, l.channels)
    decreases upTo - from
  {
    hide Samples, ValidFrame;
    if from < upTo {
      StepsAt(l, f, from, upTo - 1);
    }
  }

  lemma StepsSplit(l: Layout, f: Frame, from: nat, mid: nat, upTo: nat)
    requires ValidFrame(l, f) && from <= mid <= upTo <= f.nbSamples
    ensures Steps(l, f, from, upTo) == Steps(l, f, from, mid) + Steps(l, f, mid, upTo)
  {
  }

  // ---------------------------------------------------------------------------------------------
  // The stream, part by part

  /** All parts, one after the other. */
  function Flatten<T>(parts: seq<seq<T>>): seq<T> {
    if parts == [] then [] else Flatten(parts[..|parts| - 1]) + parts[|parts| - 1]
  }

  lemma {:induction false} FlattenFront<T>(first: seq<T>, parts: seq<seq<T>>)
    ensures Flatten([first] + parts) == first + Flatten(parts)
  {
    var all := [first] + parts;
    if parts == [] {
      assert all[..0] == [];
      assert Flatten(all) == Flatten(all[..0]) + first;
    } else {
      var n := |parts| - 1;
      FlattenFront(first, parts[..n]);
      assert all[..n + 1] == [first] + parts[..n] && all[n + 1] == parts[n];
      assert Flatten(all) == first + Flatten(parts[..n]) + parts[n];
    }
  }

  /** The stream of frames is the frames' samples, from the first to the last of each. */
  lemma {:induction false} FramesInOrder(l: Layout, fs: seq<Frame>)
    requires ValidFrames(l, fs)
    ensures forall i :: 0 <= i < |fs| ==> ValidFrame(l, fs[i])
    ensures FrameStream(l, fs) ==
            Flatten(seq(|fs|, i requires 0 <= i < |fs| && ValidFrame(l, fs[i]) => Steps(l, fs[i], 0, fs[i].nbSamples)))
  {
    hide ValidFrame, Steps;
    assert forall i :: 0 <= i < |fs| ==> fs[i] in fs;
    if fs != [] {
      var rest := fs[1..];
      FramesInOrder(l, rest);
      var parts := seq(|fs|, i requires 0 <= i < |fs| && ValidFrame(l, fs[i]) => Steps(l, fs[i], 0, fs[i].nbSamples));
      var later := seq(|rest|, i requires 0 <= i < |rest| && ValidFrame(l, rest[i]) => Steps(l, rest[i], 0, rest[i].nbSamples));
      assert parts == [parts[0]] + later;
      FlattenFront(parts[0], later);
    }
  }

  /** The stream of packets is what is made of them, packet by packet. */
  lemma {:induction false} PacketsInOrder(l: Layout, ps: seq<Packet>)
    requires ValidPackets(l, ps)
    ensures forall i :: 0 <= i < |ps| ==> ValidFrames(l, ps[i].frames)
    ensures PacketStream(l, ps) ==
            Flatten(seq(|ps|, i requires 0 <= i < |ps| && ValidFrames(l, ps[i].frames) => FrameStream(l, ps[i].frames)))
  {
    hide ValidFrames, FrameStream;
    assert forall i :: 0 <= i < |ps| ==> ps[i] in ps;
    if ps != [] {
      var rest := ps[1..];
      PacketsInOrder(l, rest);
      var parts := seq(|ps|, i requires 0 <= i < |ps| && ValidFrames(l, ps[i].frames) => FrameStream(l, ps[i].frames));
      var later := seq(|rest|, i requires 0 <= i < |rest| && ValidFrames(l, rest[i].frames) => FrameStream(l, rest[i].frames));
      assert parts == [parts[0]] + later;
      FlattenFront(parts[0], later);
    }
  }

  /** The bytes of one point in time: each channel's sample after the volume, in order. */
  lemma {:induction false} ChannelsInOrder(l: Layout, volume: nat, step: Step)
    requires ValidLayout(l) && volume <= 100 && ValidStep(l, step)
    ensures StepBytes(l, volume, step) ==
            Flatten(seq(|step|, ch requires 0 <= ch < |step| => ApplyVolume(l, volume, step[ch])))
  {
    hide ApplyVolume, ValidLayout;
    if step != [] {
      var n := |step| - 1;
      ChannelsInOrder(l, volume, step[..n]);
      var parts := seq(|step|, ch requires 0 <= ch < |step| => ApplyVolume(l, volume, step[ch]));
      assert parts[..n] == seq(n, ch requires 0 <= ch < n => ApplyVolume(l, volume, step[..n][ch]));
    }
  }

  /** The bytes of several points in time: one after the other. */
  lemma {:induction false} StepsInOrder(l: Layout, volume: nat, steps: seq<Step>)
    requires ValidLayout(l) && volume <= 100 && ValidSteps(l, steps)
    ensures Bytes(l, volume, steps) ==
            Flatten(seq(|steps|, k requires 0 <= k < |steps| => StepBytes(l, volume, steps[k])))
  {
    hide StepBytes, ValidLayout;
    if steps != [] {
      var n := |steps| - 1;
      StepsInOrder(l, volume, steps[..n]);
      var parts := seq(|steps|, k requires 0 <= k < |steps| => StepBytes(l, volume, steps[k]));
      assert parts[..n] == seq(n, k requires 0 <= k < n => StepBytes(l, volume, steps[..n][k]));
    }
  }

  // ---------------------------------------------------------------------------------------------
  // StreamInfo

  /** What one call of avcodec_receive_frame or av_read_frame reports. */
  datatype Status = Success | Again | EndOfFile

  /** `next` is `now` with the bytes written at `at`. */
  ghost predicate Wrote(now: seq<Byte>, next: seq<Byte>, at: nat, bytes: seq<Byte>) {
    && at + |bytes| <= |now| == |next|
    && next == now[..at] + bytes + now[at + |bytes|..]
  }

  lemma WroteMore(a: seq<Byte>, b: seq<Byte>, c: seq<Byte>, at: nat, first: seq<Byte>, second: seq<Byte>)
    requires Wrote(a, b, at, first) && Wrote(b, c, at + |first|, second)
    ensures Wrote(a, c, at, first + second)
  {
  }

  lemma WroteNothing(a: seq<Byte>, at: nat)
    requires at <= |a|
    ensures Wrote(a, a, at, [])
  {
  }

  lemma WroteAll(a: seq<Byte>, b: seq<Byte>, bytes: seq<Byte>)
    requires Wrote(a, b, 0, bytes)
    ensures |bytes| <= |b| && b[..|bytes|] == bytes
  {
  }

  /** memcpy into the output buffer. */
  method Copy(out: array<Byte>, at: nat, bytes: seq<Byte>)
    requires at + |bytes| <= out.Length
    modifies out
    ensures Wrote(old(out[..]), out[..], at, bytes)
  {
    var k := 0;
    while k < |bytes|
      invariant 0 <= k <= |bytes|
      invariant forall i :: 0 <= i < out.Length ==> out[i] == if at <= i < at + k then bytes[i - at] else old(out[i])
    {
      out[at + k] := bytes[k];
      k := k + 1;
    }
  }

  /** The buffer holds the bytes of what was decoded, and is as before behind them. */
  ghost predicate WrittenSoFar(l: Layout, volume: nat, before: seq<Byte>, now: seq<Byte>, written: seq<Step>, end: nat) {
    && ValidLayout(l) && volume <= 100 && ValidSteps(l, written)
    && end == |Bytes(l, volume, written)| && Wrote(before, now, 0, Bytes(l, volume, written))
  }

  lemma WrittenMore(l: Layout, volume: nat, before: seq<Byte>, now: seq<Byte>, next: seq<Byte>, written: seq<Step>,
                    steps: seq<Step>, at: nat, end: nat)
    requires WrittenSoFar(l, volume, before, now, written, at) && ValidSteps(l, steps)
    requires end == at + |Bytes(l, volume, steps)| && Wrote(now, next, at, Bytes(l, volume, steps))
    ensures WrittenSoFar(l, volume, before, next, written + steps, end)
  {
    hide Bytes, ValidSteps, ValidLayout;
    BytesConcat(l, volume, written, steps);
    WroteMore(before, now, next, 0, Bytes(l, volume, written), Bytes(l, volume, steps));
  }

  class StreamInfo {
    const layout: Layout
    var volume: nat
    var pkt: Packet
    var frame: Frame
    var nextDataIndex: nat
    /** Frames the decoder still holds of the packet it was sent last. */
    var decoded: seq<Frame>
    /** Packets the container still holds. */
    var packets: seq<Packet>
    /** How often playbackFinished was called. */
    var finished: nat

    /** A frame is current, or waits in the decoder, only while its packet is. */
    ghost predicate Valid()
      reads this
    {
      && ValidLayout(layout) && volume <= 100
      && ValidFrame(layout, frame) && ValidFrames(layout, decoded) && ValidPackets(layout, packets)
      && (nextDataIndex < frame.nbSamples || decoded != [] ==> pkt.size > 0)
    }

    /** What is left of the current frame. */
    ghost function Current(): seq<Step>
      requires Valid()
      reads this
    {
      Steps(layout, frame, Min(nextDataIndex, frame.nbSamples), frame.nbSamples)
    }

    /** What the decoder and the container still hold. */
    ghost function Undecoded(): seq<Step>
      requires Valid()
      reads this
    {
      FrameStream(layout, decoded) + PacketStream(layout, packets)
    }

    /** Everything that is still to be heard. */
    ghost function Remaining(): seq<Step>
      requires Valid()
      reads this
    {
      Current() + Undecoded()
    }

    constructor (layout: Layout, packets: seq<Packet>)
      requires ValidLayout(layout) && ValidPackets(layout, packets)
      ensures Valid() && this.layout == layout && volume == 100 && finished == 0
      ensures Remaining() == PacketStream(layout, packets)
    {
      this.layout, this.packets := layout, packets;
      volume, nextDataIndex, finished := 100, 0, 0;
      pkt, frame, decoded := NO_PACKET, NO_FRAME, [];
    }

    /** MusicPlayer::SetVolume: what is out of range changes nothing. */
    method SetVolume(v: int)
      requires Valid()
      modifies this`volume
      ensures Valid() && volume == if 0 <= v <= 100 then v else old(volume)
      ensures Remaining() == old(Remaining())
    {
      if 0 <= v <= 100 {
        volume := v;
      }
    }

    /** avcodec_receive_frame: the frame given is released first. */
    method ReceiveFrame() returns (ret: Status)
      requires Valid()
      modifies this`frame, this`decoded
      ensures Valid()
      ensures ret == if old(decoded) == [] then Again else Success
      ensures ret == Again ==> frame == NO_FRAME && decoded == []
      ensures ret == Success ==>
                |decoded| + 1 == |old(decoded)| &&
                old(Undecoded()) == Steps(layout, frame, 0, frame.nbSamples) + Undecoded()
    {
      frame := NO_FRAME;
      if decoded == [] {
        return Again;
      }
      frame := decoded[0];
      decoded := decoded[1..];
      Assoc(Steps(layout, frame, 0, frame.nbSamples), FrameStream(layout, decoded), PacketStream(layout, packets));
      return Success;
    }

    lemma NothingLeft()
      requires Valid() && decoded == [] && packets == []
      ensures Undecoded() == []
    {
    }

    /** av_read_frame and avcodec_send_packet. */
    method SendPacket()
      requires Valid() && decoded == [] && frame == NO_FRAME && packets != []
      modifies this`decoded, this`packets, this`pkt
      ensures Valid() && pkt.size > 0 && packets == old(packets)[1..]
      ensures Undecoded() == old(Undecoded())
    {
      pkt := packets[0];
      assert pkt in packets;
      assert [] + pkt.frames == pkt.frames;
      assert [] + PacketStream(layout, packets) == PacketStream(layout, packets);
      packets := packets[1..];
      decoded := decoded + pkt.frames;
    }

    /** The next frame, with as many packets as it takes; or the end of the file. */
    method NextFrame() returns (ret: Status)
      requires Valid()
      modifies this`frame, this`decoded, this`packets, this`pkt, this`finished
      ensures Valid() && ret != Again
      ensures ret == Success ==>
                && old(Undecoded()) == Steps(layout, frame, 0, frame.nbSamples) + Undecoded()
                && finished == old(finished) && pkt.size > 0
                && (|packets| < |old(packets)| || (packets == old(packets) && |decoded| < |old(decoded)|))
      ensures ret == EndOfFile ==>
                old(Undecoded()) == [] && Undecoded() == [] && frame == NO_FRAME && finished == old(finished) + 1
    {
      hide Steps, FrameStream, PacketStream;
      ret := ReceiveFrame();
      while ret == Again
        invariant Valid() && ret != EndOfFile && finished == old(finished)
        invariant ret == Again ==> frame == NO_FRAME && decoded == [] && Undecoded() == old(Undecoded())
        invariant ret == Success ==>
                    && old(Undecoded()) == Steps(layout, frame, 0, frame.nbSamples) + Undecoded() && pkt.size > 0
                    && (|packets| < |old(packets)| || (packets == old(packets) && |decoded| < |old(decoded)|))
        invariant |packets| <= |old(packets)|
        decreases ret == Again, |packets|
      {
        pkt := NO_PACKET;
        if packets == [] {
          finished := finished + 1;
          NothingLeft();
          ret := EndOfFile;
          break;
        }
        SendPacket();
        ret := ReceiveFrame();
      }
    }

    /** The samples of all channels at time i, scaled, into the output. */
    method WriteStep(out: array<Byte>, at: nat, i: nat) returns (end: nat)
      requires Valid() && i < frame.nbSamples && at + BlockSize(layout) <= out.Length
      modifies out
      ensures end == at + BlockSize(layout)
      ensures ValidStep(layout, Samples(layout, frame, i, layout.channels))
      ensures Wrote(old(out[..]), out[..], at, StepBytes(layout, volume, Samples(layout, frame, i, layout.channels)))
    {
      hide ApplyVolume, SampleAt, ValidFrame, StepBytes, BlockSize, Wrote, ValidLayout, Samples;
      ghost var before, step := out[..], Samples(layout, frame, i, 0);
      assert step == [];
      end := at;
      var ch := 0;
      WroteNothing(before, at);
      EmptyStep(layout, volume);
      while ch < layout.channels
        invariant 0 <= ch <= layout.channels && step == Samples(layout, frame, i, ch)
        invariant ValidStep(layout, step) && end == at + |StepBytes(layout, volume, step)|
        invariant Wrote(before, out[..], at, StepBytes(layout, volume, step))
      {
        var sampleBuffer := SampleAt(layout, frame, i, ch);
        sampleBuffer := ApplyVolume(layout, volume, sampleBuffer);
        ghost var now := out[..];
        SampleFits(layout, volume, step);
        Copy(out, end, sampleBuffer);
        WroteMore(before, now, out[..], at, StepBytes(layout, volume, step), sampleBuffer);
        AddSample(layout, volume, frame, i, ch);
        end := end + layout.sampleSize;
        ch := ch + 1;
        step := Samples(layout, frame, i, ch);
      }
      SampleFits(layout, volume, step);
    }

    /** The current frame from time `start` on, as much of it as there is room for. */
    method WriteFrame(out: array<Byte>, at: nat, start: nat, room: nat) returns (end: nat, i: nat)
      requires Valid() && start <= frame.nbSamples && at + room * BlockSize(layout) <= out.Length
      modifies out
      ensures i == Min(start + room, frame.nbSamples)
      ensures ValidSteps(layout, Steps(layout, frame, start, i))
      ensures end == at + |Bytes(layout, volume, Steps(layout, frame, start, i))|
      ensures Wrote(old(out[..]), out[..], at, Bytes(layout, volume, Steps(layout, frame, start, i)))
    {
      hide Samples, ValidFrame, StepBytes, BlockSize, Wrote, Bytes, ValidStep, ValidSteps, ValidLayout;
      ghost var before, steps := out[..], Steps(layout, frame, start, start);
      end, i := at, start;
      WroteNothing(before, at);
      EmptySteps(layout, volume);
      while i < frame.nbSamples && i - start < room
        invariant start <= i <= Min(start + room, frame.nbSamples) && steps == Steps(layout, frame, start, i)
        invariant ValidSteps(layout, steps) && end == at + |Bytes(layout, volume, steps)|
        invariant Wrote(before, out[..], at, Bytes(layout, volume, steps))
      {
        ghost var now, step := out[..], Samples(layout, frame, i, layout.channels);
        StepFits(layout, volume, steps, room);
        end := WriteStep(out, end, i);
        WroteMore(before, now, out[..], at, Bytes(layout, volume, steps), StepBytes(layout, volume, step));
        AddStep(layout, volume, steps, step);
        SampleFits(layout, volume, step);
        i := i + 1;
        steps := Steps(layout, frame, start, i);
      }
    }

    /** The next frame begins: what the decoder held is now the current frame and the rest. */
    method StartFrame(out: array<Byte>, at: nat, room: nat) returns (end: nat, i: nat)
      requires Valid() && pkt.size > 0 && at + room * BlockSize(layout) <= out.Length
      modifies this`nextDataIndex, out
      ensures Valid() && i == Min(room, frame.nbSamples) && nextDataIndex == i
      ensures ValidSteps(layout, Steps(layout, frame, 0, i))
      ensures end == at + |Bytes(layout, volume, Steps(layout, frame, 0, i))|
      ensures Wrote(old(out[..]), out[..], at, Bytes(layout, volume, Steps(layout, frame, 0, i)))
      ensures Steps(layout, frame, 0, frame.nbSamples) + Undecoded() == Steps(layout, frame, 0, i) + Remaining()
    {
      hide Steps, Bytes, Wrote, FrameStream, PacketStream, BlockSize;
      end, i := WriteFrame(out, at, 0, room);
      nextDataIndex := i;
      StepsSplit(layout, frame, 0, i, frame.nbSamples);
      Assoc(Steps(layout, frame, 0, i), Current(), Undecoded());
    }

    /** What the current frame still holds comes first. */
    method FinishFrame(out: array<Byte>, room: nat) returns (end: nat, rtc: nat)
      requires Valid() && room * BlockSize(layout) <= out.Length
      modifies this`nextDataIndex, out
      ensures Valid() && rtc == Min(room, |old(Current())|) && rtc <= |old(Remaining())|
      ensures rtc < room ==> Current() == []
      ensures ValidSteps(layout, old(Remaining())[..rtc])
      ensures end == |Bytes(layout, volume, old(Remaining())[..rtc])|
      ensures Wrote(old(out[..]), out[..], 0, Bytes(layout, volume, old(Remaining())[..rtc]))
      ensures old(Remaining())[..rtc] + Remaining() == old(Remaining())
    {
      hide Steps, Bytes, Wrote, FrameStream, PacketStream, BlockSize;
      ghost var all := Remaining();
      end, rtc := 0, 0;
      if pkt.size != 0 && nextDataIndex < frame.nbSamples {
        var i;
        ghost var from := nextDataIndex;
        end, i := WriteFrame(out, 0, nextDataIndex, room);
        rtc := i - nextDataIndex;
        nextDataIndex := i;
        StepsSplit(layout, frame, from, i, frame.nbSamples);
        Assoc(Steps(layout, frame, from, i), Current(), Undecoded());
        assert all[..rtc] == Steps(layout, frame, from, i);
      } else {
        WroteNothing(out[..], 0);
        EmptySteps(layout, volume);
        assert all[..0] == [] && [] + all == all;
      }
    }

    /** The next frame, as much of it as there is room for. */
    method DecodeFrame(out: array<Byte>, end: nat, room: nat, ghost before: seq<Byte>, ghost written: seq<Step>)
      returns (bufferEnd: nat, i: nat)
      requires Valid() && pkt.size > 0 && WrittenSoFar(layout, volume, before, out[..], written, end)
      requires (|written| + room) * BlockSize(layout) <= out.Length
      modifies this`nextDataIndex, out
      ensures Valid() && i == Min(room, frame.nbSamples) && nextDataIndex == i
      ensures Steps(layout, frame, 0, frame.nbSamples) + Undecoded() == Steps(layout, frame, 0, i) + Remaining()
      ensures WrittenSoFar(layout, volume, before, out[..], written + Steps(layout, frame, 0, i), bufferEnd)
    {
      hide Steps, Bytes, Wrote, FrameStream, PacketStream, BlockSize, ValidLayout, ValidFrames, ValidPackets, ValidSteps;
      ghost var now := out[..];
      RoomLeft(layout, volume, written, |written| + room);
      bufferEnd, i := StartFrame(out, end, room);
      WrittenMore(layout, volume, before, now, out[..], written, Steps(layout, frame, 0, i), end, bufferEnd);
    }

    /** One callback's worth of samples. The call consumes exactly what it writes, in order; it writes
        less than was asked for only when the stream ends, and only then is playbackFinished called. */
    method Decode(out: array<Byte>, nSamples: nat) returns (rtc: nat, bufferEnd: nat)
      requires Valid() && nSamples * BlockSize(layout) <= out.Length
      modifies this`frame, this`decoded, this`packets, this`pkt, this`finished, this`nextDataIndex, out
      ensures Valid()
      ensures rtc == Min(nSamples, |old(Remaining())|) && Remaining() == old(Remaining())[rtc..]
      ensures ValidSteps(layout, old(Remaining())[..rtc])
      ensures bufferEnd == |Bytes(layout, volume, old(Remaining())[..rtc])|
      ensures Wrote(old(out[..]), out[..], 0, Bytes(layout, volume, old(Remaining())[..rtc]))
      ensures finished == old(finished) + if rtc < nSamples then 1 else 0
    {
      hide Steps, Bytes, Wrote, FrameStream, PacketStream, BlockSize, ValidLayout, ValidFrames, ValidPackets;
      hide ValidSteps, ValidFrame;
      ghost var before, all := out[..], Remaining();
      bufferEnd, rtc := FinishFrame(out, nSamples);
      ghost var written := all[..rtc];
      while rtc < nSamples
        invariant Valid() && rtc == |written| <= nSamples && all == written + Remaining()
        invariant rtc < nSamples ==> Current() == []
        invariant WrittenSoFar(layout, volume, before, out[..], written, bufferEnd)
        invariant finished == old(finished)
        decreases |packets|, |decoded|
      {
        assert Remaining() == Undecoded();
        var ret := NextFrame();
        if ret == EndOfFile {
          assert Current() == [];
          break;
        }
        var i;
        bufferEnd, i := DecodeFrame(out, bufferEnd, nSamples - rtc, before, written);
        Assoc(written, Steps(layout, frame, 0, i), Remaining());
        written := written + Steps(layout, frame, 0, i);
        rtc := rtc + i;
      }
      assert all[..rtc] == written && all[rtc..] == Remaining();
    }
  }

  /** The callback PortAudio runs: it reports completion exactly when the stream could not fill it. */
  method PaCallback(streamInfo: StreamInfo, outputBuffer: array<Byte>, framesCount: nat)
    returns (complete: bool, bufferEnd: nat)
    requires streamInfo.Valid() && framesCount * BlockSize(streamInfo.layout) <= outputBuffer.Length
    modifies streamInfo, outputBuffer
    ensures streamInfo.Valid() && streamInfo.volume == old(streamInfo.volume)
    ensures complete <==> |old(streamInfo.Remaining())| < framesCount
    ensures var rtc := Min(framesCount, |old(streamInfo.Remaining())|);
            && streamInfo.Remaining() == old(streamInfo.Remaining())[rtc..]
            && ValidSteps(streamInfo.layout, old(streamInfo.Remaining())[..rtc])
            && var bytes := Bytes(streamInfo.layout, streamInfo.volume, old(streamInfo.Remaining())[..rtc]);
               bufferEnd == |bytes| && Wrote(old(outputBuffer[..]), outputBuffer[..], 0, bytes)
    ensures streamInfo.finished == old(streamInfo.finished) + if complete then 1 else 0
  {
    hide Bytes, Wrote, BlockSize;
    var decodedFrames;
    decodedFrames, bufferEnd := streamInfo.Decode(outputBuffer, framesCount);
    complete := decodedFrames < framesCount;
  }

  lemma RoomLeft(l: Layout, volume: nat, steps: seq<Step>, n: nat)
    requires ValidLayout(l) && volume <= 100 && ValidSteps(l, steps) && |steps| <= n
    ensures |Bytes(l, volume, steps)| + (n - |steps|) * BlockSize(l) == n * BlockSize(l)
  {
    BytesLength(l, volume, steps);
    Distribute(|steps|, n - |steps|, BlockSize(l));
  }

  lemma Distribute(a: nat, b: nat, k: nat)
    ensures a * k + b * k == (a + b) * k
  {
  }

  lemma EmptyStep(l: Layout, volume: nat)
    requires ValidLayout(l) && volume <= 100
    ensures ValidStep(l, []) && StepBytes(l, volume, []) == []
  {
  }

  lemma EmptySteps(l: Layout, volume: nat)
    requires ValidLayout(l) && volume <= 100
    ensures ValidSteps(l, []) && Bytes(l, volume, []) == []
  {
  }

  // ---------------------------------------------------------------------------------------------
  // Whole runs

  /** A callback: how much it asks for, and the volume at that moment. */
  datatype Call = Call(size: nat, volume: nat)

  ghost predicate ValidCalls(calls: seq<Call>) {
    forall k :: 0 <= k < |calls| ==> calls[k].volume <= 100
  }

  function Total(calls: seq<Call>): nat {
    if calls == [] then 0 else calls[0].size + Total(calls[1..])
  }

  /** What is heard when the stream is cut up by the calls. */
  ghost function Heard(l: Layout, steps: seq<Step>, calls: seq<Call>): seq<Byte>
    requires ValidLayout(l) && ValidSteps(l, steps) && ValidCalls(calls)
    decreases |calls|
  {
    if calls == [] then []
    else
      var n := Min(calls[0].size, |steps|);
      Bytes(l, calls[0].volume, steps[..n]) + Heard(l, steps[n..], calls[1..])
  }

  /** Re-chunking loses, repeats and reorders nothing: at a fixed volume the callbacks together get
      exactly the first samples of the stream, however their sizes cut it. */
  lemma {:induction false} Lossless(l: Layout, steps: seq<Step>, calls: seq<Call>, volume: nat)
    requires ValidLayout(l) && ValidSteps(l, steps) && volume <= 100
    requires forall k :: 0 <= k < |calls| ==> calls[k].volume == volume
    ensures Heard(l, steps, calls) == Bytes(l, volume, steps[..Min(Total(calls), |steps|)])
    decreases |calls|
  {
    hide Bytes, ValidLayout, ValidStep;
    if calls == [] {
      assert steps[..0] == [];
      EmptySteps(l, volume);
    } else {
      var n := Min(calls[0].size, |steps|);
      var m := Min(Total(calls[1..]), |steps[n..]|);
      Lossless(l, steps[n..], calls[1..], volume);
      BytesConcat(l, volume, steps[..n], steps[n..][..m]);
      TakeMore(steps, n, m);
    }
  }

  /** One callback with a buffer of its own. */
  method OneCall(streamInfo: StreamInfo, call: Call) returns (output: seq<Byte>, complete: bool)
    requires streamInfo.Valid() && call.volume <= 100
    modifies streamInfo
    ensures streamInfo.Valid() && ValidSteps(streamInfo.layout, old(streamInfo.Remaining()))
    ensures var n := Min(call.size, |old(streamInfo.Remaining())|);
            && streamInfo.Remaining() == old(streamInfo.Remaining())[n..]
            && output == Bytes(streamInfo.layout, call.volume, old(streamInfo.Remaining())[..n])
    ensures complete <==> |old(streamInfo.Remaining())| < call.size
    ensures streamInfo.finished == old(streamInfo.finished) + if complete then 1 else 0
  {
    hide Bytes, Wrote, BlockSize, ValidStep, StreamInfo.Remaining, ValidFrame, ValidFrames, ValidPackets;
    RemainingValid(streamInfo);
    ghost var n := Min(call.size, |streamInfo.Remaining()|);
    ghost var bytes := Bytes(streamInfo.layout, call.volume, streamInfo.Remaining()[..n]);
    EnoughRoom(streamInfo.layout, call.size);
    streamInfo.SetVolume(call.volume);
    var buffer := new Byte[call.size * (streamInfo.layout.channels * streamInfo.layout.sampleSize)];
    ghost var empty := buffer[..];
    var end;
    complete, end := PaCallback(streamInfo, buffer, call.size);
    WroteAll(empty, buffer[..], bytes);
    output := buffer[..end];
  }

  /** Any run of the player: whatever the callbacks ask for, and whatever happens to the volume in
      between, the frames and packets of the source come out as Heard says. */
  method Run(streamInfo: StreamInfo, calls: seq<Call>) returns (output: seq<Byte>, completed: nat)
    requires streamInfo.Valid() && ValidCalls(calls)
    modifies streamInfo
    ensures streamInfo.Valid() && ValidSteps(streamInfo.layout, old(streamInfo.Remaining()))
    ensures output == Heard(streamInfo.layout, old(streamInfo.Remaining()), calls)
    ensures var n := Min(Total(calls), |old(streamInfo.Remaining())|);
            streamInfo.Remaining() == old(streamInfo.Remaining())[n..]
    ensures streamInfo.finished == old(streamInfo.finished) + completed
    decreases |calls|
  {
    hide Bytes, ValidStep, StreamInfo.Remaining, ValidFrame, ValidFrames, ValidPackets;
    RemainingValid(streamInfo);
    ghost var all := streamInfo.Remaining();
    output, completed := [], 0;
    if calls != [] {
      var complete, more;
      output, complete := OneCall(streamInfo, calls[0]);
      more, completed := Run(streamInfo, calls[1..]);
      completed := completed + if complete then 1 else 0;
      output := output + more;
      ghost var n := Min(calls[0].size, |all|);
      TakeMore(all, n, Min(Total(calls[1..]), |all| - n));
    }
  }

  lemma EnoughRoom(l: Layout, n: nat)
    ensures n * (l.channels * l.sampleSize) == n * BlockSize(l)
  {
  }

  lemma RemainingValid(s: StreamInfo)
    requires s.Valid()
    ensures ValidSteps(s.layout, s.Remaining())
  {
    StepsValid(s.layout, s.frame, Min(s.nextDataIndex, s.frame.nbSamples), s.frame.nbSamples);
    FramesValid(s.layout, s.decoded);
    PacketsValid(s.layout, s.packets);
  }

  lemma {:induction false} SamplesValid(l: Layout, f: Frame, i: nat, n: nat)
    requires ValidFrame(l, f) && i < f.nbSamples && n <= l.channels
    ensures ValidStep(l, Samples(l, f, i, n))
  {
    hide ValidFrame, SampleAt;
    if n > 0 {
      SamplesValid(l, f, i, n - 1);
    }
  }

  lemma StepsValid(l: Layout, f: Frame, from: nat, upTo: nat)
    requires ValidFrame(l, f) && from <= upTo <= f.nbSamples
    ensures ValidSteps(l, Steps(l, f, from, upTo))
  {
    hide ValidFrame, Steps, Samples, ValidStep;
    StepsAt(l, f, from, upTo);
    var steps := Steps(l, f, from, upTo);
    forall k | 0 <= k < |steps|
      ensures ValidStep(l, steps[k]) && |steps[k]| == l.channels
    {
      SamplesValid(l, f, from + k, l.channels);
    }
  }

  lemma {:induction false} FramesValid(l: Layout, fs: seq<Frame>)
    requires ValidFrames(l, fs)
    ensures ValidSteps(l, FrameStream(l, fs))
  {
    hide ValidFrame, Steps, ValidStep;
    if fs != [] {
      StepsValid(l, fs[0], 0, fs[0].nbSamples);
      FramesValid(l, fs[1..]);
    }
  }

  lemma {:induction false} PacketsValid(l: Layout, ps: seq<Packet>)
    requires ValidPackets(l, ps)
    ensures ValidSteps(l, PacketStream(l, ps))
  {
    hide ValidStep, FrameStream, ValidFrames;
    if ps != [] {
      FramesValid(l, ps[0].frames);
      PacketsValid(l, ps[1..]);
    }
  }

  // ---------------------------------------------------------------------------------------------
  // Planar and packed frames

  /** The samples of one channel, and the samples of all channels point by point. */
  function Column(m: seq<Step>, ch: nat): seq<Sample>
    requires forall k :: 0 <= k < |m| ==> ch < |m[k]|
  {
    seq(|m|, k requires 0 <= k < |m| => m[k][ch])
  }

  function Blocks(m: seq<Step>): seq<seq<Byte>> {
    seq(|m|, k requires 0 <= k < |m| => Flatten(m[k]))
  }

  /** The two ways in which the samples m can be handed over. */
  ghost function PlanarFrame(l: Layout, m: seq<Step>): Frame
    requires ValidSteps(l, m)
  {
    Frame(|m|, seq(l.channels, ch requires 0 <= ch < l.channels => Flatten(Column(m, ch))))
  }

  function PackedFrame(m: seq<Step>): Frame {
    Frame(|m|, [Flatten(Blocks(m))])
  }

  /** Parts of equal size can be found again by their position. */
  lemma {:induction false} FlattenAt<T>(parts: seq<seq<T>>, size: nat, k: nat)
    requires forall i :: 0 <= i < |parts| ==> |parts[i]| == size
    ensures |Flatten(parts)| == |parts| * size
    ensures k < |parts| ==> k * size + size <= |parts| * size && Flatten(parts)[k * size..k * size + size] == parts[k]
    decreases |parts|
  {
    if parts != [] {
      var n := |parts| - 1;
      FlattenAt(parts[..n], size, k);
      OneTimesMore(n, size);
      var front, last := Flatten(parts[..n]), parts[n];
      if k < n {
        assert (front + last)[k * size..k * size + size] == front[k * size..k * size + size];
      } else if k == n {
        assert (front + last)[|front|..|front| + size] == last;
      }
    }
  }

  /** Planar and packed frames that hold the same samples stand for the same stream, and PortAudio
      gets the same bytes for it. */
  lemma PlanarIsPacked(l: Layout, m: seq<Step>, volume: nat)
    requires ValidLayout(l) && ValidSteps(l, m) && volume <= 100
    ensures var planar := l.(planar := true);
            var packed := l.(planar := false);
            && ValidFrame(planar, PlanarFrame(l, m)) && Steps(planar, PlanarFrame(l, m), 0, |m|) == m
            && ValidFrame(packed, PackedFrame(m)) && Steps(packed, PackedFrame(m), 0, |m|) == m
            && Bytes(planar, volume, m) == Bytes(packed, volume, m)
  {
    hide ValidFrame, Steps, Bytes, PlanarFrame, PackedFrame;
    PlanarSteps(l, m);
    PackedSteps(l, m);
    SameBytes(l.(planar := true), l.(planar := false), m, volume);
  }

  lemma {:induction false} SameStepBytes(l: Layout, l': Layout, step: Step, volume: nat)
    requires ValidLayout(l) && ValidStep(l, step) && volume <= 100 && l' == l.(planar := l'.planar)
    ensures StepBytes(l, volume, step) == StepBytes(l', volume, step)
  {
    if step != [] {
      SameStepBytes(l, l', step[..|step| - 1], volume);
    }
  }

  lemma {:induction false} SameBytes(l: Layout, l': Layout, m: seq<Step>, volume: nat)
    requires ValidLayout(l) && ValidSteps(l, m) && volume <= 100 && l' == l.(planar := l'.planar)
    ensures Bytes(l, volume, m) == Bytes(l', volume, m)
  {
    hide StepBytes;
    if m != [] {
      SameStepBytes(l, l', m[|m| - 1], volume);
      SameBytes(l, l', m[..|m| - 1], volume);
    }
  }

  lemma PlanarSteps(l: Layout, m: seq<Step>)
    requires ValidSteps(l, m)
    ensures var planar := l.(planar := true);
            ValidFrame(planar, PlanarFrame(l, m)) && Steps(planar, PlanarFrame(l, m), 0, |m|) == m
  {
    hide Flatten, Steps, Samples, ValidStep;
    var planar, f := l.(planar := true), PlanarFrame(l, m);
    PlanarValid(l, m);
    hide ValidFrame, PlanarFrame;
    StepsAt(planar, f, 0, |m|);
    forall i | 0 <= i < |m|
      ensures Samples(planar, f, i, l.channels) == m[i]
    {
      PlanarStep(l, m, i);
    }
  }

  lemma PlanarValid(l: Layout, m: seq<Step>)
    requires ValidSteps(l, m)
    ensures ValidFrame(l.(planar := true), PlanarFrame(l, m))
  {
    hide Flatten;
    forall ch | 0 <= ch < l.channels
      ensures |PlanarFrame(l, m).data[ch]| >= l.sampleSize * |m|
    {
      FlattenAt(Column(m, ch), l.sampleSize, 0);
    }
  }

  lemma PlanarStep(l: Layout, m: seq<Step>, i: nat)
    requires ValidSteps(l, m) && i < |m| && ValidFrame(l.(planar := true), PlanarFrame(l, m))
    ensures Samples(l.(planar := true), PlanarFrame(l, m), i, l.channels) == m[i]
  {
    hide Flatten, ValidFrame;
    forall ch | 0 <= ch < l.channels
      ensures SampleAt(l.(planar := true), PlanarFrame(l, m), i, ch) == m[i][ch]
    {
      PlanarSample(l, m, i, ch);
    }
    SamplesAre(l.(planar := true), PlanarFrame(l, m), i, m[i], l.channels);
  }

  lemma PlanarSample(l: Layout, m: seq<Step>, i: nat, ch: nat)
    requires ValidSteps(l, m) && i < |m| && ch < l.channels
    ensures var at := l.sampleSize * i;
            at + l.sampleSize <= |Flatten(Column(m, ch))| && Flatten(Column(m, ch))[at..at + l.sampleSize] == m[i][ch]
  {
    hide Flatten;
    FlattenAt(Column(m, ch), l.sampleSize, i);
  }

  lemma {:induction false} SamplesAre(l: Layout, f: Frame, i: nat, step: Step, n: nat)
    requires ValidFrame(l, f) && i < f.nbSamples && |step| == l.channels && n <= l.channels
    requires forall ch :: 0 <= ch < l.channels ==> SampleAt(l, f, i, ch) == step[ch]
    ensures Samples(l, f, i, n) == step[..n]
  {
    hide SampleAt, ValidFrame;
    if n > 0 {
      SamplesAre(l, f, i, step, n - 1);
    }
  }

  lemma PackedSteps(l: Layout, m: seq<Step>)
    requires ValidSteps(l, m)
    ensures var packed := l.(planar := false);
            ValidFrame(packed, PackedFrame(m)) && Steps(packed, PackedFrame(m), 0, |m|) == m
  {
    hide Flatten, Steps, Samples, ValidStep;
    var packed, f := l.(planar := false), PackedFrame(m);
    BlocksFlat(l, m, 0);
    assert ValidFrame(packed, f);
    hide ValidFrame, PackedFrame;
    StepsAt(packed, f, 0, |m|);
    forall i | 0 <= i < |m|
      ensures Samples(packed, f, i, l.channels) == m[i]
    {
      PackedStep(l, m, i);
    }
  }

  lemma PackedStep(l: Layout, m: seq<Step>, i: nat)
    requires ValidSteps(l, m) && i < |m| && ValidFrame(l.(planar := false), PackedFrame(m))
    ensures Samples(l.(planar := false), PackedFrame(m), i, l.channels) == m[i]
  {
    hide Flatten, ValidFrame;
    forall ch | 0 <= ch < l.channels
      ensures SampleAt(l.(planar := false), PackedFrame(m), i, ch) == m[i][ch]
    {
      PackedSample(l, m, i, ch);
    }
    SamplesAre(l.(planar := false), PackedFrame(m), i, m[i], l.channels);
  }

  lemma BlocksFlat(l: Layout, m: seq<Step>, i: nat)
    requires ValidSteps(l, m)
    ensures var all, b := Flatten(Blocks(m)), BlockSize(l);
            && |all| == |m| * b
            && (i < |m| ==> i * b + b <= |all| && all[i * b..i * b + b] == Flatten(m[i]))
  {
    hide Flatten;
    forall k | 0 <= k < |m|
      ensures |Blocks(m)[k]| == BlockSize(l)
    {
      FlattenAt(m[k], l.sampleSize, 0);
    }
    FlattenAt(Blocks(m), BlockSize(l), i);
  }

  lemma PackedSample(l: Layout, m: seq<Step>, i: nat, ch: nat)
    requires ValidSteps(l, m) && i < |m| && ch < l.channels
    ensures var at := Offset(l.(planar := false), i, ch);
            var all := Flatten(Blocks(m));
            at + l.sampleSize <= |all| && all[at..at + l.sampleSize] == m[i][ch]
  {
    hide Flatten;
    BlocksFlat(l, m, i);
    FlattenAt(m[i], l.sampleSize, ch);
    var base, off, all := i * BlockSize(l), ch * l.sampleSize, Flatten(Blocks(m));
    assert Offset(l.(planar := false), i, ch) == base + off by {
      assert l.sampleSize * i * l.channels == base;
    }
    Slices(all, base, base + BlockSize(l), off, off + l.sampleSize);
  }
}
