/** MPEG audio headers and the resynchronising scan for frames (internal/mp3stream/streamer.go), as mathematics
    on byte sequences. Headers follow ISO/IEC 11172-3 section 2.4.2.3 with the low sampling rates of
    ISO/IEC 13818-3; frame length follows ISO/IEC 11172-3 section 2.4.3.1. */
module Mp3Frames {
  import opened Common

  type byte = b: int | 0 <= b < 256

  const NANOSECONDS: nat := 1_000_000_000

  /** Size in bytes, duration in nanoseconds. */
  datatype FrameInfo = FrameInfo(size: nat, duration: nat)

  // ---------------------------------------------------------------- header fields

  function VersionID(h: seq<byte>): nat requires |h| == 4 { h[1] / 8 % 4 }
  function LayerID(h: seq<byte>): nat requires |h| == 4 { h[1] / 2 % 4 }
  function BitrateIndex(h: seq<byte>): nat requires |h| == 4 { h[2] / 16 }
  function SampleRateIndex(h: seq<byte>): nat requires |h| == 4 { h[2] / 4 % 4 }
  function Padding(h: seq<byte>): nat requires |h| == 4 { h[2] / 2 % 2 }

  const MPEG1: seq<seq<nat>> := [
    [0, 0, 0, 0, 0, 0, 0, 0, 0, 0, 0, 0, 0, 0, 0, 0],
    [0, 32, 64, 96, 128, 160, 192, 224, 256, 288, 320, 352, 384, 416, 448, 0],
    [0, 32, 48, 56, 64, 80, 96, 112, 128, 160, 192, 224, 256, 320, 384, 0],
    [0, 32, 40, 48, 56, 64, 80, 96, 112, 128, 160, 192, 224, 256, 320, 0]]

  const MPEG2: seq<seq<nat>> := [
    [0, 0, 0, 0, 0, 0, 0, 0, 0, 0, 0, 0, 0, 0, 0, 0],
    [0, 32, 48, 56, 64, 80, 96, 112, 128, 144, 160, 176, 192, 224, 256, 0],
    [0, 8, 16, 24, 32, 40, 48, 56, 64, 80, 96, 112, 128, 144, 160, 0],
    [0, 8, 16, 24, 32, 40, 48, 56, 64, 80, 96, 112, 128, 144, 160, 0]]

  function BitrateKbps(version: nat, layer: nat, index: nat): nat
    requires layer < 4 && index < 16
  {
    if version == 3 then MPEG1[layer][index] else MPEG2[layer][index]
  }

  function SampleRate(version: nat, index: nat): nat
    requires index < 3
  {
    var rate := [44100, 48000, 32000][index];
    match version
    case 3 => rate
    case 2 => rate / 2
    case 0 => rate / 4
    case _ => 0
  }

  function SamplesPerFrame(version: nat, layer: nat): nat {
    match layer
    case 1 => 384
    case 2 => 1152
    case 3 => if version == 3 then 1152 else 576
    case _ => 0
  }

  /** Whole slots, as many as `rate` goes into `bits`. */
  function Slots(bits: nat, rate: nat): nat
    requires rate > 0
  {
    bits / rate
  }

  function FrameSize(version: nat, layer: nat, bitrate: nat, rate: nat, padding: nat): nat
    requires rate > 0
  {
    if layer == 1 then (Slots(12 * bitrate * 1000, rate) + padding) * 4
    else if layer == 3 && version != 3 then Slots(72 * bitrate * 1000, rate) + padding
    else Slots(144 * bitrate * 1000, rate) + padding
  }

  /** The four header bytes; the sync bits themselves are the caller's business. */
  function ParseHeader(h: seq<byte>): Option<FrameInfo>
    requires |h| == 4
  {
    var version, layerID, index, rateIndex := VersionID(h), LayerID(h), BitrateIndex(h), SampleRateIndex(h);
    if version == 1 || layerID == 0 || index == 0 || index == 15 || rateIndex == 3 then None
    else
      var layer := 4 - layerID;
      var bitrate, rate := BitrateKbps(version, layer, index), SampleRate(version, rateIndex);
      if bitrate == 0 || rate == 0 then None
      else
        var size := FrameSize(version, layer, bitrate, rate, Padding(h));
        if size < 4 then None
        else Some(FrameInfo(size, SamplesPerFrame(version, layer) * NANOSECONDS / rate))
  }

  // ---------------------------------------------------------------- what headers say

  function Pow2(n: nat): nat {
    if n == 0 then 1 else 2 * Pow2(n - 1)
  }

  /** The bit rates, in closed form: Layer I of MPEG-1 goes up by 32; Layers II and III have four steps to the
      octave, II beginning one step later but for its first rate; of the low sampling rates Layer I goes up in steps
      of 16 in the middle, the other two in steps of 8 and then 16. */
  lemma BitrateLaw(index: nat)
    requires 1 <= index <= 14
    ensures BitrateKbps(3, 1, index) == 32 * index
    ensures BitrateKbps(3, 2, index) == if index == 1 then 32 else 8 * (4 + index % 4) * Pow2(index / 4)
    ensures BitrateKbps(3, 3, index) == 8 * (4 + (index - 1) % 4) * Pow2((index - 1) / 4)
  {
    assert Pow2(0) == 1 && Pow2(1) == 2 && Pow2(2) == 4 && Pow2(3) == 8;
  }

  /** The same for the low sampling rates, where the second and the third layer share a table. */
  lemma LowBitrateLaw(version: int, index: nat)
    requires (version == 2 || version == 0) && 1 <= index <= 14
    ensures BitrateKbps(version, 1, index) == if index == 1 then 32
                                              else if index <= 8 then 8 * (4 + index % 4) * Pow2(index / 4)
                                              else if index <= 12 then 16 * index
                                              else 32 * (index - 6)
    ensures BitrateKbps(version, 2, index) == if index <= 8 then 8 * index else 16 * (index - 4)
    ensures BitrateKbps(version, 3, index) == if index <= 8 then 8 * index else 16 * (index - 4)
  {
    assert Pow2(0) == 1 && Pow2(1) == 2 && Pow2(2) == 4;
  }

  /** Sampling rates: 44.1, 48 and 32 kHz, halved and quartered for the low ones. */
  lemma SampleRateLaw()
    ensures SampleRate(3, 0) == 44100 && SampleRate(3, 1) == 48000 && SampleRate(3, 2) == 32000
    ensures SampleRate(2, 0) == 22050 && SampleRate(2, 1) == 24000 && SampleRate(2, 2) == 16000
    ensures SampleRate(0, 0) == 11025 && SampleRate(0, 1) == 12000 && SampleRate(0, 2) == 8000
    ensures forall version :: SamplesPerFrame(version, 1) == 384 && SamplesPerFrame(version, 2) == 1152
    ensures SamplesPerFrame(3, 3) == 1152 && SamplesPerFrame(2, 3) == 576 && SamplesPerFrame(0, 3) == 576
  {
  }

  /** A header put together from its fields: sync and version, layer, protection; rates, padding, private bit; the
      rest. */
  function Header(version: nat, layerID: nat, protection: nat, index: nat, rateIndex: nat, padding: nat,
                  private: nat, rest: byte): seq<byte>
    requires version < 4 && layerID < 4 && protection < 2 && index < 16 && rateIndex < 4 && padding < 2 && private < 2
  {
    [0xFF, 0xE0 + 8 * version + 2 * layerID + protection, 16 * index + 4 * rateIndex + 2 * padding + private, rest]
  }

  /** Parsing takes the fields apart again; a header is accepted exactly if none of them is a reserved value, the free
      format or the bad bit rate. */
  lemma HeaderRoundTrip(version: nat, layerID: nat, protection: nat, index: nat, rateIndex: nat, padding: nat,
                        private: nat, rest: byte)
    requires version < 4 && layerID < 4 && protection < 2 && index < 16 && rateIndex < 4 && padding < 2 && private < 2
    ensures var h := Header(version, layerID, protection, index, rateIndex, padding, private, rest);
            && VersionID(h) == version && LayerID(h) == layerID && BitrateIndex(h) == index
            && SampleRateIndex(h) == rateIndex && Padding(h) == padding
            && (ParseHeader(h).Some? <==>
                  version != 1 && layerID != 0 && 1 <= index <= 14 && rateIndex != 3)
  {
    var h := Header(version, layerID, protection, index, rateIndex, padding, private, rest);
    FieldsTakenApart(version, layerID, protection, index, rateIndex, padding, private);
    hide Header;
    if version != 1 && layerID != 0 && 1 <= index <= 14 && rateIndex != 3 {
      RateBounds(version, rateIndex);
      BitrateBounds(version, 4 - layerID, index);
      SizeBounds(version, 4 - layerID, BitrateKbps(version, 4 - layerID, index), SampleRate(version, rateIndex),
                 padding);
      hide FrameSize, BitrateKbps, SampleRate;
    }
  }

  lemma FieldsTakenApart(version: nat, layerID: nat, protection: nat, index: nat, rateIndex: nat, padding: nat,
                         private: nat)
    requires version < 4 && layerID < 4 && protection < 2 && index < 16 && rateIndex < 4 && padding < 2 && private < 2
    ensures var b := 0xE0 + 8 * version + 2 * layerID + protection; b / 8 % 4 == version && b / 2 % 4 == layerID
    ensures var c := 16 * index + 4 * rateIndex + 2 * padding + private;
            c / 16 == index && c / 4 % 4 == rateIndex && c / 2 % 2 == padding
  {
  }

  // ---------------------------------------------------------------- what headers promise

  /** Bytes per slot: four in Layer I, one otherwise. */
  function SlotBytes(layer: nat): nat {
    if layer == 1 then 4 else 1
  }

  lemma RateBounds(version: nat, rateIndex: nat)
    requires version in {0, 2, 3} && rateIndex < 3
    ensures 8000 <= SampleRate(version, rateIndex) <= 48000
    ensures version == 3 ==> SampleRate(version, rateIndex) >= 32000
    ensures version == 2 ==> 16000 <= SampleRate(version, rateIndex) <= 24000
    ensures version == 0 ==> SampleRate(version, rateIndex) <= 12000
  {
  }

  lemma BitrateBounds(version: nat, layer: nat, index: nat)
    requires 1 <= layer <= 3 && 1 <= index <= 14
    ensures var b := BitrateKbps(version, layer, index);
            if version == 3 then 32 <= b <= (if layer == 1 then 448 else if layer == 2 then 384 else 320)
            else if layer == 1 then 32 <= b <= 256 else 8 <= b <= 160
  {
  }

  lemma MulAtMost(a: int, b: int, d: nat)
    requires a <= b
    ensures a * d <= b * d
  {
  }

  lemma DivBounds(n: nat, d: nat, lo: nat, hi: nat)
    requires d > 0 && lo * d <= n && n < (hi + 1) * d
    ensures lo <= n / d <= hi
  {
    var q := n / d;
    DurationDivides(n, d);
    if q < lo { MulAtMost(q + 1, lo, d); }
    if q > hi { MulAtMost(hi + 1, q, d); }
  }

  lemma DurationDivides(n: nat, d: nat)
    requires d > 0
    ensures n / d * d <= n < (n / d + 1) * d
  {
    assert n == n / d * d + n % d;
    assert (n / d + 1) * d == n / d * d + d;
  }

  /** The number of whole slots a frame carries. */
  lemma SlotBounds(version: nat, layer: nat, bitrate: nat, rate: nat)
    requires version in {0, 2, 3} && 1 <= layer <= 3
    requires version == 3 ==> 32000 <= rate <= 48000
    requires version == 2 ==> 16000 <= rate <= 24000
    requires version == 0 ==> 8000 <= rate <= 12000
    requires if version == 3 then 32 <= bitrate <= (if layer == 1 then 448 else if layer == 2 then 384 else 320)
             else if layer == 1 then 32 <= bitrate <= 256 else 8 <= bitrate <= 160
    ensures layer == 1 ==> 8 <= 12 * bitrate * 1000 / rate <= 384
    ensures layer == 3 && version != 3 ==> 24 <= 72 * bitrate * 1000 / rate <= 1440
    ensures layer != 1 && !(layer == 3 && version != 3) ==> 48 <= 144 * bitrate * 1000 / rate <= 2880
  {
    if layer == 1 {
      DivBounds(12 * bitrate * 1000, rate, 8, 384);
    } else if layer == 3 && version != 3 {
      DivBounds(72 * bitrate * 1000, rate, 24, 1440);
    } else {
      DivBounds(144 * bitrate * 1000, rate, 48, 2880);
    }
  }

  lemma SizeLaw(version: nat, layer: nat, bitrate: nat, rate: nat, padding: nat)
    requires version in {0, 2, 3} && 1 <= layer <= 3 && rate > 0
    ensures var samples, slot := SamplesPerFrame(version, layer), SlotBytes(layer);
            && samples % (8 * slot) == 0
            && FrameSize(version, layer, bitrate, rate, padding)
               == slot * ((samples / (8 * slot)) * (1000 * bitrate) / rate + padding)
  {
    assert 12 * bitrate * 1000 == 12 * (1000 * bitrate);
    assert 72 * bitrate * 1000 == 72 * (1000 * bitrate);
    assert 144 * bitrate * 1000 == 144 * (1000 * bitrate);
  }

  /** The fields of an accepted header, all in range. */
  lemma AcceptedFields(h: seq<byte>)
    requires |h| == 4 && ParseHeader(h).Some?
    ensures VersionID(h) in {0, 2, 3} && 1 <= LayerID(h) <= 3 && 1 <= BitrateIndex(h) <= 14 && SampleRateIndex(h) < 3
    ensures Padding(h) <= 1 && SampleRate(VersionID(h), SampleRateIndex(h)) > 0
    ensures var layer, rate := 4 - LayerID(h), SampleRate(VersionID(h), SampleRateIndex(h));
            ParseHeader(h).value ==
              FrameInfo(FrameSize(VersionID(h), layer, BitrateKbps(VersionID(h), layer, BitrateIndex(h)), rate,
                                  Padding(h)),
                        SamplesPerFrame(VersionID(h), layer) * NANOSECONDS / rate)
  {
  }

  /** Every accepted header describes a frame of 24 to 2881 bytes and of positive duration, so the size check and
      the fallback delay are never needed. Its size is the number of slots that hold the frame's samples at the
      stated bit rate, plus the padding slot; its duration is that of its samples. */
  lemma HeaderLaw(h: seq<byte>)
    requires |h| == 4 && ParseHeader(h).Some?
    ensures VersionID(h) in {0, 2, 3} && 1 <= LayerID(h) <= 3 && SampleRateIndex(h) < 3
    ensures var info := ParseHeader(h).value;
            var layer := 4 - LayerID(h);
            var bits := 1000 * BitrateKbps(VersionID(h), layer, BitrateIndex(h));
            var rate := SampleRate(VersionID(h), SampleRateIndex(h));
            var samples, slot := SamplesPerFrame(VersionID(h), layer), SlotBytes(layer);
            && rate > 0 && bits > 0 && samples % (8 * slot) == 0
            && 24 <= info.size <= 2881 && info.duration > 0
            && info.size == slot * ((samples / (8 * slot)) * bits / rate + Padding(h))
            && info.duration * rate <= samples * NANOSECONDS < (info.duration + 1) * rate
  {
    AcceptedFields(h);
    var version, layer := VersionID(h), 4 - LayerID(h);
    var bitrate, rate := BitrateKbps(version, layer, BitrateIndex(h)), SampleRate(version, SampleRateIndex(h));
    RateBounds(version, SampleRateIndex(h));
    BitrateBounds(version, layer, BitrateIndex(h));
    SizeBounds(version, layer, bitrate, rate, Padding(h));
    SizeLaw(version, layer, bitrate, rate, Padding(h));
    DurationDivides(SamplesPerFrame(version, layer) * NANOSECONDS, rate);
    PositiveDuration(SamplesPerFrame(version, layer), rate);
  }

  lemma PositiveDuration(samples: nat, rate: nat)
    requires samples >= 1 && 0 < rate <= NANOSECONDS
    ensures samples * NANOSECONDS / rate > 0
  {
    MulAtMost(1, samples, NANOSECONDS);
    DurationDivides(samples * NANOSECONDS, rate);
  }

  lemma SizeBounds(version: nat, layer: nat, bitrate: nat, rate: nat, padding: nat)
    requires version in {0, 2, 3} && 1 <= layer <= 3 && padding <= 1
    requires version == 3 ==> 32000 <= rate <= 48000
    requires version == 2 ==> 16000 <= rate <= 24000
    requires version == 0 ==> 8000 <= rate <= 12000
    requires if version == 3 then 32 <= bitrate <= (if layer == 1 then 448 else if layer == 2 then 384 else 320)
             else if layer == 1 then 32 <= bitrate <= 256 else 8 <= bitrate <= 160
    ensures 24 <= FrameSize(version, layer, bitrate, rate, padding) <= 2881
  {
    SlotBounds(version, layer, bitrate, rate);
  }

  // ---------------------------------------------------------------- scanning for frames

  /** How a scan or a read ends: cleanly, or with some but not all of the bytes it wanted. */
  datatype End = CleanEnd | ShortEnd

  /** The next frame after `skipped` bytes, or the end of the input. */
  datatype Found = At(skipped: nat, size: nat, duration: nat) | Nothing(end: End)

  function Shift(n: nat, f: Found): Found {
    if f.At? then f.(skipped := f.skipped + n) else f
  }

  /** One attempt of the frame reader at the front of the input: so many bytes rejected, a frame, or the end. */
  datatype Attempt = Rejected(bytes: nat) | Accepted(size: nat, duration: nat) | Over(end: End)

  /** A byte that is no sync byte costs one byte, a false second byte two, a rejected header four. */
  function Try(s: seq<byte>): Attempt {
    if |s| == 0 then Over(CleanEnd)
    else if s[0] != 0xFF then Rejected(1)
    else if |s| == 1 then Over(CleanEnd)
    else if s[1] < 0xE0 then Rejected(2)
    else if |s| == 2 then Over(CleanEnd)
    else if |s| == 3 then Over(ShortEnd)
    else
      match ParseHeader(s[..4])
      case None => Rejected(4)
      case Some(info) =>
        if |s| == 4 then Over(CleanEnd)
        else if |s| < info.size then Over(ShortEnd)
        else Accepted(info.size, info.duration)
  }

  lemma RejectedBytes(s: seq<byte>)
    ensures Try(s).Rejected? ==> 0 < Try(s).bytes <= |s|
  {
  }

  /** The frame reader's search: attempt after attempt until a frame or the end. */
  function Find(s: seq<byte>): Found
    decreases |s|
  {
    RejectedBytes(s);
    match Try(s)
    case Rejected(k) => Shift(k, Find(s[k..]))
    case Accepted(size, duration) => At(0, size, duration)
    case Over(end) => Nothing(end)
  }

  /** A whole frame: sync bits, an accepted header, and exactly the bytes the header announces. */
  predicate WholeFrame(f: seq<byte>) {
    |f| >= 4 && f[0] == 0xFF && f[1] >= 0xE0 && ParseHeader(f[..4]).Some? && |f| == ParseHeader(f[..4]).value.size
  }

  predicate AllWhole(frames: seq<seq<byte>>) {
    forall i :: 0 <= i < |frames| ==> WholeFrame(frames[i])
  }

  function Duration(f: seq<byte>): nat
    requires WholeFrame(f)
  {
    ParseHeader(f[..4]).value.duration
  }

  lemma WholeFrameSize(f: seq<byte>)
    requires WholeFrame(f)
    ensures 24 <= |f| <= 2881 && Duration(f) > 0
  {
    HeaderLaw(f[..4]);
  }

  /** What a find means for its input. */
  ghost predicate PointsAtFrame(s: seq<byte>, f: Found) {
    f.At? ==> f.size >= 4 && f.skipped + f.size <= |s|
              && WholeFrame(s[f.skipped..f.skipped + f.size])
              && f.duration == Duration(s[f.skipped..f.skipped + f.size])
  }

  lemma ShiftPoints(s: seq<byte>, k: nat, f: Found)
    requires k <= |s| && PointsAtFrame(s[k..], f)
    ensures PointsAtFrame(s, Shift(k, f))
  {
    if f.At? {
      assert s[k..][f.skipped..f.skipped + f.size] == s[k + f.skipped..k + f.skipped + f.size];
    }
  }

  lemma AcceptedPoints(s: seq<byte>)
    requires Try(s).Accepted?
    ensures PointsAtFrame(s, At(0, Try(s).size, Try(s).duration))
  {
    HeaderLaw(s[..4]);
    var size := Try(s).size;
    assert s[..size][..4] == s[..4] && s[0..size] == s[..size];
  }

  lemma {:induction false} FoundIsWhole(s: seq<byte>)
    ensures PointsAtFrame(s, Find(s))
    decreases |s|
  {
    RejectedBytes(s);
    match Try(s)
    case Rejected(k) =>
      FoundIsWhole(s[k..]);
      ShiftPoints(s, k, Find(s[k..]));
    case Accepted(_, _) => AcceptedPoints(s);
    case Over(_) =>
  }

  /** The input cut up by the scan. */
  datatype Piece = Skip(bytes: seq<byte>) | Frame(bytes: seq<byte>) | Tail(bytes: seq<byte>)

  function Pieces(s: seq<byte>): seq<Piece>
    decreases |s|
  {
    var f := Find(s);
    FoundIsWhole(s);
    if f.Nothing? then [Tail(s)]
    else [Skip(s[..f.skipped]), Frame(s[f.skipped..f.skipped + f.size])] + Pieces(s[f.skipped + f.size..])
  }

  /** The frames the scan delivers, in order. */
  function Frames(s: seq<byte>): seq<seq<byte>>
    decreases |s|
  {
    var f := Find(s);
    FoundIsWhole(s);
    if f.Nothing? then [] else [s[f.skipped..f.skipped + f.size]] + Frames(s[f.skipped + f.size..])
  }

  function ScanEnd(s: seq<byte>): End
    decreases |s|
  {
    var f := Find(s);
    FoundIsWhole(s);
    if f.Nothing? then f.end else ScanEnd(s[f.skipped + f.size..])
  }

  function Flatten(frames: seq<seq<byte>>): seq<byte> {
    if frames == [] then [] else frames[0] + Flatten(frames[1..])
  }

  function Joined(pieces: seq<Piece>): seq<byte> {
    if pieces == [] then [] else pieces[0].bytes + Joined(pieces[1..])
  }

  function FramesOf(pieces: seq<Piece>): seq<seq<byte>> {
    if pieces == [] then [] else (if pieces[0].Frame? then [pieces[0].bytes] else []) + FramesOf(pieces[1..])
  }

  lemma {:induction false} FlattenConcat(a: seq<seq<byte>>, b: seq<seq<byte>>)
    ensures Flatten(a + b) == Flatten(a) + Flatten(b)
  {
    if a == [] {
      assert a + b == b;
    } else {
      FlattenConcat(a[1..], b);
      assert (a + b)[0] == a[0] && (a + b)[1..] == a[1..] + b;
      Assoc(a[0], Flatten(a[1..]), Flatten(b));
    }
  }

  // ---------------------------------------------------------------- main results

  lemma PiecesStep(s: seq<byte>)
    requires Find(s).At? && PointsAtFrame(s, Find(s))
    ensures var f := Find(s);
            var skip, frame, rest := s[..f.skipped], s[f.skipped..f.skipped + f.size], s[f.skipped + f.size..];
            Pieces(s) == [Skip(skip), Frame(frame)] + Pieces(rest) && Frames(s) == [frame] + Frames(rest)
  {
    hide Find, PointsAtFrame;
    PiecesOf(s);
    FramesOne(s);
  }

  lemma PiecesOf(s: seq<byte>)
    requires Find(s).At? && PointsAtFrame(s, Find(s))
    ensures var f := Find(s);
            Pieces(s) == [Skip(s[..f.skipped]), Frame(s[f.skipped..f.skipped + f.size])]
                + Pieces(s[f.skipped + f.size..])
  {
    hide Find, WholeFrame, ParseHeader;
  }

  lemma FramesOne(s: seq<byte>)
    requires Find(s).At? && PointsAtFrame(s, Find(s))
    ensures var f := Find(s);
            Frames(s) == [s[f.skipped..f.skipped + f.size]] + Frames(s[f.skipped + f.size..])
  {
    hide Find, WholeFrame, ParseHeader;
  }

  lemma PiecesFold(skip: seq<byte>, frame: seq<byte>, more: seq<Piece>)
    ensures var p := [Skip(skip), Frame(frame)] + more;
            Joined(p) == skip + (frame + Joined(more)) && FramesOf(p) == [frame] + FramesOf(more)
  {
    var p := [Skip(skip), Frame(frame)] + more;
    assert p[1..] == [Frame(frame)] + more;
    assert ([Frame(frame)] + more)[1..] == more;
  }

  ghost predicate OnlyLastIsTail(p: seq<Piece>) {
    p != [] && forall i :: 0 <= i < |p| ==> (p[i].Tail? <==> i == |p| - 1)
  }

  ghost predicate SplitsInto(s: seq<byte>, p: seq<Piece>, frames: seq<seq<byte>>) {
    Joined(p) == s && FramesOf(p) == frames && AllWhole(frames) && OnlyLastIsTail(p)
  }

  lemma SplitFold(skip: seq<byte>, frame: seq<byte>, rest: seq<byte>, more: seq<Piece>, frames: seq<seq<byte>>)
    requires SplitsInto(rest, more, frames) && WholeFrame(frame)
    ensures SplitsInto(skip + (frame + rest), [Skip(skip), Frame(frame)] + more, [frame] + frames)
  {
    hide WholeFrame;
    PiecesFold(skip, frame, more);
  }

  /** The scan loses and invents nothing: its pieces joined in order are the input, its frame pieces are the
      delivered frames, every delivered frame is whole, and only the last piece is a tail. */
  lemma {:induction false} ScanSplitsInput(s: seq<byte>)
    ensures SplitsInto(s, Pieces(s), Frames(s))
    decreases |s|
  {
    hide SplitsInto, WholeFrame, Find;
    var f := Find(s);
    FoundIsWhole(s);
    if f.At? {
      ScanSplitsInput(s[f.skipped + f.size..]);
      PiecesStep(s);
      assert s == s[..f.skipped] + (s[f.skipped..f.skipped + f.size] + s[f.skipped + f.size..]);
      SplitFold(s[..f.skipped], s[f.skipped..f.skipped + f.size], s[f.skipped + f.size..],
                Pieces(s[f.skipped + f.size..]), Frames(s[f.skipped + f.size..]));
    } else {
      SplitBase(s);
    }
  }

  lemma SplitBase(s: seq<byte>)
    ensures SplitsInto(s, [Tail(s)], [])
  {
    assert [Tail(s)][1..] == [];
    assert Joined([Tail(s)]) == s + [];
  }

  lemma FindWhole(f: seq<byte>, rest: seq<byte>)
    requires WholeFrame(f)
    ensures Find(f + rest) == At(0, |f|, Duration(f))
  {
    WholeFrameSize(f);
    assert (f + rest)[..4] == f[..4];
  }

  lemma ScanStep(f: seq<byte>, rest: seq<byte>)
    requires WholeFrame(f)
    ensures Frames(f + rest) == [f] + Frames(rest) && ScanEnd(f + rest) == ScanEnd(rest)
  {
    FindWhole(f, rest);
    FoundIsWhole(f + rest);
    var s := f + rest;
    assert s[0..0 + |f|] == f && s[0 + |f|..] == rest;
  }

  /** Scanning whole frames delivers exactly them, followed by what the rest delivers. */
  lemma {:induction false} ScanOfFrames(frames: seq<seq<byte>>, rest: seq<byte>)
    requires AllWhole(frames)
    ensures Frames(Flatten(frames) + rest) == frames + Frames(rest)
    ensures ScanEnd(Flatten(frames) + rest) == ScanEnd(rest)
  {
    hide Frames, Find, ScanEnd;
    if frames == [] {
      assert Flatten(frames) + rest == rest;
      assert frames + Frames(rest) == Frames(rest);
    } else {
      var f, more := frames[0], Flatten(frames[1..]) + rest;
      ScanOfFrames(frames[1..], rest);
      assert Flatten(frames) + rest == f + more;
      ScanStep(f, more);
      assert [f] + (frames[1..] + Frames(rest)) == frames + Frames(rest);
    }
  }

  /** Delivering is idempotent: scanning the delivered frames again returns them unchanged and ends cleanly. */
  lemma RescanIsIdentity(s: seq<byte>)
    ensures Frames(Flatten(Frames(s))) == Frames(s) && ScanEnd(Flatten(Frames(s))) == CleanEnd
  {
    ScanSplitsInput(s);
    ScanOfFrames(Frames(s), []);
    assert Flatten(Frames(s)) + [] == Flatten(Frames(s));
  }

  // ---------------------------------------------------------------- resynchronisation

  /** What a scan gets past without touching what follows: every candidate in the junk is rejected inside the junk.
      This looks at the junk alone. */
  predicate Settles(junk: seq<byte>)
    decreases |junk|
  {
    if junk == [] then true
    else if junk[0] != 0xFF then Settles(junk[1..])
    else if |junk| < 2 then false
    else if junk[1] < 0xE0 then Settles(junk[2..])
    else |junk| >= 4 && ParseHeader(junk[..4]).None? && Settles(junk[4..])
  }

  /** The next frame is found behind the junk exactly if the junk settles; otherwise it is missed, or found late, or a
      frame that is not there is found first. */
  lemma {:induction false} FrameIsFoundExactlyIf(junk: seq<byte>, f: seq<byte>, rest: seq<byte>)
    requires WholeFrame(f)
    ensures Find(junk + (f + rest)) == At(|junk|, |f|, Duration(f)) <==> Settles(junk)
    decreases |junk|
  {
    var s := junk + (f + rest);
    WholeFrameSize(f);
    if junk == [] {
      assert s == f + rest;
      FindWhole(f, rest);
    } else {
      SyncStarts(junk, f, rest);
      if Try(s).Rejected? && Try(s).bytes <= |junk| {
        var k := Try(s).bytes;
        assert s[k..] == junk[k..] + (f + rest);
        FrameIsFoundExactlyIf(junk[k..], f, rest);
      }
      hide WholeFrame, ParseHeader;
    }
  }

  /** The first attempt on junk in front of a frame. */
  lemma SyncStarts(junk: seq<byte>, f: seq<byte>, rest: seq<byte>)
    requires |f| >= 24 && f[0] == 0xFF && junk != []
    ensures var t := Try(junk + (f + rest));
            if t.Rejected? && t.bytes <= |junk| then Settles(junk) <==> Settles(junk[t.bytes..]) else !Settles(junk)
  {
    hide ParseHeader;
    var s := junk + (f + rest);
    var second := if |junk| >= 2 then junk[1] else 0xFF;
    assert |s| >= 25 && s[0] == junk[0] && s[1] == second;
    if junk[0] == 0xFF && second >= 0xE0 {
      if |junk| >= 4 { assert s[..4] == junk[..4]; }
      TryHeader(s);
    }
  }

  lemma TryHeader(s: seq<byte>)
    requires |s| > 4 && s[0] == 0xFF && s[1] >= 0xE0
    ensures if ParseHeader(s[..4]).None? then Try(s) == Rejected(4) else !Try(s).Rejected?
  {
    hide ParseHeader;
  }

  /** Junk without a sync byte settles, so it costs nothing but itself. */
  lemma {:induction false} JunkIsSkipped(junk: seq<byte>, f: seq<byte>, rest: seq<byte>)
    requires WholeFrame(f) && 0xFF !in junk
    ensures Settles(junk) && Find(junk + (f + rest)) == At(|junk|, |f|, Duration(f))
    decreases |junk|
  {
    FrameIsFoundExactlyIf(junk, f, rest);
    if junk != [] { JunkIsSkipped(junk[1..], f, rest); }
  }

  /** Frames with junk in front of each. */
  function Strewn(junk: seq<seq<byte>>, frames: seq<seq<byte>>): seq<byte>
    requires |junk| == |frames|
  {
    if frames == [] then [] else junk[0] + (frames[0] + Strewn(junk[1..], frames[1..]))
  }

  /** Frames strewn with junk that settles are all delivered, and nothing else. */
  lemma {:induction false} SettledJunkCostsNoFrame(junk: seq<seq<byte>>, frames: seq<seq<byte>>, rest: seq<byte>)
    requires |junk| == |frames| && AllWhole(frames) && forall i :: 0 <= i < |junk| ==> Settles(junk[i])
    ensures Frames(Strewn(junk, frames) + rest) == frames + Frames(rest)
  {
    if frames == [] {
      assert Strewn(junk, frames) + rest == rest;
      assert frames + Frames(rest) == Frames(rest);
    } else {
      hide Find, Settles, WholeFrame, ParseHeader, Frames;
      var j, f, more := junk[0], frames[0], Strewn(junk[1..], frames[1..]) + rest;
      SettledJunkCostsNoFrame(junk[1..], frames[1..], rest);
      Assoc(j, f + Strewn(junk[1..], frames[1..]), rest);
      Assoc(f, Strewn(junk[1..], frames[1..]), rest);
      BehindJunk(j, f, more);
      Assoc([f], frames[1..], Frames(rest));
      assert [f] + frames[1..] == frames;
    }
  }

  lemma BehindJunk(junk: seq<byte>, f: seq<byte>, more: seq<byte>)
    requires WholeFrame(f) && Settles(junk)
    ensures Frames(junk + (f + more)) == [f] + Frames(more)
  {
    hide Find, ParseHeader, Settles, Frames, WholeFrame;
    var s := junk + (f + more);
    FrameIsFoundExactlyIf(junk, f, more);
    FoundIsWhole(s);
    FramesOne(s);
    assert s[|junk|..|junk| + |f|] == f && s[|junk| + |f|..] == more;
  }

  /** One stray sync byte right before a frame never settles: with the first three bytes of the header it forms a false
      candidate. Second bytes from F0 on give it an impossible bit rate, and its rejection swallows most of the real
      header. All others give an acceptable header, of MPEG-1 Layer I at 448 kbit/s: a frame that was never there is
      delivered in place of the real one, or the scan ends if the input is too short for it. */
  lemma StraySyncByteHidesFrame(f: seq<byte>, rest: seq<byte>)
    requires WholeFrame(f)
    ensures !Settles([0xFF])
    ensures var s := [0xFF] + (f + rest);
            var candidate := ParseHeader(s[..4]);
            if f[1] >= 0xF0 then candidate.None? && Find(s) == Shift(4, Find((f + rest)[3..]))
            else
              && candidate.Some? && 448 <= candidate.value.size <= 488
              && Find(s) == if |s| >= candidate.value.size then At(0, candidate.value.size, candidate.value.duration)
                            else Nothing(ShortEnd)
  {
    WholeFrameSize(f);
    var s := [0xFF] + (f + rest);
    var h := s[..4];
    assert h == [0xFF, 0xFF, f[1], f[2]];
    if f[1] < 0xF0 { SecondByte(f); }
    hide WholeFrame;
    if f[1] >= 0xF0 { ImpossibleBitrate(h); } else { FalseCandidate(h); }
    hide ParseHeader;
    assert s[4..] == (f + rest)[3..];
  }

  lemma SecondByte(f: seq<byte>)
    requires WholeFrame(f) && f[1] < 0xF0
    ensures 0xE2 <= f[1] <= 0xE7
  {
    AcceptedFields(f[..4]);
  }

  lemma ImpossibleBitrate(h: seq<byte>)
    requires |h| == 4 && h[2] >= 0xF0
    ensures ParseHeader(h).None?
  {
    assert BitrateIndex(h) == 15;
  }

  lemma FalseCandidate(h: seq<byte>)
    requires |h| == 4 && h[0] == 0xFF && h[1] == 0xFF && 0xE2 <= h[2] <= 0xE7
    ensures ParseHeader(h).Some? && 448 <= ParseHeader(h).value.size <= 488
  {
  }

  // ---------------------------------------------------------------- ID3v2 tags

  /** Four bytes of seven bits each (ID3v2.4.0 structure, section 6.2). High bits are not masked. */
  function SyncSafe(v: seq<byte>): nat
    requires |v| == 4
  {
    (v[0] as int) * 0x20_0000 + (v[1] as int) * 0x4000 + (v[2] as int) * 0x80 + (v[3] as int)
  }

  function EncodeSyncSafe(n: nat): seq<byte>
    requires n < 0x1000_0000
  {
    var (n1, b0) := (n / 0x80, n % 0x80);
    var (n2, b1) := (n1 / 0x80, n1 % 0x80);
    var (b3, b2) := (n2 / 0x80, n2 % 0x80);
    [b3, b2, b1, b0]
  }

  lemma SyncSafeRoundTrip(n: nat)
    requires n < 0x1000_0000
    ensures var v := EncodeSyncSafe(n);
            |v| == 4 && SyncSafe(v) == n && forall i :: 0 <= i < 4 ==> v[i] < 0x80
  {
    var n1 := n / 0x80;
    var n2 := n1 / 0x80;
    assert n == 0x80 * n1 + n % 0x80 && n1 == 0x80 * n2 + n1 % 0x80 && n2 == 0x80 * (n2 / 0x80) + n2 % 0x80;
  }

  const ID3: seq<byte> := [0x49, 0x44, 0x33]

  /** Length of the tag at the front, zero without one. A footer (flag bit 4) adds ten bytes. */
  function TagSize(s: seq<byte>): nat {
    if |s| < 10 || s[..3] != ID3 then 0
    else 10 + SyncSafe(s[6..10]) + if s[5] / 0x10 % 2 == 1 then 10 else 0
  }

  /** What the stream writes from an input whose tag is complete: the frames found behind the tag. */
  function StreamFrames(s: seq<byte>): seq<seq<byte>>
    requires TagSize(s) <= |s|
  {
    Frames(s[TagSize(s)..])
  }

  /** A well-formed tag: header (section 3.1), body of the announced size, footer (section 3.4) if flagged. */
  predicate IsTag(tag: seq<byte>) {
    && |tag| >= 10 && tag[..3] == ID3
    && (forall i :: 6 <= i < 10 ==> tag[i] < 0x80)
    && |tag| == 10 + SyncSafe(tag[6..10]) + if tag[5] / 0x10 % 2 == 1 then 10 else 0
  }

  /** A well-formed tag, or none, followed by whole frames yields exactly the frames. */
  lemma TaggedFramesAreDelivered(tag: seq<byte>, frames: seq<seq<byte>>)
    requires (tag == [] || IsTag(tag)) && AllWhole(frames)
    ensures var s := tag + Flatten(frames);
            TagSize(s) == |tag| && StreamFrames(s) == frames && ScanEnd(s[|tag|..]) == CleanEnd
  {
    var s := tag + Flatten(frames);
    if tag == [] {
      FramesAreNoTag(frames);
    } else {
      assert s[..3] == tag[..3] && s[6..10] == tag[6..10];
    }
    assert s[|tag|..] == Flatten(frames) + [];
    ScanOfFrames(frames, []);
  }

  lemma FramesAreNoTag(frames: seq<seq<byte>>)
    requires AllWhole(frames)
    ensures TagSize([] + Flatten(frames)) == 0
  {
    var s: seq<byte> := [] + Flatten(frames);
    if frames != [] && |s| >= 10 {
      assert s[0] == frames[0][0] == 0xFF;
      assert s[..3][0] != ID3[0];
    }
  }

  /** Streaming what was streamed changes nothing, tag or no tag in the original. */
  lemma RestreamIsIdentity(s: seq<byte>)
    requires TagSize(s) <= |s|
    ensures var out := Flatten(StreamFrames(s)); TagSize(out) == 0 && StreamFrames(out) == StreamFrames(s)
  {
    var rest := s[TagSize(s)..];
    ScanSplitsInput(rest);
    FramesAreNoTag(Frames(rest));
    RescanIsIdentity(rest);
    var out := Flatten(StreamFrames(s));
    assert [] + out == out && out[0..] == out;
  }
}
