/** The reader of decoded media (internal/audio/ffmpeg.go): frames leave the file once each, in order. */
module Pcm {
  import opened Common
  import StationModel

  /** One stereo frame. */
  datatype Frame = Frame(left: real, right: real)

  const FRAME_BYTES: nat := 8

  class PcmReader {
    const asset: nat
    const file: seq<Frame>
    /** Where the operating system reads next, in bytes. */
    var offset: nat
    var remaining: nat

    /** The file stands at the first frame not handed out. */
    ghost predicate Valid()
      reads this
    {
      remaining <= |file| && offset == FRAME_BYTES * (|file| - remaining)
    }

    /** Frames not handed out yet. */
    ghost function Rest(): seq<Frame>
      reads this
      requires Valid()
    {
      file[|file| - remaining..]
    }

    constructor (asset: nat, file: seq<Frame>)
      ensures Valid() && this.asset == asset && this.file == file && remaining == |file| && Rest() == file
    {
      this.asset := asset;
      this.file := file;
      this.offset := 0;
      this.remaining := |file|;
    }

    /** Hands out at most `want` frames from the front of the rest; `end` tells that nothing is left. A failed
        read hands out nothing and leaves the count alone, but may have moved the file by some of the bytes wanted;
        then the reader is of no more use, unless it was none of them. */
    method ReadFrames(want: int, fails: bool, moved: nat) returns (samples: seq<Frame>, end: bool, error: bool)
      requires Valid()
      modifies this
      ensures error ==> samples == [] && !end && remaining == old(remaining) && (Valid() <==> moved == 0)
      ensures !error ==> Valid() && samples + Rest() == old(Rest())
      ensures !error ==> |samples| == Min(Max(0, want), old(remaining)) && (end <==> remaining == 0)
      ensures match StationModel.ReadFrames(old(remaining), want, fails)
              case ReadError => error
              case Frames(count, left, last) => !error && |samples| == count && remaining == left && end == last
    {
      if want <= 0 { return [], remaining == 0, false; }
      var count := Min(want, remaining);
      if count == 0 { return [], true, false; }
      if fails {
        offset := offset + Min(moved, FRAME_BYTES * count - 1);
        return [], false, true;
      }
      var from := offset / FRAME_BYTES;
      samples := file[from..from + count];
      offset := offset + FRAME_BYTES * count;
      remaining := remaining - count;
      return samples, remaining == 0, false;
    }
  }

  /** Reading block by block until the end delivers the whole file: nothing is lost, repeated or reordered. */
  method ReadToEnd(reader: PcmReader) returns (samples: seq<Frame>, blocks: nat)
    requires reader.Valid()
    modifies reader
    ensures samples == old(reader.Rest()) && reader.Valid() && reader.remaining == 0
    ensures blocks == CeilDiv(old(reader.remaining), StationModel.BLOCK_FRAMES)
  {
    samples, blocks := [], 0;
    while reader.remaining > 0
      invariant reader.Valid() && samples + reader.Rest() == old(reader.Rest())
      invariant blocks + CeilDiv(reader.remaining, StationModel.BLOCK_FRAMES)
             == CeilDiv(old(reader.remaining), StationModel.BLOCK_FRAMES)
      decreases reader.remaining
    {
      var block, end, error := reader.ReadFrames(StationModel.BLOCK_FRAMES, false, 0);
      samples := samples + block;
      blocks := blocks + 1;
    }
  }
}
