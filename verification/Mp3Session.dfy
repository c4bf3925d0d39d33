/** Sessions: frames written to a listener at real-time pace (internal/mp3stream/streamer.go). */
module Mp3Session {
  import opened Common
  import opened Mp3Frames
  import opened Mp3Stream
  import opened Pacing

  const FALLBACK: nat := 26_000_000
  const DEFAULT_BUFFER: nat := 2_000_000_000

  /** How far delivered audio may run ahead: nothing for a negative setting, two seconds without one. */
  function InitialBuffer(setting: int): nat {
    if setting < 0 then 0 else if setting == 0 then DEFAULT_BUFFER else setting
  }

  /** One round of a streaming loop: whether the context has ended, whether a skip is pending, whether the write
      fails (and after how many bytes), and what the wait runs into. */
  datatype Round = Round(ended: bool, skip: bool, writeFails: bool, taken: nat, waiting: Waiting)

  /** `Observed` means that the script of rounds is used up while the loop goes on. */
  datatype Result = Finished | CancelledBy | SkippedBy | ReadFailed | WriteFailed | InvalidFrame | Observed

  function Durations(frames: seq<seq<byte>>): seq<nat>
    requires AllWhole(frames)
  {
    seq(|frames|, i requires 0 <= i < |frames| => Duration(frames[i]))
  }

  /** The wire holds what it held, then whole frames, then nothing or (after a failed write) part of one frame. */
  ghost predicate Wrote(before: seq<byte>, after: seq<byte>, frames: seq<seq<byte>>, torn: seq<byte>) {
    AllWhole(frames) && after == before + Flatten(frames) + torn
  }

  /** What the pacer waits for: each written frame meets the round it was written in. */
  function Turns(frames: seq<seq<byte>>, rounds: seq<Round>): seq<Turn>
    requires AllWhole(frames) && |frames| <= |rounds|
  {
    seq(|frames|, i requires 0 <= i < |frames| => Turn(Duration(frames[i]), rounds[i].waiting))
  }

  /** The loop ended for the reason it gives: `played` rounds went by undisturbed, and the next one, if the script
      has one, brought what the result says (before a write, in a wait, in the write, or from the input). */
  predicate EndedBy(result: Result, rounds: seq<Round>, written: nat, played: nat) {
    && played <= |rounds| && QuietUntil(rounds, played)
    && match result
       case Observed => written == played == |rounds|
       case CancelledBy => played < |rounds|
           && if written == played then rounds[played].ended else rounds[played].waiting.fate.ContextEnds?
       case SkippedBy => played < |rounds|
           && if written == played then !rounds[played].ended && rounds[played].skip
              else rounds[played].waiting.fate.SkipArrives?
       case WriteFailed => written == played < |rounds| && rounds[played].writeFails
       case _ => written == played < |rounds|
  }

  /** The account of a streaming loop: written are whole frames (and part of one more after a failed write), the
      pacer has waited for each in turn, and accounted for are the first `played` of them. */
  ghost predicate Account(base: seq<byte>, wire: seq<byte>, torn: seq<byte>, done: seq<nat>, completed: seq<nat>,
                          from: Pace, pace: Pace, frames: seq<seq<byte>>, rounds: seq<Round>, played: nat) {
    && Wrote(base, wire, frames, torn)
    && played <= |frames| <= |rounds|
    && completed == done + Durations(frames)[..played]
    && pace == AfterWaits(from, Turns(frames, rounds))
  }

  lemma NothingYet(wire: seq<byte>, done: seq<nat>, pace: Pace, rounds: seq<Round>)
    ensures Account(wire, wire, [], done, done, pace, pace, [], rounds, 0)
  {
    assert wire + Flatten([]) + [] == wire;
    assert done + Durations([])[..0] == done;
    NoTurns(pace, rounds);
  }

  /** A write that failed. */
  lemma TornWrite(base: seq<byte>, wire: seq<byte>, torn: seq<byte>, done: seq<nat>, completed: seq<nat>,
                  from: Pace, pace: Pace, frames: seq<seq<byte>>, rounds: seq<Round>, played: nat)
    requires Account(base, wire, [], done, completed, from, pace, frames, rounds, played)
    ensures Account(base, wire + torn, torn, done, completed, from, pace, frames, rounds, played)
  {
  }

  /** One more frame, written and waited for. */
  lemma NextFrame(base: seq<byte>, wire: seq<byte>, done: seq<nat>, completed: seq<nat>, from: Pace, pace: Pace,
                  frames: seq<seq<byte>>, rounds: seq<Round>, frame: seq<byte>)
    requires Account(base, wire, [], done, completed, from, pace, frames, rounds, |frames|)
    requires WholeFrame(frame) && |frames| < |rounds|
    ensures var turn := Turn(Duration(frame), rounds[|frames|].waiting);
            var played := Outcome(pace, turn).Completed?;
            && Account(base, wire + frame, [], done, if played then completed + [Duration(frame)] else completed,
                       from, AfterWait(pace, turn), frames + [frame], rounds, if played then |frames| + 1 else |frames|)
            && (Outcome(pace, turn).Cancelled? ==> turn.waiting.fate.ContextEnds?)
            && (Outcome(pace, turn).Skipped? ==> turn.waiting.fate.SkipArrives?)
  {
    hide WholeFrame, ParseHeader, AfterWait, AfterWaits, Flatten;
    OneMoreFrame(base, frames, frame);
    OneMoreTurn(from, frames, frame, rounds);
    var all := Durations(frames + [frame]);
    assert all[..|frames|] == Durations(frames) && Durations(frames)[..|frames|] == Durations(frames);
    assert all[..|frames| + 1] == all;
    assert done + all == done + Durations(frames) + [Duration(frame)];
    assert base + Flatten(frames) + [] == base + Flatten(frames);
    FatesHeard(pace, Turn(Duration(frame), rounds[|frames|].waiting));
  }

  predicate AllThe(frame: seq<byte>, frames: seq<seq<byte>>) {
    forall i :: 0 <= i < |frames| ==> frames[i] == frame
  }

  predicate QuietUntil(rounds: seq<Round>, n: nat)
    requires n <= |rounds|
  {
    forall i :: 0 <= i < n ==> Undisturbed(rounds[i])
  }

  lemma NothingBefore(rounds: seq<Round>)
    ensures QuietUntil(rounds, 0)
  {
  }

  lemma QuietRound(rounds: seq<Round>, n: nat)
    requires n < |rounds| && QuietUntil(rounds, n) && Undisturbed(rounds[n])
    ensures QuietUntil(rounds, n + 1)
  {
  }

  lemma NoneYet(frame: seq<byte>)
    ensures AllThe(frame, [])
  {
  }

  lemma OneMoreOf(frame: seq<byte>, frames: seq<seq<byte>>)
    requires AllThe(frame, frames)
    ensures AllThe(frame, frames + [frame]) && AllThe((frames + [frame])[0], frames + [frame])
  {
  }

  predicate Undisturbed(r: Round) {
    !r.ended && !r.skip && !r.writeFails
  }

  function Heard(w: WaitResult): Result {
    match w
    case Completed => Observed
    case Cancelled => CancelledBy
    case Skipped => SkippedBy
  }

  // ---------------------------------------------------------------- the embedded silent frame

  function SilentHead(): seq<byte> {
    [0xff, 0xfb, 0x92, 0xc4, 0x39, 0x03, 0xc0, 0x00, 0x01, 0xa4, 0x00, 0x00, 0x00, 0x20, 0x00, 0x00, 0x34, 0x80,
     0x00, 0x00, 0x04]
  }

  /** "LAME3.101 (beta 3)" */
  function LameTag(): seq<byte> {
    [0x4C, 0x41, 0x4D, 0x45, 0x33, 0x2E, 0x31, 0x30, 0x31, 0x20, 0x28, 0x62, 0x65, 0x74, 0x61, 0x20, 0x33, 0x29]
  }

  /** 21 bytes of a header and side information, filler up to byte 257, the encoder's name, and filler to the end. */
  ghost predicate IsSilentFrame(frame: seq<byte>) {
    && |frame| == 418 && frame[..21] == SilentHead() && frame[257..275] == LameTag()
    && forall i :: 21 <= i < 418 ==> 257 <= i < 275 || frame[i] == 0x55
  }

  method MakeSilentFrame() returns (frame: seq<byte>)
    ensures IsSilentFrame(frame)
  {
    frame := SilentHead();
    while |frame| < 257
      invariant 21 <= |frame| <= 257 && frame[..21] == SilentHead()
      invariant forall i :: 21 <= i < |frame| ==> frame[i] == 0x55
    {
      frame := frame + [0x55];
    }
    frame := frame + LameTag();
    while |frame| < 418
      invariant 275 <= |frame| <= 418 && frame[..21] == SilentHead() && frame[257..275] == LameTag()
      invariant forall i :: 21 <= i < |frame| ==> 257 <= i < 275 || frame[i] == 0x55
    {
      frame := frame + [0x55];
    }
  }

  /** The embedded frame passes its own check, so streaming silence never reports it as invalid. */
  lemma SilentHeader(h: seq<byte>)
    requires h == [0xff, 0xfb, 0x92, 0xc4]
    ensures ParseHeader(h).Some? && ParseHeader(h).value.size == 418
  {
    assert VersionID(h) == 3 && LayerID(h) == 1 && BitrateIndex(h) == 9 && SampleRateIndex(h) == 0 && Padding(h) == 1;
    assert BitrateKbps(3, 3, 9) == 128 && SampleRate(3, 0) == 44100;
    assert 144 * 128 * 1000 / 44100 == 417;
  }

  method ParseSilentFrame() returns (frame: seq<byte>, duration: nat, ok: bool)
    ensures ok && IsSilentFrame(frame) && WholeFrame(frame) && duration == Duration(frame)
  {
    frame := MakeSilentFrame();
    duration, ok := 0, false;
    var header := frame[..4];
    assert header == frame[..21][..4];
    SilentHeader(header);
    assert frame[0] == header[0] && frame[1] == header[1];
    var info := ParseHeader(header);
    if info.None? || info.value.size != |frame| { return; }
    return frame, info.value.duration, true;
  }

  // ---------------------------------------------------------------- tag

  datatype TagResult = TagDone | TagCancelled | TagSkipped | TagReadFailed | TagWriteFailed | TagObserved

  /** Looks at the first ten bytes; anything but a tag header means that there is nothing to consume. */
  method MeasureTag(reader: ByteReader) returns (size: nat)
    requires reader.Valid()
    ensures size == TagSize(reader.Rest())
  {
    hide SyncSafe;
    ghost var s := reader.Rest();
    var header := reader.Peek(10);
    if header.None? { return 0; }
    assert header.value[..3] == s[..3] && header.value[6..10] == s[6..10];
    if header.value[..3] != ID3 { return 0; }
    size := 10 + SyncSafe(header.value[6..10]);
    if header.value[5] / 0x10 % 2 == 1 { size := size + 10; }
  }

  /** One chunk of a tag: read, and passed on if wanted. Bytes read before the input ran out are passed on too, and
      a write that fails may have taken some. */
  method PassChunk(reader: ByteReader, sink: Sink, send: bool, chunk: nat, round: Round)
      returns (n: nat, failure: Option<TagResult>, ghost sent: seq<byte>)
    requires reader.Valid()
    modifies reader, sink
    ensures reader.Valid() && n <= |old(reader.Rest())| && reader.Rest() == old(reader.Rest())[n..]
    ensures sink.written == old(sink.written) + sent && sent <= old(reader.Rest())[..n]
    ensures if !send then sent == [] else failure != Some(TagWriteFailed) ==> sent == old(reader.Rest())[..n]
    ensures n <= chunk && (failure.None? ==> n == chunk)
    ensures failure.Some? ==> failure.value in {TagWriteFailed, TagReadFailed}
    ensures failure == Some(TagWriteFailed) ==> send && round.writeFails
    ensures failure == Some(TagReadFailed) ==> n == |old(reader.Rest())| < chunk
  {
    var got, end := reader.ReadFull(chunk);
    n := |got|;
    sent := [];
    assert sink.written + sent == sink.written;
    if n > 0 && send {
      var error := sink.Write(got, round.writeFails, round.taken);
      if error {
        sent :| sent <= got && sink.written == old(sink.written) + sent;
        return n, Some(TagWriteFailed), sent;
      }
      sent := got;
    }
    return n, if end.Some? then Some(TagReadFailed) else None, sent;
  }

  /** The tag at the front, as far as the input has it. */
  function TagOf(s: seq<byte>): seq<byte> {
    s[..Min(TagSize(s), |s|)]
  }

  /** Reads past an ID3v2 tag in chunks of 4096 bytes, optionally passing them on. Done, it has read exactly the
      tag; without a tag it has read nothing. Whatever happens, only tag bytes are passed on, from the first. */
  method ConsumeTag(reader: ByteReader, sink: Sink, send: bool, rounds: seq<Round>)
      returns (result: TagResult, ghost sent: seq<byte>)
    requires reader.Valid()
    modifies reader, sink
    ensures reader.Valid()
    ensures sink.written == old(sink.written) + sent && sent <= TagOf(old(reader.Rest())) && (!send ==> sent == [])
    ensures var s := old(reader.Rest());
            result.TagDone? ==>
              TagSize(s) <= |s| && reader.Rest() == s[TagSize(s)..] && (send ==> sent == TagOf(s))
    ensures result.TagReadFailed? ==>
              && |old(reader.Rest())| < TagSize(old(reader.Rest())) && reader.Rest() == []
              && (send ==> sent == old(reader.Rest()))
    ensures result.TagCancelled? ==> SomeEnded(rounds)
    ensures result.TagSkipped? ==> SomeSkipped(rounds)
    ensures result.TagWriteFailed? ==> send && SomeWriteFailed(rounds)
    ensures result.TagObserved? ==> 4096 * |rounds| < TagSize(old(reader.Rest()))
  {
    hide TagSize, TagOf, SyncSafe, TagSoFar, SomeEnded, SomeSkipped, SomeWriteFailed;
    ghost var s := reader.Rest();
    ghost var wire := sink.written;
    var size := MeasureTag(reader);
    var passed: nat := 0;
    sent := [];
    TagBegins(wire, s, send);
    for i := 0 to |rounds|
      invariant reader.Valid() && passed == Min(size, 4096 * i)
      invariant TagSoFar(wire, sink.written, s, reader.Rest(), passed, sent, send)
    {
      SoFarIsTag(wire, sink.written, s, reader.Rest(), passed, sent, send);
      if passed == size { return TagDone, sent; }
      var round := rounds[i];
      SomeRound(rounds, i);
      if round.ended { return TagCancelled, sent; }
      if round.skip { return TagSkipped, sent; }
      ghost var written, rest := sink.written, reader.Rest();
      var n, failure, more := PassChunk(reader, sink, send, Min(4096, size - passed), round);
      MoreOfTag(wire, written, s, rest, passed, sent, send, n, more);
      sent := sent + more;
      if failure.Some? { return failure.value, sent; }
      passed := passed + n;
    }
    SoFarIsTag(wire, sink.written, s, reader.Rest(), passed, sent, send);
    return if passed == size then TagDone else TagObserved, sent;
  }

  ghost predicate SomeEnded(rounds: seq<Round>) {
    exists i :: 0 <= i < |rounds| && rounds[i].ended
  }

  ghost predicate SomeSkipped(rounds: seq<Round>) {
    exists i :: 0 <= i < |rounds| && rounds[i].skip
  }

  ghost predicate SomeWriteFailed(rounds: seq<Round>) {
    exists i :: 0 <= i < |rounds| && rounds[i].writeFails
  }

  lemma SomeRound(rounds: seq<Round>, i: nat)
    requires i < |rounds|
    ensures rounds[i].ended ==> SomeEnded(rounds)
    ensures rounds[i].skip ==> SomeSkipped(rounds)
    ensures rounds[i].writeFails ==> SomeWriteFailed(rounds)
  {
  }

  /** So many bytes of the tag read, and passed on if wanted. */
  ghost predicate TagSoFar(wire: seq<byte>, written: seq<byte>, s: seq<byte>, rest: seq<byte>, passed: nat,
                           sent: seq<byte>, send: bool) {
    && passed <= |s| && rest == s[passed..] && sent == (if send then s[..passed] else []) && written == wire + sent
  }

  lemma TagBegins(wire: seq<byte>, s: seq<byte>, send: bool)
    ensures TagSoFar(wire, wire, s, s, 0, [], send)
  {
    assert s[..0] == [] && wire + [] == wire;
  }

  lemma SoFarIsTag(wire: seq<byte>, written: seq<byte>, s: seq<byte>, rest: seq<byte>, passed: nat, sent: seq<byte>,
                   send: bool)
    requires TagSoFar(wire, written, s, rest, passed, sent, send) && passed <= TagSize(s)
    ensures written == wire + sent && sent <= TagOf(s) && (!send ==> sent == []) && passed <= |s| && rest == s[passed..]
    ensures passed == TagSize(s) && send ==> sent == TagOf(s)
  {
    hide TagSize;
    assert s[..passed] <= s[..Min(TagSize(s), |s|)];
  }

  lemma MoreOfTag(wire: seq<byte>, written: seq<byte>, s: seq<byte>, rest: seq<byte>, passed: nat, sent: seq<byte>,
                  send: bool, n: nat, more: seq<byte>)
    requires TagSoFar(wire, written, s, rest, passed, sent, send) && passed + n <= TagSize(s)
    requires n <= |rest| && more <= rest[..n] && (!send ==> more == [])
    ensures written + more == wire + (sent + more) && sent + more <= TagOf(s)
    ensures (send ==> more == rest[..n]) ==> TagSoFar(wire, written + more, s, rest[n..], passed + n, sent + more, send)
    ensures n == |rest| ==> rest[n..] == [] && |s| == passed + n && (send && more == rest[..n] ==> sent + more == s)
  {
    hide TagSize;
    Assoc(wire, sent, more);
    PrefixGrows([], s, passed, n);
    assert s[..passed] + s[passed..][..n] == s[..passed + n];
    assert s[..passed + n] <= s[..Min(TagSize(s), |s|)];
  }

  // ---------------------------------------------------------------- sessions

  class Session {
    const pacer: Pacer
    const buffer: int
    const sendTags: bool
    const fallback: nat

    ghost predicate Valid()
      reads this, pacer, pacer.clock
    {
      pacer.Valid() && fallback > 0
    }

    constructor (clock: Clock, buffer: int, sendTags: bool, fallback: int)
      ensures Valid() && pacer.completed == [] && fresh(pacer) && pacer.clock == clock
      ensures this.buffer == buffer && pacer.start == clock.now
      ensures pacer.lead == if buffer < 0 then 0 else if buffer == 0 then 2_000_000_000 else buffer
      ensures this.sendTags == sendTags && this.fallback == if fallback <= 0 then 26_000_000 else fallback
    {
      pacer := new Pacer(clock, InitialBuffer(buffer));
      this.buffer := buffer;
      this.sendTags := sendTags;
      this.fallback := if fallback <= 0 then FALLBACK else fallback;
    }

    /** Starts timing afresh, as after a pause. */
    method ResetTiming()
      requires Valid()
      modifies pacer
      ensures Valid() && pacer.completed == [] && pacer.start == pacer.clock.now
      ensures pacer.lead == if buffer < 0 then 0 else if buffer == 0 then 2_000_000_000 else buffer
    {
      pacer.Reset(InitialBuffer(buffer));
    }

    /** Delivers one frame: write, then wait. */
    method Deliver(sink: Sink, frame: seq<byte>, announced: nat, round: Round)
        returns (result: Result, ghost torn: seq<byte>)
      requires Valid() && WholeFrame(frame) && announced == Duration(frame)
      modifies sink, pacer, pacer.clock
      ensures Valid()
      ensures !result.WriteFailed? ==>
                torn == [] && sink.written == old(sink.written) + frame
                && result in {Observed, CancelledBy, SkippedBy}
                && pacer.completed == (if result.Observed? then old(pacer.completed) + [Duration(frame)]
                                       else old(pacer.completed))
      ensures result.WriteFailed? ==>
                torn <= frame && sink.written == old(sink.written) + torn && pacer.completed == old(pacer.completed)
      ensures result.WriteFailed? <==> round.writeFails
      ensures var turn := Turn(Duration(frame), round.waiting);
              if round.writeFails then pacer.State() == old(pacer.State())
              else result == Heard(Outcome(old(pacer.State()), turn))
                   && pacer.State() == AfterWait(old(pacer.State()), turn)
    {
      torn := [];
      var error := sink.Write(frame, round.writeFails, round.taken);
      if error {
        torn :| torn <= frame && sink.written == old(sink.written) + torn;
        return WriteFailed, torn;
      }
      var duration := if announced <= 0 then fallback else announced;
      WholeFrameSize(frame);
      var waited := pacer.Wait(duration, round.waiting);
      match waited
      case Completed => return Observed, [];
      case Cancelled => return CancelledBy, [];
      case Skipped => return SkippedBy, [];
    }

    /** The frame loop of a stream: from a reader behind its tag, a prefix of the frames to come, or all of them. */
    method StreamFromReader(sink: Sink, reader: ByteReader, rounds: seq<Round>)
      returns (result: Result, ghost frames: seq<seq<byte>>, ghost torn: seq<byte>, ghost played: nat)
      requires Valid() && reader.Valid()
      modifies sink, reader, pacer, pacer.clock
      ensures Valid() && !result.InvalidFrame?
      ensures var s := old(reader.Rest());
              && frames <= Frames(s)
              && (result.Finished? ==> frames == Frames(s) && ScanEnd(s) == CleanEnd)
              && (result.ReadFailed? ==> frames == Frames(s) && ScanEnd(s) == ShortEnd)
      ensures Account(old(sink.written), sink.written, torn, old(pacer.completed), pacer.completed,
                      old(pacer.State()), pacer.State(), frames, rounds, played)
      ensures EndedBy(result, rounds, |frames|, played) && (torn != [] ==> result.WriteFailed?)
      ensures |frames| - 1 <= played && (played < |frames| ==> result.CancelledBy? || result.SkippedBy?)
    {
      hide WholeFrame, Find, ParseHeader, Frames, ScanEnd, AfterWait, AfterWaits, Outcome, Account, QuietUntil,
           ScannedTo;
      frames, torn, played := [], [], 0;
      ghost var input, base, done, from := reader.Rest(), sink.written, pacer.completed, pacer.State();
      NothingYet(base, done, from, rounds);
      NothingBefore(rounds);
      ScanBegins(input);
      for i := 0 to |rounds|
        invariant Valid() && reader.Valid() && played == |frames| == i && torn == []
        invariant QuietUntil(rounds, i)
        invariant ScannedTo(input, frames, reader.Rest())
        invariant Account(base, sink.written, [], done, pacer.completed, from, pacer.State(), frames, rounds, i)
      {
        var round := rounds[i];
        ScanPrefix(input, frames, reader.Rest());
        if round.ended { return CancelledBy, frames, torn, played; }
        if round.skip { return SkippedBy, frames, torn, played; }
        ghost var rest, wire, completed, pace := reader.Rest(), sink.written, pacer.completed, pacer.State();
        var frame, duration, end := ReadFrame(reader);
        if end.Some? {
          ScanCompletes(input, frames, rest);
          return if end.value.CleanEnd? then Finished else ReadFailed, frames, torn, played;
        }
        ScanUnfolds(rest);
        ScanMoves(input, frames, rest, frame, reader.Rest());
        result, torn := Deliver(sink, frame, duration, round);
        if result.WriteFailed? {
          TornWrite(base, wire, torn, done, completed, from, pace, frames, rounds, i);
          return result, frames, torn, played;
        }
        NextFrame(base, wire, done, completed, from, pace, frames, rounds, frame);
        frames := frames + [frame];
        ScanPrefix(input, frames, reader.Rest());
        if !result.Observed? { return result, frames, torn, played; }
        QuietRound(rounds, i);
        played := played + 1;
      }
      ScanPrefix(input, frames, reader.Rest());
      return Observed, frames, torn, played;
    }

    /** Streams one track: past its tag, then frame by frame. What reaches the wire is the tag if wanted, then a prefix
        of the track's frames (plus part of one frame after a failed write), and exactly the frames whose wait
        completed are accounted for: all written ones, or all but the last if the wait was interrupted. */
    method Stream(sink: Sink, reader: ByteReader, tagRounds: seq<Round>, rounds: seq<Round>)
      returns (result: Result, ghost tag: seq<byte>, ghost frames: seq<seq<byte>>, ghost torn: seq<byte>,
               ghost played: nat)
      requires Valid() && reader.Valid()
      modifies sink, reader, pacer, pacer.clock
      ensures Valid() && AllWhole(frames)
      ensures var s := old(reader.Rest());
              && (frames != [] ==> TagSize(s) <= |s| && frames <= StreamFrames(s))
              && (result.Finished? ==>
                    TagSize(s) <= |s| && frames == StreamFrames(s) && ScanEnd(s[TagSize(s)..]) == CleanEnd)
              && (result.ReadFailed? ==>
                    |s| < TagSize(s) || (frames == StreamFrames(s) && ScanEnd(s[TagSize(s)..]) == ShortEnd))
      ensures Wrote(old(sink.written) + tag, sink.written, frames, torn)
      ensures tag <= TagOf(old(reader.Rest())) && (!sendTags ==> tag == [])
      ensures sendTags && (frames != [] || result.Finished?) ==> tag == TagOf(old(reader.Rest()))
      ensures torn != [] ==> result.WriteFailed?
      ensures |frames| - 1 <= played <= |frames| && (played < |frames| ==> result.CancelledBy? || result.SkippedBy?)
      ensures pacer.completed == old(pacer.completed) + Durations(frames)[..played]
      ensures |frames| <= |rounds| && pacer.State() == AfterWaits(old(pacer.State()), Turns(frames, rounds))
      ensures frames != [] ==> EndedBy(result, rounds, |frames|, played)
    {
      hide WholeFrame, Find, ParseHeader, Frames, ScanEnd, EndedBy, AfterWaits;
      NoTurns(pacer.State(), rounds);
      frames, torn, played := [], [], 0;
      ghost var wire, done := sink.written, pacer.completed;
      var read;
      read, tag := ConsumeTag(reader, sink, sendTags, tagRounds);
      assert (wire + tag) + Flatten([]) + [] == wire + tag && done + Durations([])[..0] == done;
      match read {
        case TagCancelled => return CancelledBy, tag, frames, torn, played;
        case TagSkipped => return SkippedBy, tag, frames, torn, played;
        case TagReadFailed => return ReadFailed, tag, frames, torn, played;
        case TagWriteFailed => return WriteFailed, tag, frames, torn, played;
        case TagObserved => return Observed, tag, frames, torn, played;
        case TagDone =>
      }
      result, frames, torn, played := StreamFromReader(sink, reader, rounds);
    }

    /** Silence until something interrupts it: whole copies of the embedded frame at the same pace. */
    method StreamSilence(sink: Sink, rounds: seq<Round>)
      returns (result: Result, ghost frames: seq<seq<byte>>, ghost torn: seq<byte>, ghost played: nat)
      requires Valid()
      modifies sink, pacer, pacer.clock
      ensures Valid() && !result.Finished? && !result.ReadFailed? && !result.InvalidFrame?
      ensures Account(old(sink.written), sink.written, torn, old(pacer.completed), pacer.completed,
                      old(pacer.State()), pacer.State(), frames, rounds, played)
      ensures EndedBy(result, rounds, |frames|, played) && (torn != [] ==> result.WriteFailed?)
      ensures |frames| - 1 <= played && (played < |frames| ==> result.CancelledBy? || result.SkippedBy?)
      ensures frames != [] ==> IsSilentFrame(frames[0]) && AllThe(frames[0], frames)
    {
      hide WholeFrame, ParseHeader, AfterWait, AfterWaits, Outcome, Account, Duration, QuietUntil, AllThe,
        IsSilentFrame;
      frames, torn, played := [], [], 0;
      ghost var base, done, from := sink.written, pacer.completed, pacer.State();
      NothingYet(base, done, from, rounds);
      NothingBefore(rounds);
      var frame, duration, ok := ParseSilentFrame();
      if !ok { return InvalidFrame, frames, torn, played; }
      NoneYet(frame);
      for i := 0 to |rounds|
        invariant Valid() && played == |frames| == i && torn == []
        invariant AllThe(frame, frames) && (frames != [] ==> frames[0] == frame)
        invariant QuietUntil(rounds, i)
        invariant Account(base, sink.written, [], done, pacer.completed, from, pacer.State(), frames, rounds, i)
      {
        var round := rounds[i];
        if round.ended { return CancelledBy, frames, torn, played; }
        if round.skip { return SkippedBy, frames, torn, played; }
        ghost var wire, completed, pace := sink.written, pacer.completed, pacer.State();
        result, torn := Deliver(sink, frame, duration, round);
        if result.WriteFailed? {
          TornWrite(base, wire, torn, done, completed, from, pace, frames, rounds, i);
          return result, frames, torn, played;
        }
        NextFrame(base, wire, done, completed, from, pace, frames, rounds, frame);
        OneMoreOf(frame, frames);
        frames := frames + [frame];
        if !result.Observed? { return result, frames, torn, played; }
        QuietRound(rounds, i);
        played := played + 1;
      }
      return Observed, frames, torn, played;
    }
  }

  /** So far the scan of `input` has delivered `frames`, and `rest` is still to be scanned. */
  ghost predicate ScannedTo(input: seq<byte>, frames: seq<seq<byte>>, rest: seq<byte>) {
    Frames(input) == frames + Frames(rest) && ScanEnd(input) == ScanEnd(rest)
  }

  lemma ScanBegins(input: seq<byte>)
    ensures ScannedTo(input, [], input)
  {
    hide Frames, ScanEnd;
    assert [] + Frames(input) == Frames(input);
  }

  lemma ScanPrefix(input: seq<byte>, frames: seq<seq<byte>>, rest: seq<byte>)
    requires ScannedTo(input, frames, rest)
    ensures frames <= Frames(input)
  {
    hide Frames, ScanEnd;
  }

  lemma ScanMoves(input: seq<byte>, frames: seq<seq<byte>>, rest: seq<byte>, frame: seq<byte>, more: seq<byte>)
    requires ScannedTo(input, frames, rest) && Frames(rest) == [frame] + Frames(more) && ScanEnd(rest) == ScanEnd(more)
    ensures ScannedTo(input, frames + [frame], more)
  {
    hide Frames, ScanEnd;
    Assoc(frames, [frame], Frames(more));
  }

  lemma ScanCompletes(input: seq<byte>, frames: seq<seq<byte>>, rest: seq<byte>)
    requires ScannedTo(input, frames, rest) && Find(rest).Nothing?
    ensures frames == Frames(input) && ScanEnd(input) == Find(rest).end
  {
    ScanStops(rest);
    hide Frames, ScanEnd, Find;
    assert frames + [] == frames;
  }

  lemma NoTurns(p: Pace, rounds: seq<Round>)
    ensures AfterWaits(p, Turns([], rounds)) == p
  {
  }

  lemma OneMoreTurn(p: Pace, frames: seq<seq<byte>>, frame: seq<byte>, rounds: seq<Round>)
    requires AllWhole(frames) && WholeFrame(frame) && |frames| < |rounds|
    ensures AllWhole(frames + [frame])
    ensures AfterWaits(p, Turns(frames + [frame], rounds))
         == AfterWait(AfterWaits(p, Turns(frames, rounds)), Turn(Duration(frame), rounds[|frames|].waiting))
  {
    hide WholeFrame, ParseHeader, AfterWait;
    var turns := Turns(frames + [frame], rounds);
    assert turns[..|turns| - 1] == Turns(frames, rounds);
  }

  lemma FatesHeard(p: Pace, t: Turn)
    ensures Outcome(p, t).Cancelled? ==> t.waiting.fate.ContextEnds?
    ensures Outcome(p, t).Skipped? ==> t.waiting.fate.SkipArrives?
  {
  }

  lemma OneMoreFrame(base: seq<byte>, frames: seq<seq<byte>>, frame: seq<byte>)
    requires AllWhole(frames) && WholeFrame(frame)
    ensures AllWhole(frames + [frame])
    ensures base + Flatten(frames + [frame]) == (base + Flatten(frames)) + frame
    ensures Durations(frames + [frame]) == Durations(frames) + [Duration(frame)]
  {
    hide WholeFrame, ParseHeader;
    FlattenConcat(frames, [frame]);
    assert Flatten([frame]) == frame + Flatten([frame][1..]) == frame;
    Assoc(base, Flatten(frames), frame);
  }

  lemma ScanUnfolds(s: seq<byte>)
    requires Find(s).At?
    ensures PointsAtFrame(s, Find(s))
    ensures var f := Find(s);
            && Frames(s) == [s[f.skipped..f.skipped + f.size]] + Frames(s[f.skipped + f.size..])
            && ScanEnd(s) == ScanEnd(s[f.skipped + f.size..])
  {
    FoundIsWhole(s);
    hide Find, PointsAtFrame, Frames, ScanEnd;
    FramesOne(s);
    ScanEndOne(s);
  }

  lemma ScanEndOne(s: seq<byte>)
    requires Find(s).At? && PointsAtFrame(s, Find(s))
    ensures ScanEnd(s) == ScanEnd(s[Find(s).skipped + Find(s).size..])
  {
    hide Find, WholeFrame, ParseHeader;
  }

  lemma ScanStops(s: seq<byte>)
    requires Find(s).Nothing?
    ensures Frames(s) == [] && ScanEnd(s) == Find(s).end
  {
  }

  /** Any number of calls in a row: what several calls wrote, one after another without a failed write, is again
      a concatenation of whole frames. */
  lemma WritesCompose(a: seq<byte>, b: seq<byte>, c: seq<byte>, first: seq<seq<byte>>, second: seq<seq<byte>>,
                      torn: seq<byte>)
    requires Wrote(a, b, first, []) && Wrote(b, c, second, torn)
    ensures Wrote(a, c, first + second, torn)
  {
    hide WholeFrame;
    FlattenConcat(first, second);
    hide Flatten;
    assert a + Flatten(first) + [] == a + Flatten(first);
    Assoc(a, Flatten(first), Flatten(second));
  }
}
