/** Streaming at real-time pace (internal/mp3stream/streamer.go): readers, writers, the pacer and the session.
    The outside world is a script: for each round, what the context, the skip channel, the writer and the clock
    do. Running out of script is the end of the observation, not of the program. Time is in nanoseconds. */
module Mp3Stream {
  import opened Common
  import opened Mp3Frames

  // ---------------------------------------------------------------- bytes in, bytes out

  class ByteReader {
    const data: seq<byte>
    var pos: nat

    ghost predicate Valid()
      reads this
    {
      pos <= |data|
    }

    ghost function Rest(): seq<byte>
      reads this
      requires Valid()
    {
      data[pos..]
    }

    constructor (data: seq<byte>)
      ensures Valid() && Rest() == data
    {
      this.data := data;
      pos := 0;
    }

    method ReadByte() returns (b: Option<byte>)
      requires Valid()
      modifies this
      ensures Valid()
      ensures if old(Rest()) == [] then b.None? && Rest() == []
              else b == Some(old(Rest())[0]) && Rest() == old(Rest())[1..]
    {
      if pos == |data| { return None; }
      b := Some(data[pos]);
      pos := pos + 1;
    }

    /** Reads exactly `n` bytes or everything that is left; nothing at all is a clean end, less is a short one. */
    method ReadFull(n: nat) returns (got: seq<byte>, end: Option<End>)
      requires Valid()
      modifies this
      ensures Valid()
      ensures |old(Rest())| >= n ==> end.None? && got == old(Rest())[..n] && Rest() == old(Rest())[n..]
      ensures |old(Rest())| < n ==>
                got == old(Rest()) && Rest() == [] && end == Some(if old(Rest()) == [] then CleanEnd else ShortEnd)
    {
      if |data| - pos >= n {
        got, end := data[pos..pos + n], None;
        pos := pos + n;
      } else {
        got := data[pos..];
        end := Some(if pos == |data| then CleanEnd else ShortEnd);
        pos := |data|;
      }
    }

    method Peek(n: nat) returns (head: Option<seq<byte>>)
      requires Valid()
      ensures if |Rest()| >= n then head == Some(Rest()[..n]) else head.None?
    {
      if |data| - pos < n { return None; }
      assert data[pos..][..n] == data[pos..pos + n];
      return Some(data[pos..pos + n]);
    }
  }

  class Sink {
    var written: seq<byte>

    constructor ()
      ensures written == []
    {
      written := [];
    }

    /** A failing write may still have taken some of the bytes. */
    method Write(bytes: seq<byte>, fails: bool, taken: nat) returns (error: bool)
      modifies this
      ensures error == fails
      ensures !fails ==> written == old(written) + bytes
      ensures fails ==> exists torn :: torn <= bytes && written == old(written) + torn
    {
      if fails {
        var torn := if taken <= |bytes| then bytes[..taken] else bytes;
        written := written + torn;
        return true;
      }
      written := written + bytes;
      return false;
    }
  }

  // ---------------------------------------------------------------- frame reader

  datatype Reading = Again(bytes: nat) | Got(frame: seq<byte>, duration: nat) | Ended(end: End)

  /** One round of the frame reader's loop; `Again` is its continue. */
  method ReadCandidate(reader: ByteReader) returns (r: Reading)
    requires reader.Valid()
    modifies reader
    ensures reader.Valid()
    ensures var s := old(reader.Rest());
            match Try(s)
            case Rejected(k) => r == Again(k) && k <= |s| && reader.Rest() == s[k..]
            case Accepted(n, d) => n <= |s| && r == Got(s[..n], d) && reader.Rest() == s[n..]
            case Over(e) => r == Ended(e) && reader.Rest() == []
  {
    ghost var s := reader.Rest();
    var first := reader.ReadByte();
    if first.None? { return Ended(CleanEnd); }
    if first.value != 0xFF { return Again(1); }
    var second := reader.ReadByte();
    if second.None? { return Ended(CleanEnd); }
    assert reader.Rest() == s[2..];
    if second.value < 0xE0 { return Again(2); }
    var tail, end := reader.ReadFull(2);
    if end.Some? { return Ended(end.value); }
    var header := [first.value, second.value] + tail;
    assert header == s[..4] && reader.Rest() == s[4..];
    var info := ParseHeader(header);
    if info.None? { return Again(4); }
    HeaderLaw(header);
    var body;
    body, end := reader.ReadFull(info.value.size - 4);
    if end.Some? { return Ended(end.value); }
    assert header + body == s[..info.value.size];
    return Got(header + body, info.value.duration);
  }

  /** Reads up to and including the next frame. */
  method ReadFrame(reader: ByteReader) returns (frame: seq<byte>, duration: nat, end: Option<End>)
    requires reader.Valid()
    modifies reader
    ensures reader.Valid()
    ensures var s := old(reader.Rest());
            match Find(s)
            case At(k, n, d) =>
              k + n <= |s| && end.None? && frame == s[k..k + n] && duration == d && reader.Rest() == s[k + n..]
            case Nothing(e) => end == Some(e) && reader.Rest() == []
  {
    hide Try;
    ghost var s := reader.Rest();
    ghost var skipped: nat := 0;
    while true
      invariant reader.Valid() && skipped <= |s| && reader.Rest() == s[skipped..]
      invariant Find(s) == Shift(skipped, Find(reader.Rest()))
      decreases |reader.Rest()|
    {
      ghost var rest := reader.Rest();
      RejectedBytes(rest);
      var r := ReadCandidate(reader);
      match r
      case Again(k) => skipped := skipped + k;
      case Got(f, d) =>
        assert f == s[skipped..skipped + |f|];
        return f, d, None;
      case Ended(e) => return [], 0, Some(e);
    }
  }
}
