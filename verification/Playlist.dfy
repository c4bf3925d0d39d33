/** Tracks, announcements and their normalisation (internal/playlist/playlist.go).
    Title, artist and metadata are carried by the program but never decide anything, so they are absent. */
module Playlist {
  import opened Common

  const MAX_QUEUE_TRACKS: nat := 5
  const MAX_TRANSITION_MS: nat := 30000

  datatype MediaRef = MediaRef(bucket: string, objectKey: string, versionID: string)

  /** `Unset` is the empty type string; `Unknown` is any string the program does not recognise. */
  datatype TransitionKind = Unset | Cut | Fade | Crossfade | Unknown

  /** `curve` is empty, "linear" or any other string; every non-linear curve is treated as equal power. */
  datatype Curve = NoCurve | Linear | EqualPower

  datatype Transition = Transition(kind: TransitionKind, durationMS: int, curve: Curve)

  datatype Track = Track(itemID: string, media: MediaRef, transitionIn: Transition)

  datatype Announcement = Announcement(commandID: string, media: MediaRef)

  /** White space in the sense of Unicode, which is what trimming removes. */
  predicate IsSpace(c: char) {
    var u := c as int;
    0x09 <= u <= 0x0D || u == 0x20 || u == 0x85 || u == 0xA0 || u == 0x1680 || 0x2000 <= u <= 0x200A
    || u == 0x2028 || u == 0x2029 || u == 0x202F || u == 0x205F || u == 0x3000
  }

  predicate Blank(s: string) {
    forall i :: 0 <= i < |s| ==> IsSpace(s[i])
  }

  /** White space removed from both ends. */
  function Trim(s: string): string
    decreases |s|
  {
    if s == [] then []
    else if IsSpace(s[0]) then Trim(s[1..])
    else if IsSpace(s[|s| - 1]) then Trim(s[..|s| - 1])
    else s
  }

  /** A string is blank exactly if nothing is left of it. */
  lemma {:induction false} BlankExactlyIfTrimmedAway(s: string)
    ensures Blank(s) <==> Trim(s) == []
    decreases |s|
  {
    if s != [] {
      if IsSpace(s[0]) {
        BlankExactlyIfTrimmedAway(s[1..]);
        assert s == [s[0]] + s[1..];
      } else if IsSpace(s[|s| - 1]) {
        BlankExactlyIfTrimmedAway(s[..|s| - 1]);
        assert s[0] == s[..|s| - 1][0];
      }
    }
  }

  predicate ValidMedia(m: MediaRef) {
    !Blank(m.bucket) && !Blank(m.objectKey)
  }

  predicate ValidAnnouncement(a: Announcement) {
    !Blank(a.commandID) && ValidMedia(a.media)
  }

  function NormalizeTransition(t: Transition, fallback: Transition): Transition {
    var chosen := if t.kind.Unset? then fallback else t;
    match chosen.kind
    case Fade | Crossfade =>
      var duration := if chosen.durationMS <= 0 then 1500 else Min(chosen.durationMS, MAX_TRANSITION_MS);
      Transition(chosen.kind, duration, if chosen.curve.NoCurve? then EqualPower else chosen.curve)
    case Unset | Cut | Unknown =>
      Transition(Cut, 0, chosen.curve)
  }

  /** What every transition in an accepted queue looks like. */
  predicate NormalTransition(t: Transition) {
    match t.kind
    case Cut => t.durationMS == 0
    case Fade | Crossfade => 0 < t.durationMS <= MAX_TRANSITION_MS && !t.curve.NoCurve?
    case Unset | Unknown => false
  }

  /** Normalising always lands in the normal form and leaves normal transitions alone, whatever the fallback. */
  lemma NormalizeTransitionIsRetraction(t: Transition, fallback: Transition, other: Transition)
    ensures NormalTransition(NormalizeTransition(t, fallback))
    ensures NormalTransition(t) <==> NormalizeTransition(t, other) == t && !t.kind.Unset?
  {
  }

  /** What normalising comes to. A transition without a type stands for the fallback. A fade or crossfade keeps its kind
      and curve, and its duration up to 30 seconds; without a duration it takes 1.5 seconds, without a curve equal
      power. Everything else cuts. */
  lemma NormalizeTransitionLaw(t: Transition, fallback: Transition)
    ensures var n := NormalizeTransition(t, fallback);
            var wanted := if t.kind == Unset then fallback else t;
            && n == NormalizeTransition(wanted, wanted)
            && n.curve == (if (wanted.kind == Fade || wanted.kind == Crossfade) && wanted.curve == NoCurve
                           then EqualPower else wanted.curve)
            && if wanted.kind == Fade || wanted.kind == Crossfade then
                 && n.kind == wanted.kind
                 && (wanted.durationMS <= 0 ==> n.durationMS == 1500)
                 && (0 < wanted.durationMS <= 30000 ==> n.durationMS == wanted.durationMS)
                 && (wanted.durationMS > 30000 ==> n.durationMS == 30000)
               else n.kind == Cut && n.durationMS == 0
  {
  }

  function NormalizeTrack(t: Track, fallback: Transition): Option<Track> {
    if Blank(t.itemID) || !ValidMedia(t.media) then None
    else Some(t.(transitionIn := NormalizeTransition(t.transitionIn, fallback)))
  }

  /** A track is refused exactly if its ID, bucket or object key is nothing but white space; otherwise only its
      transition is normalised. */
  lemma NormalizeTrackLaw(t: Track, fallback: Transition)
    ensures var n := NormalizeTrack(t, fallback);
            && (n.None? <==> Blank(t.itemID) || Blank(t.media.bucket) || Blank(t.media.objectKey))
            && (n.Some? ==>
                  && n.value.itemID == t.itemID && n.value.media == t.media
                  && n.value.transitionIn == NormalizeTransition(t.transitionIn, fallback))
  {
  }

  /** Length of a transition in 48 kHz frames. */
  function TransitionFrames(t: Transition): int {
    t.durationMS * 48
  }
}
