/** The station as a machine of atomic steps (internal/station/station.go, internal/station/playback.go).

    One render loop, any number of API callers and up to two preparers of the live run (plus preparers left
    over from finished runs) interleave. A step is one critical section, one channel operation, or a stretch
    of loop-local work that no other thread can observe. Mode and current track are written by the loop alone.

    `Log` is history: no step reads it, except to give a new asset the next unused name. `lengths` holds the length
    of each track whose preparation the loop received. */
module StationModel {
  import opened Common
  import opened Playlist

  const BLOCK_FRAMES: nat := 960
  const MAX_ANNOUNCEMENTS: nat := 32
  const MAX_COMMANDS: nat := 32

  datatype Mode = Idle | Playing | Stopped

  datatype Command = Play | Stop | Skip

  /** A queued track together with where it was accepted: revision of the list and position in it.
      The stamp only names the occurrence; no step branches on it. */
  datatype Item = Item(track: Track, revision: nat, position: nat)

  /** A prepared track or announcement: decoded asset plus the frames its reader has left. */
  datatype Reel<T> = Reel(item: T, asset: nat, remaining: nat)

  datatype Prepared<T> = Failure | Success(reel: Reel<T>)

  /** One background preparer, from its start until its result is received. */
  datatype Job<T> =
    | NoJob
    | Decoding(item: T)
    | Holding(item: T, result: Prepared<T>)    // result computed, not yet sent
    | Delivered(item: T, result: Prepared<T>)  // result in the one-slot ready channel
    | Abandoned(item: T)                       // gave up because the station context ended

  /** What a preparer of a finished run still owns. `Parked` results sit in a channel nobody reads. */
  datatype Orphan = Working | Carrying(asset: Option<nat>) | Parked(asset: Option<nat>) | Gone

  /** Outcome of resolving, decoding and opening a media file. Decoding rejects empty output. */
  datatype Decode = DecodeFails | OpenFails | Decoded(frames: nat)

  /** Where the render goroutine is: between runs, at one of the three stages of the loop head, or in select. */
  datatype Pc = Off | Promoting | StartingTrack | StartingAnnouncement | Waiting

  /** Which of the fallible operations of one tick fail. */
  datatype Faults = Faults(current: bool, next: bool, announcement: bool, write: bool)

  /** The mutex-protected half of the station. */
  datatype Shared = Shared(
    mode: Mode,
    current: Option<Item>,
    queue: seq<Item>,
    revision: nat,
    announcements: seq<Announcement>,
    currentAnn: Option<Announcement>,
    seen: set<string>,
    defaults: Transition)

  /** Channels and the station context. `unsignalled` counts callers between their unlock and their signal. */
  datatype Signals = Signals(commands: seq<Command>, wakeup: bool, unsignalled: nat, done: bool)

  /** Locals of the render loop and its preparers. */
  datatype Loop = Loop(
    pc: Pc,
    current: Option<Reel<Item>>,
    next: Option<Reel<Item>>,
    announcement: Option<Reel<Announcement>>,
    trackPreparing: bool,
    announcementPreparing: bool,
    trackJob: Job<Item>,
    announcementJob: Job<Announcement>,
    total: nat,
    consumed: nat)

  datatype AssetEvent = Opened(asset: nat) | Read(asset: nat) | Closed(asset: nat)

  /** Music written to the encoder in one tick. */
  datatype Block =
    | Silence
    | Solo(item: Item, frames: nat)
    | Blend(item: Item, incoming: Item, frames: nat, incomingFrames: nat, consumed: nat, total: nat)

  datatype TrackEvent =
    | Started(item: Item)
    | Finished(item: Item)
    | Skipped(item: Item)
    | Failed(item: Item)
    | Lost(item: Item)      // popped, neither started nor failed when its run ended
    | Surplus(item: Item)   // prepared with no place to put it
    | TransitionStarted(item: Item, incoming: Item, total: nat)
    | PlaybackStopped
    | PlaybackResumed
    | Music(block: Block)
    | RunEnded

  /** Events about an announcement as the loop sends them; "announcement.queued" is sent by the API caller. */
  datatype Notice =
    | AnnouncementStarted(announcement: Announcement)
    | AnnouncementFailed(announcement: Announcement)
    | AnnouncementFinished(announcement: Announcement)

  /** What became of a popped announcement: it played out, a read of it failed, its preparation failed, or its run
      ended while it was being prepared, on air, or on air in the very tick its read failed. */
  datatype Ending = Resolved | Interrupted | Broken | LostUnheard | LostOnAir | LostInterrupted | SurplusEnding
  datatype Settlement = Settlement(announcement: Announcement, ending: Ending)

  datatype Log = Log(
    lists: map<nat, seq<Track>>,
    popped: seq<Item>,
    trace: seq<TrackEvent>,
    accepted: seq<Announcement>,
    settled: seq<Settlement>,
    notices: seq<Notice>,
    lengths: map<Item, nat>,
    ledger: seq<AssetEvent>,
    assets: nat,
    exits: nat)

  datatype State = State(shared: Shared, signals: Signals, loop: Loop, orphans: seq<Orphan>, log: Log)

  datatype Action =
    // API callers and the owner of the station context
    | ReplaceQueue(revision: nat, tracks: seq<Track>)
    | AddAnnouncement(announcement: Announcement)
    | Send(command: Command)
    | Signal
    | UpdateConfig(defaults: Transition)
    | Cancel
    // connection management
    | Connect
    // loop head
    | PromoteNext
    | StartTrackPrepare
    | StartAnnouncementPrepare
    // select arms
    | OnDone
    | OnCommand
    | OnTrackReady
    | OnAnnouncementReady
    | OnWakeup
    | OnTick(faults: Faults)
    // preparers of the live run
    | TrackDecoded(outcome: Decode)
    | TrackDelivered
    | TrackAbandoned
    | AnnouncementDecoded(outcome: Decode)
    | AnnouncementDelivered
    | AnnouncementAbandoned
    // preparers of finished runs
    | OrphanDecoded(index: nat, outcome: Decode)
    | OrphanDelivered(index: nat)
    | OrphanAbandoned(index: nat)

  const NoLog := Log(map[], [], [], [], [], [], map[], [], 0, 0)
  const NoLoop := Loop(Off, None, None, None, false, false, NoJob, NoJob, 0, 0)

  function Init(defaults: Transition): State {
    State(Shared(Idle, None, [], 0, [], None, {}, defaults), Signals([], false, 0, false), NoLoop, [], NoLog)
  }

  // ---------------------------------------------------------------- API callers

  datatype QueueError = TooLarge | StaleRevision | InvalidTrack

  predicate AllNormalizable(tracks: seq<Track>, fallback: Transition) {
    forall i :: 0 <= i < |tracks| ==> NormalizeTrack(tracks[i], fallback).Some?
  }

  function NormalizeAll(tracks: seq<Track>, fallback: Transition): (r: seq<Track>)
    requires AllNormalizable(tracks, fallback)
  {
    seq(|tracks|, i requires 0 <= i < |tracks| => NormalizeTrack(tracks[i], fallback).value)
  }

  function Stamp(tracks: seq<Track>, revision: nat): seq<Item> {
    seq(|tracks|, i requires 0 <= i < |tracks| => Item(tracks[i], revision, i))
  }

  function QueueVerdict(sh: Shared, revision: nat, tracks: seq<Track>): Option<QueueError> {
    if |tracks| > MAX_QUEUE_TRACKS then Some(TooLarge)
    else if revision <= sh.revision then Some(StaleRevision)
    else if !AllNormalizable(tracks, sh.defaults) then Some(InvalidTrack)
    else None
  }

  function DoReplaceQueue(s: State, revision: nat, tracks: seq<Track>): State {
    if QueueVerdict(s.shared, revision, tracks).Some? then s
    else
      var normalized := NormalizeAll(tracks, s.shared.defaults);
      s.(shared := s.shared.(queue := Stamp(normalized, revision), revision := revision),
         signals := s.signals.(unsignalled := s.signals.unsignalled + 1),
         log := s.log.(lists := s.log.lists[revision := normalized]))
  }

  datatype AddResult = Queued | Duplicate | QueueFull | Invalid

  function AddVerdict(sh: Shared, a: Announcement): AddResult {
    if !ValidAnnouncement(a) then Invalid
    else if a.commandID in sh.seen then Duplicate
    else if |sh.announcements| >= MAX_ANNOUNCEMENTS then QueueFull
    else Queued
  }

  function DoAddAnnouncement(s: State, a: Announcement): State {
    if !AddVerdict(s.shared, a).Queued? then s
    else
      s.(shared := s.shared.(seen := s.shared.seen + {a.commandID}, announcements := s.shared.announcements + [a]),
         signals := s.signals.(unsignalled := s.signals.unsignalled + 1),
         log := s.log.(accepted := s.log.accepted + [a]))
  }

  function DoSend(s: State, c: Command): State {
    if |s.signals.commands| >= MAX_COMMANDS then s
    else s.(signals := s.signals.(commands := s.signals.commands + [c]))
  }

  function DoSignal(s: State): State
    requires s.signals.unsignalled > 0
  {
    s.(signals := s.signals.(wakeup := true, unsignalled := s.signals.unsignalled - 1))
  }

  // ---------------------------------------------------------------- shared pieces of the loop

  function CanPlayMusic(s: State): bool {
    !s.shared.mode.Stopped?
  }

  function TrackStarted(s: State, item: Item): State {
    s.(shared := s.shared.(current := Some(item), mode := Playing),
       log := s.log.(trace := s.log.trace + [Started(item)]))
  }

  function ClosingOf<T>(reel: Option<Reel<T>>): seq<AssetEvent> {
    if reel.Some? then [Closed(reel.value.asset)] else []
  }

  function WithLedger(s: State, events: seq<AssetEvent>): State {
    s.(log := s.log.(ledger := s.log.ledger + events))
  }

  function JobItems<T>(job: Job<T>): seq<T> {
    if job.NoJob? then [] else [job.item]
  }

  function ReelItems<T>(reel: Option<Reel<T>>): seq<T> {
    if reel.Some? then [reel.value.item] else []
  }

  /** Tracks popped by the live run and neither started nor failed yet. */
  function PendingTracks(loop: Loop): seq<Item> {
    ReelItems(loop.next) + JobItems(loop.trackJob)
  }

  /** Announcements popped by the live run and not settled yet. */
  function PendingAnnouncements(loop: Loop): seq<Announcement> {
    ReelItems(loop.announcement) + JobItems(loop.announcementJob)
  }

  function AssetOf<T>(result: Prepared<T>): Option<nat> {
    if result.Success? then Some(result.reel.asset) else None
  }

  function OrphanOf<T>(job: Job<T>): seq<Orphan> {
    match job
    case NoJob => []
    case Decoding(_) => [Working]
    case Holding(_, result) => [Carrying(AssetOf(result))]
    case Delivered(_, result) => [Parked(AssetOf(result))]
    case Abandoned(_) => [Gone]
  }

  function LoseTracks(items: seq<Item>): seq<TrackEvent> {
    seq(|items|, i requires 0 <= i < |items| => Lost(items[i]))
  }

  /** The pending announcements of a run that ends; `broken` if a read of the one on air has just failed. */
  function LoseAnnouncements(loop: Loop, broken: bool): seq<Settlement> {
    (if loop.announcement.None? then []
     else [Settlement(loop.announcement.value.item, if broken then LostInterrupted else LostOnAir)])
    + (if loop.announcementJob.NoJob? then [] else [Settlement(loop.announcementJob.item, LostUnheard)])
  }

  /** The deferred closings of `render` and the end of its locals. The shared half is left as it is. */
  function ExitRender(s: State, broken: bool): State {
    var loop := s.loop;
    s.(loop := NoLoop,
       orphans := s.orphans + OrphanOf(loop.trackJob) + OrphanOf(loop.announcementJob),
       log := s.log.(
         settled := s.log.settled + LoseAnnouncements(loop, broken),
         trace := s.log.trace + [RunEnded] + LoseTracks(PendingTracks(loop)),
         ledger := s.log.ledger + ClosingOf(loop.current) + ClosingOf(loop.next) + ClosingOf(loop.announcement),
         exits := s.log.exits + 1))
  }

  function At(s: State, pc: Pc): State {
    s.(loop := s.loop.(pc := pc))
  }

  // ---------------------------------------------------------------- loop head

  function DoPromoteNext(s: State): State {
    if s.loop.current.None? && s.loop.next.Some? && CanPlayMusic(s) then
      var promoted := s.loop.next.value;
      TrackStarted(
        s.(loop := s.loop.(pc := StartingTrack, current := Some(promoted), next := None, total := 0, consumed := 0)),
        promoted.item)
    else
      At(s, StartingTrack)
  }

  predicate TrackPoppable(s: State) {
    && !s.loop.trackPreparing && s.loop.next.None?
    && (s.loop.current.Some? || CanPlayMusic(s))
    && !s.shared.mode.Stopped? && |s.shared.queue| > 0
  }

  predicate AnnouncementPoppable(s: State) {
    !s.loop.announcementPreparing && s.loop.announcement.None? && |s.shared.announcements| > 0
  }

  function DoStartTrackPrepare(s: State): State {
    if s.loop.trackPreparing || s.loop.next.Some? then At(s, StartingAnnouncement)
    else if s.loop.current.None? && !CanPlayMusic(s) then At(s, StartingAnnouncement)
    else if s.shared.mode.Stopped? || |s.shared.queue| == 0 then
      var mode := if !s.shared.mode.Stopped? && s.shared.current.None? then Idle else s.shared.mode;
      At(s.(shared := s.shared.(mode := mode)), StartingAnnouncement)
    else
      var item := s.shared.queue[0];
      s.(shared := s.shared.(queue := s.shared.queue[1..]),
         loop := s.loop.(pc := StartingAnnouncement, trackPreparing := true, trackJob := Decoding(item)),
         log := s.log.(popped := s.log.popped + [item]))
  }

  function DoStartAnnouncementPrepare(s: State): State {
    if AnnouncementPoppable(s) then
      var a := s.shared.announcements[0];
      s.(shared := s.shared.(announcements := s.shared.announcements[1..]),
         loop := s.loop.(pc := Waiting, announcementPreparing := true, announcementJob := Decoding(a)))
    else
      At(s, Waiting)
  }

  // ---------------------------------------------------------------- select arms

  function DoPlay(s: State): State {
    s.(shared := s.shared.(mode := if s.shared.mode.Stopped? then Idle else s.shared.mode),
       log := s.log.(trace := s.log.trace + [PlaybackResumed]))
  }

  function DoStop(s: State): State {
    s.(shared := s.shared.(mode := Stopped, current := None),
       loop := s.loop.(current := None, total := 0, consumed := 0),
       log := s.log.(trace := s.log.trace + [PlaybackStopped], ledger := s.log.ledger + ClosingOf(s.loop.current)))
  }

  function DoSkip(s: State): State {
    if s.loop.current.None? then s
    else
      s.(shared := s.shared.(current := None),
         loop := s.loop.(current := None, total := 0, consumed := 0),
         log := s.log.(trace := s.log.trace + [Skipped(s.loop.current.value.item)],
                       ledger := s.log.ledger + ClosingOf(s.loop.current)))
  }

  function DoCommand(s: State): State
    requires |s.signals.commands| > 0
  {
    var received := s.(signals := s.signals.(commands := s.signals.commands[1..]),
                       loop := s.loop.(pc := Promoting));
    match s.signals.commands[0]
    case Play => DoPlay(received)
    case Stop => DoStop(received)
    case Skip => DoSkip(received)
  }

  function DoTrackReady(s: State): State
    requires s.loop.trackJob.Delivered?
  {
    var item := s.loop.trackJob.item;
    var received := s.(loop := s.loop.(pc := Promoting, trackPreparing := false, trackJob := NoJob));
    match s.loop.trackJob.result
    case Failure =>
      received.(log := s.log.(trace := s.log.trace + [Failed(item)]))
    case Success(reel) =>
      var measured := received.(log := s.log.(lengths := s.log.lengths[item := reel.remaining]));
      if s.loop.current.None? && CanPlayMusic(s) then
        TrackStarted(measured.(loop := measured.loop.(current := Some(reel))), reel.item)
      else if s.loop.next.None? then
        measured.(loop := measured.loop.(next := Some(reel)))
      else
        measured.(log := measured.log.(ledger := s.log.ledger + [Closed(reel.asset)],
                                       trace := s.log.trace + [Surplus(item)]))
  }

  function DoAnnouncementReady(s: State): State
    requires s.loop.announcementJob.Delivered?
  {
    var a := s.loop.announcementJob.item;
    var received := s.(loop := s.loop.(pc := Promoting, announcementPreparing := false, announcementJob := NoJob));
    match s.loop.announcementJob.result
    case Failure =>
      received.(shared := s.shared.(currentAnn := None),
                log := s.log.(settled := s.log.settled + [Settlement(a, Broken)],
                              notices := s.log.notices + [AnnouncementFailed(a), AnnouncementFailed(a)]))
    case Success(reel) =>
      if s.loop.announcement.None? then
        received.(shared := s.shared.(currentAnn := Some(reel.item)),
                  loop := received.loop.(announcement := Some(reel)),
                  log := s.log.(notices := s.log.notices + [AnnouncementStarted(reel.item)]))
      else
        received.(log := s.log.(ledger := s.log.ledger + [Closed(reel.asset)],
                                settled := s.log.settled + [Settlement(a, SurplusEnding)]))
  }

  // ---------------------------------------------------------------- tick

  datatype Frames = ReadError | Frames(count: nat, remaining: nat, done: bool)

  /** `PCMReader.ReadFrames`: at most what is left, nothing from an exhausted file, `done` with the last frame. */
  function ReadFrames(remaining: nat, want: int, fails: bool): Frames {
    if want <= 0 then Frames(0, remaining, remaining == 0)
    else
      var count := Min(want, remaining);
      if count == 0 then Frames(0, 0, true)
      else if fails then ReadError
      else Frames(count, remaining - count, remaining - count == 0)
  }

  predicate InTransition(loop: Loop) {
    && loop.current.Some? && loop.next.Some?
    && var t := loop.next.value.item.track.transitionIn;
       !t.kind.Cut? && TransitionFrames(t) > 0 && loop.current.value.remaining <= TransitionFrames(t)
  }

  datatype Rendered =
    | MusicFault(touched: seq<AssetEvent>)
    | Rendered(loop: Loop, block: Block, done: bool, events: seq<TrackEvent>, touched: seq<AssetEvent>)

  function RenderMusic(loop: Loop, faults: Faults): Rendered {
    if loop.current.None? then Rendered(loop, Silence, false, [], [])
    else
      var current := loop.current.value;
      var got := ReadFrames(current.remaining, BLOCK_FRAMES, faults.current);
      var touched := [Read(current.asset)];
      if got.ReadError? then MusicFault(touched)
      else
        var played := loop.(current := Some(current.(remaining := got.remaining)));
        if !InTransition(loop) then Rendered(played, Solo(current.item, got.count), got.done, [], touched)
        else RenderBlend(loop, played, got, faults)
  }

  function RenderBlend(loop: Loop, played: Loop, got: Frames, faults: Faults): Rendered
    requires InTransition(loop) && got.Frames?
  {
    var current, next := loop.current.value, loop.next.value;
    var t := next.item.track.transitionIn;
    var total := if loop.total == 0 then Min(TransitionFrames(t), current.remaining) else loop.total;
    var events := if loop.total == 0 then [TransitionStarted(current.item, next.item, total)] else [];
    var counted := played.(total := total, consumed := loop.consumed + BLOCK_FRAMES);
    match t.kind
    case Crossfade =>
      var more := ReadFrames(next.remaining, BLOCK_FRAMES, faults.next);
      var touched := [Read(current.asset), Read(next.asset)];
      if more.ReadError? then MusicFault(touched)
      else
        Rendered(counted.(next := Some(next.(remaining := more.remaining))),
                 Blend(current.item, next.item, got.count, more.count, loop.consumed, total), got.done, events, touched)
    case _ =>
      Rendered(counted, Blend(current.item, next.item, got.count, 0, loop.consumed, total), got.done, events,
               [Read(current.asset)])
  }

  /** Reading the announcement block: the frames left, whether it is over, and the reads made.
      A read error ends the announcement instead of the run. */
  datatype Overlay = Overlay(
    announcement: Option<Reel<Announcement>>,
    done: bool,
    failed: bool,
    touched: seq<AssetEvent>)

  function ReadOverlay(announcement: Option<Reel<Announcement>>, fails: bool): Overlay {
    if announcement.None? then Overlay(None, false, false, [])
    else
      var reel := announcement.value;
      match ReadFrames(reel.remaining, BLOCK_FRAMES, fails)
      case ReadError => Overlay(announcement, true, true, [Read(reel.asset)])
      case Frames(_, left, done) => Overlay(Some(reel.(remaining := left)), done, false, [Read(reel.asset)])
  }

  function FinishTrack(s: State): State
    requires s.loop.current.Some?
  {
    var finished := s.loop.current.value;
    var closed := s.(
      loop := s.loop.(current := s.loop.next, next := None, total := 0, consumed := 0),
      log := s.log.(trace := s.log.trace + [Finished(finished.item)],
                    ledger := s.log.ledger + [Closed(finished.asset)]));
    if s.loop.next.Some? then TrackStarted(closed, s.loop.next.value.item)
    else
      closed.(shared := s.shared.(current := None, mode := if s.shared.mode.Stopped? then Stopped else Idle))
  }

  function FinishAnnouncement(s: State, broken: bool): State
    requires s.loop.announcement.Some?
  {
    var finished := s.loop.announcement.value;
    s.(shared := s.shared.(currentAnn := None),
       loop := s.loop.(announcement := None),
       log := s.log.(settled := s.log.settled + [Settlement(finished.item, if broken then Interrupted else Resolved)],
                     notices := s.log.notices + [AnnouncementFinished(finished.item)],
                     ledger := s.log.ledger + [Closed(finished.asset)]))
  }

  /** The tick after both reads succeeded and the block reached the encoder. */
  function AfterWrite(s: State, block: Block, trackDone: bool, announcementDone: bool, broken: bool): State {
    var written := s.(loop := s.loop.(pc := Promoting), log := s.log.(trace := s.log.trace + [Music(block)]));
    var music := if trackDone && written.loop.current.Some? then FinishTrack(written) else written;
    if announcementDone && music.loop.announcement.Some? then FinishAnnouncement(music, broken) else music
  }

  /** State once both reads of a tick succeeded: readers and counters moved, nothing written yet. */
  function Mixed(s: State, music: Rendered, over: Overlay): State
    requires music.Rendered?
  {
    s.(loop := music.loop.(announcement := over.announcement),
       log := s.log.(trace := s.log.trace + music.events,
                     notices := s.log.notices + FailureNotice(over),
                     ledger := s.log.ledger + (music.touched + over.touched)))
  }

  function FailureNotice(over: Overlay): seq<Notice> {
    if over.failed && over.announcement.Some? then [AnnouncementFailed(over.announcement.value.item)] else []
  }

  function DoTick(s: State, faults: Faults): State {
    var music := RenderMusic(s.loop, faults);
    if music.MusicFault? then ExitRender(WithLedger(s, music.touched), false)
    else
      var over := ReadOverlay(s.loop.announcement, faults.announcement);
      var mixed := Mixed(s, music, over);
      if faults.write then ExitRender(mixed, over.failed)
      else AfterWrite(mixed, music.block, music.done, over.done, over.failed)
  }

  // ---------------------------------------------------------------- preparers

  /** Assets allocated by one decode, and the events it leaves in the ledger. */
  function DecodeEvents(asset: nat, outcome: Decode): seq<AssetEvent> {
    match outcome
    case DecodeFails => []
    case OpenFails => [Opened(asset), Closed(asset)]
    case Decoded(_) => [Opened(asset)]
  }

  function LogDecode(log: Log, outcome: Decode): Log {
    log.(ledger := log.ledger + DecodeEvents(log.assets, outcome),
         assets := if outcome.DecodeFails? then log.assets else log.assets + 1)
  }

  function DecodeJob<T>(job: Job<T>, asset: nat, outcome: Decode): Job<T>
    requires job.Decoding?
  {
    Holding(job.item, if outcome.Decoded? then Success(Reel(job.item, asset, outcome.frames)) else Failure)
  }

  function DeliverJob<T>(job: Job<T>): Job<T>
    requires job.Holding?
  {
    Delivered(job.item, job.result)
  }

  function ClosingOfResult<T>(result: Prepared<T>): seq<AssetEvent> {
    if result.Success? then [Closed(result.reel.asset)] else []
  }

  function ClosingOfOrphan(orphan: Orphan): seq<AssetEvent> {
    if orphan.Carrying? && orphan.asset.Some? then [Closed(orphan.asset.value)] else []
  }

  // ---------------------------------------------------------------- all steps

  predicate GoodDecode(outcome: Decode) {
    outcome.Decoded? ==> outcome.frames > 0
  }

  /** When a step can be taken. API calls always can: their rejections are outcomes that change nothing. */
  predicate Enabled(s: State, a: Action) {
    match a
    case ReplaceQueue(_, _) => true
    case AddAnnouncement(_) => true
    case Send(_) => true
    case Signal => s.signals.unsignalled > 0
    case UpdateConfig(_) => true
    case Cancel => true
    case Connect => s.loop.pc.Off? && !s.signals.done
    case PromoteNext => s.loop.pc.Promoting?
    case StartTrackPrepare => s.loop.pc.StartingTrack?
    case StartAnnouncementPrepare => s.loop.pc.StartingAnnouncement?
    case OnDone => s.loop.pc.Waiting? && s.signals.done
    case OnCommand => s.loop.pc.Waiting? && |s.signals.commands| > 0
    case OnTrackReady => s.loop.pc.Waiting? && s.loop.trackJob.Delivered?
    case OnAnnouncementReady => s.loop.pc.Waiting? && s.loop.announcementJob.Delivered?
    case OnWakeup => s.loop.pc.Waiting? && s.signals.wakeup
    case OnTick(_) => s.loop.pc.Waiting?
    case TrackDecoded(outcome) => s.loop.trackJob.Decoding? && GoodDecode(outcome)
    case TrackDelivered => s.loop.trackJob.Holding?
    case TrackAbandoned => s.loop.trackJob.Holding? && s.signals.done
    case AnnouncementDecoded(outcome) => s.loop.announcementJob.Decoding? && GoodDecode(outcome)
    case AnnouncementDelivered => s.loop.announcementJob.Holding?
    case AnnouncementAbandoned => s.loop.announcementJob.Holding? && s.signals.done
    case OrphanDecoded(i, outcome) => i < |s.orphans| && s.orphans[i].Working? && GoodDecode(outcome)
    case OrphanDelivered(i) => i < |s.orphans| && s.orphans[i].Carrying?
    case OrphanAbandoned(i) => i < |s.orphans| && s.orphans[i].Carrying? && s.signals.done
  }

  function Next(s: State, a: Action): State
    requires Enabled(s, a)
  {
    match a
    case ReplaceQueue(revision, tracks) => DoReplaceQueue(s, revision, tracks)
    case AddAnnouncement(announcement) => DoAddAnnouncement(s, announcement)
    case Send(command) => DoSend(s, command)
    case Signal => DoSignal(s)
    case UpdateConfig(defaults) => s.(shared := s.shared.(defaults := defaults))
    case Cancel => s.(signals := s.signals.(done := true))
    case Connect => s.(loop := NoLoop.(pc := Promoting))
    case PromoteNext => DoPromoteNext(s)
    case StartTrackPrepare => DoStartTrackPrepare(s)
    case StartAnnouncementPrepare => DoStartAnnouncementPrepare(s)
    case OnDone => ExitRender(s, false)
    case OnCommand => DoCommand(s)
    case OnTrackReady => DoTrackReady(s)
    case OnAnnouncementReady => DoAnnouncementReady(s)
    case OnWakeup => At(s.(signals := s.signals.(wakeup := false)), Promoting)
    case OnTick(faults) => DoTick(s, faults)
    case TrackDecoded(outcome) =>
      s.(loop := s.loop.(trackJob := DecodeJob(s.loop.trackJob, s.log.assets, outcome)),
         log := LogDecode(s.log, outcome))
    case TrackDelivered => s.(loop := s.loop.(trackJob := DeliverJob(s.loop.trackJob)))
    case TrackAbandoned =>
      WithLedger(s.(loop := s.loop.(trackJob := Abandoned(s.loop.trackJob.item))),
                 ClosingOfResult(s.loop.trackJob.result))
    case AnnouncementDecoded(outcome) =>
      s.(loop := s.loop.(announcementJob := DecodeJob(s.loop.announcementJob, s.log.assets, outcome)),
         log := LogDecode(s.log, outcome))
    case AnnouncementDelivered => s.(loop := s.loop.(announcementJob := DeliverJob(s.loop.announcementJob)))
    case AnnouncementAbandoned =>
      WithLedger(s.(loop := s.loop.(announcementJob := Abandoned(s.loop.announcementJob.item))),
                 ClosingOfResult(s.loop.announcementJob.result))
    case OrphanDecoded(i, outcome) =>
      s.(orphans := s.orphans[i := Carrying(if outcome.Decoded? then Some(s.log.assets) else None)],
         log := LogDecode(s.log, outcome))
    case OrphanDelivered(i) => s.(orphans := s.orphans[i := Parked(s.orphans[i].asset)])
    case OrphanAbandoned(i) => WithLedger(s.(orphans := s.orphans[i := Gone]), ClosingOfOrphan(s.orphans[i]))
  }

  // ---------------------------------------------------------------- runs

  /** `run` can be taken from `s`, step after step. */
  predicate Legal(s: State, run: seq<Action>)
    decreases |run|
  {
    run == [] || (Enabled(s, run[0]) && Legal(Next(s, run[0]), run[1..]))
  }

  function Exec(s: State, run: seq<Action>): State
    requires Legal(s, run)
    decreases |run|
  {
    if run == [] then s else Exec(Next(s, run[0]), run[1..])
  }
}
