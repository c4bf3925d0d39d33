/** The station and its render loop as the mutable objects they are (internal/station/station.go,
    internal/station/playback.go). Each method makes the updates the program makes, in its order and branches,
    and is proved to take exactly one step of the machine in StationModel, so every result about runs of that
    machine holds of these objects. */
module StationObject {
  import opened Common
  import opened Playlist
  import opened StationModel
  import opened StationShape
  import opened StationFrame
  import TrackOrder
  import AssetLedger
  import AnnouncementFlow
  import AnnouncementStory
  import TrackFrames

  /** The half of the station that API callers and the loop share, with its channels. */
  class Station {
    // guarded by the mutex
    var mode: Mode
    var current: Option<Item>
    var queue: seq<Item>
    var revision: nat
    var announcements: seq<Announcement>
    var currentAnn: Option<Announcement>
    var seenCommands: set<string>
    var transitionDefaults: Transition
    // channels and context
    var commands: seq<Command>
    var wakeup: bool
    var done: bool
    ghost var unsignalled: nat
    ghost var log: Log

    ghost function AbsShared(): Shared
      reads this
    {
      Shared(mode, current, queue, revision, announcements, currentAnn, seenCommands, transitionDefaults)
    }

    ghost function AbsSignals(): Signals
      reads this
    {
      Signals(commands, wakeup, unsignalled, done)
    }

    /** The state as an API caller sees it, next to whatever the loop and old preparers are doing. */
    ghost function Beside(loop: Loop, orphans: seq<Orphan>): State
      reads this
    {
      State(AbsShared(), AbsSignals(), loop, orphans, log)
    }

    constructor (defaults: Transition)
      ensures Beside(NoLoop, []) == Init(defaults)
    {
      mode, current, queue, revision := Idle, None, [], 0;
      announcements, currentAnn, seenCommands, transitionDefaults := [], None, {}, defaults;
      commands, wakeup, done, unsignalled, log := [], false, false, 0, NoLog;
    }

    // ---------------------------------------------------------------- API callers

    /** Normalises the tracks one by one, giving up at the first bad one. */
    method NormalizeTracks(tracks: seq<Track>, newRevision: nat) returns (items: Option<seq<Item>>)
      ensures items.Some? <==> AllNormalizable(tracks, transitionDefaults)
      ensures items.Some? ==> items.value == Stamp(NormalizeAll(tracks, transitionDefaults), newRevision)
    {
      var stamped: seq<Item> := [];
      for i := 0 to |tracks|
        invariant |stamped| == i
        invariant forall j :: 0 <= j < i ==>
                    var n := NormalizeTrack(tracks[j], transitionDefaults);
                    n.Some? && stamped[j] == Item(n.value, newRevision, j)
      {
        match NormalizeTrack(tracks[i], transitionDefaults)
        case None => return None;
        case Some(track) => stamped := stamped + [Item(track, newRevision, i)];
      }
      return Some(stamped);
    }

    method ReplaceQueue(newRevision: nat, tracks: seq<Track>) returns (error: Option<QueueError>)
      modifies this`queue, this`revision, this`unsignalled, this`log
      ensures error == QueueVerdict(old(AbsShared()), newRevision, tracks)
      ensures forall loop, orphans ::
                Beside(loop, orphans) == DoReplaceQueue(old(Beside(loop, orphans)), newRevision, tracks)
    {
      if |tracks| > MAX_QUEUE_TRACKS { return Some(TooLarge); }
      if newRevision <= revision { return Some(StaleRevision); }
      var items := NormalizeTracks(tracks, newRevision);
      if items.None? { return Some(InvalidTrack); }
      queue := items.value;
      revision := newRevision;
      unsignalled := unsignalled + 1;
      log := log.(lists := log.lists[newRevision := NormalizeAll(tracks, transitionDefaults)]);
      return None;
    }

    method AddAnnouncement(a: Announcement) returns (result: AddResult)
      modifies this`seenCommands, this`announcements, this`unsignalled, this`log
      ensures result == AddVerdict(old(AbsShared()), a)
      ensures forall loop, orphans :: Beside(loop, orphans) == DoAddAnnouncement(old(Beside(loop, orphans)), a)
    {
      if !ValidAnnouncement(a) { return Invalid; }
      if a.commandID in seenCommands { return Duplicate; }
      if |announcements| >= MAX_ANNOUNCEMENTS { return QueueFull; }
      seenCommands := seenCommands + {a.commandID};
      announcements := announcements + [a];
      unsignalled := unsignalled + 1;
      log := log.(accepted := log.accepted + [a]);
      return Queued;
    }

    method Send(command: Command) returns (accepted: bool)
      modifies this`commands
      ensures accepted <==> |old(commands)| < MAX_COMMANDS
      ensures forall loop, orphans :: Beside(loop, orphans) == DoSend(old(Beside(loop, orphans)), command)
    {
      if |commands| >= MAX_COMMANDS { return false; }
      commands := commands + [command];
      return true;
    }

    /** Fills the one-slot wakeup channel; a token already there is enough. */
    method Signal()
      requires unsignalled > 0
      modifies this`wakeup, this`unsignalled
      ensures forall loop, orphans :: Beside(loop, orphans) == DoSignal(old(Beside(loop, orphans)))
    {
      if !wakeup { wakeup := true; }
      unsignalled := unsignalled - 1;
    }

    method UpdateConfig(defaults: Transition)
      modifies this`transitionDefaults
      ensures AbsShared() == old(AbsShared()).(defaults := defaults)
    {
      transitionDefaults := defaults;
    }

    // ---------------------------------------------------------------- critical sections of the loop

    method CanPlayMusic() returns (can: bool)
      ensures can <==> !mode.Stopped?
    {
      can := mode != Stopped;
    }

    method TrackStarted(item: Item)
      modifies this`current, this`mode, this`log
      ensures current == Some(item) && mode == Playing
      ensures log == old(log).(trace := old(log).trace + [Started(item)])
    {
      current := Some(item);
      mode := Playing;
      log := log.(trace := log.trace + [Started(item)]);
    }

    method PopQueue() returns (item: Option<Item>)
      modifies this`queue, this`mode, this`log
      ensures old(mode).Stopped? || old(queue) == [] ==>
                item.None? && queue == old(queue) && log == old(log)
                && mode == (if !old(mode).Stopped? && current.None? then Idle else old(mode))
      ensures !old(mode).Stopped? && old(queue) != [] ==>
                item == Some(old(queue)[0]) && queue == old(queue)[1..] && mode == old(mode)
                && log == old(log).(popped := old(log).popped + [old(queue)[0]])
    {
      if mode == Stopped || |queue| == 0 {
        if mode != Stopped && current.None? { mode := Idle; }
        return None;
      }
      item := Some(queue[0]);
      queue := queue[1..];
      log := log.(popped := log.popped + [item.value]);
    }

    method PopAnnouncement() returns (a: Option<Announcement>)
      modifies this`announcements
      ensures old(announcements) == [] ==> a.None? && announcements == []
      ensures old(announcements) != [] ==>
                a == Some(old(announcements)[0]) && announcements == old(announcements)[1..]
    {
      if |announcements| == 0 { return None; }
      a := Some(announcements[0]);
      announcements := announcements[1..];
    }

    method SetCurrentNone()
      modifies this`current, this`mode
      ensures current.None? && mode == (if old(mode).Stopped? then Stopped else Idle)
    {
      current := None;
      if mode != Stopped { mode := Idle; }
    }

    ghost method Record(events: seq<TrackEvent>, ledger: seq<AssetEvent>, settled: seq<Settlement>)
      modifies this`log
      ensures log == old(log).(trace := old(log).trace + events, ledger := old(log).ledger + ledger,
                               settled := old(log).settled + settled)
    {
      log := log.(trace := log.trace + events, ledger := log.ledger + ledger, settled := log.settled + settled);
    }

    /** Events about announcements. */
    ghost method Tell(notices: seq<Notice>)
      modifies this`log
      ensures log == old(log).(notices := old(log).notices + notices)
    {
      log := log.(notices := log.notices + notices);
    }

    /** The length of a track whose preparation was received. */
    ghost method Measure(item: Item, frames: nat)
      modifies this`log
      ensures log == old(log).(lengths := old(log).lengths[item := frames])
    {
      log := log.(lengths := log.lengths[item := frames]);
    }
  }

  /** Names for decoded files: each request gets one never used before. */
  class TempFiles {
    var next: nat

    constructor ()
      ensures next == 0
    {
      next := 0;
    }

    method Create() returns (name: nat)
      modifies this
      ensures name == old(next) && next == name + 1
    {
      name := next;
      next := next + 1;
    }
  }

  /** The render goroutine: its locals, its two preparers, and the station it serves. `playing` is the local
      named current in the program. */
  class Renderer {
    const station: Station
    const files: TempFiles
    ghost var pc: Pc
    var playing: Option<Reel<Item>>
    var next: Option<Reel<Item>>
    var announcement: Option<Reel<Announcement>>
    var trackPreparing: bool
    var announcementPreparing: bool
    var trackJob: Job<Item>
    var announcementJob: Job<Announcement>
    var crossfadeTotal: nat
    var crossfadeConsumed: nat
    ghost var orphans: seq<Orphan>

    ghost function AbsLoop(): Loop
      reads this
    {
      Loop(pc, playing, next, announcement, trackPreparing, announcementPreparing, trackJob, announcementJob,
           crossfadeTotal, crossfadeConsumed)
    }

    ghost function Abs(): State
      reads this, station
    {
      station.Beside(AbsLoop(), orphans)
    }

    /** Names handed out so far are the assets the history knows. */
    ghost predicate Named()
      reads station, files
    {
      files.next == station.log.assets
    }

    constructor (station: Station, files: TempFiles)
      requires files.next == station.log.assets
      ensures this.station == station && this.files == files && AbsLoop() == NoLoop && orphans == [] && Named()
    {
      this.station, this.files := station, files;
      pc, playing, next, announcement := Off, None, None, None;
      trackPreparing, announcementPreparing, trackJob, announcementJob := false, false, NoJob, NoJob;
      crossfadeTotal, crossfadeConsumed, orphans := 0, 0, [];
    }

    /** A new connection starts the render function with fresh locals. */
    method Begin()
      modifies this
      ensures AbsLoop() == NoLoop.(pc := Promoting) && orphans == old(orphans)
    {
      pc, playing, next, announcement := Promoting, None, None, None;
      trackPreparing, announcementPreparing, trackJob, announcementJob := false, false, NoJob, NoJob;
      crossfadeTotal, crossfadeConsumed := 0, 0;
    }

    // ---------------------------------------------------------------- loop head

    /** Puts `reel` on air; the counters are already clear. */
    method Start(reel: Reel<Item>)
      modifies this`playing, station`current, station`mode, station`log
      ensures Abs() == StationModel.TrackStarted(
                         old(Abs()).(loop := old(AbsLoop()).(current := Some(reel))), reel.item)
    {
      playing := Some(reel);
      station.TrackStarted(reel.item);
    }

    method PromoteNext()
      modifies this`pc, this`playing, this`next, this`crossfadeTotal, this`crossfadeConsumed
      modifies station`current, station`mode, station`log
      ensures Abs() == DoPromoteNext(old(Abs()))
    {
      pc := StartingTrack;
      if playing.Some? || next.None? { return; }
      var can := station.CanPlayMusic();
      if !can { return; }
      var promoted := next.value;
      next := None;
      crossfadeTotal, crossfadeConsumed := 0, 0;
      Start(promoted);
    }

    method StartTrackPrepare()
      modifies this`pc, this`trackPreparing, this`trackJob, station`queue, station`mode, station`log
      ensures Abs() == DoStartTrackPrepare(old(Abs()))
    {
      pc := StartingAnnouncement;
      if trackPreparing || next.Some? { return; }
      if playing.None? {
        var can := station.CanPlayMusic();
        if !can { return; }
      }
      var item := station.PopQueue();
      if item.None? { return; }
      trackPreparing := true;
      trackJob := Decoding(item.value);
    }

    method StartAnnouncementPrepare()
      modifies this`pc, this`announcementPreparing, this`announcementJob, station`announcements
      ensures Abs() == DoStartAnnouncementPrepare(old(Abs()))
    {
      pc := Waiting;
      if announcementPreparing || announcement.Some? { return; }
      var a := station.PopAnnouncement();
      if a.None? { return; }
      announcementPreparing := true;
      announcementJob := Decoding(a.value);
    }

    // ---------------------------------------------------------------- select arms

    method HandleCommand()
      requires station.commands != []
      modifies this, station
      ensures Abs() == DoCommand(old(Abs()))
    {
      var command := station.commands[0];
      station.commands := station.commands[1..];
      pc := Promoting;
      match command
      case Play => HandlePlay();
      case Stop => HandleStop();
      case Skip => HandleSkip();
    }

    method HandlePlay()
      modifies station
      ensures Abs() == DoPlay(old(Abs()))
    {
      if station.mode == Stopped { station.mode := Idle; }
      station.Record([PlaybackResumed], [], []);
    }

    method HandleStop()
      modifies this`playing, this`crossfadeTotal, this`crossfadeConsumed
      modifies station`current, station`mode, station`log
      ensures Abs() == DoStop(old(Abs()))
    {
      station.Record([], ClosingOf(playing), []);
      playing := None;
      crossfadeTotal, crossfadeConsumed := 0, 0;
      station.current := None;
      station.mode := Stopped;
      station.Record([PlaybackStopped], [], []);
    }

    method HandleSkip()
      modifies this`playing, this`crossfadeTotal, this`crossfadeConsumed, station`current, station`log
      ensures Abs() == DoSkip(old(Abs()))
    {
      if playing.Some? {
        station.Record([Skipped(playing.value.item)], ClosingOf(playing), []);
        playing := None;
        crossfadeTotal, crossfadeConsumed := 0, 0;
        station.current := None;
      }
    }

    method HandleTrackReady()
      requires trackJob.Delivered?
      modifies this`pc, this`trackPreparing, this`trackJob, this`playing, this`next
      modifies station`current, station`mode, station`log
      ensures Abs() == DoTrackReady(old(Abs()))
    {
      var item, result := trackJob.item, trackJob.result;
      pc := Promoting;
      trackPreparing := false;
      trackJob := NoJob;
      if result.Failure? {
        station.Record([Failed(item)], [], []);
        return;
      }
      station.Measure(item, result.reel.remaining);
      var can := station.CanPlayMusic();
      if playing.None? && can {
        Start(result.reel);
      } else if next.None? {
        next := Some(result.reel);
      } else {
        station.Record([Surplus(item)], [Closed(result.reel.asset)], []);
      }
    }

    method HandleAnnouncementReady()
      requires announcementJob.Delivered?
      modifies this`pc, this`announcementPreparing, this`announcementJob, this`announcement
      modifies station`currentAnn, station`log
      ensures Abs() == DoAnnouncementReady(old(Abs()))
    {
      var item, result := announcementJob.item, announcementJob.result;
      pc := Promoting;
      announcementPreparing := false;
      announcementJob := NoJob;
      if result.Failure? {
        station.currentAnn := None;
        station.Record([], [], [Settlement(item, Broken)]);
        station.Tell([AnnouncementFailed(item), AnnouncementFailed(item)]);
        return;
      }
      if announcement.None? {
        announcement := Some(result.reel);
        station.currentAnn := Some(result.reel.item);
        station.Tell([AnnouncementStarted(result.reel.item)]);
      } else {
        station.Record([], [Closed(result.reel.asset)], [Settlement(item, SurplusEnding)]);
      }
    }

    method HandleWakeup()
      requires station.wakeup
      modifies this`pc, station`wakeup
      ensures Abs() == At(old(Abs()).(signals := old(station.AbsSignals()).(wakeup := false)), Promoting)
    {
      station.wakeup := false;
      pc := Promoting;
    }

    // ---------------------------------------------------------------- tick

    /** Whether the music is fading into the next track; on the first such block, how long that takes. */
    method BeginTransition() returns (fading: bool, started: seq<TrackEvent>)
      requires playing.Some?
      modifies this`crossfadeTotal
      ensures fading <==> InTransition(old(AbsLoop()))
      ensures !fading ==> crossfadeTotal == old(crossfadeTotal) && started == []
      ensures fading ==>
                && crossfadeTotal == (if old(crossfadeTotal) == 0
                     then Min(TransitionFrames(next.value.item.track.transitionIn), playing.value.remaining)
                     else old(crossfadeTotal))
                && started == (if old(crossfadeTotal) == 0
                     then [TransitionStarted(playing.value.item, next.value.item, crossfadeTotal)] else [])
    {
      started := [];
      fading := false;
      if next.Some? {
        var transition := next.value.item.track.transitionIn;
        var frames := TransitionFrames(transition);
        fading := !transition.kind.Cut? && frames > 0 && playing.value.remaining <= frames;
        if fading && crossfadeTotal == 0 {
          crossfadeTotal := Min(frames, playing.value.remaining);
          started := [TransitionStarted(playing.value.item, next.value.item, crossfadeTotal)];
        }
      }
    }

    /** The incoming side of a blended block. */
    method BlendIn(item: Item, count: nat, fails: bool) returns (block: Block, failed: bool)
      requires next.Some?
      modifies this`next, this`crossfadeConsumed, station`log
      ensures crossfadeConsumed == old(crossfadeConsumed) + BLOCK_FRAMES
      ensures var incoming := old(next).value;
              if incoming.item.track.transitionIn.kind.Crossfade? then
                var more := ReadFrames(incoming.remaining, BLOCK_FRAMES, fails);
                && station.log == old(station.log).(ledger := old(station.log).ledger + [Read(incoming.asset)])
                && (failed <==> more.ReadError?)
                && (failed ==> next == old(next))
                && (failed || next == Some(incoming.(remaining := more.remaining)))
                && (failed || block == Blend(item, incoming.item, count, more.count, old(crossfadeConsumed),
                                             crossfadeTotal))
              else
                && station.log == old(station.log) && next == old(next) && !failed
                && block == Blend(item, incoming.item, count, 0, old(crossfadeConsumed), crossfadeTotal)
    {
      var consumed := crossfadeConsumed;
      crossfadeConsumed := crossfadeConsumed + BLOCK_FRAMES;
      var incoming := next.value;
      block, failed := Silence, false;
      match incoming.item.track.transitionIn.kind
      case Crossfade =>
        station.Record([], [Read(incoming.asset)], []);
        var more := ReadFrames(incoming.remaining, BLOCK_FRAMES, fails);
        if more.ReadError? { failed := true; return; }
        next := Some(incoming.(remaining := more.remaining));
        block := Blend(item, incoming.item, count, more.count, consumed, crossfadeTotal);
      case _ =>
        block := Blend(item, incoming.item, count, 0, consumed, crossfadeTotal);
    }

    /** Renders one block of music. A failed read leaves what the loop holds in place; only counts may differ. */
    method RenderMusic(faults: Faults) returns (block: Block, finished: bool, started: seq<TrackEvent>, failed: bool)
      modifies this`playing, this`next, this`crossfadeTotal, this`crossfadeConsumed, station`log
      ensures var music := StationModel.RenderMusic(old(AbsLoop()), faults);
              && (failed <==> music.MusicFault?)
              && station.log == old(station.log).(ledger := old(station.log).ledger + music.touched)
      ensures var music := StationModel.RenderMusic(old(AbsLoop()), faults);
              !failed ==>
                && AbsLoop() == music.loop && block == music.block && finished == music.done && started == music.events
      ensures failed ==> next == old(next) && ClosingOf(playing) == old(ClosingOf(playing))
    {
      block, finished, started, failed := Silence, false, [], false;
      if playing.None? {
        assert station.log.ledger + [] == station.log.ledger;
        return;
      }
      ghost var ledger := station.log.ledger;
      var reel := playing.value;
      var fading;
      fading, started := BeginTransition();
      station.Record([], [Read(reel.asset)], []);
      var got := ReadFrames(reel.remaining, BLOCK_FRAMES, faults.current);
      if got.ReadError? { failed := true; return; }
      playing := Some(reel.(remaining := got.remaining));
      finished := got.done;
      if !fading {
        block := Solo(reel.item, got.count);
        return;
      }
      block, failed := BlendIn(reel.item, got.count, faults.next);
      if next.value.item.track.transitionIn.kind.Crossfade? {
        assert (ledger + [Read(reel.asset)]) + [Read(next.value.asset)]
            == ledger + [Read(reel.asset), Read(next.value.asset)];
      }
    }

    /** Reads the announcement's block; an announcement whose read fails counts as over. */
    method ReadBlock(fails: bool) returns (over: bool, failed: bool)
      modifies this`announcement, station`log
      ensures var o := ReadOverlay(old(announcement), fails);
              && announcement == o.announcement && over == o.done && failed == o.failed
              && station.log == old(station.log).(ledger := old(station.log).ledger + o.touched)
    {
      if announcement.None? {
        assert station.log.ledger + [] == station.log.ledger;
        return false, false;
      }
      var reel := announcement.value;
      station.Record([], [Read(reel.asset)], []);
      match ReadFrames(reel.remaining, BLOCK_FRAMES, fails)
      case ReadError => return true, true;
      case Frames(_, left, end) =>
        announcement := Some(reel.(remaining := left));
        return end, false;
    }

    method FinishTrack()
      requires playing.Some?
      modifies this`playing, this`next, this`crossfadeTotal, this`crossfadeConsumed
      modifies station`current, station`mode, station`log
      ensures Abs() == StationModel.FinishTrack(old(Abs()))
    {
      ghost var s := Abs();
      var finished := playing.value;
      station.Record([Finished(finished.item)], [Closed(finished.asset)], []);
      playing, next := next, None;
      crossfadeTotal, crossfadeConsumed := 0, 0;
      ghost var closed := s.(
        loop := s.loop.(current := s.loop.next, next := None, total := 0, consumed := 0),
        log := s.log.(trace := s.log.trace + [Finished(finished.item)],
                      ledger := s.log.ledger + [Closed(finished.asset)]));
      assert Abs() == closed;
      if playing.Some? {
        Start(playing.value);
      } else {
        station.SetCurrentNone();
      }
    }

    method FinishAnnouncement(ghost broken: bool)
      requires announcement.Some?
      modifies this`announcement, station`currentAnn, station`log
      ensures Abs() == StationModel.FinishAnnouncement(old(Abs()), broken)
    {
      var finished := announcement.value;
      station.Record([], [Closed(finished.asset)],
                     [Settlement(finished.item, if broken then Interrupted else Resolved)]);
      station.Tell([AnnouncementFinished(finished.item)]);
      announcement := None;
      station.currentAnn := None;
    }

    method AfterWrite(block: Block, finished: bool, over: bool, ghost broken: bool)
      modifies this, station
      ensures Abs() == StationModel.AfterWrite(old(Abs()), block, finished, over, broken)
    {
      ghost var s := Abs();
      pc := Promoting;
      station.Record([Music(block)], [], []);
      ghost var written := s.(loop := s.loop.(pc := Promoting), log := s.log.(trace := s.log.trace + [Music(block)]));
      assert Abs() == written;
      if finished && playing.Some? { FinishTrack(); }
      ghost var music := if finished && written.loop.current.Some? then StationModel.FinishTrack(written) else written;
      assert Abs() == music;
      if over && announcement.Some? { FinishAnnouncement(broken); }
    }

    /** The deferred closings, the end of the locals, and what the preparers are left with. */
    method Exit(ghost broken: bool)
      modifies this, station`log
      ensures Abs() == ExitRender(old(Abs()), broken)
    {
      ghost var s := Abs();
      ExitIs(s, broken);
      hide ExitRender, LoseTracks, LoseAnnouncements, ClosingOf, PendingTracks, OrphanOf;
      station.Record([RunEnded] + LoseTracks(PendingTracks(s.loop)),
                     ClosingOf(playing) + ClosingOf(next) + ClosingOf(announcement),
                     LoseAnnouncements(s.loop, broken));
      CountExit();
      orphans := orphans + OrphanOf(trackJob) + OrphanOf(announcementJob);
      pc, playing, next, announcement := Off, None, None, None;
      trackPreparing, announcementPreparing, trackJob, announcementJob := false, false, NoJob, NoJob;
      crossfadeTotal, crossfadeConsumed := 0, 0;
    }

    /** The end of a run with its events grouped as they are recorded. */
    static lemma ExitIs(s: State, broken: bool)
      ensures var closings := ClosingOf(s.loop.current) + ClosingOf(s.loop.next) + ClosingOf(s.loop.announcement);
              ExitRender(s, broken) == s.(
                loop := NoLoop,
                orphans := s.orphans + OrphanOf(s.loop.trackJob) + OrphanOf(s.loop.announcementJob),
                log := s.log.(settled := s.log.settled + LoseAnnouncements(s.loop, broken),
                              trace := s.log.trace + ([RunEnded] + LoseTracks(PendingTracks(s.loop))),
                              ledger := s.log.ledger + closings,
                              exits := s.log.exits + 1))
    {
      var a, b, c := ClosingOf(s.loop.current), ClosingOf(s.loop.next), ClosingOf(s.loop.announcement);
      Assoc(s.log.trace, [RunEnded], LoseTracks(PendingTracks(s.loop)));
      Assoc(s.log.ledger, a, b);
      Assoc(s.log.ledger, a + b, c);
      hide LoseTracks, LoseAnnouncements, ClosingOf, PendingTracks, OrphanOf;
    }

    ghost method CountExit()
      modifies station`log
      ensures station.log == old(station.log).(exits := old(station.log).exits + 1)
    {
      station.log := station.log.(exits := station.log.exits + 1);
    }

    /** The part of a tick after the music block is rendered. */
    method MixAndWrite(block: Block, finished: bool, started: seq<TrackEvent>, faults: Faults)
      modifies this, station
      ensures var s := old(Abs());
              var over := ReadOverlay(s.loop.announcement, faults.announcement);
              var mixed := s.(loop := s.loop.(announcement := over.announcement),
                              log := s.log.(trace := s.log.trace + started, ledger := s.log.ledger + over.touched,
                                            notices := s.log.notices + FailureNotice(over)));
              Abs() == if faults.write then ExitRender(mixed, over.failed)
                       else StationModel.AfterWrite(mixed, block, finished, over.done, over.failed)
    {
      ghost var s := Abs();
      ghost var overlay := ReadOverlay(s.loop.announcement, faults.announcement);
      station.Record(started, [], []);
      var over, broken := ReadBlock(faults.announcement);
      station.Tell(FailureNotice(overlay));
      assert Abs() == s.(loop := s.loop.(announcement := overlay.announcement),
                         log := s.log.(trace := s.log.trace + started, ledger := s.log.ledger + overlay.touched,
                                       notices := s.log.notices + FailureNotice(overlay)));
      if faults.write {
        Exit(broken);
      } else {
        AfterWrite(block, finished, over, broken);
      }
    }

    method Tick(faults: Faults)
      modifies this, station
      ensures Abs() == DoTick(old(Abs()), faults)
    {
      hide DoTick, StationModel.RenderMusic, StationModel.AfterWrite, ExitRender, ReadOverlay, FailureNotice;
      ghost var s := Abs();
      var block, finished, started, failed := RenderMusic(faults);
      if failed {
        FaultyTick(s, Abs(), faults);
        Exit(false);
        return;
      }
      RenderedTick(s, Abs(), faults);
      MixAndWrite(block, finished, started, faults);
    }

    static lemma FaultyTick(s: State, read: State, faults: Faults)
      requires StationModel.RenderMusic(s.loop, faults).MusicFault?
      requires read.loop.next == s.loop.next && ClosingOf(read.loop.current) == ClosingOf(s.loop.current)
      requires read.loop.announcement == s.loop.announcement && read.loop.trackJob == s.loop.trackJob
      requires read.loop.announcementJob == s.loop.announcementJob
      requires read == WithLedger(s, StationModel.RenderMusic(s.loop, faults).touched).(loop := read.loop)
      ensures DoTick(s, faults) == ExitRender(read, false)
    {
      hide StationModel.RenderMusic;
      ExitIgnoresReaders(read, WithLedger(s, StationModel.RenderMusic(s.loop, faults).touched));
    }

    static lemma RenderedTick(s: State, rendered: State, faults: Faults)
      requires StationModel.RenderMusic(s.loop, faults).Rendered?
      requires var music := StationModel.RenderMusic(s.loop, faults);
               rendered == WithLedger(s, music.touched).(loop := music.loop)
      ensures var music := StationModel.RenderMusic(s.loop, faults);
              var over := ReadOverlay(rendered.loop.announcement, faults.announcement);
              var mixed := rendered.(
                loop := rendered.loop.(announcement := over.announcement),
                log := rendered.log.(trace := rendered.log.trace + music.events,
                                     ledger := rendered.log.ledger + over.touched,
                                     notices := rendered.log.notices + FailureNotice(over)));
              DoTick(s, faults) ==
                if faults.write then ExitRender(mixed, over.failed)
                else StationModel.AfterWrite(mixed, music.block, music.done, over.done, over.failed)
    {
      RenderedLoop(s.loop, faults);
      var music := StationModel.RenderMusic(s.loop, faults);
      var over := ReadOverlay(s.loop.announcement, faults.announcement);
      Assoc(s.log.ledger, music.touched, over.touched);
      hide StationModel.RenderMusic, ReadOverlay, StationModel.AfterWrite, ExitRender, FailureNotice;
    }

    // ---------------------------------------------------------------- preparers

    /** Decoding, seen from its end: a finished file has a fresh name; a file that cannot be opened is removed. */
    method Decode<T>(job: Job<T>, outcome: StationModel.Decode) returns (held: Job<T>)
      requires job.Decoding? && Named()
      modifies station`log, files
      ensures held == DecodeJob(job, old(station.log).assets, outcome)
      ensures station.log == LogDecode(old(station.log), outcome) && Named()
    {
      ghost var log := station.log;
      if outcome.DecodeFails? {
        assert log.ledger + [] == log.ledger;
        return Holding(job.item, Failure);
      }
      var name := files.Create();
      station.log := LogDecode(station.log, outcome);
      if outcome.OpenFails? { return Holding(job.item, Failure); }
      return Holding(job.item, StationModel.Success(Reel(job.item, name, outcome.frames)));
    }

    method Prepare(a: Action)
      requires Named() && Enabled(Abs(), a)
      requires a.TrackDecoded? || a.TrackDelivered? || a.TrackAbandoned?
               || a.AnnouncementDecoded? || a.AnnouncementDelivered? || a.AnnouncementAbandoned?
      modifies this`trackJob, this`announcementJob, station`log, files
      ensures Named() && Abs() == Next(old(Abs()), a)
    {
      hide LogDecode;
      match a
      case TrackDecoded(outcome) => trackJob := Decode(trackJob, outcome);
      case TrackDelivered => trackJob := Delivered(trackJob.item, trackJob.result);
      case TrackAbandoned =>
        station.Record([], ClosingOfResult(trackJob.result), []);
        trackJob := Abandoned(trackJob.item);
      case AnnouncementDecoded(outcome) => announcementJob := Decode(announcementJob, outcome);
      case AnnouncementDelivered => announcementJob := Delivered(announcementJob.item, announcementJob.result);
      case AnnouncementAbandoned =>
        station.Record([], ClosingOfResult(announcementJob.result), []);
        announcementJob := Abandoned(announcementJob.item);
    }

    /** Preparers of finished runs: nobody listens to them any more, only their files matter. */
    ghost method PrepareOrphan(a: Action)
      requires Enabled(Abs(), a) && (a.OrphanDelivered? || a.OrphanAbandoned?)
      modifies this`orphans, station`log
      ensures Abs() == Next(old(Abs()), a)
    {
      if a.OrphanDelivered? {
        orphans := orphans[a.index := Parked(orphans[a.index].asset)];
      } else {
        station.Record([], ClosingOfOrphan(orphans[a.index]), []);
        orphans := orphans[a.index := Gone];
      }
    }

    method DecodeOrphan(a: Action)
      requires Named() && Enabled(Abs(), a) && a.OrphanDecoded?
      modifies this`orphans, station`log, files
      ensures Named() && Abs() == Next(old(Abs()), a)
    {
      ghost var log := station.log;
      assert log.ledger + [] == log.ledger;
      orphans := orphans[a.index := StationModel.Carrying(if a.outcome.Decoded? then Some(log.assets) else None)];
      if !a.outcome.DecodeFails? { var _ := files.Create(); }
      station.log := LogDecode(station.log, a.outcome);
    }

    // ---------------------------------------------------------------- any step, any run

    method Head(a: Action)
      requires Enabled(Abs(), a) && (a.PromoteNext? || a.StartTrackPrepare? || a.StartAnnouncementPrepare?)
      modifies this, station
      ensures Abs() == Next(old(Abs()), a)
    {
      match a
      case PromoteNext => PromoteNext();
      case StartTrackPrepare => StartTrackPrepare();
      case StartAnnouncementPrepare => StartAnnouncementPrepare();
    }

    method Select(a: Action)
      requires Enabled(Abs(), a)
      requires a.OnDone? || a.OnCommand? || a.OnTrackReady? || a.OnAnnouncementReady? || a.OnWakeup? || a.OnTick?
      modifies this, station
      ensures Abs() == Next(old(Abs()), a)
    {
      match a
      case OnDone => Exit(false);
      case OnCommand => HandleCommand();
      case OnTrackReady => HandleTrackReady();
      case OnAnnouncementReady => HandleAnnouncementReady();
      case OnWakeup => HandleWakeup();
      case OnTick(faults) => Tick(faults);
    }

    method Caller(a: Action)
      requires Enabled(Abs(), a)
      requires a.ReplaceQueue? || a.AddAnnouncement? || a.Send? || a.Signal? || a.UpdateConfig? || a.Cancel?
        || a.Connect?
      modifies this, station
      ensures Abs() == Next(old(Abs()), a)
    {
      match a
      case ReplaceQueue(revision, tracks) => var _ := station.ReplaceQueue(revision, tracks);
      case AddAnnouncement(ann) => var _ := station.AddAnnouncement(ann);
      case Send(command) => var _ := station.Send(command);
      case Signal => station.Signal();
      case UpdateConfig(defaults) => station.UpdateConfig(defaults);
      case Cancel => station.done := true;
      case Connect => Begin();
    }

    /** Any enabled step of the machine can be performed on these objects, with exactly its effect. */
    method Perform(a: Action)
      requires Named() && Enabled(Abs(), a)
      modifies this, station, files
      ensures Named() && Abs() == Next(old(Abs()), a)
    {
      hide Next, Enabled;
      StepKeepsAssetCount(Abs(), a);
      match a
      case PromoteNext | StartTrackPrepare | StartAnnouncementPrepare => Head(a);
      case OnDone | OnCommand | OnTrackReady | OnAnnouncementReady | OnWakeup | OnTick(_) => Select(a);
      case TrackDecoded(_) | TrackDelivered | TrackAbandoned => Prepare(a);
      case AnnouncementDecoded(_) | AnnouncementDelivered | AnnouncementAbandoned => Prepare(a);
      case OrphanDecoded(_, _) => DecodeOrphan(a);
      case OrphanDelivered(_) | OrphanAbandoned(_) => PrepareOrphan(a);
      case _ => Caller(a);
    }

    /** Whole runs: performing a legal run leaves the objects in the state the machine computes. */
    method Run(run: seq<Action>)
      requires Named() && Legal(Abs(), run)
      modifies this, station, files
      ensures Named() && Abs() == Exec(old(Abs()), run)
    {
      var i := 0;
      while i < |run|
        invariant 0 <= i <= |run| && Named()
        invariant Legal(Abs(), run[i..]) && Exec(Abs(), run[i..]) == Exec(old(Abs()), run)
      {
        assert run[i..][0] == run[i] && run[i..][1..] == run[i + 1..];
        Perform(run[i]);
        i := i + 1;
      }
    }

    /** Exiting looks only at what is held, not at how far the readers or counters are. */
    static lemma ExitIgnoresReaders(s: State, t: State)
      requires s == t.(loop := s.loop)
      requires s.loop.next == t.loop.next && s.loop.announcement == t.loop.announcement
      requires ClosingOf(s.loop.current) == ClosingOf(t.loop.current)
      requires s.loop.trackJob == t.loop.trackJob && s.loop.announcementJob == t.loop.announcementJob
      ensures ExitRender(s, false) == ExitRender(t, false)
    {
    }
  }

  /** The life of a station, from new objects through any legal run: the machine's results are those of the objects.
      Tracks and announcements are accounted for in order, every announcement is told about as its settlement calls
      for, every finished track was heard whole, and every file is open exactly while it has its one holder. */
  method Live(defaults: Transition, run: seq<Action>) returns (station: Station, renderer: Renderer)
    requires Legal(Init(defaults), run)
    ensures fresh(station) && fresh(renderer) && renderer.station == station
    ensures renderer.Abs() == Exec(Init(defaults), run)
    ensures TrackOrder.Items(TrackOrder.Verdicts(station.log.trace)) + PendingTracks(renderer.AbsLoop())
         == station.log.popped
    ensures AnnouncementFlow.Names(station.log.settled)
            + (PendingAnnouncements(renderer.AbsLoop()) + station.announcements) == station.log.accepted
    ensures station.log.notices
         == AnnouncementStory.Story(station.log.settled) + AnnouncementStory.Opening(renderer.announcement)
    ensures forall i :: Finished(i) in station.log.trace ==>
              i in station.log.lengths && TrackFrames.Heard(station.log.trace, i) == station.log.lengths[i]
    ensures forall a :: AssetLedger.Follow(AssetLedger.Unborn, station.log.ledger, a) == AssetLedger.Open
                        <==> AssetLedger.Holders(renderer.AbsLoop(), renderer.orphans, a) == 1
  {
    station := new Station(defaults);
    var files := new TempFiles();
    renderer := new Renderer(station, files);
    renderer.Run(run);
    TrackOrder.TrackConservation(defaults, run);
    AnnouncementFlow.AnnouncementConservation(defaults, run);
    AnnouncementStory.AnnouncementsAreReported(defaults, run);
    forall i | Finished(i) in station.log.trace
      ensures i in station.log.lengths && TrackFrames.Heard(station.log.trace, i) == station.log.lengths[i]
    {
      TrackFrames.FramesAreConserved(defaults, run, i);
    }
    forall a
      ensures AssetLedger.Follow(AssetLedger.Unborn, station.log.ledger, a) == AssetLedger.Open
              <==> AssetLedger.Holders(renderer.AbsLoop(), renderer.orphans, a) == 1
    {
      AssetLedger.AssetOwnership(defaults, run, a);
    }
  }
}
