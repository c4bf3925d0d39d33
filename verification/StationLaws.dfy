/** What single steps of the station come to, said in plain terms, and what follows over runs: commands, the published
    track and mode, announcements shown, and the settings in force. */
module StationLaws {
  import opened Common
  import opened Playlist
  import opened StationModel
  import opened StationShape
  import opened StationFrame
  import opened PlaybackTrace

  // ---------------------------------------------------------------- commands

  /** The loop obeys the command that has waited longest. Stop silences and stops; skip takes the current track off and
      changes neither mode nor queue, nor anything if no track is on air; play only lifts a stop. */
  lemma CommandIsObeyed(s: State)
    requires Enabled(s, OnCommand)
    ensures var t := Next(s, OnCommand);
            var c := s.signals.commands[0];
            && t.signals == s.signals.(commands := s.signals.commands[1..])
            && t.shared == s.shared.(mode := t.shared.mode, current := t.shared.current)
            && t.loop == s.loop.(pc := Promoting, current := t.loop.current, total := t.loop.total,
                                 consumed := t.loop.consumed)
            && (c.Stop? ==>
                  && t.shared.mode == Stopped && t.loop.current.None? && t.shared.current.None?
                  && t.loop.total == 0 && t.loop.consumed == 0
                  && t.log.trace == s.log.trace + [PlaybackStopped])
            && (c.Skip? && s.loop.current.Some? ==>
                  && t.shared.mode == s.shared.mode && t.loop.current.None? && t.shared.current.None?
                  && t.loop.total == 0 && t.loop.consumed == 0
                  && t.log.trace == s.log.trace + [Skipped(s.loop.current.value.item)])
            && (c.Skip? && s.loop.current.None? ==>
                  t.shared == s.shared && t.loop == s.loop.(pc := Promoting) && t.log == s.log)
            && (c.Play? ==>
                  && t.shared.mode == (if s.shared.mode == Stopped then Idle else s.shared.mode)
                  && t.loop == s.loop.(pc := Promoting) && t.shared.current == s.shared.current
                  && t.log == s.log.(trace := s.log.trace + [PlaybackResumed]))
  {
  }

  /** Commands that found one of the 32 places when they were sent, in order. */
  function Sent(s: State, run: seq<Action>): seq<Command>
    requires Legal(s, run)
    decreases |run|
  {
    if run == [] then []
    else (if run[0].Send? && |s.signals.commands| < 32 then [run[0].command] else []) + Sent(Next(s, run[0]), run[1..])
  }

  /** Commands the loop obeyed, in order. */
  function Obeyed(s: State, run: seq<Action>): seq<Command>
    requires Legal(s, run)
    decreases |run|
  {
    if run == [] then []
    else (if run[0].OnCommand? then [s.signals.commands[0]] else []) + Obeyed(Next(s, run[0]), run[1..])
  }

  lemma StepMovesCommands(s: State, a: Action)
    requires Enabled(s, a)
    ensures Next(s, a).signals.commands ==
              if a.Send? && |s.signals.commands| < 32 then s.signals.commands + [a.command]
              else if a.OnCommand? then s.signals.commands[1..]
              else s.signals.commands
  {
    hide DoTick, DoCommand, DoTrackReady, DoAnnouncementReady, DoPromoteNext, DoStartTrackPrepare,
         DoStartAnnouncementPrepare, DoReplaceQueue, DoAddAnnouncement, ExitRender;
    match a
    case OnTick(faults) => TickFrame(s, faults);
    case OnCommand => CommandIsObeyed(s);
    case OnDone | OnTrackReady | OnAnnouncementReady | PromoteNext | Connect => ArmFrame(s, a);
    case StartTrackPrepare | StartAnnouncementPrepare | ReplaceQueue(_, _) | AddAnnouncement(_) =>
      OthersKeepCommands(s, a);
    case _ =>
  }

  lemma OthersKeepCommands(s: State, a: Action)
    requires Enabled(s, a)
    requires a.StartTrackPrepare? || a.StartAnnouncementPrepare? || a.ReplaceQueue? || a.AddAnnouncement?
    ensures Next(s, a).signals.commands == s.signals.commands
  {
  }

  /** Commands are obeyed in the order they were sent, none twice and none lost. */
  lemma {:induction false} CommandsAreObeyedInOrder(s: State, run: seq<Action>)
    requires Legal(s, run)
    ensures Obeyed(s, run) + Exec(s, run).signals.commands == s.signals.commands + Sent(s, run)
    decreases |run|
  {
    if run == [] {
      assert s.signals.commands + [] == s.signals.commands;
    } else {
      var t := Next(s, run[0]);
      StepMovesCommands(s, run[0]);
      CommandsAreObeyedInOrder(t, run[1..]);
      var obeyed := if run[0].OnCommand? then [s.signals.commands[0]] else [];
      var sent := if run[0].Send? && |s.signals.commands| < 32 then [run[0].command] else [];
      assert obeyed + t.signals.commands == s.signals.commands + sent;
      hide Next, Enabled;
      Assoc(obeyed, Obeyed(t, run[1..]), Exec(t, run[1..]).signals.commands);
      Assoc(obeyed, t.signals.commands, Sent(t, run[1..]));
      Assoc(s.signals.commands, sent, Sent(t, run[1..]));
    }
  }

  // ---------------------------------------------------------------- the published track

  /** The track the events so far announce as current. The end of a run announces nothing. */
  function Announced(trace: seq<TrackEvent>): Option<Item> {
    if trace == [] then None
    else
      match trace[|trace| - 1]
      case Started(i) => Some(i)
      case Finished(_) => None
      case Skipped(_) => None
      case PlaybackStopped => None
      case _ => Announced(trace[..|trace| - 1])
  }

  predicate Silent(e: TrackEvent) {
    !e.Started? && !e.Finished? && !e.Skipped? && !e.PlaybackStopped?
  }

  lemma AnnouncedSnoc(trace: seq<TrackEvent>, e: TrackEvent)
    ensures Announced(trace + [e]) == match e
              case Started(i) => Some(i)
              case Finished(_) => None
              case Skipped(_) => None
              case PlaybackStopped => None
              case _ => Announced(trace)
  {
    assert (trace + [e])[..|trace|] == trace;
  }

  lemma {:induction false} AnnouncedQuiet(trace: seq<TrackEvent>, added: seq<TrackEvent>)
    requires forall k :: 0 <= k < |added| ==> Silent(added[k])
    ensures Announced(trace + added) == Announced(trace)
  {
    if added == [] {
      assert trace + added == trace;
    } else {
      var front, e := added[..|added| - 1], added[|added| - 1];
      AnnouncedQuiet(trace, front);
      AnnouncedSnoc(trace + front, e);
      assert trace + added == (trace + front) + [e];
    }
  }

  ghost predicate Published(s: State) {
    s.shared.current == Announced(s.log.trace)
  }

  lemma ExitPublishes(s: State, broken: bool)
    requires Published(s)
    ensures Published(ExitRender(s, broken))
  {
    AnnouncedSnoc(s.log.trace, RunEnded);
    AnnouncedQuiet(s.log.trace + [RunEnded], LoseTracks(PendingTracks(s.loop)));
  }

  lemma FinishPublishes(s: State)
    requires Published(s) && s.loop.current.Some?
    ensures Published(FinishTrack(s))
  {
    var ended := s.log.trace + [Finished(s.loop.current.value.item)];
    AnnouncedSnoc(s.log.trace, Finished(s.loop.current.value.item));
    if s.loop.next.Some? { AnnouncedSnoc(ended, Started(s.loop.next.value.item)); }
    hide Announced;
  }

  lemma AfterWritePublishes(s: State, block: Block, trackDone: bool, announcementDone: bool, broken: bool)
    requires Published(s)
    ensures Published(AfterWrite(s, block, trackDone, announcementDone, broken))
  {
    AnnouncedSnoc(s.log.trace, Music(block));
    hide Announced, FinishTrack;
    var written := s.(loop := s.loop.(pc := Promoting), log := s.log.(trace := s.log.trace + [Music(block)]));
    if written.loop.current.Some? { FinishPublishes(written); }
  }

  lemma TickPublishes(s: State, faults: Faults)
    requires Published(s)
    ensures Published(DoTick(s, faults))
  {
    var music := RenderMusic(s.loop, faults);
    hide Published;
    if music.MusicFault? {
      LedgerPublishes(s, music.touched);
      ExitPublishes(WithLedger(s, music.touched), false);
    } else {
      var over := ReadOverlay(s.loop.announcement, faults.announcement);
      MixedPublishes(s, faults, over);
      hide RenderMusic, ReadOverlay, Mixed, AfterWrite, ExitRender;
      if faults.write {
        ExitPublishes(Mixed(s, music, over), over.failed);
      } else {
        AfterWritePublishes(Mixed(s, music, over), music.block, music.done, over.done, over.failed);
      }
    }
  }

  lemma LedgerPublishes(s: State, touched: seq<AssetEvent>)
    requires Published(s)
    ensures Published(WithLedger(s, touched))
  {
  }

  lemma MixedPublishes(s: State, faults: Faults, over: Overlay)
    requires Published(s) && RenderMusic(s.loop, faults).Rendered?
    ensures Published(Mixed(s, RenderMusic(s.loop, faults), over))
  {
    AnnouncedQuiet(s.log.trace, RenderMusic(s.loop, faults).events);
  }

  lemma CommandPublishes(s: State)
    requires Published(s) && |s.signals.commands| > 0
    ensures Published(DoCommand(s))
  {
    AnnouncedSnoc(s.log.trace, PlaybackResumed);
    AnnouncedSnoc(s.log.trace, PlaybackStopped);
    if s.loop.current.Some? { AnnouncedSnoc(s.log.trace, Skipped(s.loop.current.value.item)); }
    hide Announced;
  }

  lemma TrackReadyPublishes(s: State)
    requires Published(s) && Shape(s) && s.loop.trackJob.Delivered?
    ensures Published(DoTrackReady(s))
  {
    AnnouncedSnoc(s.log.trace, Failed(s.loop.trackJob.item));
    AnnouncedSnoc(s.log.trace, Started(s.loop.trackJob.item));
    hide Announced;
  }

  lemma PromotePublishes(s: State)
    requires Published(s)
    ensures Published(DoPromoteNext(s))
  {
    if s.loop.next.Some? { AnnouncedSnoc(s.log.trace, Started(s.loop.next.value.item)); }
    hide Announced;
  }

  lemma StepPublishes(s: State, a: Action)
    requires Published(s) && Shape(s) && Enabled(s, a)
    ensures Published(Next(s, a))
  {
    hide Announced, Published, Shape, DoTick, DoCommand, DoTrackReady, DoAnnouncementReady, DoPromoteNext,
         DoStartTrackPrepare, DoStartAnnouncementPrepare, DoReplaceQueue, DoAddAnnouncement, ExitRender;
    match a
    case OnTick(faults) => TickPublishes(s, faults);
    case OnDone => ExitPublishes(s, false);
    case OnCommand => CommandPublishes(s);
    case OnTrackReady => TrackReadyPublishes(s);
    case PromoteNext => PromotePublishes(s);
    case StartTrackPrepare | StartAnnouncementPrepare | OnAnnouncementReady | OnWakeup | Connect =>
      HeadPublishes(s, a);
    case ReplaceQueue(_, _) | AddAnnouncement(_) | Send(_) | Signal | UpdateConfig(_) | Cancel =>
      CallerPublishes(s, a);
    case _ => PreparerPublishes(s, a);
  }

  lemma HeadPublishes(s: State, a: Action)
    requires Published(s) && Enabled(s, a)
    requires a.StartTrackPrepare? || a.StartAnnouncementPrepare? || a.OnAnnouncementReady? || a.OnWakeup? || a.Connect?
    ensures Published(Next(s, a))
  {
    hide Announced;
  }

  lemma CallerPublishes(s: State, a: Action)
    requires Published(s) && Enabled(s, a)
    requires a.ReplaceQueue? || a.AddAnnouncement? || a.Send? || a.Signal? || a.UpdateConfig? || a.Cancel?
    ensures Published(Next(s, a))
  {
    hide Announced;
  }

  lemma PreparerPublishes(s: State, a: Action)
    requires Published(s) && Enabled(s, a) && IsPreparer(a)
    ensures Published(Next(s, a))
  {
    PreparerFrame(s, a);
    hide Announced, Next;
  }

  lemma {:induction false} RunPublishes(s: State, run: seq<Action>)
    requires Published(s) && Shape(s) && Legal(s, run)
    ensures Published(Exec(s, run))
    decreases |run|
  {
    if run != [] {
      hide Published, Shape, Next, Enabled;
      StepPublishes(s, run[0]);
      StepKeepsShape(s, run[0]);
      RunPublishes(Next(s, run[0]), run[1..]);
    }
  }

  /** Over whole lives the station publishes as current exactly the track its events announce: the last one started,
      unless it finished, was skipped or playback was stopped since. The end of a run does not take it back. */
  lemma PublishedTrackFollowsEvents(defaults: Transition, run: seq<Action>)
    requires Legal(Init(defaults), run)
    ensures var s := Exec(Init(defaults), run); s.shared.current == Announced(s.log.trace)
  {
    RunPublishes(Init(defaults), run);
  }
}
