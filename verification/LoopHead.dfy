/** The loop head, in plain terms: when it promotes, when it pops, and that a waiting loop has nothing left to pop. */
module LoopHead {
  import opened Common
  import opened Playlist
  import opened StationModel
  import opened StationShape
  import W = Wakeup

  /** The prepared next track starts exactly if nothing is on air and the station is not stopped. */
  lemma PromotionLaw(s: State)
    requires Enabled(s, PromoteNext)
    ensures var t := Next(s, PromoteNext);
            && t.signals == s.signals && t.orphans == s.orphans
            && if s.loop.current.None? && s.loop.next.Some? && s.shared.mode != Stopped then
                 var next := s.loop.next.value;
                 && t.loop == s.loop.(pc := StartingTrack, current := Some(next), next := None, total := 0,
                                      consumed := 0)
                 && t.shared == s.shared.(current := Some(next.item), mode := Playing)
                 && t.log == s.log.(trace := s.log.trace + [Started(next.item)])
               else
                 t.loop == s.loop.(pc := StartingTrack) && t.shared == s.shared && t.log == s.log
  {
  }

  /** A track is taken from the queue, its head, exactly if the station is not stopped, none is prepared or being
      prepared and one is queued, whether or not another is still on air; otherwise at most a mode without track
      becomes idle. */
  lemma TrackStageLaw(defaults: Transition, run: seq<Action>)
    requires Legal(Init(defaults), run) && Enabled(Exec(Init(defaults), run), StartTrackPrepare)
    ensures var s := Exec(Init(defaults), run);
            var t := Next(s, StartTrackPrepare);
            && t.signals == s.signals && t.orphans == s.orphans
            && if s.shared.mode != Stopped && s.loop.next.None? && s.loop.trackJob.NoJob? && s.shared.queue != [] then
                 var head := s.shared.queue[0];
                 && t.shared == s.shared.(queue := s.shared.queue[1..])
                 && t.loop == s.loop.(pc := StartingAnnouncement, trackPreparing := true, trackJob := Decoding(head))
                 && t.log == s.log.(popped := s.log.popped + [head])
               else
                 && t.loop == s.loop.(pc := StartingAnnouncement) && t.log == s.log
                 && t.shared == s.shared.(mode := t.shared.mode)
                 && (t.shared.mode != s.shared.mode ==>
                       && t.shared.mode == Idle && s.shared.mode == Playing
                       && s.shared.current.None? && s.shared.queue == [])
  {
    RunKeepsShape(Init(defaults), run);
  }

  /** The oldest announcement is taken exactly if one is queued and none is on air or being prepared, stopped or not. */
  lemma AnnouncementStageLaw(defaults: Transition, run: seq<Action>)
    requires Legal(Init(defaults), run) && Enabled(Exec(Init(defaults), run), StartAnnouncementPrepare)
    ensures var s := Exec(Init(defaults), run);
            var t := Next(s, StartAnnouncementPrepare);
            && t.signals == s.signals && t.orphans == s.orphans && t.log == s.log
            && if s.loop.announcement.None? && s.loop.announcementJob.NoJob? && s.shared.announcements != [] then
                 && t.shared == s.shared.(announcements := s.shared.announcements[1..])
                 && t.loop == s.loop.(pc := Waiting, announcementPreparing := true,
                                      announcementJob := Decoding(s.shared.announcements[0]))
               else
                 t.shared == s.shared && t.loop == s.loop.(pc := Waiting)
  {
    RunKeepsShape(Init(defaults), run);
  }

  /** Whenever the loop waits without a wakeup present or under way, a queued track has a prepared one, or one being
      prepared, before it, unless the station is stopped; and a queued announcement has one on air or being prepared
      before it, stopped or not. */
  lemma WaitingLoopHasWorkInHand(defaults: Transition, run: seq<Action>)
    requires Legal(Init(defaults), run)
    ensures var s := Exec(Init(defaults), run);
            s.loop.pc.Waiting? && !s.signals.wakeup && s.signals.unsignalled == 0 ==>
              && (s.shared.queue != [] && s.shared.mode != Stopped ==> s.loop.next.Some? || !s.loop.trackJob.NoJob?)
              && (s.shared.announcements != [] ==> s.loop.announcement.Some? || !s.loop.announcementJob.NoJob?)
  {
    RunKeepsShape(Init(defaults), run);
    W.NoLostWakeup(defaults, run);
  }
}
