/** What each kind of step leaves alone: the queues belong to the API and the loop head, and history only grows. */
module StationFrame {
  import opened Common
  import opened Playlist
  import opened StationModel

  /** Queues, accepted lists, commands and wakeups are as before; the loop may have changed the rest. */
  ghost predicate QueuesKept(s: State, t: State) {
    && t.signals == s.signals
    && t.shared == s.shared.(mode := t.shared.mode, current := t.shared.current, currentAnn := t.shared.currentAnn)
    && t.log.lists == s.log.lists && t.log.popped == s.log.popped && t.log.accepted == s.log.accepted
  }

  ghost predicate HistoryKept(s: State, t: State) {
    && s.log.popped <= t.log.popped && s.log.trace <= t.log.trace
    && s.log.accepted <= t.log.accepted && s.log.settled <= t.log.settled && s.log.ledger <= t.log.ledger
    && s.log.notices <= t.log.notices
    && s.shared.revision <= t.shared.revision && s.log.exits <= t.log.exits
  }

  lemma ExitFrame(s: State, broken: bool)
    ensures QueuesKept(s, ExitRender(s, broken)) && HistoryKept(s, ExitRender(s, broken))
  {
  }

  lemma AfterWriteFrame(s: State, block: Block, trackDone: bool, announcementDone: bool, broken: bool)
    ensures QueuesKept(s, AfterWrite(s, block, trackDone, announcementDone, broken))
    ensures HistoryKept(s, AfterWrite(s, block, trackDone, announcementDone, broken))
  {
  }

  lemma TickFrame(s: State, faults: Faults)
    ensures QueuesKept(s, DoTick(s, faults)) && HistoryKept(s, DoTick(s, faults))
  {
    var music := RenderMusic(s.loop, faults);
    if music.MusicFault? {
      ExitFrame(WithLedger(s, music.touched), false);
    } else {
      var over := ReadOverlay(s.loop.announcement, faults.announcement);
      var mixed := Mixed(s, music, over);
      if faults.write {
        ExitFrame(mixed, over.failed);
      } else {
        AfterWriteFrame(mixed, music.block, music.done, over.done, over.failed);
      }
    }
  }

  /** Select arms other than commands and wakeups, and the first stage of the loop head, keep the queues. */
  lemma ArmFrame(s: State, a: Action)
    requires Enabled(s, a)
    requires a.OnDone? || a.OnTrackReady? || a.OnAnnouncementReady? || a.PromoteNext? || a.Connect?
    ensures QueuesKept(s, Next(s, a)) && HistoryKept(s, Next(s, a))
  {
    hide QueuesKept, HistoryKept, DoTrackReady, DoAnnouncementReady, DoPromoteNext, ExitRender;
    match a
    case OnDone => ExitFrame(s, false);
    case OnTrackReady => TrackReadyFrame(s);
    case OnAnnouncementReady => AnnouncementReadyFrame(s);
    case PromoteNext => PromoteFrame(s);
    case Connect => ConnectFrame(s);
  }

  lemma TrackReadyFrame(s: State)
    requires s.loop.trackJob.Delivered?
    ensures QueuesKept(s, DoTrackReady(s)) && HistoryKept(s, DoTrackReady(s))
  {
  }

  lemma AnnouncementReadyFrame(s: State)
    requires s.loop.announcementJob.Delivered?
    ensures QueuesKept(s, DoAnnouncementReady(s)) && HistoryKept(s, DoAnnouncementReady(s))
  {
  }

  lemma PromoteFrame(s: State)
    ensures QueuesKept(s, DoPromoteNext(s)) && HistoryKept(s, DoPromoteNext(s))
  {
  }

  lemma ConnectFrame(s: State)
    requires Enabled(s, Connect)
    ensures QueuesKept(s, Next(s, Connect)) && HistoryKept(s, Next(s, Connect))
  {
  }

  predicate IsPreparer(a: Action) {
    a.TrackDecoded? || a.TrackDelivered? || a.TrackAbandoned? || a.AnnouncementDecoded? || a.AnnouncementDelivered?
    || a.AnnouncementAbandoned? || a.OrphanDecoded? || a.OrphanDelivered? || a.OrphanAbandoned?
  }

  /** Preparers touch their own job, the ledger and the count of assets. */
  lemma PreparerFrame(s: State, a: Action)
    requires Enabled(s, a) && IsPreparer(a)
    ensures var t := Next(s, a);
            && t.shared == s.shared && t.signals == s.signals
            && t.loop == s.loop.(trackJob := t.loop.trackJob, announcementJob := t.loop.announcementJob)
            && t.log == s.log.(ledger := t.log.ledger, assets := t.log.assets) && s.log.ledger <= t.log.ledger
  {
  }

  lemma CallerFrame(s: State, a: Action)
    requires Enabled(s, a)
    requires a.ReplaceQueue? || a.AddAnnouncement? || a.Send? || a.Signal? || a.UpdateConfig? || a.Cancel?
    ensures HistoryKept(s, Next(s, a)) && Next(s, a).loop == s.loop && Next(s, a).orphans == s.orphans
    ensures var after := Next(s, a).log;
            after == s.log.(lists := after.lists, accepted := after.accepted)
  {
  }

  lemma OtherFrame(s: State, a: Action)
    requires Enabled(s, a)
    requires a.StartTrackPrepare? || a.StartAnnouncementPrepare? || a.OnCommand? || a.OnWakeup?
    ensures HistoryKept(s, Next(s, a))
  {
  }

  lemma StepKeepsHistory(s: State, a: Action)
    requires Enabled(s, a)
    ensures HistoryKept(s, Next(s, a))
  {
    match a
    case OnTick(faults) => TickFrame(s, faults);
    case OnDone | OnTrackReady | OnAnnouncementReady | PromoteNext | Connect => ArmFrame(s, a);
    case TrackDecoded(_) | TrackDelivered | TrackAbandoned => PreparerFrame(s, a);
    case AnnouncementDecoded(_) | AnnouncementDelivered | AnnouncementAbandoned => PreparerFrame(s, a);
    case OrphanDecoded(_, _) | OrphanDelivered(_) | OrphanAbandoned(_) => PreparerFrame(s, a);
    case ReplaceQueue(_, _) | AddAnnouncement(_) | Send(_) | Signal | UpdateConfig(_) | Cancel => CallerFrame(s, a);
    case StartTrackPrepare | StartAnnouncementPrepare | OnCommand | OnWakeup => OtherFrame(s, a);
  }

  ghost predicate TrackQueueKept(s: State, t: State) {
    && t.shared.queue == s.shared.queue && t.shared.revision == s.shared.revision
    && t.log.lists == s.log.lists && t.log.popped == s.log.popped
  }

  ghost predicate AnnouncementQueueKept(s: State, t: State) {
    && t.shared.announcements == s.shared.announcements && t.shared.seen == s.shared.seen
    && t.log.accepted == s.log.accepted
  }

  lemma SmallStepFrame(s: State, a: Action)
    requires Enabled(s, a)
    requires a.Send? || a.Signal? || a.UpdateConfig? || a.Cancel? || a.OnCommand? || a.OnWakeup?
    ensures TrackQueueKept(s, Next(s, a)) && AnnouncementQueueKept(s, Next(s, a))
  {
  }

  /** Only the two API calls and the two pops touch the queues, each its own. */
  lemma StepKeepsQueues(s: State, a: Action)
    requires Enabled(s, a)
    ensures a.ReplaceQueue? || a.StartTrackPrepare? || TrackQueueKept(s, Next(s, a))
    ensures a.AddAnnouncement? || a.StartAnnouncementPrepare? || AnnouncementQueueKept(s, Next(s, a))
  {
    match a
    case ReplaceQueue(_, _) | StartTrackPrepare | AddAnnouncement(_) | StartAnnouncementPrepare =>
    case OnTick(faults) => TickFrame(s, faults);
    case OnDone | OnTrackReady | OnAnnouncementReady | PromoteNext | Connect => ArmFrame(s, a);
    case Send(_) | Signal | UpdateConfig(_) | Cancel | OnCommand | OnWakeup => SmallStepFrame(s, a);
    case _ => PreparerFrame(s, a);
  }

  // ---------------------------------------------------------------- the count of assets

  predicate Decodes(a: Action) {
    a.TrackDecoded? || a.AnnouncementDecoded? || a.OrphanDecoded?
  }

  /** Only decoding opens assets. */
  lemma StepKeepsAssetCount(s: State, a: Action)
    requires Enabled(s, a)
    ensures s.log.assets <= Next(s, a).log.assets
    ensures Decodes(a) || Next(s, a).log.assets == s.log.assets
  {
    hide DoTick, DoCommand, DoTrackReady, DoAnnouncementReady, DoPromoteNext, DoStartTrackPrepare,
         DoStartAnnouncementPrepare, DoReplaceQueue, DoAddAnnouncement, ExitRender;
    match a
    case OnTick(faults) => TickKeepsAssetCount(s, faults);
    case OnDone => ExitKeepsAssetCount(s, false);
    case OnCommand => CommandKeepsAssetCount(s);
    case OnTrackReady => TrackReadyKeepsAssetCount(s);
    case OnAnnouncementReady => AnnouncementReadyKeepsAssetCount(s);
    case PromoteNext | StartTrackPrepare | StartAnnouncementPrepare => HeadKeepsAssetCount(s, a);
    case ReplaceQueue(_, _) | AddAnnouncement(_) | Send(_) | Signal | UpdateConfig(_) | Cancel => CallerFrame(s, a);
    case _ =>
  }

  lemma TickKeepsAssetCount(s: State, faults: Faults)
    ensures DoTick(s, faults).log.assets == s.log.assets
  {
    hide RenderMusic, ReadOverlay;
  }

  lemma ExitKeepsAssetCount(s: State, broken: bool)
    ensures ExitRender(s, broken).log.assets == s.log.assets
  {
  }

  lemma CommandKeepsAssetCount(s: State)
    requires |s.signals.commands| > 0
    ensures DoCommand(s).log.assets == s.log.assets
  {
  }

  lemma TrackReadyKeepsAssetCount(s: State)
    requires s.loop.trackJob.Delivered?
    ensures DoTrackReady(s).log.assets == s.log.assets
  {
  }

  lemma AnnouncementReadyKeepsAssetCount(s: State)
    requires s.loop.announcementJob.Delivered?
    ensures DoAnnouncementReady(s).log.assets == s.log.assets
  {
  }

  lemma HeadKeepsAssetCount(s: State, a: Action)
    requires Enabled(s, a) && (a.PromoteNext? || a.StartTrackPrepare? || a.StartAnnouncementPrepare?)
    ensures Next(s, a).log.assets == s.log.assets
  {
  }
}
