/** Ownership of decoded assets: opened once, read only while open, closed at most once, and bounded in number.
    Every argument follows one asset `a`; the main results then hold for all of them. */
module AssetLedger {
  import opened Common
  import opened Playlist
  import opened StationModel
  import opened StationShape
  import opened StationFrame

  // ---------------------------------------------------------------- what a ledger says about one asset

  /** `Misused` means a second opening, a read outside the open period, or a second closing. */
  datatype Status = Unborn | Open | Shut | Misused

  function Advance(st: Status, e: AssetEvent, a: nat): Status {
    if e.asset != a then st
    else
      match e
      case Opened(_) => if st.Unborn? then Open else Misused
      case Read(_) => if st.Open? then Open else Misused
      case Closed(_) => if st.Open? then Shut else Misused
  }

  function Follow(st: Status, ledger: seq<AssetEvent>, a: nat): Status
    decreases |ledger|
  {
    if ledger == [] then st else Follow(Advance(st, ledger[0], a), ledger[1..], a)
  }

  lemma {:induction false} FollowConcat(st: Status, l: seq<AssetEvent>, r: seq<AssetEvent>, a: nat)
    ensures Follow(st, l + r, a) == Follow(Follow(st, l, a), r, a)
    decreases |l|
  {
    if l == [] {
      assert l + r == r;
    } else {
      FollowConcat(Advance(st, l[0], a), l[1..], r, a);
      assert (l + r)[0] == l[0] && (l + r)[1..] == l[1..] + r;
    }
  }

  lemma {:induction false} ShutIsFinal(st: Status, ledger: seq<AssetEvent>, j: nat, a: nat)
    requires (st.Shut? || st.Misused?) && j < |ledger| && ledger[j].asset == a
    ensures Follow(st, ledger, a) == Misused
    decreases |ledger|
  {
    var st' := Advance(st, ledger[0], a);
    if ledger[0].asset == a || j == 0 {
      MisuseLasts(st', ledger[1..], a);
    } else {
      ShutIsFinal(st', ledger[1..], j - 1, a);
    }
  }

  lemma {:induction false} MisuseLasts(st: Status, ledger: seq<AssetEvent>, a: nat)
    requires st.Misused?
    ensures Follow(st, ledger, a) == Misused
    decreases |ledger|
  {
    if ledger != [] { MisuseLasts(Advance(st, ledger[0], a), ledger[1..], a); }
  }

  /** An asset that is not misused sees no event after its closing. */
  lemma ClosedOnce(ledger: seq<AssetEvent>, i: nat, j: nat, a: nat)
    requires Follow(Unborn, ledger, a) != Misused && i < j < |ledger| && ledger[i] == Closed(a)
    ensures ledger[j].asset != a
  {
    var head, tail := ledger[..i + 1], ledger[i + 1..];
    assert ledger == head + tail;
    FollowConcat(Unborn, head, tail, a);
    assert head == ledger[..i] + [Closed(a)];
    FollowConcat(Unborn, ledger[..i], [Closed(a)], a);
    assert [Closed(a)][1..] == [];
    if ledger[j].asset == a { ShutIsFinal(Follow(Unborn, head, a), tail, j - i - 1, a); }
  }

  // ---------------------------------------------------------------- who holds it

  function Held<T>(reel: Option<Reel<T>>, a: nat): nat {
    if reel.Some? && reel.value.asset == a then 1 else 0
  }

  function Named(asset: Option<nat>, a: nat): nat {
    if asset == Some(a) then 1 else 0
  }

  function HeldByJob<T>(job: Job<T>, a: nat): nat {
    if job.Holding? || job.Delivered? then Named(AssetOf(job.result), a) else 0
  }

  function HeldByOrphan(orphan: Orphan, a: nat): nat {
    if orphan.Carrying? || orphan.Parked? then Named(orphan.asset, a) else 0
  }

  function HeldByOrphans(orphans: seq<Orphan>, a: nat): nat {
    if orphans == [] then 0 else HeldByOrphan(orphans[0], a) + HeldByOrphans(orphans[1..], a)
  }

  function Holders(loop: Loop, orphans: seq<Orphan>, a: nat): nat {
    Held(loop.current, a) + Held(loop.next, a) + Held(loop.announcement, a)
    + HeldByJob(loop.trackJob, a) + HeldByJob(loop.announcementJob, a) + HeldByOrphans(orphans, a)
  }

  lemma {:induction false} OrphansConcat(l: seq<Orphan>, r: seq<Orphan>, a: nat)
    ensures HeldByOrphans(l + r, a) == HeldByOrphans(l, a) + HeldByOrphans(r, a)
  {
    if l == [] {
      assert l + r == r;
    } else {
      OrphansConcat(l[1..], r, a);
      assert (l + r)[0] == l[0] && (l + r)[1..] == l[1..] + r;
    }
  }

  lemma {:induction false} OrphanChanges(orphans: seq<Orphan>, i: nat, o: Orphan, a: nat)
    requires i < |orphans|
    ensures HeldByOrphans(orphans[i := o], a)
         == HeldByOrphans(orphans, a) - HeldByOrphan(orphans[i], a) + HeldByOrphan(o, a)
  {
    if i == 0 {
      assert orphans[i := o][1..] == orphans[1..];
    } else {
      OrphanChanges(orphans[1..], i - 1, o, a);
      assert orphans[i := o][1..] == orphans[1..][i - 1 := o];
    }
  }

  // ---------------------------------------------------------------- bookkeeping

  /** The ledger knows the asset as open exactly if it has a holder, which is then the only one. */
  ghost predicate Booked(ledger: seq<AssetEvent>, holders: int, assets: nat, a: nat) {
    && (holders == 0 || holders == 1)
    && Follow(Unborn, ledger, a) == (if holders == 1 then Open else if a < assets then Shut else Unborn)
    && (holders == 1 ==> a < assets)
  }

  ghost predicate AssetKept(s: State, a: nat) {
    Booked(s.log.ledger, Holders(s.loop, s.orphans, a), s.log.assets, a) && |s.orphans| <= 2 * s.log.exits
  }

  lemma BookOne(ledger: seq<AssetEvent>, holders: int, assets: nat, e: AssetEvent, a: nat)
    requires Booked(ledger, holders, assets, a)
    requires if e.Opened? then e.asset == assets else e.asset == a ==> holders == 1
    ensures Booked(ledger + [e],
                   if e.asset != a || e.Read? then holders else if e.Opened? then 1 else 0,
                   if e.Opened? then assets + 1 else assets, a)
  {
    FollowConcat(Unborn, ledger, [e], a);
    assert Follow(Follow(Unborn, ledger, a), [e], a) == Advance(Follow(Unborn, ledger, a), e, a);
  }

  lemma BookClosing<T>(ledger: seq<AssetEvent>, holders: int, assets: nat, reel: Option<Reel<T>>, a: nat)
    requires Booked(ledger, holders, assets, a) && Held(reel, a) <= holders
    ensures Booked(ledger + ClosingOf(reel), holders - Held(reel, a), assets, a)
  {
    if reel.Some? {
      BookOne(ledger, holders, assets, Closed(reel.value.asset), a);
    } else {
      assert ledger + [] == ledger;
    }
  }

  lemma {:induction false} BookReads(ledger: seq<AssetEvent>, holders: int, assets: nat, touched: seq<AssetEvent>,
                                     a: nat)
    requires Booked(ledger, holders, assets, a)
    requires forall i :: 0 <= i < |touched| ==> touched[i].Read? && (touched[i].asset == a ==> holders == 1)
    ensures Booked(ledger + touched, holders, assets, a)
    decreases |touched|
  {
    if touched == [] {
      assert ledger + touched == ledger;
    } else {
      BookOne(ledger, holders, assets, touched[0], a);
      BookReads(ledger + [touched[0]], holders, assets, touched[1..], a);
      assert ledger + touched == (ledger + [touched[0]]) + touched[1..];
    }
  }

  lemma OrphansAtExit(s: State, broken: bool, a: nat)
    ensures HeldByOrphans(ExitRender(s, broken).orphans, a)
         == HeldByOrphans(s.orphans, a) + HeldByJob(s.loop.trackJob, a) + HeldByJob(s.loop.announcementJob, a)
    ensures |ExitRender(s, broken).orphans| <= |s.orphans| + 2
  {
    var first, second := OrphanOf(s.loop.trackJob), OrphanOf(s.loop.announcementJob);
    OrphansConcat(s.orphans, first, a);
    OrphansConcat(s.orphans + first, second, a);
    assert HeldByOrphans(first, a) == HeldByJob(s.loop.trackJob, a);
    assert HeldByOrphans(second, a) == HeldByJob(s.loop.announcementJob, a);
  }

  lemma ExitKeepsAsset(s: State, broken: bool, a: nat)
    requires AssetKept(s, a)
    ensures AssetKept(ExitRender(s, broken), a)
  {
    var loop, l, h, n := s.loop, s.log.ledger, Holders(s.loop, s.orphans, a), s.log.assets;
    OrphansAtExit(s, broken, a);
    BookClosing(l, h, n, loop.current, a);
    BookClosing(l + ClosingOf(loop.current), h - Held(loop.current, a), n, loop.next, a);
    BookClosing(l + ClosingOf(loop.current) + ClosingOf(loop.next), h - Held(loop.current, a) - Held(loop.next, a), n,
                loop.announcement, a);
  }

  lemma FinishTrackKeepsAsset(s: State, a: nat)
    requires s.loop.current.Some? && AssetKept(s, a)
    ensures AssetKept(FinishTrack(s), a)
  {
    BookClosing(s.log.ledger, Holders(s.loop, s.orphans, a), s.log.assets, s.loop.current, a);
  }

  lemma FinishAnnouncementKeepsAsset(s: State, broken: bool, a: nat)
    requires s.loop.announcement.Some? && AssetKept(s, a)
    ensures AssetKept(FinishAnnouncement(s, broken), a)
  {
    BookClosing(s.log.ledger, Holders(s.loop, s.orphans, a), s.log.assets, s.loop.announcement, a);
  }

  lemma AfterWriteKeepsAsset(s: State, block: Block, trackDone: bool, announcementDone: bool, broken: bool, a: nat)
    requires AssetKept(s, a)
    ensures AssetKept(AfterWrite(s, block, trackDone, announcementDone, broken), a)
  {
    var written := s.(loop := s.loop.(pc := Promoting), log := s.log.(trace := s.log.trace + [Music(block)]));
    var music := if trackDone && written.loop.current.Some? then FinishTrack(written) else written;
    if trackDone && written.loop.current.Some? { FinishTrackKeepsAsset(written, a); }
    if announcementDone && music.loop.announcement.Some? { FinishAnnouncementKeepsAsset(music, broken, a); }
  }

  /** Rendering reads only what the loop holds. */
  lemma RenderedReads(loop: Loop, faults: Faults, a: nat)
    ensures var touched := RenderMusic(loop, faults).touched;
            forall i :: 0 <= i < |touched| ==>
              touched[i].Read? && (touched[i].asset == a ==> Held(loop.current, a) + Held(loop.next, a) > 0)
  {
  }

  lemma MixedKeepsAsset(s: State, faults: Faults, a: nat)
    requires AssetKept(s, a) && RenderMusic(s.loop, faults).Rendered?
    ensures AssetKept(Mixed(s, RenderMusic(s.loop, faults), ReadOverlay(s.loop.announcement, faults.announcement)), a)
  {
    var music, over := RenderMusic(s.loop, faults), ReadOverlay(s.loop.announcement, faults.announcement);
    RenderedReads(s.loop, faults, a);
    OverlayReads(s.loop.announcement, faults.announcement, a);
    RenderedLoop(s.loop, faults);
    hide RenderMusic, ReadOverlay, Booked;
    BookReads(s.log.ledger, Holders(s.loop, s.orphans, a), s.log.assets, music.touched + over.touched, a);
    assert Holders(Mixed(s, music, over).loop, s.orphans, a) == Holders(s.loop, s.orphans, a);
  }

  lemma OverlayReads(announcement: Option<Reel<Announcement>>, fails: bool, a: nat)
    ensures var over := ReadOverlay(announcement, fails);
            && SameItem(announcement, over.announcement)
            && forall i :: 0 <= i < |over.touched| ==>
                 over.touched[i].Read? && (over.touched[i].asset == a ==> Held(announcement, a) > 0)
  {
  }

  lemma TickKeepsAsset(s: State, faults: Faults, a: nat)
    requires AssetKept(s, a) && Enabled(s, OnTick(faults))
    ensures AssetKept(DoTick(s, faults), a)
  {
    var music := RenderMusic(s.loop, faults);
    if music.MusicFault? {
      RenderedReads(s.loop, faults, a);
      BookReads(s.log.ledger, Holders(s.loop, s.orphans, a), s.log.assets, music.touched, a);
      ExitKeepsAsset(WithLedger(s, music.touched), false, a);
    } else {
      MixedKeepsAsset(s, faults, a);
      var over := ReadOverlay(s.loop.announcement, faults.announcement);
      var mixed := Mixed(s, music, over);
      if faults.write {
        ExitKeepsAsset(mixed, over.failed, a);
      } else {
        AfterWriteKeepsAsset(mixed, music.block, music.done, over.done, over.failed, a);
      }
    }
  }

  lemma CommandKeepsAsset(s: State, a: nat)
    requires AssetKept(s, a) && Enabled(s, OnCommand)
    ensures AssetKept(DoCommand(s), a)
  {
    BookClosing(s.log.ledger, Holders(s.loop, s.orphans, a), s.log.assets, s.loop.current, a);
    match s.signals.commands[0]
    case Play =>
    case Stop =>
    case Skip =>
  }

  lemma TrackReadyKeepsAsset(s: State, a: nat)
    requires AssetKept(s, a) && Enabled(s, OnTrackReady)
    ensures AssetKept(DoTrackReady(s), a)
  {
    var result := AssetOf(s.loop.trackJob.result);
    if result.Some? {
      BookOneIfHeld(s.log.ledger, Holders(s.loop, s.orphans, a), s.log.assets, Closed(result.value), a);
    }
  }

  lemma AnnouncementReadyKeepsAsset(s: State, a: nat)
    requires AssetKept(s, a) && Enabled(s, OnAnnouncementReady)
    ensures AssetKept(DoAnnouncementReady(s), a)
  {
    var result := AssetOf(s.loop.announcementJob.result);
    if result.Some? {
      BookOneIfHeld(s.log.ledger, Holders(s.loop, s.orphans, a), s.log.assets, Closed(result.value), a);
    }
  }

  lemma BookOneIfHeld(ledger: seq<AssetEvent>, holders: int, assets: nat, e: AssetEvent, a: nat)
    requires Booked(ledger, holders, assets, a) && e.Closed?
    ensures e.asset != a || holders == 1 ==> Booked(ledger + [e], if e.asset == a then 0 else holders, assets, a)
  {
    if e.asset != a || holders == 1 { BookOne(ledger, holders, assets, e, a); }
  }

  /** A decode adds the new asset if it succeeds and leaves nothing open otherwise. */
  lemma BookDecode(ledger: seq<AssetEvent>, holders: int, assets: nat, outcome: Decode, a: nat)
    requires Booked(ledger, holders, assets, a)
    ensures Booked(ledger + DecodeEvents(assets, outcome), if outcome.Decoded? && a == assets then 1 else holders,
                   if outcome.DecodeFails? then assets else assets + 1, a)
    ensures a == assets ==> holders == 0
  {
    match outcome
    case DecodeFails => assert ledger + [] == ledger;
    case OpenFails =>
      BookOne(ledger, holders, assets, Opened(assets), a);
      BookOne(ledger + [Opened(assets)], if a == assets then 1 else holders, assets + 1, Closed(assets), a);
      assert (ledger + [Opened(assets)]) + [Closed(assets)] == ledger + [Opened(assets), Closed(assets)];
    case Decoded(_) => BookOne(ledger, holders, assets, Opened(assets), a);
  }

  lemma DecodeKeepsAsset(s: State, decode: Action, a: nat)
    requires AssetKept(s, a) && Enabled(s, decode)
    requires decode.TrackDecoded? || decode.AnnouncementDecoded? || decode.OrphanDecoded?
    ensures AssetKept(Next(s, decode), a)
  {
    BookDecode(s.log.ledger, Holders(s.loop, s.orphans, a), s.log.assets, decode.outcome, a);
    if decode.OrphanDecoded? { OrphanChanges(s.orphans, decode.index, Next(s, decode).orphans[decode.index], a); }
  }

  lemma AbandonKeepsAsset(s: State, abandon: Action, a: nat)
    requires AssetKept(s, a) && Enabled(s, abandon)
    requires abandon.TrackAbandoned? || abandon.AnnouncementAbandoned? || abandon.OrphanAbandoned?
    ensures AssetKept(Next(s, abandon), a)
  {
    var result :=
      if abandon.TrackAbandoned? then AssetOf(s.loop.trackJob.result)
      else if abandon.AnnouncementAbandoned? then AssetOf(s.loop.announcementJob.result)
      else s.orphans[abandon.index].asset;
    if abandon.OrphanAbandoned? {
      OrphanChanges(s.orphans, abandon.index, Gone, a);
      OrphanBound(s.orphans, abandon.index, a);
    }
    if result.Some? {
      BookOne(s.log.ledger, Holders(s.loop, s.orphans, a), s.log.assets, Closed(result.value), a);
    } else {
      assert s.log.ledger + [] == s.log.ledger;
    }
  }

  lemma {:induction false} OrphanBound(orphans: seq<Orphan>, i: nat, a: nat)
    requires i < |orphans|
    ensures HeldByOrphan(orphans[i], a) <= HeldByOrphans(orphans, a)
  {
    if i > 0 { OrphanBound(orphans[1..], i - 1, a); }
  }

  lemma QuietStepKeepsAsset(s: State, quiet: Action, a: nat)
    requires AssetKept(s, a) && Shape(s) && Enabled(s, quiet)
    requires quiet.PromoteNext? || quiet.StartTrackPrepare? || quiet.StartAnnouncementPrepare? || quiet.OnWakeup?
             || quiet.Connect?
    ensures AssetKept(Next(s, quiet), a)
  {
    hide AssetKept, Shape, Holders, DoPromoteNext, DoStartTrackPrepare, DoStartAnnouncementPrepare;
    match quiet {
      case PromoteNext => PromoteRearranges(s, a);
      case StartTrackPrepare => PreparingRearranges(s, quiet, a);
      case StartAnnouncementPrepare => PreparingRearranges(s, quiet, a);
      case _ => ReconnectRearranges(s, quiet, a);
    }
    Rearrange(s, Next(s, quiet), a);
  }

  /** Assets change hands inside the loop, if at all. */
  ghost predicate Rearranged(s: State, t: State, a: nat) {
    && t.log.ledger == s.log.ledger && t.log.assets == s.log.assets && t.log.exits == s.log.exits
    && t.orphans == s.orphans && Holders(t.loop, t.orphans, a) == Holders(s.loop, s.orphans, a)
  }

  lemma Rearrange(s: State, t: State, a: nat)
    requires AssetKept(s, a) && Rearranged(s, t, a)
    ensures AssetKept(t, a)
  {
  }

  lemma PromoteRearranges(s: State, a: nat)
    requires s.loop.pc.Promoting?
    ensures Rearranged(s, DoPromoteNext(s), a)
  {
  }

  lemma PreparingRearranges(s: State, prepare: Action, a: nat)
    requires Shape(s) && Enabled(s, prepare) && (prepare.StartTrackPrepare? || prepare.StartAnnouncementPrepare?)
    ensures Rearranged(s, Next(s, prepare), a)
  {
  }

  lemma ReconnectRearranges(s: State, a': Action, a: nat)
    requires Shape(s) && Enabled(s, a') && (a'.OnWakeup? || a'.Connect?)
    ensures Rearranged(s, Next(s, a'), a)
  {
  }

  lemma DeliveryKeepsAsset(s: State, delivery: Action, a: nat)
    requires AssetKept(s, a) && Enabled(s, delivery)
    requires delivery.TrackDelivered? || delivery.AnnouncementDelivered? || delivery.OrphanDelivered?
    ensures AssetKept(Next(s, delivery), a)
  {
    if delivery.OrphanDelivered? {
      OrphanChanges(s.orphans, delivery.index, Next(s, delivery).orphans[delivery.index], a);
    }
  }

  lemma CallerKeepsAsset(s: State, call: Action, a: nat)
    requires AssetKept(s, a) && Enabled(s, call)
    requires call.ReplaceQueue? || call.AddAnnouncement? || call.Send? || call.Signal? || call.UpdateConfig?
      || call.Cancel?
    ensures AssetKept(Next(s, call), a)
  {
    CallerFrame(s, call);
  }

  lemma StepKeepsAsset(s: State, step: Action, a: nat)
    requires Shape(s) && AssetKept(s, a) && Enabled(s, step)
    ensures AssetKept(Next(s, step), a)
  {
    hide AssetKept, Shape, DoTick, ExitRender, DoCommand, DoTrackReady, DoAnnouncementReady;
    match step
    case OnTick(faults) => TickKeepsAsset(s, faults, a);
    case OnDone => ExitKeepsAsset(s, false, a);
    case OnCommand => CommandKeepsAsset(s, a);
    case OnTrackReady => TrackReadyKeepsAsset(s, a);
    case OnAnnouncementReady => AnnouncementReadyKeepsAsset(s, a);
    case TrackDelivered | AnnouncementDelivered | OrphanDelivered(_) => DeliveryKeepsAsset(s, step, a);
    case TrackDecoded(_) | AnnouncementDecoded(_) | OrphanDecoded(_, _) => DecodeKeepsAsset(s, step, a);
    case TrackAbandoned | AnnouncementAbandoned | OrphanAbandoned(_) => AbandonKeepsAsset(s, step, a);
    case ReplaceQueue(_, _) | AddAnnouncement(_) | Send(_) | Signal | UpdateConfig(_) | Cancel =>
      CallerKeepsAsset(s, step, a);
    case _ => QuietStepKeepsAsset(s, step, a);
  }

  lemma {:induction false} RunKeepsAsset(s: State, run: seq<Action>, a: nat)
    requires Shape(s) && AssetKept(s, a) && Legal(s, run)
    ensures Shape(Exec(s, run)) && AssetKept(Exec(s, run), a)
    decreases |run|
  {
    if run != [] {
      StepKeepsShape(s, run[0]);
      StepKeepsAsset(s, run[0], a);
      RunKeepsAsset(Next(s, run[0]), run[1..], a);
    }
  }

  // ---------------------------------------------------------------- main results

  function AssetSeq(asset: Option<nat>): seq<nat> {
    if asset.Some? then [asset.value] else []
  }

  function ReelAssets<T>(reel: Option<Reel<T>>): seq<nat> {
    if reel.Some? then [reel.value.asset] else []
  }

  function JobAssets<T>(job: Job<T>): seq<nat> {
    if job.Holding? || job.Delivered? then AssetSeq(AssetOf(job.result)) else []
  }

  /** Over whole lives of a station, for every asset: no event follows its closing (so no second close and no
      read after close); it is open exactly while somebody holds it, and then it has one holder; and a live run
      holds at most two track assets and one announcement asset. */
  lemma AssetOwnership(defaults: Transition, run: seq<Action>, a: nat)
    requires Legal(Init(defaults), run)
    ensures var s := Exec(Init(defaults), run);
            var ledger := s.log.ledger;
            && (forall i, j :: 0 <= i < j < |ledger| && ledger[i] == Closed(a) ==> ledger[j].asset != a)
            && Follow(Unborn, ledger, a) != Misused
            && (Follow(Unborn, ledger, a) == Open <==> Holders(s.loop, s.orphans, a) == 1)
            && Holders(s.loop, s.orphans, a) <= 1
            && |ReelAssets(s.loop.current) + ReelAssets(s.loop.next) + JobAssets(s.loop.trackJob)| <= 2
            && |ReelAssets(s.loop.announcement) + JobAssets(s.loop.announcementJob)| <= 1
            && |s.orphans| <= 2 * s.log.exits
  {
    RunKeepsAsset(Init(defaults), run, a);
    var ledger := Exec(Init(defaults), run).log.ledger;
    forall i, j | 0 <= i < j < |ledger| && ledger[i] == Closed(a) ensures ledger[j].asset != a {
      ClosedOnce(ledger, i, j, a);
    }
  }

  /** Ending a run leaves an asset open exactly if a preparer still carries it or left it in a ready channel:
      one of the run's own two preparers (one track, one announcement) or one of an earlier run. */
  lemma ExitClosesTheRest(defaults: Transition, run: seq<Action>, broken: bool, a: nat)
    requires Legal(Init(defaults), run)
    ensures var s := Exec(Init(defaults), run);
            Follow(Unborn, ExitRender(s, broken).log.ledger, a) == Open <==>
              HeldByJob(s.loop.trackJob, a) == 1 || HeldByJob(s.loop.announcementJob, a) == 1
              || HeldByOrphans(s.orphans, a) == 1
  {
    RunKeepsAsset(Init(defaults), run, a);
    var s := Exec(Init(defaults), run);
    ExitKeepsAsset(s, broken, a);
    OrphansAtExit(s, broken, a);
  }

  lemma ParkedStep(s: State, step: Action, i: nat)
    requires Enabled(s, step) && i < |s.orphans| && s.orphans[i].Parked?
    ensures i < |Next(s, step).orphans| && Next(s, step).orphans[i] == s.orphans[i]
  {
    hide DoTick;
    match step
    case OnTick(faults) => TickAddsOrphans(s, faults);
    case OnDone =>
    case OrphanDecoded(_, _) | OrphanDelivered(_) | OrphanAbandoned(_) =>
    case OnCommand | OnTrackReady | OnAnnouncementReady | OnWakeup | PromoteNext => ArmKeepsOrphans(s, step);
    case StartTrackPrepare | StartAnnouncementPrepare => ArmKeepsOrphans(s, step);
    case _ => CallersKeepOrphans(s, step);
  }

  lemma TickAddsOrphans(s: State, faults: Faults)
    ensures s.orphans <= DoTick(s, faults).orphans
  {
    hide RenderMusic, ReadOverlay;
  }

  lemma ArmKeepsOrphans(s: State, arm: Action)
    requires Enabled(s, arm)
    requires arm.OnCommand? || arm.OnTrackReady? || arm.OnAnnouncementReady? || arm.OnWakeup? || arm.PromoteNext?
             || arm.StartTrackPrepare? || arm.StartAnnouncementPrepare?
    ensures Next(s, arm).orphans == s.orphans
  {
  }

  lemma CallersKeepOrphans(s: State, step: Action)
    requires Enabled(s, step)
    requires step.ReplaceQueue? || step.AddAnnouncement? || step.Send? || step.Signal? || step.UpdateConfig?
             || step.Cancel? || step.Connect? || step.TrackDecoded? || step.TrackDelivered? || step.TrackAbandoned?
             || step.AnnouncementDecoded? || step.AnnouncementDelivered? || step.AnnouncementAbandoned?
    ensures Next(s, step).orphans == s.orphans
  {
  }

  lemma {:induction false} ParkedStays(s: State, run: seq<Action>, i: nat)
    requires Legal(s, run) && i < |s.orphans| && s.orphans[i].Parked?
    ensures i < |Exec(s, run).orphans| && Exec(s, run).orphans[i] == s.orphans[i]
    decreases |run|
  {
    if run != [] {
      ParkedStep(s, run[0], i);
      ParkedStays(Next(s, run[0]), run[1..], i);
    }
  }

  /** The leak: a result left in the ready channel of a finished run stays open in every continuation. */
  lemma ParkedAssetsStayOpen(defaults: Transition, before: seq<Action>, run: seq<Action>, i: nat)
    requires Legal(Init(defaults), before)
    requires var s := Exec(Init(defaults), before); i < |s.orphans| && s.orphans[i].Parked? && s.orphans[i].asset.Some?
    requires Legal(Exec(Init(defaults), before), run)
    ensures var s := Exec(Init(defaults), before);
            var t := Exec(s, run);
            Follow(Unborn, t.log.ledger, s.orphans[i].asset.value) == Open
  {
    var s := Exec(Init(defaults), before);
    var a := s.orphans[i].asset.value;
    RunKeepsAsset(Init(defaults), before, a);
    RunKeepsAsset(s, run, a);
    ParkedStays(s, run, i);
    OrphanBound(Exec(s, run).orphans, i, a);
  }
}
