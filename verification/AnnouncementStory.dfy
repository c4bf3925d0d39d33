/** What listeners to the event stream hear about each announcement: over whole lives of a station the announcement
    events of the loop are, one announcement after the other, exactly those its ending calls for. */
module AnnouncementStory {
  import opened Common
  import opened Playlist
  import opened StationModel
  import opened StationShape
  import opened StationFrame
  import Flow = AnnouncementFlow
  import opened AnnouncementIndependence

  /** The events about a settled announcement, in order. */
  function StoryOf(x: Settlement): seq<Notice> {
    var a := x.announcement;
    match x.ending
    case Resolved => [AnnouncementStarted(a), AnnouncementFinished(a)]
    case Interrupted => [AnnouncementStarted(a), AnnouncementFailed(a), AnnouncementFinished(a)]
    case Broken => [AnnouncementFailed(a), AnnouncementFailed(a)]
    case LostUnheard => []
    case LostOnAir => [AnnouncementStarted(a)]
    case LostInterrupted => [AnnouncementStarted(a), AnnouncementFailed(a)]
    case SurplusEnding => []
  }

  function Story(settled: seq<Settlement>): seq<Notice> {
    if settled == [] then [] else Story(settled[..|settled| - 1]) + StoryOf(settled[|settled| - 1])
  }

  /** The events so far about the announcement on air. */
  function Opening(onAir: Option<Reel<Announcement>>): seq<Notice> {
    if onAir.Some? then [AnnouncementStarted(onAir.value.item)] else []
  }

  ghost predicate Told(v: View) {
    v.notices == Story(v.settled) + Opening(v.onAir)
  }

  lemma StoryGrows(settled: seq<Settlement>, x: Settlement)
    ensures Story(settled + [x]) == Story(settled) + StoryOf(x)
  {
    assert (settled + [x])[..|settled|] == settled;
  }

  lemma TickTells(v: View, fails: bool)
    requires Told(v)
    ensures Told(TickView(v, fails))
  {
    if v.onAir.Some? {
      var item := v.onAir.value.item;
      StoryGrows(v.settled, Settlement(item, Interrupted));
      StoryGrows(v.settled, Settlement(item, Resolved));
      hide Story, StoryOf;
      PlayedOut(Story(v.settled), item);
      BrokenOff(Story(v.settled), item);
    }
  }

  lemma PlayedOut(story: seq<Notice>, item: Announcement)
    ensures (story + [AnnouncementStarted(item)]) + [AnnouncementFinished(item)]
         == (story + StoryOf(Settlement(item, Resolved))) + []
  {
    Assoc(story, [AnnouncementStarted(item)], [AnnouncementFinished(item)]);
  }

  lemma BrokenOff(story: seq<Notice>, item: Announcement)
    ensures ((story + [AnnouncementStarted(item)]) + [AnnouncementFailed(item)]) + [AnnouncementFinished(item)]
         == (story + StoryOf(Settlement(item, Interrupted))) + []
  {
    Assoc(story, [AnnouncementStarted(item)], [AnnouncementFailed(item)]);
    Assoc(story, [AnnouncementStarted(item)] + [AnnouncementFailed(item)], [AnnouncementFinished(item)]);
  }

  lemma MoveTells(v: View, m: Move)
    requires Told(v) && CanMove(v, m) && (m.Receive? ==> v.onAir.None?)
    ensures Told(MoveView(v, m))
  {
    match m
    case Tick(fails) => TickTells(v, fails);
    case Receive => ReceiveTells(v);
    case _ => hide Story;
  }

  lemma ReceiveTells(v: View)
    requires Told(v) && v.job.Delivered? && v.onAir.None?
    ensures Told(MoveView(v, Receive))
  {
    StoryGrows(v.settled, Settlement(v.job.item, Broken));
    hide Story;
    assert Story(v.settled) + [] == Story(v.settled);
    assert Opening(None) == [];
  }

  /** A tick that ends the run, on a music fault or a failed write. */
  lemma FatalTickTells(s: State, faults: Faults)
    requires Shape(s) && Enabled(s, OnTick(faults)) && Told(ViewOf(s)) && DoTick(s, faults).log.exits != s.log.exits
    ensures Told(ViewOf(DoTick(s, faults)))
  {
    var music := RenderMusic(s.loop, faults);
    if music.MusicFault? {
      WithoutFailure(s);
      LosingTells(WithLedger(s, music.touched), false);
    } else {
      var over := ReadOverlay(s.loop.announcement, faults.announcement);
      MixedTells(s, faults, music, over);
      hide RenderMusic, ReadOverlay, Mixed, Shape, Told, ExitRender;
      AfterWriteStays(Mixed(s, music, over), music.block, music.done, over.done, over.failed);
    }
  }

  lemma AfterWriteStays(s: State, block: Block, trackDone: bool, announcementDone: bool, broken: bool)
    ensures AfterWrite(s, block, trackDone, announcementDone, broken).log.exits == s.log.exits
  {
  }

  lemma MixedTells(s: State, faults: Faults, music: Rendered, over: Overlay)
    requires Shape(s) && Told(ViewOf(s))
    requires music.Rendered? && music == RenderMusic(s.loop, faults)
    requires over == ReadOverlay(s.loop.announcement, faults.announcement)
    ensures Mixed(s, music, over).log.exits == s.log.exits
    ensures Told(ViewOf(ExitRender(Mixed(s, music, over), over.failed)))
  {
    RenderedLoop(s.loop, faults);
    var mixed := Mixed(s, music, over);
    OverlayKeepsItem(s.loop.announcement, faults.announcement);
    hide RenderMusic, ReadOverlay, Shape;
    LosingTells(mixed, over.failed);
  }

  lemma OverlayKeepsItem(announcement: Option<Reel<Announcement>>, fails: bool)
    ensures var over := ReadOverlay(announcement, fails);
            && (over.failed ==> over.announcement.Some?)
            && Opening(over.announcement) == Opening(announcement)
  {
  }

  lemma WithoutFailure(s: State)
    requires Told(ViewOf(s))
    ensures s.log.notices == (Story(s.log.settled) + Opening(s.loop.announcement)) + []
  {
  }

  /** A run that ends: what it held is lost, with the failure event if the last read had failed. */
  lemma LosingTells(s: State, broken: bool)
    requires s.loop.announcement.Some? ==> s.loop.announcementJob.NoJob?
    requires broken ==> s.loop.announcement.Some?
    requires s.log.notices == (Story(s.log.settled) + Opening(s.loop.announcement))
                              + if broken then [AnnouncementFailed(s.loop.announcement.value.item)] else []
    ensures Told(ViewOf(ExitRender(s, broken)))
  {
    var settled := s.log.settled;
    var lost := LoseAnnouncements(s.loop, broken);
    var told: seq<Notice> := if broken then [AnnouncementFailed(s.loop.announcement.value.item)] else [];
    if s.loop.announcement.Some? {
      var x := Settlement(s.loop.announcement.value.item, if broken then LostInterrupted else LostOnAir);
      assert lost == [x];
      StoryGrows(settled, x);
      Assoc(Story(settled), Opening(s.loop.announcement), told);
      assert Opening(s.loop.announcement) + told == StoryOf(x);
    } else if !s.loop.announcementJob.NoJob? {
      var x := Settlement(s.loop.announcementJob.item, LostUnheard);
      assert lost == [x];
      StoryGrows(settled, x);
    } else {
      assert settled + lost == settled;
    }
    hide Story;
    assert ViewOf(ExitRender(s, broken)).settled == settled + lost;
    assert Opening(None) == [];
  }

  lemma StepTells(s: State, a: Action)
    requires Shape(s) && Told(ViewOf(s)) && Enabled(s, a)
    ensures Told(ViewOf(Next(s, a)))
  {
    if StaysInRun(s, a) {
      Projection(s, a);
      EmptyAirBeforeReceipt(s, a);
      hide Next, Shape, Told, MoveView;
      MoveTells(ViewOf(s), MoveOf(s, a));
    } else {
      LeavingTells(s, a);
    }
  }

  lemma EmptyAirBeforeReceipt(s: State, a: Action)
    requires Shape(s) && Enabled(s, a)
    ensures MoveOf(s, a).Receive? ==> s.loop.announcement.None?
  {
  }

  lemma LeavingTells(s: State, a: Action)
    requires Shape(s) && Told(ViewOf(s)) && Enabled(s, a) && !StaysInRun(s, a)
    ensures Told(ViewOf(Next(s, a)))
  {
    if a.OnTick? {
      hide Shape, Told, DoTick;
      FatalTickTells(s, a.faults);
    } else if a.OnDone? {
      WithoutFailure(s);
      hide Told, ExitRender;
      LosingTells(s, false);
    } else if a.Connect? {
      assert ViewOf(Next(s, a)) == ViewOf(s);
    } else {
      hide Told;
      OnlyTicksAndCancellationEnd(s, a);
    }
  }

  lemma OnlyTicksAndCancellationEnd(s: State, a: Action)
    requires Enabled(s, a) && !a.OnTick? && !a.OnDone? && !a.Connect?
    ensures StaysInRun(s, a)
  {
  }

  lemma {:induction false} RunTells(s: State, run: seq<Action>)
    requires Shape(s) && Told(ViewOf(s)) && Legal(s, run)
    ensures Shape(Exec(s, run)) && Told(ViewOf(Exec(s, run)))
    decreases |run|
  {
    if run != [] {
      StepKeepsShape(s, run[0]);
      StepTells(s, run[0]);
      hide Next, Shape, Told;
      RunTells(Next(s, run[0]), run[1..]);
    }
  }

  // ---------------------------------------------------------------- main results

  /** Over whole lives of a station the loop's announcement events are, announcement by announcement in the order they
      were accepted: started and finished for one that played out; started, failed, finished after a failed read;
      failed twice after a failed preparation; and whatever had been said so far for one lost with its run. */
  lemma AnnouncementsAreReported(defaults: Transition, run: seq<Action>)
    requires Legal(Init(defaults), run)
    ensures var s := Exec(Init(defaults), run);
            s.log.notices == Story(s.log.settled) + Opening(s.loop.announcement)
  {
    assert Init(defaults).log.notices + [] == [];
    RunTells(Init(defaults), run);
  }

  /** The terminal events about one announcement: failed or finished. */
  function Terminals(notices: seq<Notice>, a: Announcement): nat {
    if notices == [] then 0
    else
      var last := notices[|notices| - 1];
      Terminals(notices[..|notices| - 1], a) + if last.announcement == a && !last.AnnouncementStarted? then 1 else 0
  }

  function TerminalsOf(ending: Ending): nat {
    match ending
    case Resolved => 1
    case Interrupted => 2
    case Broken => 2
    case LostInterrupted => 1
    case _ => 0
  }

  lemma {:induction false} TerminalsConcat(x: seq<Notice>, y: seq<Notice>, a: Announcement)
    ensures Terminals(x + y, a) == Terminals(x, a) + Terminals(y, a)
  {
    if y == [] {
      assert x + y == x;
    } else {
      TerminalsConcat(x, y[..|y| - 1], a);
      assert (x + y)[..|x + y| - 1] == x + y[..|y| - 1];
    }
  }

  lemma TerminalsOfOne(x: Settlement, a: Announcement)
    ensures Terminals(StoryOf(x), a) == if x.announcement == a then TerminalsOf(x.ending) else 0
  {
    var of := x.announcement;
    var started, failed, finished := [AnnouncementStarted(of)], [AnnouncementFailed(of)], [AnnouncementFinished(of)];
    assert started[..0] == [] && failed[..0] == [] && finished[..0] == [];
    TerminalsConcat(started, finished, a);
    TerminalsConcat(started, failed, a);
    TerminalsConcat(started + failed, finished, a);
    TerminalsConcat(failed, failed, a);
    assert StoryOf(x) == match x.ending
      case Resolved => started + finished
      case Interrupted => (started + failed) + finished
      case Broken => failed + failed
      case LostOnAir => started
      case LostInterrupted => started + failed
      case _ => [];
  }

  /** An announcement settled at most once is told about as its settlement says. */
  lemma {:induction false} TerminalsOfStory(settled: seq<Settlement>, i: nat)
    requires i < |settled|
    requires forall j, k :: 0 <= j < k < |settled| ==> settled[j].announcement != settled[k].announcement
    ensures Terminals(Story(settled), settled[i].announcement) == TerminalsOf(settled[i].ending)
  {
    var last := |settled| - 1;
    var front, a := settled[..last], settled[i].announcement;
    TerminalsConcat(Story(front), StoryOf(settled[last]), a);
    TerminalsOfOne(settled[last], a);
    if i == last { NoTerminals(front, a); } else { TerminalsOfStory(front, i); }
  }

  lemma {:induction false} NoTerminals(settled: seq<Settlement>, a: Announcement)
    requires forall j :: 0 <= j < |settled| ==> settled[j].announcement != a
    ensures Terminals(Story(settled), a) == 0
  {
    if settled != [] {
      var last := |settled| - 1;
      NoTerminals(settled[..last], a);
      TerminalsConcat(Story(settled[..last]), StoryOf(settled[last]), a);
      TerminalsOfOne(settled[last], a);
    }
  }

  /** How many terminal events go with which ending: exactly one if the announcement played to its end without a read
      error, or its read failed in the very tick whose write then failed too; two after any other failure; none
      if its run ended first. One that is not settled yet has none. */
  lemma TerminalEventsFollowEndings(defaults: Transition, run: seq<Action>, i: nat)
    requires Legal(Init(defaults), run) && i < |Exec(Init(defaults), run).log.accepted|
    ensures var s := Exec(Init(defaults), run);
            var told := Terminals(s.log.notices, s.log.accepted[i]);
            if i < |s.log.settled| then
              && s.log.settled[i].announcement == s.log.accepted[i]
              && told == TerminalsOf(s.log.settled[i].ending)
              && (told == 1 <==> s.log.settled[i].ending in {Resolved, LostInterrupted})
            else told == 0
  {
    hide Shape, Told, ViewOf, Terminals, Flow.AnnouncementsKept;
    Beginning(defaults);
    RunTells(Init(defaults), run);
    Flow.RunSettles(Init(defaults), run);
    hide Exec, Legal;
    TerminalsAreExact(Exec(Init(defaults), run), i);
  }

  lemma Beginning(defaults: Transition)
    ensures Shape(Init(defaults)) && Told(ViewOf(Init(defaults))) && Flow.AnnouncementsKept(Init(defaults))
  {
    assert Init(defaults).log.notices + [] == [];
  }

  /** The same of any state in which the events and the account of announcements are in order. */
  lemma TerminalsAreExact(s: State, i: nat)
    requires Told(ViewOf(s)) && Flow.AnnouncementsKept(s) && i < |s.log.accepted|
    ensures var told := Terminals(s.log.notices, s.log.accepted[i]);
            if i < |s.log.settled| then
              s.log.settled[i].announcement == s.log.accepted[i] && told == TerminalsOf(s.log.settled[i].ending)
            else told == 0
  {
    var settled, accepted := s.log.settled, s.log.accepted;
    forall j | 0 <= j < |settled| ensures settled[j].announcement == accepted[j] {
      assert Flow.Names(settled)[j] == accepted[j];
    }
    TerminalsConcat(Story(settled), Opening(s.loop.announcement), accepted[i]);
    OpeningIsNotTerminal(s.loop.announcement, accepted[i]);
    hide Terminals, Story;
    if i < |settled| {
      TerminalsOfStory(settled, i);
    } else {
      NoTerminals(settled, accepted[i]);
    }
  }

  lemma OpeningIsNotTerminal(onAir: Option<Reel<Announcement>>, a: Announcement)
    ensures Terminals(Opening(onAir), a) == 0
  {
  }
}
