/** The mixer as the object it is: filter memory, ducking gain and limiter gain updated sample by sample
    (internal/audio/dsp.go). `Mixer.Mix` is proved against `MixedBlock`, and the laws of whole runs are lemmas
    about that function. */
module Mixing {
  import opened Common
  import opened Dsp

  /** What one `Mix` call leaves for the next. */
  datatype Memory = Memory(duck: real, left: Poles, right: Poles)
  datatype MixerState = MixerState(profile: Profile, memory: Memory, limiterGain: real)

  datatype Block = Block(music: seq<real>, announcement: seq<real>, active: bool)

  function Fresh(profile: Profile): MixerState {
    MixerState(Normalize(profile), Memory(0.0, Poles(0.0, 0.0), Poles(0.0, 0.0)), 1.0)
  }

  // ---------------------------------------------------------------- one sample

  function PolesOf(m: Memory, channel: nat): Poles {
    if channel == 0 then m.left else m.right
  }

  function WithPoles(m: Memory, channel: nat, p: Poles): Memory {
    if channel == 0 then m.(left := p) else m.(right := p)
  }

  predicate Banded(p: Profile, active: bool) {
    active && (p.low.enabled || p.mid.enabled || p.high.enabled)
  }

  /** A band that is not enabled is ducked with the rest. */
  function BandGain(m: Maths, band: Band, duck: real): real {
    if band.enabled then m.gain(band.gainDB) else duck
  }

  function Filtered(m: Maths, p: Profile, poles: Poles, input: real): Poles {
    Filter(poles, m.alpha(p.lowCutHz), m.alpha(p.highCutHz), input)
  }

  /** Music through the bands, given the filter memory after the sample. */
  function BandDucked(m: Maths, p: Profile, duck: real, poles: Poles, input: real): real {
    Recombine(poles, input, BandGain(m, p.low, duck), BandGain(m, p.mid, duck), BandGain(m, p.high, duck))
  }

  function Target(m: Maths, p: Profile, active: bool): real {
    if active then m.gain(p.musicGainDB) else 1.0
  }

  function Ramp(p: Profile, active: bool): (r: nat)
    ensures r > 0
  {
    RampSamples(if active then p.attackMS else p.releaseMS)
  }

  // ---------------------------------------------------------------- one block

  function BlockLength(b: Block): nat {
    var longer := Max(|b.music|, |b.announcement|);
    if longer == 0 then BLOCK_SAMPLES else longer
  }

  /** The memory after sample `i`, given the one before it. */
  function Advance(m: Maths, p: Profile, step: real, b: Block, before: Memory, i: nat): Memory {
    var ducked := before.(duck := DuckStep(before.duck, Target(m, p, b.active), step));
    if Banded(p, b.active) then
      WithPoles(ducked, i % CHANNELS, Filtered(m, p, PolesOf(before, i % CHANNELS), SampleAt(b.music, i)))
    else ducked
  }

  /** The memory after `n` samples; the step of the ramp is fixed at the beginning of the block. */
  function MemoryAfter(m: Maths, p: Profile, start: Memory, b: Block, n: nat): Memory {
    if n == 0 then start
    else Advance(m, p, StepFor(start.duck, Target(m, p, b.active), Ramp(p, b.active)), b,
                 MemoryAfter(m, p, start, b, n - 1), n - 1)
  }

  lemma AdvanceMemory(m: Maths, p: Profile, start: Memory, b: Block, i: nat)
    ensures MemoryAfter(m, p, start, b, i + 1)
         == Advance(m, p, StepFor(start.duck, Target(m, p, b.active), Ramp(p, b.active)), b,
                    MemoryAfter(m, p, start, b, i), i)
  {
  }

  /** Sample `i` before the limiter, given the memory right after it. */
  function Premixed(m: Maths, p: Profile, after: Memory, b: Block, i: nat): real {
    var music := SampleAt(b.music, i);
    (if Banded(p, b.active) then BandDucked(m, p, after.duck, PolesOf(after, i % CHANNELS), music)
     else Scale(music, after.duck))
    + Scale(SampleAt(b.announcement, i), m.gain(p.announcementGainDB))
  }

  function Premix(m: Maths, p: Profile, start: Memory, b: Block): seq<real> {
    seq(BlockLength(b), i requires i >= 0 => Premixed(m, p, MemoryAfter(m, p, start, b, i + 1), b, i))
  }

  function LimiterGain(m: Maths, p: Profile, gain: real, samples: seq<real>): real
    requires m.gain(p.limiterThresholdDB) > 0.0
  {
    NextGain(gain, Peak(samples), m.gain(p.limiterThresholdDB))
  }

  function AfterBlock(m: Maths, s: MixerState, b: Block): MixerState
    requires m.gain(s.profile.limiterThresholdDB) > 0.0
  {
    MixerState(s.profile,
               MemoryAfter(m, s.profile, s.memory, b, BlockLength(b)),
               LimiterGain(m, s.profile, s.limiterGain, Premix(m, s.profile, s.memory, b)))
  }

  function MixedBlock(m: Maths, s: MixerState, b: Block): seq<real>
    requires m.gain(s.profile.limiterThresholdDB) > 0.0
  {
    Limited(Premix(m, s.profile, s.memory, b), AfterBlock(m, s, b).limiterGain)
  }

  // ---------------------------------------------------------------- laws of one block

  /** The ducking gain moves as the ramp alone says, whatever the samples are. */
  lemma {:induction false} DuckIgnoresSamples(m: Maths, p: Profile, start: Memory, b: Block, n: nat)
    ensures MemoryAfter(m, p, start, b, n).duck
         == DuckRun(start.duck, Target(m, p, b.active),
                    StepFor(start.duck, Target(m, p, b.active), Ramp(p, b.active)), n)
  {
    if n > 0 {
      DuckIgnoresSamples(m, p, start, b, n - 1);
    }
  }

  /** So a block multiplies the distance to the target by max(0, 1 - L/R), monotonically. */
  lemma BlockDucks(m: Maths, p: Profile, start: Memory, b: Block, n: nat)
    ensures var target := Target(m, p, b.active);
            var after := MemoryAfter(m, p, start, b, n).duck;
            && Gap(target, after) == Gap(target, start.duck) * Left(n, Ramp(p, b.active))
            && (start.duck <= target ==> start.duck <= after <= target)
            && (target <= start.duck ==> target <= after <= start.duck)
  {
    DuckIgnoresSamples(m, p, start, b, n);
    DuckBlockLaw(start.duck, Target(m, p, b.active), Ramp(p, b.active), n);
  }

  /** The samples of one channel among the first `n` of an interleaved block. */
  function ChannelOf(music: seq<real>, channel: nat, n: nat): seq<real> {
    if n == 0 then []
    else ChannelOf(music, channel, n - 1) + (if (n - 1) % CHANNELS == channel then [SampleAt(music, n - 1)] else [])
  }

  /** A pair of one-pole filters over a mono signal. */
  function FilterRun(m: Maths, p: Profile, poles: Poles, inputs: seq<real>): Poles {
    if inputs == [] then poles
    else Filtered(m, p, FilterRun(m, p, poles, inputs[..|inputs| - 1]), inputs[|inputs| - 1])
  }

  /** Each channel's memory is what two mono filters make of that channel's samples alone; outside banded blocks
      it does not change. */
  lemma {:induction false} ChannelsAreIndependent(m: Maths, p: Profile, start: Memory, b: Block, n: nat, channel: nat)
    requires channel < CHANNELS
    ensures PolesOf(MemoryAfter(m, p, start, b, n), channel)
         == if Banded(p, b.active) then FilterRun(m, p, PolesOf(start, channel), ChannelOf(b.music, channel, n))
            else PolesOf(start, channel)
  {
    if n > 0 {
      ChannelsAreIndependent(m, p, start, b, n - 1, channel);
      var before := ChannelOf(b.music, channel, n - 1);
      if (n - 1) % CHANNELS == channel {
        var after := ChannelOf(b.music, channel, n);
        assert after[..|after| - 1] == before;
      } else {
        assert before + [] == before;
      }
    }
  }

  /** At rest the mixer is transparent: with the ducking ramp and the limiter fully open, no announcement, and music
      within the threshold, the block comes out as it went in and nothing changes. */
  lemma TransparentAtRest(m: Maths, s: MixerState, music: seq<real>)
    requires m.gain(s.profile.limiterThresholdDB) > 0.0 && s.memory.duck == 1.0 && s.limiterGain == 1.0
    requires music != [] && forall i :: 0 <= i < |music| ==> Abs(music[i]) <= m.gain(s.profile.limiterThresholdDB)
    requires m.gain(s.profile.limiterThresholdDB) <= 1.0
    ensures AfterBlock(m, s, Block(music, [], false)) == s
    ensures MixedBlock(m, s, Block(music, [], false)) == music
  {
    var b := Block(music, [], false);
    forall n ensures MemoryAfter(m, s.profile, s.memory, b, n) == s.memory {
      MemoryAtRest(m, s.profile, s.memory, b, n);
    }
    forall i | 0 <= i < |music|
      ensures Premix(m, s.profile, s.memory, b)[i] == music[i]
    {
      Unchanged(music[i], m.gain(s.profile.announcementGainDB));
    }
    assert Premix(m, s.profile, s.memory, b) == music;
    PeakBounds(music);
    hide Peak;
    assert TargetGain(Peak(music), m.gain(s.profile.limiterThresholdDB)) == 1.0;
    forall i | 0 <= i < |music| ensures Limited(music, 1.0)[i] == music[i] {
      Unchanged(music[i], 0.0);
    }
    assert Limited(music, 1.0) == music;
  }

  lemma Unchanged(x: real, g: real)
    ensures Scale(x, 1.0) == x && Scale(0.0, g) == 0.0
  {
  }

  lemma {:induction false} MemoryAtRest(m: Maths, p: Profile, start: Memory, b: Block, n: nat)
    requires !b.active && start.duck == 1.0
    ensures MemoryAfter(m, p, start, b, n) == start
  {
    if n > 0 {
      MemoryAtRest(m, p, start, b, n - 1);
      assert StepFor(1.0, 1.0, Ramp(p, false)) == 0.0;
    }
  }

  /** Over no music, with filters at rest, the announcement goes to the limiter with its own gain and nothing else,
      whatever the bands and the ducking ramp do. */
  lemma AnnouncementAlone(m: Maths, p: Profile, start: Memory, announcement: seq<real>, active: bool)
    requires start.left == Poles(0.0, 0.0) && start.right == Poles(0.0, 0.0) && announcement != []
    ensures var b := Block([], announcement, active);
            && |Premix(m, p, start, b)| == |announcement|
            && forall i :: 0 <= i < |announcement| ==>
                 Premix(m, p, start, b)[i] == Scale(announcement[i], m.gain(p.announcementGainDB))
  {
    var b := Block([], announcement, active);
    forall i | 0 <= i < |announcement|
      ensures Premix(m, p, start, b)[i] == Scale(announcement[i], m.gain(p.announcementGainDB))
    {
      FiltersStayAtRest(m, p, start, b, i + 1);
      hide MemoryAfter;
      var after := MemoryAfter(m, p, start, b, i + 1);
      SilentBands(BandGain(m, p.low, after.duck), BandGain(m, p.mid, after.duck), BandGain(m, p.high, after.duck));
      Unchanged(0.0, after.duck);
      hide Scale, BandGain, Weigh;
    }
  }

  lemma {:induction false} FiltersStayAtRest(m: Maths, p: Profile, start: Memory, b: Block, n: nat)
    requires start.left == Poles(0.0, 0.0) && start.right == Poles(0.0, 0.0) && b.music == []
    ensures var after := MemoryAfter(m, p, start, b, n); after.left == Poles(0.0, 0.0) && after.right == Poles(0.0, 0.0)
  {
    if n > 0 {
      FiltersStayAtRest(m, p, start, b, n - 1);
    }
  }

  lemma SilentBands(lowGain: real, midGain: real, highGain: real)
    ensures Weigh(0.0, 0.0, 0.0, lowGain, midGain, highGain) == 0.0
  {
  }

  // ---------------------------------------------------------------- what every run keeps

  ghost predicate MemoryWithin(m: Maths, s: Memory, bound: real) {
    0.0 <= s.duck <= m.gain(LOUDEST_DB) && Bounded(s.left, bound) && Bounded(s.right, bound)
  }

  /** What a run keeps while its music stays within `bound`. */
  ghost predicate Steady(m: Maths, s: MixerState, bound: real) {
    Ranged(s.profile) && MemoryWithin(m, s.memory, bound) && 0.0 < s.limiterGain <= 1.0
  }

  predicate Within(samples: seq<real>, bound: real) {
    forall i :: 0 <= i < |samples| ==> Abs(samples[i]) <= bound
  }

  lemma ThresholdInRange(m: Maths, p: Profile)
    requires Lawful(m) && Ranged(p)
    ensures 0.0 < m.gain(p.limiterThresholdDB) <= 1.0
  {
    assert m.gain(p.limiterThresholdDB) <= m.gain(0.0);
  }

  lemma TargetInRange(m: Maths, p: Profile, active: bool)
    requires Lawful(m) && Ranged(p)
    ensures 0.0 <= Target(m, p, active) <= m.gain(LOUDEST_DB)
  {
    assert m.gain(0.0) <= m.gain(LOUDEST_DB);
  }

  lemma {:induction false} MemoryStaysWithin(m: Maths, p: Profile, start: Memory, b: Block, n: nat, bound: real)
    requires Lawful(m) && Ranged(p) && MemoryWithin(m, start, bound) && Within(b.music, bound) && bound >= 0.0
    ensures MemoryWithin(m, MemoryAfter(m, p, start, b, n), bound)
  {
    TargetInRange(m, p, b.active);
    BlockDucks(m, p, start, b, n);
    if n > 0 {
      MemoryStaysWithin(m, p, start, b, n - 1, bound);
      var before := MemoryAfter(m, p, start, b, n - 1);
      var poles := PolesOf(before, (n - 1) % CHANNELS);
      FilterBounded(poles, m.alpha(p.lowCutHz), m.alpha(p.highCutHz), SampleAt(b.music, n - 1), bound);
    }
  }

  /** The gain of each band lies in the range of the ducking gain. */
  lemma BandGainInRange(m: Maths, band: Band, duck: real)
    requires Lawful(m) && band.gainDB <= LOUDEST_DB && 0.0 <= duck <= m.gain(LOUDEST_DB)
    ensures 0.0 <= BandGain(m, band, duck) <= m.gain(LOUDEST_DB)
  {
  }

  /** A band-split sample of music within B: the three bands add up to it, bands with equal gains only scale it,
      and the weighted sum stays within B (gLow + 2 gMid + 2 gHigh). */
  lemma BandDuckLaw(m: Maths, p: Profile, duck: real, before: Poles, input: real, bound: real)
    requires Lawful(m) && Ranged(p) && 0.0 <= duck <= m.gain(LOUDEST_DB)
    requires Bounded(before, bound) && Abs(input) <= bound
    ensures var after := Filtered(m, p, before, input);
            var low, mid, high := BandGain(m, p.low, duck), BandGain(m, p.mid, duck), BandGain(m, p.high, duck);
            && Bounded(after, bound)
            && LowBand(after) + MidBand(after, input) + HighBand(after, input) == input
            && (low == mid == high ==> BandDucked(m, p, duck, after, input) == Scale(input, mid))
            && Abs(BandDucked(m, p, duck, after, input)) <= BandBound(bound, low, mid, high)
  {
    BandGainInRange(m, p.low, duck);
    BandGainInRange(m, p.mid, duck);
    BandGainInRange(m, p.high, duck);
    assert 0.0 < m.alpha(p.lowCutHz) < 1.0 && 0.0 < m.alpha(p.highCutHz) < 1.0;
    hide Lawful, Bounded, Filter, Recombine, BandGain, Abs, BandBound, Scale;
    BandSplitLaw(before, m.alpha(p.lowCutHz), m.alpha(p.highCutHz), input, bound,
                 BandGain(m, p.low, duck), BandGain(m, p.mid, duck), BandGain(m, p.high, duck));
  }

  /** One block keeps the run steady, and nothing it puts out is louder than the threshold, which is at most full
      scale: the hard clip never changes a sample. */
  lemma BlockLaw(m: Maths, s: MixerState, b: Block, bound: real)
    requires Lawful(m) && Steady(m, s, bound) && Within(b.music, bound) && bound >= 0.0
    ensures 0.0 < m.gain(s.profile.limiterThresholdDB) <= 1.0
    ensures var after := AfterBlock(m, s, b);
            && Steady(m, after, bound)
            && ScaledWithin(MixedBlock(m, s, b), Premix(m, s.profile, s.memory, b), after.limiterGain,
                            m.gain(s.profile.limiterThresholdDB))
  {
    ThresholdInRange(m, s.profile);
    MemoryStaysWithin(m, s.profile, s.memory, b, BlockLength(b), bound);
    hide Lawful, MemoryWithin, MemoryAfter, Premix, NextGain, Ranged, ScaledWithin;
    LimiterBlockLaw(Premix(m, s.profile, s.memory, b), s.limiterGain, m.gain(s.profile.limiterThresholdDB));
  }

  // ---------------------------------------------------------------- runs

  datatype Call = SetProfile(profile: Profile) | Mix(block: Block)

  ghost predicate MusicWithin(calls: seq<Call>, bound: real) {
    forall i :: 0 <= i < |calls| && calls[i].Mix? ==> Within(calls[i].block.music, bound)
  }

  function Perform(m: Maths, s: MixerState, c: Call): MixerState
    requires m.gain(s.profile.limiterThresholdDB) > 0.0
  {
    match c
    case SetProfile(p) => s.(profile := Normalize(p))
    case Mix(b) => AfterBlock(m, s, b)
  }

  function AfterCalls(m: Maths, profile: Profile, calls: seq<Call>): MixerState
    requires forall x :: m.gain(x) > 0.0
  {
    if calls == [] then Fresh(profile)
    else Perform(m, AfterCalls(m, profile, calls[..|calls| - 1]), calls[|calls| - 1])
  }

  lemma {:induction false} RunStaysSteady(m: Maths, profile: Profile, calls: seq<Call>, bound: real)
    requires Lawful(m) && bound >= 0.0 && MusicWithin(calls, bound)
    ensures Steady(m, AfterCalls(m, profile, calls), bound)
  {
    if calls == [] {
      assert m.gain(0.0) <= m.gain(LOUDEST_DB);
    } else {
      var front, last := calls[..|calls| - 1], calls[|calls| - 1];
      RunStaysSteady(m, profile, front, bound);
      var s := AfterCalls(m, profile, front);
      match last
      case SetProfile(p) =>
        NormalizeRangeAndFixpoint(p);
      case Mix(b) =>
        assert calls[|calls| - 1].Mix?;
        BlockLaw(m, s, b, bound);
    }
  }

  /** Over any run of blocks and profile changes, from a new mixer: filter memory within the loudest music so far,
      ducking gain between 0 and the largest gain, limiter gain in (0, 1], and every sample of the next block is
      the limited premix and within the threshold in force, hence within full scale. */
  lemma EveryBlockIsSafe(m: Maths, profile: Profile, calls: seq<Call>, b: Block, bound: real)
    requires Lawful(m) && bound >= 0.0 && MusicWithin(calls, bound) && Within(b.music, bound)
    ensures var s := AfterCalls(m, profile, calls);
            var threshold := m.gain(s.profile.limiterThresholdDB);
            && Steady(m, s, bound)
            && 0.0 < threshold <= 1.0
            && ScaledWithin(MixedBlock(m, s, b), Premix(m, s.profile, s.memory, b),
                            AfterBlock(m, s, b).limiterGain, threshold)
  {
    RunStaysSteady(m, profile, calls, bound);
    BlockLaw(m, AfterCalls(m, profile, calls), b, bound);
  }

  /** Blocks mixed one after the other under one profile. */
  function AfterBlocks(m: Maths, s: MixerState, blocks: seq<Block>): (r: MixerState)
    requires m.gain(s.profile.limiterThresholdDB) > 0.0
    ensures r.profile == s.profile
  {
    if blocks == [] then s
    else AfterBlock(m, AfterBlocks(m, s, blocks[..|blocks| - 1]), blocks[|blocks| - 1])
  }

  predicate Alike(blocks: seq<Block>, active: bool, length: nat) {
    forall i :: 0 <= i < |blocks| ==> blocks[i].active == active && BlockLength(blocks[i]) == length
  }

  lemma {:induction false} DuckRunsBlockwise(m: Maths, s: MixerState, blocks: seq<Block>, active: bool, length: nat)
    requires m.gain(s.profile.limiterThresholdDB) > 0.0 && Alike(blocks, active, length)
    ensures AfterBlocks(m, s, blocks).memory.duck
         == DuckBlocks(s.memory.duck, Target(m, s.profile, active), Ramp(s.profile, active), length, |blocks|)
  {
    if blocks != [] {
      var front, last := blocks[..|blocks| - 1], blocks[|blocks| - 1];
      hide DuckRun, StepFor, LimiterGain, Target, Ramp, MemoryAfter;
      DuckRunsBlockwise(m, s, front, active, length);
      DuckIgnoresSamples(m, s.profile, AfterBlocks(m, s, front).memory, last, length);
    }
  }

  /** While the announcement stays on, or off, n blocks of L samples leave (1 - L/R)^n of the way to the target. */
  lemma DuckApproachesGeometrically(m: Maths, s: MixerState, blocks: seq<Block>, active: bool, length: nat)
    requires m.gain(s.profile.limiterThresholdDB) > 0.0 && Alike(blocks, active, length)
    ensures var target := Target(m, s.profile, active);
            Gap(target, AfterBlocks(m, s, blocks).memory.duck)
            == Gap(target, s.memory.duck) * Power(Left(length, Ramp(s.profile, active)), |blocks|)
  {
    hide Power, Left, Gap, AfterBlocks, DuckBlocks, Target, Ramp, Alike;
    DuckRunsBlockwise(m, s, blocks, active, length);
    DuckBlocksLaw(s.memory.duck, Target(m, s.profile, active), Ramp(s.profile, active), length, |blocks|);
  }

  /** The blocks as the limiter meets them. */
  function Unlimited(m: Maths, s: MixerState, blocks: seq<Block>): seq<LimiterInput>
    requires m.gain(s.profile.limiterThresholdDB) > 0.0
  {
    if blocks == [] then []
    else
      var front := blocks[..|blocks| - 1];
      Unlimited(m, s, front)
      + [LimiterInput(Premix(m, s.profile, AfterBlocks(m, s, front).memory, blocks[|blocks| - 1]),
                      m.gain(s.profile.limiterThresholdDB))]
  }

  lemma {:induction false} LimiterSeesPremix(m: Maths, s: MixerState, blocks: seq<Block>)
    requires 0.0 < m.gain(s.profile.limiterThresholdDB) <= 1.0
    ensures |Unlimited(m, s, blocks)| == |blocks| && GoodThresholds(Unlimited(m, s, blocks))
    ensures AfterBlocks(m, s, blocks).limiterGain == GainAfter(s.limiterGain, Unlimited(m, s, blocks))
  {
    if blocks != [] {
      hide NextGain, Peak, Premix;
      var front := blocks[..|blocks| - 1];
      LimiterSeesPremix(m, s, front);
      var all := Unlimited(m, s, blocks);
      assert all[..|all| - 1] == Unlimited(m, s, front);
    }
  }

  /** Blocks whose mix is below the threshold bring the limiter back by two percent of the way each. */
  lemma QuietBlocksRelease(m: Maths, s: MixerState, blocks: seq<Block>)
    requires 0.0 < m.gain(s.profile.limiterThresholdDB) <= 1.0 && 0.0 < s.limiterGain <= 1.0
    requires forall i :: 0 <= i < |Unlimited(m, s, blocks)| ==>
               Peak(Unlimited(m, s, blocks)[i].samples) <= m.gain(s.profile.limiterThresholdDB)
    ensures Gap(1.0, AfterBlocks(m, s, blocks).limiterGain) == Gap(1.0, s.limiterGain) * Power(0.98, |blocks|)
  {
    hide Power, Gap, GainAfter, Unlimited, AfterBlocks, Peak;
    LimiterSeesPremix(m, s, blocks);
    ThresholdsAgree(m, s, blocks);
    LimiterRecovers(s.limiterGain, Unlimited(m, s, blocks));
  }

  lemma {:induction false} ThresholdsAgree(m: Maths, s: MixerState, blocks: seq<Block>)
    requires m.gain(s.profile.limiterThresholdDB) > 0.0
    ensures forall i :: 0 <= i < |Unlimited(m, s, blocks)| ==>
              Unlimited(m, s, blocks)[i].threshold == m.gain(s.profile.limiterThresholdDB)
  {
    if blocks != [] {
      hide Premix;
      ThresholdsAgree(m, s, blocks[..|blocks| - 1]);
    }
  }

  // ---------------------------------------------------------------- the object

  class Mixer {
    const maths: Maths
    const lowState: array<real>
    const highLowState: array<real>
    var profile: Profile
    var duck: real
    var limiterGain: real

    ghost predicate Valid()
      reads this
    {
      lowState.Length == CHANNELS && highLowState.Length == CHANNELS && lowState != highLowState
      && Lawful(maths) && Ranged(profile)
    }

    ghost function Channel(c: nat): Poles
      requires Valid() && c < CHANNELS
      reads this, lowState, highLowState
    {
      Poles(lowState[c], highLowState[c])
    }

    ghost function Remembered(): Memory
      requires Valid()
      reads this, lowState, highLowState
    {
      Memory(duck, Channel(0), Channel(1))
    }

    ghost function State(): MixerState
      requires Valid()
      reads this, lowState, highLowState
    {
      MixerState(profile, Remembered(), limiterGain)
    }

    constructor (maths: Maths, profile: Profile)
      requires Lawful(maths)
      ensures Valid() && fresh(lowState) && fresh(highLowState) && this.maths == maths
      ensures State() == Fresh(profile)
    {
      this.maths := maths;
      this.profile := Normalize(profile);
      duck := 0.0;
      limiterGain := 1.0;
      lowState := new real[CHANNELS](_ => 0.0);
      highLowState := new real[CHANNELS](_ => 0.0);
      new;
      NormalizeRangeAndFixpoint(profile);
    }

    /** Filter memory, ramp and limiter carry on across a change of profile. */
    method SetProfile(profile: Profile)
      requires Valid()
      modifies this
      ensures Valid() && State() == old(State()).(profile := Normalize(profile))
    {
      this.profile := Normalize(profile);
      NormalizeRangeAndFixpoint(profile);
    }

    method BandDuck(channel: nat, input: real) returns (r: real)
      requires Valid() && channel < CHANNELS
      modifies lowState, highLowState
      ensures Valid()
      ensures Remembered()
           == WithPoles(old(Remembered()), channel, Filtered(maths, profile, old(Channel(channel)), input))
      ensures r == BandDucked(maths, profile, duck, Channel(channel), input)
    {
      hide OnePole, Weigh, Lawful;
      var lowAlpha := maths.alpha(profile.lowCutHz);
      var highAlpha := maths.alpha(profile.highCutHz);
      lowState[channel] := OnePole(lowState[channel], lowAlpha, input);
      highLowState[channel] := OnePole(highLowState[channel], highAlpha, input);
      var low := lowState[channel];
      var high := input - highLowState[channel];
      var mid := input - low - high;
      var lowGain, midGain, highGain := duck, duck, duck;
      if profile.low.enabled { lowGain := maths.gain(profile.low.gainDB); }
      if profile.mid.enabled { midGain := maths.gain(profile.mid.gainDB); }
      if profile.high.enabled { highGain := maths.gain(profile.high.gainDB); }
      r := Weigh(low, mid, high, lowGain, midGain, highGain);
    }

    static method PeakOf(samples: array<real>) returns (peak: real)
      ensures peak == Peak(samples[..])
    {
      hide Abs;
      peak := 0.0;
      for i := 0 to samples.Length
        invariant peak == Peak(samples[..i])
      {
        assert samples[..i + 1][..i] == samples[..i];
        var absolute := Abs(samples[i]);
        if absolute > peak { peak := absolute; }
      }
      assert samples[..samples.Length] == samples[..];
    }

    static method ScaleAndClip(samples: array<real>, gain: real)
      modifies samples
      ensures samples[..] == Limited(old(samples[..]), gain)
    {
      hide Scale;
      for i := 0 to samples.Length
        invariant forall k :: 0 <= k < i ==> samples[k] == LimitSample(old(samples[k]), gain)
        invariant forall k :: i <= k < samples.Length ==> samples[k] == old(samples[k])
      {
        samples[i] := Scale(samples[i], gain);
        if samples[i] > 1.0 { samples[i] := 1.0; }
        if samples[i] < -1.0 { samples[i] := -1.0; }
      }
    }

    /** One turn of the loop in `Mix`. */
    method MixSample(ghost block: Block, i: nat, musicIn: real, announcementSample: real,
                     active: bool, target: real, step: real, announcementGain: real) returns (out: real)
      requires Valid() && musicIn == SampleAt(block.music, i)
      requires announcementSample == SampleAt(block.announcement, i) && active == block.active
      requires target == Target(maths, profile, active) && announcementGain == maths.gain(profile.announcementGainDB)
      modifies this`duck, lowState, highLowState
      ensures Valid()
      ensures Remembered() == Advance(maths, profile, step, block, old(Remembered()), i)
      ensures out == Premixed(maths, profile, Remembered(), block, i)
    {
      hide Scale, Lawful, BandDucked, Filtered;
      if (step > 0.0 && duck < target) || (step < 0.0 && duck > target) {
        duck := duck + step;
      } else {
        duck := target;
      }
      var musicSample := musicIn;
      if active && (profile.low.enabled || profile.mid.enabled || profile.high.enabled) {
        musicSample := BandDuck(i % CHANNELS, musicSample);
      } else {
        musicSample := Scale(musicSample, duck);
      }
      out := musicSample + Scale(announcementSample, announcementGain);
    }

    method Limit(samples: array<real>)
      requires Valid() && samples != lowState && samples != highLowState
      modifies this`limiterGain, samples
      ensures Valid()
      ensures limiterGain == LimiterGain(maths, profile, old(limiterGain), old(samples[..]))
      ensures samples[..] == Limited(old(samples[..]), limiterGain)
    {
      assert maths.gain(profile.limiterThresholdDB) > 0.0;
      hide Scale, Lawful, Abs, Released, Attenuation;
      var threshold := maths.gain(profile.limiterThresholdDB);
      var peak := PeakOf(samples);
      hide Peak;
      var targetGain := 1.0;
      if peak > threshold && peak > 0.0 { targetGain := Attenuation(peak, threshold); }
      if targetGain < limiterGain {
        limiterGain := targetGain;
      } else {
        limiterGain := Released(limiterGain, targetGain);
      }
      ScaleAndClip(samples, limiterGain);
    }

    method Mix(music: seq<real>, announcement: seq<real>, active: bool) returns (out: array<real>)
      requires Valid()
      modifies this`duck, this`limiterGain, lowState, highLowState
      ensures Valid() && fresh(out)
      ensures old(maths.gain(profile.limiterThresholdDB)) > 0.0
      ensures State() == AfterBlock(maths, old(State()), Block(music, announcement, active))
      ensures out[..] == MixedBlock(maths, old(State()), Block(music, announcement, active))
    {
      assert maths.gain(profile.limiterThresholdDB) > 0.0;
      hide Lawful, Peak, NextGain, Limited, Ranged, MemoryAfter, Premix;
      out := BeforeLimiter(music, announcement, active);
      Limit(out);
    }

    /** All of `Mix` but its last call. */
    method BeforeLimiter(music: seq<real>, announcement: seq<real>, active: bool) returns (out: array<real>)
      requires Valid()
      modifies this`duck, lowState, highLowState
      ensures Valid() && fresh(out)
      ensures var block := Block(music, announcement, active);
              && Remembered() == MemoryAfter(maths, profile, old(Remembered()), block, BlockLength(block))
              && out[..] == Premix(maths, profile, old(Remembered()), block)
    {
      hide Lawful, StepFor;
      ghost var start, block := Remembered(), Block(music, announcement, active);
      var length := |music|;
      if |announcement| > length { length := |announcement|; }
      if length == 0 { length := BLOCK_SAMPLES; }
      out := new real[length];
      var target := 1.0;
      var rampMS := profile.releaseMS;
      if active {
        target := maths.gain(profile.musicGainDB);
        rampMS := profile.attackMS;
      }
      var step := StepFor(duck, target, RampSamples(rampMS));
      var announcementGain := maths.gain(profile.announcementGainDB);
      assert step == StepFor(start.duck, Target(maths, profile, active), Ramp(profile, active));
      assert target == Target(maths, profile, active);
      hide Target, Ramp, Premixed, Advance;
      for i := 0 to length
        invariant Valid()
        invariant Remembered() == MemoryAfter(maths, profile, start, block, i)
        invariant forall k :: 0 <= k < i ==>
                    out[k] == Premixed(maths, profile, MemoryAfter(maths, profile, start, block, k + 1), block, k)
      {
        hide MemoryAfter;
        var musicSample, announcementSample := 0.0, 0.0;
        if i < |music| { musicSample := music[i]; }
        if i < |announcement| { announcementSample := announcement[i]; }
        var sample := MixSample(block, i, musicSample, announcementSample, active, target, step, announcementGain);
        AdvanceMemory(maths, profile, start, block, i);
        out[i] := sample;
      }
      assert out[..] == Premix(maths, profile, start, block);
    }
  }

  // ---------------------------------------------------------------- transitions

  lemma SilenceScaled(gain: real)
    ensures Scale(0.0, gain) == 0.0
  {
  }

  method ApplyTransition(m: Maths, current: seq<real>, next: seq<real>, progress: real, linear: bool)
      returns (out: array<real>)
    ensures fresh(out) && out[..] == Crossfaded(m, current, next, progress, linear)
  {
    hide Scale;
    var length := |current|;
    if |next| > length { length := |next|; }
    out := new real[length](_ => 0.0);
    var p := Clamp(progress, 0.0, 1.0);
    var currentGain, nextGain := 1.0 - p, p;
    if !linear {
      currentGain := m.cos(p);
      nextGain := m.sin(p);
    }
    for i := 0 to length
      invariant forall k :: 0 <= k < i ==>
                  out[k] == Blend(SampleAt(current, k), currentGain, SampleAt(next, k), nextGain)
      invariant forall k :: i <= k < length ==> out[k] == 0.0
    {
      SilenceScaled(currentGain);
      SilenceScaled(nextGain);
      if i < |current| { out[i] := out[i] + Scale(current[i], currentGain); }
      if i < |next| { out[i] := out[i] + Scale(next[i], nextGain); }
    }
  }

  function FadeGain(m: Maths, progress: real, fadeIn: bool, linear: bool): real {
    if linear then (if fadeIn then progress else 1.0 - progress)
    else
      var p := Clamp(progress, 0.0, 1.0);
      if fadeIn then m.sin(p) else m.cos(p)
  }

  function Faded(m: Maths, samples: seq<real>, progress: real, fadeIn: bool, linear: bool): seq<real> {
    seq(|samples|, i requires 0 <= i < |samples| => Scale(samples[i], FadeGain(m, progress, fadeIn, linear)))
  }

  method Fade(m: Maths, samples: seq<real>, progress: real, fadeIn: bool, linear: bool) returns (out: array<real>)
    ensures fresh(out) && out[..] == Faded(m, samples, progress, fadeIn, linear)
  {
    hide Scale;
    var gain;
    if fadeIn {
      if linear { gain := progress; } else { gain := m.sin(Clamp(progress, 0.0, 1.0)); }
    } else if linear {
      gain := 1.0 - progress;
    } else {
      gain := m.cos(Clamp(progress, 0.0, 1.0));
    }
    out := new real[|samples|];
    for i := 0 to |samples|
      invariant forall k :: 0 <= k < i ==> out[k] == Scale(samples[k], gain)
    {
      out[i] := Scale(samples[i], gain);
    }
  }

  predicate Silent(samples: seq<real>) {
    forall i :: 0 <= i < |samples| ==> samples[i] == 0.0
  }

  /** Fading out is crossfading into silence and fading in is crossfading out of it, unless the curve is linear
      and progress lies outside [0, 1]: a linear fade is not clamped, and then only silence fades alike. */
  lemma FadeIsHalfACrossfade(m: Maths, samples: seq<real>, progress: real, fadeIn: bool, linear: bool)
    ensures Faded(m, samples, progress, fadeIn, linear)
            == (if fadeIn then Crossfaded(m, [], samples, progress, linear)
                else Crossfaded(m, samples, [], progress, linear))
       <==> !linear || 0.0 <= progress <= 1.0 || Silent(samples)
  {
    var faded := Faded(m, samples, progress, fadeIn, linear);
    var crossed := if fadeIn then Crossfaded(m, [], samples, progress, linear)
                   else Crossfaded(m, samples, [], progress, linear);
    var p := Clamp(progress, 0.0, 1.0);
    var clamped := if fadeIn then NextGainOf(m, p, linear) else CurrentGain(m, p, linear);
    var gain := FadeGain(m, progress, fadeIn, linear);
    hide Scale, Blend;
    forall i | 0 <= i < |samples|
      ensures faded[i] == crossed[i] <==> gain == clamped || samples[i] == 0.0
    {
      var other := if fadeIn then CurrentGain(m, p, linear) else NextGainOf(m, p, linear);
      WithSilence(samples[i], clamped, other);
      SameProduct(samples[i], gain, clamped);
    }
    if faded == crossed && gain != clamped {
      forall i | 0 <= i < |samples| ensures samples[i] == 0.0 {
        assert faded[i] == crossed[i];
      }
    }
  }

  lemma WithSilence(x: real, a: real, b: real)
    ensures Blend(x, a, 0.0, b) == Scale(x, a) && Blend(0.0, b, x, a) == Scale(x, a)
  {
  }

  lemma SameProduct(x: real, a: real, b: real)
    ensures Scale(x, a) == Scale(x, b) <==> a == b || x == 0.0
  {
    assert x * a - x * b == x * (a - b);
  }
}
