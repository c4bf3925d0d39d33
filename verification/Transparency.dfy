/** How far the mixer is from letting music through unchanged (internal/audio/dsp.go). A new mixer starts silent and
    fades in, so under the usual release it never becomes exactly transparent; but the error of an unducked, unlimited
    block vanishes geometrically. */
module Transparency {
  import opened Common
  import opened Dsp
  import opened Mixing

  function Distance(x: real, y: real): real {
    Abs(x - y)
  }

  /** How much a sample within `bound` can be off when its gain is off by that much. */
  function ErrorBound(bound: real, duckGap: real, limiterGap: real): real {
    bound * (duckGap + limiterGap)
  }

  function Plain(music: seq<real>): Block {
    Block(music, [], false)
  }

  // ---------------------------------------------------------------- one sample

  /** A sample under two gains, the second at most 1. */
  lemma TwoGains(x: real, duck: real, gain: real, bound: real, duckGap: real, limiterGap: real)
    requires Abs(x) <= bound && 0.0 <= gain <= 1.0 && 1.0 - gain <= limiterGap && Abs(1.0 - duck) <= duckGap
    ensures Distance(Scale(Scale(x, duck), gain), x) <= ErrorBound(bound, duckGap, limiterGap)
  {
    hide Scale, ErrorBound, TotalOff, Abs;
    TotalOffBound(duck, gain, duckGap, limiterGap);
    GainsApart(x, duck, gain);
    ScaledError(x, TotalOff(duck, gain), bound, duckGap, limiterGap);
  }

  /** How far two gains together are from 1. */
  function TotalOff(duck: real, gain: real): real {
    Scale(1.0 - duck, gain) + (1.0 - gain)
  }

  lemma TotalOffBound(duck: real, gain: real, duckGap: real, limiterGap: real)
    requires 0.0 <= gain <= 1.0 && 1.0 - gain <= limiterGap && Abs(1.0 - duck) <= duckGap
    ensures Abs(TotalOff(duck, gain)) <= duckGap + limiterGap
  {
    FractionOf(1.0 - duck, gain);
    hide Scale;
  }

  lemma FractionOf(x: real, gain: real)
    requires 0.0 <= gain <= 1.0
    ensures Abs(Scale(x, gain)) <= Abs(x)
  {
    AbsIsNonNegative(x);
    hide Abs;
    AbsScale(x, gain, Abs(x));
    MulMono(gain, 1.0, Abs(x));
  }

  lemma AbsIsNonNegative(x: real)
    ensures Abs(x) >= 0.0
  {
  }

  lemma GainsApart(x: real, duck: real, gain: real)
    ensures Distance(Scale(Scale(x, duck), gain), x) == Abs(Scale(x, TotalOff(duck, gain)))
  {
    hide Scale, TotalOff;
    TotalOffIs(duck, gain, duck * gain);
    ScaleTwice(x, duck, gain, duck * gain);
    ScaleRest(x, duck * gain);
  }

  lemma TotalOffIs(duck: real, gain: real, d: real)
    requires d == duck * gain
    ensures TotalOff(duck, gain) == 1.0 - d
  {
    assert (1.0 - duck) * gain == gain - d;
  }

  lemma ScaleTwice(x: real, duck: real, gain: real, d: real)
    requires d == duck * gain
    ensures Scale(Scale(x, duck), gain) == Scale(x, d)
  {
    MulAssoc(x, duck, gain);
  }

  lemma ScaleRest(x: real, d: real)
    ensures Scale(x, 1.0 - d) == x - Scale(x, d)
  {
  }

  lemma ScaledError(x: real, e: real, bound: real, duckGap: real, limiterGap: real)
    requires Abs(x) <= bound && Abs(e) <= duckGap + limiterGap
    ensures Abs(Scale(x, e)) <= ErrorBound(bound, duckGap, limiterGap)
  {
    ProductWithin(x, e, bound, duckGap + limiterGap);
  }

  lemma ProductWithin(x: real, e: real, bound: real, limit: real)
    requires Abs(x) <= bound && Abs(e) <= limit
    ensures Abs(x * e) <= bound * limit
  {
    if e >= 0.0 {
      AbsScale(x, e, bound);
    } else {
      AbsScale(x, -e, bound);
      Negate(x, e);
    }
    MulMono(Abs(e), limit, bound);
  }

  // ---------------------------------------------------------------- one block

  predicate QuietFor(music: seq<real>, duck: real, bound: real, threshold: real) {
    Within(music, bound) && bound >= 0.0 && duck >= 0.0 && Loudest(bound, if duck > 1.0 then duck else 1.0) <= threshold
  }

  /** The duck gain of an unducked block stays between where it was and 1. */
  lemma DuckBetween(m: Maths, p: Profile, start: Memory, music: seq<real>, n: nat)
    requires start.duck >= 0.0
    ensures var duck := MemoryAfter(m, p, start, Plain(music), n).duck;
            && 0.0 <= duck && (duck <= 1.0 || duck <= start.duck) && Abs(1.0 - duck) <= Abs(1.0 - start.duck)
  {
    BlockDucks(m, p, start, Plain(music), n);
    hide MemoryAfter, Gap, Left;
  }

  lemma PlainSample(m: Maths, p: Profile, start: Memory, music: seq<real>, i: nat)
    requires i < |music|
    ensures |Premix(m, p, start, Plain(music))| == |music|
    ensures Premix(m, p, start, Plain(music))[i] == Scale(music[i], MemoryAfter(m, p, start, Plain(music), i + 1).duck)
  {
    Unchanged(music[i], m.gain(p.announcementGainDB));
    hide MemoryAfter, Scale;
  }

  lemma LouderGain(x: real, bound: real, duck: real, top: real, threshold: real)
    requires Abs(x) <= bound && 0.0 <= duck <= top && Loudest(bound, top) <= threshold
    ensures Abs(Scale(x, duck)) <= threshold
  {
    AbsScale(x, duck, bound);
    MulMono(duck, top, bound);
  }

  /** Unducked music that is quiet enough reaches the limiter below its threshold. */
  lemma QuietPremix(m: Maths, p: Profile, start: Memory, music: seq<real>, bound: real, threshold: real)
    requires music != [] && QuietFor(music, start.duck, bound, threshold) && threshold > 0.0
    ensures Peak(Premix(m, p, start, Plain(music))) <= threshold
  {
    var premix := Premix(m, p, start, Plain(music));
    var top := if start.duck > 1.0 then start.duck else 1.0;
    PeakBounds(premix);
    LengthOfPlain(m, p, start, music);
    hide Premix, Peak, MemoryAfter, Scale, Abs, Loudest;
    forall i | 0 <= i < |premix| ensures Abs(premix[i]) <= threshold {
      PlainSample(m, p, start, music, i);
      DuckBetween(m, p, start, music, i + 1);
      LouderGain(music[i], bound, MemoryAfter(m, p, start, Plain(music), i + 1).duck, top, threshold);
    }
  }

  lemma LengthOfPlain(m: Maths, p: Profile, start: Memory, music: seq<real>)
    requires music != []
    ensures |Premix(m, p, start, Plain(music))| == |music|
  {
  }

  /** From any state, every sample of an unducked quiet block is off by at most the bound times how far the two gains
      are from 1 when the block begins. */
  lemma ErrorOfBlock(m: Maths, s: MixerState, music: seq<real>, bound: real, i: nat)
    requires 0.0 < m.gain(s.profile.limiterThresholdDB) <= 1.0 && 0.0 < s.limiterGain <= 1.0 && i < |music|
    requires QuietFor(music, s.memory.duck, bound, m.gain(s.profile.limiterThresholdDB))
    ensures |MixedBlock(m, s, Plain(music))| == |music|
    ensures Distance(MixedBlock(m, s, Plain(music))[i], music[i])
         <= ErrorBound(bound, Abs(Gap(1.0, s.memory.duck)), Gap(1.0, s.limiterGain))
  {
    var threshold := m.gain(s.profile.limiterThresholdDB);
    var premix := Premix(m, s.profile, s.memory, Plain(music));
    var gain := AfterBlock(m, s, Plain(music)).limiterGain;
    var duck := MemoryAfter(m, s.profile, s.memory, Plain(music), i + 1).duck;
    QuietPremix(m, s.profile, s.memory, music, bound, threshold);
    PlainSample(m, s.profile, s.memory, music, i);
    DuckBetween(m, s.profile, s.memory, music, i + 1);
    LimiterBlockLaw(premix, s.limiterGain, threshold);
    PeakBounds(premix);
    hide Premix, MemoryAfter, Peak, Scale, ErrorBound, Loudest;
    QuietRelease(s.limiterGain, Peak(premix), threshold);
    UnlimitedSample(premix, gain, threshold, i);
    TwoGains(music[i], duck, gain, bound, Abs(1.0 - s.memory.duck), 1.0 - s.limiterGain);
  }

  lemma UnlimitedSample(samples: seq<real>, gain: real, threshold: real, i: nat)
    requires ScaledWithin(Limited(samples, gain), samples, gain, threshold) && i < |samples|
    ensures Limited(samples, gain)[i] == Scale(samples[i], gain)
  {
    hide LimitSample, Abs;
  }

  /** Below the threshold the limiter gain does not fall. */
  lemma QuietRelease(gain: real, peak: real, threshold: real)
    requires 0.0 < gain <= 1.0 && threshold > 0.0 && peak <= threshold
    ensures gain <= NextGain(gain, peak, threshold) <= 1.0
  {
  }

  // ---------------------------------------------------------------- runs

  predicate PlainRun(blocks: seq<Block>, length: nat, bound: real) {
    forall i :: 0 <= i < |blocks| ==>
      && blocks[i] == Plain(blocks[i].music) && |blocks[i].music| == length > 0 && Within(blocks[i].music, bound)
  }

  lemma {:induction false} PlainRunIsQuiet(m: Maths, s: MixerState, blocks: seq<Block>, length: nat, bound: real)
    requires PlainRun(blocks, length, bound) && m.gain(s.profile.limiterThresholdDB) > 0.0
    requires QuietFor([], s.memory.duck, bound, m.gain(s.profile.limiterThresholdDB))
    ensures QuietFor([], AfterBlocks(m, s, blocks).memory.duck, bound, m.gain(s.profile.limiterThresholdDB))
    ensures forall i :: 0 <= i < |Unlimited(m, s, blocks)| ==>
              Peak(Unlimited(m, s, blocks)[i].samples) <= m.gain(s.profile.limiterThresholdDB)
  {
    var threshold := m.gain(s.profile.limiterThresholdDB);
    if blocks != [] {
      var front, last := blocks[..|blocks| - 1], blocks[|blocks| - 1];
      PlainRunIsQuiet(m, s, front, length, bound);
      var before := AfterBlocks(m, s, front);
      QuietPremix(m, s.profile, before.memory, last.music, bound, threshold);
      DuckBetween(m, s.profile, before.memory, last.music, BlockLength(last));
      hide Premix, MemoryAfter, Peak, LimiterGain, Loudest;
      StillQuiet(bound, before.memory.duck, AfterBlocks(m, s, blocks).memory.duck, threshold);
    }
  }

  lemma StillQuiet(bound: real, before: real, after: real, threshold: real)
    requires QuietFor([], before, bound, threshold) && after >= 0.0 && (after <= 1.0 || after <= before)
    ensures QuietFor([], after, bound, threshold)
  {
    MulMono(if after > 1.0 then after else 1.0, if before > 1.0 then before else 1.0, bound);
  }

  /** From any state with limiter gain in (0, 1], and so from any reachable one: after n unducked blocks of L samples,
      none louder than the threshold allows, the next block is off by at most
      B (|1 - duck| max(0, 1 - L/R)^n + (1 - gain) 0.98^n). The error vanishes, although it need never be zero. */
  lemma ErrorVanishes(m: Maths, s: MixerState, blocks: seq<Block>, length: nat, music: seq<real>, bound: real, i: nat)
    requires 0.0 < m.gain(s.profile.limiterThresholdDB) <= 1.0 && 0.0 < s.limiterGain <= 1.0 && i < |music|
    requires PlainRun(blocks, length, bound)
    requires QuietFor(music, s.memory.duck, bound, m.gain(s.profile.limiterThresholdDB))
    ensures var t := AfterBlocks(m, s, blocks);
            var n := |blocks|;
            && |MixedBlock(m, t, Plain(music))| == |music|
            && Distance(MixedBlock(m, t, Plain(music))[i], music[i])
               <= ErrorBound(bound, Shrunk(Abs(Gap(1.0, s.memory.duck)), Left(length, Ramp(s.profile, false)), n),
                             Shrunk(Gap(1.0, s.limiterGain), 0.98, n))
  {
    var t, n := AfterBlocks(m, s, blocks), |blocks|;
    var left := Left(length, Ramp(s.profile, false));
    hide AfterBlocks, MixedBlock, Unlimited, Peak, Shrunk, Left, Ramp, ErrorBound, Loudest, PlainRun, Alike,
         Distance, Abs, Gap;
    PlainRunIsQuiet(m, s, blocks, length, bound);
    LimiterStays(m, s, blocks);
    PlainRunIsAlike(blocks, length, bound);
    LimiterShrinks(m, s, blocks);
    DuckShrinks(m, s, blocks, length);
    ErrorOfBlock(m, t, music, bound, i);
  }

  /** What is left of a gap that shrinks by a factor n times. */
  function Shrunk(gap: real, factor: real, n: nat): real {
    gap * Power(factor, n)
  }

  lemma LimiterShrinks(m: Maths, s: MixerState, blocks: seq<Block>)
    requires 0.0 < m.gain(s.profile.limiterThresholdDB) <= 1.0 && 0.0 < s.limiterGain <= 1.0
    requires forall i :: 0 <= i < |Unlimited(m, s, blocks)| ==>
               Peak(Unlimited(m, s, blocks)[i].samples) <= m.gain(s.profile.limiterThresholdDB)
    ensures Gap(1.0, AfterBlocks(m, s, blocks).limiterGain) == Shrunk(Gap(1.0, s.limiterGain), 0.98, |blocks|)
  {
    hide AfterBlocks, Unlimited, Peak, Gap;
    QuietBlocksRelease(m, s, blocks);
  }

  lemma DuckShrinks(m: Maths, s: MixerState, blocks: seq<Block>, length: nat)
    requires m.gain(s.profile.limiterThresholdDB) > 0.0 && Alike(blocks, false, length)
    ensures Abs(Gap(1.0, AfterBlocks(m, s, blocks).memory.duck))
         == Shrunk(Abs(Gap(1.0, s.memory.duck)), Left(length, Ramp(s.profile, false)), |blocks|)
  {
    hide AfterBlocks, Alike, Gap, Abs, Left, Ramp;
    var left := Left(length, Ramp(s.profile, false));
    DuckApproachesGeometrically(m, s, blocks, false, length);
    assert Target(m, s.profile, false) == 1.0;
    LeftIsNonNegative(length, Ramp(s.profile, false));
    hide Power, Shrunk;
    AbsShrunk(Gap(1.0, s.memory.duck), Gap(1.0, AfterBlocks(m, s, blocks).memory.duck), left, |blocks|);
  }

  lemma LimiterStays(m: Maths, s: MixerState, blocks: seq<Block>)
    requires 0.0 < m.gain(s.profile.limiterThresholdDB) <= 1.0 && 0.0 < s.limiterGain <= 1.0
    ensures 0.0 < AfterBlocks(m, s, blocks).limiterGain <= 1.0
  {
    LimiterSeesPremix(m, s, blocks);
    LimiterGainInRange(s.limiterGain, Unlimited(m, s, blocks));
  }

  lemma PlainRunIsAlike(blocks: seq<Block>, length: nat, bound: real)
    requires PlainRun(blocks, length, bound)
    ensures Alike(blocks, false, length)
  {
  }

  lemma LeftIsNonNegative(n: nat, ramp: nat)
    requires ramp > 0
    ensures Left(n, ramp) >= 0.0
  {
    if n < ramp { FractionBounds(n as real, ramp as real); }
  }

  lemma {:induction false} PowerIsNonNegative(x: real, n: nat)
    requires x >= 0.0
    ensures Power(x, n) >= 0.0
  {
    if n > 0 {
      PowerIsNonNegative(x, n - 1);
      MulMono(0.0, x, Power(x, n - 1));
    }
  }

  lemma AbsShrunk(gap: real, after: real, x: real, n: nat)
    requires x >= 0.0 && after == gap * Power(x, n)
    ensures Abs(after) == Shrunk(Abs(gap), x, n)
  {
    PowerIsNonNegative(x, n);
    AbsTimes(gap, Power(x, n));
  }

  lemma AbsTimes(x: real, y: real)
    requires y >= 0.0
    ensures Abs(x * y) == Abs(x) * y
  {
    if x < 0.0 {
      Negate(y, x);
      MulMono(x, 0.0, y);
    } else {
      MulMono(0.0, x, y);
    }
  }

  // ---------------------------------------------------------------- exactly transparent

  /** Under a normalised profile, and with gains as a fade-in from silence leaves them, music that begins with a sound
      within the threshold passes unchanged exactly if both gains are fully open; and then the state stays as it is. */
  lemma TransparentExactlyAtRest(m: Maths, s: MixerState, music: seq<real>)
    requires Ranged(s.profile) && 0.0 < m.gain(s.profile.limiterThresholdDB) <= 1.0
    requires 0.0 <= s.memory.duck <= 1.0 && 0.0 < s.limiterGain <= 1.0
    requires music != [] && music[0] != 0.0 && Within(music, m.gain(s.profile.limiterThresholdDB))
    ensures MixedBlock(m, s, Plain(music)) == music <==> s.memory.duck == 1.0 && s.limiterGain == 1.0
    ensures s.memory.duck == 1.0 && s.limiterGain == 1.0 ==> AfterBlock(m, s, Plain(music)) == s
  {
    if s.memory.duck == 1.0 && s.limiterGain == 1.0 {
      TransparentAtRest(m, s, music);
    } else {
      FirstSampleFades(m, s, music);
    }
  }

  lemma FirstSampleFades(m: Maths, s: MixerState, music: seq<real>)
    requires Ranged(s.profile) && 0.0 < m.gain(s.profile.limiterThresholdDB) <= 1.0
    requires 0.0 <= s.memory.duck <= 1.0 && 0.0 < s.limiterGain <= 1.0
    requires s.memory.duck < 1.0 || s.limiterGain < 1.0
    requires music != [] && music[0] != 0.0 && Within(music, m.gain(s.profile.limiterThresholdDB))
    ensures MixedBlock(m, s, Plain(music)) != music
  {
    var threshold := m.gain(s.profile.limiterThresholdDB);
    var premix := Premix(m, s.profile, s.memory, Plain(music));
    var gain := AfterBlock(m, s, Plain(music)).limiterGain;
    var duck := MemoryAfter(m, s.profile, s.memory, Plain(music), 1).duck;
    assert Loudest(threshold, 1.0) <= threshold;
    QuietPremix(m, s.profile, s.memory, music, threshold, threshold);
    PlainSample(m, s.profile, s.memory, music, 0);
    FirstStep(m, s.profile, s.memory, music);
    LimiterBlockLaw(premix, s.limiterGain, threshold);
    PeakBounds(premix);
    SlowRelease(s.limiterGain, Peak(premix), threshold);
    UnlimitedSample(premix, gain, threshold, 0);
    hide Premix, MemoryAfter, Peak, Scale, Loudest, NextGain;
    Fades(music[0], duck, gain);
  }

  /** The ramp takes more than one sample, so its first step does not complete it. */
  lemma FirstStep(m: Maths, p: Profile, start: Memory, music: seq<real>)
    requires Ranged(p) && 0.0 <= start.duck <= 1.0
    ensures var duck := MemoryAfter(m, p, start, Plain(music), 1).duck;
            0.0 <= duck <= 1.0 && (start.duck < 1.0 ==> duck < 1.0)
  {
    BlockDucks(m, p, start, Plain(music), 1);
    var ramp := Ramp(p, false);
    assert ramp > 1;
    var left := Left(1, ramp);
    hide MemoryAfter, Ramp;
    FractionBounds(1.0, ramp as real);
    OneOf(ramp);
    if start.duck < 1.0 { MulStrict(0.0, Gap(1.0, start.duck), left); }
  }

  lemma OneOf(ramp: nat)
    requires ramp > 1
    ensures Left(1, ramp) > 0.0
  {
    var r := ramp as real;
    MulDiv(1.0, 1.0, r);
    if 1.0 / r >= 1.0 { MulMono(1.0, 1.0 / r, r); }
  }

  lemma SlowRelease(gain: real, peak: real, threshold: real)
    requires 0.0 < gain <= 1.0 && threshold > 0.0 && peak <= threshold
    ensures var next := NextGain(gain, peak, threshold); 0.0 < next <= 1.0 && (gain < 1.0 ==> next < 1.0)
  {
  }

  lemma Fades(x: real, duck: real, gain: real)
    requires x != 0.0 && 0.0 <= duck <= 1.0 && 0.0 < gain <= 1.0 && (duck < 1.0 || gain < 1.0)
    ensures Scale(Scale(x, duck), gain) != x
  {
    var d := duck * gain;
    assert d < 1.0 by { FactorsBelowOne(duck, gain); }
    assert (x * duck) * gain == x * d;
    if x > 0.0 { MulStrict(d, 1.0, x); } else { MulStrict(d, 1.0, -x); }
  }

  lemma FactorsBelowOne(duck: real, gain: real)
    requires 0.0 <= duck <= 1.0 && 0.0 < gain <= 1.0 && (duck < 1.0 || gain < 1.0)
    ensures duck * gain < 1.0
  {
    if duck < 1.0 { MulStrict(duck, 1.0, gain); }
  }
}
