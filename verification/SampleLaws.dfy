/** What comes out of the mixer, sample by sample: the sum the limiter meets is said in music, announcement, the line of
    the ramp and the two low-pass filters of each channel. */
module SampleLaws {
  import opened Common
  import opened Dsp
  import opened Mixing

  // ---------------------------------------------------------------- the ramp

  /** Gain after `n` samples of a straight ramp over `length` samples. */
  function OnRamp(from: real, to: real, length: nat, n: nat): real
    requires length > 0
  {
    if n >= length then to else from + n as real * ((to - from) / length as real)
  }

  /** A ramp of so many milliseconds takes 96 stereo samples each. */
  lemma RampLength(ms: int)
    requires ms > 0
    ensures RampSamples(ms) == 96 * ms
  {
    assert ms * 48000 / 1000 == 48 * ms;
  }

  /** The ducking gain follows the line from where it was to the music gain over the attack, under an announcement,
      and to 1 over the release without. */
  lemma DuckFollowsRamp(m: Maths, p: Profile, start: Memory, b: Block, n: nat)
    requires Ranged(p)
    ensures MemoryAfter(m, p, start, b, n).duck
         == OnRamp(start.duck, if b.active then m.gain(p.musicGainDB) else 1.0,
                   96 * (if b.active then p.attackMS else p.releaseMS), n)
  {
    var to := if b.active then m.gain(p.musicGainDB) else 1.0;
    var ms := if b.active then p.attackMS else p.releaseMS;
    hide MemoryAfter, DuckRun, RampSamples, OnRamp, StepFor;
    RampLength(ms);
    DuckIgnoresSamples(m, p, start, b, n);
    RunIsOnRamp(start.duck, to, 96 * ms, n);
  }

  lemma RunIsOnRamp(from: real, to: real, length: nat, n: nat)
    requires length > 0
    ensures DuckRun(from, to, StepFor(from, to, length), n) == OnRamp(from, to, length, n)
  {
    LineReaches(from, to, length);
    RampIsStraight(from, to, StepFor(from, to, length), length, n);
    hide DuckRun;
    if n < length { OnLine(from, to, length, n); }
  }

  lemma OnLine(from: real, to: real, length: nat, n: nat)
    requires n < length
    ensures Line(from, StepFor(from, to, length), n) == OnRamp(from, to, length, n)
  {
  }

  lemma LineReaches(from: real, to: real, length: nat)
    requires length > 0
    ensures to == Line(from, StepFor(from, to, length), length)
  {
    MulDiv(1.0, to - from, length as real);
  }

  // ---------------------------------------------------------------- plain blocks

  predicate AnyBand(p: Profile) {
    p.low.enabled || p.mid.enabled || p.high.enabled
  }

  /** Without a band in play, sample `i` is the music at the ramp's gain after `i` + 1 samples, announcement or not,
      plus the announcement at its own gain. */
  lemma PlainMix(m: Maths, p: Profile, start: Memory, b: Block, i: nat)
    requires Ranged(p) && i < |Premix(m, p, start, b)| && (!b.active || !AnyBand(p))
    ensures var duck := OnRamp(start.duck, if b.active then m.gain(p.musicGainDB) else 1.0,
                               96 * (if b.active then p.attackMS else p.releaseMS), i + 1);
            Premix(m, p, start, b)[i]
            == SampleAt(b.music, i) * duck + SampleAt(b.announcement, i) * m.gain(p.announcementGainDB)
  {
    DuckFollowsRamp(m, p, start, b, i + 1);
    hide MemoryAfter, OnRamp;
  }

  /** Once the ramp has settled under an announcement, music is at exactly its gain for announcements. */
  lemma SettledMusic(m: Maths, p: Profile, start: Memory, b: Block, i: nat)
    requires Ranged(p) && i < |Premix(m, p, start, b)| && b.active && !AnyBand(p)
    requires start.duck == m.gain(p.musicGainDB)
    ensures Premix(m, p, start, b)[i]
         == SampleAt(b.music, i) * m.gain(p.musicGainDB) + SampleAt(b.announcement, i) * m.gain(p.announcementGainDB)
  {
    PlainMix(m, p, start, b, i);
    FlatRamp(start.duck, 96 * p.attackMS, i + 1);
    hide OnRamp, Premix;
  }

  lemma FlatRamp(gain: real, length: nat, n: nat)
    requires length > 0
    ensures OnRamp(gain, gain, length, n) == gain
  {
    assert gain - gain == 0.0;
    assert 0.0 / length as real == 0.0;
    assert n as real * 0.0 == 0.0;
  }

  /** The announcement's share of a sample does not depend on the music, bands or not. */
  lemma AnnouncementShare(m: Maths, p: Profile, start: Memory, b: Block, i: nat)
    requires i < |b.music|
    ensures i < |Premix(m, p, start, b)| && i < |Premix(m, p, start, b.(announcement := []))|
    ensures Premix(m, p, start, b)[i] == Premix(m, p, start, b.(announcement := []))[i]
                                         + SampleAt(b.announcement, i) * m.gain(p.announcementGainDB)
  {
    MemoryIgnoresAnnouncement(m, p, start, b, i + 1);
    Unchanged(0.0, m.gain(p.announcementGainDB));
    hide MemoryAfter;
  }

  lemma {:induction false} MemoryIgnoresAnnouncement(m: Maths, p: Profile, start: Memory, b: Block, n: nat)
    ensures MemoryAfter(m, p, start, b, n) == MemoryAfter(m, p, start, b.(announcement := []), n)
  {
    if n > 0 { MemoryIgnoresAnnouncement(m, p, start, b, n - 1); }
  }

  // ---------------------------------------------------------------- banded blocks

  /** A one-pole low-pass filter over a mono signal. */
  function LowPass(alpha: real, state: real, inputs: seq<real>): real {
    if inputs == [] then state
    else
      var before := LowPass(alpha, state, inputs[..|inputs| - 1]);
      before + alpha * (inputs[|inputs| - 1] - before)
  }

  /** Fed a constant, the filter closes in on it by the factor 1 - alpha a sample. */
  lemma {:induction false} LowPassSettles(alpha: real, state: real, inputs: seq<real>, x: real)
    requires forall i :: 0 <= i < |inputs| ==> inputs[i] == x
    ensures x - LowPass(alpha, state, inputs) == (x - state) * Power(1.0 - alpha, |inputs|)
  {
    if inputs != [] {
      var before := LowPass(alpha, state, inputs[..|inputs| - 1]);
      LowPassSettles(alpha, state, inputs[..|inputs| - 1], x);
      CloserByAlpha(alpha, before, x);
      MulAssoc(x - state, Power(1.0 - alpha, |inputs| - 1), 1.0 - alpha);
    }
  }

  lemma CloserByAlpha(alpha: real, before: real, x: real)
    ensures x - (before + alpha * (x - before)) == (x - before) * (1.0 - alpha)
  {
    Complement(x - before, alpha);
  }

  /** The two filters of a channel are low-passes at the two cut-off frequencies. */
  lemma {:induction false} FiltersAreLowPasses(m: Maths, p: Profile, poles: Poles, inputs: seq<real>)
    ensures FilterRun(m, p, poles, inputs)
         == Poles(LowPass(m.alpha(p.lowCutHz), poles.low, inputs), LowPass(m.alpha(p.highCutHz), poles.highLow, inputs))
  {
    if inputs != [] {
      FiltersAreLowPasses(m, p, poles, inputs[..|inputs| - 1]);
    }
  }

  /** With a band in play under an announcement, music is split by its own channel's filters: below the low cut,
      above the high cut, and the rest; a band that is on gets its own gain and one that is off the ramp's. */
  lemma BandedMix(m: Maths, p: Profile, start: Memory, b: Block, i: nat)
    requires Ranged(p) && i < |Premix(m, p, start, b)| && b.active && AnyBand(p)
    ensures var duck := OnRamp(start.duck, m.gain(p.musicGainDB), 96 * p.attackMS, i + 1);
            var x := SampleAt(b.music, i);
            var poles := if i % 2 == 0 then start.left else start.right;
            var heard := ChannelOf(b.music, i % 2, i + 1);
            var low := LowPass(m.alpha(p.lowCutHz), poles.low, heard);
            var high := x - LowPass(m.alpha(p.highCutHz), poles.highLow, heard);
            Premix(m, p, start, b)[i]
            == InBands(low, if p.low.enabled then m.gain(p.low.gainDB) else duck,
                       x - low - high, if p.mid.enabled then m.gain(p.mid.gainDB) else duck,
                       high, if p.high.enabled then m.gain(p.high.gainDB) else duck)
               + SampleAt(b.announcement, i) * m.gain(p.announcementGainDB)
  {
    var after := MemoryAfter(m, p, start, b, i + 1);
    assert Premix(m, p, start, b)[i] == Premixed(m, p, after, b, i);
    hide MemoryAfter, OnRamp, LowPass, FilterRun, ChannelOf, InBands, Premix, Premixed;
    DuckFollowsRamp(m, p, start, b, i + 1);
    BandFilters(m, p, start, b, i);
    BandedSample(m, p, after, b, i, PolesOf(after, i % 2).low, SampleAt(b.music, i) - PolesOf(after, i % 2).highLow,
                 after.duck);
  }

  /** The filters of a sample's channel right after it. */
  lemma BandFilters(m: Maths, p: Profile, start: Memory, b: Block, i: nat)
    requires b.active && AnyBand(p)
    ensures var poles := if i % 2 == 0 then start.left else start.right;
            var heard := ChannelOf(b.music, i % 2, i + 1);
            PolesOf(MemoryAfter(m, p, start, b, i + 1), i % 2)
            == Poles(LowPass(m.alpha(p.lowCutHz), poles.low, heard),
                     LowPass(m.alpha(p.highCutHz), poles.highLow, heard))
  {
    hide MemoryAfter, LowPass, FilterRun, ChannelOf;
    ChannelsAreIndependent(m, p, start, b, i + 1, i % 2);
    FiltersAreLowPasses(m, p, PolesOf(start, i % 2), ChannelOf(b.music, i % 2, i + 1));
  }

  /** Three bands, each at its gain. */
  function InBands(low: real, lowGain: real, mid: real, midGain: real, high: real, highGain: real): real {
    low * lowGain + mid * midGain + high * highGain
  }

  lemma BandedSample(m: Maths, p: Profile, after: Memory, b: Block, i: nat, low: real, high: real, duck: real)
    requires b.active && AnyBand(p) && after.duck == duck
    requires low == PolesOf(after, i % 2).low && high == SampleAt(b.music, i) - PolesOf(after, i % 2).highLow
    ensures Premixed(m, p, after, b, i)
         == InBands(low, if p.low.enabled then m.gain(p.low.gainDB) else duck,
                    SampleAt(b.music, i) - low - high, if p.mid.enabled then m.gain(p.mid.gainDB) else duck,
                    high, if p.high.enabled then m.gain(p.high.gainDB) else duck)
            + SampleAt(b.announcement, i) * m.gain(p.announcementGainDB)
  {
    WeighsInBands(low, SampleAt(b.music, i) - low - high, high,
                  if p.low.enabled then m.gain(p.low.gainDB) else duck,
                  if p.mid.enabled then m.gain(p.mid.gainDB) else duck,
                  if p.high.enabled then m.gain(p.high.gainDB) else duck);
    hide Weigh, InBands;
  }

  lemma WeighsInBands(low: real, mid: real, high: real, lowGain: real, midGain: real, highGain: real)
    ensures Weigh(low, mid, high, lowGain, midGain, highGain) == InBands(low, lowGain, mid, midGain, high, highGain)
  {
  }

  /** The samples of a channel, picked out one by one. */
  lemma {:induction false} ChannelPicksEverySecond(music: seq<real>, channel: nat, n: nat)
    requires channel < 2
    ensures |ChannelOf(music, channel, n)| == (n + 1 - channel) / 2
    ensures forall k :: 0 <= k < |ChannelOf(music, channel, n)| ==>
              ChannelOf(music, channel, n)[k] == SampleAt(music, 2 * k + channel)
  {
    if n > 0 { ChannelPicksEverySecond(music, channel, n - 1); }
  }

  // ---------------------------------------------------------------- the block that comes out

  /** A block is as long as the longer of the two inputs, or 20 ms if there is none. */
  lemma MixedLength(m: Maths, s: MixerState, b: Block)
    requires m.gain(s.profile.limiterThresholdDB) > 0.0
    ensures |MixedBlock(m, s, b)| ==
              if |b.music| == 0 && |b.announcement| == 0 then 1920
              else if |b.music| >= |b.announcement| then |b.music| else |b.announcement|
  {
  }

  /** Some sample is exactly that loud. */
  ghost predicate Reaches(samples: seq<real>, level: real) {
    exists i :: 0 <= i < |samples| && Abs(samples[i]) == level
  }

  /** Over any run: a mix that the gain so far leaves too loud comes out with its loudest sample exactly at the
      threshold; any other is not turned down. */
  lemma LoudestIsAtThreshold(m: Maths, profile: Profile, calls: seq<Call>, b: Block, bound: real)
    requires Lawful(m) && bound >= 0.0 && MusicWithin(calls, bound) && Within(b.music, bound)
    ensures var s := AfterCalls(m, profile, calls);
            var threshold := m.gain(s.profile.limiterThresholdDB);
            var out, premix := MixedBlock(m, s, b), Premix(m, s.profile, s.memory, b);
            && threshold > 0.0
            && (Loudest(Peak(premix), s.limiterGain) > threshold ==> Reaches(out, threshold))
            && (Loudest(Peak(premix), s.limiterGain) <= threshold ==> AfterBlock(m, s, b).limiterGain >= s.limiterGain)
  {
    EveryBlockIsSafe(m, profile, calls, b, bound);
    OneBlockAtThreshold(m, AfterCalls(m, profile, calls), b);
  }

  lemma OneBlockAtThreshold(m: Maths, s: MixerState, b: Block)
    requires 0.0 < m.gain(s.profile.limiterThresholdDB) <= 1.0 && 0.0 < s.limiterGain <= 1.0
    ensures var threshold := m.gain(s.profile.limiterThresholdDB);
            var out, premix := MixedBlock(m, s, b), Premix(m, s.profile, s.memory, b);
            && (Loudest(Peak(premix), s.limiterGain) > threshold ==> Reaches(out, threshold))
            && (Loudest(Peak(premix), s.limiterGain) <= threshold ==> AfterBlock(m, s, b).limiterGain >= s.limiterGain)
  {
    var premix, threshold := Premix(m, s.profile, s.memory, b), m.gain(s.profile.limiterThresholdDB);
    hide Premix, NextGain, Loudest, Abs, Limited, Peak, Reaches;
    assert MixedBlock(m, s, b) == Limited(premix, NextGain(s.limiterGain, Peak(premix), threshold));
    if Loudest(Peak(premix), s.limiterGain) > threshold {
      SamplesAtThreshold(premix, s.limiterGain, threshold);
    } else {
      PeakBounds(premix);
      NotTurnedDown(s.limiterGain, Peak(premix), threshold);
    }
  }

  lemma SamplesAtThreshold(samples: seq<real>, gain: real, threshold: real)
    requires 0.0 < gain <= 1.0 && 0.0 < threshold <= 1.0 && Loudest(Peak(samples), gain) > threshold
    ensures Reaches(Limited(samples, NextGain(gain, Peak(samples), threshold)), threshold)
  {
    var next := NextGain(gain, Peak(samples), threshold);
    PeakBounds(samples);
    NoPeakInSilence(gain, threshold);
    LoudestHitsThreshold(gain, Peak(samples), threshold);
    LimiterBlockLaw(samples, gain, threshold);
    hide NextGain, Loudest, Abs, Limited, Peak, ScaledWithin;
    var i :| 0 <= i < |samples| && Peak(samples) == Abs(samples[i]);
    AtPeak(samples, i, next, threshold);
  }

  lemma NoPeakInSilence(gain: real, threshold: real)
    requires threshold > 0.0
    ensures Loudest(Peak([]), gain) <= threshold
  {
  }

  lemma AtPeak(samples: seq<real>, i: nat, gain: real, threshold: real)
    requires i < |samples| && gain > 0.0 && ScaledWithin(Limited(samples, gain), samples, gain, threshold)
    requires Loudest(Abs(samples[i]), gain) == threshold
    ensures i < |Limited(samples, gain)| && Abs(Limited(samples, gain)[i]) == threshold
  {
    AbsGain(samples[i], gain);
    hide Limited;
  }

  lemma AbsGain(x: real, gain: real)
    requires gain > 0.0
    ensures Abs(x * gain) == Loudest(Abs(x), gain)
  {
    if x >= 0.0 { MulMono(0.0, x, gain); } else { MulStrict(x, 0.0, gain); Negate(gain, x); }
  }

  // ---------------------------------------------------------------- transitions

  /** Inside a crossfade the linear curve weighs the two tracks by what is left of it and what is done; the equal-power
      curve by the two sides of the quarter wave. The shorter side is followed by silence. */
  lemma CrossfadedSample(m: Maths, current: seq<real>, next: seq<real>, progress: real, linear: bool, i: nat)
    requires 0.0 <= progress <= 1.0
    ensures var out := Crossfaded(m, current, next, progress, linear);
            && |out| == (if |current| <= |next| then |next| else |current|)
            && (i < |out| ==>
                  out[i] == if linear then SampleAt(current, i) * (1.0 - progress) + SampleAt(next, i) * progress
                            else SampleAt(current, i) * m.cos(progress) + SampleAt(next, i) * m.sin(progress))
  {
  }

  /** A fade in starts from silence and a fade out ends in it, along the straight line or the quarter wave. */
  lemma FadedSample(m: Maths, samples: seq<real>, progress: real, linear: bool, i: nat)
    requires i < |samples| && 0.0 <= progress <= 1.0
    ensures |Faded(m, samples, progress, true, linear)| == |Faded(m, samples, progress, false, linear)| == |samples|
    ensures Faded(m, samples, progress, true, linear)[i] == samples[i] * if linear then progress else m.sin(progress)
    ensures Faded(m, samples, progress, false, linear)[i]
         == samples[i] * if linear then 1.0 - progress else m.cos(progress)
  {
  }
}
