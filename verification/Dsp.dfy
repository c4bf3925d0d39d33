/** The mixer's arithmetic over exact reals (internal/audio/dsp.go, internal/audio/types.go).
    Decibel conversion, filter coefficients and the quarter-wave gains of a transition are arbitrary functions
    with the properties in `Lawful`; floating-point rounding is not part of this model. */
module Dsp {
  import opened Common

  const SAMPLE_RATE: nat := 48000
  const CHANNELS: nat := 2
  const BLOCK_SAMPLES: nat := 1920

  datatype Band = Band(enabled: bool, gainDB: real)

  datatype Profile = Profile(
    musicGainDB: real,
    announcementGainDB: real,
    attackMS: int,
    releaseMS: int,
    lowCutHz: real,
    highCutHz: real,
    low: Band,
    mid: Band,
    high: Band,
    limiterThresholdDB: real)

  function Abs(x: real): real {
    if x < 0.0 then -x else x
  }

  function Clamp(x: real, lo: real, hi: real): real {
    if x < lo then lo else if x > hi then hi else x
  }

  function Normalize(p: Profile): Profile {
    var lowCut := if p.lowCutHz <= 0.0 then 250.0 else p.lowCutHz;
    Profile(
      Clamp(p.musicGainDB, -60.0, 12.0),
      Clamp(p.announcementGainDB, -60.0, 12.0),
      if p.attackMS <= 0 then 180 else p.attackMS,
      if p.releaseMS <= 0 then 450 else p.releaseMS,
      lowCut,
      if p.highCutHz <= lowCut then 3500.0 else p.highCutHz,
      p.low.(gainDB := Clamp(p.low.gainDB, -60.0, 12.0)),
      p.mid.(gainDB := Clamp(p.mid.gainDB, -60.0, 12.0)),
      p.high.(gainDB := Clamp(p.high.gainDB, -60.0, 12.0)),
      Clamp(if p.limiterThresholdDB == 0.0 then -1.0 else p.limiterThresholdDB, -20.0, 0.0))
  }

  /** The loudest gain a normalised profile allows. */
  const LOUDEST_DB: real := 12.0

  predicate Adjustable(gainDB: real) {
    -60.0 <= gainDB <= LOUDEST_DB
  }

  predicate Ranged(p: Profile) {
    && p.attackMS > 0 && p.releaseMS > 0 && p.lowCutHz > 0.0 && p.highCutHz > 0.0
    && -20.0 <= p.limiterThresholdDB <= 0.0
    && Adjustable(p.musicGainDB) && Adjustable(p.announcementGainDB)
    && Adjustable(p.low.gainDB) && Adjustable(p.mid.gainDB) && Adjustable(p.high.gainDB)
  }

  /** Normalised profiles are in range; normalising again changes nothing exactly if the threshold asked for was
      not positive (a positive one is clamped to 0, which the next normalisation takes for unset). */
  lemma NormalizeRangeAndFixpoint(p: Profile)
    ensures Ranged(Normalize(p))
    ensures Normalize(Normalize(p)) == Normalize(p) <==> p.limiterThresholdDB <= 0.0
  {
  }

  function Within12(gainDB: real): real {
    if gainDB < -60.0 then -60.0 else if gainDB > 12.0 then 12.0 else gainDB
  }

  /** What normalising comes to: gains are confined to -60 .. 12 dB and the threshold to -20 .. 0; a ramp time that
      is not positive becomes 180 ms for the attack and 450 ms for the release; a low cut that is not positive
      becomes 250 Hz, a high cut not above it 3500 Hz, an unset threshold -1 dB; which bands are on is kept. */
  lemma NormalizeLaw(p: Profile)
    ensures var n := Normalize(p);
            && n.musicGainDB == Within12(p.musicGainDB) && n.announcementGainDB == Within12(p.announcementGainDB)
            && n.low == Band(p.low.enabled, Within12(p.low.gainDB))
            && n.mid == Band(p.mid.enabled, Within12(p.mid.gainDB))
            && n.high == Band(p.high.enabled, Within12(p.high.gainDB))
            && n.attackMS == (if p.attackMS <= 0 then 180 else p.attackMS)
            && n.releaseMS == (if p.releaseMS <= 0 then 450 else p.releaseMS)
            && n.lowCutHz == (if p.lowCutHz <= 0.0 then 250.0 else p.lowCutHz)
            && n.highCutHz == (if p.highCutHz <= n.lowCutHz then 3500.0 else p.highCutHz)
            && n.limiterThresholdDB == (if p.limiterThresholdDB == 0.0 then -1.0
                                        else if p.limiterThresholdDB < -20.0 then -20.0
                                        else if p.limiterThresholdDB > 0.0 then 0.0
                                        else p.limiterThresholdDB)
  {
  }

  /** Decibels to gain, cutoff to one-pole coefficient, and the two quarter-wave gains of a transition. */
  datatype Maths = Maths(gain: real -> real, alpha: real -> real, cos: real -> real, sin: real -> real)

  ghost predicate Lawful(m: Maths) {
    && (forall x :: m.gain(x) > 0.0)
    && (forall x, y :: x <= y ==> m.gain(x) <= m.gain(y))
    && m.gain(0.0) == 1.0
    && (forall x :: x > 0.0 ==> 0.0 < m.alpha(x) < 1.0)
    && (forall x :: 0.0 <= x <= 1.0 ==>
          m.cos(x) >= 0.0 && m.sin(x) >= 0.0 && m.cos(x) * m.cos(x) + m.sin(x) * m.sin(x) == 1.0)
    && m.cos(0.0) == 1.0 && m.cos(1.0) == 0.0
  }

  // ---------------------------------------------------------------- real arithmetic

  lemma MulMono(a: real, b: real, c: real)
    requires a <= b && c >= 0.0
    ensures a * c <= b * c
  {
  }

  lemma MulStrict(a: real, b: real, c: real)
    requires a < b && c > 0.0
    ensures a * c < b * c
  {
  }

  lemma MulAssoc(a: real, b: real, c: real)
    ensures (a * b) * c == a * (c * b)
  {
  }

  lemma MulDiv(k: real, d: real, r: real)
    requires r > 0.0
    ensures k * (d / r) == d * (k / r) && r * (d / r) == d
  {
  }

  lemma Complement(d: real, x: real)
    ensures d - d * x == d * (1.0 - x)
  {
  }

  lemma Between(d: real, x: real)
    requires 0.0 <= x <= 1.0
    ensures d >= 0.0 ==> 0.0 <= d * x <= d
    ensures d <= 0.0 ==> d <= d * x <= 0.0
  {
  }

  lemma FractionBounds(k: real, r: real)
    requires 0.0 <= k <= r && r > 0.0
    ensures 0.0 <= k / r <= 1.0
  {
  }

  /** A gain scales magnitudes. */
  lemma AbsScale(x: real, g: real, bound: real)
    requires Abs(x) <= bound && g >= 0.0
    ensures Abs(x * g) <= bound * g
  {
    MulMono(x, bound, g);
    MulMono(-bound, x, g);
  }

  function Scale(x: real, gain: real): real {
    x * gain
  }

  // ---------------------------------------------------------------- ducking

  /** One sample of the ramp: a step towards the target, or the target itself. */
  function DuckStep(duck: real, target: real, step: real): real {
    if (step > 0.0 && duck < target) || (step < 0.0 && duck > target) then duck + step else target
  }

  function DuckRun(duck: real, target: real, step: real, n: nat): real {
    if n == 0 then duck else DuckStep(DuckRun(duck, target, step, n - 1), target, step)
  }

  function RampSamples(ms: int): nat {
    Max(1, ms * SAMPLE_RATE / 1000 * CHANNELS)
  }

  function StepFor(duck: real, target: real, ramp: nat): real
    requires ramp > 0
  {
    (target - duck) / ramp as real
  }

  /** The straight line of a ramp. */
  function Line(duck: real, step: real, n: nat): real {
    duck + n as real * step
  }

  lemma LineStep(duck: real, step: real, ramp: nat, n: nat)
    requires n < ramp
    ensures DuckStep(Line(duck, step, n), Line(duck, step, ramp), step) == Line(duck, step, n + 1)
  {
    var i, r := n as real, ramp as real;
    assert (n + 1) as real == i + 1.0;
    assert (i + 1.0) * step == i * step + step;
    if step > 0.0 { MulStrict(i, r, step); }
    if step < 0.0 { MulStrict(i, r, -step); Negate(i, step); Negate(r, step); }
    if step == 0.0 { assert i * step == 0.0 && r * step == 0.0; }
  }

  /** The ramp is a straight line that reaches the target after exactly `ramp` samples and stays there. */
  lemma {:induction false} RampIsStraight(duck: real, target: real, step: real, ramp: nat, n: nat)
    requires target == Line(duck, step, ramp)
    ensures DuckRun(duck, target, step, n) == if n <= ramp then Line(duck, step, n) else target
  {
    if n == 0 {
      assert 0 as real * step == 0.0;
    } else {
      RampIsStraight(duck, target, step, ramp, n - 1);
      if n <= ramp {
        LineStep(duck, step, ramp, n - 1);
      } else {
        assert DuckStep(target, target, step) == target;
      }
    }
  }

  lemma Negate(a: real, b: real)
    ensures a * (-b) == -(a * b)
  {
  }

  /** A block of `n` samples: the step is fixed at its beginning. */
  function DuckBlock(duck: real, target: real, ramp: nat, n: nat): real
    requires ramp > 0
  {
    DuckRun(duck, target, StepFor(duck, target, ramp), n)
  }

  /** What is left of the distance after `n` samples of a ramp of `ramp` samples. */
  function Left(n: nat, ramp: nat): real
    requires ramp > 0
  {
    if n >= ramp then 0.0 else 1.0 - n as real / ramp as real
  }

  /** One block multiplies the distance to the target by exactly max(0, 1 - L/R): it never overshoots, never
      turns back, and completes the ramp if the block is long enough. */
  lemma DuckBlockLaw(duck: real, target: real, ramp: nat, n: nat)
    requires ramp > 0
    ensures var after := DuckBlock(duck, target, ramp, n);
            && Gap(target, after) == Gap(target, duck) * Left(n, ramp)
            && (duck <= target ==> duck <= after <= target)
            && (target <= duck ==> target <= after <= duck)
  {
    var d, r, k := target - duck, ramp as real, n as real;
    var step := StepFor(duck, target, ramp);
    MulDiv(k, d, r);
    RampIsStraight(duck, target, step, ramp, n);
    if n < ramp {
      hide DuckRun, StepFor;
      Complement(d, k / r);
      FractionBounds(k, r);
      Between(d, k / r);
      assert DuckRun(duck, target, step, n) == duck + d * (k / r);
    }
  }

  /** How far `duck` still is from the target. */
  function Gap(target: real, duck: real): real {
    target - duck
  }

  function Power(x: real, n: nat): real {
    if n == 0 then 1.0 else x * Power(x, n - 1)
  }

  /** Block after block: each starts a new ramp from where the last one ended. */
  function DuckBlocks(duck: real, target: real, ramp: nat, length: nat, blocks: nat): real
    requires ramp > 0
  {
    if blocks == 0 then duck
    else DuckBlock(DuckBlocks(duck, target, ramp, length, blocks - 1), target, ramp, length)
  }

  /** So a constant target is approached geometrically, not linearly, over blocks of equal length. */
  lemma {:induction false} DuckBlocksLaw(duck: real, target: real, ramp: nat, length: nat, blocks: nat)
    requires ramp > 0
    ensures Gap(target, DuckBlocks(duck, target, ramp, length, blocks))
         == Gap(target, duck) * Power(Left(length, ramp), blocks)
  {
    if blocks > 0 {
      DuckBlocksLaw(duck, target, ramp, length, blocks - 1);
      AnotherBlock(duck, target, ramp, length, blocks);
    } else {
      hide Gap, Left;
    }
  }

  predicate IsProduct(r: real, a: real, b: real) {
    r == a * b
  }

  lemma AnotherBlock(duck: real, target: real, ramp: nat, length: nat, blocks: nat)
    requires ramp > 0 && blocks > 0
    requires IsProduct(Gap(target, DuckBlocks(duck, target, ramp, length, blocks - 1)),
                       Gap(target, duck), Power(Left(length, ramp), blocks - 1))
    ensures IsProduct(Gap(target, DuckBlocks(duck, target, ramp, length, blocks)),
                      Gap(target, duck), Power(Left(length, ramp), blocks))
  {
    hide IsProduct, DuckBlock, Left, Gap, Power;
    var before := DuckBlocks(duck, target, ramp, length, blocks - 1);
    var after := DuckBlocks(duck, target, ramp, length, blocks);
    var l := Left(length, ramp);
    OneBlock(before, target, ramp, length);
    PowerStep(l, blocks);
    GeometricStep(Gap(target, before), Gap(target, after), Gap(target, duck), Power(l, blocks - 1), l,
                  Power(l, blocks));
  }

  lemma OneBlock(duck: real, target: real, ramp: nat, length: nat)
    requires ramp > 0
    ensures IsProduct(Gap(target, DuckBlock(duck, target, ramp, length)), Gap(target, duck), Left(length, ramp))
  {
    DuckBlockLaw(duck, target, ramp, length);
  }

  lemma PowerStep(x: real, n: nat)
    requires n > 0
    ensures IsProduct(Power(x, n), x, Power(x, n - 1))
  {
  }

  lemma GeometricStep(before: real, after: real, d: real, p: real, l: real, product: real)
    requires IsProduct(before, d, p) && IsProduct(after, before, l) && IsProduct(product, l, p)
    ensures IsProduct(after, d, product)
  {
    MulAssoc(d, p, l);
  }

  // ---------------------------------------------------------------- three-band split

  /** Filter memory of one channel. */
  datatype Poles = Poles(low: real, highLow: real)

  function OnePole(state: real, alpha: real, input: real): real {
    state + alpha * (input - state)
  }

  function Filter(p: Poles, lowAlpha: real, highAlpha: real, input: real): Poles {
    Poles(OnePole(p.low, lowAlpha, input), OnePole(p.highLow, highAlpha, input))
  }

  /** The three bands of an input, given the memory after it was filtered. */
  function LowBand(p: Poles): real { p.low }
  function HighBand(p: Poles, input: real): real { input - p.highLow }
  function MidBand(p: Poles, input: real): real { input - LowBand(p) - HighBand(p, input) }

  function Recombine(p: Poles, input: real, lowGain: real, midGain: real, highGain: real): real {
    Weigh(LowBand(p), MidBand(p, input), HighBand(p, input), lowGain, midGain, highGain)
  }

  function Weigh(low: real, mid: real, high: real, lowGain: real, midGain: real, highGain: real): real {
    low * lowGain + mid * midGain + high * highGain
  }

  function BandBound(bound: real, lowGain: real, midGain: real, highGain: real): real {
    bound * (lowGain + 2.0 * midGain + 2.0 * highGain)
  }

  lemma OnePoleBounded(state: real, alpha: real, input: real, bound: real)
    requires 0.0 < alpha < 1.0 && Abs(state) <= bound && Abs(input) <= bound
    ensures Abs(OnePole(state, alpha, input)) <= bound
  {
    OnePoleIsConvex(state, alpha, input);
    hide OnePole, Blend, Abs;
    LinearBound(state, input, 1.0 - alpha, alpha, bound);
  }

  lemma OnePoleIsConvex(state: real, alpha: real, input: real)
    ensures OnePole(state, alpha, input) == Blend(state, 1.0 - alpha, input, alpha)
  {
  }

  predicate Bounded(p: Poles, bound: real) {
    Abs(p.low) <= bound && Abs(p.highLow) <= bound
  }

  /** The bands add up to the input; with equal gains the split is inaudible; and for inputs bounded by B the
      memory stays within B and the output within B (gLow + 2 gMid + 2 gHigh). */
  lemma BandSplitLaw(p: Poles, lowAlpha: real, highAlpha: real, input: real, bound: real,
                     lowGain: real, midGain: real, highGain: real)
    requires 0.0 < lowAlpha < 1.0 && 0.0 < highAlpha < 1.0
    requires Bounded(p, bound) && Abs(input) <= bound
    requires lowGain >= 0.0 && midGain >= 0.0 && highGain >= 0.0
    ensures var q := Filter(p, lowAlpha, highAlpha, input);
            && LowBand(q) + MidBand(q, input) + HighBand(q, input) == input
            && Bounded(q, bound)
            && Recombine(q, input, midGain, midGain, midGain) == Scale(input, midGain)
            && Abs(Recombine(q, input, lowGain, midGain, highGain)) <= BandBound(bound, lowGain, midGain, highGain)
  {
    FilterBounded(p, lowAlpha, highAlpha, input, bound);
    RecombineLaw(Filter(p, lowAlpha, highAlpha, input), input, bound, lowGain, midGain, highGain);
  }

  lemma FilterBounded(p: Poles, lowAlpha: real, highAlpha: real, input: real, bound: real)
    requires 0.0 < lowAlpha < 1.0 && 0.0 < highAlpha < 1.0
    requires Bounded(p, bound) && Abs(input) <= bound
    ensures Bounded(Filter(p, lowAlpha, highAlpha, input), bound)
  {
    OnePoleBounded(p.low, lowAlpha, input, bound);
    OnePoleBounded(p.highLow, highAlpha, input, bound);
  }

  lemma RecombineLaw(q: Poles, input: real, bound: real, lowGain: real, midGain: real, highGain: real)
    requires Bounded(q, bound) && Abs(input) <= bound
    requires lowGain >= 0.0 && midGain >= 0.0 && highGain >= 0.0
    ensures LowBand(q) + MidBand(q, input) + HighBand(q, input) == input
    ensures Recombine(q, input, midGain, midGain, midGain) == Scale(input, midGain)
    ensures Abs(Recombine(q, input, lowGain, midGain, highGain)) <= BandBound(bound, lowGain, midGain, highGain)
  {
    hide Weigh;
    EqualGains(LowBand(q), MidBand(q, input), HighBand(q, input), midGain, input);
    RecombineBounded(LowBand(q), MidBand(q, input), HighBand(q, input), bound, lowGain, midGain, highGain);
  }

  lemma RecombineBounded(low: real, mid: real, high: real, bound: real, lowGain: real, midGain: real, highGain: real)
    requires Abs(low) <= bound && Abs(mid) <= 2.0 * bound && Abs(high) <= 2.0 * bound
    requires lowGain >= 0.0 && midGain >= 0.0 && highGain >= 0.0
    ensures Abs(Weigh(low, mid, high, lowGain, midGain, highGain)) <= BandBound(bound, lowGain, midGain, highGain)
  {
    AbsScale(low, lowGain, bound);
    AbsScale(mid, midGain, 2.0 * bound);
    AbsScale(high, highGain, 2.0 * bound);
    Distribute(bound, lowGain, midGain, highGain);
    Triangle(low * lowGain, mid * midGain, bound * lowGain, 2.0 * bound * midGain);
    Triangle(low * lowGain + mid * midGain, high * highGain, bound * lowGain + 2.0 * bound * midGain,
             2.0 * bound * highGain);
  }

  lemma Triangle(a: real, b: real, x: real, y: real)
    requires Abs(a) <= x && Abs(b) <= y
    ensures Abs(a + b) <= x + y
  {
  }

  lemma EqualGains(a: real, b: real, c: real, g: real, sum: real)
    requires a + b + c == sum
    ensures Weigh(a, b, c, g, g, g) == Scale(sum, g)
  {
    assert g * sum == g * (a + b) + g * c;
  }

  lemma Distribute(b: real, x: real, y: real, z: real)
    ensures b * x + (2.0 * b) * y + (2.0 * b) * z == BandBound(b, x, y, z)
  {
    assert b * (x + 2.0 * y + 2.0 * z) == b * (x + 2.0 * y) + b * (2.0 * z);
    assert b * (x + 2.0 * y) == b * x + b * (2.0 * y);
    assert b * (2.0 * y) == (2.0 * b) * y && b * (2.0 * z) == (2.0 * b) * z;
  }

  // ---------------------------------------------------------------- limiter

  function Peak(samples: seq<real>): real {
    if samples == [] then 0.0
    else
      var before := Peak(samples[..|samples| - 1]);
      var last := Abs(samples[|samples| - 1]);
      if last > before then last else before
  }

  lemma {:induction false} PeakBounds(samples: seq<real>)
    ensures Peak(samples) >= 0.0
    ensures forall i :: 0 <= i < |samples| ==> Abs(samples[i]) <= Peak(samples)
    ensures samples == [] || exists i :: 0 <= i < |samples| && Peak(samples) == Abs(samples[i])
  {
    if samples != [] {
      var front := samples[..|samples| - 1];
      PeakBounds(front);
      forall i | 0 <= i < |samples| ensures Abs(samples[i]) <= Peak(samples) {
        if i < |front| { assert samples[i] == front[i]; }
      }
      if Peak(samples) == Peak(front) && front != [] {
        var i :| 0 <= i < |front| && Peak(front) == Abs(front[i]);
        assert Peak(samples) == Abs(samples[i]);
      } else {
        assert Peak(samples) == Abs(samples[|samples| - 1]);
      }
    }
  }

  function TargetGain(peak: real, threshold: real): real
    requires threshold > 0.0
  {
    if peak > threshold && peak > 0.0 then Attenuation(peak, threshold) else 1.0
  }

  function Attenuation(peak: real, threshold: real): real
    requires peak > 0.0
  {
    threshold / peak
  }

  /** Attack at once, release by two percent of the way per block. */
  function NextGain(gain: real, peak: real, threshold: real): real
    requires threshold > 0.0
  {
    var target := TargetGain(peak, threshold);
    if target < gain then target else Released(gain, target)
  }

  function Released(gain: real, target: real): real {
    gain + (target - gain) * 0.02
  }

  function HardClip(x: real): real {
    Clamp(x, -1.0, 1.0)
  }

  function LimitSample(x: real, gain: real): real {
    HardClip(Scale(x, gain))
  }

  function Limited(samples: seq<real>, gain: real): seq<real> {
    seq(|samples|, i requires 0 <= i < |samples| => LimitSample(samples[i], gain))
  }

  lemma NextGainBounds(gain: real, peak: real, threshold: real)
    requires 0.0 < gain <= 1.0 && 0.0 < threshold <= 1.0 && peak >= 0.0
    ensures 0.0 < NextGain(gain, peak, threshold) <= TargetGain(peak, threshold) <= 1.0
    ensures peak * NextGain(gain, peak, threshold) <= threshold
  {
    var target := TargetGain(peak, threshold);
    if peak > threshold { AttenuationBounds(peak, threshold); }
    hide TargetGain;
    if gain <= target { ReleaseStaysBelow(gain, target); }
    hide Released, Attenuation;
    MulMono(NextGain(gain, peak, threshold), target, peak);
    MulMono(target, 1.0, peak);
  }

  lemma AttenuationBounds(peak: real, threshold: real)
    requires 0.0 < threshold < peak
    ensures 0.0 < Attenuation(peak, threshold) < 1.0 && Attenuation(peak, threshold) * peak == threshold
  {
    MulDiv(1.0, threshold, peak);
    var target := Attenuation(peak, threshold);
    hide Attenuation;
    FactorBounds(target, peak, threshold);
  }

  lemma FactorBounds(factor: real, peak: real, product: real)
    requires factor * peak == product && 0.0 < product < peak
    ensures 0.0 < factor < 1.0
  {
    if factor >= 1.0 { MulMono(1.0, factor, peak); }
    if factor <= 0.0 { MulMono(factor, 0.0, peak); }
  }

  lemma ReleaseStaysBelow(gain: real, target: real)
    requires 0.0 < gain <= target
    ensures gain <= Released(gain, target) <= target
  {
  }

  /** `out` is `samples` scaled by `gain`, and nowhere louder than the threshold. */
  ghost predicate ScaledWithin(out: seq<real>, samples: seq<real>, gain: real, threshold: real) {
    && |out| == |samples|
    && forall i :: 0 <= i < |out| ==> out[i] == samples[i] * gain && Abs(out[i]) <= threshold
  }

  /** The loudest sample of a block after the gain. */
  function Loudest(peak: real, gain: real): real {
    peak * gain
  }

  /** One block: the gain stays in (0, 1], no output sample exceeds the threshold in magnitude, and since the
      threshold is at most one the hard clip never changes a sample. */
  lemma LimiterBlockLaw(samples: seq<real>, gain: real, threshold: real)
    requires 0.0 < gain <= 1.0 && 0.0 < threshold <= 1.0
    ensures var next := NextGain(gain, Peak(samples), threshold);
            0.0 < next <= 1.0 && ScaledWithin(Limited(samples, next), samples, next, threshold)
  {
    PeakBounds(samples);
    var peak := Peak(samples);
    LoudestFits(gain, peak, threshold);
    hide NextGain, TargetGain, Peak, ScaledWithin, Limited, Loudest;
    LimitedLaw(samples, peak, NextGain(gain, peak, threshold), threshold);
  }

  lemma LoudestFits(gain: real, peak: real, threshold: real)
    requires 0.0 < gain <= 1.0 && 0.0 < threshold <= 1.0 && peak >= 0.0
    ensures 0.0 < NextGain(gain, peak, threshold) <= 1.0
    ensures Loudest(peak, NextGain(gain, peak, threshold)) <= threshold
  {
    NextGainBounds(gain, peak, threshold);
  }

  lemma LimitedLaw(samples: seq<real>, peak: real, gain: real, threshold: real)
    requires gain >= 0.0 && Loudest(peak, gain) <= threshold <= 1.0
    requires forall i :: 0 <= i < |samples| ==> Abs(samples[i]) <= peak
    ensures ScaledWithin(Limited(samples, gain), samples, gain, threshold)
  {
    hide LimitSample, Abs;
    forall i | 0 <= i < |samples|
      ensures Limited(samples, gain)[i] == samples[i] * gain && Abs(Limited(samples, gain)[i]) <= threshold
    {
      QuietSample(samples[i], peak, gain, threshold);
    }
  }

  lemma QuietSample(x: real, peak: real, gain: real, threshold: real)
    requires Abs(x) <= peak && gain >= 0.0 && peak * gain <= threshold <= 1.0
    ensures LimitSample(x, gain) == x * gain && Abs(LimitSample(x, gain)) <= threshold
  {
    AbsScale(x, gain, peak);
  }

  /** Attack is exact, and there is no more of it than needed: a block that the gain so far leaves above the
      threshold is brought down exactly to it; otherwise the gain goes a fiftieth of the way towards the largest
      gain, at most 1, that keeps the block within the threshold. */
  lemma LimiterIsTight(gain: real, peak: real, threshold: real)
    requires 0.0 < gain <= 1.0 && 0.0 < threshold <= 1.0 && peak >= 0.0
    ensures var next := NextGain(gain, peak, threshold);
            && (Loudest(peak, gain) > threshold ==> Loudest(peak, next) == threshold)
            && (Loudest(peak, gain) <= threshold && peak <= threshold ==> next - gain == (1.0 - gain) / 50.0)
            && (Loudest(peak, gain) <= threshold && peak > threshold ==>
                  next - gain == (threshold / peak - gain) / 50.0)
  {
    LoudestHitsThreshold(gain, peak, threshold);
    hide Loudest;
    Fiftieth(gain, TargetGain(peak, threshold));
    if Loudest(peak, gain) <= threshold { NotTurnedDown(gain, peak, threshold); }
  }

  lemma LoudestHitsThreshold(gain: real, peak: real, threshold: real)
    requires 0.0 < gain <= 1.0 && 0.0 < threshold <= 1.0 && peak >= 0.0
    ensures Loudest(peak, gain) > threshold ==> Loudest(peak, NextGain(gain, peak, threshold)) == threshold
  {
    if peak > threshold {
      AttenuationBounds(peak, threshold);
      var goal := Attenuation(peak, threshold);
      hide Attenuation, Released;
      if goal >= gain { MulMono(gain, goal, peak); }
    } else {
      MulMono(gain, 1.0, peak);
    }
  }

  lemma NotTurnedDown(gain: real, peak: real, threshold: real)
    requires 0.0 < gain <= 1.0 && 0.0 < threshold <= 1.0 && peak >= 0.0 && Loudest(peak, gain) <= threshold
    ensures TargetGain(peak, threshold) >= gain && NextGain(gain, peak, threshold) >= gain
  {
    if peak > threshold {
      AttenuationBounds(peak, threshold);
      var goal := Attenuation(peak, threshold);
      hide Attenuation;
      if goal < gain { MulStrict(goal, gain, peak); }
    }
  }

  lemma Fiftieth(gain: real, target: real)
    ensures Released(gain, target) - gain == (target - gain) / 50.0
  {
  }

  /** A block as the limiter sees it: its samples and the threshold in force. */
  datatype LimiterInput = LimiterInput(samples: seq<real>, threshold: real)

  predicate GoodThresholds(blocks: seq<LimiterInput>) {
    forall i :: 0 <= i < |blocks| ==> 0.0 < blocks[i].threshold <= 1.0
  }

  function GainAfter(gain: real, blocks: seq<LimiterInput>): real
    requires GoodThresholds(blocks)
  {
    if blocks == [] then gain
    else
      var last := blocks[|blocks| - 1];
      NextGain(GainAfter(gain, blocks[..|blocks| - 1]), Peak(last.samples), last.threshold)
  }

  /** Over any run of blocks and profile changes the gain stays in (0, 1]. */
  lemma {:induction false} LimiterGainInRange(gain: real, blocks: seq<LimiterInput>)
    requires GoodThresholds(blocks) && 0.0 < gain <= 1.0
    ensures 0.0 < GainAfter(gain, blocks) <= 1.0
  {
    if blocks != [] {
      var front, last := blocks[..|blocks| - 1], blocks[|blocks| - 1];
      LimiterGainInRange(gain, front);
      PeakBounds(last.samples);
      NextGainBounds(GainAfter(gain, front), Peak(last.samples), last.threshold);
    }
  }

  /** And through blocks that stay below their threshold it recovers geometrically: 1 - gain shrinks by 0.98 a block. */
  lemma {:induction false} LimiterRecovers(gain: real, blocks: seq<LimiterInput>)
    requires GoodThresholds(blocks) && 0.0 < gain <= 1.0
    requires forall i :: 0 <= i < |blocks| ==> Peak(blocks[i].samples) <= blocks[i].threshold
    ensures Gap(1.0, GainAfter(gain, blocks)) == Gap(1.0, gain) * Power(0.98, |blocks|)
  {
    if blocks != [] {
      var front := blocks[..|blocks| - 1];
      LimiterRecovers(gain, front);
      LimiterGainInRange(gain, front);
      var d, p := 1.0 - gain, Power(0.98, |front|);
      assert 0.98 * (d * p) == d * (0.98 * p);
    }
  }

  // ---------------------------------------------------------------- transitions between tracks

  function CurrentGain(m: Maths, progress: real, linear: bool): real {
    if linear then 1.0 - progress else m.cos(progress)
  }

  function NextGainOf(m: Maths, progress: real, linear: bool): real {
    if linear then progress else m.sin(progress)
  }

  function SampleAt(samples: seq<real>, i: nat): real {
    if i < |samples| then samples[i] else 0.0
  }

  function Blend(x: real, a: real, y: real, b: real): real {
    Scale(x, a) + Scale(y, b)
  }

  predicate NoMorePower(out: real, x: real, y: real) {
    out * out <= x * x + y * y
  }

  function Crossfaded(m: Maths, current: seq<real>, next: seq<real>, progress: real, linear: bool): seq<real> {
    var p := Clamp(progress, 0.0, 1.0);
    seq(if |next| > |current| then |next| else |current|,
        i requires i >= 0 => Blend(SampleAt(current, i), CurrentGain(m, p, linear), SampleAt(next, i),
                                   NextGainOf(m, p, linear)))
  }

  /** A crossfade block is as long as the longer side, is exactly the outgoing track at progress 0 and before, and
      exactly the incoming one from progress 1 on; it never exceeds the louder side under the linear curve, and
      under the equal-power curve never carries more power than the two sides together. */
  lemma CrossfadeLaw(m: Maths, current: seq<real>, next: seq<real>, progress: real, linear: bool, bound: real, i: nat)
    requires Lawful(m)
    requires i < |current| || i < |next|
    requires Abs(SampleAt(current, i)) <= bound && Abs(SampleAt(next, i)) <= bound
    ensures var out := Crossfaded(m, current, next, progress, linear);
            var x, y := SampleAt(current, i), SampleAt(next, i);
            && i < |out|
            && (progress <= 0.0 ==> out[i] == x)
            && (progress >= 1.0 ==> out[i] == y)
            && (linear ==> Abs(out[i]) <= bound)
            && (!linear ==> NoMorePower(out[i], x, y))
  {
    var p := Clamp(progress, 0.0, 1.0);
    var x, y := SampleAt(current, i), SampleAt(next, i);
    hide Lawful, Abs, Blend, NoMorePower;
    if linear {
      LinearBound(x, y, 1.0 - p, p, bound);
    } else {
      QuarterWave(m, p);
      FullGain(x, y, m.cos(p), m.sin(p));
      PowerBound(x, y, m.cos(p), m.sin(p));
    }
  }

  lemma QuarterWave(m: Maths, p: real)
    requires Lawful(m) && 0.0 <= p <= 1.0
    ensures m.cos(p) * m.cos(p) + m.sin(p) * m.sin(p) == 1.0 && m.cos(p) >= 0.0 && m.sin(p) >= 0.0
    ensures p == 0.0 ==> m.cos(p) == 1.0
    ensures p == 1.0 ==> m.cos(p) == 0.0
  {
  }

  lemma FullGain(x: real, y: real, c: real, s: real)
    requires c * c + s * s == 1.0 && s >= 0.0
    ensures c == 1.0 ==> Blend(x, c, y, s) == x
    ensures c == 0.0 ==> Blend(x, c, y, s) == y
  {
    if c == 1.0 {
      assert c * c == 1.0;
      if s > 0.0 { MulStrict(0.0, s, s); }
    }
    if c == 0.0 {
      assert c * c == 0.0;
      if s > 1.0 { MulStrict(1.0, s, s); }
      if s < 1.0 { MulMono(s, 1.0, s); }
    }
  }

  lemma LinearBound(x: real, y: real, q: real, p: real, bound: real)
    requires Abs(x) <= bound && Abs(y) <= bound && 0.0 <= p && 0.0 <= q && p + q == 1.0
    ensures Abs(Blend(x, q, y, p)) <= bound
    ensures p == 0.0 ==> Blend(x, q, y, p) == x
    ensures p == 1.0 ==> Blend(x, q, y, p) == y
  {
    AbsScale(x, q, bound);
    AbsScale(y, p, bound);
    Shares(bound, q, p);
    hide Abs;
    Triangle(x * q, y * p, bound * q, bound * p);
  }

  lemma Shares(bound: real, q: real, p: real)
    requires p + q == 1.0
    ensures bound * q + bound * p == bound
  {
    assert bound * (q + p) == bound * q + bound * p;
  }

  lemma PowerBound(x: real, y: real, c: real, s: real)
    requires c * c + s * s == 1.0
    ensures NoMorePower(Blend(x, c, y, s), x, y)
  {
    Square(x * s - y * c);
    Lagrange(x, y, c, s);
    assert (x * x + y * y) * (c * c + s * s) == x * x + y * y;
  }

  lemma Square(d: real)
    ensures d * d >= 0.0
  {
  }

  lemma SquareOfSum(a: real, b: real)
    ensures (a + b) * (a + b) == a * a + 2.0 * (a * b) + b * b
    ensures (a - b) * (a - b) == a * a - 2.0 * (a * b) + b * b
  {
    assert (a + b) * (a + b) == a * (a + b) + b * (a + b);
    assert (a - b) * (a - b) == a * (a - b) - b * (a - b);
  }

  lemma ProductOfSums(a: real, b: real, c: real, d: real)
    ensures (a + b) * (c + d) == a * c + a * d + b * c + b * d
  {
    assert (a + b) * (c + d) == a * (c + d) + b * (c + d);
  }

  lemma Swap4(a: real, b: real, c: real, d: real)
    ensures (a * b) * (c * d) == (a * c) * (b * d)
  {
    assert (a * b) * (c * d) == a * (b * (c * d));
    assert b * (c * d) == c * (b * d);
    assert a * (c * (b * d)) == (a * c) * (b * d);
  }

  lemma Lagrange(x: real, y: real, c: real, s: real)
    ensures (x * c + y * s) * (x * c + y * s) + (x * s - y * c) * (x * s - y * c) == (x * x + y * y) * (c * c + s * s)
  {
    SquareOfSum(x * c, y * s);
    SquareOfSum(x * s, y * c);
    ProductOfSums(x * x, y * y, c * c, s * s);
    Swap4(x, c, x, c);
    Swap4(y, s, y, s);
    Swap4(x, s, x, s);
    Swap4(y, c, y, c);
    Swap4(x, c, y, s);
    Swap4(x, s, y, c);
    assert c * s == s * c;
  }
}
