/**
 The scenario sampler of the SimOps generator. It memoises the Gilbert-Elliott burst chain and the
 per-second latent values; the reference is the bucket-by-bucket recursion without any memory.
 Distributions are functions of their parameters and of the derived seed.
 */
module ScenarioSampler {
  import opened Prelude
  import opened PressureCurve
  import opened SeedDerivation

  // ---------------------------------------------------------------- the manifest

  datatype Param = Param(base: real, slope: real, min: real, max: real)

  datatype DelayKind = Lognormal | Gamma

  datatype Delay = Delay(kind: DelayKind, sourceLagMs: Param, collectorLagMs: Param, sigma: real, shape: real)

  datatype LossProfile = LossProfile(goodToBad: Param, badToGood: Param, badEmitProbability: real)

  datatype WorkerKind = Scheduler | Storage | Burst | Fabric

  datatype Profile = Profile(
    emission: Option<Param>, delay: Option<Delay>, burstLoss: Option<LossProfile>, sensitivity: map<WorkerKind, real>)

  datatype Manifest = Manifest(curve: seq<Point>, profile: Option<Profile>)

  datatype Worker = Worker(id: seq<Byte>, kind: WorkerKind)

  predicate ValidProbability(p: Param)
  {
    0.0 <= p.min <= p.max <= 1.0
  }

  predicate ValidLag(p: Param)
  {
    0.0 <= p.min <= p.max
  }

  /** DistributionProfile::validate; every worker kind has a sensitivity because the type has a field for each. */
  predicate ValidProfile(p: Profile)
  {
    && (p.emission.Some? ==> ValidProbability(p.emission.value))
    && (p.delay.Some? ==>
          ValidLag(p.delay.value.sourceLagMs) && ValidLag(p.delay.value.collectorLagMs)
          && p.delay.value.sigma > 0.0 && p.delay.value.shape > 0.0)
    && (p.burstLoss.Some? ==>
          ValidProbability(p.burstLoss.value.goodToBad) && ValidProbability(p.burstLoss.value.badToGood)
          && 0.0 <= p.burstLoss.value.badEmitProbability <= 1.0)
    && forall k: WorkerKind :: k in p.sensitivity && p.sensitivity[k] >= 0.0
  }

  predicate ValidManifest(m: Manifest)
  {
    ValidCurve(m.curve) && (m.profile.Some? ==> ValidProfile(m.profile.value))
  }

  function Evaluate(p: Param, pressure: real): real
    requires p.min <= p.max
  {
    Clamp(p.base + p.slope * Unit(pressure), p.min, p.max)
  }

  /** The seed of a draw, and the random draws as functions of their parameters and seed. */
  datatype Draws = Draws(
    rngFor: (Tag, nat, seq<Byte>, nat) -> Seed,
    unit: Seed -> real,
    bernoulli: (real, Seed) -> bool,
    lognormal: (real, real, Seed) -> real,
    gamma: (real, real, Seed) -> real,
    ln: real -> real)

  // ---------------------------------------------------------------- the pure definition

  /** Bernoulli::new on a clamped probability, then one draw. */
  function Flip(draws: Draws, probability: real, seed: Seed): bool
  {
    draws.bernoulli(Unit(probability), seed)
  }

  /** The probability that the burst chain changes state on entering a bucket. */
  function TransitionProbability(m: Manifest, loss: LossProfile, previousBad: bool, bucket: nat): real
    requires ValidProbability(loss.goodToBad) && ValidProbability(loss.badToGood)
  {
    Evaluate(if previousBad then loss.badToGood else loss.goodToBad, PressureAt(m.curve, bucket as real))
  }

  /** The state of the burst chain in one bucket, given its state in the bucket before. */
  function BurstStep(m: Manifest, draws: Draws, previousBad: bool, bucket: nat): bool
    requires ValidManifest(m)
  {
    if m.profile.None? || m.profile.value.burstLoss.None? then false
    else
      var p := TransitionProbability(m, m.profile.value.burstLoss.value, previousBad, bucket);
      Flip(draws, p, draws.rngFor(Tag.BurstLoss, bucket, [], 0)) != previousBad
  }

  /** The burst chain, bucket by bucket from the good state. */
  function BurstBad(m: Manifest, draws: Draws, bucket: nat): bool
    requires ValidManifest(m)
  {
    BurstStep(m, draws, if bucket == 0 then false else BurstBad(m, draws, bucket - 1), bucket)
  }

  datatype Latent = Latent(pressureJitter: real, burstBad: bool)

  function LatentAt(m: Manifest, draws: Draws, bucket: nat): Latent
    requires ValidManifest(m)
  {
    Latent((draws.unit(draws.rngFor(LatentPressure, bucket, [], 0)) - 0.5) * 0.07, BurstBad(m, draws, bucket))
  }

  datatype Outcome = Outcome(
    emitted: bool, pressure: real, sourceLagMs: real, collectorLagMs: real, receivedLagMs: Option<real>, burstBad: bool)

  function DeterministicSample(pressure: real, sequence: nat): Outcome
  {
    Outcome(true, pressure, 8.0 + pressure * 64.0 + sequence as real * 0.2,
            28.0 + pressure * 88.0 + sequence as real * 0.3, None, false)
  }

  /** sample_delay; an error is what Gamma::new reports for a parameter that is not positive. */
  function SampleDelay(draws: Draws, delay: Delay, target: real, seed: Seed): Result<real, ()>
  {
    if target <= 0.0 then Ok(0.0)
    else if delay.kind.Lognormal? then Ok(draws.lognormal(draws.ln(target), delay.sigma, seed))
    else if delay.shape <= 0.0 || target / delay.shape <= 0.0 then Err(())
    else Ok(draws.gamma(delay.shape, target / delay.shape, seed))
  }

  function BucketForOffset(offsetSec: real): nat
  {
    if offsetSec <= 0.0 then 0
    else if offsetSec.Floor >= U32_MAX then U32_MAX
    else offsetSec.Floor
  }

  /** The pressure a worker feels, from the base pressure and the bucket's latent values. */
  function FeltPressure(profile: Profile, kind: WorkerKind, latent: Latent, base: real): real
    requires ValidProfile(profile)
  {
    var jittered := Unit(base + latent.pressureJitter);
    var bursting := if latent.burstBad then Unit(jittered + 0.08) else jittered;
    Unit(bursting * Clamp(profile.sensitivity[kind], 0.0, 10.0))
  }

  function EmitProbability(profile: Profile, latent: Latent, pressure: real): real
    requires ValidProfile(profile)
  {
    var p := if profile.emission.Some? then Evaluate(profile.emission.value, pressure) else 1.0;
    if latent.burstBad && profile.burstLoss.Some? && profile.burstLoss.value.badEmitProbability < p
    then profile.burstLoss.value.badEmitProbability else p
  }

  /** What a sample is, given the latent values of its bucket. */
  function SampleWith(
    m: Manifest, draws: Draws, profile: Profile, latent: Latent, worker: Worker, sequence: nat, bucket: nat, base: real)
    : Result<Outcome, ()>
    requires ValidProfile(profile)
  {
    var pressure := FeltPressure(profile, worker.kind, latent, base);
    var emitted := Flip(draws, EmitProbability(profile, latent, pressure),
                        draws.rngFor(Emission, bucket, worker.id, sequence));
    if emitted && profile.delay.Some? then
      var delay := profile.delay.value;
      match SampleDelay(draws, delay, Evaluate(delay.sourceLagMs, pressure),
                        draws.rngFor(SourceLag, bucket, worker.id, sequence))
      case Err(e) => Err(e)
      case Ok(source) =>
        match SampleDelay(draws, delay, Evaluate(delay.collectorLagMs, pressure),
                          draws.rngFor(CollectorLag, bucket, worker.id, sequence))
        case Err(e) => Err(e)
        case Ok(drawn) =>
          var collector := if drawn > source then drawn else source;
          Ok(Outcome(emitted, pressure, source, collector, Some(collector), latent.burstBad))
    else
      var d := DeterministicSample(pressure, sequence);
      Ok(Outcome(emitted, pressure, d.sourceLagMs, d.collectorLagMs, None, latent.burstBad))
  }

  /** A sample as a function of the manifest and the call's arguments alone. */
  function Sample(
    m: Manifest, draws: Draws, worker: Worker, sequence: nat, offsetSec: real, base: real): Result<Outcome, ()>
    requires ValidManifest(m)
  {
    if m.profile.None? then Ok(DeterministicSample(base, sequence))
    else
      var bucket := BucketForOffset(offsetSec);
      SampleWith(m, draws, m.profile.value, LatentAt(m, draws, bucket), worker, sequence, bucket, base)
  }

  // ---------------------------------------------------------------- the memoising sampler

  class Sampler {
    const manifest: Manifest
    const draws: Draws
    var latentBuckets: map<nat, Latent>
    var burstStates: seq<bool>

    /** Every cached value is the pure definition's. */
    ghost predicate Valid()
      reads this
    {
      && ValidManifest(manifest)
      && (forall b :: b in latentBuckets ==> latentBuckets[b] == LatentAt(manifest, draws, b))
      && (forall b :: 0 <= b < |burstStates| ==> burstStates[b] == BurstBad(manifest, draws, b))
    }

    constructor (manifest: Manifest, draws: Draws)
      requires ValidManifest(manifest)
      ensures Valid() && this.manifest == manifest && this.draws == draws
    {
      this.manifest, this.draws := manifest, draws;
      latentBuckets, burstStates := map[], [];
    }

    method EnsureBurstStates(bucket: nat)
      requires Valid()
      modifies this`burstStates
      ensures Valid() && bucket < |burstStates| && old(burstStates) <= burstStates
    {
      while |burstStates| <= bucket
        invariant Valid() && old(burstStates) <= burstStates
        decreases bucket + 1 - |burstStates|
      {
        var current := |burstStates|;
        var previousBad := if current == 0 then false else burstStates[current - 1];
        burstStates := burstStates + [BurstStep(manifest, draws, previousBad, current)];
      }
    }

    method LatentBucket(bucket: nat) returns (latent: Latent)
      requires Valid()
      modifies this
      ensures Valid() && latent == LatentAt(manifest, draws, bucket)
    {
      if bucket in latentBuckets {
        return latentBuckets[bucket];
      }
      EnsureBurstStates(bucket);
      var jitter := (draws.unit(draws.rngFor(LatentPressure, bucket, [], 0)) - 0.5) * 0.07;
      latent := Latent(jitter, burstStates[bucket]);
      latentBuckets := latentBuckets[bucket := latent];
    }

    /** Whatever was sampled before, the outcome is the memoryless one. */
    method Draw(worker: Worker, sequence: nat, offsetSec: real, base: real) returns (r: Result<Outcome, ()>)
      requires Valid()
      modifies this
      ensures Valid() && r == Sample(manifest, draws, worker, sequence, offsetSec, base)
    {
      if manifest.profile.None? {
        return Ok(DeterministicSample(base, sequence));
      }
      var bucket := BucketForOffset(offsetSec);
      var latent := LatentBucket(bucket);
      r := SampleWith(manifest, draws, manifest.profile.value, latent, worker, sequence, bucket, base);
    }
  }

  datatype Request = Request(worker: Worker, sequence: nat, offsetSec: real, base: real)

  /** A whole history of samples: each outcome depends on its own request only. */
  method DrawAll(sampler: Sampler, requests: seq<Request>) returns (outcomes: seq<Result<Outcome, ()>>)
    requires sampler.Valid()
    modifies sampler
    ensures sampler.Valid() && |outcomes| == |requests|
    ensures forall i :: 0 <= i < |requests| ==>
      outcomes[i] == Sample(sampler.manifest, sampler.draws, requests[i].worker, requests[i].sequence,
                            requests[i].offsetSec, requests[i].base)
  {
    outcomes := [];
    for n := 0 to |requests|
      invariant sampler.Valid() && |outcomes| == n
      invariant forall i :: 0 <= i < n ==>
        outcomes[i] == Sample(sampler.manifest, sampler.draws, requests[i].worker, requests[i].sequence,
                              requests[i].offsetSec, requests[i].base)
    {
      var q := requests[n];
      var r := sampler.Draw(q.worker, q.sequence, q.offsetSec, q.base);
      outcomes := outcomes + [r];
    }
  }

  // ---------------------------------------------------------------- properties of a sample

  /** A validated parameter stays between its bounds, ends included. */
  lemma EvaluateBounds(p: Param, pressure: real)
    requires p.min <= p.max
    ensures p.min <= Evaluate(p, pressure) <= p.max
  {
  }

  /** On a validated manifest the clamp inside sample_bernoulli never takes effect. */
  lemma ProbabilitiesNeedNoClamp(
    m: Manifest, profile: Profile, latent: Latent, pressure: real, previousBad: bool, bucket: nat)
    requires ValidManifest(m) && m.profile == Some(profile)
    ensures Unit(EmitProbability(profile, latent, pressure)) == EmitProbability(profile, latent, pressure)
    ensures profile.burstLoss.Some? ==>
      var p := TransitionProbability(m, profile.burstLoss.value, previousBad, bucket); Unit(p) == p
    ensures latent.burstBad && profile.burstLoss.Some? ==>
      EmitProbability(profile, latent, pressure) <= profile.burstLoss.value.badEmitProbability
  {
  }

  lemma QuotientPositive(a: real, b: real)
    requires a > 0.0 && b > 0.0
    ensures a / b > 0.0
  {
  }

  /** Sampling a validated manifest never fails. */
  lemma SamplesNeverFail(m: Manifest, draws: Draws, worker: Worker, sequence: nat, offsetSec: real, base: real)
    requires ValidManifest(m)
    ensures Sample(m, draws, worker, sequence, offsetSec, base).Ok?
  {
    if m.profile.Some? && m.profile.value.delay.Some? {
      var profile, delay := m.profile.value, m.profile.value.delay.value;
      var pressure := FeltPressure(profile, worker.kind, LatentAt(m, draws, BucketForOffset(offsetSec)), base);
      var source, collector := Evaluate(delay.sourceLagMs, pressure), Evaluate(delay.collectorLagMs, pressure);
      if source > 0.0 { QuotientPositive(source, delay.shape); }
      if collector > 0.0 { QuotientPositive(collector, delay.shape); }
    }
  }

  /**
   The collector never lags less than the source, exactly unless the manifest has no distribution
   profile and the raw base pressure is below zero by enough to reverse the two straight lines.
   */
  lemma CollectorFollowsSource(m: Manifest, draws: Draws, worker: Worker, sequence: nat, offsetSec: real, base: real)
    requires ValidManifest(m)
    ensures var r := Sample(m, draws, worker, sequence, offsetSec, base);
      r.Ok? && (r.value.sourceLagMs <= r.value.collectorLagMs
                <==> m.profile.Some? || base * 24.0 + 20.0 + sequence as real * 0.1 >= 0.0)
    ensures m.profile.Some? ==> 0.0 <= Sample(m, draws, worker, sequence, offsetSec, base).value.pressure <= 1.0
  {
    SamplesNeverFail(m, draws, worker, sequence, offsetSec, base);
  }

  /** The burst chain without a loss profile, or with one that never leaves the good state, is never bad. */
  lemma {:induction false} BurstNeedsTransition(m: Manifest, draws: Draws, bucket: nat)
    requires ValidManifest(m)
    requires forall b: nat :: b <= bucket && m.profile.Some? && m.profile.value.burstLoss.Some? ==>
      !Flip(draws, TransitionProbability(m, m.profile.value.burstLoss.value, false, b),
          draws.rngFor(Tag.BurstLoss, b, [], 0))
    ensures !BurstBad(m, draws, bucket)
  {
    if bucket > 0 {
      BurstNeedsTransition(m, draws, bucket - 1);
    }
  }

  // ---------------------------------------------------------------- what randomness a sample reads

  /** The draws of a sampler with this manifest seed. */
  function SeededBy(draws: Draws, seed: Seed): Draws
  {
    draws.(rngFor := (tag: Tag, bucket: nat, worker: seq<Byte>, sequence: nat) => DeriveSeed(seed, tag, bucket, worker,
        sequence))
  }

  /** The same with any function of the hashed bytes in place of the hash. */
  function KeyedBy(draws: Draws, hash: seq<Byte> -> Seed): Draws
  {
    draws.(rngFor := (tag: Tag, bucket: nat, worker: seq<Byte>, sequence: nat) =>
      hash(SeedKey(TagBytes(tag), bucket, worker, sequence)))
  }

  /** The generators that one sample reads are the same ones: its own three, and those its bucket shares. */
  ghost predicate AgreeOn(d: Draws, e: Draws, bucket: nat, worker: seq<Byte>, sequence: nat)
  {
    && e == d.(rngFor := e.rngFor)
    && (forall tag :: tag in {Emission, SourceLag, CollectorLag} ==>
          e.rngFor(tag, bucket, worker, sequence) == d.rngFor(tag, bucket, worker, sequence))
    && e.rngFor(LatentPressure, bucket, [], 0) == d.rngFor(LatentPressure, bucket, [], 0)
    && (forall b: nat :: b <= bucket ==> e.rngFor(Tag.BurstLoss, b, [], 0) == d.rngFor(Tag.BurstLoss, b, [], 0))
  }

  lemma {:induction false} BurstAgrees(m: Manifest, d: Draws, e: Draws, bucket: nat)
    requires ValidManifest(m) && e == d.(rngFor := e.rngFor)
    requires forall b: nat :: b <= bucket ==> e.rngFor(Tag.BurstLoss, b, [], 0) == d.rngFor(Tag.BurstLoss, b, [], 0)
    ensures BurstBad(m, e, bucket) == BurstBad(m, d, bucket)
  {
    if bucket > 0 {
      BurstAgrees(m, d, e, bucket - 1);
    }
  }

  lemma SampleAgrees(m: Manifest, d: Draws, e: Draws, worker: Worker, sequence: nat, offsetSec: real, base: real)
    requires ValidManifest(m) && AgreeOn(d, e, BucketForOffset(offsetSec), worker.id, sequence)
    ensures Sample(m, e, worker, sequence, offsetSec, base) == Sample(m, d, worker, sequence, offsetSec, base)
  {
    BurstAgrees(m, d, e, BucketForOffset(offsetSec));
    assert Emission in {Emission, SourceLag, CollectorLag};
    assert SourceLag in {Emission, SourceLag, CollectorLag};
    assert CollectorLag in {Emission, SourceLag, CollectorLag};
  }

  /** The manifest's hash, but for the seed of one frame's draw. */
  function Altered(seed: Seed, key: seq<Byte>, other: Seed): seq<Byte> -> Seed
  {
    (bytes: seq<Byte>) => if bytes == key then other else Hashed(FNV_OFFSET ^ seed, bytes)
  }

  lemma AlteredElsewhere(
    draws: Draws, seed: Seed, other: Seed, tag: Tag, bucket: nat, worker: seq<Byte>, sequence: nat,
    t: Tag, b: nat, w: seq<Byte>, s: nat)
    requires bucket <= U32_MAX && b <= U32_MAX && sequence <= U64_MAX && s <= U64_MAX
    requires (t, b, w, s) != (tag, bucket, worker, sequence)
    ensures KeyedBy(draws, Altered(seed, SeedKey(TagBytes(tag), bucket, worker, sequence), other)).rngFor(t, b, w, s)
            == SeededBy(draws, seed).rngFor(t, b, w, s)
  {
    SeedIsHashOfKey(seed, t, b, w, s);
    if SeedKey(TagBytes(t), b, w, s) == SeedKey(TagBytes(tag), bucket, worker, sequence) {
      SeedKeyInjective(t, b, w, s, tag, bucket, worker, sequence);
    }
  }

  /**
   Frames are independent of each other: whatever generator one draw of one frame were given instead of its own, no
   sample of another bucket, worker or sequence number would change.
   */
  lemma FramesAreIndependent(
    m: Manifest, draws: Draws, seed: Seed, other: Seed, tag: Tag, bucket: nat, id: seq<Byte>, number: nat,
    worker: Worker, sequence: nat, offsetSec: real, base: real)
    requires ValidManifest(m) && tag in {Emission, SourceLag, CollectorLag}
    requires bucket <= U32_MAX && number <= U64_MAX && sequence <= U64_MAX
    requires (bucket, id, number) != (BucketForOffset(offsetSec), worker.id, sequence)
    ensures Sample(m, KeyedBy(draws, Altered(seed, SeedKey(TagBytes(tag), bucket, id, number), other)),
                   worker, sequence, offsetSec, base)
            == Sample(m, SeededBy(draws, seed), worker, sequence, offsetSec, base)
  {
    var d, e := SeededBy(draws, seed), KeyedBy(draws, Altered(seed, SeedKey(TagBytes(tag), bucket, id, number), other));
    var at := BucketForOffset(offsetSec);
    forall t ensures e.rngFor(t, at, worker.id, sequence) == d.rngFor(t, at, worker.id, sequence) {
      AlteredElsewhere(draws, seed, other, tag, bucket, id, number, t, at, worker.id, sequence);
    }
    AlteredElsewhere(draws, seed, other, tag, bucket, id, number, LatentPressure, at, [], 0);
    forall b: nat | b <= at ensures e.rngFor(Tag.BurstLoss, b, [], 0) == d.rngFor(Tag.BurstLoss, b, [], 0) {
      AlteredElsewhere(draws, seed, other, tag, bucket, id, number, Tag.BurstLoss, b, [], 0);
    }
    SampleAgrees(m, d, e, worker, sequence, offsetSec, base);
  }
}
