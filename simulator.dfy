/** The production-line simulator: a bottling line whose rate drifts around
    its target, stops at random for a while, restarts at a reduced rate, and
    produces defects. Every `Math.random()` draw is a parameter, a real in
    [0, 1). */
module Simulator {
  import opened Folds
  import opened Shifts

  const TargetRate: int := 120
  const MinRate: int := 100
  const MaxRate: int := 130
  const DefectProbability: real := 0.02
  const DowntimeProbability: real := 0.03
  const QualityIssueProbability: real := 0.01

  /** `Math.floor(TargetRate * 0.7)` and `Math.floor(TargetRate * 0.8)`. */
  const RestartRate: int := 84
  const ForcedRestartRate: int := 96

  predicate IsDraw(r: real) {
    0.0 <= r < 1.0
  }

  /** `Math.floor(draw * n)` for a draw in [0, 1): an integer in [0, n). */
  function Scale(draw: real, n: nat): (k: int)
    requires IsDraw(draw) && n > 0
    ensures 0 <= k < n
  {
    ScaleBelow(draw, n as real);
    (draw * n as real).Floor
  }

  lemma ScaleBelow(draw: real, n: real)
    requires 0.0 <= draw < 1.0 && n > 0.0
    ensures 0.0 <= draw * n < n
  {
    assert (1.0 - draw) * n > 0.0;
  }

  /** A data point as generateData returns it; timestamp is the clock. */
  datatype ProductionPoint = ProductionPoint(timestamp: int, actualRate: int, targetRate: int,
                                             bottlesProduced: int, defectCount: int, isRunning: bool)

  /** The draws one call of generateData may consume, in order: the stop
      draw, the stop-duration draw, the rate draw, one draw per bottle, the
      quality-issue draw and the extra-defects draw. */
  datatype Draws = Draws(stop: real, duration: real, rate: real, perBottle: seq<real>,
                         quality: real, extra: real)

  predicate ValidDraws(d: Draws) {
    IsDraw(d.stop) && IsDraw(d.duration) && IsDraw(d.rate) && IsDraw(d.quality) && IsDraw(d.extra)
    && forall i :: 0 <= i < |d.perBottle| ==> IsDraw(d.perBottle[i])
  }

  /** simulateRateVariation: add a variation in [-10, 10], clamp to
      [MinRate, MaxRate], then move 2 towards the target when more than 5
      away from it. */
  function RateVariation(current: int, draw: real): (r: int)
    requires IsDraw(draw)
    ensures MinRate + 2 <= r <= MaxRate - 2
    ensures current + Scale(draw, 21) - 10 < MinRate ==> r == MinRate + 2
    ensures current + Scale(draw, 21) - 10 > MaxRate ==> r == MaxRate - 2
    ensures MinRate <= current + Scale(draw, 21) - 10 <= MaxRate ==>
      var n := current + Scale(draw, 21) - 10;
      if TargetRate - n > 5 then r == n + 2 else if n - TargetRate > 5 then r == n - 2 else r == n
  {
    var variation := Scale(draw, 21) - 10;
    var clamped := Max(MinRate, Min(MaxRate, current + variation));
    var gap := TargetRate - clamped;
    if gap > 5 then clamped + 2 else if gap < -5 then clamped - 2 else clamped
  }

  function Max(a: int, b: int): int { if a >= b then a else b }
  function Min(a: int, b: int): int { if a <= b then a else b }

  /** From the reduced restart rate every draw lands on 102. */
  lemma RestartVariesTo102(draw: real)
    requires IsDraw(draw)
    ensures RateVariation(RestartRate, draw) == 102
  {
  }

  /** Inside the rate window a variation moves the rate by at most 12. */
  lemma RateVariationStep(current: int, draw: real)
    requires IsDraw(draw) && MinRate <= current <= MaxRate
    ensures -12 <= RateVariation(current, draw) - current <= 12
  {
  }

  /** The defect draw of one bottle hits. */
  predicate DefectHit(draw: real) {
    draw < DefectProbability
  }

  /** The extra defects of a prolonged quality issue, 3 to 7, or none. */
  function ExtraDefects(quality: real, extra: real): (k: int)
    requires IsDraw(quality) && IsDraw(extra)
    ensures quality < QualityIssueProbability ==> 3 <= k <= 7
    ensures quality >= QualityIssueProbability ==> k == 0
  {
    if quality < QualityIssueProbability then Scale(extra, 5) + 3 else 0
  }

  datatype Status = Status(isRunning: bool, currentRate: int, targetRate: int,
                           downtimeRemaining: int, consecutiveDefects: int)

  class ProductionSimulator {
    var isRunning: bool
    var currentRate: int
    var downtimeRemaining: int
    var consecutiveDefects: int

    /** The rate is never negative nor above MaxRate, and the defect streak
        is never negative. */
    ghost predicate Valid()
      reads this
    {
      0 <= currentRate <= MaxRate && consecutiveDefects >= 0
    }

    constructor()
      ensures Valid()
      ensures isRunning && currentRate == TargetRate && downtimeRemaining == 0 && consecutiveDefects == 0
    {
      isRunning := true;
      currentRate := TargetRate;
      downtimeRemaining := 0;
      consecutiveDefects := 0;
    }

    /** getStatus */
    function GetStatus(): (s: Status)
      reads this
      ensures s.targetRate == TargetRate
      ensures s.isRunning == isRunning && s.currentRate == currentRate
      ensures s.downtimeRemaining == downtimeRemaining && s.consecutiveDefects == consecutiveDefects
    {
      Status(isRunning, currentRate, TargetRate, downtimeRemaining, consecutiveDefects)
    }

    /** triggerDowntime: a stop of 30 to 299 seconds. */
    method TriggerDowntime(draw: real)
      requires IsDraw(draw) && Valid()
      modifies this
      ensures Valid()
      ensures downtimeRemaining == Scale(draw, 270) + 30 && 30 <= downtimeRemaining <= 299
      ensures !isRunning && currentRate == 0 && consecutiveDefects == old(consecutiveDefects)
    {
      var duration := Scale(draw, 270) + 30;
      downtimeRemaining := duration;
      isRunning := false;
      currentRate := 0;
    }

    /** simulateDefects: one draw per bottle, then a rare quality issue that
        adds 3 to 7 defects. The streak grows by each hit and, on a quality
        issue, by the whole defect total again; a tick without defects
        shortens a positive streak by one. */
    method SimulateDefects(bottles: nat, perBottle: seq<real>, quality: real, extra: real) returns (defects: int)
      requires Valid() && |perBottle| >= bottles && IsDraw(quality) && IsDraw(extra)
      modifies this
      ensures Valid()
      ensures var hits := Count(perBottle[..bottles], DefectHit);
        defects == hits + ExtraDefects(quality, extra)
        && consecutiveDefects ==
             (if defects == 0 && old(consecutiveDefects) > 0 then old(consecutiveDefects) - 1
              else old(consecutiveDefects) + hits + (if quality < QualityIssueProbability then defects else 0))
      ensures 0 <= defects <= bottles + 7
      ensures isRunning == old(isRunning) && currentRate == old(currentRate)
      ensures downtimeRemaining == old(downtimeRemaining)
    {
      defects := 0;
      for i := 0 to bottles
        invariant defects == Count(perBottle[..i], DefectHit)
        invariant consecutiveDefects == old(consecutiveDefects) + defects
        invariant isRunning == old(isRunning) && currentRate == old(currentRate)
        invariant downtimeRemaining == old(downtimeRemaining)
      {
        assert perBottle[..i + 1] == perBottle[..i] + [perBottle[i]];
        CountSnoc(perBottle[..i], perBottle[i], DefectHit);
        if perBottle[i] < DefectProbability {
          defects := defects + 1;
          consecutiveDefects := consecutiveDefects + 1;
        }
      }
      if quality < QualityIssueProbability {
        defects := defects + Scale(extra, 5) + 3;
        consecutiveDefects := consecutiveDefects + defects;
      }
      if defects == 0 && consecutiveDefects > 0 {
        consecutiveDefects := Max(0, consecutiveDefects - 1);
      }
    }

    /** generateData: count down a stop, or restart at the reduced rate, or
        possibly stop at random; a running line then varies its rate; one
        second yields rate/60 bottles. */
    method GenerateData(d: Draws, now: int) returns (p: ProductionPoint)
      requires Valid() && ValidDraws(d) && |d.perBottle| >= MaxRate / 60
      modifies this
      ensures Valid()
      ensures old(downtimeRemaining) > 0 ==>
        downtimeRemaining == old(downtimeRemaining) - 1 && !isRunning && currentRate == 0
      ensures old(downtimeRemaining) <= 0 && !old(isRunning) ==>
        downtimeRemaining == old(downtimeRemaining) && isRunning && currentRate == 102
      ensures old(downtimeRemaining) <= 0 && old(isRunning) && d.stop < DowntimeProbability ==>
        downtimeRemaining == Scale(d.duration, 270) + 30 && !isRunning && currentRate == 0
      ensures old(downtimeRemaining) <= 0 && old(isRunning) && d.stop >= DowntimeProbability ==>
        downtimeRemaining == old(downtimeRemaining) && isRunning
        && currentRate == RateVariation(old(currentRate), d.rate)
      ensures p.timestamp == now && p.targetRate == TargetRate
      ensures p.actualRate == currentRate && p.isRunning == isRunning
      ensures p.bottlesProduced == currentRate / 60
      ensures !p.isRunning ==> p.actualRate == 0 && p.bottlesProduced == 0
      ensures 0 <= p.defectCount <= p.bottlesProduced + 7
      ensures p.defectCount == Count(d.perBottle[..p.bottlesProduced], DefectHit) + ExtraDefects(d.quality, d.extra)
      ensures var hits := Count(d.perBottle[..p.bottlesProduced], DefectHit);
        consecutiveDefects ==
          (if p.defectCount == 0 && old(consecutiveDefects) > 0 then old(consecutiveDefects) - 1
           else old(consecutiveDefects) + hits + (if d.quality < QualityIssueProbability then p.defectCount else 0))
    {
      if downtimeRemaining > 0 {
        downtimeRemaining := downtimeRemaining - 1;
        isRunning := false;
        currentRate := 0;
      } else if !isRunning {
        isRunning := true;
        currentRate := RestartRate;
      } else {
        if d.stop < DowntimeProbability {
          TriggerDowntime(d.duration);
        }
      }
      if isRunning {
        currentRate := RateVariation(currentRate, d.rate);
        RestartVariesTo102(d.rate);
      }
      var bottles := currentRate / 60;
      var defects := SimulateDefects(bottles, d.perBottle, d.quality, d.extra);
      p := ProductionPoint(now, currentRate, TargetRate, bottles, defects, isRunning);
    }

    /** getCurrentShift, with the hour of the clock as a parameter. */
    function GetCurrentShift(hour: int): (s: Shift)
      ensures s == Matin <==> 6 <= hour < 14
      ensures s == ApresMidi <==> 14 <= hour < 22
    {
      CurrentShift(hour)
    }

    /** forceDowntime: stop for the given seconds; the rate is left as it is. */
    method ForceDowntime(seconds: int)
      requires Valid()
      modifies this
      ensures Valid()
      ensures downtimeRemaining == seconds && !isRunning
      ensures currentRate == old(currentRate) && consecutiveDefects == old(consecutiveDefects)
    {
      downtimeRemaining := seconds;
      isRunning := false;
    }

    /** forceRestart: run again at 80% of the target. */
    method ForceRestart()
      requires Valid()
      modifies this
      ensures Valid()
      ensures downtimeRemaining == 0 && isRunning && currentRate == ForcedRestartRate
      ensures consecutiveDefects == old(consecutiveDefects)
    {
      downtimeRemaining := 0;
      isRunning := true;
      currentRate := ForcedRestartRate;
    }
  }

  /** The module-level singleton of getSimulator. */
  class SimulatorHolder {
    var instance: ProductionSimulator?

    constructor()
      ensures instance == null
    {
      instance := null;
    }

    /** getSimulator: create on first use, then always the same instance. */
    method GetSimulator() returns (s: ProductionSimulator)
      modifies this
      ensures old(instance) != null ==> s == old(instance)
      ensures old(instance) == null ==> fresh(s) && s.Valid()
      ensures instance == s
    {
      if instance == null {
        instance := new ProductionSimulator();
      }
      s := instance;
    }
  }
}
