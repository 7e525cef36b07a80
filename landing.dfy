/** The counting-up statistics on the landing page (src/components/LandingPage.js):
    a timer that, 60 times, sets each counter to its share of the target. */
module Landing {

  datatype Stats = Stats(volunteers: int, events: int, hours: int)

  const Steps: nat := 60
  const Target := Stats(500, 100, 2500)

  /** What the counters show before the first tick. */
  const Initial := Stats(0, 0, 0)

  /** `Math.floor(target * step / steps)` for each counter; all operands are
      non-negative, so Dafny's division is the floor. */
  function StatsAt(step: nat): Stats {
    Stats(Target.volunteers * step / Steps, Target.events * step / Steps, Target.hours * step / Steps)
  }

  predicate AtMost(a: Stats, b: Stats) {
    a.volunteers <= b.volunteers && a.events <= b.events && a.hours <= b.hours
  }

  /** Runs the interval timer to completion and returns the value shown after
      each tick: 60 ticks, tick k showing StatsAt(k), the last one the target. */
  method Animate() returns (shown: seq<Stats>)
    ensures |shown| == Steps
    ensures forall k :: 0 <= k < |shown| ==> shown[k] == StatsAt(k + 1)
    ensures shown[Steps - 1] == Target
  {
    var currentStep := 0;
    var stats := Initial;
    var running := true;
    shown := [];
    while running
      invariant 0 <= currentStep <= Steps
      invariant running <==> currentStep < Steps
      invariant |shown| == currentStep
      invariant forall k :: 0 <= k < |shown| ==> shown[k] == StatsAt(k + 1)
      invariant currentStep > 0 ==> stats == StatsAt(currentStep)
      decreases Steps - currentStep
    {
      currentStep := currentStep + 1;
      stats := Stats(Target.volunteers * currentStep / Steps,
                     Target.events * currentStep / Steps,
                     Target.hours * currentStep / Steps);
      shown := shown + [stats];
      if currentStep >= Steps {
        running := false;
      }
    }
  }

  lemma FloorDivMonotone(a: int, b: int, d: int)
    requires 0 < d && a <= b
    ensures a / d <= b / d
  {
    var qa, qb := a / d, b / d;
    assert d * qa <= a && b < d * qb + d;
    assert d * qa < d * (qb + 1);
    MulCancel(d, qa, qb + 1);
  }

  lemma MulCancel(d: int, x: int, y: int)
    requires 0 < d && d * x < d * y
    ensures x < y
  {
  }

  /** Before the first tick every counter is 0, which is StatsAt(0). */
  lemma InitialIsStepZero()
    ensures StatsAt(0) == Initial
  {
  }

  /** No counter goes down from one tick to the next. */
  lemma CountersNeverDecrease(k: nat)
    ensures AtMost(StatsAt(k), StatsAt(k + 1))
  {
    FloorDivMonotone(Target.volunteers * k, Target.volunteers * (k + 1), Steps);
    FloorDivMonotone(Target.events * k, Target.events * (k + 1), Steps);
    FloorDivMonotone(Target.hours * k, Target.hours * (k + 1), Steps);
  }

  /** Up to the last tick no counter passes its target, and every counter is
      non-negative. */
  lemma CountersBounded(k: nat)
    requires k <= Steps
    ensures AtMost(StatsAt(k), Target)
    ensures AtMost(Initial, StatsAt(k))
  {
    FloorDivMonotone(Target.volunteers * k, Target.volunteers * Steps, Steps);
    FloorDivMonotone(Target.events * k, Target.events * Steps, Steps);
    FloorDivMonotone(Target.hours * k, Target.hours * Steps, Steps);
  }
}
