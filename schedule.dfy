/**
 * The scenario scheduler: schedule rules map a day index and a baseline
 * parameter value to the value in effect on that day.
 */
module Schedule {

  /** A schedule rule. Any pure total function of (day, base) is a valid rule. */
  type Rule = (int, real) -> real

  /**
   * Step change: the baseline is kept on every day before `afterDay` and is
   * multiplied by `factor` from `afterDay` on (the threshold day included).
   * `factor` is not validated.
   */
  function StepChange(afterDay: int, factor: real): (rule: Rule)
    ensures forall day: int, base: real :: day < afterDay ==> rule(day, base) == base
    ensures forall day: int, base: real :: afterDay <= day ==> rule(day, base) == base * factor
  {
    (day: int, base: real) => if day >= afterDay then base * factor else base
  }

  /** A non-negative baseline stays non-negative under a non-negative factor. */
  lemma StepChangeNonNegative(afterDay: int, factor: real, base: real)
    requires 0.0 <= base && 0.0 <= factor
    ensures forall day: int :: 0.0 <= StepChange(afterDay, factor)(day, base)
  {
  }

  /**
   * A reduction (0 <= factor <= 1, e.g. a lockdown acting on beta) never
   * raises a non-negative parameter later in time; an increase
   * (factor >= 1, e.g. a treatment acting on gamma) never lowers it.
   */
  lemma StepChangeMonotoneInDay(afterDay: int, factor: real, base: real, d1: int, d2: int)
    requires 0.0 <= base && d1 <= d2
    ensures 0.0 <= factor <= 1.0 ==> StepChange(afterDay, factor)(d2, base) <= StepChange(afterDay, factor)(d1, base)
    ensures 1.0 <= factor ==> StepChange(afterDay, factor)(d1, base) <= StepChange(afterDay, factor)(d2, base)
  {
    var rule := StepChange(afterDay, factor);
    if d1 < afterDay <= d2 {
      assert rule(d1, base) == base && rule(d2, base) == base * factor;
      if factor <= 1.0 {
        assert base * factor <= base * 1.0;
      }
      if 1.0 <= factor {
        assert base * 1.0 <= base * factor;
      }
    }
  }

  /** Worked example: after day 10 the rate is halved; day 9 is still before the change. */
  lemma StepChangeExample()
    ensures StepChange(10, 0.5)(9, 2.0) == 2.0
    ensures StepChange(10, 0.5)(10, 2.0) == 1.0
    ensures StepChange(10, 0.5)(50, 2.0) == 1.0
  {
  }
}
