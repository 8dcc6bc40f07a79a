/**
 * What the simulator guarantees: validation, record count and order,
 * conservation, non-negativity, monotonicity, the placement of the
 * vaccination pulse and the rates reported in each record.
 */
module SirProperties {
  import opened Wrappers
  import opened Sir
  import Schedule

  /** The configuration of the matching run without a vaccination pulse. */
  function WithoutPulse(cfg: Config): Config {
    cfg.(pulse := None)
  }

  /** The clamped pulse fraction lies in [0, 1] and equals the given fraction when that already does. */
  lemma Clamp01Range(x: real)
    ensures 0.0 <= Clamp01(x) <= 1.0
    ensures 0.0 <= x <= 1.0 ==> Clamp01(x) == x
    ensures x < 0.0 ==> Clamp01(x) == 0.0
    ensures 1.0 < x ==> Clamp01(x) == 1.0
  {
  }

  /**
   * The vaccination pulse on day `t`: on the trigger day the clamped fraction
   * of S (taken before that day's update) moves to R, leaving I and the total
   * alone; on every other day, and when there is no pulse, nothing changes.
   */
  lemma PulseEffect(pulse: Option<(int, real)>, t: int, st: State)
    ensures ApplyPulse(pulse, t, st).i == st.i
    ensures Total(ApplyPulse(pulse, t, st)) == Total(st)
    ensures !(pulse.Some? && pulse.value.0 == t) ==> ApplyPulse(pulse, t, st) == st
    ensures pulse.Some? && pulse.value.0 == t ==>
              ApplyPulse(pulse, t, st).r - st.r == Moved(pulse.value.1, st.s)
    ensures 0.0 <= st.s ==>
              0.0 <= ApplyPulse(pulse, t, st).s <= st.s && st.r <= ApplyPulse(pulse, t, st).r
  {
    Clamp01Range(if pulse.Some? then pulse.value.1 else 0.0);
  }

  /**
   * The daily update conserves the total; S is never driven negative (new
   * infections are capped at S); with beta >= 0 S does not grow and I stays
   * non-negative (recoveries are capped at I); with gamma >= 0 R does not
   * shrink.
   */
  lemma UpdateEffect(st: State, betaT: real, gammaT: real, n: int)
    requires n > 0
    ensures Total(Update(st, betaT, gammaT, n)) == Total(st)
    ensures 0.0 <= Update(st, betaT, gammaT, n).s
    ensures 0.0 <= betaT && 0.0 <= st.s && 0.0 <= st.i ==>
              Update(st, betaT, gammaT, n).s <= st.s && 0.0 <= Update(st, betaT, gammaT, n).i
    ensures 0.0 <= gammaT && 0.0 <= st.i ==> st.r <= Update(st, betaT, gammaT, n).r
  {
    assert 0.0 <= betaT && 0.0 <= st.s && 0.0 <= st.i ==> 0.0 <= betaT * st.s * st.i / n as real;
    assert 0.0 <= gammaT && 0.0 <= st.i ==> 0.0 <= gammaT * st.i;
  }

  /** Each invalid input is rejected with its own error, in the order the checks are made, and no records. */
  lemma SimulateValidation(cfg: Config, i0: int, r0: int, days: int)
    ensures i0 < 0 || r0 < 0 ==> Simulate(cfg, i0, r0, days) == Err(NegativeInitialCondition)
    ensures 0 <= i0 && 0 <= r0 && i0 + r0 > cfg.params.n ==>
              Simulate(cfg, i0, r0, days) == Err(InitialExceedsPopulation)
    ensures 0 <= i0 && 0 <= r0 && i0 + r0 <= cfg.params.n && days < 1 ==>
              Simulate(cfg, i0, r0, days) == Err(InvalidHorizon)
    ensures 0 <= i0 && 0 <= r0 && i0 + r0 <= cfg.params.n && 1 <= days && cfg.params.n == 0 ==>
              Simulate(cfg, i0, r0, days) == Err(ZeroPopulation)
    ensures Simulate(cfg, i0, r0, days).Ok? <==>
              0 <= i0 && 0 <= r0 && i0 + r0 <= cfg.params.n && 1 <= days && 0 < cfg.params.n
  {
  }

  /** The appended records are exactly the per-day records, one per day, in day order. */
  lemma {:induction false} RecordsShape(cfg: Config, init: State, count: nat)
    requires cfg.params.n > 0
    ensures |Records(cfg, init, count)| == count
    ensures forall k :: 0 <= k < count ==> Records(cfg, init, count)[k] == RecordAt(cfg, init, k)
  {
    if count > 0 {
      RecordsShape(cfg, init, count - 1);
    }
  }

  /** A successful run has exactly `days` records, record k is day k, so days strictly increase from 0. */
  lemma SimulateRecordDays(cfg: Config, i0: int, r0: int, days: int)
    requires Simulate(cfg, i0, r0, days).Ok?
    ensures var rows := Simulate(cfg, i0, r0, days).value;
      && |rows| == days
      && (forall k :: 0 <= k < days ==> rows[k].tDay == k)
      && (forall j, k :: 0 <= j < k < days ==> rows[j].tDay < rows[k].tDay)
  {
    RecordsShape(cfg, Initial(cfg.params.n, i0, r0), days);
  }

  /**
   * Record k carries the state after day k, N, the scenario label and the
   * rates in effect on day k: the schedule's value when one is given, the
   * base value otherwise.
   */
  lemma SimulateRecordFields(cfg: Config, i0: int, r0: int, days: int)
    requires Simulate(cfg, i0, r0, days).Ok?
    ensures var rows := Simulate(cfg, i0, r0, days).value;
      forall k :: 0 <= k < |rows| ==>
        && rows[k].n == cfg.params.n
        && rows[k].scenario == cfg.scenario
        && State(rows[k].s, rows[k].i, rows[k].r) == StateAfter(cfg, Initial(cfg.params.n, i0, r0), k + 1)
        && rows[k].beta == (if cfg.betaSchedule.Some? then cfg.betaSchedule.value(k, cfg.params.beta) else cfg.params.beta)
        && rows[k].gamma == (if cfg.gammaSchedule.Some? then cfg.gammaSchedule.value(k, cfg.params.gamma) else cfg.params.gamma)
  {
    RecordsShape(cfg, Initial(cfg.params.n, i0, r0), days);
  }

  /** One day, pulse and update together, conserves the population. */
  lemma StepConserves(cfg: Config, t: int, st: State)
    requires cfg.params.n > 0
    ensures Total(Step(cfg, t, st)) == Total(st)
  {
    PulseEffect(cfg.pulse, t, st);
    UpdateEffect(ApplyPulse(cfg.pulse, t, st), BetaAt(cfg, t), GammaAt(cfg, t), cfg.params.n);
  }

  /** Conservation: every state reached has the initial total. */
  lemma {:induction false} StateAfterConserves(cfg: Config, init: State, k: nat)
    requires cfg.params.n > 0
    ensures Total(StateAfter(cfg, init, k)) == Total(init)
  {
    if k > 0 {
      StateAfterConserves(cfg, init, k - 1);
      StepConserves(cfg, k - 1, StateAfter(cfg, init, k - 1));
    }
  }

  /** Conservation in the output: S + I + R == N in every record. */
  lemma SimulateConserves(cfg: Config, i0: int, r0: int, days: int)
    requires Simulate(cfg, i0, r0, days).Ok?
    ensures var rows := Simulate(cfg, i0, r0, days).value;
      forall k :: 0 <= k < |rows| ==> rows[k].s + rows[k].i + rows[k].r == cfg.params.n as real
  {
    var init := Initial(cfg.params.n, i0, r0);
    SimulateRecordFields(cfg, i0, r0, days);
    RecordsShape(cfg, init, days);
    forall k | 0 <= k < days
      ensures RecordAt(cfg, init, k).s + RecordAt(cfg, init, k).i + RecordAt(cfg, init, k).r == cfg.params.n as real
    {
      StateAfterConserves(cfg, init, k + 1);
    }
  }

  /** Beta is non-negative on days 0 to k-1. */
  predicate BetaNonNegativeUpTo(cfg: Config, k: int) {
    forall t :: 0 <= t < k ==> 0.0 <= BetaAt(cfg, t)
  }

  /** Gamma is non-negative on days 0 to k-1. */
  predicate GammaNonNegativeUpTo(cfg: Config, k: int) {
    forall t :: 0 <= t < k ==> 0.0 <= GammaAt(cfg, t)
  }

  /**
   * Non-negativity: S never goes negative (its outflows are capped at S);
   * I stays non-negative while beta is; R stays non-negative while beta and
   * gamma are.
   */
  lemma {:induction false} StateAfterNonNegative(cfg: Config, init: State, k: nat)
    requires cfg.params.n > 0 && NonNegative(init)
    ensures 0.0 <= StateAfter(cfg, init, k).s
    ensures BetaNonNegativeUpTo(cfg, k) ==> 0.0 <= StateAfter(cfg, init, k).i
    ensures BetaNonNegativeUpTo(cfg, k) && GammaNonNegativeUpTo(cfg, k) ==> NonNegative(StateAfter(cfg, init, k))
  {
    if k > 0 {
      StateAfterNonNegative(cfg, init, k - 1);
      var st := StateAfter(cfg, init, k - 1);
      var mid := ApplyPulse(cfg.pulse, k - 1, st);
      assert StateAfter(cfg, init, k) == Update(mid, BetaAt(cfg, k - 1), GammaAt(cfg, k - 1), cfg.params.n);
      PulseEffect(cfg.pulse, k - 1, st);
      UpdateEffect(mid, BetaAt(cfg, k - 1), GammaAt(cfg, k - 1), cfg.params.n);
      if BetaNonNegativeUpTo(cfg, k) {
        assert BetaNonNegativeUpTo(cfg, k - 1) && 0.0 <= BetaAt(cfg, k - 1);
      }
      if BetaNonNegativeUpTo(cfg, k) && GammaNonNegativeUpTo(cfg, k) {
        assert GammaNonNegativeUpTo(cfg, k - 1) && 0.0 <= GammaAt(cfg, k - 1);
      }
    }
  }

  /** Non-negativity in the output, under the same conditions on the day rates. */
  lemma SimulateNonNegative(cfg: Config, i0: int, r0: int, days: int)
    requires Simulate(cfg, i0, r0, days).Ok?
    ensures var rows := Simulate(cfg, i0, r0, days).value;
      forall k :: 0 <= k < |rows| ==> 0.0 <= rows[k].s
    ensures var rows := Simulate(cfg, i0, r0, days).value;
      BetaNonNegativeUpTo(cfg, days) ==> forall k :: 0 <= k < |rows| ==> 0.0 <= rows[k].i
    ensures var rows := Simulate(cfg, i0, r0, days).value;
      BetaNonNegativeUpTo(cfg, days) && GammaNonNegativeUpTo(cfg, days) ==>
        forall k :: 0 <= k < |rows| ==> 0.0 <= rows[k].s && 0.0 <= rows[k].i && 0.0 <= rows[k].r
  {
    var init := Initial(cfg.params.n, i0, r0);
    SimulateRecordFields(cfg, i0, r0, days);
    RecordsShape(cfg, init, days);
    forall k | 0 <= k < days
      ensures 0.0 <= RecordAt(cfg, init, k).s
      ensures BetaNonNegativeUpTo(cfg, days) ==> 0.0 <= RecordAt(cfg, init, k).i
      ensures BetaNonNegativeUpTo(cfg, days) && GammaNonNegativeUpTo(cfg, days) ==>
                0.0 <= RecordAt(cfg, init, k).i && 0.0 <= RecordAt(cfg, init, k).r
    {
      StateAfterNonNegative(cfg, init, k + 1);
    }
  }

  /**
   * One day never raises S when beta is non-negative, and never lowers R
   * when gamma is too: the pulse fraction lies in [0, 1] and both flows are
   * non-negative.
   */
  lemma StepMonotone(cfg: Config, t: int, st: State)
    requires cfg.params.n > 0 && 0.0 <= st.s && 0.0 <= st.i
    ensures 0.0 <= BetaAt(cfg, t) ==> Step(cfg, t, st).s <= st.s
    ensures 0.0 <= GammaAt(cfg, t) ==> st.r <= Step(cfg, t, st).r
  {
    PulseEffect(cfg.pulse, t, st);
    UpdateEffect(ApplyPulse(cfg.pulse, t, st), BetaAt(cfg, t), GammaAt(cfg, t), cfg.params.n);
  }

  /** With a positive beta and both S and I positive, a day strictly lowers S. */
  lemma StepInfectsStrictly(cfg: Config, t: int, st: State)
    requires cfg.params.n > 0 && 0.0 < st.s && 0.0 < st.i && 0.0 < BetaAt(cfg, t)
    requires cfg.pulse.None? || cfg.pulse.value.0 != t
    ensures Step(cfg, t, st).s < st.s
  {
    PulseEffect(cfg.pulse, t, st);
    var b := BetaAt(cfg, t);
    assert 0.0 < b * st.s;
    assert 0.0 < b * st.s * st.i;
    assert 0.0 < NewInfections(b, st.s, st.i, cfg.params.n);
  }

  /** S and I are non-negative, and I is positive while S is: infection can still act on S. */
  predicate Seeded(st: State) {
    0.0 <= st.s && 0.0 <= st.i && (0.0 < st.s ==> 0.0 < st.i)
  }

  /** Beta is positive on days 0 to k-1. */
  predicate BetaPositiveUpTo(cfg: Config, k: int) {
    forall t :: 0 <= t < k ==> 0.0 < BetaAt(cfg, t)
  }

  /** With a positive beta, new infections lie in [0, S], are positive when S and I are, and vanish when S does. */
  lemma NewInfectionsRange(betaT: real, s: real, i: real, n: int)
    requires n > 0 && 0.0 < betaT && 0.0 <= s && 0.0 <= i
    ensures 0.0 <= NewInfections(betaT, s, i, n) <= s
    ensures 0.0 < s && 0.0 < i ==> 0.0 < NewInfections(betaT, s, i, n)
    ensures s == 0.0 ==> NewInfections(betaT, s, i, n) == 0.0
  {
    assert 0.0 <= betaT * s;
    assert 0.0 <= betaT * s * i;
    if 0.0 < s && 0.0 < i {
      assert 0.0 < betaT * s;
      assert 0.0 < betaT * s * i;
    }
  }

  /**
   * An update with a positive beta keeps a seeded state seeded, and strictly
   * lowers S while S is positive: new infections are positive and at most S,
   * and recoveries never exceed I, so I stays positive.
   */
  lemma UpdateKeepsSeeded(st: State, betaT: real, gammaT: real, n: int)
    requires n > 0 && Seeded(st) && 0.0 < betaT
    ensures Seeded(Update(st, betaT, gammaT, n))
    ensures Update(st, betaT, gammaT, n).s <= st.s
    ensures 0.0 < st.s ==> Update(st, betaT, gammaT, n).s < st.s
  {
    NewInfectionsRange(betaT, st.s, st.i, n);
    assert NewRecoveries(gammaT, st.i) <= st.i;
  }

  /**
   * A day with a positive beta keeps a seeded state seeded and strictly
   * lowers a positive S, whether or not the pulse is due: the pulse only
   * moves part of S to R and leaves I alone.
   */
  lemma StepKeepsSeeded(cfg: Config, t: int, st: State)
    requires cfg.params.n > 0 && Seeded(st) && 0.0 < BetaAt(cfg, t)
    ensures Seeded(Step(cfg, t, st))
    ensures 0.0 < st.s ==> Step(cfg, t, st).s < st.s
  {
    PulseEffect(cfg.pulse, t, st);
    var mid := ApplyPulse(cfg.pulse, t, st);
    assert Seeded(mid);
    UpdateKeepsSeeded(mid, BetaAt(cfg, t), GammaAt(cfg, t), cfg.params.n);
  }

  /** From a seeded start, every state of a run with positive beta so far is seeded. */
  lemma {:induction false} StateAfterSeeded(cfg: Config, init: State, k: nat)
    requires cfg.params.n > 0 && Seeded(init)
    requires BetaPositiveUpTo(cfg, k)
    ensures Seeded(StateAfter(cfg, init, k))
  {
    if k > 0 {
      assert BetaPositiveUpTo(cfg, k - 1) && 0.0 < BetaAt(cfg, k - 1);
      StateAfterSeeded(cfg, init, k - 1);
      StepKeepsSeeded(cfg, k - 1, StateAfter(cfg, init, k - 1));
    }
  }

  /** The record of day k is seeded, and its S is below a positive S at the start of that day. */
  lemma RecordSeededFall(cfg: Config, init: State, k: nat)
    requires cfg.params.n > 0 && Seeded(init) && BetaPositiveUpTo(cfg, k + 1)
    ensures 0.0 < RecordAt(cfg, init, k).s ==> 0.0 < RecordAt(cfg, init, k).i
    ensures 0.0 < StateAfter(cfg, init, k).s ==> RecordAt(cfg, init, k).s < StateAfter(cfg, init, k).s
  {
    assert BetaPositiveUpTo(cfg, k) && 0.0 < BetaAt(cfg, k);
    StateAfterSeeded(cfg, init, k);
    StepKeepsSeeded(cfg, k, StateAfter(cfg, init, k));
  }

  /**
   * Susceptibles strictly fall in the output: with at least one initial
   * infection and a positive beta on every day (with or without the pulse),
   * I stays positive while S is, and S drops every day on which it is positive.
   */
  lemma SimulateSusceptiblesFall(cfg: Config, i0: int, r0: int, days: int)
    requires Simulate(cfg, i0, r0, days).Ok?
    requires 0 < i0 && BetaPositiveUpTo(cfg, days)
    ensures var rows := Simulate(cfg, i0, r0, days).value;
      && (i0 + r0 < cfg.params.n ==> rows[0].s < (cfg.params.n - i0 - r0) as real)
      && (forall k :: 0 < k < |rows| && 0.0 < rows[k - 1].s ==> rows[k].s < rows[k - 1].s)
      && (forall k :: 0 <= k < |rows| && 0.0 < rows[k].s ==> 0.0 < rows[k].i)
  {
    var init := Initial(cfg.params.n, i0, r0);
    var rows := Records(cfg, init, days);
    RecordsShape(cfg, init, days);
    assert Seeded(init);
    forall k | 0 <= k < days
      ensures 0.0 < rows[k].s ==> 0.0 < rows[k].i
      ensures 0.0 < StateAfter(cfg, init, k).s ==> rows[k].s < StateAfter(cfg, init, k).s
    {
      assert BetaPositiveUpTo(cfg, k + 1);
      RecordSeededFall(cfg, init, k);
    }
    forall k | 0 < k < days
      ensures 0.0 < rows[k - 1].s ==> rows[k].s < rows[k - 1].s
    {
      assert rows[k - 1].s == StateAfter(cfg, init, k).s;
    }
  }

  /** Day k never raises S when beta is non-negative so far, and never lowers R when gamma is too. */
  lemma StateAfterMonotone(cfg: Config, init: State, k: nat)
    requires cfg.params.n > 0 && NonNegative(init)
    requires BetaNonNegativeUpTo(cfg, k + 1)
    ensures StateAfter(cfg, init, k + 1).s <= StateAfter(cfg, init, k).s
    ensures GammaNonNegativeUpTo(cfg, k + 1) ==> StateAfter(cfg, init, k).r <= StateAfter(cfg, init, k + 1).r
  {
    assert BetaNonNegativeUpTo(cfg, k) && 0.0 <= BetaAt(cfg, k);
    StateAfterNonNegative(cfg, init, k);
    StepMonotone(cfg, k, StateAfter(cfg, init, k));
    if GammaNonNegativeUpTo(cfg, k + 1) {
      assert 0.0 <= GammaAt(cfg, k);
    }
  }

  /** Monotonicity in the output: S never increases and R never decreases from one day to the next. */
  lemma SimulateMonotone(cfg: Config, i0: int, r0: int, days: int)
    requires Simulate(cfg, i0, r0, days).Ok?
    requires BetaNonNegativeUpTo(cfg, days)
    ensures var rows := Simulate(cfg, i0, r0, days).value;
      && rows[0].s <= (cfg.params.n - i0 - r0) as real
      && forall k :: 0 < k < |rows| ==> rows[k].s <= rows[k - 1].s
    ensures var rows := Simulate(cfg, i0, r0, days).value;
      GammaNonNegativeUpTo(cfg, days) ==>
        && r0 as real <= rows[0].r
        && forall k :: 0 < k < |rows| ==> rows[k - 1].r <= rows[k].r
  {
    var init := Initial(cfg.params.n, i0, r0);
    RecordsShape(cfg, init, days);
    StateAfterMonotone(cfg, init, 0);
    forall k | 0 < k < days
      ensures RecordAt(cfg, init, k).s <= RecordAt(cfg, init, k - 1).s
      ensures GammaNonNegativeUpTo(cfg, days) ==> RecordAt(cfg, init, k - 1).r <= RecordAt(cfg, init, k).r
    {
      StateAfterMonotone(cfg, init, k);
    }
  }

  /** Off its trigger day the pulse changes nothing: the day is the same as in a run without a pulse. */
  lemma StepIgnoresPulseOffTrigger(cfg: Config, t: int, st: State)
    requires cfg.params.n > 0
    requires cfg.pulse.None? || cfg.pulse.value.0 != t
    ensures Step(cfg, t, st) == Step(WithoutPulse(cfg), t, st)
  {
    PulseEffect(cfg.pulse, t, st);
  }

  /** Up to the trigger day, a run with a pulse follows the run without it exactly. */
  lemma {:induction false} PulseFreeBeforeTrigger(cfg: Config, init: State, k: nat)
    requires cfg.params.n > 0
    requires cfg.pulse.None? || k <= cfg.pulse.value.0
    ensures StateAfter(cfg, init, k) == StateAfter(WithoutPulse(cfg), init, k)
  {
    if k > 0 {
      PulseFreeBeforeTrigger(cfg, init, k - 1);
      StepIgnoresPulseOffTrigger(cfg, k - 1, StateAfter(cfg, init, k - 1));
    }
  }

  /** The recoveries of a day depend on I and gamma only, not on S, R or beta. */
  lemma UpdateRecoveriesIgnoreS(a: State, b: State, betaA: real, betaB: real, gammaT: real, n: int)
    requires n > 0 && a.i == b.i
    ensures Update(a, betaA, gammaT, n).r - a.r == Update(b, betaB, gammaT, n).r - b.r
  {
  }

  /** On the trigger day, R after the day exceeds the pulse-free day's by the moved amount. */
  lemma StepAtTrigger(cfg: Config, st: State)
    requires cfg.params.n > 0 && cfg.pulse.Some?
    ensures Step(cfg, cfg.pulse.value.0, st).r ==
              Step(WithoutPulse(cfg), cfg.pulse.value.0, st).r + Moved(cfg.pulse.value.1, st.s)
  {
    var t0 := cfg.pulse.value.0;
    PulseEffect(cfg.pulse, t0, st);
    var withPulse := ApplyPulse(cfg.pulse, t0, st);
    UpdateRecoveriesIgnoreS(withPulse, st, BetaAt(cfg, t0), BetaAt(cfg, t0), GammaAt(cfg, t0), cfg.params.n);
  }

  /**
   * On its trigger day t0 the pulse moves exactly the clamped fraction of the
   * pre-pulse S into R: R after day t0 exceeds the pulse-free run's by that
   * amount (the recoveries of the day depend on I only, which the pulse
   * leaves alone).
   */
  lemma PulseMovesClampedFraction(cfg: Config, init: State)
    requires cfg.params.n > 0
    requires cfg.pulse.Some? && 0 <= cfg.pulse.value.0
    ensures StateAfter(cfg, init, cfg.pulse.value.0 + 1).r ==
              StateAfter(WithoutPulse(cfg), init, cfg.pulse.value.0 + 1).r
              + Moved(cfg.pulse.value.1, StateAfter(WithoutPulse(cfg), init, cfg.pulse.value.0).s)
  {
    var t0 := cfg.pulse.value.0;
    PulseFreeBeforeTrigger(cfg, init, t0);
    var st := StateAfter(cfg, init, t0);
    assert StateAfter(cfg, init, t0 + 1) == Step(cfg, t0, st);
    assert StateAfter(WithoutPulse(cfg), init, t0 + 1) == Step(WithoutPulse(cfg), t0, st);
    StepAtTrigger(cfg, st);
  }

  /**
   * The vaccination pulse in the output: the records before its day equal
   * the pulse-free run's, and on its day R is higher by the clamped fraction
   * of the susceptibles present at the start of that day.
   */
  lemma SimulatePulse(cfg: Config, i0: int, r0: int, days: int)
    requires Simulate(cfg, i0, r0, days).Ok?
    requires cfg.pulse.Some? && 0 <= cfg.pulse.value.0 < days
    ensures var rows := Simulate(cfg, i0, r0, days).value;
      var base := Simulate(WithoutPulse(cfg), i0, r0, days).value;
      var t0 := cfg.pulse.value.0;
      var frac := cfg.pulse.value.1;
      && |base| == |rows| == days
      && (forall k :: 0 <= k < t0 ==> rows[k] == base[k])
      && (t0 == 0 ==> rows[t0].r == base[t0].r + Moved(frac, (cfg.params.n - i0 - r0) as real))
      && (0 < t0 ==> rows[t0].r == base[t0].r + Moved(frac, base[t0 - 1].s))
      && (t0 == 0 && 0.0 < frac && i0 + r0 < cfg.params.n ==> base[t0].r < rows[t0].r)
      && (0 < t0 && 0.0 < frac && 0.0 < base[t0 - 1].s ==> base[t0].r < rows[t0].r)
  {
    var init := Initial(cfg.params.n, i0, r0);
    var noPulse := WithoutPulse(cfg);
    var t0 := cfg.pulse.value.0;
    var frac := cfg.pulse.value.1;
    var rows := Records(cfg, init, days);
    var base := Records(noPulse, init, days);
    assert Simulate(cfg, i0, r0, days).value == rows;
    assert Simulate(noPulse, i0, r0, days).value == base;
    RecordsShape(cfg, init, days);
    RecordsShape(noPulse, init, days);
    forall k | 0 <= k < t0
      ensures rows[k] == base[k]
    {
      PulseFreeBeforeTrigger(cfg, init, k + 1);
    }
    PulseMovesClampedFraction(cfg, init);
    var sBefore := StateAfter(noPulse, init, t0).s;
    assert rows[t0].r == base[t0].r + Moved(frac, sBefore);
    if t0 == 0 {
      assert sBefore == (cfg.params.n - i0 - r0) as real;
    } else {
      assert sBefore == base[t0 - 1].s;
    }
    Clamp01Range(frac);
    if 0.0 < frac && 0.0 < sBefore {
      assert 0.0 < Moved(frac, sBefore);
    }
  }

  /**
   * Runs whose schedules are step changes with non-negative factors, from
   * non-negative base rates, keep S, I and R non-negative and S and R
   * monotone every day.
   */
  lemma StepChangeRunWellBehaved(
    params: SirParams, betaAfter: int, betaFactor: real, gammaAfter: int, gammaFactor: real,
    pulse: Option<(int, real)>, scenario: string, i0: int, r0: int, days: int)
    requires 0.0 <= params.beta && 0.0 <= params.gamma && 0.0 <= betaFactor && 0.0 <= gammaFactor
    requires var cfg := Config(params, Some(Schedule.StepChange(betaAfter, betaFactor)),
                               Some(Schedule.StepChange(gammaAfter, gammaFactor)), pulse, scenario);
      Simulate(cfg, i0, r0, days).Ok?
    ensures var cfg := Config(params, Some(Schedule.StepChange(betaAfter, betaFactor)),
                              Some(Schedule.StepChange(gammaAfter, gammaFactor)), pulse, scenario);
      var rows := Simulate(cfg, i0, r0, days).value;
      && (forall k :: 0 <= k < |rows| ==> 0.0 <= rows[k].s && 0.0 <= rows[k].i && 0.0 <= rows[k].r)
      && (forall k :: 0 < k < |rows| ==> rows[k].s <= rows[k - 1].s && rows[k - 1].r <= rows[k].r)
  {
    var cfg := Config(params, Some(Schedule.StepChange(betaAfter, betaFactor)),
                      Some(Schedule.StepChange(gammaAfter, gammaFactor)), pulse, scenario);
    Schedule.StepChangeNonNegative(betaAfter, betaFactor, params.beta);
    Schedule.StepChangeNonNegative(gammaAfter, gammaFactor, params.gamma);
    assert BetaNonNegativeUpTo(cfg, days);
    assert GammaNonNegativeUpTo(cfg, days);
    SimulateNonNegative(cfg, i0, r0, days);
    SimulateMonotone(cfg, i0, r0, days);
  }
}
