/**
 * A discrete-time SIR (susceptible / infected / removed) simulator with daily
 * steps, optional per-day schedules for beta and gamma, and an optional
 * one-shot vaccination pulse. Arithmetic is over mathematical reals.
 */
module Sir {
  import opened Wrappers
  import Schedule

  /** The model parameters: population size, transmission and recovery coefficients. */
  datatype SirParams = SirParams(n: int, beta: real, gamma: real)

  /** Everything a run is configured with apart from the initial conditions and the horizon. */
  datatype Config = Config(
    params: SirParams,
    betaSchedule: Option<Schedule.Rule>,
    gammaSchedule: Option<Schedule.Rule>,
    pulse: Option<(int, real)>,  // (trigger day, fraction of S moved to R)
    scenario: string)

  /** The compartment state at a day boundary. */
  datatype State = State(s: real, i: real, r: real)

  /** One emitted row; the day offset stands for the calendar date. */
  datatype Record = Record(
    tDay: int, s: real, i: real, r: real, n: int, beta: real, gamma: real, scenario: string)

  /** The ways a run can fail, distinguished by kind. */
  datatype SimError =
    | NegativeInitialCondition   // I0 < 0 or R0 < 0
    | InitialExceedsPopulation   // I0 + R0 > N
    | InvalidHorizon             // days < 1
    | ZeroPopulation             // N == 0: the first day's update divides by zero

  function Total(st: State): real { st.s + st.i + st.r }

  predicate NonNegative(st: State) { 0.0 <= st.s && 0.0 <= st.i && 0.0 <= st.r }

  function Min(a: real, b: real): real { if a <= b then a else b }

  function Max(a: real, b: real): real { if a >= b then a else b }

  /** The pulse fraction clamped to [0, 1]. */
  function Clamp01(x: real): real {
    Max(0.0, Min(1.0, x))
  }

  /** The number of susceptibles the pulse moves: the clamped fraction of S. */
  function Moved(fraction: real, s: real): real {
    Clamp01(fraction) * s
  }

  /** The value of a parameter on day `t`: the schedule's, when one is given, else the base value. */
  function Effective(schedule: Option<Schedule.Rule>, t: int, base: real): real {
    match schedule
    case None => base
    case Some(rule) => rule(t, base)
  }

  function BetaAt(cfg: Config, t: int): real { Effective(cfg.betaSchedule, t, cfg.params.beta) }

  function GammaAt(cfg: Config, t: int): real { Effective(cfg.gammaSchedule, t, cfg.params.gamma) }

  /** The initial state built from N, I0 and R0. */
  function Initial(n: int, i0: int, r0: int): (st: State)
    ensures Total(st) == n as real
    ensures st.i == i0 as real && st.r == r0 as real
    ensures 0 <= i0 && 0 <= r0 && i0 + r0 <= n ==> NonNegative(st)
  {
    State((n - i0 - r0) as real, i0 as real, r0 as real)
  }

  /**
   * The vaccination pulse on day `t`: when `t` is the trigger day, the clamped
   * fraction of S (taken before that day's update) moves to R; on every other
   * day, and when there is no pulse, the state is unchanged.
   */
  function ApplyPulse(pulse: Option<(int, real)>, t: int, st: State): State
  {
    if pulse.Some? && t == pulse.value.0 then
      var moved := Moved(pulse.value.1, st.s);
      State(st.s - moved, st.i, st.r + moved)
    else
      st
  }

  /**
   * The daily epidemic update: new infections beta*S*I/N capped at S move from
   * S to I, new recoveries gamma*I capped at I move from I to R.
   */
  function Update(st: State, betaT: real, gammaT: real, n: int): State
    requires n > 0
  {
    var newInf := NewInfections(betaT, st.s, st.i, n);
    var newRec := NewRecoveries(gammaT, st.i);
    State(st.s - newInf, st.i + newInf - newRec, st.r + newRec)
  }

  /** New infections of a day, beta*S*I/N, capped at S. */
  function NewInfections(betaT: real, s: real, i: real, n: int): real
    requires n > 0
  {
    Min(betaT * s * i / n as real, s)
  }

  /** New recoveries of a day, gamma*I, capped at I. */
  function NewRecoveries(gammaT: real, i: real): real {
    Min(gammaT * i, i)
  }

  /** One whole day `t`: rates resolved, pulse applied if due, then the update. */
  function Step(cfg: Config, t: int, st: State): State
    requires cfg.params.n > 0
  {
    Update(ApplyPulse(cfg.pulse, t, st), BetaAt(cfg, t), GammaAt(cfg, t), cfg.params.n)
  }

  /** The state after the first `k` days (days 0 to k-1) have been simulated from `init`. */
  function StateAfter(cfg: Config, init: State, k: nat): State
    requires cfg.params.n > 0
  {
    if k == 0 then init else Step(cfg, k - 1, StateAfter(cfg, init, k - 1))
  }

  /** The record for day `k`: the state after that day, with the rates in effect on it. */
  function RecordAt(cfg: Config, init: State, k: nat): Record
    requires cfg.params.n > 0
  {
    var st := StateAfter(cfg, init, k + 1);
    Record(k, st.s, st.i, st.r, cfg.params.n, BetaAt(cfg, k), GammaAt(cfg, k), cfg.scenario)
  }

  /** The records of the first `count` days, in day order, as the loop appends them. */
  function Records(cfg: Config, init: State, count: nat): seq<Record>
    requires cfg.params.n > 0
  {
    if count == 0 then [] else Records(cfg, init, count - 1) + [RecordAt(cfg, init, count - 1)]
  }

  /** The outcome of a run: a validation error, or one record per day. */
  function Simulate(cfg: Config, i0: int, r0: int, days: int): Result<seq<Record>, SimError> {
    if i0 < 0 || r0 < 0 then Err(NegativeInitialCondition)
    else if i0 + r0 > cfg.params.n then Err(InitialExceedsPopulation)
    else if days < 1 then Err(InvalidHorizon)
    else if cfg.params.n == 0 then Err(ZeroPopulation)
    else Ok(Records(cfg, Initial(cfg.params.n, i0, r0), days))
  }

  /** The pulse step of the simulator's loop, updating S and R in place. */
  method VaccinationPulse(pulse: Option<(int, real)>, t: int, s0: real, i: real, r0: real)
    returns (s: real, r: real)
    ensures State(s, i, r) == ApplyPulse(pulse, t, State(s0, i, r0))
  {
    s, r := s0, r0;
    if pulse.Some? && t == pulse.value.0 {
      var frac := Max(0.0, Min(1.0, pulse.value.1));
      var moved := frac * s;
      s := s - moved;
      r := r + moved;
    }
  }

  /**
   * The flows of one day, updating S, I and R in place: new infections
   * capped at S, new recoveries capped at I.
   */
  method DailyFlows(s0: real, i0: real, r0: real, betaT: real, gammaT: real, n: int)
    returns (s: real, i: real, r: real)
    requires n > 0
    ensures State(s, i, r) == Update(State(s0, i0, r0), betaT, gammaT, n)
  {
    s, i, r := s0, i0, r0;
    var newInf := betaT * s * i / n as real;
    var newRec := gammaT * i;
    newInf := Min(newInf, s);
    newRec := Min(newRec, i);
    assert newInf == NewInfections(betaT, s0, i0, n) && newRec == NewRecoveries(gammaT, i0);
    s := s - newInf;
    i := i + newInf - newRec;
    r := r + newRec;
  }

  /**
   * The simulator: validates the inputs, then advances S, I and R one day at a
   * time for `days` days, appending one record per day.
   */
  method SimulateSir(
    params: SirParams, i0: int, r0: int, days: int,
    betaSchedule: Option<Schedule.Rule>, gammaSchedule: Option<Schedule.Rule>,
    pulse: Option<(int, real)>, scenario: string)
    returns (result: Result<seq<Record>, SimError>)
    ensures result == Simulate(Config(params, betaSchedule, gammaSchedule, pulse, scenario), i0, r0, days)
  {
    ghost var cfg := Config(params, betaSchedule, gammaSchedule, pulse, scenario);
    if i0 < 0 || r0 < 0 {
      return Err(NegativeInitialCondition);
    }
    if i0 + r0 > params.n {
      return Err(InitialExceedsPopulation);
    }
    if days < 1 {
      return Err(InvalidHorizon);
    }
    var beta0 := params.beta;
    var gamma0 := params.gamma;
    var s := (params.n - i0 - r0) as real;
    var i := i0 as real;
    var r := r0 as real;
    ghost var init := State(s, i, r);
    var rows: seq<Record> := [];
    var t := 0;
    while t < days
      invariant 0 <= t <= days
      invariant 0 < t ==> 0 < params.n
      invariant 0 < params.n ==> State(s, i, r) == StateAfter(cfg, init, t)
      invariant 0 < params.n ==> rows == Records(cfg, init, t)
    {
      ghost var before := State(s, i, r);
      var betaT := if betaSchedule.Some? then betaSchedule.value(t, beta0) else beta0;
      var gammaT := if gammaSchedule.Some? then gammaSchedule.value(t, gamma0) else gamma0;
      s, r := VaccinationPulse(pulse, t, s, i, r);
      if params.n == 0 {
        return Err(ZeroPopulation);
      }
      s, i, r := DailyFlows(s, i, r, betaT, gammaT, params.n);
      assert State(s, i, r) == Step(cfg, t, before);
      rows := rows + [Record(t, s, i, r, params.n, betaT, gammaT, scenario)];
      t := t + 1;
    }
    return Ok(rows);
  }
}
