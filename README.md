# Discrete-time SIR simulator: a Dafny model

This project models the SIR simulator of the epidemiology project
(`src/epidemiology_project/sir.py`). The simulator follows three compartments:
S (susceptible), I (infected) and R (recovered or removed). It advances them
one day at a time. It is used to produce a baseline run and intervention runs.

The two parts of the core are modelled as follows.

- **`simulate_sir`** is the method `Sir.SimulateSir`. It checks I0, R0 and the
  horizon in the source's order, builds the initial state from N, I0 and R0,
  and then runs a `while` loop over the days. Each day it resolves beta and
  gamma through the optional schedules, applies the optional one-shot
  vaccination pulse (`Sir.VaccinationPulse`), applies the capped flows
  (`Sir.DailyFlows`) and appends one record to a growing `seq`. The method is
  proved equal to the specification function `Sir.Simulate`. That function is
  built from `Step`, `StateAfter` (the state after k days) and `Records`.
  The lemmas in `SirProperties` are proved about those functions.
- **`step_change`** is the function `Schedule.StepChange`. It returns a pure
  Dafny function value `(int, real) -> real`, as the source returns a closure.

Modelling choices:

- A schedule is any Dafny function value `(int, real) -> real`. Such values are
  pure and total, which is what a schedule callable is assumed to be. An absent
  schedule is `None`.
- The vaccination pulse is `Option<(int, real)>`, holding the trigger day and
  the fraction of S to move.
- Arithmetic is over mathematical reals. Over reals, every day conserves
  S + I + R exactly.
- A record keeps the day index `tDay` in place of the calendar date.
- Determinism comes for free: `Sir.Simulate` is a function, and the method is
  proved equal to it.
- Zero population. The validation in the source lets N = 0 through (with
  I0 = R0 = 0). The first day's update then divides by N, and Python raises
  `ZeroDivisionError` before any row is kept. The model reports this as the
  error `ZeroPopulation`, checked at the same point of the loop. The source
  never checks N > 0 (`SirParams` is an unvalidated record).

## Model

| member | source | states |
|---|---|---|
| `Schedule.StepChange` | src/epidemiology_project/sir.py:123-136 | the returned rule gives `base` on every day before `afterDay` and `base * factor` on `afterDay` and later, for every base value; `factor` is unconstrained |
| `Schedule.StepChangeNonNegative` | src/epidemiology_project/sir.py:131-134 | a non-negative base and a non-negative factor give a non-negative value on every day |
| `Schedule.StepChangeMonotoneInDay` | src/epidemiology_project/sir.py:124-134 | for a non-negative base, a factor in [0,1] (a lockdown) never raises the value later in time, and a factor of at least 1 (a treatment) never lowers it |
| `Schedule.StepChangeExample` | src/epidemiology_project/sir.py:133-134 | with threshold 10 and factor 0.5, base 2.0 maps to 2.0 on day 9 and to 1.0 on days 10 and 50 |
| `Sir.SirParams` | src/epidemiology_project/sir.py:27-33 | the parameter record: N, beta and gamma; a datatype with no contract, left unvalidated as in the source |
| `Sir.Config` | src/epidemiology_project/sir.py:36-46 | no contract of its own: the keyword arguments other than I0, R0, the horizon and the start date (parameters, the two optional schedules, the optional pulse as (trigger day, fraction), the scenario label) |
| `Sir.State` | src/epidemiology_project/sir.py:75-77 | no contract of its own: the loop variables S, I and R at a day boundary |
| `Sir.Record` | src/epidemiology_project/sir.py:104-116 | no contract of its own: one row dict (`t_day`, S, I, R, N, beta, gamma, scenario), with the day index standing for the date; its fields are stated by `SirProperties.SimulateRecordFields` |
| `Sir.SimError` | src/epidemiology_project/sir.py:65-70 | no contract of its own: the three `ValueError`s of the validation as distinct kinds, plus `ZeroPopulation` for the division by N = 0 at line 93; see `SirProperties.SimulateValidation` |
| `Sir.Moved` | src/epidemiology_project/sir.py:86-88 | no contract of its own: the number moved by the pulse, the clamped fraction times S; see `SirProperties.Clamp01Range` and `SirProperties.PulseEffect` |
| `Sir.Clamp01` | src/epidemiology_project/sir.py:87 | no contract of its own: `max(0, min(1, x))`; its range is stated by `SirProperties.Clamp01Range` |
| `Sir.Effective` | src/epidemiology_project/sir.py:82-83 | no contract of its own: the schedule's value at (day, base) when a schedule is given, else the base; stated for the records by `SirProperties.SimulateRecordFields` |
| `Sir.BetaAt` | src/epidemiology_project/sir.py:82 | no contract of its own: beta on day t, through the optional beta schedule; see `SirProperties.SimulateRecordFields` |
| `Sir.GammaAt` | src/epidemiology_project/sir.py:83 | no contract of its own: gamma on day t, through the optional gamma schedule; see `SirProperties.SimulateRecordFields` |
| `Sir.Initial` | src/epidemiology_project/sir.py:75-77 | the initial state sums to N, has I = I0 and R = R0, and is non-negative whenever the validation passes |
| `Sir.ApplyPulse` | src/epidemiology_project/sir.py:85-90 | no contract of its own: the one-shot pulse on its trigger day; its effect is stated by `SirProperties.PulseEffect` |
| `Sir.NewInfections` | src/epidemiology_project/sir.py:93-97 | no contract of its own: beta*S*I/N capped at S; its range under a positive beta is stated by `SirProperties.NewInfectionsRange` |
| `Sir.NewRecoveries` | src/epidemiology_project/sir.py:94-98 | no contract of its own: gamma*I capped at I; see `SirProperties.UpdateEffect` and `SirProperties.UpdateRecoveriesIgnoreS` |
| `Sir.Update` | src/epidemiology_project/sir.py:93-102 | no contract of its own: the daily flows applied to S, I and R; see `SirProperties.UpdateEffect` |
| `Sir.Step` | src/epidemiology_project/sir.py:81-102 | no contract of its own: one whole day (rates, pulse, update); see `SirProperties.StepConserves`, `SirProperties.StepMonotone` and `SirProperties.StepKeepsSeeded` |
| `Sir.StateAfter` | src/epidemiology_project/sir.py:81-102 | no contract of its own: the state after the first k days; see `SirProperties.StateAfterConserves`, `SirProperties.StateAfterNonNegative` and `SirProperties.StateAfterSeeded` |
| `Sir.RecordAt` | src/epidemiology_project/sir.py:104-116 | no contract of its own: the row of day k (day, state after it, N, the day's rates, label); see `SirProperties.SimulateRecordFields` |
| `Sir.Records` | src/epidemiology_project/sir.py:79-116 | no contract of its own: the rows of the first k days in append order; see `SirProperties.RecordsShape` |
| `Sir.Simulate` | src/epidemiology_project/sir.py:36-120 | no contract of its own: the specification of a whole run, a validation error or the rows; see `SirProperties.SimulateValidation` and the other `Simulate…` lemmas, and `Sir.SimulateSir`, which is proved equal to it |
| `Sir.VaccinationPulse` | src/epidemiology_project/sir.py:85-90 | the imperative pulse step leaves S and R as the pulse function prescribes, with I unchanged |
| `Sir.DailyFlows` | src/epidemiology_project/sir.py:93-102 | the imperative update (flows, caps, then the three compound assignments) yields the state of the specification update |
| `Sir.SimulateSir` | src/epidemiology_project/sir.py:36-120 | the loop-based simulator returns exactly the result of the specification `Simulate`: the same error on invalid input, otherwise the same record sequence |
| `SirProperties.Clamp01Range` | src/epidemiology_project/sir.py:86-87 | the clamped pulse fraction lies in [0,1]; it is the given fraction when that lies in [0,1], 0 below and 1 above |
| `SirProperties.PulseEffect` | src/epidemiology_project/sir.py:85-90 | on the trigger day the pulse adds exactly the clamped fraction of the pre-pulse S to R, keeps I and the total, and with S >= 0 keeps S in [0, old S]; on any other day, or with no pulse, the state is unchanged |
| `SirProperties.UpdateEffect` | src/epidemiology_project/sir.py:93-102 | the update conserves S + I + R; S is never negative afterwards; with beta >= 0 and S, I >= 0, S does not grow and I stays >= 0; with gamma >= 0 and I >= 0, R does not shrink |
| `SirProperties.SimulateValidation` | src/epidemiology_project/sir.py:65-70 | negative I0 or R0 gives `NegativeInitialCondition`, else I0 + R0 > N gives `InitialExceedsPopulation`, else days < 1 gives `InvalidHorizon`, else N = 0 gives `ZeroPopulation`; a run succeeds exactly when none of these holds |
| `SirProperties.RecordsShape` | src/epidemiology_project/sir.py:104-116 | the appended sequence has one record per simulated day, and its element k is the record of day k |
| `SirProperties.SimulateRecordDays` | src/epidemiology_project/sir.py:81-106 | a successful run has exactly `days` records, record k carries day k, and the days strictly increase |
| `SirProperties.SimulateRecordFields` | src/epidemiology_project/sir.py:82-116 | record k carries N, the scenario label, the state after day k, and the beta and gamma of day k: the schedule's value at (k, base) when a schedule is given, else the base value |
| `SirProperties.StepConserves` | src/epidemiology_project/sir.py:85-102 | one day (pulse and update together) keeps S + I + R unchanged |
| `SirProperties.StateAfterConserves` | src/epidemiology_project/sir.py:81-102 | every state reached after any number of days has the initial total |
| `SirProperties.SimulateConserves` | src/epidemiology_project/sir.py:75-116 | in every record of a successful run S + I + R equals N exactly |
| `SirProperties.StateAfterNonNegative` | src/epidemiology_project/sir.py:93-102 | from a non-negative start, S stays >= 0 on every day with no condition on the rates; I stays >= 0 while beta has been >= 0; all three stay >= 0 while beta and gamma have been >= 0 |
| `SirProperties.SimulateNonNegative` | src/epidemiology_project/sir.py:93-116 | the same three non-negativity statements for every record of a successful run |
| `SirProperties.StepMonotone` | src/epidemiology_project/sir.py:86-102 | from S, I >= 0, one day does not raise S when beta >= 0 and does not lower R when gamma >= 0 |
| `SirProperties.StepInfectsStrictly` | src/epidemiology_project/sir.py:93-100 | with beta > 0 and S, I > 0, a day without the pulse strictly lowers S |
| `SirProperties.NewInfectionsRange` | src/epidemiology_project/sir.py:93-97 | with beta > 0 and S, I >= 0, new infections lie in [0, S], are positive when S and I are, and are 0 when S is |
| `SirProperties.UpdateKeepsSeeded` | src/epidemiology_project/sir.py:93-102 | with beta > 0, an update from S, I >= 0 with I > 0 whenever S > 0 keeps that property, never raises S, and strictly lowers a positive S; gamma is unconstrained, since recoveries never exceed I |
| `SirProperties.StepKeepsSeeded` | src/epidemiology_project/sir.py:81-102 | the same for a whole day, pulse included: the clamped pulse keeps the property and never raises S |
| `SirProperties.StateAfterSeeded` | src/epidemiology_project/sir.py:81-102 | from a start with S, I >= 0 and I > 0 whenever S > 0, every state reached with beta > 0 so far keeps that property |
| `SirProperties.RecordSeededFall` | src/epidemiology_project/sir.py:81-116 | from a start with S, I >= 0 and I > 0 whenever S > 0, with beta > 0 up to day k: record k has I > 0 whenever its S > 0, and its S is below the S at the start of day k when that is positive |
| `SirProperties.SimulateSusceptiblesFall` | src/epidemiology_project/sir.py:75-116 | with I0 > 0 and beta > 0 on every day, with or without the pulse: the first record's S is below the initial S when that is positive, S strictly falls from each record with positive S to the next, and I is positive in every record whose S is |
| `SirProperties.StateAfterMonotone` | src/epidemiology_project/sir.py:81-102 | from a non-negative start with beta >= 0 so far, day k does not raise S; if gamma >= 0 so far as well, it does not lower R |
| `SirProperties.SimulateMonotone` | src/epidemiology_project/sir.py:81-116 | with beta >= 0 on every day, S in the records never increases (starting from the initial S); if gamma >= 0 too, R never decreases (starting from R0) |
| `SirProperties.StepIgnoresPulseOffTrigger` | src/epidemiology_project/sir.py:85 | on any day other than the trigger day, a day with the pulse configured equals the same day with no pulse |
| `SirProperties.PulseFreeBeforeTrigger` | src/epidemiology_project/sir.py:81-90 | up to the trigger day, the run with the pulse has exactly the states of the run without it |
| `SirProperties.UpdateRecoveriesIgnoreS` | src/epidemiology_project/sir.py:94-102 | the increase of R in a day depends only on I and gamma, not on S, R or beta |
| `SirProperties.StepAtTrigger` | src/epidemiology_project/sir.py:85-102 | on the trigger day, R after the day is the pulse-free day's R plus the clamped fraction of the pre-pulse S |
| `SirProperties.PulseMovesClampedFraction` | src/epidemiology_project/sir.py:81-102 | after the trigger day t0, R exceeds the pulse-free run's R by exactly the clamped fraction of the pulse-free S at the start of day t0 |
| `SirProperties.SimulatePulse` | src/epidemiology_project/sir.py:85-116 | the records before the trigger day equal the pulse-free run's; on that day R is higher by the clamped fraction of the S at the start of the day, and strictly higher when the fraction and that S are positive |
| `SirProperties.StepChangeRunWellBehaved` | src/epidemiology_project/sir.py:82-102 | with step-change schedules of non-negative factors on non-negative base rates, every record is non-negative, S never increases and R never decreases |

## Left out

- The calendar date of each record, computed as `start_date` plus the day offset, and its ISO formatting. The record keeps the day index instead. This also drops an error path: `start_date + timedelta(days=t)` raises `OverflowError` once the date passes the last representable date (the end of year 9999, about 2.9 million days after the default start 2020-01-01). For such horizons the model returns `Ok` where the source raises.
- The pandas DataFrame built from the rows and the conversion of the date column. The model returns the rows as a sequence. This too drops an error path: at pandas' default nanosecond resolution `pd.to_datetime` raises `OutOfBoundsDatetime` for dates after 2262-04-11, a horizon of about 88,500 days from the default start 2020-01-01. Whether it raises depends on the pandas version.
- IEEE floating-point rounding and the `float(...)` conversions. The model computes over exact reals, so conservation holds exactly. In the source it holds only up to rounding.
- Default argument values (R0 = 0, 160 days, the start date, the scenario label). The model's callers pass every argument.
- Schedules that are not pure or not total, such as callables with side effects or exceptions. Function values in Dafny are always pure and total.
- The non-negativity and monotonicity lemmas require the rates of each day to be non-negative. The source never checks beta, gamma or a schedule's factor.
- The HTTP dataset client, the on-disk path helpers and the CSV read/write helpers of the repository. These are I/O wrappers outside the simulator core, and none of them is modelled.
