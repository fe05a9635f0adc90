# F1 race strategy simulator, modelled in Dafny

This project models the deterministic core of `Monte_carlo_simulation.py`.
That program is a Monte Carlo race simulator that ranks two-stop tyre
strategies for one driver at one Grand Prix. Each simulated race does four things:

- it draws whether a safety car (SC), a virtual safety car (VSC) and a red
  flag occur, with their durations and onset laps;
- it walks the strategy's stints lap by lap, adding base pace, tyre
  degradation for the stint lap and noise, less a fuel effect for the race lap;
- it slows laps under a caution and subtracts the red-flag saving once;
- it adds one pit-stop cost between consecutive stints, which is 8 s cheaper
  when the SC comes out inside the outgoing compound's pit window.

The driver takes many such races per strategy, averages them, sorts the
strategies by mean and picks the head. Two steps calibrate the profile
beforehand:

- the degradation estimator (`calculate_degradation`), which works from
  historical stints;
- the event chances, which come from the track-status codes of past
  editions of the race.

Every random draw is an explicit input, so the model is a pure function of
the profile, the strategy and the draws:

- the scheduler's three coins and its `randint` offsets (`SchedulerDraws`);
- the per-lap noise stream;
- the stream of VSC factors, one drawn per lap on which only the VSC is out.

Arithmetic is on exact `real`s.

Modules, one per file:

- `Results`: Option and Result.
- `Stats`: sum and mean.
- `Profiles`: `CarDriverProfile`.
- `Strategies`: stints and the per-lap plan.
- `Disruptions`: the scheduler, its validity predicate and its feasibility condition.
- `PitStop`: pit windows and pit cost.
- `RaceSim`: the lap loop of `simulate_race`, written as a state machine, with
  its invariant and reference definition.
- `RaceProperties`: lap coverage, pace, caution precedence, the red flag, the
  pit stops, the closed form for a race with no disruption, and worked examples.
- `Degradation`: the estimator.
- `TrackStatus`: flag classification and event chances.
- `Ranking`: the stable sort by mean, its uniqueness, and the best strategy.
- `MonteCarlo`: one trial, N trials, and the strategy comparison.

Notes on the program's own behaviour that the model keeps:

- The fuel effect is the hard-coded 0.04 s per race lap
  (Monte_carlo_simulation.py:290), so ten undisturbed 80 s laps total
  797.8 s. The profile's `fuel_burn_rate` and `fuel_penalty_per_kg` never
  reach a lap time.
- The pit-discount window is inclusive at both ends
  (Monte_carlo_simulation.py:325).
- A compound that was run, but never in a stint of 3 or more laps, gets
  `None` from the estimator (Monte_carlo_simulation.py:85). See
  "## Findings".
- The lap counter keeps increasing past the race length. Each later stint
  of positive length counts one more lap before its inner loop breaks
  (Monte_carlo_simulation.py:282-284). A stint of length zero or less runs
  its inner loop no times and counts nothing (lines 281-282). Every later
  stint's pit stop is still paid.

## Model

| member | source | states |
|---|---|---|
| RaceSim.Simulate | Monte_carlo_simulation.py:250-330 | The race loop drives exactly min(race length, laps asked for) laps. Lap i is the reference lap of plan entry i. One noise draw is used per lap and one VSC factor per VSC-only lap. The red flag is spent exactly when its lap was driven. There is one pit cost per stint but the last. The total is the lap times plus the pit costs. |
| RaceSim.Run | Monte_carlo_simulation.py:280-329 | The two nested loops at stint i, stint lap k. A finished stint, or one cut off past the race length, goes to the pit branch and the next stint; otherwise the lap is counted and driven. The loop only appends to the laps and pits it has, and it adds exactly one pit per remaining stint but the last. |
| RaceSim.DriveLap | Monte_carlo_simulation.py:282-312 | Driving the counted lap appends at least one record and then continues the loop, with the same pit count as Run. Which records are appended is stated by RaceSim.DriveLapInv. |
| RaceSim.Lap | Monte_carlo_simulation.py:287-309 | The lap-time model for one lap: base + rate x stint lap + noise - 0.04 x race lap, divided by the SC factor in the SC window, else by the next VSC factor in the VSC window, less the red-flag saving on a pending red-flag lap. |
| RaceSim.RunInv | Monte_carlo_simulation.py:280-329 | The invariant of the nested stint and lap loops holds from any reachable point to the end. This covers a stint cut off by the race length, after which the lap counter still advances and the pit stop is still taken. |
| RaceSim.StintDoneInv | Monte_carlo_simulation.py:281-329 | A stint whose laps are all driven ends in its pit stop, unless it is the last, and the loop stays consistent. |
| RaceSim.OverflowInv | Monte_carlo_simulation.py:282-329 | Past the race length the rest of a stint is skipped. The counter still advances once and the pit stop is still taken. |
| RaceSim.DriveLapInv | Monte_carlo_simulation.py:281-312 | Driving a lap keeps the loop consistent one stint lap further on. |
| RaceSim.LapStepInv | Monte_carlo_simulation.py:282-312 | Driving one more lap extends the invariant by that plan entry: the lap record, the stream positions, the red-flag state and the running total. |
| RaceSim.AddPitInv | Monte_carlo_simulation.py:315-329 | Adding a pit cost keeps the invariant, with the cost appended to the pits. |
| RaceSim.NextStint | Monte_carlo_simulation.py:280-281 | After stint i and its pit stop, the loop is at the start of stint i+1, with the pits of the first i+1 stops. |
| RaceSim.InvOverflow | Monte_carlo_simulation.py:282-284 | Once the race length is reached, laps the plan still offers leave the laps driven unchanged. |
| RaceProperties.LapCoverage | Monte_carlo_simulation.py:280-284 | Exactly min(race length, total stint laps) laps are recorded, numbered 1, 2, ... in order. |
| RaceProperties.LapPace | Monte_carlo_simulation.py:281-296 | Lap k of stint j is race lap TotalSpan(s[..j]) + k + 1. Its pre-caution time uses stint lap k for degradation and the race-wide lap for fuel. |
| RaceProperties.CautionPrecedence | Monte_carlo_simulation.py:299-309 | On a lap inside the SC window the SC divisor applies and no VSC factor is drawn. Otherwise the VSC window divides by the next drawn factor. Otherwise the lap is clear. The red-flag saving applies exactly on the red-flag lap and combines with either caution. |
| RaceProperties.VscFactorsConsumed | Monte_carlo_simulation.py:303-304 | The VSC factors used equal the number of laps slowed by the VSC alone. |
| RaceProperties.RedFlagAtMostOnce | Monte_carlo_simulation.py:307-309 | The saving is applied at most once. It is applied exactly once iff the red flag is deployed on a lap that was driven. |
| RaceProperties.SafetyCarLaps | Monte_carlo_simulation.py:266-300 | A scheduled SC of n laps slows n+1 laps when the strategy covers the race distance, because its window is inclusive. |
| RaceProperties.ScCountDuring | Monte_carlo_simulation.py:299 | Within the SC window, the SC laps so far are the laps since its onset, inclusive. |
| RaceProperties.ScCountAfter | Monte_carlo_simulation.py:299 | After the SC window, exactly laps+1 laps were under the SC. |
| RaceProperties.ScCountBefore | Monte_carlo_simulation.py:299 | Before the SC onset no lap was under the SC. |
| RaceProperties.CountFullIsSc | Monte_carlo_simulation.py:299-300 | Laps recorded under the SC, counted on the trace, equal the SC-window count. |
| RaceProperties.CountPartialIsVscOnly | Monte_carlo_simulation.py:303-304 | Laps recorded under the VSC equal the count of laps in the VSC window but not the SC window. |
| RaceProperties.CountRedIsHit | Monte_carlo_simulation.py:307-309 | Red-flag laps on the trace number one if the red-flag lap is among those driven, else zero. |
| RaceProperties.PitStops | Monte_carlo_simulation.py:315-329 | Exactly len(strategy) - 1 pit costs are added. The j-th is priced on stint j's compound. The pits do not depend on the race length, so stops are paid even for stints never driven. |
| RaceProperties.QuietLap | Monte_carlo_simulation.py:287-312 | With no disruption a lap is clear, has no red-flag saving, and adds its plain lap time. |
| RaceProperties.QuietLapTimes | Monte_carlo_simulation.py:287-312 | With no disruption the lap times sum to the plain lap times of the plan. |
| RaceProperties.QuietPits | Monte_carlo_simulation.py:315-329 | Without an SC every stop costs the full pit time, so the pits sum to (stints - 1) x pit time. |
| RaceProperties.QuietClosedForm | Monte_carlo_simulation.py:287-329 | With no disruption deployed, the race time is the sum of base + rate[compound] x stint lap + noise - 0.04 x lap over the laps driven, plus (stints - 1) x pit time. |
| RaceProperties.UniformCleanTotal | Monte_carlo_simulation.py:290-296 | With no degradation and no noise, n plain laps total n x base - 0.02 x n(n+1). |
| RaceProperties.OneStintExample | Monte_carlo_simulation.py:290-296 | Ten undisturbed 80 s laps on one stint total 797.8 s. |
| RaceProperties.TwoStintExample | Monte_carlo_simulation.py:290-329 | Five laps on Soft, a 20 s stop, then five laps on Medium total 817.8 s. |
| Strategies.Plan | Monte_carlo_simulation.py:280-281 | The flattened plan has one entry per lap the strategy asks for. A stint of non-positive length contributes none, as with `range`. |
| Strategies.PlanAt | Monte_carlo_simulation.py:280-287 | Entry TotalSpan(s[..j]) + k of the plan is lap k of stint j. The stint lap restarts at 0 in each stint. |
| PitStop.PitCost | Monte_carlo_simulation.py:316-329 | The stop costs pit time - 8 iff the SC is deployed and its onset lies in the outgoing compound's inclusive window (Soft 15-25, Medium 25-40). Otherwise it costs exactly the pit time. |
| PitStop.PitWindow | Monte_carlo_simulation.py:317-322 | The outgoing compound's inclusive pit window: Soft 15-25, Medium 25-40, anything else 0-0. |
| PitStop.HardNeverDiscounted | Monte_carlo_simulation.py:321-325 | The Hard window is [0, 0] and a scheduled SC starts on lap 10 or later (line 267), so a stop off Hard tyres always costs the full time. |
| PitStop.NoSafetyCarFullCost | Monte_carlo_simulation.py:325 | Without an SC no stop is discounted. |
| Disruptions.RandInt | Monte_carlo_simulation.py:266-276 | `randint(lo, hi)` returns a value in [lo, hi], and fails exactly on an empty range. |
| Disruptions.RandIntOnto | Monte_carlo_simulation.py:266-276 | Every value of a non-empty range is drawn by some offset. |
| Disruptions.DrawCaution | Monte_carlo_simulation.py:265-272 | A caution is deployed iff its coin is below its chance. Its duration lies in the profile's range and its onset in [10, length - duration - margin]. An undeployed caution never fails. A deployed one fails exactly when its duration range is empty, with that range as the error, or when the drawn duration leaves no onset lap, with the empty onset range as the error. |
| Disruptions.DrawRedFlag | Monte_carlo_simulation.py:275-276 | The red flag is deployed iff its coin is below its chance, on a lap in [10, length - 10]. It fails iff it is deployed and that range is empty. |
| Disruptions.Schedule | Monte_carlo_simulation.py:265-277 | Every disruption record the scheduler produces is valid for the profile, with SC margin 5, VSC margin 3 and red-flag margin 10, and each kind is deployed iff its coin is below its chance. It fails exactly when one of its three draws fails, and the error is that of the first failing draw in the order SC, VSC, red flag. |
| Disruptions.ScheduleSucceeds | Monte_carlo_simulation.py:266-276 | On a feasible profile (every deployable kind has a non-empty range) the scheduler never fails. |
| Disruptions.DrawCautionSucceeds | Monte_carlo_simulation.py:266-272 | A feasible caution draw never fails. |
| Disruptions.DrawCautionFails | Monte_carlo_simulation.py:266-272 | On an infeasible caution, the longest duration with a coin of 0 makes `randint` fail. |
| Disruptions.ScheduleCanFail | Monte_carlo_simulation.py:266-276 | On an infeasible profile some draw with coins in [0, 1) makes the scheduler fail, so feasibility is exactly the condition it needs. |
| Disruptions.DrawCautionReaches | Monte_carlo_simulation.py:265-272 | Every valid caution record comes out of some draw. |
| Disruptions.ScheduleComplete | Monte_carlo_simulation.py:265-277 | Every valid disruption record whose deployment the chances allow is produced by some draw, so validity describes the scheduler's outputs exactly. |
| Disruptions.ValidScInsideRace | Monte_carlo_simulation.py:267-299 | A valid SC slows only laps within 10..length - 5. |
| MonteCarlo.SimulateRaceMeaning | Monte_carlo_simulation.py:250-330 | One trial fails exactly when the scheduler does, with its error. A trial that succeeds yields the race time under the disruption the scheduler drew from the trial's own draws. That disruption is valid, and each of SC, VSC and red flag is deployed exactly when its coin is below its chance. |
| MonteCarlo.SimulateRace | Monte_carlo_simulation.py:250-330 | One call of `simulate_race`. Its own contract states only that it fails exactly when the scheduler does, with the scheduler's error. The value of a successful trial is stated by MonteCarlo.SimulateRaceMeaning. |
| MonteCarlo.SimulateRaceSucceeds | Monte_carlo_simulation.py:265-276 | On a feasible profile every trial yields a sample. |
| MonteCarlo.QuietTrial | Monte_carlo_simulation.py:265-330 | A trial whose coins deploy nothing yields the undisturbed closed-form race time, on any profile. |
| MonteCarlo.Samples | Monte_carlo_simulation.py:337-338 | It returns one sample per trial, in trial order, or the error of the first failing trial. On a feasible profile it returns exactly N samples. |
| MonteCarlo.CompareStrategies | Monte_carlo_simulation.py:353-361 | It keeps the samples of every strategy. The ranking is a permutation of the (strategy, mean) table, sorted ascending by mean with ties in pool order. The best has the least mean and is the earliest in the pool among ties. It is absent only for an empty pool. A failure is the scheduler error of the first failing trial of the first strategy, in pool order, that has one. Every trial before it succeeds, so the comparison never fails when every trial succeeds. |
| Ranking.Insert | Monte_carlo_simulation.py:360 | Insertion adds exactly the one entry. |
| Ranking.SortByMean | Monte_carlo_simulation.py:360 | The sort is a permutation of its input. |
| Ranking.InsertMembers | Monte_carlo_simulation.py:360 | An entry of an insertion is the inserted one or was already there. |
| Ranking.PrependSorted | Monte_carlo_simulation.py:360 | An entry whose mean is at most every other mean can go in front of a sorted sequence. |
| Ranking.HeadIsLeast | Monte_carlo_simulation.py:360-361 | The head of a sorted sequence has the least mean. |
| Ranking.InsertSorted | Monte_carlo_simulation.py:360 | Insertion keeps a sequence sorted by mean. |
| Ranking.PrependStable | Monte_carlo_simulation.py:360 | An entry that precedes all its ties in the pool can go in front and keep ties in pool order. |
| Ranking.HeadPrecedesTies | Monte_carlo_simulation.py:360 | The head precedes every entry it ties with. |
| Ranking.InsertStable | Monte_carlo_simulation.py:360 | Inserting an entry earlier in the pool than all others keeps ties in pool order. |
| Ranking.SortSorted | Monte_carlo_simulation.py:360 | The ranking is ascending by mean. |
| Ranking.SortStable | Monte_carlo_simulation.py:360 | The sort is stable: strategies with equal means stay in pool order. |
| Ranking.SameHead | Monte_carlo_simulation.py:360 | Two stably sorted arrangements of the same entries have the same head. |
| Ranking.SameTail | Monte_carlo_simulation.py:360 | Removing the same head from equal multisets leaves equal multisets. |
| Ranking.RankOrderUnique | Monte_carlo_simulation.py:360 | There is only one arrangement of a set of entries that is sorted by mean with ties in pool order. |
| Ranking.StableSortIsUnique | Monte_carlo_simulation.py:360 | Any permutation of the table that is sorted by mean with ties in pool order is the ranking. |
| Ranking.Best | Monte_carlo_simulation.py:361 | The best is absent iff the ranking is empty, and is an entry of it otherwise. |
| Ranking.BestIsMinimal | Monte_carlo_simulation.py:360-361 | The best has a mean at most every strategy's, and among equal means the smallest pool position. |
| Ranking.Rank | Monte_carlo_simulation.py:360-361 | The ranking is a permutation of the table, sorted by mean with ties in pool order. Its head is the minimal strategy. |
| Stats.SumAppend | Monte_carlo_simulation.py:356 | Appending a value adds it to the sum. |
| Stats.SumBounds | Monte_carlo_simulation.py:356 | A sum of n values in [lo, hi] lies in [n x lo, n x hi]. |
| Stats.MeanBounds | Monte_carlo_simulation.py:356 | The mean lies between any bounds of the values. |
| Stats.SumConstant | Monte_carlo_simulation.py:356 | n copies of c sum to n x c. |
| Degradation.Slope | Monte_carlo_simulation.py:79-81 | The wear rate of one stint: last lap time minus first, over the number of laps less one. |
| Degradation.Slopes | Monte_carlo_simulation.py:74-82 | Every slope is that of a stint with 3 or more laps, there are no more slopes than stints, and there are none iff no stint qualifies. |
| Degradation.SlopesOne | Monte_carlo_simulation.py:77-82 | A single stint yields its slope iff it has 3 or more laps, and nothing otherwise. With SlopesAppend this fixes the slopes: each qualifying stint contributes its slope once, in stint order. |
| Degradation.SlopesAppend | Monte_carlo_simulation.py:75-82 | Each stint contributes its slope independently of the others. |
| Degradation.Estimate | Monte_carlo_simulation.py:66-85 | The estimator returns the fallback for a compound never run, otherwise the mean slope of the qualifying stints, and None iff the compound was run but no stint qualifies. |
| Degradation.ShortStintIgnored | Monte_carlo_simulation.py:77-78 | Adding a stint of fewer than 3 laps to a compound that was run changes nothing. |
| Degradation.EstimateWithinSlopes | Monte_carlo_simulation.py:81-85 | The estimate lies within any bounds of the qualifying slopes. |
| Degradation.LinearWearRecovered | Monte_carlo_simulation.py:79-85 | When every qualifying stint wears at the same constant rate, the estimate is exactly that rate. |
| Degradation.ShortStintsGiveNoRate | Monte_carlo_simulation.py:77-85 | A compound run only in one 2-lap stint gets None. |
| Degradation.CalibratedRate | Monte_carlo_simulation.py:66-85 | The corrected rate is the fallback whenever no stint qualifies, and otherwise the mean slope. |
| Degradation.ShortStintsCalibrated | Monte_carlo_simulation.py:69-85 | On the 2-lap input the corrected rate is the fallback. |
| Degradation.CalibratedAgrees | Monte_carlo_simulation.py:85 | Wherever the program yields a rate, the corrected rate is that rate. |
| Degradation.CalibrateMatchesProgram | Monte_carlo_simulation.py:92-100 | Wherever the estimator yields a rate for every compound, Degradation.Calibrate builds exactly the profile the program builds at lines 226-242 from the three `calculate_degradation` results, with the defaults 0.10, 0.05 and 0.02 as fallbacks. Only the three wear rates change. |
| TrackStatus.Count | Monte_carlo_simulation.py:137-160 | The SC and red-flag counts together, and the VSC count, never exceed the editions examined. |
| TrackStatus.Classify | Monte_carlo_simulation.py:145-148 | The flags an edition showed: SC iff code "4" was logged, VSC iff "5", red flag iff "6". |
| TrackStatus.CountIsCardinality | Monte_carlo_simulation.py:145-158 | Each count is the number of editions classified for its event: SC without red flag, SC with red flag, VSC. |
| TrackStatus.EditionsSnoc | Monte_carlo_simulation.py:137-158 | Examining one more edition adds it to an event's editions exactly when it shows that event. |
| TrackStatus.FailedSeasonCountsNothing | Monte_carlo_simulation.py:159-160 | An edition that failed to load adds to no count. |
| TrackStatus.ShareAtMostOne | Monte_carlo_simulation.py:163-165 | A share of a positive whole lies in [0, 1]. |
| TrackStatus.FractionBounds | Monte_carlo_simulation.py:163-165 | Shares of two counts whose sum is at most the whole lie in [0, 1] and sum to at most 1. |
| TrackStatus.EventChances | Monte_carlo_simulation.py:136-165 | Each chance is its count of editions over all editions examined, including those that failed to load. Each lies in [0, 1], and the SC and red-flag chances sum to at most 1. |

## Left out

- Loading the race data, the cache, filtering laps and the per-year network
  loads are I/O. The model takes the stints and the per-edition status codes
  as inputs.
- Plotting and console output are not modelled.
- The random number generator itself is left out, along with every
  distributional claim. Coins, `randint` offsets, noise and VSC factors are
  injected inputs. Only the coins are constrained, to [0, 1). Noise is
  not constrained to `variability_range`, nor VSC factors to
  `vsc_speed_factor`, so the proved properties hold for any values drawn.
- IEEE floating point is not modelled. All arithmetic, including `np.mean`
  and the chance divisions, is on exact reals.
- `fuel_left` (Monte_carlo_simulation.py:262, 289) is not modelled, because
  it is never read. `fuel_penalty_per_kg` is kept as a field but has no effect.
- Compounds are an enum of Soft, Medium and Hard. The program looks a
  stint's compound up by exact name only when it drives a lap of that stint
  (Monte_carlo_simulation.py:287). Another name raises there for a stint
  that drives a lap. A stint of length zero or less, or one that starts
  after the race distance is reached, never reaches that line, so it raises
  nothing. Strategies naming any other compound are outside the model,
  whether or not the program would raise for them.
- `vsc_speed_factor` is a range, as at Monte_carlo_simulation.py:237 and 304.
  The scalar constructor default at line 192 would fail to unpack.
- RaceSim.Simulate and RaceSim.RaceTime require (`WellDefined`) every
  divisor of a deployed caution to be non-zero, whether or not it is ever
  drawn. That means a non-zero `sc_speed_factor` whenever the SC is
  deployed, and a non-zero VSC factor at every stream position whenever
  the VSC is deployed. MonteCarlo's `TrialOk` makes the same demand of a
  trial. The program divides only on laps it drives, so it raises only for a
  zero divisor on a driven lap. It returns normally for a zero factor that
  no driven lap uses, for example a zero `sc_speed_factor` with the SC
  window beyond the laps the strategy covers. Those races are outside the
  model.
- MonteCarlo.SimulateRace: its contract states only success and the error.
  The race time of a successful trial, under the disruption scheduled from
  the trial's draws, is the lemma MonteCarlo.SimulateRaceMeaning. An
  existential postcondition on a function that the sampling loop calls
  once per trial costs the loop's proof too much solver work.
- Ranking.Tabulate and MonteCarlo.CompareStrategies require at least one
  trial per strategy. `np.mean` of no samples is NaN, which the model does
  not represent.
- Ranking.Best and MonteCarlo.CompareStrategies return no best strategy for
  an empty pool, where `strategy_results[0]` (Monte_carlo_simulation.py:361)
  would raise `IndexError`. The program's pool is never empty.
- TrackStatus.EventChances requires at least one edition. The program
  always examines seven (Monte_carlo_simulation.py:132, 136).
- The per-stint grouping of a compound's laps, with each stint sorted by
  lap number, is an input. A stint number that does not occur for the
  compound is an empty stint.
- The concrete strategy pool and the concrete profile values come from
  loaded data and are not fixed here. The profile defaults and the
  degradation fallbacks are constants in `Profiles`.

## Findings

| source | as written | input that shows it | evidently intended | confidence | as-written member | corrected member |
|---|---|---|---|---|---|---|
| Monte_carlo_simulation.py:85 | When a compound was run but no stint reached 3 laps, the estimator returns `None`. `None` then fails the `:.3f` format at the matching line 176-178, which stops the script. | one stint of two laps, `[[90.0, 90.5]]`, fallback 0.1 | the fallback rate, as for a compound never run (lines 69-71) | not executed | Degradation.ShortStintsGiveNoRate | Degradation.CalibratedRate |
