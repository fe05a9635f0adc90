/** The Monte Carlo driver: one race per trial, where a trial is the whole
    set of draws `simulate_race` makes (the scheduler's coins and picks, the
    per-lap noise and the virtual safety car factors), and the strategy
    comparison built on it. */
module MonteCarlo {
  import opened Results
  import opened Profiles
  import opened Strategies
  import opened Disruptions
  import opened RaceSim
  import opened RaceProperties
  import opened Ranking

  /** The draws of one call of `simulate_race`. */
  datatype Trial = Trial(draws: SchedulerDraws, noise: nat -> real, vscFactors: nat -> real)

  /** What the random source guarantees about a trial: coins in [0, 1),
      and no divisor that is zero on the cautions its coins deploy. */
  ghost predicate TrialOk(p: Profile, t: Trial)
  {
    && CoinsInRange(t.draws)
    && (t.draws.scCoin < p.scChance ==> p.scSpeedFactor != 0.0)
    && (t.draws.vscCoin < p.vscChance ==> forall i: nat :: t.vscFactors(i) != 0.0)
  }

  /** Every coin lands at or above its chance: nothing is deployed. */
  predicate QuietDraws(p: Profile, s: SchedulerDraws)
  {
    s.scCoin >= p.scChance && s.vscCoin >= p.vscChance && s.redCoin >= p.redFlagChance
  }

  /** One call of `simulate_race`: schedule the disruptions, then race. It
      fails exactly when the scheduler does, with the scheduler's error. */
  function SimulateRace(p: Profile, s: Strategy, t: Trial): (r: Result<real, ScheduleError>)
    requires TrialOk(p, t)
    ensures r.Success? <==> Schedule(p, t.draws).Success?
    ensures r.Failure? ==> r.error == Schedule(p, t.draws).error
  {
    var d :- Schedule(p, t.draws);
    var race := Race(p, d, t.noise, t.vscFactors);
    assert WellDefined(race);
    Success(RaceTime(race, s))
  }

  /** A trial fails exactly when the scheduler draws from an empty range,
      and every sample it yields is the race time under the disruption the
      scheduler drew from the trial's own draws: valid, and with each kind
      deployed exactly when its coin falls below its chance. */
  lemma SimulateRaceMeaning(p: Profile, s: Strategy, t: Trial)
    requires TrialOk(p, t)
    ensures SimulateRace(p, s, t).Success? <==> Schedule(p, t.draws).Success?
    ensures SimulateRace(p, s, t).Failure? ==> Schedule(p, t.draws) == Failure(SimulateRace(p, s, t).error)
    ensures SimulateRace(p, s, t).Success? ==>
              exists d :: && Schedule(p, t.draws) == Success(d)
                          && ValidDisruption(p, d)
                          && (d.sc.deployed <==> t.draws.scCoin < p.scChance)
                          && (d.vsc.deployed <==> t.draws.vscCoin < p.vscChance)
                          && (d.redFlag.deployed <==> t.draws.redCoin < p.redFlagChance)
                          && WellDefined(Race(p, d, t.noise, t.vscFactors))
                          && SimulateRace(p, s, t).value == RaceTime(Race(p, d, t.noise, t.vscFactors), s)
  {
    if Schedule(p, t.draws).Success? {
      var d := Schedule(p, t.draws).value;
      assert ValidDisruption(p, d) && WellDefined(Race(p, d, t.noise, t.vscFactors));
    }
  }

  /** On a feasible profile every trial yields a sample. */
  lemma SimulateRaceSucceeds(p: Profile, s: Strategy, t: Trial)
    requires TrialOk(p, t) && ScheduleFeasible(p)
    ensures SimulateRace(p, s, t).Success?
  {
    ScheduleSucceeds(p, t.draws);
    SimulateRaceMeaning(p, s, t);
  }

  /** A trial whose coins deploy nothing yields the undisturbed race time,
      on any profile. */
  lemma QuietTrial(p: Profile, s: Strategy, t: Trial)
    requires TrialOk(p, t) && QuietDraws(p, t.draws)
    ensures SimulateRace(p, s, t) == Success(CleanRaceTime(p, s, t.noise))
  {
    var d := Schedule(p, t.draws).value;
    var race := Race(p, d, t.noise, t.vscFactors);
    assert Schedule(p, t.draws).Success? && Quiet(d);
    QuietClosedForm(race, s);
  }

  /** `xs` holds one sample per trial, in trial order. */
  ghost predicate Sampled(p: Profile, s: Strategy, trials: seq<Trial>, xs: seq<real>)
  {
    && |xs| == |trials|
    && forall i :: 0 <= i < |trials| ==>
         TrialOk(p, trials[i]) && SimulateRace(p, s, trials[i]) == Success(xs[i])
  }

  /** `monte_carlo_simulation`: one sample per trial, in order, or the
      error of the first trial whose schedule fails. On a feasible profile
      it yields exactly one sample per trial. */
  method Samples(p: Profile, s: Strategy, trials: seq<Trial>) returns (r: Result<seq<real>, ScheduleError>)
    requires forall i :: 0 <= i < |trials| ==> TrialOk(p, trials[i])
    ensures r.Success? <==> forall i :: 0 <= i < |trials| ==> SimulateRace(p, s, trials[i]).Success?
    ensures r.Success? ==> Sampled(p, s, trials, r.value)
    ensures r.Failure? ==>
              exists i :: 0 <= i < |trials| && SimulateRace(p, s, trials[i]) == Failure(r.error)
                          && forall j :: 0 <= j < i ==> SimulateRace(p, s, trials[j]).Success?
    ensures ScheduleFeasible(p) ==> r.Success?
  {
    var samples: seq<real> := [];
    for i := 0 to |trials|
      invariant |samples| == i
      invariant forall j :: 0 <= j < i ==> SimulateRace(p, s, trials[j]) == Success(samples[j])
    {
      var x := SimulateRace(p, s, trials[i]);
      if x.Failure? {
        if ScheduleFeasible(p) {
          SimulateRaceSucceeds(p, s, trials[i]);
        }
        return Failure(x.error);
      }
      samples := samples + [x.value];
    }
    r := Success(samples);
    if ScheduleFeasible(p) {
      forall i | 0 <= i < |trials| ensures SimulateRace(p, s, trials[i]).Success? {
        SimulateRaceSucceeds(p, s, trials[i]);
      }
    }
  }

  /** The strategy comparison: the samples of each strategy of the pool,
      the pool ranked by mean, and the best strategy. */
  datatype Comparison = Comparison(samples: seq<seq<real>>, ranked: seq<Ranked>, best: Option<Ranked>)

  /** The strategy loop: run the trials of each strategy, average them,
      sort by mean and take the head. The ranking holds each strategy once
      with its mean, sorted by mean with ties in pool order, and the best
      has the least mean, the earliest in the pool among equals; the best is
      absent only for an empty pool. A failure is the error of the first
      failing trial of the first strategy, in pool order, that has one. */
  method CompareStrategies(p: Profile, pool: seq<Strategy>, trials: seq<seq<Trial>>)
    returns (r: Result<Comparison, ScheduleError>)
    requires |trials| == |pool|
    requires forall i :: 0 <= i < |trials| ==> |trials[i]| > 0
    requires forall i, j :: 0 <= i < |trials| && 0 <= j < |trials[i]| ==> TrialOk(p, trials[i][j])
    ensures ScheduleFeasible(p) ==> r.Success?
    ensures r.Failure? ==>
              exists i, j :: && 0 <= i < |pool| && 0 <= j < |trials[i]|
                             && SimulateRace(p, pool[i], trials[i][j]) == Failure(r.error)
                             && (forall k, m :: 0 <= k < i && 0 <= m < |trials[k]| ==> SimulateRace(p, pool[k], trials[k][m]).Success?)
                             && (forall m :: 0 <= m < j ==> SimulateRace(p, pool[i], trials[i][m]).Success?)
    ensures r.Success? ==>
              var c := r.value;
              && |c.samples| == |pool|
              && (forall i :: 0 <= i < |pool| ==> Sampled(p, pool[i], trials[i], c.samples[i]))
              && multiset(c.ranked) == multiset(Tabulate(pool, c.samples))
              && SortedByMean(c.ranked) && TiesInPoolOrder(c.ranked)
              && (c.best.None? <==> |pool| == 0)
              && (c.best.Some? ==>
                    c.best.value in Tabulate(pool, c.samples)
                    && forall y :: y in Tabulate(pool, c.samples) ==>
                         c.best.value.mean <= y.mean && (y.mean == c.best.value.mean ==> c.best.value.index <= y.index))
  {
    var all: seq<seq<real>> := [];
    for i := 0 to |pool|
      invariant |all| == i
      invariant forall k :: 0 <= k < i ==> Sampled(p, pool[k], trials[k], all[k])
    {
      var x := Samples(p, pool[i], trials[i]);
      if x.Failure? {
        var j :| && 0 <= j < |trials[i]| && SimulateRace(p, pool[i], trials[i][j]) == Failure(x.error)
                 && forall m :: 0 <= m < j ==> SimulateRace(p, pool[i], trials[i][m]).Success?;
        return Failure(x.error);
      }
      all := all + [x.value];
    }
    var table := Tabulate(pool, all);
    var ranked, best := Rank(table);
    r := Success(Comparison(all, ranked, best));
  }
}
