/** The disruption scheduler: the one draw, at the start of every race, of
    whether a full-course caution (safety car), a partial-course caution
    (virtual safety car) and a race stoppage (red flag) happen, with their
    onset laps and durations. The random draws are inputs. */
module Disruptions {
  import opened Results
  import opened Profiles

  /** Earliest onset lap of every disruption. */
  const EarliestOnset := 10
  /** Laps a safety car must leave before the flag: onset <= length - laps - 5. */
  const ScEndMargin := 5
  /** The same margin for a virtual safety car. */
  const VscEndMargin := 3
  /** A red flag comes at the latest 10 laps before the end. */
  const RedFlagEndMargin := 10

  /** A caution period; an undeployed one carries laps 0 and onset -1. */
  datatype CautionEvent = CautionEvent(deployed: bool, laps: int, start: int)

  /** A race stoppage; an undeployed one carries lap -1. */
  datatype RedFlagEvent = RedFlagEvent(deployed: bool, lap: int)

  /** Everything the scheduler decides for one race. */
  datatype Disruption = Disruption(sc: CautionEvent, vsc: CautionEvent, redFlag: RedFlagEvent)

  /** No disruption of any kind is deployed. */
  predicate Quiet(d: Disruption)
  {
    !d.sc.deployed && !d.vsc.deployed && !d.redFlag.deployed
  }

  /** The safety car covers race lap `lap`; both ends are inclusive, so it
      covers `laps + 1` laps. */
  predicate ScActive(d: Disruption, lap: int)
  {
    d.sc.deployed && d.sc.start <= lap <= d.sc.start + d.sc.laps
  }

  /** The virtual safety car covers race lap `lap`, ends inclusive. */
  predicate VscActive(d: Disruption, lap: int)
  {
    d.vsc.deployed && d.vsc.start <= lap <= d.vsc.start + d.vsc.laps
  }

  /** Laps on which the virtual safety car factor applies: the safety car
      takes precedence whenever both are active. */
  predicate VscOnly(d: Disruption, lap: int)
  {
    !ScActive(d, lap) && VscActive(d, lap)
  }

  /** Number of laps among 1..n on which only the virtual safety car is out. */
  function VscOnlyCount(d: Disruption, n: nat): nat
  {
    if n == 0 then 0 else VscOnlyCount(d, n - 1) + (if VscOnly(d, n) then 1 else 0)
  }

  /** Number of laps among 1..n on which the safety car is out. */
  function ScCount(d: Disruption, n: nat): nat
  {
    if n == 0 then 0 else ScCount(d, n - 1) + (if ScActive(d, n) then 1 else 0)
  }

  /** The red flag lap is among laps 1..n. */
  predicate RedHit(d: Disruption, n: nat)
  {
    d.redFlag.deployed && 1 <= d.redFlag.lap <= n
  }

  /** A caution the scheduler can produce: a duration from `range` and an
      onset that leaves `margin` laps after the caution ends. */
  predicate ValidCaution(e: CautionEvent, range: IntRange, margin: int, raceLength: int)
  {
    if e.deployed then
      && range.lo <= e.laps <= range.hi
      && EarliestOnset <= e.start <= raceLength - e.laps - margin
    else
      e.laps == 0 && e.start == -1
  }

  predicate ValidRedFlag(e: RedFlagEvent, raceLength: int)
  {
    if e.deployed then EarliestOnset <= e.lap <= raceLength - RedFlagEndMargin
    else e.lap == -1
  }

  /** The disruption records the scheduler can produce for profile `p`. */
  predicate ValidDisruption(p: Profile, d: Disruption)
  {
    && ValidCaution(d.sc, p.scLaps, ScEndMargin, p.raceLength)
    && ValidCaution(d.vsc, p.vscLaps, VscEndMargin, p.raceLength)
    && ValidRedFlag(d.redFlag, p.raceLength)
  }

  /** The raw random draws of the scheduler, in the order they are drawn:
      a coin from `random.random()` per kind, and an offset for each
      `randint`. */
  datatype SchedulerDraws = SchedulerDraws(
    scCoin: real, scLapsPick: nat, scStartPick: nat,
    vscCoin: real, vscLapsPick: nat, vscStartPick: nat,
    redCoin: real, redLapPick: nat)

  /** `random.random()` returns a value in [0, 1). */
  predicate CoinsInRange(s: SchedulerDraws)
  {
    && 0.0 <= s.scCoin < 1.0
    && 0.0 <= s.vscCoin < 1.0
    && 0.0 <= s.redCoin < 1.0
  }

  /** `randint` raises on an empty range. */
  datatype ScheduleError = EmptyRange(lo: int, hi: int)

  /** `randint(lo, hi)` with its draw given as an offset `pick`. */
  function RandInt(lo: int, hi: int, pick: nat): (r: Result<int, ScheduleError>)
    ensures r.Success? <==> lo <= hi
    ensures r.Success? ==> lo <= r.value <= hi
    ensures r.Failure? ==> r.error == EmptyRange(lo, hi)
  {
    if hi < lo then Failure(EmptyRange(lo, hi)) else Success(lo + pick % (hi - lo + 1))
  }

  /** Every value of a non-empty range is drawn by some offset. */
  lemma RandIntOnto(lo: int, hi: int, v: int)
    requires lo <= v <= hi
    ensures RandInt(lo, hi, v - lo) == Success(v)
  {
  }

  /** Draw one caution: deployed when the coin falls below `chance`, then a
      duration, then an onset. */
  function DrawCaution(chance: real, range: IntRange, margin: int, raceLength: int,
                       coin: real, lapsPick: nat, startPick: nat): (r: Result<CautionEvent, ScheduleError>)
    ensures r.Success? ==> ValidCaution(r.value, range, margin, raceLength)
    ensures r.Success? ==> (r.value.deployed <==> coin < chance)
    ensures coin >= chance ==> r.Success?
    ensures r.Failure? <==>
              coin < chance
              && (range.hi < range.lo
                  || raceLength - RandInt(range.lo, range.hi, lapsPick).value - margin < EarliestOnset)
    ensures r.Failure? ==>
              r.error == if range.hi < range.lo then EmptyRange(range.lo, range.hi)
                         else EmptyRange(EarliestOnset, raceLength - RandInt(range.lo, range.hi, lapsPick).value - margin)
  {
    if coin < chance then
      var laps :- RandInt(range.lo, range.hi, lapsPick);
      var start :- RandInt(EarliestOnset, raceLength - laps - margin, startPick);
      Success(CautionEvent(true, laps, start))
    else
      Success(CautionEvent(false, 0, -1))
  }

  function DrawRedFlag(chance: real, raceLength: int, coin: real, pick: nat): (r: Result<RedFlagEvent, ScheduleError>)
    ensures r.Success? ==> ValidRedFlag(r.value, raceLength)
    ensures r.Success? ==> (r.value.deployed <==> coin < chance)
    ensures r.Failure? <==> coin < chance && raceLength - RedFlagEndMargin < EarliestOnset
  {
    if coin < chance then
      var lap :- RandInt(EarliestOnset, raceLength - RedFlagEndMargin, pick);
      Success(RedFlagEvent(true, lap))
    else
      Success(RedFlagEvent(false, -1))
  }

  /** The three draws of the scheduler, in the order it makes them. */
  function ScDraw(p: Profile, s: SchedulerDraws): Result<CautionEvent, ScheduleError>
  {
    DrawCaution(p.scChance, p.scLaps, ScEndMargin, p.raceLength, s.scCoin, s.scLapsPick, s.scStartPick)
  }

  function VscDraw(p: Profile, s: SchedulerDraws): Result<CautionEvent, ScheduleError>
  {
    DrawCaution(p.vscChance, p.vscLaps, VscEndMargin, p.raceLength, s.vscCoin, s.vscLapsPick, s.vscStartPick)
  }

  function RedDraw(p: Profile, s: SchedulerDraws): Result<RedFlagEvent, ScheduleError>
  {
    DrawRedFlag(p.redFlagChance, p.raceLength, s.redCoin, s.redLapPick)
  }

  /** The scheduler of one race: safety car, virtual safety car, red flag.
      It fails exactly when one of its draws does, with the error of the
      first that fails. */
  function Schedule(p: Profile, s: SchedulerDraws): (r: Result<Disruption, ScheduleError>)
    ensures r.Success? ==> ValidDisruption(p, r.value)
    ensures r.Success? ==> (r.value.sc.deployed <==> s.scCoin < p.scChance)
    ensures r.Success? ==> (r.value.vsc.deployed <==> s.vscCoin < p.vscChance)
    ensures r.Success? ==> (r.value.redFlag.deployed <==> s.redCoin < p.redFlagChance)
    ensures r.Failure? <==> ScDraw(p, s).Failure? || VscDraw(p, s).Failure? || RedDraw(p, s).Failure?
    ensures r.Failure? ==>
              r.error == if ScDraw(p, s).Failure? then ScDraw(p, s).error
                         else if VscDraw(p, s).Failure? then VscDraw(p, s).error
                         else RedDraw(p, s).error
  {
    var sc :- ScDraw(p, s);
    var vsc :- VscDraw(p, s);
    var red :- RedDraw(p, s);
    Success(Disruption(sc, vsc, red))
  }

  /** A kind that can be deployed needs a non-empty duration range and an
      onset window that stays non-empty for the longest duration. */
  predicate CautionFeasible(chance: real, range: IntRange, margin: int, raceLength: int)
  {
    chance > 0.0 ==> range.lo <= range.hi && EarliestOnset <= raceLength - range.hi - margin
  }

  /** The profile never makes the scheduler draw from an empty range. */
  predicate ScheduleFeasible(p: Profile)
  {
    && CautionFeasible(p.scChance, p.scLaps, ScEndMargin, p.raceLength)
    && CautionFeasible(p.vscChance, p.vscLaps, VscEndMargin, p.raceLength)
    && (p.redFlagChance > 0.0 ==> EarliestOnset <= p.raceLength - RedFlagEndMargin)
  }

  lemma DrawCautionSucceeds(chance: real, range: IntRange, margin: int, raceLength: int,
                            coin: real, lapsPick: nat, startPick: nat)
    requires CautionFeasible(chance, range, margin, raceLength)
    requires 0.0 <= coin
    ensures DrawCaution(chance, range, margin, raceLength, coin, lapsPick, startPick).Success?
  {
  }

  /** On a feasible profile every draw schedules successfully. */
  lemma ScheduleSucceeds(p: Profile, s: SchedulerDraws)
    requires ScheduleFeasible(p)
    requires CoinsInRange(s)
    ensures Schedule(p, s).Success?
  {
    DrawCautionSucceeds(p.scChance, p.scLaps, ScEndMargin, p.raceLength, s.scCoin, s.scLapsPick, s.scStartPick);
    DrawCautionSucceeds(p.vscChance, p.vscLaps, VscEndMargin, p.raceLength, s.vscCoin, s.vscLapsPick, s.vscStartPick);
  }

  /** Offset that makes `randint` draw the top of its range. */
  function TopPick(range: IntRange): nat
  {
    if range.lo <= range.hi then range.hi - range.lo else 0
  }

  lemma DrawCautionFails(chance: real, range: IntRange, margin: int, raceLength: int)
    requires !CautionFeasible(chance, range, margin, raceLength)
    ensures DrawCaution(chance, range, margin, raceLength, 0.0, TopPick(range), 0).Failure?
  {
    if range.lo <= range.hi {
      RandIntOnto(range.lo, range.hi, range.hi);
    }
  }

  /** Conversely, on an infeasible profile some draw makes `randint` raise:
      feasibility is exactly what the scheduler needs. */
  lemma ScheduleCanFail(p: Profile)
    requires !ScheduleFeasible(p)
    ensures exists s :: CoinsInRange(s) && Schedule(p, s).Failure?
  {
    var s := SchedulerDraws(0.0, TopPick(p.scLaps), 0, 0.0, TopPick(p.vscLaps), 0, 0.0, 0);
    if !CautionFeasible(p.scChance, p.scLaps, ScEndMargin, p.raceLength) {
      DrawCautionFails(p.scChance, p.scLaps, ScEndMargin, p.raceLength);
    } else if !CautionFeasible(p.vscChance, p.vscLaps, VscEndMargin, p.raceLength) {
      DrawCautionSucceeds(p.scChance, p.scLaps, ScEndMargin, p.raceLength, 0.0, TopPick(p.scLaps), 0);
      DrawCautionFails(p.vscChance, p.vscLaps, VscEndMargin, p.raceLength);
    } else {
      DrawCautionSucceeds(p.scChance, p.scLaps, ScEndMargin, p.raceLength, 0.0, TopPick(p.scLaps), 0);
      DrawCautionSucceeds(p.vscChance, p.vscLaps, VscEndMargin, p.raceLength, 0.0, TopPick(p.vscLaps), 0);
    }
    assert CoinsInRange(s) && Schedule(p, s).Failure?;
  }

  /** The deployment decision recorded in `deployed` can come out of a coin
      in [0, 1) against `chance`. */
  predicate CoinAllows(chance: real, deployed: bool)
  {
    if deployed then chance > 0.0 else chance < 1.0
  }

  /** A coin in [0, 1) that produces the decision `deployed`. */
  function CoinFor(chance: real, deployed: bool): real
  {
    if deployed || chance < 0.0 then 0.0 else chance
  }

  lemma DrawCautionReaches(chance: real, range: IntRange, margin: int, raceLength: int, e: CautionEvent)
    requires ValidCaution(e, range, margin, raceLength)
    requires CoinAllows(chance, e.deployed)
    ensures e.deployed ==> e.laps - range.lo >= 0 && e.start - EarliestOnset >= 0
    ensures DrawCaution(chance, range, margin, raceLength, CoinFor(chance, e.deployed),
                        if e.deployed then e.laps - range.lo else 0,
                        if e.deployed then e.start - EarliestOnset else 0) == Success(e)
  {
    if e.deployed {
      RandIntOnto(range.lo, range.hi, e.laps);
      RandIntOnto(EarliestOnset, raceLength - e.laps - margin, e.start);
    }
  }

  /** Every valid disruption record is produced by some draw, so the
      validity predicate describes the scheduler's outputs exactly. */
  lemma ScheduleComplete(p: Profile, d: Disruption)
    requires ValidDisruption(p, d)
    requires CoinAllows(p.scChance, d.sc.deployed)
    requires CoinAllows(p.vscChance, d.vsc.deployed)
    requires CoinAllows(p.redFlagChance, d.redFlag.deployed)
    ensures exists s :: CoinsInRange(s) && Schedule(p, s) == Success(d)
  {
    DrawCautionReaches(p.scChance, p.scLaps, ScEndMargin, p.raceLength, d.sc);
    DrawCautionReaches(p.vscChance, p.vscLaps, VscEndMargin, p.raceLength, d.vsc);
    var redPick: nat := if d.redFlag.deployed then d.redFlag.lap - EarliestOnset else 0;
    if d.redFlag.deployed {
      RandIntOnto(EarliestOnset, p.raceLength - RedFlagEndMargin, d.redFlag.lap);
    }
    var s := SchedulerDraws(
      CoinFor(p.scChance, d.sc.deployed),
      if d.sc.deployed then d.sc.laps - p.scLaps.lo else 0,
      if d.sc.deployed then d.sc.start - EarliestOnset else 0,
      CoinFor(p.vscChance, d.vsc.deployed),
      if d.vsc.deployed then d.vsc.laps - p.vscLaps.lo else 0,
      if d.vsc.deployed then d.vsc.start - EarliestOnset else 0,
      CoinFor(p.redFlagChance, d.redFlag.deployed),
      redPick);
    assert Schedule(p, s) == Success(d);
  }

  /** A deployed safety car lies inside laps 10..length-5 of the race. */
  lemma ValidScInsideRace(p: Profile, d: Disruption, lap: int)
    requires ValidDisruption(p, d)
    requires ScActive(d, lap)
    ensures EarliestOnset <= lap <= p.raceLength - ScEndMargin
  {
  }
}
