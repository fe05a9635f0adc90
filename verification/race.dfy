/** The single-race simulator (`simulate_race`) once the disruptions are
    drawn: a fold over the stints of a strategy and the laps of each stint,
    accumulating lap times and pit-stop costs. */
module RaceSim {
  import opened Profiles
  import opened Strategies
  import opened Disruptions
  import opened PitStop
  import opened Stats

  /** The inputs of one race: the profile, the drawn disruptions, and the
      two per-lap random streams, indexed from 0 in draw order: the lap-time
      noise (one draw per lap driven) and the virtual safety car factors
      (one draw per lap on which only the virtual safety car is out). */
  datatype Race = Race(profile: Profile, disruption: Disruption, noise: nat -> real, vscFactors: nat -> real)

  /** The divisions of the lap loop are defined: a deployed safety car
      divides by the profile's factor, a deployed virtual safety car by its
      drawn factors. */
  ghost predicate WellDefined(r: Race)
  {
    && (r.disruption.sc.deployed ==> r.profile.scSpeedFactor != 0.0)
    && (r.disruption.vsc.deployed ==> forall i: nat :: r.vscFactors(i) != 0.0)
  }

  /** The caution in force on a lap; a partial caution records the factor
      drawn for it. */
  datatype Caution = Clear | FullCourse | PartialCourse(factor: real)

  /** One driven lap: race lap number, compound and stint lap, the lap time
      before cautions, the caution applied, whether the red flag saving was
      subtracted, and the time added to the total. */
  datatype LapRecord = LapRecord(
    lap: int, compound: Compound, stintLap: nat,
    raw: real, caution: Caution, redFlag: bool, time: real)

  /** Base pace plus degradation for the stint lap plus noise, minus the
      fuel effect for the race lap. */
  function RawLapTime(p: Profile, c: Compound, stintLap: nat, noiseDraw: real, lap: int): real
  {
    p.baseLapTime + DegRate(p, c) * (stintLap as real) + noiseDraw - FuelEffectPerLap * (lap as real)
  }

  /** The lap-time model for race lap `lap`: the safety car divisor takes
      precedence over the virtual safety car factor at the stream position
      `vscCursor`; the red flag saving is subtracted when still pending and
      this is its lap. */
  function Lap(r: Race, lap: int, c: Compound, stintLap: nat, noiseDraw: real,
               vscCursor: nat, redPending: bool): LapRecord
    requires WellDefined(r)
  {
    var d := r.disruption;
    var raw := RawLapTime(r.profile, c, stintLap, noiseDraw, lap);
    var caution :=
      if ScActive(d, lap) then FullCourse
      else if VscActive(d, lap) then PartialCourse(r.vscFactors(vscCursor))
      else Clear;
    var slowed :=
      if ScActive(d, lap) then raw / r.profile.scSpeedFactor
      else if VscActive(d, lap) then raw / r.vscFactors(vscCursor)
      else raw;
    var red := d.redFlag.deployed && redPending && lap == d.redFlag.lap;
    LapRecord(lap, c, stintLap, raw, caution, red,
              if red then slowed - r.profile.redFlagTimeSaving else slowed)
  }

  /** Loop state: running total, race-wide lap counter, the positions
      reached in the two random streams, the red-flag flag, and the laps and
      pit costs accumulated so far. */
  datatype SimState = SimState(
    total: real, lap: int, noiseUsed: nat, vscUsed: nat,
    redFlagApplied: bool, trace: seq<LapRecord>, pits: seq<real>)

  const Start := SimState(0.0, 0, 0, 0, false, [], [])

  /** Drive lap `st.lap` (already counted) as lap `stintLap` of a stint. */
  function LapStep(r: Race, c: Compound, stintLap: nat, st: SimState): SimState
    requires WellDefined(r)
  {
    var rec := Lap(r, st.lap, c, stintLap, r.noise(st.noiseUsed), st.vscUsed, !st.redFlagApplied);
    st.(total := st.total + rec.time,
        noiseUsed := st.noiseUsed + 1,
        vscUsed := if rec.caution.PartialCourse? then st.vscUsed + 1 else st.vscUsed,
        redFlagApplied := st.redFlagApplied || rec.redFlag,
        trace := st.trace + [rec])
  }

  /** The pit stop after stint `i`, taken unless it is the last stint, and
      taken whether or not the race distance was already reached. */
  function AfterStint(r: Race, s: Strategy, i: nat, st: SimState): SimState
    requires i < |s|
  {
    if i < |s| - 1 then
      var cost := PitCost(r.profile, r.disruption, s[i].compound);
      st.(total := st.total + cost, pits := st.pits + [cost])
    else st
  }

  /** Laps left in stint `i` from stint lap `k` on. */
  function LapsLeft(s: Strategy, i: nat, k: nat): nat
  {
    if i < |s| && k < s[i].laps then s[i].laps - k else 0
  }

  /** The two nested loops as one state machine at stint `i`, stint lap
      `k`: a finished stint, or one cut off because the lap counter passed
      the race length, moves on to the pit stop and the next stint;
      otherwise the lap is counted and driven. */
  function Run(r: Race, s: Strategy, i: nat, k: nat, st: SimState): (o: SimState)
    requires WellDefined(r)
    requires i <= |s|
    ensures st.trace <= o.trace && st.pits <= o.pits
    ensures |o.pits| - |st.pits| == PitCount(s[i..])
    decreases |s| - i, LapsLeft(s, i, k), 1
  {
    if i == |s| then st
    else if s[i].laps <= k then Run(r, s, i + 1, 0, AfterStint(r, s, i, st))
    else if st.lap + 1 > r.profile.raceLength then
      Run(r, s, i + 1, 0, AfterStint(r, s, i, st.(lap := st.lap + 1)))
    else DriveLap(r, s, i, k, st.(lap := st.lap + 1))
  }

  /** Drive the counted lap `st.lap` as stint lap `k` of stint `i`, then
      continue with the next stint lap. */
  function DriveLap(r: Race, s: Strategy, i: nat, k: nat, st: SimState): (o: SimState)
    requires WellDefined(r)
    requires i < |s| && k < s[i].laps
    ensures st.trace < o.trace && st.pits <= o.pits
    ensures |o.pits| - |st.pits| == PitCount(s[i..])
    decreases |s| - i, LapsLeft(s, i, k), 0
  {
    Run(r, s, i, k + 1, LapStep(r, s[i].compound, k, st))
  }

  /** Sum of the recorded lap times. */
  function SumTimes(t: seq<LapRecord>): real
    decreases |t|
  {
    if |t| == 0 then 0.0 else SumTimes(t[..|t| - 1]) + t[|t| - 1].time
  }

  /** Reference record for the `i`-th lap driven (race lap `i + 1`): it
      runs on plan entry `e`, takes noise draw `i`, the virtual safety car
      factor after one per earlier virtual-only lap, and the red flag saving
      exactly on the red flag lap. */
  function ExpectedLap(r: Race, i: nat, e: PlanEntry): LapRecord
    requires WellDefined(r)
  {
    Lap(r, i + 1, e.compound, e.stintLap, r.noise(i),
        VscOnlyCount(r.disruption, i), !RedHit(r.disruption, i))
  }

  /** Pit costs of the strategy: one per stint but the last. */
  function PitsOf(r: Race, s: Strategy): seq<real>
  {
    seq(PitCount(s), (j: int) requires 0 <= j < PitCount(s) =>
      PitCost(r.profile, r.disruption, s[j].compound))
  }

  /** The loop state after the laps of `plan` were offered: the laps driven
      are the first `min(|plan|, raceLength)` of the plan, each the
      reference record; the stream positions and the red flag match them;
      the total is their time plus the pits. The counter equals the plan
      length until it passes the race length. */
  ghost predicate Inv(r: Race, plan: seq<PlanEntry>, st: SimState)
  {
    && WellDefined(r)
    && |st.trace| == Min(|plan|, r.profile.raceLength)
    && (st.lap == |plan| || (st.lap > r.profile.raceLength && |plan| > r.profile.raceLength))
    && (forall j :: 0 <= j < |st.trace| ==> st.trace[j] == ExpectedLap(r, j, plan[j]))
    && st.noiseUsed == |st.trace|
    && st.vscUsed == VscOnlyCount(r.disruption, |st.trace|)
    && st.redFlagApplied == RedHit(r.disruption, |st.trace|)
    && st.total == SumTimes(st.trace) + Sum(st.pits)
  }

  lemma {:induction false} SumTimesAppend(t: seq<LapRecord>, x: LapRecord)
    ensures SumTimes(t + [x]) == SumTimes(t) + x.time
  {
    assert (t + [x])[..|t|] == t;
  }

  /** Driving one lap in a consistent state extends the invariant by the
      reference record of that lap. */
  lemma {:induction false} LapStepInv(r: Race, plan: seq<PlanEntry>, c: Compound, k: nat, st: SimState)
    requires Inv(r, plan, st)
    requires st.lap < r.profile.raceLength
    ensures Inv(r, plan + [PlanEntry(c, k)], LapStep(r, c, k, st.(lap := st.lap + 1)))
  {
    var d := r.disruption;
    var plan' := plan + [PlanEntry(c, k)];
    var i := |st.trace|;
    assert st.lap == |plan| && i == |plan|;
    var st' := LapStep(r, c, k, st.(lap := st.lap + 1));
    var rec := Lap(r, st.lap + 1, c, k, r.noise(st.noiseUsed), st.vscUsed, !st.redFlagApplied);
    assert rec == ExpectedLap(r, i, plan'[i]);
    assert st'.trace == st.trace + [rec];
    assert forall j :: 0 <= j < |st'.trace| ==> st'.trace[j] == ExpectedLap(r, j, plan'[j]) by {
      forall j | 0 <= j < |st'.trace|
        ensures st'.trace[j] == ExpectedLap(r, j, plan'[j])
      {
        if j < i {
          assert st'.trace[j] == st.trace[j] && plan'[j] == plan[j];
        }
      }
    }
    assert rec.caution.PartialCourse? <==> VscOnly(d, i + 1);
    assert st'.vscUsed == VscOnlyCount(d, i + 1);
    assert st'.redFlagApplied == RedHit(d, i + 1);
    SumTimesAppend(st.trace, rec);
  }

  /** A plan that `plan` is a prefix of. */
  predicate Extends(plan: seq<PlanEntry>, plan': seq<PlanEntry>)
  {
    |plan| <= |plan'| && plan'[..|plan|] == plan
  }

  /** Once the race distance is reached, offering more laps changes
      nothing but the counter. */
  lemma InvOverflow(r: Race, plan: seq<PlanEntry>, plan': seq<PlanEntry>, st: SimState)
    requires Inv(r, plan, st)
    requires st.lap + 1 > r.profile.raceLength
    requires Extends(plan, plan') && |plan'| > |plan|
    ensures Inv(r, plan', st.(lap := st.lap + 1))
  {
    assert forall j :: 0 <= j < |plan| ==> plan'[j] == plan[j] by {
      forall j | 0 <= j < |plan| ensures plan'[j] == plan[j] {
        assert plan'[..|plan|][j] == plan'[j];
      }
    }
  }

  lemma StintPrefixExtends(plan: seq<PlanEntry>, c: Compound, k: nat, m: nat)
    requires k <= m
    ensures Extends(plan + StintPrefix(c, k), plan + StintPrefix(c, m))
  {
    assert (plan + StintPrefix(c, m))[..|plan| + k] == plan + StintPrefix(c, k);
  }

  /** Adding a pit cost keeps the invariant. */
  lemma AddPitInv(r: Race, plan: seq<PlanEntry>, st: SimState, cost: real)
    requires Inv(r, plan, st)
    ensures Inv(r, plan, st.(total := st.total + cost, pits := st.pits + [cost]))
  {
    SumAppend(st.pits, cost);
  }

  /** The plan offered when the machine stands at stint `i`, stint lap `k`:
      all earlier stints, then the first `k` laps of stint `i`. */
  function PlanUpTo(s: Strategy, i: nat, k: nat): seq<PlanEntry>
    requires i <= |s|
  {
    if i < |s| then Plan(s[..i]) + StintPrefix(s[i].compound, k) else Plan(s)
  }

  /** The machine state at stint `i`, stint lap `k` is consistent: the
      invariant over the plan offered so far, and the pit costs of the
      stints left behind. */
  ghost predicate At(r: Race, s: Strategy, i: nat, k: nat, st: SimState)
  {
    && i <= |s|
    && (i < |s| ==> k <= Span(s[i].laps))
    && Inv(r, PlanUpTo(s, i, k), st)
    && st.pits == PitsOf(r, s)[..Min(i, PitCount(s))]
  }

  /** Leaving stint `i` (with or without its pit stop) starts stint `i + 1`
      in a consistent state. */
  lemma NextStint(r: Race, s: Strategy, i: nat, st: SimState)
    requires i < |s|
    requires Inv(r, Plan(s[..i + 1]), st)
    requires st.pits == PitsOf(r, s)[..i]
    ensures At(r, s, i + 1, 0, AfterStint(r, s, i, st))
  {
    var plan := Plan(s[..i + 1]);
    if i + 1 < |s| {
      assert PlanUpTo(s, i + 1, 0) == plan;
    } else {
      assert s[..i + 1] == s;
    }
    if i < |s| - 1 {
      var cost := PitCost(r.profile, r.disruption, s[i].compound);
      assert PitsOf(r, s)[..i + 1] == PitsOf(r, s)[..i] + [cost];
      AddPitInv(r, plan, st, cost);
    }
  }

  /** The plan of the first `i + 1` stints is that of the first `i`
      followed by the laps of stint `i`. */
  lemma PlanSnoc(s: Strategy, i: nat)
    requires i < |s|
    ensures Plan(s[..i + 1]) == Plan(s[..i]) + StintPrefix(s[i].compound, Span(s[i].laps))
  {
    assert s[..i + 1][..i] == s[..i];
  }

  /** From any consistent state the machine ends with the invariant over
      the whole plan and all pit costs of the strategy. */
  lemma {:induction false} RunInv(r: Race, s: Strategy, i: nat, k: nat, st: SimState)
    requires At(r, s, i, k, st)
    ensures Inv(r, Plan(s), Run(r, s, i, k, st))
    ensures Run(r, s, i, k, st).pits == PitsOf(r, s)
    decreases |s| - i, LapsLeft(s, i, k), 1
  {
    if i == |s| {
      assert PitsOf(r, s)[..Min(i, PitCount(s))] == PitsOf(r, s);
    } else if s[i].laps <= k {
      StintDoneInv(r, s, i, k, st);
    } else if st.lap + 1 > r.profile.raceLength {
      OverflowInv(r, s, i, k, st);
    } else {
      DriveLapInv(r, s, i, k, st);
    }
  }

  /** A stint whose laps are all driven ends in its pit stop. */
  lemma {:induction false} StintDoneInv(r: Race, s: Strategy, i: nat, k: nat, st: SimState)
    requires At(r, s, i, k, st)
    requires i < |s| && s[i].laps <= k
    ensures Inv(r, Plan(s), Run(r, s, i, k, st))
    ensures Run(r, s, i, k, st).pits == PitsOf(r, s)
    decreases |s| - i, LapsLeft(s, i, k), 0
  {
    PlanSnoc(s, i);
    assert k == Span(s[i].laps);
    NextStint(r, s, i, st);
    RunInv(r, s, i + 1, 0, AfterStint(r, s, i, st));
  }

  /** Past the race distance the rest of the stint is skipped, the lap
      counter still advancing once, and the pit stop is still taken. */
  lemma {:induction false} OverflowInv(r: Race, s: Strategy, i: nat, k: nat, st: SimState)
    requires At(r, s, i, k, st)
    requires i < |s| && k < s[i].laps
    requires st.lap + 1 > r.profile.raceLength
    ensures Inv(r, Plan(s), Run(r, s, i, k, st))
    ensures Run(r, s, i, k, st).pits == PitsOf(r, s)
    decreases |s| - i, LapsLeft(s, i, k), 0
  {
    var st' := st.(lap := st.lap + 1);
    assert Inv(r, Plan(s[..i + 1]), st') by {
      PlanSnoc(s, i);
      StintPrefixExtends(Plan(s[..i]), s[i].compound, k, Span(s[i].laps));
      InvOverflow(r, PlanUpTo(s, i, k), Plan(s[..i + 1]), st);
    }
    var next := AfterStint(r, s, i, st');
    assert At(r, s, i + 1, 0, next) by {
      assert st'.pits == PitsOf(r, s)[..i];
      NextStint(r, s, i, st');
    }
    assert Run(r, s, i, k, st) == Run(r, s, i + 1, 0, next);
    RunInv(r, s, i + 1, 0, next);
  }

  /** Driving a lap keeps the state consistent, one stint lap further on. */
  lemma {:induction false} DriveLapInv(r: Race, s: Strategy, i: nat, k: nat, st: SimState)
    requires At(r, s, i, k, st)
    requires i < |s| && k < s[i].laps
    requires st.lap < r.profile.raceLength
    ensures Inv(r, Plan(s), DriveLap(r, s, i, k, st.(lap := st.lap + 1)))
    ensures DriveLap(r, s, i, k, st.(lap := st.lap + 1)).pits == PitsOf(r, s)
    decreases |s| - i, LapsLeft(s, i, k), 0
  {
    var c := s[i].compound;
    var next := LapStep(r, c, k, st.(lap := st.lap + 1));
    assert At(r, s, i, k + 1, next) by {
      var plan := Plan(s[..i]);
      assert plan + StintPrefix(c, k + 1) == (plan + StintPrefix(c, k)) + [PlanEntry(c, k)];
      LapStepInv(r, PlanUpTo(s, i, k), c, k, st);
    }
    assert DriveLap(r, s, i, k, st.(lap := st.lap + 1)) == Run(r, s, i, k + 1, next);
    RunInv(r, s, i, k + 1, next);
  }

  /** `simulate_race` after the disruption draw: the whole loop state at the
      end of the race. The laps driven are the first `min(raceLength,
      TotalSpan(s))` laps of the plan, numbered 1, 2, ... in order, each
      the reference record of its plan entry; one noise draw per lap and
      one factor per virtual-only lap are consumed; the red flag is spent
      exactly when its lap was driven; every stint but the last adds its pit
      cost; and the total is the lap times plus the pit costs. */
  function Simulate(r: Race, s: Strategy): (o: SimState)
    requires WellDefined(r)
    ensures |o.trace| == Covered(r.profile.raceLength, s)
    ensures forall i :: 0 <= i < |o.trace| ==> o.trace[i] == ExpectedLap(r, i, Plan(s)[i])
    ensures o.noiseUsed == |o.trace|
    ensures o.vscUsed == VscOnlyCount(r.disruption, |o.trace|)
    ensures o.redFlagApplied <==> RedHit(r.disruption, |o.trace|)
    ensures o.pits == PitsOf(r, s)
    ensures o.total == SumTimes(o.trace) + Sum(o.pits)
  {
    assert s[..0] == [];
    assert PitsOf(r, s)[..Min(0, PitCount(s))] == [];
    assert |s| > 0 ==> PlanUpTo(s, 0, 0) == [];
    RunInv(r, s, 0, 0, Start);
    Run(r, s, 0, 0, Start)
  }

  /** The total race time of `simulate_race` for drawn disruptions. */
  function RaceTime(r: Race, s: Strategy): real
    requires WellDefined(r)
  {
    Simulate(r, s).total
  }
}
