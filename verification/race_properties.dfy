/** Properties of the single-race simulator, derived from the fold's
    invariant: which laps are driven, what each lap costs, which caution
    applies, how often the red flag fires, and the closed form of an
    undisturbed race. */
module RaceProperties {
  import opened Profiles
  import opened Strategies
  import opened Disruptions
  import opened PitStop
  import opened Stats
  import opened RaceSim

  /** Without disruptions a lap costs its plain lap time. */
  lemma QuietLap(r: Race, i: nat, e: PlanEntry)
    requires WellDefined(r) && Quiet(r.disruption)
    ensures ExpectedLap(r, i, e).caution == Clear && !ExpectedLap(r, i, e).redFlag
    ensures ExpectedLap(r, i, e).time == RawLapTime(r.profile, e.compound, e.stintLap, r.noise(i), i + 1)
  {
  }

  /** Lap coverage: exactly `min(raceLength, TotalSpan(s))` laps are
      driven, numbered 1, 2, ... once each in order. */
  lemma LapCoverage(r: Race, s: Strategy)
    requires WellDefined(r)
    ensures |Simulate(r, s).trace| == Min(r.profile.raceLength, TotalSpan(s))
    ensures forall i :: 0 <= i < |Simulate(r, s).trace| ==> Simulate(r, s).trace[i].lap == i + 1
  {
    var o := Simulate(r, s);
    forall i | 0 <= i < |o.trace| ensures o.trace[i].lap == i + 1 {
      assert o.trace[i] == ExpectedLap(r, i, Plan(s)[i]);
    }
  }

  /** Per-lap pace: lap `k` of stint `j`, if driven, is race lap
      `i + 1` with `i = TotalSpan(s[..j]) + k`; it runs on that stint's
      compound, its degradation uses the stint lap `k` (restarting at 0
      every stint), while the fuel term uses the race lap. */
  lemma LapPace(r: Race, s: Strategy, j: nat, k: nat, i: nat)
    requires WellDefined(r)
    requires j < |s| && k < Span(s[j].laps)
    requires i == TotalSpan(s[..j]) + k
    requires i < Covered(r.profile.raceLength, s)
    ensures Simulate(r, s).trace[i].lap == i + 1
    ensures Simulate(r, s).trace[i].compound == s[j].compound
    ensures Simulate(r, s).trace[i].stintLap == k
    ensures Simulate(r, s).trace[i].raw == RawLapTime(r.profile, s[j].compound, k, r.noise(i), i + 1)
  {
    var c := s[j].compound;
    assert Simulate(r, s).trace[i] == ExpectedLap(r, i, PlanEntry(c, k)) by {
      PlanAt(s, j, k);
    }
  }

  /** Caution precedence on the `i`-th lap driven (race lap `i + 1`): the
      safety car divisor applies whenever the safety car is out; otherwise
      the virtual safety car divides by the next unused factor; the red
      flag saving combines with either. */
  lemma CautionPrecedence(r: Race, s: Strategy, i: nat)
    requires WellDefined(r)
    requires i < Covered(r.profile.raceLength, s)
    ensures var rec := Simulate(r, s).trace[i];
            var d := r.disruption;
            var saving := if rec.redFlag then r.profile.redFlagTimeSaving else 0.0;
            && (rec.caution == FullCourse <==> ScActive(d, i + 1))
            && (rec.caution.PartialCourse? <==> VscActive(d, i + 1) && !ScActive(d, i + 1))
            && (rec.caution == Clear <==> !ScActive(d, i + 1) && !VscActive(d, i + 1))
            && (ScActive(d, i + 1) ==> rec.time == rec.raw / r.profile.scSpeedFactor - saving)
            && (VscOnly(d, i + 1) ==>
                  rec.caution.factor == r.vscFactors(VscOnlyCount(d, i))
                  && rec.time == rec.raw / rec.caution.factor - saving)
            && (rec.caution == Clear ==> rec.time == rec.raw - saving)
            && (rec.redFlag <==> d.redFlag.deployed && i + 1 == d.redFlag.lap)
  {
    assert Simulate(r, s).trace[i] == ExpectedLap(r, i, Plan(s)[i]);
  }

  function CountFullCourse(t: seq<LapRecord>): nat
    decreases |t|
  {
    if |t| == 0 then 0 else CountFullCourse(t[..|t| - 1]) + (if t[|t| - 1].caution == FullCourse then 1 else 0)
  }

  function CountPartialCourse(t: seq<LapRecord>): nat
    decreases |t|
  {
    if |t| == 0 then 0 else CountPartialCourse(t[..|t| - 1]) + (if t[|t| - 1].caution.PartialCourse? then 1 else 0)
  }

  function CountRedFlags(t: seq<LapRecord>): nat
    decreases |t|
  {
    if |t| == 0 then 0 else CountRedFlags(t[..|t| - 1]) + (if t[|t| - 1].redFlag then 1 else 0)
  }

  lemma {:induction false} CountPartialIsVscOnly(d: Disruption, t: seq<LapRecord>)
    requires forall j :: 0 <= j < |t| ==> (t[j].caution.PartialCourse? <==> VscOnly(d, j + 1))
    ensures CountPartialCourse(t) == VscOnlyCount(d, |t|)
    decreases |t|
  {
    if |t| > 0 {
      var init := t[..|t| - 1];
      assert forall j :: 0 <= j < |init| ==> init[j] == t[j];
      CountPartialIsVscOnly(d, init);
    }
  }

  lemma {:induction false} CountFullIsSc(d: Disruption, t: seq<LapRecord>)
    requires forall j :: 0 <= j < |t| ==> (t[j].caution == FullCourse <==> ScActive(d, j + 1))
    ensures CountFullCourse(t) == ScCount(d, |t|)
    decreases |t|
  {
    if |t| > 0 {
      var init := t[..|t| - 1];
      assert forall j :: 0 <= j < |init| ==> init[j] == t[j];
      CountFullIsSc(d, init);
    }
  }

  lemma {:induction false} CountRedIsHit(d: Disruption, t: seq<LapRecord>)
    requires forall j :: 0 <= j < |t| ==> (t[j].redFlag <==> d.redFlag.deployed && j + 1 == d.redFlag.lap)
    ensures CountRedFlags(t) == if RedHit(d, |t|) then 1 else 0
    decreases |t|
  {
    if |t| > 0 {
      var init := t[..|t| - 1];
      assert forall j :: 0 <= j < |init| ==> init[j] == t[j];
      CountRedIsHit(d, init);
    }
  }

  /** Virtual safety car factors are consumed exactly on the laps that get
      one: one per partial-caution lap, none on safety car laps. */
  lemma VscFactorsConsumed(r: Race, s: Strategy)
    requires WellDefined(r)
    ensures Simulate(r, s).vscUsed == CountPartialCourse(Simulate(r, s).trace)
  {
    var o := Simulate(r, s);
    forall j | 0 <= j < |o.trace| ensures (o.trace[j].caution.PartialCourse? <==> VscOnly(r.disruption, j + 1)) {
      CautionPrecedence(r, s, j);
    }
    CountPartialIsVscOnly(r.disruption, o.trace);
  }

  /** The red flag saving is subtracted at most once, and exactly once when
      the red flag is deployed on a lap that is driven. */
  lemma RedFlagAtMostOnce(r: Race, s: Strategy)
    requires WellDefined(r)
    ensures CountRedFlags(Simulate(r, s).trace) <= 1
    ensures CountRedFlags(Simulate(r, s).trace) == 1 <==>
            r.disruption.redFlag.deployed && 1 <= r.disruption.redFlag.lap <= Covered(r.profile.raceLength, s)
  {
    var o := Simulate(r, s);
    forall j | 0 <= j < |o.trace|
      ensures (o.trace[j].redFlag <==> r.disruption.redFlag.deployed && j + 1 == r.disruption.redFlag.lap)
    {
      CautionPrecedence(r, s, j);
    }
    CountRedIsHit(r.disruption, o.trace);
  }

  lemma {:induction false} ScCountBefore(d: Disruption, n: nat)
    requires d.sc.deployed && n < d.sc.start
    ensures ScCount(d, n) == 0
  {
    if n > 0 {
      ScCountBefore(d, n - 1);
    }
  }

  lemma {:induction false} ScCountDuring(d: Disruption, n: nat)
    requires d.sc.deployed && 1 <= d.sc.start <= n + 1 <= d.sc.start + d.sc.laps + 1
    ensures ScCount(d, n) == n - d.sc.start + 1
  {
    if n + 1 == d.sc.start {
      ScCountBefore(d, n);
    } else {
      ScCountDuring(d, n - 1);
    }
  }

  lemma {:induction false} ScCountAfter(d: Disruption, n: nat)
    requires d.sc.deployed && 1 <= d.sc.start && 0 <= d.sc.laps && d.sc.start + d.sc.laps <= n
    ensures ScCount(d, n) == d.sc.laps + 1
  {
    if n == d.sc.start + d.sc.laps {
      ScCountDuring(d, n);
    } else {
      ScCountAfter(d, n - 1);
    }
  }

  /** A scheduled safety car of `laps` laps slows `laps + 1` laps when the
      strategy covers the whole race, because both ends of its window are
      inclusive and the window ends before the flag. */
  lemma SafetyCarLaps(r: Race, s: Strategy)
    requires WellDefined(r)
    requires ValidDisruption(r.profile, r.disruption)
    requires r.disruption.sc.deployed && 0 <= r.disruption.sc.laps
    requires TotalSpan(s) >= r.profile.raceLength
    ensures CountFullCourse(Simulate(r, s).trace) == r.disruption.sc.laps + 1
  {
    var o := Simulate(r, s);
    forall j | 0 <= j < |o.trace| ensures (o.trace[j].caution == FullCourse <==> ScActive(r.disruption, j + 1)) {
      CautionPrecedence(r, s, j);
    }
    CountFullIsSc(r.disruption, o.trace);
    ScCountAfter(r.disruption, |o.trace|);
  }

  /** Pit stops: one per stint but the last, each priced on its outgoing
      compound, even when the race distance ends before the later stints;
      the race length does not enter the pit costs at all. */
  lemma PitStops(r: Race, s: Strategy, raceLength: nat)
    requires WellDefined(r)
    ensures |Simulate(r, s).pits| == PitCount(s)
    ensures forall j :: 0 <= j < PitCount(s) ==>
              Simulate(r, s).pits[j] == PitCost(r.profile, r.disruption, s[j].compound)
    ensures Simulate(r, s).pits == Simulate(r.(profile := r.profile.(raceLength := raceLength)), s).pits
  {
  }

  /** Sum of lap times of the first `n` laps of `plan` when nothing slows
      them: base pace, degradation for the stint lap, noise, fuel effect. */
  function CleanTotal(p: Profile, plan: seq<PlanEntry>, noise: nat -> real, n: nat): real
    requires n <= |plan|
  {
    if n == 0 then 0.0
    else CleanTotal(p, plan, noise, n - 1) + RawLapTime(p, plan[n - 1].compound, plan[n - 1].stintLap, noise(n - 1), n)
  }

  lemma {:induction false} QuietLapTimes(r: Race, plan: seq<PlanEntry>, t: seq<LapRecord>)
    requires WellDefined(r) && Quiet(r.disruption)
    requires |t| <= |plan|
    requires forall j :: 0 <= j < |t| ==> t[j] == ExpectedLap(r, j, plan[j])
    ensures SumTimes(t) == CleanTotal(r.profile, plan, r.noise, |t|)
    decreases |t|
  {
    if |t| > 0 {
      var n := |t|;
      var init := t[..n - 1];
      assert SumTimes(init) == CleanTotal(r.profile, plan, r.noise, n - 1) by {
        assert forall j :: 0 <= j < |init| ==> init[j] == t[j];
        QuietLapTimes(r, plan, init);
      }
      assert t[n - 1].time == RawLapTime(r.profile, plan[n - 1].compound, plan[n - 1].stintLap, r.noise(n - 1), n) by {
        QuietLap(r, n - 1, plan[n - 1]);
      }
    }
  }

  /** Without a safety car every pit stop costs the full pit time. */
  lemma QuietPits(r: Race, s: Strategy)
    requires !r.disruption.sc.deployed
    ensures Sum(PitsOf(r, s)) == (PitCount(s) as real) * r.profile.avgPitTime
  {
    var pits := PitsOf(r, s);
    forall j | 0 <= j < |pits| ensures pits[j] == r.profile.avgPitTime {
      NoSafetyCarFullCost(r.profile, r.disruption, s[j].compound);
    }
    SumConstant(pits, r.profile.avgPitTime);
  }

  /** The undisturbed race time: the plain lap times over the laps driven
      plus the full pit time per stop. */
  function CleanRaceTime(p: Profile, s: Strategy, noise: nat -> real): real
  {
    CleanTotal(p, Plan(s), noise, Covered(p.raceLength, s)) + (PitCount(s) as real) * p.avgPitTime
  }

  /** With no disruption deployed, the total is the undisturbed race time:
      every disruption path is inert. */
  lemma QuietClosedForm(r: Race, s: Strategy)
    requires Quiet(r.disruption)
    ensures WellDefined(r)
    ensures RaceTime(r, s) == CleanRaceTime(r.profile, s, r.noise)
  {
    var o := Simulate(r, s);
    assert SumTimes(o.trace) == CleanTotal(r.profile, Plan(s), r.noise, Covered(r.profile.raceLength, s)) by {
      QuietLapTimes(r, Plan(s), o.trace);
    }
    assert Sum(o.pits) == (PitCount(s) as real) * r.profile.avgPitTime by {
      QuietPits(r, s);
    }
  }

  /** With no degradation and no noise the plain laps sum to
      `n * base - 0.02 * n * (n + 1)`: the fuel effect is 0.04 s per race
      lap and cannot be switched off. */
  lemma {:induction false} UniformCleanTotal(p: Profile, plan: seq<PlanEntry>, noise: nat -> real, n: nat)
    requires n <= |plan|
    requires forall j :: 0 <= j < n ==> DegRate(p, plan[j].compound) == 0.0 && noise(j) == 0.0
    ensures CleanTotal(p, plan, noise, n) == (n as real) * p.baseLapTime - 0.02 * (n as real) * ((n + 1) as real)
  {
    if n > 0 {
      UniformCleanTotal(p, plan, noise, n - 1);
    }
  }

  /** A profile with the given pace, pit time and distance, no degradation,
      no noise and no disruption chances. */
  function FlatProfile(base: real, pit: real, raceLength: nat): Profile
  {
    Profile("flat", base, pit, 0.0, 0.0, 0.0, RealRange(0.0, 0.0), 0.0, 0.0, raceLength,
            DefaultScLaps, DefaultScSpeedFactor, DefaultVscLaps, RealRange(0.65, 0.75),
            DefaultFuelBurnRate, DefaultFuelPenaltyPerKg, 0.0, DefaultRedFlagTimeSaving)
  }

  const Undisturbed := Disruption(CautionEvent(false, 0, -1), CautionEvent(false, 0, -1), RedFlagEvent(false, -1))

  /** Ten laps at 80 s on one stint of Softs: 797.8 s, the hard-coded fuel
      effect taking 0.04 s per race lap off laps 1 to 10. */
  lemma OneStintExample()
    ensures RaceTime(Race(FlatProfile(80.0, 20.0, 10), Undisturbed, _ => 0.0, _ => 0.7), [Stint(Soft, 10)]) == 797.8
  {
    var r := Race(FlatProfile(80.0, 20.0, 10), Undisturbed, _ => 0.0, _ => 0.7);
    var s := [Stint(Soft, 10)];
    assert s[..0] == [];
    assert TotalSpan(s) == 10;
    QuietClosedForm(r, s);
    UniformCleanTotal(r.profile, Plan(s), r.noise, 10);
  }

  /** Five laps on Softs, one 20 s stop, five laps on Mediums: 817.8 s. */
  lemma TwoStintExample()
    ensures RaceTime(Race(FlatProfile(80.0, 20.0, 10), Undisturbed, _ => 0.0, _ => 0.7),
                     [Stint(Soft, 5), Stint(Medium, 5)]) == 817.8
  {
    var r := Race(FlatProfile(80.0, 20.0, 10), Undisturbed, _ => 0.0, _ => 0.7);
    var s := [Stint(Soft, 5), Stint(Medium, 5)];
    assert s[..1] == [Stint(Soft, 5)] && s[..1][..0] == [];
    assert TotalSpan(s) == 10;
    QuietClosedForm(r, s);
    UniformCleanTotal(r.profile, Plan(s), r.noise, 10);
  }
}
