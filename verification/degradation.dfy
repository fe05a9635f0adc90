/** `calculate_degradation`: the wear rate of one compound, estimated from
    the historical stints run on it. Each stint is its lap times in
    lap-number order; a stint with no laps stands for a stint number that
    does not occur for the compound. */
module Degradation {
  import opened Results
  import opened Stats
  import opened Profiles

  /** Stints shorter than this are skipped. */
  const MinStintLaps := 3

  /** Lap times of one stint, ordered by lap number. */
  type StintLaps = seq<real>

  /** No lap at all was run on the compound. */
  predicate NoLaps(stints: seq<StintLaps>)
  {
    forall i :: 0 <= i < |stints| ==> |stints[i]| == 0
  }

  /** A stint long enough to be measured. */
  predicate Qualifies(laps: StintLaps)
  {
    |laps| >= MinStintLaps
  }

  /** Lap time gained per lap over a stint: first lap to last lap, spread
      over the gaps between them. */
  function Slope(laps: StintLaps): real
    requires |laps| >= 2
  {
    (laps[|laps| - 1] - laps[0]) / ((|laps| - 1) as real)
  }

  /** The slopes of the qualifying stints, in stint order. */
  function Slopes(stints: seq<StintLaps>): (r: seq<real>)
    ensures |r| <= |stints|
    ensures |r| == 0 <==> forall i :: 0 <= i < |stints| ==> !Qualifies(stints[i])
    ensures forall x :: x in r ==>
              exists i :: 0 <= i < |stints| && Qualifies(stints[i]) && x == Slope(stints[i])
    decreases |stints|
  {
    if |stints| == 0 then []
    else
      var rest := Slopes(stints[1..]);
      assert forall i :: 1 <= i < |stints| ==> stints[1..][i - 1] == stints[i];
      (if Qualifies(stints[0]) then [Slope(stints[0])] else []) + rest
  }

  /** The estimator as the program computes it: the fallback for a compound
      never run, otherwise the mean slope of the qualifying stints, and no
      value when none qualifies. */
  function Estimate(stints: seq<StintLaps>, fallback: real): (r: Option<real>)
    ensures NoLaps(stints) ==> r == Some(fallback)
    ensures r.None? <==> !NoLaps(stints) && forall i :: 0 <= i < |stints| ==> !Qualifies(stints[i])
    ensures (exists i :: 0 <= i < |stints| && Qualifies(stints[i])) ==>
              |Slopes(stints)| > 0 && r == Some(Mean(Slopes(stints)))
  {
    if NoLaps(stints) then Some(fallback)
    else
      var slopes := Slopes(stints);
      if |slopes| > 0 then Some(Mean(slopes)) else None
  }

  /** Each stint contributes its own slope, independently of the others. */
  lemma {:induction false} SlopesAppend(a: seq<StintLaps>, b: seq<StintLaps>)
    ensures Slopes(a + b) == Slopes(a) + Slopes(b)
    decreases |a|
  {
    if |a| == 0 {
      assert a + b == b;
    } else {
      var head := if Qualifies(a[0]) then [Slope(a[0])] else [];
      assert (a + b)[0] == a[0];
      assert (a + b)[1..] == a[1..] + b;
      assert Slopes(a + b) == head + Slopes(a[1..] + b);
      SlopesAppend(a[1..], b);
      assert Slopes(a) == head + Slopes(a[1..]);
    }
  }

  /** A single stint contributes its slope exactly when it qualifies.
      With `SlopesAppend` this fixes `Slopes` on every input: each stint of
      at least `MinStintLaps` laps contributes its slope once, in stint
      order, and no other stint contributes. */
  lemma SlopesOne(x: StintLaps)
    ensures Slopes([x]) == if Qualifies(x) then [Slope(x)] else []
  {
    assert [x][0] == x && [x][1..] == [];
  }

  /** A stint too short to measure changes nothing once the compound has
      laps at all. */
  lemma ShortStintIgnored(stints: seq<StintLaps>, fallback: real, short: StintLaps)
    requires !NoLaps(stints) && !Qualifies(short)
    ensures Estimate(stints + [short], fallback) == Estimate(stints, fallback)
  {
    SlopesAppend(stints, [short]);
    assert Slopes([short]) == [] by {
      assert [short][1..] == [];
    }
    assert Slopes(stints + [short]) == Slopes(stints);
    var i :| 0 <= i < |stints| && |stints[i]| != 0;
    assert (stints + [short])[i] == stints[i];
  }

  /** The estimate lies between any bounds of the qualifying stints'
      slopes. */
  lemma EstimateWithinSlopes(stints: seq<StintLaps>, fallback: real, lo: real, hi: real)
    requires exists i :: 0 <= i < |stints| && Qualifies(stints[i])
    requires forall i :: 0 <= i < |stints| && Qualifies(stints[i]) ==> lo <= Slope(stints[i]) <= hi
    ensures Estimate(stints, fallback).Some?
    ensures lo <= Estimate(stints, fallback).value <= hi
  {
    var slopes := Slopes(stints);
    var i :| 0 <= i < |stints| && Qualifies(stints[i]);
    assert !NoLaps(stints);
    assert forall j :: 0 <= j < |slopes| ==> lo <= slopes[j] <= hi by {
      forall j | 0 <= j < |slopes| ensures lo <= slopes[j] <= hi {
        assert slopes[j] in slopes;
      }
    }
    MeanBounds(slopes, lo, hi);
  }

  /** A stint whose lap times grow by exactly `d` per lap. */
  predicate Linear(laps: StintLaps, d: real)
  {
    forall j :: 0 <= j < |laps| ==> laps[j] == laps[0] + d * (j as real)
  }

  /** When every qualifying stint wears at the same constant rate, the
      estimator recovers that rate exactly. */
  lemma LinearWearRecovered(stints: seq<StintLaps>, fallback: real, d: real)
    requires exists i :: 0 <= i < |stints| && Qualifies(stints[i])
    requires forall i :: 0 <= i < |stints| && Qualifies(stints[i]) ==> Linear(stints[i], d)
    ensures Estimate(stints, fallback) == Some(d)
  {
    forall i | 0 <= i < |stints| && Qualifies(stints[i]) ensures Slope(stints[i]) == d {
      var laps := stints[i];
      var n := |laps| - 1;
      assert laps[n] - laps[0] == d * (n as real);
      assert (d * (n as real)) / (n as real) == d;
    }
    EstimateWithinSlopes(stints, fallback, d, d);
  }

  /** With only short stints on a compound that was run, the program's
      estimator yields no rate at all. */
  lemma ShortStintsGiveNoRate()
    ensures Estimate([[90.0, 90.5]], 0.1) == None
  {
    assert !Qualifies([90.0, 90.5]);
    assert !NoLaps([[90.0, 90.5]]) by {
      assert |[[90.0, 90.5]][0]| != 0;
    }
  }

  /** The rate a profile can be built from: the measured mean slope when
      some stint qualifies, and the fallback whenever none does, whether the
      compound was never run or only in short stints. */
  function CalibratedRate(stints: seq<StintLaps>, fallback: real): (rate: real)
    ensures (forall i :: 0 <= i < |stints| ==> !Qualifies(stints[i])) ==> rate == fallback
    ensures (exists i :: 0 <= i < |stints| && Qualifies(stints[i])) ==>
              |Slopes(stints)| > 0 && rate == Mean(Slopes(stints))
  {
    match Estimate(stints, fallback)
    case Some(v) => v
    case None => fallback
  }

  /** The corrected estimator on the short-stint input: the fallback. */
  lemma ShortStintsCalibrated()
    ensures CalibratedRate([[90.0, 90.5]], 0.1) == 0.1
  {
    ShortStintsGiveNoRate();
  }

  /** Where the program's estimator yields a rate, the corrected one yields
      the same rate. */
  lemma CalibratedAgrees(stints: seq<StintLaps>, fallback: real)
    requires Estimate(stints, fallback).Some?
    ensures CalibratedRate(stints, fallback) == Estimate(stints, fallback).value
  {
  }

  /** The fallback rate of each compound. */
  function DefaultDeg(c: Compound): real
  {
    match c
    case Soft => DefaultSoftDeg
    case Medium => DefaultMediumDeg
    case Hard => DefaultHardDeg
  }

  /** The profile with its three wear rates measured from the stints run on
      each compound, falling back to the compound's default rate; no other
      field changes. */
  function Calibrate(p: Profile, soft: seq<StintLaps>, medium: seq<StintLaps>, hard: seq<StintLaps>): (q: Profile)
    ensures DegRate(q, Soft) == CalibratedRate(soft, DefaultDeg(Soft))
    ensures DegRate(q, Medium) == CalibratedRate(medium, DefaultDeg(Medium))
    ensures DegRate(q, Hard) == CalibratedRate(hard, DefaultDeg(Hard))
    ensures q.(softDeg := p.softDeg, mediumDeg := p.mediumDeg, hardDeg := p.hardDeg) == p
  {
    p.(softDeg := CalibratedRate(soft, DefaultDeg(Soft)),
       mediumDeg := CalibratedRate(medium, DefaultDeg(Medium)),
       hardDeg := CalibratedRate(hard, DefaultDeg(Hard)))
  }

  /** Where every compound's estimate is a rate, the calibrated profile is
      the one the program builds from the three `calculate_degradation`
      results with the compound defaults as fallbacks. */
  lemma CalibrateMatchesProgram(p: Profile, soft: seq<StintLaps>, medium: seq<StintLaps>, hard: seq<StintLaps>)
    requires Estimate(soft, DefaultSoftDeg).Some?
    requires Estimate(medium, DefaultMediumDeg).Some?
    requires Estimate(hard, DefaultHardDeg).Some?
    ensures Calibrate(p, soft, medium, hard)
              == p.(softDeg := Estimate(soft, DefaultSoftDeg).value,
                    mediumDeg := Estimate(medium, DefaultMediumDeg).value,
                    hardDeg := Estimate(hard, DefaultHardDeg).value)
  {
    CalibratedAgrees(soft, DefaultSoftDeg);
    CalibratedAgrees(medium, DefaultMediumDeg);
    CalibratedAgrees(hard, DefaultHardDeg);
  }
}
