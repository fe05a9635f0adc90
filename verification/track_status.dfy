/** The historical event frequencies: each past edition of the event is
    classified by the track status codes it showed, and the three counts
    over the editions examined become the profile's event chances. */
module TrackStatus {
  import opened Results

  /** Track status codes: full-course caution, partial-course caution, race
      stoppage. */
  const ScCode := "4"
  const VscCode := "5"
  const RedFlagCode := "6"

  datatype Flags = Flags(sc: bool, vsc: bool, redFlag: bool)

  /** The flags one edition showed, from the distinct codes it logged. */
  function Classify(codes: set<string>): Flags
  {
    Flags(ScCode in codes, VscCode in codes, RedFlagCode in codes)
  }

  /** One examined edition: its logged codes, or `None` where loading it
      failed. */
  type Season = Option<set<string>>

  /** The three events counted. */
  datatype Event = SafetyCar | VirtualSafetyCar | RedFlag

  /** Whether an edition is counted for an event: a safety car race showed
      the caution and was not stopped; a red flag race was stopped with a
      caution shown as well, so a stoppage without any caution is not
      counted at all; a virtual safety car race showed that caution,
      whatever else it showed. An edition that failed to load shows
      nothing. */
  predicate Shows(e: Event, season: Season)
  {
    season.Some? &&
    var f := Classify(season.value);
    match e
    case SafetyCar => f.sc && !f.redFlag
    case VirtualSafetyCar => f.vsc
    case RedFlag => f.sc && f.redFlag
  }

  datatype Tally = Tally(safetyCars: nat, virtualSafetyCars: nat, redFlags: nat) {
    function Of(e: Event): nat
    {
      match e
      case SafetyCar => safetyCars
      case VirtualSafetyCar => virtualSafetyCars
      case RedFlag => redFlags
    }
  }

  /** The counting loop over the editions, in order. */
  function Count(seasons: seq<Season>): (t: Tally)
    ensures t.safetyCars + t.redFlags <= |seasons|
    ensures t.virtualSafetyCars <= |seasons|
    decreases |seasons|
  {
    if |seasons| == 0 then Tally(0, 0, 0)
    else
      var t := Count(seasons[..|seasons| - 1]);
      match seasons[|seasons| - 1]
      case None => t
      case Some(codes) =>
        var f := Classify(codes);
        Tally(t.safetyCars + (if f.sc && !f.redFlag then 1 else 0),
              t.virtualSafetyCars + (if f.vsc then 1 else 0),
              t.redFlags + (if f.sc && f.redFlag then 1 else 0))
  }

  /** The positions of the editions counted for an event. */
  function Editions(seasons: seq<Season>, e: Event): set<nat>
  {
    set i: nat | i < |seasons| && Shows(e, seasons[i])
  }

  lemma EditionsSnoc(seasons: seq<Season>, e: Event)
    requires |seasons| > 0
    ensures var n := |seasons| - 1;
            Editions(seasons, e)
            == Editions(seasons[..n], e) + (if Shows(e, seasons[n]) then {n} else {})
    ensures |seasons| - 1 !in Editions(seasons[..|seasons| - 1], e)
  {
    var n := |seasons| - 1;
    assert forall i :: 0 <= i < n ==> seasons[..n][i] == seasons[i];
  }

  /** Each count is the number of editions counted for its event. */
  lemma {:induction false} CountIsCardinality(seasons: seq<Season>, e: Event)
    ensures Count(seasons).Of(e) == |Editions(seasons, e)|
    decreases |seasons|
  {
    if |seasons| > 0 {
      var n := |seasons| - 1;
      CountIsCardinality(seasons[..n], e);
      EditionsSnoc(seasons, e);
    }
  }

  /** An edition that failed to load adds to no count. */
  lemma FailedSeasonCountsNothing(seasons: seq<Season>)
    ensures Count(seasons + [None]) == Count(seasons)
  {
    assert (seasons + [None])[..|seasons|] == seasons;
  }

  datatype Chances = Chances(sc: real, vsc: real, redFlag: real)

  /** A share of a positive whole is at most one. */
  lemma ShareAtMostOne(x: real, m: real)
    requires 0.0 <= x <= m && 0.0 < m
    ensures 0.0 <= x / m <= 1.0
  {
    var q := x / m;
    assert q * m == x;
  }

  /** `a / n + b / n` stays within [0, 1] when `a + b <= n`. */
  lemma FractionBounds(a: nat, b: nat, n: nat)
    requires 0 < n && a + b <= n
    ensures 0.0 <= (a as real) / (n as real) <= 1.0
    ensures (a as real) / (n as real) + (b as real) / (n as real) <= 1.0
  {
    var x, y, m := a as real, b as real, n as real;
    assert x / m + y / m == (x + y) / m;
    ShareAtMostOne(x + y, m);
    ShareAtMostOne(x, m);
  }

  /** Event chances: each count over the number of editions examined,
      including those that failed to load. */
  function EventChances(seasons: seq<Season>): (c: Chances)
    requires |seasons| > 0
    ensures 0.0 <= c.sc <= 1.0 && 0.0 <= c.vsc <= 1.0 && 0.0 <= c.redFlag <= 1.0
    ensures c.sc + c.redFlag <= 1.0
    ensures c.sc == (|Editions(seasons, SafetyCar)| as real) / (|seasons| as real)
    ensures c.vsc == (|Editions(seasons, VirtualSafetyCar)| as real) / (|seasons| as real)
    ensures c.redFlag == (|Editions(seasons, RedFlag)| as real) / (|seasons| as real)
  {
    var t := Count(seasons);
    var n := |seasons|;
    assert t.safetyCars == |Editions(seasons, SafetyCar)| by {
      CountIsCardinality(seasons, SafetyCar);
    }
    assert t.virtualSafetyCars == |Editions(seasons, VirtualSafetyCar)| by {
      CountIsCardinality(seasons, VirtualSafetyCar);
    }
    assert t.redFlags == |Editions(seasons, RedFlag)| by {
      CountIsCardinality(seasons, RedFlag);
    }
    FractionBounds(t.safetyCars, t.redFlags, n);
    FractionBounds(t.redFlags, t.safetyCars, n);
    FractionBounds(t.virtualSafetyCars, 0, n);
    Chances((t.safetyCars as real) / (n as real), (t.virtualSafetyCars as real) / (n as real),
            (t.redFlags as real) / (n as real))
  }
}
