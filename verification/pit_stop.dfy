/** The pit-stop cost model: one tyre change between consecutive stints,
    cheaper when the safety car comes out inside the outgoing compound's
    usual pit window. */
module PitStop {
  import opened Profiles
  import opened Disruptions

  /** Seconds saved by pitting under a safety car. */
  const PitDiscount := 8.0

  /** Inclusive range of laps in which a compound is usually retired. */
  datatype Window = Window(lo: int, hi: int)

  /** Soft [15, 25], Medium [25, 40]; Hard, like any other name, gets
      [0, 0], a window no valid safety car onset falls into. */
  function PitWindow(c: Compound): Window
  {
    match c
    case Soft => Window(15, 25)
    case Medium => Window(25, 40)
    case Hard => Window(0, 0)
  }

  /** The safety car onset lies in the outgoing compound's window. */
  predicate Discounted(d: Disruption, outgoing: Compound)
  {
    d.sc.deployed && PitWindow(outgoing).lo <= d.sc.start <= PitWindow(outgoing).hi
  }

  /** Cost of the stop after a stint on `outgoing`. */
  function PitCost(p: Profile, d: Disruption, outgoing: Compound): (r: real)
    ensures Discounted(d, outgoing) ==> r == p.avgPitTime - PitDiscount
    ensures !Discounted(d, outgoing) ==> r == p.avgPitTime
    ensures r < p.avgPitTime <==> d.sc.deployed && PitWindow(outgoing).lo <= d.sc.start <= PitWindow(outgoing).hi
  {
    if Discounted(d, outgoing) then p.avgPitTime - PitDiscount else p.avgPitTime
  }

  /** A scheduled safety car starts on lap 10 or later, so it never falls in
      the Hard window and a stop off Hard tyres always costs the full time. */
  lemma HardNeverDiscounted(p: Profile, d: Disruption)
    requires ValidDisruption(p, d)
    ensures PitCost(p, d, Hard) == p.avgPitTime
  {
  }

  /** Without a safety car no stop is discounted. */
  lemma NoSafetyCarFullCost(p: Profile, d: Disruption, c: Compound)
    requires !d.sc.deployed
    ensures PitCost(p, d, c) == p.avgPitTime
  {
  }
}
