/** Strategies: ordered (compound, stint length) pairs, and the per-lap plan
    they describe. */
module Strategies {
  import opened Profiles

  datatype Stint = Stint(compound: Compound, laps: int)

  type Strategy = seq<Stint>

  /** Number of iterations of `range(n)`: none when `n` is not positive. */
  function Span(n: int): nat
  {
    if n < 0 then 0 else n
  }

  /** Laps the strategy asks for, summed over its stints. */
  function TotalSpan(s: Strategy): nat
    decreases |s|
  {
    if |s| == 0 then 0 else TotalSpan(s[..|s| - 1]) + Span(s[|s| - 1].laps)
  }

  /** What one lap of the plan runs on: the stint's compound and the 0-based
      lap index within that stint. */
  datatype PlanEntry = PlanEntry(compound: Compound, stintLap: nat)

  /** The first `k` laps of a stint on compound `c`. */
  function StintPrefix(c: Compound, k: nat): (r: seq<PlanEntry>)
    ensures |r| == k
    ensures forall j :: 0 <= j < k ==> r[j] == PlanEntry(c, j)
  {
    seq(k, (j: int) requires 0 <= j => PlanEntry(c, j))
  }

  /** The laps of one stint, numbered from 0 again. */
  function StintPlan(st: Stint): seq<PlanEntry>
  {
    StintPrefix(st.compound, Span(st.laps))
  }

  /** The strategy flattened to one entry per lap it asks for: entry `i` is
      what race lap `i + 1` would run on if the race were long enough. */
  function Plan(s: Strategy): (plan: seq<PlanEntry>)
    ensures |plan| == TotalSpan(s)
    decreases |s|
  {
    if |s| == 0 then [] else Plan(s[..|s| - 1]) + StintPlan(s[|s| - 1])
  }

  function Min(a: int, b: int): int
  {
    if a <= b then a else b
  }

  /** Laps actually driven: the race distance, or fewer when the strategy
      runs out first. */
  function Covered(raceLength: nat, s: Strategy): nat
  {
    Min(raceLength, TotalSpan(s))
  }

  /** Pit stops the strategy implies: one between each pair of stints. */
  function PitCount(s: Strategy): nat
  {
    if |s| == 0 then 0 else |s| - 1
  }

  /** Race lap `TotalSpan(s[..j]) + k + 1` is lap `k` of stint `j`: the
      stint lap restarts at 0 in every stint while the race lap keeps
      counting. */
  lemma {:induction false} PlanAt(s: Strategy, j: nat, k: nat)
    requires j < |s|
    requires k < Span(s[j].laps)
    ensures TotalSpan(s[..j]) + k < TotalSpan(s)
    ensures Plan(s)[TotalSpan(s[..j]) + k] == PlanEntry(s[j].compound, k)
    decreases |s|
  {
    var init := s[..|s| - 1];
    if j == |s| - 1 {
      assert s[..j] == init;
    } else {
      assert init[..j] == s[..j];
      assert init[j] == s[j];
      PlanAt(init, j, k);
    }
  }
}
