/** The display grade `build_message` derives from an alert's coerced score. */
module Grading {
  import opened Wrappers

  /**
   * `A` from 80, `B` from 65, `C` from 50, `SKIP` below 50, and `N/A` when
   * the score is missing or did not coerce to a number.
   */
  function Grade(score: Option<real>): (g: string)
    ensures g == "N/A" <==> score.None?
    ensures score.Some? ==> (g == "A" <==> score.value >= 80.0)
    ensures score.Some? ==> (g == "SKIP" <==> score.value < 50.0)
  {
    match score
    case None => "N/A"
    case Some(s) =>
      if s >= 80.0 then "A"
      else if s >= 65.0 then "B"
      else if s >= 50.0 then "C"
      else "SKIP"
  }

  /** The order of the grades, from `SKIP` (0) up to `A` (3). */
  function Rank(g: string): nat {
    if g == "A" then 3 else if g == "B" then 2 else if g == "C" then 1 else 0
  }

  /** The lowest score that earns a grade of at least `rank`. */
  function Threshold(rank: nat): real
    requires 1 <= rank <= 3
  {
    if rank == 3 then 80.0 else if rank == 2 then 65.0 else 50.0
  }

  /** A score earns a grade of at least `rank` exactly when it reaches that rank's threshold. */
  lemma GradeReachesThreshold(s: real, rank: nat)
    requires 1 <= rank <= 3
    ensures Rank(Grade(Some(s))) >= rank <==> s >= Threshold(rank)
  {
  }

  /** A higher score never earns a lower grade. */
  lemma GradeMonotone(s: real, t: real)
    requires s <= t
    ensures Rank(Grade(Some(s))) <= Rank(Grade(Some(t)))
  {
  }
}
