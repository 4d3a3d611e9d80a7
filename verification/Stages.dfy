/** Job statuses and the slice of the 0..100 progress bar each one owns. */
module Stages {

  datatype Status =
    | Pending | Converting | Analyzing | Separating | Finalizing | Packaging
    | Completed | Failed | Cancelled

  predicate IsTerminal(s: Status)
  {
    s == Completed || s == Failed || s == Cancelled
  }

  function StageStart(s: Status): int
  {
    match s
    case Converting => 0
    case Analyzing => 14
    case Separating => 28
    case Finalizing => 76
    case Packaging => 89
    case Completed => 100
    case _ => 0
  }

  function StageEnd(s: Status): int
  {
    match s
    case Converting => 14
    case Analyzing => 28
    case Separating => 76
    case Finalizing => 89
    case Packaging => 99
    case Completed => 100
    case _ => 0
  }

  /** Maps a within-stage fraction onto the band of the status, rounding half up. */
  function StageProgress(s: Status, fraction: real): int
  {
    var f := if fraction < 0.0 then 0.0 else if fraction > 1.0 then 1.0 else fraction;
    var lo, hi := StageStart(s), StageEnd(s);
    lo + ((hi - lo) as real * f + 0.5).Floor
  }

  predicate InBand(s: Status, progress: int)
  {
    StageStart(s) <= progress <= StageEnd(s)
  }

  /** The order in which the pipeline visits the working stages. */
  function Rank(s: Status): nat
  {
    match s
    case Pending => 0
    case Converting => 1
    case Analyzing => 2
    case Separating => 3
    case Finalizing => 4
    case Packaging => 5
    case _ => 6
  }

  /** A mapped fraction never leaves its band, whatever the runner reports. */
  lemma StageProgressInBand(s: Status, fraction: real)
    ensures InBand(s, StageProgress(s, fraction))
  {
    var f := if fraction < 0.0 then 0.0 else if fraction > 1.0 then 1.0 else fraction;
    var span := StageEnd(s) - StageStart(s);
    assert 0.0 <= span as real * f <= span as real;
  }

  /** Reporting more never shows less, and the ends of the band are reached exactly. */
  lemma StageProgressMonotone(s: Status, a: real, b: real)
    requires a <= b
    ensures StageProgress(s, a) <= StageProgress(s, b)
    ensures b <= 0.0 ==> StageProgress(s, b) == StageStart(s)
    ensures a >= 1.0 ==> StageProgress(s, a) == StageEnd(s)
  {
    var fa := if a < 0.0 then 0.0 else if a > 1.0 then 1.0 else a;
    var fb := if b < 0.0 then 0.0 else if b > 1.0 then 1.0 else b;
    var span := (StageEnd(s) - StageStart(s)) as real;
    assert fa <= fb;
    assert span * fa <= span * fb;
  }

  /** The working bands tile the bar: a later stage starts where the earlier one ended, or after. */
  lemma BandsAreOrdered(s: Status, t: Status, p: int, q: int)
    requires !IsTerminal(s) && !IsTerminal(t) && Rank(s) < Rank(t)
    requires InBand(s, p) && InBand(t, q)
    ensures p <= q
    ensures Rank(t) == Rank(s) + 1 && s != Pending ==> StageEnd(s) == StageStart(t)
  {
  }
}
