/** The speed verdict `main` shows under the measured rate (app.py lines
    167-184): slower than 120 words a minute is slow and shown in orange,
    faster than 160 is fast and shown in red, and anything from 120 to 160,
    both included, is appropriate and keeps the initial green. */
module Speed {

  const StandardMin: int := 120
  const StandardMax: int := 160

  /** `status_msg`: "느림" (slow), "빠름" (fast) or "적정" (appropriate). */
  datatype Status = Slow | Fast | Appropriate

  /** `color` of the verdict. */
  datatype Color = Orange | Red | Green

  /** The `if wpm < STANDARD_MIN / elif wpm > STANDARD_MAX / else` branch,
      with `color` starting as green. Each rate gets exactly one verdict, and
      each verdict has its own colour. */
  function Assess(wpm: int): (verdict: (Status, Color))
    ensures verdict.0 == Slow <==> wpm < StandardMin
    ensures verdict.0 == Fast <==> wpm > StandardMax
    ensures verdict.0 == Appropriate <==> StandardMin <= wpm <= StandardMax
    ensures verdict.1 == Orange <==> verdict.0 == Slow
    ensures verdict.1 == Red <==> verdict.0 == Fast
    ensures verdict.1 == Green <==> verdict.0 == Appropriate
  {
    var color := Green;
    if wpm < StandardMin then (Slow, Orange)
    else if wpm > StandardMax then (Fast, Red)
    else (Appropriate, color)
  }

  /** Slow before appropriate before fast. */
  function Rank(s: Status): nat {
    match s
    case Slow => 0
    case Appropriate => 1
    case Fast => 2
  }

  /** A faster rate never gets a slower verdict. */
  lemma AssessMonotone(w1: int, w2: int)
    requires w1 <= w2
    ensures Rank(Assess(w1).0) <= Rank(Assess(w2).0)
  {
  }

  /** Both thresholds belong to the appropriate range; one word a minute
      beyond either leaves it. */
  lemma AssessBoundaries()
    ensures Assess(119) == (Slow, Orange)
    ensures Assess(120) == (Appropriate, Green)
    ensures Assess(160) == (Appropriate, Green)
    ensures Assess(161) == (Fast, Red)
  {
  }
}
