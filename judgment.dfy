/** Tiered accuracy windows and their scores (page.js:33-37, 753-764). */
module Judgment {
  import opened Common

  const PERFECT_WIN: real := 5.0
  const GREAT_WIN: real := 10.0
  const GOOD_WIN: real := 20.0
  const OK_WIN: real := 30.0
  /** A note this many ms overdue is swept as a miss. */
  const LATE_MISS: real := 50.0

  /** The four judgement labels, tightest first. */
  datatype Tier = Perfect | Great | Good | Okay

  /** Position of a tier in the order tightest-to-loosest. */
  function Rank(tier: Tier): nat {
    match tier
    case Perfect => 0
    case Great => 1
    case Good => 2
    case Okay => 3
  }

  /** The largest absolute delta a tier accepts. */
  function Window(tier: Tier): real {
    match tier
    case Perfect => PERFECT_WIN
    case Great => GREAT_WIN
    case Good => GOOD_WIN
    case Okay => OK_WIN
  }

  /** The points a tier adds to the score. */
  function Points(tier: Tier): nat {
    match tier
    case Perfect => 300
    case Great => 200
    case Good => 120
    case Okay => 50
  }

  /** Windows widen and points shrink along the tier order. */
  lemma TiersOrdered(u: Tier, v: Tier)
    requires Rank(u) < Rank(v)
    ensures Window(u) < Window(v)
    ensures Points(u) > Points(v)
  {
  }

  /**
   * judgeDelta: the tightest tier whose window holds |delta|, or no judgement
   * when |delta| exceeds the outermost window.
   */
  function JudgeDelta(delta: real): (r: Option<Tier>)
    ensures r.Some? <==> Abs(delta) <= OK_WIN
    ensures r.Some? ==> Abs(delta) <= Window(r.value)
    ensures r.Some? ==> forall u: Tier :: Rank(u) < Rank(r.value) ==> Window(u) < Abs(delta)
  {
    var ad := Abs(delta);
    if ad <= PERFECT_WIN then Some(Perfect)
    else if ad <= GREAT_WIN then Some(Great)
    else if ad <= GOOD_WIN then Some(Good)
    else if ad <= OK_WIN then Some(Okay)
    else None
  }

  /** Early and late deltas of the same size are judged alike. */
  lemma JudgeDeltaSymmetric(delta: real)
    ensures JudgeDelta(-delta) == JudgeDelta(delta)
  {
  }

  /** A closer activation is never judged worse than a farther one. */
  lemma JudgeDeltaMonotone(d1: real, d2: real)
    requires Abs(d1) <= Abs(d2)
    requires JudgeDelta(d2).Some?
    ensures JudgeDelta(d1).Some?
    ensures Rank(JudgeDelta(d1).value) <= Rank(JudgeDelta(d2).value)
    ensures Points(JudgeDelta(d1).value) >= Points(JudgeDelta(d2).value)
  {
  }
}
