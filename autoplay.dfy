/**
 * The per-note decisions of the autoplay planner (page.js:822-891): how a
 * note is planned from random draws, when its plan is kept, discarded or
 * flipped to will-miss, and when it makes the planner activate its lane.
 */
module Autoplay {
  import opened Common
  import opened Judgment
  import opened Notes

  const AUTOPLAY_MISS_RATE: real := 0.12
  /** An activation fires once the tick time is at most this far before the target. */
  const AUTOPLAY_HIT_WINDOW: real := 18.0
  /** Notes further ahead than this are not looked at. */
  const LOOKAHEAD: real := 200.0
  const REALISTIC: string := "realistic"
  const PERFECT: string := "perfect"

  /**
   * The `Math.random()` values one planning of a note consumes, in order:
   * the miss roll, the accuracy roll, then one or two shape rolls (the
   * direction and the magnitude, or a single signed spread for the tightest
   * band).
   */
  datatype PlanDraws = PlanDraws(miss: real, accuracy: real, first: real, second: real)

  predicate InUnit(x: real) {
    0.0 <= x < 1.0
  }

  /** Every draw lies in [0, 1), as `Math.random()` guarantees. */
  predicate ValidDraws(d: PlanDraws) {
    InUnit(d.miss) && InUnit(d.accuracy) && InUnit(d.first) && InUnit(d.second)
  }

  /** The mode the selector asks for; an empty selection means realistic. */
  function ResolveMode(value: string): (mode: string)
    ensures mode != ""
    ensures value != "" ==> mode == value
    ensures value == "" ==> mode == REALISTIC
  {
    if value != "" then value else REALISTIC
  }

  /** `Math.random() > 0.5 ? 1 : -1`. */
  function Direction(r: real): real {
    if r > 0.5 then 1.0 else -1.0
  }

  /**
   * The offset from the note time that a hitting plan aims at. The accuracy
   * roll picks one of four bands, each inside the window of one tier.
   */
  function AimOffset(d: PlanDraws): (offset: real)
    requires ValidDraws(d)
    ensures Abs(offset) < OK_WIN
    ensures d.accuracy < 0.1 ==> Abs(offset) <= PERFECT_WIN * 0.8
    ensures 0.1 <= d.accuracy < 0.3 ==> PERFECT_WIN <= Abs(offset) < GREAT_WIN
    ensures 0.3 <= d.accuracy < 0.65 ==> 12.5 <= Abs(offset) < GOOD_WIN
    ensures 0.65 <= d.accuracy ==> 25.0 <= Abs(offset) < OK_WIN
  {
    if d.accuracy < 0.1 then
      (d.first * 2.0 - 1.0) * (PERFECT_WIN * 0.8)
    else if d.accuracy < 0.3 then
      Direction(d.first) * (PERFECT_WIN + d.second * (GREAT_WIN - PERFECT_WIN))
    else if d.accuracy < 0.65 then
      var bias := 0.25 + d.second * 0.75;
      Direction(d.first) * (GREAT_WIN + bias * (GOOD_WIN - GREAT_WIN))
    else
      var bias := 0.5 + d.second * 0.5;
      Direction(d.first) * (GOOD_WIN + bias * (OK_WIN - GOOD_WIN))
  }

  /**
   * An activation exactly on the planned target is judged in the tier of the
   * band the accuracy roll chose (the second band reaches Perfect only at
   * its inner edge).
   */
  lemma AimTier(d: PlanDraws)
    requires ValidDraws(d)
    ensures d.accuracy < 0.1 ==> JudgeDelta(AimOffset(d)) == Some(Perfect)
    ensures 0.1 <= d.accuracy < 0.3 ==>
      JudgeDelta(AimOffset(d)) == (if d.second == 0.0 then Some(Perfect) else Some(Great))
    ensures 0.3 <= d.accuracy < 0.65 ==> JudgeDelta(AimOffset(d)) == Some(Good)
    ensures 0.65 <= d.accuracy ==> JudgeDelta(AimOffset(d)) == Some(Okay)
  {
  }

  /** A fresh plan for a note at `time`: give up on it, or aim near it. */
  function NewPlan(mode: string, time: real, d: PlanDraws): (p: Plan)
    requires ValidDraws(d)
    ensures p.Planned? && p.mode == mode
    ensures p.willMiss <==> d.miss < AUTOPLAY_MISS_RATE
    ensures p.willMiss <==> p.target.None?
    ensures p.target.Some? ==> Abs(p.target.value - time) < OK_WIN
  {
    if d.miss < AUTOPLAY_MISS_RATE then Planned(mode, true, None)
    else Planned(mode, false, Some(time + AimOffset(d)))
  }

  /** A plan the rest of the game can rely on: a hitting plan has a target near the note. */
  predicate PlanOk(n: Note) {
    (n.plan.Planned? && !n.plan.willMiss ==> n.plan.target.Some?) &&
    (n.plan.Planned? && n.plan.target.Some? ==> Abs(n.plan.target.value - n.time) < OK_WIN)
  }

  /** `_autoTargetTime ?? n.time`. */
  function TargetOr(p: Plan, time: real): real {
    if p.Planned? && p.target.Some? then p.target.value else time
  }

  /** The plan of `n` once a plan made under another mode has been dropped. */
  function Current(n: Note, mode: string): Plan {
    if n.plan.Planned? && n.plan.mode != mode then Unplanned else n.plan
  }

  /**
   * The plan a realistic pass at time `t` leaves on the unjudged note `n`,
   * before any activation: a stale plan is dropped, a note within the
   * lookahead is planned if it has no plan, and a hitting plan whose target
   * lies more than OK_WIN behind `t` is turned into a will-miss.
   */
  function PlanAfter(n: Note, t: real, mode: string, d: PlanDraws): (p: Plan)
    requires ValidDraws(d)
    ensures p.Planned? ==> p.mode == mode
    ensures t - n.time >= -LOOKAHEAD && p.Planned? && !p.willMiss ==> t - TargetOr(p, n.time) <= OK_WIN
  {
    var cur := Current(n, mode);
    if t - n.time < -LOOKAHEAD then cur
    else
      var q := if cur.Unplanned? then NewPlan(mode, n.time, d) else cur;
      if q.willMiss then q
      else if t + AUTOPLAY_HIT_WINDOW < TargetOr(q, n.time) then q
      else if t - TargetOr(q, n.time) > OK_WIN then q.(willMiss := true)
      else q
  }

  /** Whether the visit of the unjudged note `n` ends in an activation of its lane. */
  predicate Fires(n: Note, t: real, mode: string, d: PlanDraws)
    requires ValidDraws(d)
    ensures Fires(n, t, mode, d) ==>
      var p := PlanAfter(n, t, mode, d);
      p.Planned? && p.mode == mode && !p.willMiss
  {
    var p := PlanAfter(n, t, mode, d);
    t - n.time >= -LOOKAHEAD && !p.willMiss &&
    TargetOr(p, n.time) - AUTOPLAY_HIT_WINDOW <= t <= TargetOr(p, n.time) + OK_WIN
  }

  /** Planning keeps plans sound. */
  lemma PlanAfterOk(n: Note, t: real, mode: string, d: PlanDraws)
    requires ValidDraws(d) && PlanOk(n)
    ensures PlanOk(n.(plan := PlanAfter(n, t, mode, d)))
  {
  }

  /** A plan made under the current mode is kept, save for the flip to will-miss. */
  lemma PlanOnce(n: Note, t: real, mode: string, d: PlanDraws)
    requires ValidDraws(d)
    requires n.plan.Planned? && n.plan.mode == mode
    ensures PlanAfter(n, t, mode, d) == n.plan || PlanAfter(n, t, mode, d) == n.plan.(willMiss := true)
  {
  }

  /** A plan made under another mode counts for nothing: the note is treated as unplanned. */
  lemma StalePlanDiscarded(n: Note, t: real, mode: string, d: PlanDraws)
    requires ValidDraws(d)
    requires n.plan.Planned? && n.plan.mode != mode
    ensures PlanAfter(n, t, mode, d) == PlanAfter(n.(plan := Unplanned), t, mode, d)
    ensures t - n.time < -LOOKAHEAD ==> PlanAfter(n, t, mode, d) == Unplanned
  {
  }

  /** Notes more than LOOKAHEAD ms ahead get no new plan and fire nothing. */
  lemma NoPlanAhead(n: Note, t: real, mode: string, d: PlanDraws)
    requires ValidDraws(d)
    requires t - n.time < -LOOKAHEAD
    ensures PlanAfter(n, t, mode, d).Planned? ==> PlanAfter(n, t, mode, d) == n.plan
    ensures !Fires(n, t, mode, d)
  {
  }

  /** Every note within the lookahead leaves the visit with a plan of the current mode. */
  lemma PlannedWithinLookahead(n: Note, t: real, mode: string, d: PlanDraws)
    requires ValidDraws(d)
    requires t - n.time >= -LOOKAHEAD
    ensures PlanAfter(n, t, mode, d).Planned? && PlanAfter(n, t, mode, d).mode == mode
    ensures n.plan.Unplanned? ==>
      PlanAfter(n, t, mode, d) == NewPlan(mode, n.time, d) ||
      PlanAfter(n, t, mode, d) == NewPlan(mode, n.time, d).(willMiss := true)
  {
  }

  /** A hitting plan whose target is overshot by more than OK_WIN turns into a will-miss. */
  lemma OvershootFlips(n: Note, t: real, mode: string, d: PlanDraws)
    requires ValidDraws(d)
    requires n.plan.Planned? && n.plan.mode == mode && !n.plan.willMiss && n.plan.target.Some?
    requires t - n.plan.target.value > OK_WIN
    requires t - n.time >= -LOOKAHEAD
    ensures PlanAfter(n, t, mode, d) == n.plan.(willMiss := true)
    ensures !Fires(n, t, mode, d)
  {
  }

  /**
   * Once a note holds a will-miss plan of the current mode, no later visit in
   * that mode changes the plan or fires, whatever the time and the draws.
   */
  lemma WillMissSticks(n: Note, t: real, mode: string, d: PlanDraws)
    requires ValidDraws(d)
    requires n.plan.Planned? && n.plan.mode == mode && n.plan.willMiss
    ensures PlanAfter(n, t, mode, d) == n.plan
    ensures !Fires(n, t, mode, d)
  {
  }

  /**
   * A firing visit activates within 18 ms before and 30 ms after its target,
   * which itself lies within OK_WIN of the note.
   */
  lemma FiresNearNote(n: Note, t: real, mode: string, d: PlanDraws)
    requires ValidDraws(d) && PlanOk(n)
    requires Fires(n, t, mode, d)
    ensures -(OK_WIN + AUTOPLAY_HIT_WINDOW) < t - n.time < OK_WIN + OK_WIN
  {
    PlanAfterOk(n, t, mode, d);
  }
}
