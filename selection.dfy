/** Which note an activation binds to, and how it is judged (page.js:766-788). */
module Selection {
  import opened Common
  import opened Judgment
  import opened Notes

  /** A note an activation of `lane` at time `t` may bind to. */
  predicate Candidate(n: Note, lane: int, t: real) {
    n.lane == lane && !n.judged && Abs(t - n.time) <= OK_WIN
  }

  /**
   * Among the first `m` notes, `k` is the candidate with the smallest
   * distance to `t`; an earlier candidate at the same distance would win.
   */
  ghost predicate IsNearestBelow(ns: seq<Note>, lane: int, t: real, m: nat, k: nat)
    requires m <= |ns|
  {
    k < m && Candidate(ns[k], lane, t) &&
    (forall j :: 0 <= j < k && Candidate(ns[j], lane, t) ==> Abs(t - ns[j].time) > Abs(t - ns[k].time)) &&
    (forall j :: k < j < m && Candidate(ns[j], lane, t) ==> Abs(t - ns[j].time) >= Abs(t - ns[k].time))
  }

  ghost predicate IsNearest(ns: seq<Note>, lane: int, t: real, k: nat) {
    IsNearestBelow(ns, lane, t, |ns|, k)
  }

  /** The scan of tryHitLane over the first `m` notes, keeping a strictly closer candidate. */
  function NearestAmong(ns: seq<Note>, lane: int, t: real, m: nat): (r: Option<nat>)
    requires m <= |ns|
    ensures r.Some? ==> IsNearestBelow(ns, lane, t, m, r.value)
    ensures r.None? ==> forall j :: 0 <= j < m ==> !Candidate(ns[j], lane, t)
  {
    if m == 0 then None
    else
      var prev := NearestAmong(ns, lane, t, m - 1);
      var n := ns[m - 1];
      if Candidate(n, lane, t) && (prev.None? || Abs(t - n.time) < Abs(t - ns[prev.value].time))
      then Some(m - 1)
      else prev
  }

  /** The note an activation of `lane` at `t` binds to, if any. */
  function Nearest(ns: seq<Note>, lane: int, t: real): (r: Option<nat>)
    ensures r.Some? ==> IsNearest(ns, lane, t, r.value)
    ensures r.None? <==> forall j :: 0 <= j < |ns| ==> !Candidate(ns[j], lane, t)
  {
    NearestAmong(ns, lane, t, |ns|)
  }

  /** The nearest-wins rule with its tie-break pins down a single note. */
  lemma NearestUnique(ns: seq<Note>, lane: int, t: real, k1: nat, k2: nat)
    requires IsNearest(ns, lane, t, k1) && IsNearest(ns, lane, t, k2)
    ensures k1 == k2
  {
  }

  /**
   * A candidate exactly on time binds when no earlier candidate is exactly on
   * time too.
   */
  lemma NearestOnTime(ns: seq<Note>, lane: int, t: real, m: nat)
    requires m < |ns| && Candidate(ns[m], lane, t) && ns[m].time == t
    requires forall j :: 0 <= j < m && Candidate(ns[j], lane, t) ==> ns[j].time != t
    ensures Nearest(ns, lane, t) == Some(m)
  {
    assert IsNearest(ns, lane, t, m);
    NearestUnique(ns, lane, t, m, Nearest(ns, lane, t).value);
  }

  /**
   * Two same-lane notes at 0 and 15 ms and an activation at 8 ms: the later
   * note is closer (7 < 8) and wins, whatever the array order.
   */
  lemma NearestPrefersCloserLaterNote()
    ensures var ns := [Note(0.0, 0, false, false, Unplanned), Note(15.0, 0, false, false, Unplanned)];
            Nearest(ns, 0, 8.0) == Some(1)
  {
    var ns := [Note(0.0, 0, false, false, Unplanned), Note(15.0, 0, false, false, Unplanned)];
    assert IsNearest(ns, 0, 8.0, 1);
    NearestUnique(ns, 0, 8.0, 1, Nearest(ns, 0, 8.0).value);
  }

  /** The loop of tryHitLane that looks for the note to judge. */
  method FindTarget(ns: seq<Note>, lane: int, t: real) returns (target: Option<nat>)
    ensures target == Nearest(ns, lane, t)
    ensures target.Some? ==> IsNearest(ns, lane, t, target.value)
    ensures target.None? <==> forall j :: 0 <= j < |ns| ==> !Candidate(ns[j], lane, t)
  {
    target := None;
    var bestAd := 0.0;  // stands for +Infinity while target is None
    var i := 0;
    while i < |ns|
      invariant 0 <= i <= |ns|
      invariant target == NearestAmong(ns, lane, t, i)
      invariant target.Some? ==> target.value < i && bestAd == Abs(t - ns[target.value].time)
    {
      var n := ns[i];
      if n.lane == lane && !n.judged {
        var ad := Abs(t - n.time);
        if ad <= OK_WIN && (target.None? || ad < bestAd) {
          bestAd := ad;
          target := Some(i);
        }
      }
      i := i + 1;
    }
  }

  /** The outcome of a successful activation: the note bound and its tier. */
  datatype Strike = Strike(index: nat, tier: Tier)

  /**
   * What tryHitLane judges for an activation of `lane` at `t`. The defensive
   * "no judgement" exit is never taken: a candidate is always within a tier.
   */
  function Activation(ns: seq<Note>, lane: int, t: real): (r: Option<Strike>)
    ensures r.None? <==> forall j :: 0 <= j < |ns| ==> !Candidate(ns[j], lane, t)
    ensures r.Some? ==> IsNearest(ns, lane, t, r.value.index)
    ensures r.Some? ==> JudgeDelta(t - ns[r.value.index].time) == Some(r.value.tier)
  {
    match Nearest(ns, lane, t)
    case None => None
    case Some(k) =>
      match JudgeDelta(t - ns[k].time)
      case None => None
      case Some(tier) => Some(Strike(k, tier))
  }

  /** The bound note after a successful judgement. */
  function Struck(n: Note): Note {
    n.(judged := true, hit := true)
  }

  /**
   * A successful activation changes one note only, an unjudged one, so no
   * judged note is touched and no judgement is undone.
   */
  lemma StrikeKeepsJudged(ns: seq<Note>, lane: int, t: real)
    requires Activation(ns, lane, t).Some?
    ensures var s := Activation(ns, lane, t).value;
      var after := ns[s.index := Struck(ns[s.index])];
      && ns[s.index].lane == lane && !ns[s.index].judged && after[s.index].judged
      && (forall k :: 0 <= k < |ns| && k != s.index ==> after[k] == ns[k])
      && (forall k :: 0 <= k < |ns| && ns[k].judged ==> after[k] == ns[k])
  {
  }
}
