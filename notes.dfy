/** The note record, its runtime fields and counts over a note list (page.js:100-101, 193-201). */
module Notes {
  import opened Common
  import opened Judgment

  /** Number of lanes the game has keys and pads for. */
  const LANES: int := 12

  /**
   * The autoplay fields of a note (`_autoPlanned`, `_autoPlannedMode`,
   * `_autoWillMiss`, `_autoTargetTime`) as one optional value: either no plan,
   * or a plan made under `mode` that either gives up on the note or aims at
   * `target`.
   */
  datatype Plan = Unplanned | Planned(mode: string, willMiss: bool, target: Option<real>)

  /** A scheduled note: `time`/`lane` from the chart, the rest runtime state. */
  datatype Note = Note(time: real, lane: int, judged: bool, hit: bool, plan: Plan)

  /** A note as a fresh run sees it: not judged, not hit, no autoplay plan. */
  predicate Fresh(n: Note) {
    !n.judged && !n.hit && n.plan.Unplanned?
  }

  predicate AllFresh(ns: seq<Note>) {
    forall k :: 0 <= k < |ns| ==> Fresh(ns[k])
  }

  /** Two note lists hold the same notes at the same times in the same lanes. */
  predicate SameSchedule(a: seq<Note>, b: seq<Note>) {
    |a| == |b| &&
    forall k :: 0 <= k < |a| ==> a[k].time == b[k].time && a[k].lane == b[k].lane
  }

  /** resetNoteRuntimeFields applied to a clone. */
  function ResetNote(n: Note): (r: Note)
    ensures Fresh(r) && r.time == n.time && r.lane == n.lane
  {
    Note(n.time, n.lane, false, false, Unplanned)
  }

  /** `list.map(clone-and-reset)`: the working copy every (re)start builds. */
  function ResetNotes(ns: seq<Note>): (r: seq<Note>)
    ensures SameSchedule(ns, r) && AllFresh(r)
  {
    seq(|ns|, k requires 0 <= k < |ns| => ResetNote(ns[k]))
  }

  /**
   * A reset working copy depends on the schedule alone: whatever was judged,
   * hit or planned in the previous run, restarting yields the same notes.
   */
  lemma ResetForgetsRun(a: seq<Note>, b: seq<Note>)
    requires SameSchedule(a, b)
    ensures ResetNotes(a) == ResetNotes(b)
  {
  }

  /** Resetting a list that is already fresh gives the same list back. */
  lemma ResetFreshIsIdentity(ns: seq<Note>)
    requires AllFresh(ns)
    ensures ResetNotes(ns) == ns
  {
  }

  /** A note the late-miss sweep at time `t` turns into a miss. */
  predicate Overdue(n: Note, t: real) {
    !n.judged && t - n.time > LATE_MISS
  }

  /**
   * The properties of a note the game counts: judged, hit, missed, overdue
   * at `t`, unjudged and due by `t`, and hit in `tier` when judged at `at`.
   */
  datatype Kind = Judged | Hit | Miss | OverdueAt(t: real) | DueBy(t: real) | HitIn(tier: Tier, at: real)

  predicate Matches(n: Note, p: Kind) {
    match p
    case Judged => n.judged
    case Hit => n.hit
    case Miss => n.judged && !n.hit
    case OverdueAt(t) => Overdue(n, t)
    case DueBy(t) => !n.judged && n.time <= t
    case HitIn(tier, at) => n.hit && JudgeDelta(at - n.time) == Some(tier)
  }

  /** The number of notes in `ns` that match `p`. */
  function CountIf(ns: seq<Note>, p: Kind): (c: nat)
    ensures c <= |ns|
  {
    if ns == [] then 0
    else CountIf(ns[..|ns| - 1], p) + (if Matches(ns[|ns| - 1], p) then 1 else 0)
  }

  /** Replacing one note changes a count by the difference `p` sees. */
  lemma {:induction false} CountIfUpdate(ns: seq<Note>, k: nat, x: Note, p: Kind)
    requires k < |ns|
    ensures CountIf(ns[k := x], p) + (if Matches(ns[k], p) then 1 else 0)
         == CountIf(ns, p) + (if Matches(x, p) then 1 else 0)
  {
    var last := |ns| - 1;
    assert ns[k := x][..last] == if k < last then ns[..last][k := x] else ns[..last];
    if k < last {
      CountIfUpdate(ns[..last], k, x, p);
    }
  }

  /** Extending a prefix by one note adds that note's contribution. */
  lemma CountIfPrefix(ns: seq<Note>, i: nat, p: Kind)
    requires i < |ns|
    ensures CountIf(ns[..i + 1], p) == CountIf(ns[..i], p) + (if Matches(ns[i], p) then 1 else 0)
  {
    assert ns[..i + 1][..i] == ns[..i];
  }

  /** A list with no note matching `p` counts zero. */
  lemma {:induction false} CountIfNone(ns: seq<Note>, p: Kind)
    requires forall k :: 0 <= k < |ns| ==> !Matches(ns[k], p)
    ensures CountIf(ns, p) == 0
  {
    if ns != [] {
      CountIfNone(ns[..|ns| - 1], p);
    }
  }

  /** Every note of `ns` matches `p` exactly when all of them are counted. */
  lemma {:induction false} CountIfAll(ns: seq<Note>, p: Kind)
    ensures CountIf(ns, p) == |ns| <==> forall k :: 0 <= k < |ns| ==> Matches(ns[k], p)
  {
    if ns != [] {
      var init := ns[..|ns| - 1];
      CountIfAll(init, p);
      assert forall k :: 0 <= k < |init| ==> init[k] == ns[k];
    }
  }
}
