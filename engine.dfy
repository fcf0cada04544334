/**
 * The mutable game state of page.js (page.js:98-112) and the operations that
 * change it: the transport clock, judging an activation, the late-miss
 * sweep, the autoplay pass, the per-frame tick, completion and loading.
 *
 * Wall-clock time (`performance.now()`) is the parameter `now`, sampled once
 * per operation; the random draws of the autoplay planner are the parameter
 * `draws`, one `PlanDraws` per note.
 */
module Engine {
  import opened Common
  import opened Judgment
  import opened Notes
  import opened Selection
  import opened Chart
  import opened Autoplay
  import opened History

  const GLOBAL_OFFSET: real := 0.0
  const DEFAULT_PRE_ROLL_MS: real := 3000.0

  /** A text area whose JSON parsed: its frames and the fingerprint of its text. */
  datatype ChartInput = ChartInput(frames: seq<Frame>, fingerprint: string)

  /** What every note of the working list satisfies. */
  predicate NoteOk(n: Note) {
    n.time >= 0.0 && (n.hit ==> n.judged) && PlanOk(n)
  }

  function SweepNote(n: Note, t: real): Note {
    if Overdue(n, t) then n.(judged := true, hit := false) else n
  }

  /** The note list after the late-miss sweep at time `t`. */
  function Swept(ns: seq<Note>, t: real): (r: seq<Note>)
    ensures |r| == |ns|
    ensures forall k :: 0 <= k < |ns| ==> r[k] == SweepNote(ns[k], t)
  {
    seq(|ns|, k requires 0 <= k < |ns| => SweepNote(ns[k], t))
  }

  /**
   * The sweep leaves no overdue note behind, turns exactly the overdue notes
   * into misses and touches no judged note.
   */
  lemma SweptFacts(ns: seq<Note>, t: real)
    ensures var r := Swept(ns, t);
      && SameSchedule(ns, r)
      && (forall k :: 0 <= k < |r| ==> !Overdue(r[k], t))
      && (forall k :: 0 <= k < |r| ==> (Overdue(ns[k], t) <==> !ns[k].judged && Matches(r[k], Miss)))
      && (forall k :: 0 <= k < |r| ==> !Overdue(ns[k], t) ==> r[k] == ns[k])
      && (forall k :: 0 <= k < |r| ==> ns[k].judged ==> r[k] == ns[k])
  {
  }

  /** Sweeping at an earlier time and then at a later one is the same as sweeping once, later. */
  lemma SweptLater(ns: seq<Note>, t1: real, t2: real)
    requires t1 <= t2
    ensures Swept(Swept(ns, t1), t2) == Swept(ns, t2)
  {
  }

  /** Before the chart starts (t <= 0) no note of a decoded chart is overdue. */
  lemma SweptBeforeStart(ns: seq<Note>, t: real)
    requires forall k :: 0 <= k < |ns| ==> ns[k].time >= 0.0
    requires t <= 0.0
    ensures Swept(ns, t) == ns
  {
  }

  /** The note autoplay's perfect mode leaves at time `t`: every unjudged note due by then is hit. */
  function PerfectOutcome(n: Note, t: real): Note {
    if !n.judged && n.time <= t then Struck(n) else n
  }

  /**
   * What a realistic pass may do to one note: a judged note stays as it is;
   * an unjudged note either gets the plan the visit leaves, possibly then
   * being hit, or is hit by an activation made for another note before its
   * own visit.
   */
  ghost predicate AutoOutcome(before: Note, after: Note, t: real, mode: string, d: PlanDraws)
    requires ValidDraws(d)
  {
    if before.judged then after == before
    else
      var planned := before.(plan := PlanAfter(before, t, mode, d));
      after == planned || after == Struck(planned) || after == Struck(before)
  }

  /**
   * Autoplay only ever hits: a note it judges is a hit, and a note it leaves
   * unjudged carries exactly the plan of its visit.
   */
  lemma AutoOutcomeFacts(before: Note, after: Note, t: real, mode: string, d: PlanDraws)
    requires ValidDraws(d) && AutoOutcome(before, after, t, mode, d)
    ensures after.time == before.time && after.lane == before.lane
    ensures before.judged ==> after == before
    ensures !before.judged && after.judged ==> after.hit
    ensures !after.judged ==> after.plan == PlanAfter(before, t, mode, d)
  {
  }

  /**
   * A will-miss note is not safe from autoplay: the activation a later note
   * of the same lane fires binds the nearest unjudged note of the lane, which
   * may be the will-miss one. Here the note at 0 ms draws a miss, the note at
   * 40 ms aims at 15 ms, and at time 0 the visit of the second note fires and
   * strikes the first with a Perfect.
   */
  lemma WillMissNoteCanBeStruck()
    ensures var n0 := Note(0.0, 0, false, false, Unplanned);
      var n1 := Note(40.0, 0, false, false, Unplanned);
      var d0 := PlanDraws(0.0, 0.0, 0.0, 0.0);
      var d1 := PlanDraws(0.5, 0.9, 0.0, 0.0);
      var planned := [n0.(plan := PlanAfter(n0, 0.0, REALISTIC, d0)), n1.(plan := PlanAfter(n1, 0.0, REALISTIC, d1))];
      && planned[0].plan.willMiss
      && Fires(n1, 0.0, REALISTIC, d1)
      && Activation(planned, 0, 0.0) == Some(Strike(0, Perfect))
  {
    var n0 := Note(0.0, 0, false, false, Unplanned);
    var n1 := Note(40.0, 0, false, false, Unplanned);
    var d1 := PlanDraws(0.5, 0.9, 0.0, 0.0);
    assert AimOffset(d1) == -25.0;
    assert PlanAfter(n1, 0.0, REALISTIC, d1) == Planned(REALISTIC, false, Some(15.0));
    var planned := [n0.(plan := PlanAfter(n0, 0.0, REALISTIC, PlanDraws(0.0, 0.0, 0.0, 0.0))),
                    n1.(plan := Planned(REALISTIC, false, Some(15.0)))];
    assert IsNearest(planned, 0, 0.0, 0);
    NearestUnique(planned, 0, 0.0, 0, Nearest(planned, 0, 0.0).value);
    assert JudgeDelta(0.0) == Some(Perfect);
  }

  /** `Math.max(...times)` over a non-empty note list. */
  function MaxTime(ns: seq<Note>): (m: real)
    requires ns != []
    ensures forall k :: 0 <= k < |ns| ==> ns[k].time <= m
    ensures exists k :: 0 <= k < |ns| && ns[k].time == m
  {
    if |ns| == 1 then ns[0].time
    else
      var init := ns[..|ns| - 1];
      assert forall k :: 0 <= k < |init| ==> ns[k] == init[k];
      Max(MaxTime(init), ns[|ns| - 1].time)
  }

  /** `scoreHistory.get(key)`. */
  function Lookup(m: map<string, Record>, key: string): (r: Option<Record>)
    ensures r.Some? <==> key in m
    ensures r.Some? ==> r.value == m[key]
  {
    if key in m then Some(m[key]) else None
  }

  /** judgedCount, score, combo and longestCombo. */
  datatype Counters = Counters(judgedCount: int, score: int, combo: int, longestCombo: int)

  /** The five result counters the page shows: hits per tier and misses. */
  datatype Results = Results(perfect: int, great: int, good: int, okay: int, miss: int)

  /** The counter of `tier` among the result counters. */
  function TierCount(r: Results, tier: Tier): int {
    match tier
    case Perfect => r.perfect
    case Great => r.great
    case Good => r.good
    case Okay => r.okay
  }

  /** The result counters with one more hit judged `tier`. */
  function AddHit(r: Results, tier: Tier): (q: Results)
    ensures TierCount(q, tier) == TierCount(r, tier) + 1
    ensures forall u: Tier :: u != tier ==> TierCount(q, u) == TierCount(r, u)
    ensures q.miss == r.miss
    ensures q.perfect + q.great + q.good + q.okay == r.perfect + r.great + r.good + r.okay + 1
    ensures 300 * q.perfect + 200 * q.great + 120 * q.good + 50 * q.okay
         == 300 * r.perfect + 200 * r.great + 120 * r.good + 50 * r.okay + Points(tier)
  {
    match tier
    case Perfect => r.(perfect := r.perfect + 1)
    case Great => r.(great := r.great + 1)
    case Good => r.(good := r.good + 1)
    case Okay => r.(okay := r.okay + 1)
  }

  /** The counters after a hit judged `tier`. */
  function AfterHit(c: Counters, tier: Tier): (d: Counters)
    ensures d.judgedCount == c.judgedCount + 1
    ensures d.score == c.score + Points(tier)
    ensures d.combo == c.combo + 1 && d.longestCombo == MaxInt(c.longestCombo, c.combo + 1)
  {
    Counters(c.judgedCount + 1, c.score + Points(tier), c.combo + 1, MaxInt(c.longestCombo, c.combo + 1))
  }

  /** The counters after `h` hits in a row, each judged `tier`. */
  function AfterHits(c: Counters, tier: Tier, h: nat): (d: Counters)
    ensures d.judgedCount == c.judgedCount + h
    ensures d.score == c.score + Points(tier) * h
    ensures d.combo == c.combo + h
    ensures d.longestCombo == if h == 0 then c.longestCombo else MaxInt(c.longestCombo, c.combo + h)
  {
    if h == 0 then c else AfterHit(AfterHits(c, tier, h - 1), tier)
  }

  /** `a` hits and then `b` more are `a + b` hits. */
  lemma {:induction false} AfterHitsAdd(c: Counters, tier: Tier, a: nat, b: nat)
    ensures AfterHits(AfterHits(c, tier, a), tier, b) == AfterHits(c, tier, a + b)
  {
    if b > 0 {
      AfterHitsAdd(c, tier, a, b - 1);
    }
  }

  /**
   * Counters `c` and result counters `r` are those of `c0`, `r0` with every
   * hit gained since the notes were `ns0` added: the judged count and the
   * combo grow by the number of new hits, the longest combo follows the
   * combo, no miss is added, and each new hit counts in the tier of its delta
   * to the activation time `ht`.
   */
  ghost predicate HitsSince(ns0: seq<Note>, c0: Counters, r0: Results, ns: seq<Note>, c: Counters, r: Results, ht: real) {
    var h := CountIf(ns, Hit) - CountIf(ns0, Hit);
    && c.judgedCount == c0.judgedCount + h
    && c.combo == c0.combo + h
    && c.longestCombo == MaxInt(c0.longestCombo, c0.combo + h)
    && r.miss == r0.miss
    && forall tier: Tier :: (TierCount(r, tier) == TierCount(r0, tier)
         + CountIf(ns, HitIn(tier, ht)) - CountIf(ns0, HitIn(tier, ht)))
  }

  /** One more step that adds the strike `st`, if any, keeps HitsSince. */
  lemma HitsSinceStep(ns0: seq<Note>, c0: Counters, r0: Results, before: seq<Note>, cb: Counters, rb: Results,
                      after: seq<Note>, ca: Counters, ra: Results, ht: real, st: Option<Strike>)
    requires HitsSince(ns0, c0, r0, before, cb, rb, ht)
    requires CountIf(after, Hit) == CountIf(before, Hit) + (if st.Some? then 1 else 0)
    requires forall tier: Tier :: (CountIf(after, HitIn(tier, ht)) == CountIf(before, HitIn(tier, ht))
      + (if st.Some? && st.value.tier == tier then 1 else 0))
    requires st.Some? ==> ca == AfterHit(cb, st.value.tier) && ra == AddHit(rb, st.value.tier)
    requires st.None? ==> ca == cb && ra == rb
    ensures HitsSince(ns0, c0, r0, after, ca, ra, ht)
  {
  }

  /**
   * The strike a realistic visit of note `i` at tick time `t` makes, if any:
   * the visit of an unjudged note that fires activates its lane at `ht`.
   */
  function VisitStrike(ns: seq<Note>, i: int, t: real, mode: string, d: PlanDraws, ht: real): Option<Strike>
    requires 0 <= i < |ns| && ValidDraws(d)
  {
    var n := ns[i];
    if !n.judged && Fires(n, t, mode, d)
    then Activation(ns[i := n.(plan := PlanAfter(n, t, mode, d))], n.lane, ht)
    else None
  }

  /** The counters after a late miss. */
  function AfterMiss(c: Counters): (d: Counters)
    ensures d.judgedCount == c.judgedCount + 1 && d.combo == 0
    ensures d.score == c.score && d.longestCombo == c.longestCombo
  {
    c.(judgedCount := c.judgedCount + 1, combo := 0)
  }

  /** The counters after `n` late misses in one sweep: the combo breaks if there was any. */
  function AfterMisses(c: Counters, n: nat): (d: Counters)
    ensures d.judgedCount == c.judgedCount + n
    ensures d.combo == (if n > 0 then 0 else c.combo)
    ensures d.score == c.score && d.longestCombo == c.longestCombo
  {
    if n == 0 then c else AfterMiss(AfterMisses(c, n - 1))
  }

  /** A fresh note list has nothing judged, hit or missed. */
  lemma {:induction false} FreshCounts(ns: seq<Note>)
    requires AllFresh(ns)
    ensures CountIf(ns, Judged) == 0 && CountIf(ns, Hit) == 0 && CountIf(ns, Miss) == 0
  {
    CountIfNone(ns, Judged);
    CountIfNone(ns, Hit);
    CountIfNone(ns, Miss);
  }

  /** Hitting an unjudged, unhit note adds one judged note and one hit, and no miss. */
  lemma {:induction false} StruckCounts(ns: seq<Note>, k: int)
    requires 0 <= k < |ns| && !ns[k].judged && !ns[k].hit
    ensures var after := ns[k := Struck(ns[k])];
      && CountIf(after, Judged) == CountIf(ns, Judged) + 1
      && CountIf(after, Hit) == CountIf(ns, Hit) + 1
      && CountIf(after, Miss) == CountIf(ns, Miss)
  {
    var x := Struck(ns[k]);
    CountIfUpdate(ns, k, x, Judged);
    CountIfUpdate(ns, k, x, Hit);
    CountIfUpdate(ns, k, x, Miss);
  }

  /** Turning an unjudged, unhit note into a miss adds one judged note and one miss, and no hit. */
  lemma {:induction false} MissedCounts(ns: seq<Note>, k: int)
    requires 0 <= k < |ns| && !ns[k].judged && !ns[k].hit
    ensures var after := ns[k := ns[k].(judged := true, hit := false)];
      && CountIf(after, Judged) == CountIf(ns, Judged) + 1
      && CountIf(after, Hit) == CountIf(ns, Hit)
      && CountIf(after, Miss) == CountIf(ns, Miss) + 1
  {
    var x := ns[k].(judged := true, hit := false);
    CountIfUpdate(ns, k, x, Judged);
    CountIfUpdate(ns, k, x, Hit);
    CountIfUpdate(ns, k, x, Miss);
  }

  /** Changing a note's autoplay plan leaves every count alone. */
  lemma {:induction false} PlanCounts(ns: seq<Note>, k: int, p: Plan)
    requires 0 <= k < |ns|
    ensures var after := ns[k := ns[k].(plan := p)];
      && CountIf(after, Judged) == CountIf(ns, Judged)
      && CountIf(after, Hit) == CountIf(ns, Hit)
      && CountIf(after, Miss) == CountIf(ns, Miss)
  {
    var x := ns[k].(plan := p);
    CountIfUpdate(ns, k, x, Judged);
    CountIfUpdate(ns, k, x, Hit);
    CountIfUpdate(ns, k, x, Miss);
  }

  /** The global state of one page: the chart, the run in progress and the transport. */
  class Game {
    var notes: seq<Note>
    var originalNotes: seq<Note>
    /** judgedCount, score, combo and longestCombo. */
    var counters: Counters
    /** The five result counters the page shows (and reads back at the end of a run). */
    var results: Results
    var startTime: Option<real>
    var playing: bool
    var pausedAt: real
    var prerolling: bool
    var prerollEnd: real
    var preRollMs: real
    var currentDataHash: string
    var scoreHistory: map<string, Record>

    /** The pristine copy is a decoded chart in its fresh state. */
    ghost predicate Loaded()
      reads this`originalNotes
    {
      && AllFresh(originalNotes)
      && forall k :: 0 <= k < |originalNotes| ==> originalNotes[k].time >= 0.0
    }

    /**
     * The counters agree with the notes: the judged notes are counted, the
     * hits per tier add up to the hit notes, the misses to the missed notes,
     * the score is the points of the hits, and no combo is longer than the
     * number of hits.
     */
    ghost predicate Counted()
      reads this`notes, this`counters, this`results
    {
      && counters.judgedCount == CountIf(notes, Judged)
      && results.perfect >= 0 && results.great >= 0 && results.good >= 0 && results.okay >= 0
      && results.perfect + results.great + results.good + results.okay == CountIf(notes, Hit)
      && results.miss == CountIf(notes, Miss)
      && counters.score == 300 * results.perfect + 200 * results.great + 120 * results.good + 50 * results.okay
      && 0 <= counters.combo <= counters.longestCombo <= CountIf(notes, Hit)
    }

    /** The working notes keep the schedule of the pristine copy, and the counters agree with them. */
    ghost predicate Synced()
      reads this`notes, this`originalNotes, this`counters, this`results
    {
      && SameSchedule(notes, originalNotes)
      && (forall k :: 0 <= k < |notes| ==> NoteOk(notes[k]))
      && Counted()
    }

    /** A paused position is never negative, and a playing song has a start. */
    predicate ClockOk()
      reads this`pausedAt, this`playing, this`startTime
    {
      pausedAt >= 0.0 && (playing ==> startTime.Some?)
    }

    ghost predicate Valid()
      reads this
    {
      Loaded() && Synced() && ClockOk()
    }

    /** Score, combo and every counter are zero. */
    predicate Zeroed()
      reads this`counters, this`results
    {
      && counters.judgedCount == 0 && counters.score == 0 && counters.combo == 0 && counters.longestCombo == 0
      && results.perfect == 0 && results.great == 0 && results.good == 0 && results.okay == 0 && results.miss == 0
    }

    /** Every note of a non-empty chart is judged: the judged notes are all of them. */
    predicate AllJudged()
      reads this`notes
      ensures AllJudged() <==> |notes| > 0 && CountIf(notes, Judged) == |notes|
    {
      CountIfAll(notes, Judged);
      |notes| > 0 && forall k :: 0 <= k < |notes| ==> notes[k].judged
    }

    /**
     * The stats of the run in progress as updateHighScore collects them; when
     * the counters agree with the notes, they describe the notes' outcomes.
     */
    function RunStats(): (r: Stats)
      reads this`notes, this`counters, this`results
      ensures Counted() ==>
        && r.perfect + r.great + r.good + r.okay == CountIf(notes, Hit)
        && r.miss == CountIf(notes, Miss)
        && r.score == 300 * r.perfect + 200 * r.great + 120 * r.good + 50 * r.okay
        && 0 <= r.longestStreak <= CountIf(notes, Hit)
    {
      Stats(results.perfect, results.great, results.good, results.okay, results.miss,
            counters.score, counters.longestCombo)
    }

    /** currentTimeMs: the song position, 0 unless playing with a start time. */
    function CurrentTime(now: real): (t: real)
      reads this`playing, this`startTime
      ensures t >= 0.0
      ensures !playing || startTime.None? ==> t == 0.0
      ensures playing && startTime.Some? ==> t == Max(0.0, now - startTime.value)
      ensures playing && startTime.Some? && now >= startTime.value ==> t == now - startTime.value
    {
      if !playing || startTime.None? then 0.0
      else Max(0.0, now - startTime.value) + GLOBAL_OFFSET
    }

    /** The time an activation is judged at: the forced time if given, else the song position. */
    function HitTime(forcedTime: Option<real>, now: real): (t: real)
      reads this`playing, this`startTime
      ensures forcedTime.Some? ==> t == forcedTime.value
      ensures forcedTime.None? ==> t == CurrentTime(now) && t >= 0.0
    {
      if forcedTime.Some? then forcedTime.value else CurrentTime(now)
    }

    constructor ()
      ensures Valid() && Zeroed()
      ensures notes == [] && originalNotes == []
      ensures startTime.None? && !playing && pausedAt == 0.0 && !prerolling && prerollEnd == 0.0
      ensures preRollMs == DEFAULT_PRE_ROLL_MS && currentDataHash == "" && scoreHistory == map[]
    {
      notes := [];
      originalNotes := [];
      startTime := None;
      playing := false;
      pausedAt := 0.0;
      prerolling := false;
      prerollEnd := 0.0;
      preRollMs := DEFAULT_PRE_ROLL_MS;
      currentDataHash := "";
      scoreHistory := map[];
      new;
      ResetStats();
      FreshCounts(notes);
    }

    /** resetStats: zero score, combo and every counter. */
    method ResetStats()
      modifies this`counters, this`results
      ensures Zeroed()
    {
      counters := Counters(0, 0, 0, 0);
      results := Results(0, 0, 0, 0, 0);
    }

    /**
     * seekToStart: rewind to a fresh copy of the chart, stopped at position 0.
     * The copy is taken from the pristine notes, or from the working notes
     * when there are none, which happens only when both are empty.
     */
    method SeekToStart()
      requires Loaded() && (originalNotes == [] ==> notes == [])
      modifies this`notes, this`pausedAt, this`startTime, this`playing
      modifies this`counters, this`results
      ensures Valid() && Zeroed()
      ensures notes == ResetNotes(originalNotes)
      ensures pausedAt == 0.0 && startTime.None? && !playing
    {
      pausedAt := 0.0;
      startTime := None;
      playing := false;
      if |originalNotes| > 0 {
        notes := ResetNotes(originalNotes);
      } else {
        notes := ResetNotes(notes);
      }
      ResetStats();
      FreshCounts(notes);
    }

    /**
     * The part of parseData and its callers that keeps a parsed chart: the
     * fingerprint of its text becomes the current one, and a fresh copy of
     * its decoded notes becomes the pristine copy.
     */
    method AdoptChart(input: ChartInput)
      modifies this`originalNotes, this`currentDataHash
      ensures Loaded()
      ensures originalNotes == ResetNotes(Decode(input.frames)) && currentDataHash == input.fingerprint
    {
      var parsed := DecodeFrames(input.frames);
      DecodeNormalised(input.frames);
      currentDataHash := input.fingerprint;
      originalNotes := ResetNotes(parsed);
    }

    /**
     * startPreRoll: load the chart from the text area if none is loaded yet,
     * rewind to a fresh copy and start the count-in, which ends `preRollMs`
     * after `now`. `input` is the parsed text area, None when it is empty or
     * not JSON. The rewind repeats the steps of seekToStart one by one, so it
     * is that call here.
     */
    method StartPreRoll(now: real, input: Option<ChartInput>)
      requires Loaded() && (originalNotes == [] ==> notes == [])
      modifies this`notes, this`originalNotes, this`currentDataHash
      modifies this`pausedAt, this`startTime, this`playing, this`prerolling, this`prerollEnd
      modifies this`counters, this`results
      ensures Valid() && Zeroed()
      ensures old(originalNotes) == [] && input.Some? ==>
        originalNotes == ResetNotes(Decode(input.value.frames)) && currentDataHash == input.value.fingerprint
      ensures !(old(originalNotes) == [] && input.Some?) ==>
        originalNotes == old(originalNotes) && currentDataHash == old(currentDataHash)
      ensures notes == ResetNotes(originalNotes) && AllFresh(notes)
      ensures pausedAt == 0.0 && !playing && startTime.None?
      ensures prerolling && prerollEnd == now + preRollMs
    {
      if |originalNotes| == 0 && input.Some? {
        AdoptChart(input.value);
      }
      SeekToStart();
      prerolling := true;
      prerollEnd := now + preRollMs;
    }

    /**
     * The play button: with no chart kept, a generated chart is written to
     * the text area, parsed and kept; then the count-in starts, reading the
     * text area (which now holds that chart) if nothing was kept after all.
     */
    method PlayButton(now: real, generated: ChartInput)
      requires Valid()
      modifies this`notes, this`originalNotes, this`currentDataHash
      modifies this`pausedAt, this`startTime, this`playing, this`prerolling, this`prerollEnd
      modifies this`counters, this`results
      ensures Valid() && Zeroed()
      ensures old(originalNotes) == [] ==>
        originalNotes == ResetNotes(Decode(generated.frames)) && currentDataHash == generated.fingerprint
      ensures old(originalNotes) != [] ==>
        originalNotes == old(originalNotes) && currentDataHash == old(currentDataHash)
      ensures notes == ResetNotes(originalNotes)
      ensures pausedAt == 0.0 && !playing && startTime.None?
      ensures prerolling && prerollEnd == now + preRollMs
    {
      if |originalNotes| == 0 {
        AdoptChart(generated);
      }
      StartPreRoll(now, Some(generated));
    }

    /**
     * playGame: start or resume. Resuming sets the start so that the song
     * position continues from where it was paused.
     */
    method PlayGame(now: real)
      requires ClockOk()
      modifies this`startTime, this`playing
      ensures ClockOk() && playing
      ensures old(playing) ==> unchanged(this)
      ensures !old(playing) && old(startTime).Some? ==> startTime == Some(now - pausedAt)
      ensures !old(playing) && old(startTime).None? ==> startTime == Some(now - preRollMs - pausedAt)
      ensures !old(playing) && old(startTime).Some? ==> CurrentTime(now) == pausedAt
      ensures !old(playing) && old(startTime).None? ==> CurrentTime(now) == Max(0.0, preRollMs + pausedAt)
    {
      if playing {
        return;
      }
      if startTime.None? {
        startTime := Some(now - preRollMs - pausedAt);
      } else {
        startTime := Some(now - pausedAt);
      }
      playing := true;
    }

    /** pauseGame: freeze the song position. */
    method PauseGame(now: real)
      requires ClockOk()
      modifies this`pausedAt, this`playing
      ensures ClockOk() && !playing
      ensures !old(playing) ==> unchanged(this)
      ensures old(playing) ==> pausedAt == old(CurrentTime(now))
    {
      if !playing {
        return;
      }
      pausedAt := CurrentTime(now);
      playing := false;
    }

    /** Pausing and then resuming continues from the same song position: no jump. */
    method PauseThenResume(now1: real, now2: real)
      requires ClockOk() && playing
      modifies this`pausedAt, this`playing, this`startTime
      ensures ClockOk() && playing
      ensures CurrentTime(now2) == old(CurrentTime(now1))
      ensures startTime == Some(now2 - old(CurrentTime(now1)))
    {
      PauseGame(now1);
      PlayGame(now2);
    }

    /**
     * tryHitLane: an activation of `lane` binds the nearest unjudged note of
     * the lane within OK_WIN of the hit time and scores it; nothing changes
     * during the count-in or when no note qualifies.
     */
    method TryHitLane(lane: int, forcedTime: Option<real>, now: real)
      requires Valid()
      modifies this`notes, this`counters, this`results
      ensures Valid()
      ensures prerolling || Activation(old(notes), lane, HitTime(forcedTime, now)).None? ==> unchanged(this)
      ensures !prerolling && Activation(old(notes), lane, HitTime(forcedTime, now)).Some? ==>
        var s := Activation(old(notes), lane, HitTime(forcedTime, now)).value;
        && notes == old(notes)[s.index := Struck(old(notes)[s.index])]
        && counters == AfterHit(old(counters), s.tier) && results == AddHit(old(results), s.tier)
    {
      if prerolling {
        return;
      }
      var t := HitTime(forcedTime, now);
      var ns := notes;
      var target := FindTarget(ns, lane, t);
      if target.None? {
        assert Activation(ns, lane, t).None?;
        return;
      }
      var k := target.value;
      var judgement := JudgeDelta(t - ns[k].time);
      if judgement.None? {
        // unreachable: the target lies within OK_WIN
        assert false;
        return;
      }
      assert Activation(ns, lane, t) == Some(Strike(k, judgement.value));
      ScoreHit(k, judgement.value);
    }

    /** The scoring half of tryHitLane: note `k` is hit with `tier`, and the counters follow. */
    method ScoreHit(k: int, tier: Tier)
      requires Valid() && 0 <= k < |notes| && !notes[k].judged
      modifies this`notes, this`counters, this`results
      ensures Valid()
      ensures notes == old(notes)[k := Struck(old(notes)[k])]
      ensures counters == AfterHit(old(counters), tier) && results == AddHit(old(results), tier)
    {
      StruckCounts(notes, k);
      notes := notes[k := Struck(notes[k])];
      counters := AfterHit(counters, tier);
      results := AddHit(results, tier);
    }

    /** One note of the late-miss sweep: note `i`, if overdue at `t`, becomes a miss. */
    method SweepOne(i: int, t: real)
      requires Valid() && 0 <= i < |notes|
      modifies this`notes, this`counters, this`results
      ensures Valid()
      ensures notes == old(notes)[i := SweepNote(old(notes)[i], t)]
      ensures Overdue(old(notes)[i], t) ==>
        counters == AfterMiss(old(counters)) && results == old(results).(miss := old(results).miss + 1)
      ensures !Overdue(old(notes)[i], t) ==> unchanged(this)
    {
      var n := notes[i];
      if !n.judged && t - n.time > LATE_MISS {
        MissedCounts(notes, i);
        notes := notes[i := n.(judged := true, hit := false)];
        counters := AfterMiss(counters);
        results := results.(miss := results.miss + 1);
      }
    }

    /**
     * The late-miss sweep of `draw`: every unjudged note more than LATE_MISS
     * ms behind `t` becomes a miss, and the combo breaks if there was one.
     */
    method SweepLateMisses(t: real)
      requires Valid()
      modifies this`notes, this`counters, this`results
      ensures Valid()
      ensures notes == Swept(old(notes), t)
      ensures var missed := CountIf(old(notes), OverdueAt(t));
        && counters == AfterMisses(old(counters), missed)
        && results == old(results).(miss := old(results).miss + missed)
    {
      ghost var ns0 := notes;
      ghost var c0, r0 := counters, results;
      ghost var missed := 0;
      for i := 0 to |notes|
        invariant Valid()
        invariant |notes| == |ns0|
        invariant forall k :: 0 <= k < |ns0| ==> notes[k] == if k < i then SweepNote(ns0[k], t) else ns0[k]
        invariant missed == CountIf(ns0[..i], OverdueAt(t))
        invariant counters == AfterMisses(c0, missed) && results == r0.(miss := r0.miss + missed)
      {
        CountIfPrefix(ns0, i, OverdueAt(t));
        if Overdue(notes[i], t) {
          missed := missed + 1;
        }
        SweepOne(i, t);
      }
      assert ns0[..|ns0|] == ns0;
    }

    /** Replace the autoplay plan of note `i`. */
    method SetPlan(i: int, p: Plan)
      requires Valid() && 0 <= i < |notes| && PlanOk(notes[i].(plan := p))
      modifies this`notes
      ensures Valid()
      ensures notes == old(notes)[i := old(notes)[i].(plan := p)]
    {
      PlanCounts(notes, i, p);
      notes := notes[i := notes[i].(plan := p)];
    }

    /**
     * autoPlayStep at tick time `t`: nothing during the count-in or with
     * autoplay off; otherwise one pass over the notes in the selected mode.
     * (The source's loop tests the mode on every note; the mode does not
     * change during the pass, so the two modes are two loops here.)
     */
    method AutoPlayStep(t: real, now: real, enabled: bool, modeValue: string, draws: seq<PlanDraws>)
      requires Valid()
      requires |draws| == |notes| && forall k :: 0 <= k < |draws| ==> ValidDraws(draws[k])
      modifies this`notes, this`counters, this`results
      ensures Valid() && |notes| == |old(notes)|
      ensures prerolling || !enabled ==> unchanged(this)
      ensures !prerolling && enabled && ResolveMode(modeValue) == PERFECT ==>
        && (forall k :: 0 <= k < |notes| ==> notes[k] == PerfectOutcome(old(notes)[k], t))
        && var h := CountIf(old(notes), DueBy(t));
        && counters == AfterHits(old(counters), Perfect, h)
        && results == old(results).(perfect := old(results).perfect + h)
      ensures !prerolling && enabled && ResolveMode(modeValue) != PERFECT ==>
        && (forall k :: 0 <= k < |notes| ==> AutoOutcome(old(notes)[k], notes[k], t, ResolveMode(modeValue), draws[k]))
        && HitsSince(old(notes), old(counters), old(results), notes, counters, results, HitTime(None, now))
    {
      if prerolling {
        return;
      }
      if !enabled {
        return;
      }
      var mode := ResolveMode(modeValue);
      if mode == PERFECT {
        PerfectPass(t, now);
      } else {
        RealisticPass(t, now, mode, draws);
      }
    }

    /**
     * One note of the perfect-mode pass: an unjudged note due by `t` is
     * activated at exactly its own time. Since every earlier note due by `t`
     * is already judged, that activation binds this very note, with a Perfect.
     */
    method PerfectVisit(i: int, t: real, now: real)
      requires Valid() && !prerolling && 0 <= i < |notes|
      requires forall j :: 0 <= j < i ==> notes[j].judged || t < notes[j].time
      modifies this`notes, this`counters, this`results
      ensures Valid()
      ensures notes == old(notes)[i := PerfectOutcome(old(notes)[i], t)]
      ensures var h := if Matches(old(notes)[i], DueBy(t)) then 1 else 0;
        counters == AfterHits(old(counters), Perfect, h) && results == old(results).(perfect := old(results).perfect + h)
    {
      var n := notes[i];
      if n.judged {
        return;
      }
      if t < n.time {
        return;
      }
      NearestOnTime(notes, n.lane, n.time, i);
      ghost var before := notes;
      TryHitLane(n.lane, Some(n.time), now);
      ghost var s := Activation(before, n.lane, n.time).value;
      NearestUnique(before, n.lane, n.time, s.index, i);
      assert JudgeDelta(0.0) == Some(Perfect);
    }

    /**
     * The perfect-mode pass: each unjudged note due by `t` is activated at
     * exactly its own time, which binds that very note with a Perfect.
     */
    method PerfectPass(t: real, now: real)
      requires Valid() && !prerolling
      modifies this`notes, this`counters, this`results
      ensures Valid() && |notes| == |old(notes)|
      ensures forall k :: 0 <= k < |notes| ==> notes[k] == PerfectOutcome(old(notes)[k], t)
      ensures var h := CountIf(old(notes), DueBy(t));
        counters == AfterHits(old(counters), Perfect, h) && results == old(results).(perfect := old(results).perfect + h)
    {
      ghost var ns0 := notes;
      ghost var c0, r0 := counters, results;
      for i := 0 to |notes|
        invariant Valid()
        invariant PerfectSoFar(ns0, c0, r0, i, t)
      {
        PerfectStep(i, t, now, ns0, c0, r0);
      }
      assert ns0[..|ns0|] == ns0;
    }

    /**
     * The state of the perfect pass after visiting the first `i` notes of
     * `ns0`: those are hit if due, the rest untouched, and every hit so far
     * is counted as a Perfect.
     */
    ghost predicate PerfectSoFar(ns0: seq<Note>, c0: Counters, r0: Results, i: int, t: real)
      reads this`notes, this`counters, this`results
    {
      && 0 <= i <= |ns0| && |notes| == |ns0|
      && (forall k :: 0 <= k < |ns0| ==> notes[k] == if k < i then PerfectOutcome(ns0[k], t) else ns0[k])
      && var h := CountIf(ns0[..i], DueBy(t));
      && counters == AfterHits(c0, Perfect, h) && results == r0.(perfect := r0.perfect + h)
    }

    /** One visit of the perfect pass, with the facts that carry the pass forward. */
    method PerfectStep(i: int, t: real, now: real, ghost ns0: seq<Note>, ghost c0: Counters, ghost r0: Results)
      requires Valid() && !prerolling && i < |ns0|
      requires PerfectSoFar(ns0, c0, r0, i, t)
      modifies this`notes, this`counters, this`results
      ensures Valid()
      ensures PerfectSoFar(ns0, c0, r0, i + 1, t)
    {
      ghost var hits := CountIf(ns0[..i], DueBy(t));
      CountIfPrefix(ns0, i, DueBy(t));
      ghost var h := if Matches(notes[i], DueBy(t)) then 1 else 0;
      PerfectVisit(i, t, now);
      AfterHitsAdd(c0, Perfect, hits, h);
    }

    /**
     * The planning half of a realistic visit of the unjudged note `i`: a
     * stale plan is dropped, a note within the lookahead is planned, and an
     * overshot target turns the plan into a will-miss. `fire` tells whether
     * the visit goes on to activate the lane.
     */
    method PlanVisit(i: int, t: real, mode: string, d: PlanDraws) returns (fire: bool)
      requires Valid() && 0 <= i < |notes| && !notes[i].judged && ValidDraws(d)
      modifies this`notes
      ensures Valid()
      ensures notes == old(notes)[i := old(notes)[i].(plan := PlanAfter(old(notes)[i], t, mode, d))]
      ensures fire == Fires(old(notes)[i], t, mode, d)
    {
      var n := notes[i];
      PlanAfterOk(n, t, mode, d);
      fire := false;
      if n.plan.Planned? && n.plan.mode != mode {
        SetPlan(i, Unplanned);
      }
      var dt := t - n.time;
      if dt < -LOOKAHEAD {
        return;
      }
      if notes[i].plan.Unplanned? {
        SetPlan(i, NewPlan(mode, n.time, d));
      }
      var p := notes[i].plan;
      if p.willMiss {
        return;
      }
      var targetTime := TargetOr(p, n.time);
      if t + AUTOPLAY_HIT_WINDOW < targetTime {
        return;
      }
      if t - targetTime > OK_WIN {
        SetPlan(i, p.(willMiss := true));
        return;
      }
      fire := true;
    }

    /**
     * One note of the realistic-mode pass: a judged note is skipped; an
     * unjudged one gets the plan its visit leaves and, when that visit fires,
     * its lane is activated at the song position.
     */
    method RealisticVisit(i: int, t: real, now: real, mode: string, d: PlanDraws)
      requires Valid() && !prerolling && 0 <= i < |notes| && ValidDraws(d)
      modifies this`notes, this`counters, this`results
      ensures Valid() && |notes| == |old(notes)|
      ensures old(notes)[i].judged ==> unchanged(this)
      ensures !old(notes)[i].judged ==>
        var n := old(notes)[i];
        var planned := old(notes)[i := n.(plan := PlanAfter(n, t, mode, d))];
        var s := Activation(planned, n.lane, HitTime(None, now));
        notes == if Fires(n, t, mode, d) && s.Some?
                 then planned[s.value.index := Struck(planned[s.value.index])]
                 else planned
      ensures var st := VisitStrike(old(notes), i, t, mode, d, HitTime(None, now));
        if st.Some?
        then counters == AfterHit(old(counters), st.value.tier) && results == AddHit(old(results), st.value.tier)
        else counters == old(counters) && results == old(results)
    {
      if notes[i].judged {
        return;
      }
      var fire := PlanVisit(i, t, mode, d);
      if fire {
        TryHitLane(notes[i].lane, None, now);
      }
    }

    /**
     * The realistic-mode pass: each unjudged note is planned once per mode
     * from its draws, turned into a will-miss once its target is overshot,
     * and activates its lane at the song position when its target is near.
     */
    method RealisticPass(t: real, now: real, mode: string, draws: seq<PlanDraws>)
      requires Valid() && !prerolling
      requires |draws| == |notes| && forall k :: 0 <= k < |draws| ==> ValidDraws(draws[k])
      modifies this`notes, this`counters, this`results
      ensures Valid() && |notes| == |old(notes)|
      ensures forall k :: 0 <= k < |notes| ==> AutoOutcome(old(notes)[k], notes[k], t, mode, draws[k])
      ensures HitsSince(old(notes), old(counters), old(results), notes, counters, results, HitTime(None, now))
    {
      ghost var ns0 := notes;
      ghost var c0, r0 := counters, results;
      for i := 0 to |notes|
        invariant Valid()
        invariant RealisticSoFar(ns0, c0, r0, i, t, mode, draws, HitTime(None, now))
      {
        RealisticStep(i, t, now, mode, draws, ns0, c0, r0);
      }
    }

    /**
     * The state of the realistic pass after visiting the first `i` notes of
     * `ns0`: their outcomes are admissible, later notes are untouched or hit
     * by an earlier visit, and the counters hold the hits gained so far.
     */
    ghost predicate RealisticSoFar(ns0: seq<Note>, c0: Counters, r0: Results, i: int,
                                   t: real, mode: string, draws: seq<PlanDraws>, ht: real)
      requires |draws| == |ns0| && forall k :: 0 <= k < |draws| ==> ValidDraws(draws[k])
      reads this`notes, this`counters, this`results
    {
      && 0 <= i <= |ns0| && |notes| == |ns0|
      && (forall k :: 0 <= k < i ==> AutoOutcome(ns0[k], notes[k], t, mode, draws[k]))
      && (forall k :: i <= k < |ns0| ==> notes[k] == ns0[k] || (!ns0[k].judged && notes[k] == Struck(ns0[k])))
      && HitsSince(ns0, c0, r0, notes, counters, results, ht)
    }

    /** One visit of the realistic pass, with the facts that carry the pass forward. */
    method RealisticStep(i: int, t: real, now: real, mode: string, draws: seq<PlanDraws>,
                         ghost ns0: seq<Note>, ghost c0: Counters, ghost r0: Results)
      requires Valid() && !prerolling && i < |ns0|
      requires |draws| == |ns0| && forall k :: 0 <= k < |draws| ==> ValidDraws(draws[k])
      requires RealisticSoFar(ns0, c0, r0, i, t, mode, draws, HitTime(None, now))
      modifies this`notes, this`counters, this`results
      ensures Valid()
      ensures RealisticSoFar(ns0, c0, r0, i + 1, t, mode, draws, HitTime(None, now))
    {
      ghost var ht := HitTime(None, now);
      ghost var before, cb, rb := notes, counters, results;
      RealisticVisit(i, t, now, mode, draws[i]);
      RealisticVisitKeeps(ns0, before, notes, i, t, mode, draws, ht);
      ghost var st := VisitStrike(before, i, t, mode, draws[i], ht);
      RealisticVisitHits(before, notes, i, t, mode, draws[i], ht);
      forall tier: Tier
        ensures CountIf(notes, HitIn(tier, ht)) == CountIf(before, HitIn(tier, ht))
          + (if st.Some? && st.value.tier == tier then 1 else 0)
      {
        RealisticVisitTier(before, notes, i, t, mode, draws[i], ht, tier);
      }
      HitsSinceStep(ns0, c0, r0, before, cb, rb, notes, counters, results, ht,
                    VisitStrike(before, i, t, mode, draws[i], ht));
    }

    /** A visit of the realistic pass keeps every note's outcome admissible. */
    static lemma RealisticVisitKeeps(ns0: seq<Note>, before: seq<Note>, after: seq<Note>, i: int,
                                     t: real, mode: string, draws: seq<PlanDraws>, ht: real)
      requires |draws| == |ns0| == |before| && 0 <= i < |ns0|
      requires forall k :: 0 <= k < |draws| ==> ValidDraws(draws[k])
      requires forall k :: 0 <= k < i ==> AutoOutcome(ns0[k], before[k], t, mode, draws[k])
      requires forall k :: i <= k < |ns0| ==> before[k] == ns0[k] || (!ns0[k].judged && before[k] == Struck(ns0[k]))
      requires before[i].judged ==> after == before
      requires !before[i].judged ==>
        var n := before[i];
        var planned := before[i := n.(plan := PlanAfter(n, t, mode, draws[i]))];
        var s := Activation(planned, n.lane, ht);
        after == if Fires(n, t, mode, draws[i]) && s.Some?
                 then planned[s.value.index := Struck(planned[s.value.index])]
                 else planned
      ensures |after| == |ns0|
      ensures forall k :: 0 <= k < i + 1 ==> AutoOutcome(ns0[k], after[k], t, mode, draws[k])
      ensures forall k :: i + 1 <= k < |ns0| ==> after[k] == ns0[k] || (!ns0[k].judged && after[k] == Struck(ns0[k]))
    {
      if !before[i].judged {
        var n := before[i];
        var planned := before[i := n.(plan := PlanAfter(n, t, mode, draws[i]))];
        var s := Activation(planned, n.lane, ht);
        if Fires(n, t, mode, draws[i]) && s.Some? {
          assert !planned[s.value.index].judged;
        }
      }
    }

    /** A visit of the realistic pass adds its one strike, if any, to the hits. */
    static lemma RealisticVisitHits(before: seq<Note>, after: seq<Note>, i: int,
                                    t: real, mode: string, d: PlanDraws, ht: real)
      requires 0 <= i < |before| && ValidDraws(d)
      requires forall k :: 0 <= k < |before| ==> NoteOk(before[k])
      requires before[i].judged ==> after == before
      requires !before[i].judged ==>
        var n := before[i];
        var planned := before[i := n.(plan := PlanAfter(n, t, mode, d))];
        var s := Activation(planned, n.lane, ht);
        after == if Fires(n, t, mode, d) && s.Some?
                 then planned[s.value.index := Struck(planned[s.value.index])]
                 else planned
      ensures var st := VisitStrike(before, i, t, mode, d, ht);
        CountIf(after, Hit) == CountIf(before, Hit) + (if st.Some? then 1 else 0)
    {
      var n := before[i];
      if !n.judged {
        var planned := before[i := n.(plan := PlanAfter(n, t, mode, d))];
        var s := Activation(planned, n.lane, ht);
        CountIfUpdate(before, i, planned[i], Hit);
        if Fires(n, t, mode, d) && s.Some? {
          assert !planned[s.value.index].hit by {
            assert NoteOk(before[s.value.index]);
          }
          CountIfUpdate(planned, s.value.index, Struck(planned[s.value.index]), Hit);
        }
      }
    }

    /** A visit of the realistic pass adds its one strike, if any, to the count of its tier. */
    static lemma RealisticVisitTier(before: seq<Note>, after: seq<Note>, i: int,
                                    t: real, mode: string, d: PlanDraws, ht: real, tier: Tier)
      requires 0 <= i < |before| && ValidDraws(d)
      requires forall k :: 0 <= k < |before| ==> NoteOk(before[k])
      requires before[i].judged ==> after == before
      requires !before[i].judged ==>
        var n := before[i];
        var planned := before[i := n.(plan := PlanAfter(n, t, mode, d))];
        var s := Activation(planned, n.lane, ht);
        after == if Fires(n, t, mode, d) && s.Some?
                 then planned[s.value.index := Struck(planned[s.value.index])]
                 else planned
      ensures var st := VisitStrike(before, i, t, mode, d, ht);
        CountIf(after, HitIn(tier, ht)) == CountIf(before, HitIn(tier, ht))
          + (if st.Some? && st.value.tier == tier then 1 else 0)
    {
      var n := before[i];
      if !n.judged {
        var planned := before[i := n.(plan := PlanAfter(n, t, mode, d))];
        var s := Activation(planned, n.lane, ht);
        CountIfUpdate(before, i, planned[i], HitIn(tier, ht));
        if Fires(n, t, mode, d) && s.Some? {
          var k := s.value.index;
          assert !planned[k].hit by {
            assert NoteOk(before[k]);
          }
          CountIfUpdate(planned, k, Struck(planned[k]), HitIn(tier, ht));
        }
      }
    }

    /**
     * The pre-roll part of `draw`: during the count-in the tick time runs
     * from -preRollMs up to 0; once the count-in is over, play starts with
     * the song at position 0.
     */
    method AdvancePreRoll(now: real) returns (t: real)
      requires ClockOk()
      modifies this`prerolling, this`startTime, this`playing
      ensures ClockOk()
      ensures !old(prerolling) ==> unchanged(this) && t == CurrentTime(now)
      ensures old(prerolling) && now < prerollEnd ==> unchanged(this) && t == now - prerollEnd && t < 0.0
      ensures old(prerolling) && now >= prerollEnd ==>
        !prerolling && playing && startTime == Some(now) && t == 0.0 && CurrentTime(now) == 0.0
    {
      t := CurrentTime(now);
      if prerolling {
        var remaining := prerollEnd - now;
        t := Min(0.0, now - prerollEnd);
        if remaining <= 0.0 {
          prerolling := false;
          startTime := Some(now);
          playing := true;
          t := 0.0;
        }
      }
    }

    /**
     * updateHighScore: fold the run just finished into the record of the
     * current chart fingerprint.
     */
    method UpdateHighScore()
      modifies this`scoreHistory
      ensures scoreHistory == old(scoreHistory)[currentDataHash :=
        RecordRun(Lookup(old(scoreHistory), currentDataHash), RunStats())]
    {
      var cur := RunStats();
      var prev := Lookup(scoreHistory, currentDataHash);
      scoreHistory := scoreHistory[currentDataHash := RecordRun(prev, cur)];
    }

    /**
     * The completion block of `draw`: once every note of a playing chart is
     * judged, record the run, then either restart (loop on) or stop with the
     * position 50 ms after the last note.
     */
    method FinishIfComplete(now: real, loop: bool)
      requires Valid()
      modifies this`notes, this`originalNotes, this`currentDataHash, this`scoreHistory
      modifies this`pausedAt, this`startTime, this`playing, this`prerolling, this`prerollEnd
      modifies this`counters, this`results
      ensures Valid()
      ensures !(old(AllJudged()) && old(playing)) ==> unchanged(this)
      ensures old(AllJudged()) && old(playing) ==>
        scoreHistory == old(scoreHistory)[old(currentDataHash) :=
          RecordRun(Lookup(old(scoreHistory), old(currentDataHash)), old(RunStats()))]
      ensures old(AllJudged()) && old(playing) && loop ==>
        && notes == ResetNotes(originalNotes) && originalNotes == old(originalNotes) && Zeroed()
        && currentDataHash == old(currentDataHash)
        && pausedAt == 0.0 && startTime.None? && !playing && prerolling && prerollEnd == now + preRollMs
      ensures old(AllJudged()) && old(playing) && !loop ==>
        && notes == old(notes) && originalNotes == old(originalNotes) && currentDataHash == old(currentDataHash)
        && counters == old(counters) && results == old(results)
        && startTime == old(startTime) && prerolling == old(prerolling) && prerollEnd == old(prerollEnd)
        && !playing && pausedAt == MaxTime(notes) + 50.0
    {
      if AllJudged() && playing {
        UpdateHighScore();
        if loop {
          RestartRun(now);
        } else {
          StopAtEnd(now);
        }
      }
    }

    /** The loop-on end of a run: rewind and start the count-in again, keeping the chart. */
    method RestartRun(now: real)
      requires Valid()
      modifies this`notes, this`originalNotes, this`currentDataHash
      modifies this`pausedAt, this`startTime, this`playing, this`prerolling, this`prerollEnd
      modifies this`counters, this`results
      ensures Valid() && Zeroed()
      ensures originalNotes == old(originalNotes) && currentDataHash == old(currentDataHash)
      ensures notes == ResetNotes(originalNotes)
      ensures pausedAt == 0.0 && startTime.None? && !playing && prerolling && prerollEnd == now + preRollMs
    {
      SeekToStart();
      StartPreRoll(now, None);
    }

    /** The no-loop end of a run: pause, with the position 50 ms after the last note. */
    method StopAtEnd(now: real)
      requires Valid() && notes != []
      modifies this`pausedAt, this`playing
      ensures Valid() && !playing
      ensures pausedAt == MaxTime(notes) + 50.0
    {
      PauseGame(now);
      var last := MaxTime(notes);
      pausedAt := last + 50.0;
    }

    /**
     * One animation frame of `draw`, without the drawing: advance the
     * count-in, sweep late misses, let autoplay act, and finish the run when
     * every note is judged.
     */
    method Tick(now: real, autoplay: bool, modeValue: string, draws: seq<PlanDraws>, loop: bool)
      requires Valid()
      requires |draws| == |notes| && forall k :: 0 <= k < |draws| ==> ValidDraws(draws[k])
      modifies this`notes, this`originalNotes, this`currentDataHash, this`scoreHistory
      modifies this`pausedAt, this`startTime, this`playing, this`prerolling, this`prerollEnd
      modifies this`counters, this`results
      ensures Valid()
      ensures old(prerolling) && now < old(prerollEnd) && !old(playing) ==>
        && notes == old(notes) && counters == old(counters) && results == old(results)
        && prerolling && !playing
    {
      var wasPrerolling := prerolling;
      var t := AdvancePreRoll(now);
      if wasPrerolling {
        SweptBeforeStart(notes, t);
      }
      SweepLateMisses(t);
      AutoPlayStep(t, now, autoplay, modeValue, draws);
      FinishIfComplete(now, loop);
    }

    /**
     * The load button: parse the text area (None when it is not JSON), make
     * its notes the pristine copy and the working list, and rewind.
     */
    method LoadChart(input: Option<ChartInput>, now: real)
      requires Valid()
      modifies this`notes, this`originalNotes, this`currentDataHash, this`counters, this`results
      modifies this`pausedAt, this`startTime, this`playing
      ensures Valid() && Zeroed()
      ensures input.Some? ==> originalNotes == ResetNotes(Decode(input.value.frames)) && currentDataHash == input.value.fingerprint
      ensures input.None? ==> originalNotes == [] && currentDataHash == old(currentDataHash)
      ensures notes == originalNotes
      ensures pausedAt == 0.0 && startTime.None? && !playing
    {
      if input.Some? {
        AdoptChart(input.value);
      } else {
        originalNotes := [];
      }
      notes := ResetNotes(originalNotes);
      ResetStats();
      PauseGame(now);
      SeekToStart();
      ResetFreshIsIdentity(originalNotes);
    }
  }
}
