/** The per-chart record of finished runs kept by updateHighScore (page.js:317-372). */
module History {
  import opened Common

  /** The counts, score and longest streak of one finished run. */
  datatype Stats = Stats(perfect: int, great: int, good: int, okay: int, miss: int, score: int, longestStreak: int)

  /**
   * The record kept for one chart fingerprint: the best and the worst run by
   * score, field-wise totals (whose `longestStreak` is a maximum, not a sum),
   * the number of runs and the longest streak of any run.
   */
  datatype Record = Record(best: Stats, worst: Stats, total: Stats, runs: int, longestStreak: int)

  /** The record after one more finished run `cur`, given the record so far, if any. */
  function RecordRun(prev: Option<Record>, cur: Stats): (r: Record)
    ensures prev.None? ==> r == Record(cur, cur, cur, 1, cur.longestStreak)
    ensures prev.Some? ==> r.runs == prev.value.runs + 1
    ensures prev.Some? ==> r.best == (if cur.score > prev.value.best.score then cur else prev.value.best)
    ensures prev.Some? ==> r.worst == (if cur.score < prev.value.worst.score then cur else prev.value.worst)
  {
    match prev
    case None => Record(cur, cur, cur, 1, cur.longestStreak)
    case Some(rec) =>
      var t := rec.total;
      var total := Stats(
        t.perfect + cur.perfect, t.great + cur.great, t.good + cur.good,
        t.okay + cur.okay, t.miss + cur.miss, t.score + cur.score,
        MaxInt(t.longestStreak, cur.longestStreak));
      Record(
        if cur.score > rec.best.score then cur else rec.best,
        if cur.score < rec.worst.score then cur else rec.worst,
        total,
        rec.runs + 1,
        MaxInt(rec.longestStreak, cur.longestStreak))
  }

  /** The record left by a sequence of runs on a fingerprint that had none. */
  function Replay(runs: seq<Stats>): (r: Option<Record>)
    ensures r.None? <==> runs == []
  {
    if runs == [] then None else Some(RecordRun(Replay(runs[..|runs| - 1]), runs[|runs| - 1]))
  }

  /** The sum of one field over all runs. */
  function Sum(runs: seq<Stats>, f: Stats -> int): int {
    if runs == [] then 0 else Sum(runs[..|runs| - 1], f) + f(runs[|runs| - 1])
  }

  /** The largest longest streak of any run. */
  function MaxStreak(runs: seq<Stats>): (m: int)
    requires runs != []
    ensures forall k :: 0 <= k < |runs| ==> runs[k].longestStreak <= m
    ensures exists k :: 0 <= k < |runs| && runs[k].longestStreak == m
  {
    if |runs| == 1 then runs[0].longestStreak
    else
      var init := runs[..|runs| - 1];
      var m := MaxStreak(init);
      assert forall k :: 0 <= k < |init| ==> runs[k] == init[k];
      MaxInt(m, runs[|runs| - 1].longestStreak)
  }

  /** Run `i` has the highest score, and every earlier run a strictly lower one. */
  ghost predicate EarliestBest(runs: seq<Stats>, i: int) {
    0 <= i < |runs| &&
    (forall k :: 0 <= k < |runs| ==> runs[k].score <= runs[i].score) &&
    (forall k :: 0 <= k < i ==> runs[k].score < runs[i].score)
  }

  /** Run `i` has the lowest score, and every earlier run a strictly higher one. */
  ghost predicate EarliestWorst(runs: seq<Stats>, i: int) {
    0 <= i < |runs| &&
    (forall k :: 0 <= k < |runs| ==> runs[i].score <= runs[k].score) &&
    (forall k :: 0 <= k < i ==> runs[i].score < runs[k].score)
  }

  /**
   * After a non-empty sequence of runs the record counts the runs, totals
   * every count and the score, and holds the longest streak of any run (in
   * both places where it keeps one).
   */
  lemma {:induction false} ReplayTotals(runs: seq<Stats>)
    requires runs != []
    ensures var r := Replay(runs).value;
      && r.runs == |runs|
      && r.total.perfect == Sum(runs, (s: Stats) => s.perfect)
      && r.total.great == Sum(runs, (s: Stats) => s.great)
      && r.total.good == Sum(runs, (s: Stats) => s.good)
      && r.total.okay == Sum(runs, (s: Stats) => s.okay)
      && r.total.miss == Sum(runs, (s: Stats) => s.miss)
      && r.total.score == Sum(runs, (s: Stats) => s.score)
      && r.total.longestStreak == MaxStreak(runs)
      && r.longestStreak == MaxStreak(runs)
  {
    if |runs| > 1 {
      ReplayTotals(runs[..|runs| - 1]);
    }
  }

  /** The best run on record is the first run with the highest score. */
  lemma {:induction false} ReplayBest(runs: seq<Stats>)
    requires runs != []
    ensures exists i :: EarliestBest(runs, i) && Replay(runs).value.best == runs[i]
  {
    var init := runs[..|runs| - 1];
    var cur := runs[|runs| - 1];
    if init == [] {
      assert EarliestBest(runs, 0);
    } else {
      ReplayBest(init);
      var p := Replay(init).value;
      assert forall k :: 0 <= k < |init| ==> runs[k] == init[k];
      var bi :| EarliestBest(init, bi) && p.best == init[bi];
      if cur.score > p.best.score {
        assert EarliestBest(runs, |runs| - 1);
      } else {
        assert EarliestBest(runs, bi);
      }
    }
  }

  /** The worst run on record is the first run with the lowest score. */
  lemma {:induction false} ReplayWorst(runs: seq<Stats>)
    requires runs != []
    ensures exists i :: EarliestWorst(runs, i) && Replay(runs).value.worst == runs[i]
  {
    var init := runs[..|runs| - 1];
    var cur := runs[|runs| - 1];
    if init == [] {
      assert EarliestWorst(runs, 0);
    } else {
      ReplayWorst(init);
      var p := Replay(init).value;
      assert forall k :: 0 <= k < |init| ==> runs[k] == init[k];
      var wi :| EarliestWorst(init, wi) && p.worst == init[wi];
      if cur.score < p.worst.score {
        assert EarliestWorst(runs, |runs| - 1);
      } else {
        assert EarliestWorst(runs, wi);
      }
    }
  }

  /** The best run's score never falls and the worst run's never rises. */
  lemma RecordRunMonotone(rec: Record, cur: Stats)
    ensures RecordRun(Some(rec), cur).best.score >= rec.best.score
    ensures RecordRun(Some(rec), cur).best.score >= cur.score
    ensures RecordRun(Some(rec), cur).worst.score <= rec.worst.score
    ensures RecordRun(Some(rec), cur).worst.score <= cur.score
    ensures RecordRun(Some(rec), cur).longestStreak >= rec.longestStreak
  {
  }

  /** A run that only ties the best score leaves the earlier best run in place. */
  lemma TieKeepsEarlierBest(rec: Record, cur: Stats)
    requires cur.score == rec.best.score && cur != rec.best
    ensures RecordRun(Some(rec), cur).best == rec.best
  {
  }
}
