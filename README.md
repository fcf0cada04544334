# A verified model of the page.js rhythm-game engine

`page.js` is a browser rhythm game. A chart is a list of notes, each with a
time in milliseconds and a lane. Players (or the built-in autoplay) activate
lanes. Each activation is judged against the nearest unjudged note of its
lane, in one of four tiers (Perfect, Great, Good, Okay). Notes left more than
50 ms overdue are swept as misses. Score, combo, longest combo and per-tier
counters follow every judgement. A transport clock handles the count-in
("pre-roll"), play, pause, resume, rewind and loop. Finished runs are folded
into a per-chart record of best, worst and total results.

This project models that core in Dafny and proves what it promises:

- `Judgment`: the tier windows and `judgeDelta`.
- `Selection`: which note an activation binds to (the scan of `tryHitLane`)
  and the nearest-wins rule with its tie-break.
- `Notes`: the note record, the reset of a note's runtime fields and counts
  over a note list.
- `Autoplay`: the per-note decisions of the realistic autoplay planner (the
  random aim offset, planning once per mode, the flip to will-miss).
- `Chart`: the frame decoder of `parseData` (trim, bit string to lanes, sort,
  normalise) and its inverse, `makeBitStringFromLanes`.
- `History`: `updateHighScore`'s per-fingerprint record, as a fold over runs.
- `Engine`: the page's mutable state as the class `Game`. Its fields are the
  globals of page.js:98-112 plus the five result counters the page keeps in
  the DOM. Its methods are the operations that change that state: the clock,
  `tryHitLane`, the late-miss sweep, `autoPlayStep`, the pre-roll, completion
  and per-frame parts of `draw`, and the load and play buttons. Every method that
  starts from a valid state keeps the invariant `Valid()`. `ResetStats`,
  `AdoptChart` and `UpdateHighScore` are steps inside such methods and do not
  promise it on their own. `Valid()` says:
  - the working notes have the schedule of the pristine copy;
  - `judgedCount` is the number of judged notes;
  - the tier counters add up to the hit notes, and the miss counter to the
    missed notes;
  - the score is the points of the hits;
  - no combo exceeds the number of hits;
  - a playing clock has a start.

Inputs from outside the program become parameters:

- `now` stands for `performance.now()`, sampled once per operation.
- `PlanDraws` holds the `Math.random()` values one planning of a note
  consumes, one per note.
- `ChartInput` is an already-parsed text area: its frames plus the
  fingerprint of its text.
- The autoplay switch, the mode selector and the loop switch are plain
  arguments.

Some behaviours of page.js that a reader might not expect, all modelled as
the code has them:

- Bits 2..15 of a frame decode to lanes 0..13 (page.js:501-504), while 12
  lanes have keys and `makeBitStringFromLanes` (page.js:514-520) writes only
  lanes 0..11. A chart with bit 14 or 15 set holds notes in lanes 12 and 13,
  which no key can hit. `Chart.DecodeAdmitsLaneBeyondKeys` shows one.
- When `playGame` (page.js:713-721) starts without a start time, it sets the
  start to `now - preRollMs - pausedAt`, so the song position is
  `preRollMs + pausedAt` at once. `Engine.Game.PlayGame` states this.
  `playGame` has no caller in page.js: the count-in starts play through the
  pre-roll part of `draw`.
- The load button (page.js:616-636) pauses and rewinds but leaves
  `prerolling` as it is, so a count-in in progress runs on after a load.
- page.js:839-844 drops a plan made under a mode other than the selected
  one. Plans are only made outside perfect mode, so the drop takes effect
  only when the selector holds a value other than the two modes page.js
  declares. An empty selection means realistic (page.js:826-829).
- Autoplay skips the visit of a will-miss note (page.js:880), but the
  activation another note of the same lane fires (page.js:889) binds the
  nearest unjudged note of the lane (page.js:774-783), and that may be the
  will-miss note. `Engine.WillMissNoteCanBeStruck` shows one, struck with a
  Perfect.

## Model

| member | source | states |
|---|---|---|
| Judgment.JudgeDelta | page.js:753-764 | judged exactly when abs(delta) <= 30 ms; the tier returned is the tightest whose window holds abs(delta) |
| Judgment.TiersOrdered | page.js:33-36 | tighter tiers have strictly narrower windows and strictly more points |
| Judgment.JudgeDeltaSymmetric | page.js:753-764 | an early and a late activation of the same size are judged alike |
| Judgment.JudgeDeltaMonotone | page.js:753-764 | a closer activation is never judged in a worse tier nor scores fewer points |
| Selection.NearestAmong | page.js:774-783 | the scan over the first m notes yields the closest candidate (same lane, unjudged, within 30 ms), with an earlier one winning ties, or none when no candidate exists |
| Selection.Nearest | page.js:774-785 | the bound note is the nearest candidate; there is none exactly when no note is a candidate |
| Selection.NearestUnique | page.js:774-783 | the nearest-wins rule with its strict tie-break determines a single note |
| Selection.NearestOnTime | page.js:833-835 | a candidate exactly on the activation time binds when no earlier candidate is on time too |
| Selection.NearestPrefersCloserLaterNote | page.js:774-783 | notes at 0 and 15 ms and an activation at 8 ms: the later, closer note binds |
| Selection.FindTarget | page.js:772-783 | the loop of tryHitLane computes exactly the nearest candidate |
| Selection.Activation | page.js:766-788 | an activation binds the nearest candidate and judges it in the tier of its delta; the "no judgement" exit is never taken |
| Selection.StrikeKeepsJudged | page.js:790-791 | a successful activation changes only the bound note, which was unjudged; no judged note changes |
| Notes.ResetNote | page.js:193-201 | a reset note is fresh (not judged, not hit, no plan) and keeps its time and lane |
| Notes.ResetNotes | page.js:664-668 | the cloned and reset list has the same schedule as the original and only fresh notes |
| Notes.ResetForgetsRun | page.js:664-677 | rebuilding from the pristine copy or from the working copy gives the same fresh list |
| Notes.ResetFreshIsIdentity | page.js:618-627 | cloning and resetting an already-fresh list (the second clone of the load button) changes nothing |
| Notes.CountIfUpdate | page.js:790-791 | replacing one note changes a count by exactly the difference of the two notes |
| Notes.CountIfAll | page.js:1069 | a count matches every note of a list exactly when every note matches |
| Engine.Swept | page.js:957-967 | the reference sweep: one entry per note, each note swept on its own; its properties are stated by SweptFacts and SweptLater |
| Engine.SweptFacts | page.js:957-967 | the sweep turns exactly the overdue notes into misses, leaves none overdue and touches no judged note |
| Engine.SweptLater | page.js:957-967 | sweeping at an earlier and then a later time equals one sweep at the later time |
| Engine.SweptBeforeStart | page.js:921-967 | during the count-in (tick time <= 0) the sweep changes nothing on a decoded chart |
| Engine.AutoOutcomeFacts | page.js:831-889 | autoplay only hits: a note it judges is a hit, a judged note is untouched, and an unjudged note carries the plan of its visit |
| Engine.WillMissNoteCanBeStruck | page.js:774-783 | a note planned as a will-miss is struck, with a Perfect, by the activation a later note of its lane fires (page.js:880-889) |
| Engine.MaxTime | page.js:1077 | the largest note time: an upper bound attained by some note |
| Engine.Lookup | page.js:328-330 | `scoreHistory.get`: present exactly when the key is, with its record |
| Engine.AddHit | page.js:799-804 | one more hit: exactly the counter of the judged tier rises by one, the other tiers and the miss counter are unchanged, and the weighted sum grows by the tier's points |
| Engine.AfterHit | page.js:792-798 | a hit raises judgedCount and combo by one, the score by the tier's points, and the longest combo to the larger of itself and the new combo |
| Engine.AfterHits | page.js:792-798 | h hits of one tier raise judgedCount and combo by h, the score by h times the tier's points, and, when h > 0, the longest combo to the larger of itself and the new combo |
| Engine.AfterHitsAdd | page.js:792-798 | a hits followed by b hits of one tier are a + b hits |
| Engine.HitsSinceStep | page.js:790-804 | one more step that adds one strike to the notes and the counters, or none to both, keeps the counters in step with the hits made since the start of the pass |
| Engine.AfterMiss | page.js:958-963 | a late miss raises judgedCount by one, zeroes the combo and keeps score and longest combo |
| Engine.AfterMisses | page.js:957-967 | n misses in one sweep raise judgedCount by n and break the combo only if n > 0 |
| Engine.FreshCounts | page.js:178-201 | a fresh list has no judged, hit or missed note, so zeroed counters agree with it |
| Engine.StruckCounts | page.js:790-797 | striking an unjudged note adds one judged note and one hit and no miss |
| Engine.MissedCounts | page.js:959-961 | sweeping an unjudged note adds one judged note and one miss and no hit |
| Engine.PlanCounts | page.js:839-885 | changing a plan leaves every count alone |
| Engine.Game.CurrentTime | page.js:164-167 | 0 when not playing or without a start; otherwise max(0, now - start); never negative |
| Engine.Game.HitTime | page.js:768-771 | the forced time when one is given, else the song position, which is never negative |
| Engine.Game.AllJudged | page.js:1069 | every note of a non-empty chart is judged: the judged notes are all of them |
| Engine.Game.RunStats | page.js:317-325 | the stats read from the counters: when those agree with the notes, the tier counts add up to the hit notes, the misses to the missed notes, the score is the points of the hits and the longest streak is at most the hits |
| Engine.Game.constructor | page.js:98-112 | the initial state: no notes, zeroed counters, stopped, no count-in, empty record |
| Engine.Game.ResetStats | page.js:178-191 | score, combo, longest combo, judgedCount and the five counters are zero |
| Engine.Game.SeekToStart | page.js:661-679 | notes become a fresh copy of the pristine chart, the counters are zeroed, the clock is stopped at 0, and the invariant holds |
| Engine.Game.AdoptChart | page.js:681-688 | the pristine copy becomes the fresh decoded chart, and its fingerprint becomes current |
| Engine.Game.StartPreRoll | page.js:681-711 | loads the text area only when no chart is kept; then notes are fresh, counters zero, the clock stopped at 0 and the count-in ends preRollMs after now |
| Engine.Game.PlayButton | page.js:638-651 | with no chart kept, the generated chart becomes the pristine copy; then the count-in starts as in StartPreRoll |
| Engine.Game.PlayGame | page.js:713-721 | a no-op when playing; resuming sets the start to now - pausedAt, so the song position is pausedAt; a fresh start sets it to now - preRollMs - pausedAt, so the position is preRollMs + pausedAt |
| Engine.Game.PauseGame | page.js:723-727 | a no-op when paused; otherwise pausedAt is the song position at the pause |
| Engine.Game.PauseThenResume | page.js:713-727 | pausing and then resuming continues from the same song position, with the start moved to now2 minus that position: no jump |
| Engine.Game.TryHitLane | page.js:766-817 | nothing changes during the count-in or without a candidate; otherwise exactly the nearest candidate is struck and the counters follow AfterHit and AddHit with its tier; the invariant holds |
| Engine.Game.ScoreHit | page.js:790-805 | the note is struck, no other note changes, and the counters follow the tier |
| Engine.Game.SweepOne | page.js:958-966 | one note of the sweep: an overdue note becomes a miss with the counters after a miss; otherwise nothing changes |
| Engine.Game.SweepLateMisses | page.js:957-967 | notes become the swept list; judgedCount and the miss counter rise by the number of overdue notes, and the combo breaks if there was one |
| Engine.Game.SetPlan | page.js:839-885 | only the plan of one note changes, and the invariant holds |
| Engine.Game.AutoPlayStep | page.js:822-891 | nothing during the count-in or with autoplay off; in perfect mode every due unjudged note is hit with a Perfect, and the counters rise by that many Perfect hits; in realistic mode every note ends in an admissible outcome, and the counters grow by exactly the new hits, each in the tier of its delta |
| Engine.Game.PerfectVisit | page.js:832-836 | a due unjudged note is activated at its own time and that very note is struck with a Perfect; the counters take one Perfect hit exactly then |
| Engine.Game.PerfectPass | page.js:831-836 | after the pass every unjudged note due by t is hit; with h such notes, judgedCount, combo and the Perfect counter grow by h, the score by 300h, the longest combo becomes the larger of itself and the new combo (when h > 0), and no other counter changes |
| Engine.Game.PerfectStep | page.js:831-836 | one step of the pass keeps the loop's account: notes before the step are in their perfect outcome, later ones untouched, and the counters hold the Perfect hits so far |
| Engine.Game.PlanVisit | page.js:839-888 | the note's plan becomes PlanAfter, and the visit fires exactly when Fires holds |
| Engine.Game.RealisticVisit | page.js:831-889 | a judged note is skipped; an unjudged one is planned, and a firing visit strikes what an activation at the song position binds; the counters take that one hit in its tier, or stay unchanged |
| Engine.Game.RealisticPass | page.js:831-890 | every note of the pass ends in an outcome AutoOutcome admits, and the counters grow by exactly the hits the pass made, each in the tier of its delta, with no miss added |
| Engine.Game.RealisticVisitKeeps | page.js:831-890 | a visit keeps every earlier note's outcome admissible, and a later note is untouched or struck |
| Engine.Game.RealisticStep | page.js:831-890 | one step of the pass keeps the loop's account: earlier notes in an admissible outcome, later ones untouched or struck, the counters in step with the hits made |
| Engine.Game.RealisticVisitHits | page.js:880-889 | a visit adds one hit exactly when it strikes |
| Engine.Game.RealisticVisitTier | page.js:790-804 | a visit adds one hit of a tier exactly when it strikes in that tier |
| Engine.Game.AdvancePreRoll | page.js:921-951 | outside the count-in the tick time is the song position; during it the tick time is negative and nothing changes; at its end play starts at position 0 |
| Engine.Game.UpdateHighScore | page.js:317-372 | the current fingerprint's record becomes RecordRun of the old record and this run's stats |
| Engine.Game.FinishIfComplete | page.js:1069-1081 | unless every note is judged while playing, nothing changes; otherwise the run is recorded under the current fingerprint, and then with loop on the chart restarts fresh with a count-in at position 0, and with loop off only the clock stops, 50 ms after the last note |
| Engine.Game.RestartRun | page.js:1072-1074 | with loop on, the chart is kept, its notes become fresh, the counters zero, the clock stopped at 0, and the count-in ends preRollMs after now |
| Engine.Game.StopAtEnd | page.js:1076-1078 | paused, with the position 50 ms after the last note |
| Engine.Game.Tick | page.js:921-1081 | one frame keeps the invariant; during the count-in no note and no counter changes |
| Engine.Game.LoadChart | page.js:616-636 | the pristine copy and the working notes are the fresh decoded chart (empty when not JSON), counters zero, clock stopped at 0 |
| Autoplay.ResolveMode | page.js:826-829 | a non-empty selection is the mode; an empty selection means realistic |
| Autoplay.AimOffset | page.js:855-875 | for draws in [0, 1) the offset is below 30 ms, and each accuracy band lies inside one tier's window |
| Autoplay.AimTier | page.js:855-875 | an activation on the planned target is judged in the tier of its accuracy band |
| Autoplay.NewPlan | page.js:849-878 | a new plan carries the mode; it is a will-miss exactly when the miss draw is below 0.12, and otherwise aims within 30 ms of the note |
| Autoplay.PlanAfter | page.js:839-887 | a visit's plan carries the current mode, and a hitting plan made within the lookahead has a target no more than 30 ms behind the tick time |
| Autoplay.Fires | page.js:880-889 | a firing visit holds a hitting plan of the current mode |
| Autoplay.PlanAfterOk | page.js:839-887 | a visit keeps plans sound: a hitting plan has a target within 30 ms of its note |
| Autoplay.PlanOnce | page.js:849-878 | a plan of the current mode is never redrawn; at most it turns into a will-miss |
| Autoplay.StalePlanDiscarded | page.js:839-844 | a plan of another mode counts for nothing: the visit treats the note as unplanned |
| Autoplay.NoPlanAhead | page.js:846-847 | notes more than 200 ms ahead get no new plan and fire nothing |
| Autoplay.PlannedWithinLookahead | page.js:846-878 | every note within the lookahead leaves its visit with a plan of the current mode |
| Autoplay.OvershootFlips | page.js:882-887 | a hitting plan overshot by more than 30 ms becomes a will-miss and does not fire |
| Autoplay.WillMissSticks | page.js:880 | a will-miss plan of the current mode is never changed and never fires |
| Autoplay.FiresNearNote | page.js:882-889 | a firing visit activates within 48 ms before and 60 ms after its note |
| Chart.TrimStartSpec | page.js:494 | the start trim drops exactly the leading run of JavaScript white space |
| Chart.TrimEndSpec | page.js:494 | the end trim drops exactly the trailing run of JavaScript white space |
| Chart.Trim | page.js:494 | the result is the input with exactly its leading and trailing runs of JavaScript white space removed: a slice of the input, everything cut is white space, and neither end of the result is |
| Chart.LanesUpToSpec | page.js:501-504 | bits 2..i-1 yield exactly the lanes whose bit is '1', each once, in increasing order |
| Chart.InsertPermutes | page.js:507 | inserting adds exactly the one note |
| Chart.SortByTime | page.js:507 | the sorted list is in time order and as long as its input |
| Chart.SortPermutes | page.js:507 | sorting only reorders: the result is a permutation of its input |
| Chart.SortSortedIsIdentity | page.js:507 | a list already in time order is returned unchanged |
| Chart.InsertStable | page.js:507 | inserting into a sorted list puts the new note after every note of the same time |
| Chart.SortStable | page.js:507 | the sort is stable: the notes of any one time keep their input order |
| Chart.PushFrameNotes | page.js:501-504 | the inner loop appends one fresh note per '1' among bits 2..15, in bit order |
| Chart.FrameNotesShape | page.js:489-504 | every note one frame contributes is fresh and lies in lanes 0..13 |
| Chart.RawNotesShape | page.js:489-505 | every note collected from the frames, before sorting, is fresh and lies in lanes 0..13 |
| Chart.CollectFrameNotes | page.js:489-505 | the frame loop collects the notes of every well-formed frame, in frame order |
| Chart.NormaliseTimes | page.js:508-509 | every time is reduced by the time of the first note |
| Chart.DecodeFrames | page.js:488-511 | the loops of parseData compute Decode |
| Chart.ShiftSorted | page.js:508-509 | moving all notes by the same amount keeps time order |
| Chart.SortShift | page.js:507-509 | shifting commutes with sorting |
| Chart.DecodeNormalised | page.js:507-509 | the decoded chart is in time order, its first note is at 0 and no time is negative |
| Chart.DecodeFreshNotes | page.js:500-504 | every decoded note is fresh and lies in lanes 0..13 |
| Chart.DecodePermutes | page.js:489-509 | the decoded chart holds exactly the frames' notes, each moved by the earliest time |
| Chart.MalformedFrameSkipped | page.js:500 | a frame with a non-finite time or a trimmed bit string not 16 long adds no note |
| Chart.DecodeOneFrame | page.js:489-511 | a single clean frame decodes to its lanes' notes, all at time 0 |
| Chart.DecodeAdmitsLaneBeyondKeys | page.js:501-504 | a '1' at bit 15 decodes to lane 13, beyond the 12 keyed lanes |
| Chart.MakeBitStringFromLanes | page.js:514-520 | 16 characters of '0'/'1'; bit l+2 is '1' exactly when l is a keyed lane in the list |
| Chart.BitStringLanes | page.js:514-520 | the lanes read back from an encoded bit string are exactly its keyed lanes |
| Chart.RoundTrip | page.js:514-520 | decoding one frame of makeBitStringFromLanes(L) yields one fresh note at time 0 per distinct keyed lane of L, in increasing lane order |
| History.RecordRun | page.js:328-371 | the first run is best, worst and total; a later one adds a run and replaces best or worst only on a strictly higher or lower score |
| History.Replay | page.js:328-371 | a record exists exactly when some run was folded in |
| History.MaxStreak | page.js:367-370 | the longest streak of any run: an upper bound attained by some run |
| History.ReplayTotals | page.js:338-371 | after any runs the record counts them, totals every counter and the score, and holds the longest streak of all |
| History.ReplayBest | page.js:361-363 | the best run on record is the first run with the highest score |
| History.ReplayWorst | page.js:364-366 | the worst run on record is the first run with the lowest score |
| History.RecordRunMonotone | page.js:361-371 | best never falls, worst never rises, the longest streak never falls |
| History.TieKeepsEarlierBest | page.js:361-363 | a run that only ties the best score leaves the earlier best run in place |

## Left out

- Drawing: canvas and layout, note positions (`_y`, `DROP_MS`), floating texts and their lifetime, the countdown text and the time display. These are pixels, not state the rules depend on.
- The results overlay, Chart.js pie charts and summary items (`showResults` and its helpers). They are UI over a library that is not part of this model.
- Keyboard, pointer, slider and button wiring, and `init`. An activation is `TryHitLane(lane, forcedTime, now)`. The pre-roll slider is the field `preRollMs`. The restart button is `StartPreRoll`.
- `JSON.parse`, its `alert`, and the shape sniffing of `parseData` (a bare array, `frames` or `data`). The model starts from the frames as `Frame` values, and a text that does not parse is `None`. The coercions `+entry[0]` and `String(...)` are folded into `Frame`: a non-finite time is `None`.
- `hashData`: the fingerprint is an opaque string carried by `ChartInput`.
- `generateRandomData` and `generateSample`: their output is the `generated` parameter of `Engine.Game.PlayButton`.
- `performance.now()` is read once per operation as `now`. page.js samples it several times within one frame of `draw`, microseconds apart.
- `Math.random()` is the per-note `PlanDraws`, and every planning uses all four draws. page.js draws one, three or four values, in the same order, as needed.
- Floating point: times are exact reals, so the model has no rounding.
- The `??= 0` fallbacks of `updateHighScore` apply only to records with missing fields. Records are only ever created whole, so those fallbacks are never taken.
- Engine.Game.AutoPlayStep: page.js tests the mode for every note inside one loop. The mode is fixed for the pass, so the model runs one loop per mode (`PerfectPass`, `RealisticPass`).
- Engine.Game.StartPreRoll: its rewind repeats the steps of `seekToStart` one by one, and the model calls `SeekToStart` for them.
- Engine.Game.Tick: states only the invariant and the count-in frame. The later steps of a frame are stated by the methods it calls (`AdvancePreRoll`, `SweepLateMisses`, `AutoPlayStep`, `FinishIfComplete`).
- Engine.Game.RealisticPass: states an admissible outcome per note and ties the counters to the hits made, but does not say which activation strikes which note. That depends on how activations made for earlier notes bind notes further down the list.
- A frame that is `null` (or `undefined`) inside the frame list: page.js:496 then reads `entry.t` and throws a TypeError. By that point page.js:476 has already set `currentDataHash` to the new text's fingerprint, while the notes stay those of the previous chart. The model's frames are `Frame` values, so every frame list decodes, and `LoadChart` changes the fingerprint only together with the notes.
- String lengths: `bits.length` and `bits[i]` in page.js:500-502 count UTF-16 code units, and the model counts characters. A bit string with a character outside the Basic Multilingual Plane is one unit longer in page.js for each such character. page.js may then decode a frame the model skips, or skip one the model decodes, and the bits after that character sit one position later.
