# Rhythm-game timing and judgment core, in Dafny

This project models the timing and judgment core of a four-lane tap-note rhythm
game, and proves properties of that model.

- **Chart scheduler** (`Notes.NoteManager`, `note_manager.dfy`). A spawn cursor
  walks a time-sorted chart. Every note due within 2000 ms of the current time
  becomes an active note. Each frame recomputes every unhit note's height from
  `time - now`. It drops hit notes and notes two units or more below the
  judgment line. A lane press resolves the unhit note of that lane nearest to
  the line, marks it hit and returns its signed timing error.
- **Judgment engine** (`Scoring.JudgmentSystem`, `judgment_system.dfy`). It
  classifies `|timing error|` against the nested 50/100/150 ms windows. It then
  updates the combo, the best combo, one counter per class and the score, which
  includes a combo bonus.
- **Constant tables** (`Constants`, `constants.dfy`): the judgment windows, base
  scores, key and lane tables, and the scene geometry.

Both stateful entities are classes whose methods change their fields, as in the
source. The active-note list is a `seq` of note records. The counters are a
`Counts` record with one field per judgment class, like the source's counter
object with its four fixed keys. Each class has a `Valid()` invariant and a ghost
record of the run:
- `hitIds` holds the chart indices of the notes resolved since the last reset.
- `history` holds the outcomes judged since the last reset.

Every field of the judgment engine is a pure function of `history`: `ComboAfter`,
`MaxComboAfter`, `TotalAfter` and `Tally`. `Tally` is proved equal to the
independent per-class count `CountOf`. The lemmas about the run are proved
about those functions.

Exact integer arithmetic replaces the source's floating point:
- **Geometry** is kept in thousandths of a scene unit. The height
  `-8 + (time - now)/1000 * 5` becomes `-8000 + 5 * (time - now)`. A note is
  kept while that is above `-10000`, which is exactly `time - now > -400` ms.
- **Score** is kept as a running total in hundredths of a point. Each judgment
  adds `base * (100 + combo)` instead of `base * (1 + combo * 0.01)`. The
  reported score is that total divided by 100, i.e. its floor.

The stable sort in `hitNote` has a comparator that uses the distance to the line.
`FindNearest` models it as a linear scan that keeps the first strictly nearer
candidate. The function `Nearest` defines the same choice recursively, and
`IsNearest` states what the stable sort puts first; the scan, the function and
the predicate are proved to agree. Among equally near candidates the choice is
the earliest entry of the active list, which is the lowest chart index.

Three behaviours of the code are worth stating plainly, since a reader might
expect otherwise:
- Activation uses a hard-coded lookahead of 2000 ms (src/game/NoteManager.js:17),
  not the time a note needs to fall from the spawn height. After the frame that
  activates it a note is therefore at height at most 2 (at most 10 units above
  the line), so never at the spawn height 20 (`Notes.ActivatedBelowSpawn`). It is
  exactly at 2 only when that frame falls exactly 2000 ms before the note is due
  (`Notes.ActivationHeight`).
- Only the running total is floored, not each award. Three GOODs in a row give
  50.5 + 51 + 51.5 = 153 points; flooring each award would give 50 + 51 + 51 = 152
  (`Scoring.ScenarioThreeGoods`).
- Only a press sets `hit` (src/game/NoteManager.js:51). A note that scrolls past
  the margin without a press is just filtered out (src/game/NoteManager.js:35).
  It is never judged, so it is not counted as MISS and does not reset the combo.
  The model does the same.

## Model

| member | source | states |
|---|---|---|
| `Constants.WindowsNested` | src/utils/constants.js:2-6 | a better class has a strictly narrower window (50 < 100 < 150), so the windows are nested |
| `Constants.ScoresDecrease` | src/utils/constants.js:9-14 | base scores strictly decrease from GREAT to MISS, and MISS is worth 0 |
| `Constants.LanesDistinct` | src/utils/constants.js:17-29 | exactly four lanes, indexed 0..3, each with a distinct key code taken from the key table |
| `Constants.FindLane` | src/components/GameScene.jsx:93 | returns the first lane index at or after `from` whose key is the code, or -1 exactly when no such lane exists |
| `Constants.LaneOfKey` | src/components/GameScene.jsx:93 | the key-to-lane lookup gives a lane in 0..3 bound to that code, or -1 exactly when no lane is |
| `Constants.GeometryConsistent` | src/utils/constants.js:32-37 | the speed is positive and the judgment line (-8) lies below the spawn point (20), so notes fall toward the line |
| `Scoring.Classify` | src/game/JudgmentSystem.js:17-32 | the outcome admits the error (MISS admits everything) and no better class admits it: the tightest admitting class |
| `Scoring.ClassifyBands` | src/game/JudgmentSystem.js:20-32 | GREAT iff abs(e) <= 50, GOOD iff 50 < abs(e) <= 100, NORMAL iff 100 < abs(e) <= 150, MISS otherwise |
| `Scoring.ClassifySymmetric` | src/game/JudgmentSystem.js:17 | e and -e get the same class |
| `Scoring.ClassifyMonotone` | src/game/JudgmentSystem.js:17-32 | a larger absolute error never gets a better class |
| `Scoring.AwardShape` | src/game/JudgmentSystem.js:35 | an award is 0 exactly for MISS; a hit earns at least its base score, and strictly more with a longer combo |
| `Scoring.ComboIsTrailingRun` | src/game/JudgmentSystem.js:20-32 | the combo is the length of the run of non-MISS outcomes that ends the history |
| `Scoring.MaxComboIsPeak` | src/game/JudgmentSystem.js:36 | the best combo is at least every combo reached since reset, and equals one of them |
| `Scoring.ComboAtMostMax` | src/game/JudgmentSystem.js:36 | the combo never exceeds the best combo |
| `Scoring.CountsSum` | src/game/JudgmentSystem.js:34 | the four per-class counts add up to the number of judgments since reset |
| `Scoring.TotalMonotone` | src/game/JudgmentSystem.js:35 | the running total and its floor never decrease along the run |
| `Scoring.StepEffect` | src/game/JudgmentSystem.js:20-36 | one outcome: a hit adds 1 to the combo and MISS resets it; the best combo becomes the larger of the two; the total grows by the award at the new combo (0 for MISS); the counters are bumped at that class only |
| `Scoring.ScenarioThreeGoods` | src/game/JudgmentSystem.js:35-41 | three GOODs earn 50.5, 51 and 51.5 (at combos 1, 2, 3), a total of 153.00 points, reported as 153: the floor is taken of the running total, not of each award |
| `Scoring.ScenarioGreatThenNormal` | src/game/JudgmentSystem.js:16-42 | 30 ms is GREAT with combo 1 and score 101; then 120 ms is NORMAL with combo 2 and score 121 |
| `Scoring.ScenarioGreatThenMiss` | src/game/JudgmentSystem.js:16-42 | 40 ms then 500 ms: one GREAT and one MISS, combo 0, best combo 1 |
| `Scoring.ZeroCounts` | src/game/JudgmentSystem.js:8-13 | the initial counters: one per class, all zero |
| `Scoring.Counts.Bump` | src/game/JudgmentSystem.js:34 | the counter of the judged class goes up by 1 and every other counter is unchanged |
| `Scoring.TallyCounts` | src/game/JudgmentSystem.js:34 | the counters built from all zeros by one bump per outcome hold, for every class, the number of outcomes of that class |
| `Scoring.StepKeeps` | src/game/JudgmentSystem.js:20-36 | statistics that match a history, advanced by one judgment as judge does, match the history extended by that judgment |
| `Scoring.JudgmentSystem.constructor` | src/game/JudgmentSystem.js:4-14 | a fresh engine: zero score, combo and best combo, all counters zero, empty history |
| `Scoring.JudgmentSystem.Judge` | src/game/JudgmentSystem.js:16-42 | outcome = Classify(e); combo +1 or reset to 0; only that counter +1; best combo = max(old, new combo); total grows by the award, never decreases, unchanged on MISS; returns outcome, combo and floored total; the invariant ties every field to the history |
| `Scoring.JudgmentSystem.Reset` | src/game/JudgmentSystem.js:45-55 | zeroes score, combo, best combo and every counter, whatever the old state (so it is idempotent) |
| `Scoring.JudgmentSystem.GetResults` | src/game/JudgmentSystem.js:57-63 | mutates nothing; reports the floored total, the best combo (at least the current combo) and the counters, which sum to the number of judgments |
| `Scoring.ResetThenSnapshot` | src/game/JudgmentSystem.js:45-63 | reset followed by a snapshot reports score 0, best combo 0 and all counters 0 |
| `Scoring.ScenarioGreatThenNormalRun` | src/game/JudgmentSystem.js:16-42 | on a fresh engine, judge(30) returns (GREAT, 1, 101) and judge(120) returns (NORMAL, 2, 121) |
| `Notes.PositionShape` | src/game/NoteManager.js:33-34 | a note is on the line iff it is due now and above it iff due later; its distance to the line is 5 times the absolute time difference |
| `Notes.PositionFalls` | src/game/NoteManager.js:33-34 | as the time advances, a note's height strictly decreases |
| `Notes.KeptWithin400` | src/game/NoteManager.js:32-37 | the filter keeps a note iff it is unhit and due less than 400 ms ago |
| `Notes.ActivationHeight` | src/game/NoteManager.js:17 | a note exactly 2000 ms ahead is at height 2 (2000 milli-units), below the spawn height 20 |
| `Notes.ActivatedBelowSpawn` | src/game/NoteManager.js:17 | a note the cursor activates (due within 2000 ms) is at height at most 2, below the spawn height 20 |
| `Notes.SpawnEnd` | src/game/NoteManager.js:15-18 | the cursor stops at the first note from the old cursor on that is more than 2000 ms ahead, or at the end of the chart; every note it passes is due within 2000 ms |
| `Notes.SpawnEndCoversDue` | src/game/NoteManager.js:15-18 | with a sorted chart, every note at or after the old cursor that is due within 2000 ms lies before the new cursor |
| `Notes.Spawned` | src/game/NoteManager.js:19-27 | the notes activated for entries from..stop-1, in cursor order, with id = chart index, lane and time copied, unhit |
| `Notes.Retained` | src/game/NoteManager.js:31-38 | the filter pass: at most as long as its input; every retained note is unhit and at the height for the current time; `Projected(m, now)`, the note `m` with only its height recomputed, is what a kept note becomes (`Notes.RetainedSound`, `Notes.RetainedComplete`) |
| `Notes.RetainedSound` | src/game/NoteManager.js:31-38 | every retained note is a kept note of the input with its height recomputed |
| `Notes.RetainedComplete` | src/game/NoteManager.js:31-38 | every kept note of the input is retained with its height recomputed |
| `Notes.RetainedOrdered` | src/game/NoteManager.js:31 | filtering keeps strictly increasing ids |
| `Notes.RetainedSingle` | src/game/NoteManager.js:31-38 | a one-note list keeps its note, re-projected, exactly when it is kept |
| `Notes.Reproject` | src/game/NoteManager.js:31-38 | the loop that computes the filter pass equals the filter-pass function |
| `Notes.Nearest` | src/game/NoteManager.js:44-49 | the lane's choice is -1 or an index of the list, and an index is always an unhit note of the lane |
| `Notes.NearestIsNearest` | src/game/NoteManager.js:44-49 | `Nearest` is -1 exactly when the lane has no unhit note; otherwise it is the entry the stable sort puts first |
| `Notes.NearestUnique` | src/game/NoteManager.js:44-49 | at most one entry is the one the stable sort puts first, so the choice is determined |
| `Notes.NearestHasLeastError` | src/game/NoteManager.js:44-50 | with heights current and ids increasing, the chosen note has the smallest absolute timing error among the lane's candidates, and ties go to the lowest chart index |
| `Notes.FindNearest` | src/game/NoteManager.js:44-49 | the scan finds exactly the entry `Nearest` names: found iff the lane has an unhit note, and the one found is nearest to the line and strictly nearer than every earlier candidate |
| `Notes.SpawnedExtends` | src/game/NoteManager.js:15-28 | appending the activated notes to the list keeps ids strictly increasing and every entry a copy of its chart entry below the new cursor; no activated note is already hit |
| `Notes.RetainedConsistent` | src/game/NoteManager.js:31-38 | the filter pass leaves ids increasing, entries matching the chart, heights current, no hit note, nothing due 400 ms ago or more, and only notes that were kept or newly activated |
| `Notes.FrameConsistent` | src/game/NoteManager.js:11-38 | one whole frame keeps the list consistent; with a sorted chart every note due within 2000 ms is activated |
| `Notes.MarkHitConsistent` | src/game/NoteManager.js:49-51 | marking the chosen unhit note hit keeps the list consistent, with its id newly recorded as hit |
| `Notes.NoteManager.constructor` | src/game/NoteManager.js:4-9 | a fresh scheduler over the chart: no active notes, cursor 0, time 0 |
| `Notes.NoteManager.Update` | src/game/NoteManager.js:11-41 | the cursor moves to SpawnEnd and never backwards; the new list is the filter pass over the old list plus the spawned notes; every remaining note is unhit, at the height for now, and due less than 400 ms ago; no hit note remains; every remaining note was already active and kept, or is newly spawned; with a sorted chart every note due within 2000 ms has been activated; returns the list |
| `Notes.NoteManager.HitNote` | src/game/NoteManager.js:43-56 | not found, with nothing changed, iff the lane has no unhit active note, which holds for a lane outside 0..3 when the chart's lanes are in range; otherwise the entry `Nearest` names (the stable sort's first) alone becomes hit, and its `time - currentTime` and id are returned; an id is never returned twice since reset |
| `Notes.NoteManager.Reset` | src/game/NoteManager.js:58-62 | no active notes, cursor 0, time 0, the chart kept, whatever the old state (so it is idempotent) |
| `Notes.SameLaneFrame` | src/game/NoteManager.js:11-41 | chart notes in lane 0 at 1000 and 1050 ms, one frame at 1020 ms: both are active, at heights -8.1 and -7.85 |
| `Notes.SameLanePresses` | src/game/NoteManager.js:43-56 | on that list lane 0 picks the note due at 1000 ms; once it is hit, lane 0 picks the other note |
| `Notes.ScenarioSameLane` | src/game/NoteManager.js:43-56 | two lane-0 notes due at 1000 and 1050, two presses at 1020: the first resolves the note due at 1000 (error -20), the second the note due at 1050 (error 30) |
| `Notes.SingleNoteSteps` | src/game/NoteManager.js:11-56 | the values behind the one-note run: activated at height -3 at 0 ms, at height -8 (the line) at 1000 ms, then lane 2's pick; an error of 0 is GREAT |
| `Notes.ScenarioSingleNote` | src/game/NoteManager.js:11-56 | one note due at 1000: at 0 ms it is active 5 units above the line, at 1000 ms it is on the line, and a press resolves it with error 0, which is judged GREAT |

## Left out

- Floating point: the IEEE-754 rounding of `/ 1000 * 5` and of `0.01` is not modelled. Exact integer arithmetic is used instead, as described above.
- Aliasing is not modelled: `update` returns the same array object as its `activeNotes` field, and note objects are shared with whoever holds that array. Notes here are values, so a `hitNote` after a frame does not show up in a snapshot taken earlier.
- The filter callback also writes the new height into expired notes before dropping them. Nothing can observe a dropped note except through a shared reference, so this is not modelled.
- The `deltaTime` argument of `update` is kept but is unused, as in the source.
- The chart's `duration` is carried in `Chart` but not used by the core. The end-of-run test (`currentTime > duration` with no active notes) belongs to the host loop in `src/components/GameScene.jsx`.
- The host loop is not part of this model: the wall clock, key listeners, feedback timers, React state, three.js meshes (`src/components/GameScene.jsx`), screens, avatar and assets.
- How the two classes interact is not modelled. In particular, an expired unhit note never reaches `judge`, so it is never counted as MISS.
- The song list and its JSON charts are not part of this model. A chart is a `seq` of `(lane, time)`. Sortedness is a hypothesis of the properties that need it, never a precondition of the operations.
- The colours and x positions in the lane table, and `NOTE_SIZE`, are kept as data: strings, and integers in milli-units. Nothing is proved about them beyond what they are.
- The clock's monotonicity is not assumed anywhere. The source does not check it, and no operation here needs it.
