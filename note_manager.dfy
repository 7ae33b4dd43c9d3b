/**
 * The chart scheduler: a spawn cursor over a time-sorted chart, the list of
 * active notes with their projected positions, and the lane-press lookup.
 *
 * Times are integer milliseconds. Positions are integer milli-units:
 * y = JUDGMENT_LINE_Y + (time - now) / 1000 * NOTE_SPEED units is exactly
 * JUDGMENT_LINE_Y_MILLI + (time - now) * NOTE_SPEED milli-units.
 */
module Notes {
  import opened Constants
  import Scoring

  /** How far ahead (ms) of the current time a note is activated. */
  const LOOKAHEAD_MS: int := 2000
  /** A note this far (milli-units) or farther below the judgment line is dropped. */
  const MISS_MARGIN_MILLI: int := 2000

  /** One chart entry. */
  datatype ChartNote = ChartNote(lane: int, time: int)

  /** A chart: its notes and its duration in ms. */
  datatype Chart = Chart(notes: seq<ChartNote>, duration: int)

  /** A note on screen: its chart index, lane and time, its position and whether it was hit. */
  datatype ActiveNote = ActiveNote(id: nat, lane: int, time: int, y: int, hit: bool)

  /** What a lane press resolves to. */
  datatype HitResult = NotFound | Found(timingError: int, noteId: nat)

  ghost predicate Sorted(notes: seq<ChartNote>)
  {
    forall i, j :: 0 <= i < j < |notes| ==> notes[i].time <= notes[j].time
  }

  /** Position (milli-units) at time `now` of a note due at `time`. */
  function Position(time: int, now: int): int
  {
    JUDGMENT_LINE_Y_MILLI + (time - now) * NOTE_SPEED
  }

  /** A note due now is on the judgment line; a later note is above it, an earlier one below. */
  lemma PositionShape(time: int, now: int)
    ensures Position(time, now) == JUDGMENT_LINE_Y_MILLI <==> time == now
    ensures Position(time, now) > JUDGMENT_LINE_Y_MILLI <==> time > now
    ensures Abs(Position(time, now) - JUDGMENT_LINE_Y_MILLI) == NOTE_SPEED * Abs(time - now)
  {
  }

  /** A note exactly the lookahead ahead of the current time is 10 units above the line, at height 2. */
  lemma ActivationHeight(now: int)
    ensures Position(now + LOOKAHEAD_MS, now) == 2000
    ensures Position(now + LOOKAHEAD_MS, now) < SPAWN_DISTANCE_MILLI
  {
  }

  /**
   * A note activated in a frame is due within the lookahead, so it is at most
   * 10 units above the line and never at the spawn height 20.
   */
  lemma ActivatedBelowSpawn(time: int, now: int)
    requires time <= now + LOOKAHEAD_MS
    ensures Position(time, now) <= 2000 < SPAWN_DISTANCE_MILLI
  {
  }

  /** As time advances a note moves strictly down, toward and past the judgment line. */
  lemma PositionFalls(time: int, now1: int, now2: int)
    requires now1 < now2
    ensures Position(time, now2) < Position(time, now1)
  {
  }

  /** The filter's test: the note is unhit and not more than the margin below the line. */
  predicate Kept(n: ActiveNote, now: int)
  {
    !n.hit && Position(n.time, now) > JUDGMENT_LINE_Y_MILLI - MISS_MARGIN_MILLI
  }

  /** A note is dropped once it is two units or more below the line, i.e. 400 ms or more late. */
  lemma KeptWithin400(n: ActiveNote, now: int)
    ensures Kept(n, now) <==> !n.hit && n.time - now > -400
  {
  }

  /** The note with its position recomputed for time `now`. */
  function Projected(n: ActiveNote, now: int): ActiveNote
  {
    n.(y := Position(n.time, now))
  }

  /**
   * Where the spawn cursor stops: the first index at or after `from` whose
   * note is more than the lookahead after `now`, or the end of the chart.
   */
  function SpawnEnd(notes: seq<ChartNote>, from: nat, now: int): (r: nat)
    requires from <= |notes|
    ensures from <= r <= |notes|
    ensures forall i :: from <= i < r ==> notes[i].time <= now + LOOKAHEAD_MS
    ensures r == |notes| || notes[r].time > now + LOOKAHEAD_MS
    decreases |notes| - from
  {
    if from == |notes| || notes[from].time > now + LOOKAHEAD_MS then from
    else SpawnEnd(notes, from + 1, now)
  }

  /** With a sorted chart, every note due within the lookahead lies before the cursor's stop. */
  lemma SpawnEndCoversDue(notes: seq<ChartNote>, from: nat, now: int, i: nat)
    requires Sorted(notes) && from <= i < |notes|
    requires notes[i].time <= now + LOOKAHEAD_MS
    ensures i < SpawnEnd(notes, from, now)
  {
  }

  /** The active note created for chart entry `i`. */
  function Spawn(notes: seq<ChartNote>, i: nat): ActiveNote
    requires i < |notes|
  {
    ActiveNote(i, notes[i].lane, notes[i].time, SPAWN_DISTANCE_MILLI, false)
  }

  /** The active notes created, in cursor order, for chart entries from..stop-1. */
  function Spawned(notes: seq<ChartNote>, from: nat, stop: nat): (r: seq<ActiveNote>)
    requires from <= stop <= |notes|
    ensures |r| == stop - from
    ensures forall k :: 0 <= k < |r| ==> r[k] == Spawn(notes, from + k)
    decreases stop - from
  {
    if from == stop then [] else Spawned(notes, from, stop - 1) + [Spawn(notes, stop - 1)]
  }

  /** The filter pass: kept notes, in order, with their positions recomputed. */
  function Retained(s: seq<ActiveNote>, now: int): (r: seq<ActiveNote>)
    ensures |r| <= |s|
    ensures forall n <- r :: !n.hit && n.y == Position(n.time, now)
  {
    if s == [] then []
    else
      var rest := Retained(s[..|s| - 1], now);
      var last := s[|s| - 1];
      if Kept(last, now) then rest + [Projected(last, now)] else rest
  }

  /** Everything retained is the projection of a kept note of the input. */
  lemma {:induction false} RetainedSound(s: seq<ActiveNote>, now: int)
    ensures forall n <- Retained(s, now) :: exists m <- s :: Kept(m, now) && n == Projected(m, now)
  {
    if s != [] {
      var p := s[..|s| - 1];
      RetainedSound(p, now);
      forall n <- Retained(s, now) ensures exists m <- s :: Kept(m, now) && n == Projected(m, now) {
        if n in Retained(p, now) {
          var m :| m in p && Kept(m, now) && n == Projected(m, now);
          assert m in s;
        } else {
          assert s[|s| - 1] in s;
        }
      }
    }
  }

  /** Every kept note of the input is retained, with its position recomputed. */
  lemma {:induction false} RetainedComplete(s: seq<ActiveNote>, now: int)
    ensures forall m <- s :: Kept(m, now) ==> Projected(m, now) in Retained(s, now)
  {
    if s != [] {
      var p := s[..|s| - 1];
      RetainedComplete(p, now);
      forall m <- s | Kept(m, now) ensures Projected(m, now) in Retained(s, now) {
        if m != s[|s| - 1] {
          var k :| 0 <= k < |s| && s[k] == m;
          assert p[k] == m;
        }
      }
    }
  }

  /** Strictly increasing ids: the order in which notes were activated. */
  ghost predicate IdsIncreasing(s: seq<ActiveNote>)
  {
    forall i, j :: 0 <= i < j < |s| ==> s[i].id < s[j].id
  }

  /** Filtering keeps the activation order. */
  lemma {:induction false} RetainedOrdered(s: seq<ActiveNote>, now: int)
    requires IdsIncreasing(s)
    ensures IdsIncreasing(Retained(s, now))
  {
    if s != [] {
      var p := s[..|s| - 1];
      RetainedOrdered(p, now);
      RetainedSound(p, now);
      var rest := Retained(p, now);
      var last := s[|s| - 1];
      forall n <- rest ensures n.id < last.id {
        var m :| m in p && Kept(m, now) && n == Projected(m, now);
        var k :| 0 <= k < |p| && p[k] == m;
      }
      if Kept(last, now) {
        var r := rest + [Projected(last, now)];
        forall i, j | 0 <= i < j < |r| ensures r[i].id < r[j].id {
          if j == |r| - 1 {
            assert r[i] in rest;
          }
        }
      }
    }
  }

  /** A note that lane `lane` may resolve. */
  predicate IsCandidate(n: ActiveNote, lane: int)
  {
    n.lane == lane && !n.hit
  }

  /** Distance (milli-units) of a note from the judgment line. */
  function Distance(n: ActiveNote): nat
  {
    Abs(n.y - JUDGMENT_LINE_Y_MILLI)
  }

  /**
   * Entry `k` is what a stable sort of the lane's candidates by distance puts
   * first: a candidate, no farther than any other, and strictly nearer than
   * every candidate before it.
   */
  ghost predicate IsNearest(notes: seq<ActiveNote>, lane: int, k: int)
  {
    && 0 <= k < |notes|
    && IsCandidate(notes[k], lane)
    && (forall j :: 0 <= j < |notes| && IsCandidate(notes[j], lane) ==> Distance(notes[k]) <= Distance(notes[j]))
    && (forall j :: 0 <= j < k && IsCandidate(notes[j], lane) ==> Distance(notes[k]) < Distance(notes[j]))
  }

  /** At most one entry is the nearest one, so the choice is determined. */
  lemma NearestUnique(notes: seq<ActiveNote>, lane: int, k1: int, k2: int)
    requires IsNearest(notes, lane, k1) && IsNearest(notes, lane, k2)
    ensures k1 == k2
  {
  }

  /**
   * When every unhit note's position is the one for time `now` and the notes
   * are in activation order, the nearest entry has the smallest |timing error|
   * among the candidates, and among equal errors the lowest chart index.
   */
  lemma NearestHasLeastError(notes: seq<ActiveNote>, lane: int, k: int, now: int)
    requires IsNearest(notes, lane, k) && IdsIncreasing(notes)
    requires forall n <- notes :: !n.hit ==> n.y == Position(n.time, now)
    ensures forall j :: 0 <= j < |notes| && IsCandidate(notes[j], lane) ==>
      Abs(notes[k].time - now) <= Abs(notes[j].time - now)
    ensures forall j :: 0 <= j < |notes| && IsCandidate(notes[j], lane) && Abs(notes[k].time - now) == Abs(notes[j].time - now) ==>
      notes[k].id <= notes[j].id
  {
    forall j | 0 <= j < |notes| && IsCandidate(notes[j], lane)
      ensures Distance(notes[j]) == NOTE_SPEED * Abs(notes[j].time - now)
    {
      assert notes[j] in notes;
      PositionShape(notes[j].time, now);
    }
    assert notes[k] in notes;
    PositionShape(notes[k].time, now);
  }

  /**
   * The entry a stable sort of the lane's unhit notes by distance puts first,
   * or -1 when the lane has none: the first strictly nearest candidate.
   */
  function Nearest(notes: seq<ActiveNote>, lane: int): (k: int)
    ensures -1 <= k < |notes|
    ensures k != -1 ==> IsCandidate(notes[k], lane)
  {
    if notes == [] then -1
    else
      var p := Nearest(notes[..|notes| - 1], lane);
      var i := |notes| - 1;
      if IsCandidate(notes[i], lane) && (p == -1 || Distance(notes[i]) < Distance(notes[p])) then i else p
  }

  /** `Nearest` finds a candidate exactly when there is one, and it is the nearest entry. */
  lemma {:induction false} NearestIsNearest(notes: seq<ActiveNote>, lane: int)
    ensures Nearest(notes, lane) == -1 <==> forall j :: 0 <= j < |notes| ==> !IsCandidate(notes[j], lane)
    ensures Nearest(notes, lane) != -1 ==> IsNearest(notes, lane, Nearest(notes, lane))
  {
    if notes != [] {
      var q := notes[..|notes| - 1];
      NearestIsNearest(q, lane);
      forall j | 0 <= j < |q| ensures q[j] == notes[j] { }
    }
  }

  /**
   * The lane-press lookup: the entry a stable sort of the lane's unhit notes
   * by distance to the line would put first, if there is one.
   */
  method FindNearest(notes: seq<ActiveNote>, lane: int) returns (found: bool, k: nat)
    ensures found <==> Nearest(notes, lane) != -1
    ensures found ==> k == Nearest(notes, lane)
    ensures found <==> exists j :: 0 <= j < |notes| && IsCandidate(notes[j], lane)
    ensures found ==> IsNearest(notes, lane, k)
  {
    found, k := false, 0;
    var i := 0;
    while i < |notes|
      invariant 0 <= i <= |notes|
      invariant found <==> Nearest(notes[..i], lane) != -1
      invariant found ==> k == Nearest(notes[..i], lane)
    {
      assert notes[..i + 1][..i] == notes[..i];
      if IsCandidate(notes[i], lane) && (!found || Distance(notes[i]) < Distance(notes[k])) {
        found, k := true, i;
      }
      i := i + 1;
    }
    assert notes[..i] == notes;
    NearestIsNearest(notes, lane);
  }

  /**
   * The per-frame filter pass: recompute the position of every unhit note
   * and keep it while it is no more than the margin below the line.
   */
  method Reproject(notes: seq<ActiveNote>, now: int) returns (kept: seq<ActiveNote>)
    ensures kept == Retained(notes, now)
  {
    kept := [];
    var i := 0;
    while i < |notes|
      invariant 0 <= i <= |notes|
      invariant kept == Retained(notes[..i], now)
    {
      var note := notes[i];
      assert notes[..i + 1][..i] == notes[..i];
      if !note.hit {
        note := note.(y := JUDGMENT_LINE_Y_MILLI + (note.time - now) * NOTE_SPEED);
        if note.y > JUDGMENT_LINE_Y_MILLI - MISS_MARGIN_MILLI {
          kept := kept + [note];
        }
      }
      i := i + 1;
    }
    assert notes[..i] == notes;
  }

  /** Every entry of `s` is chart entry `id` of `notes` with an id below `bound`. */
  ghost predicate FromChart(s: seq<ActiveNote>, notes: seq<ChartNote>, bound: nat)
  {
    forall n <- s :: n.id < bound && n.id < |notes| && n.lane == notes[n.id].lane && n.time == notes[n.id].time
  }

  /**
   * The bookkeeping of an active list: activation order, entries taken from
   * the chart below `bound`, unhit positions current for `now`, and hit flags
   * exactly on the notes whose id is in `hitIds`.
   */
  ghost predicate Consistent(s: seq<ActiveNote>, notes: seq<ChartNote>, bound: nat, hitIds: set<nat>, now: int)
  {
    && IdsIncreasing(s)
    && FromChart(s, notes, bound)
    && (forall n <- s :: !n.hit ==> n.y == Position(n.time, now))
    && (forall n <- s :: n.hit <==> n.id in hitIds)
  }

  /** Activating chart entries from..stop-1 behind a consistent list keeps ids increasing and chart-backed. */
  lemma SpawnedExtends(before: seq<ActiveNote>, notes: seq<ChartNote>, from: nat, stop: nat, hitIds: set<nat>)
    requires from <= stop <= |notes|
    requires IdsIncreasing(before) && FromChart(before, notes, from)
    requires forall n <- before :: n.hit <==> n.id in hitIds
    requires forall id <- hitIds :: id < from
    ensures IdsIncreasing(before + Spawned(notes, from, stop))
    ensures FromChart(before + Spawned(notes, from, stop), notes, stop)
    ensures forall n <- before + Spawned(notes, from, stop) :: !n.hit ==> n.id !in hitIds
    ensures forall n <- before + Spawned(notes, from, stop) :: n.id >= from || n in before
  {
    var sp := Spawned(notes, from, stop);
    var pending := before + sp;
    forall i, j | 0 <= i < j < |pending| ensures pending[i].id < pending[j].id {
      if i < |before| && j >= |before| {
        assert pending[i] in before;
        assert pending[j] == sp[j - |before|];
      } else if i >= |before| {
        assert pending[i] == sp[i - |before|] && pending[j] == sp[j - |before|];
      }
    }
    forall n <- pending
      ensures n.id < stop && n.id < |notes| && n.lane == notes[n.id].lane && n.time == notes[n.id].time
      ensures n.id >= from || n in before
      ensures !n.hit ==> n.id !in hitIds
    {
      var k :| 0 <= k < |pending| && pending[k] == n;
      if k >= |before| {
        assert n == sp[k - |before|];
      } else {
        assert n == before[k];
      }
    }
  }

  /** The filter pass turns such a list into a consistent one with no hit note and nothing past the margin. */
  lemma RetainedConsistent(pending: seq<ActiveNote>, before: seq<ActiveNote>, notes: seq<ChartNote>, from: nat, bound: nat, hitIds: set<nat>, now: int)
    requires IdsIncreasing(pending) && FromChart(pending, notes, bound)
    requires forall n <- pending :: !n.hit ==> n.id !in hitIds
    requires forall n <- pending :: n.id >= from || n in before
    ensures Consistent(Retained(pending, now), notes, bound, hitIds, now)
    ensures forall n <- Retained(pending, now) :: n.id !in hitIds && n.time - now > -400
    ensures forall n <- Retained(pending, now) :: n.id >= from || exists m <- before :: m.id == n.id && Kept(m, now)
  {
    RetainedOrdered(pending, now);
    RetainedSound(pending, now);
    forall n <- Retained(pending, now)
      ensures n.id < bound && n.id < |notes| && n.lane == notes[n.id].lane && n.time == notes[n.id].time
      ensures n.id !in hitIds && n.time - now > -400
      ensures n.id >= from || exists m <- before :: m.id == n.id && Kept(m, now)
    {
      var m :| m in pending && Kept(m, now) && n == Projected(m, now);
      KeptWithin400(m, now);
    }
  }

  /**
   * One frame on a consistent list: activating the entries up to the cursor's
   * stop and filtering gives a consistent list, with no hit note, nothing past
   * the margin, and, on a sorted chart, every note due within the lookahead
   * activated.
   */
  lemma FrameConsistent(before: seq<ActiveNote>, notes: seq<ChartNote>, from: nat, stop: nat, hitIds: set<nat>, now: int)
    requires from <= |notes| && stop == SpawnEnd(notes, from, now)
    requires IdsIncreasing(before) && FromChart(before, notes, from)
    requires forall n <- before :: n.hit <==> n.id in hitIds
    requires forall id <- hitIds :: id < from
    ensures Consistent(Retained(before + Spawned(notes, from, stop), now), notes, stop, hitIds, now)
    ensures forall n <- Retained(before + Spawned(notes, from, stop), now) :: n.id !in hitIds && n.time - now > -400
    ensures forall n <- Retained(before + Spawned(notes, from, stop), now) ::
      n.id >= from || exists m <- before :: m.id == n.id && Kept(m, now)
    ensures Sorted(notes) ==> forall i :: 0 <= i < |notes| && notes[i].time <= now + LOOKAHEAD_MS ==> i < stop
  {
    SpawnedExtends(before, notes, from, stop, hitIds);
    RetainedConsistent(before + Spawned(notes, from, stop), before, notes, from, stop, hitIds, now);
    if Sorted(notes) {
      forall i | 0 <= i < |notes| && notes[i].time <= now + LOOKAHEAD_MS ensures i < stop {
        if i >= from {
          SpawnEndCoversDue(notes, from, now, i);
        }
      }
    }
  }

  /** Marking the unhit entry `k` hit and recording its id keeps the list consistent. */
  lemma MarkHitConsistent(s: seq<ActiveNote>, notes: seq<ChartNote>, bound: nat, hitIds: set<nat>, now: int, k: nat)
    requires Consistent(s, notes, bound, hitIds, now)
    requires k < |s| && !s[k].hit
    ensures s[k].id !in hitIds
    ensures Consistent(s[k := s[k].(hit := true)], notes, bound, hitIds + {s[k].id}, now)
  {
    var s' := s[k := s[k].(hit := true)];
    var ids := hitIds + {s[k].id};
    assert s[k] in s;
    forall n <- s' ensures n.hit <==> n.id in ids {
      var i :| 0 <= i < |s'| && s'[i] == n;
      if i != k {
        assert s[i] in s;
        assert s[i].id != s[k].id by {
          if i < k { assert s[i].id < s[k].id; } else { assert s[k].id < s[i].id; }
        }
      }
    }
    forall n <- s' ensures !n.hit ==> n.y == Position(n.time, now) {
      var i :| 0 <= i < |s'| && s'[i] == n;
      assert s[i] in s;
    }
    forall n <- s' ensures n.id < bound && n.id < |notes| && n.lane == notes[n.id].lane && n.time == notes[n.id].time {
      var i :| 0 <= i < |s'| && s'[i] == n;
      assert s[i] in s;
    }
  }

  class NoteManager {
    const chart: Chart
    var activeNotes: seq<ActiveNote>
    var currentTime: int
    var noteIndex: nat
    /** The ids of the notes hit since the last reset. */
    ghost var hitIds: set<nat>

    ghost predicate Valid()
      reads this
    {
      && noteIndex <= |chart.notes|
      && Consistent(activeNotes, chart.notes, noteIndex, hitIds, currentTime)
      && (forall id <- hitIds :: id < noteIndex)
    }

    constructor (chartData: Chart)
      ensures Valid() && chart == chartData
      ensures activeNotes == [] && currentTime == 0 && noteIndex == 0 && hitIds == {}
    {
      chart := chartData;
      activeNotes := [];
      currentTime := 0;
      noteIndex := 0;
      hitIds := {};
    }

    /**
     * One frame: activate the notes due within the lookahead, then recompute
     * every unhit note's position and drop hit notes and notes past the margin.
     * `deltaTime` is unused, as in the source.
     */
    method Update(deltaTime: int, now: int) returns (snapshot: seq<ActiveNote>)
      requires Valid()
      modifies this
      ensures Valid() && hitIds == old(hitIds)
      ensures currentTime == now
      ensures noteIndex == SpawnEnd(chart.notes, old(noteIndex), now)
      ensures activeNotes == Retained(old(activeNotes) + Spawned(chart.notes, old(noteIndex), noteIndex), now)
      ensures snapshot == activeNotes
      ensures old(noteIndex) <= noteIndex
      ensures forall n <- activeNotes :: !n.hit && n.y == Position(n.time, now) && n.time - now > -400
      ensures forall n <- activeNotes :: n.id !in hitIds
      ensures forall n <- activeNotes :: n.id >= old(noteIndex) || exists m <- old(activeNotes) :: m.id == n.id && Kept(m, now)
      ensures Sorted(chart.notes) ==>
        forall i :: 0 <= i < |chart.notes| && chart.notes[i].time <= now + LOOKAHEAD_MS ==> i < noteIndex
    {
      currentTime := now;
      ghost var before := activeNotes;

      // Activation scan.
      while noteIndex < |chart.notes| && chart.notes[noteIndex].time <= now + LOOKAHEAD_MS
        invariant old(noteIndex) <= noteIndex <= SpawnEnd(chart.notes, old(noteIndex), now)
        invariant activeNotes == before + Spawned(chart.notes, old(noteIndex), noteIndex)
        invariant currentTime == now && hitIds == old(hitIds)
        decreases |chart.notes| - noteIndex
      {
        assert Spawned(chart.notes, old(noteIndex), noteIndex + 1)
          == Spawned(chart.notes, old(noteIndex), noteIndex) + [Spawn(chart.notes, noteIndex)];
        activeNotes := activeNotes + [Spawn(chart.notes, noteIndex)];
        noteIndex := noteIndex + 1;
      }
      FrameConsistent(before, chart.notes, old(noteIndex), noteIndex, hitIds, now);

      // Position update and filter.
      var kept := Reproject(activeNotes, now);
      activeNotes := kept;
      snapshot := activeNotes;
    }

    /**
     * A press in `lane`: resolve the nearest unhit note of that lane, mark it
     * hit and return its signed timing error and chart index.
     */
    method HitNote(lane: int) returns (r: HitResult)
      requires Valid()
      modifies this
      ensures Valid()
      ensures noteIndex == old(noteIndex) && currentTime == old(currentTime)
      ensures var k := Nearest(old(activeNotes), lane);
        if k == -1 then
          r == NotFound && activeNotes == old(activeNotes) && hitIds == old(hitIds)
        else
          && r == Found(old(activeNotes)[k].time - currentTime, old(activeNotes)[k].id)
          && activeNotes == old(activeNotes)[k := old(activeNotes)[k].(hit := true)]
          && hitIds == old(hitIds) + {r.noteId}
          && r.noteId !in old(hitIds)
      ensures r.NotFound? <==> forall n <- old(activeNotes) :: !IsCandidate(n, lane)
      ensures r.Found? ==> IsNearest(old(activeNotes), lane, Nearest(old(activeNotes), lane))
      ensures (forall n <- chart.notes :: 0 <= n.lane < LANE_COUNT) && !(0 <= lane < LANE_COUNT) ==> r.NotFound?
    {
      var found, k := FindNearest(activeNotes, lane);
      if found {
        var note := activeNotes[k];
        var timingError := note.time - currentTime;
        MarkHitConsistent(activeNotes, chart.notes, noteIndex, hitIds, currentTime, k);
        activeNotes := activeNotes[k := note.(hit := true)];
        hitIds := hitIds + {note.id};
        r := Found(timingError, note.id);
        if (forall n <- chart.notes :: 0 <= n.lane < LANE_COUNT) && !(0 <= lane < LANE_COUNT) {
          assert old(activeNotes)[k] in old(activeNotes);
          assert chart.notes[note.id] in chart.notes;
        }
      } else {
        r := NotFound;
      }
    }

    /** A new run: no active notes, the cursor and the clock back at 0, the chart kept. */
    method Reset()
      modifies this
      ensures Valid()
      ensures activeNotes == [] && noteIndex == 0 && currentTime == 0 && hitIds == {}
    {
      activeNotes := [];
      noteIndex := 0;
      currentTime := 0;
      hitIds := {};
    }
  }

  /** A chart of one note: the list after a frame lists exactly that note, if it is kept. */
  lemma RetainedSingle(n: ActiveNote, now: int)
    ensures Retained([n], now) == if Kept(n, now) then [Projected(n, now)] else []
  {
    assert [n][..0] == [];
  }

  /** The frame of the two-press scenario: at 1020 ms both lane-0 notes are active, 20 ms past and 30 ms before the line. */
  lemma SameLaneFrame()
    ensures var notes := [ChartNote(0, 1000), ChartNote(0, 1050)];
      && SpawnEnd(notes, 0, 1020) == 2
      && Retained([] + Spawned(notes, 0, 2), 1020) == [ActiveNote(0, 0, 1000, -8100, false), ActiveNote(1, 0, 1050, -7850, false)]
  {
    var notes := [ChartNote(0, 1000), ChartNote(0, 1050)];
    var s0 := Spawn(notes, 0);
    var s1 := Spawn(notes, 1);
    assert SpawnEnd(notes, 0, 1020) == 2;
    assert Spawned(notes, 0, 2) == [s0, s1];
    assert [] + [s0, s1] == [s0, s1];
    assert [s0, s1][..1] == [s0];
    RetainedSingle(s0, 1020);
    assert Retained([s0, s1], 1020) == Retained([s0], 1020) + [Projected(s1, 1020)];
  }

  /** The presses of the two-press scenario: the first picks the note due at 1000, the second then the other one. */
  lemma SameLanePresses()
    ensures Nearest([ActiveNote(0, 0, 1000, -8100, false), ActiveNote(1, 0, 1050, -7850, false)], 0) == 0
    ensures Nearest([ActiveNote(0, 0, 1000, -8100, false), ActiveNote(1, 0, 1050, -7850, false)][0 := ActiveNote(0, 0, 1000, -8100, true)], 0) == 1
  {
    var a := ActiveNote(0, 0, 1000, -8100, false);
    var b := ActiveNote(1, 0, 1050, -7850, false);
    var a' := a.(hit := true);
    assert [a, b][..1] == [a];
    assert Nearest([a], 0) == 0 by { assert [a][..0] == []; }
    assert [a, b][0 := a'] == [a', b];
    assert [a', b][..1] == [a'];
    assert Nearest([a'], 0) == -1 by { assert [a'][..0] == []; }
  }

  /**
   * Two notes in lane 0 due at 1000 ms and 1050 ms, pressed twice at 1020 ms:
   * the first press resolves the note due at 1000 (20 ms late), the second
   * the note due at 1050 (30 ms early).
   */
  method ScenarioSameLane() returns (first: HitResult, second: HitResult)
    ensures first == Found(-20, 0) && second == Found(30, 1)
  {
    var nm := new NoteManager(Chart([ChartNote(0, 1000), ChartNote(0, 1050)], 3000));
    var active := nm.Update(0, 1020);
    SameLaneFrame();
    SameLanePresses();
    first := nm.HitNote(0);
    second := nm.HitNote(0);
  }

  /**
   * The values behind the one-note scenario: activated at 0 ms 5 units above
   * the line, on the line at 1000 ms, and then the lane's nearest note, judged
   * GREAT for an error of 0.
   */
  lemma SingleNoteSteps()
    ensures var notes := [ChartNote(2, 1000)];
      && SpawnEnd(notes, 0, 0) == 1
      && Retained([] + Spawned(notes, 0, 1), 0) == [ActiveNote(0, 2, 1000, -3000, false)]
      && SpawnEnd(notes, 1, 1000) == 1
      && Retained([ActiveNote(0, 2, 1000, -3000, false)] + Spawned(notes, 1, 1), 1000) == [ActiveNote(0, 2, 1000, -8000, false)]
      && Nearest([ActiveNote(0, 2, 1000, -8000, false)], 2) == 0
      && Scoring.Classify(1000 - 1000) == Great
  {
    var notes := [ChartNote(2, 1000)];
    var early := ActiveNote(0, 2, 1000, -3000, false);
    var on := ActiveNote(0, 2, 1000, -8000, false);
    assert SpawnEnd(notes, 0, 0) == 1;
    assert Spawned(notes, 0, 1) == [Spawn(notes, 0)];
    assert [] + [Spawn(notes, 0)] == [Spawn(notes, 0)];
    RetainedSingle(Spawn(notes, 0), 0);
    assert SpawnEnd(notes, 1, 1000) == 1;
    assert Spawned(notes, 1, 1) == [];
    assert [early] + [] == [early];
    RetainedSingle(early, 1000);
    assert [on][..0] == [];
  }

  /**
   * One note due at 1000 ms: a frame at 0 ms activates it 5 units above the
   * line, a frame at 1000 ms puts it on the line, and a press then resolves
   * it with a timing error of 0, which is judged GREAT.
   */
  method ScenarioSingleNote() returns (early: seq<ActiveNote>, due: seq<ActiveNote>, hit: HitResult)
    ensures early == [ActiveNote(0, 2, 1000, JUDGMENT_LINE_Y_MILLI + 5000, false)]
    ensures due == [ActiveNote(0, 2, 1000, JUDGMENT_LINE_Y_MILLI, false)]
    ensures hit == Found(0, 0) && Scoring.Classify(hit.timingError) == Great
  {
    var nm := new NoteManager(Chart([ChartNote(2, 1000)], 2000));
    SingleNoteSteps();
    early := nm.Update(0, 0);
    due := nm.Update(16, 1000);
    hit := nm.HitNote(2);
  }
}
