/**
 * The constant tables of the game: judgment windows, base scores, key and
 * lane tables, and the scene geometry.
 *
 * Every geometric quantity is kept in integer thousandths of a scene unit
 * ("milli-units"), so that the scroll arithmetic of the scheduler is exact.
 * With this unit a note speed of 5 units per second is 5 milli-units per
 * millisecond.
 */
module Constants {

  /** The four judgment classes, from best to worst. */
  datatype Judgment = Great | Good | Normal | Miss

  /** Position of a class in the order best to worst. */
  function Rank(j: Judgment): nat
  {
    match j
    case Great => 0
    case Good => 1
    case Normal => 2
    case Miss => 3
  }

  // Judgment windows: the largest |timing error| (ms) each class admits.
  const GREAT_WINDOW_MS: nat := 50
  const GOOD_WINDOW_MS: nat := 100
  const NORMAL_WINDOW_MS: nat := 150

  /** The window of a named class; MISS has none, it covers everything wider. */
  function Window(j: Judgment): nat
    requires j != Miss
  {
    match j
    case Great => GREAT_WINDOW_MS
    case Good => GOOD_WINDOW_MS
    case Normal => NORMAL_WINDOW_MS
  }

  /** Base score of each class. */
  function BaseScore(j: Judgment): nat
  {
    match j
    case Great => 100
    case Good => 50
    case Normal => 20
    case Miss => 0
  }

  /** A better class has a strictly narrower window, so the windows are nested. */
  lemma WindowsNested(a: Judgment, b: Judgment)
    requires a != Miss && b != Miss
    ensures Rank(a) < Rank(b) <==> Window(a) < Window(b)
  {
  }

  /** A better class is worth strictly more, and MISS is worth nothing. */
  lemma ScoresDecrease(a: Judgment, b: Judgment)
    ensures Rank(a) < Rank(b) <==> BaseScore(a) > BaseScore(b)
    ensures BaseScore(Miss) == 0
  {
  }

  /** The key table: letter to keyboard code. */
  const KEYS: map<char, string> := map['D' := "KeyD", 'F' := "KeyF", 'J' := "KeyJ", 'K' := "KeyK"]

  /** One lane: its key code, its colour and its x position (milli-units). */
  datatype Lane = Lane(key: string, color: string, xMilli: int)

  const LANE_COUNT: nat := 4

  /** The lane table, indexed 0..3. */
  const LANES: seq<Lane> := [
    Lane("KeyD", "#FF6B6B", -1500),
    Lane("KeyF", "#4ECDC4", -500),
    Lane("KeyJ", "#FFE66D", 500),
    Lane("KeyK", "#95E1D3", 1500)
  ]

  /** There are exactly four lanes, each bound to a distinct key of the key table. */
  lemma LanesDistinct()
    ensures |LANES| == LANE_COUNT
    ensures forall i, j :: 0 <= i < j < |LANES| ==> LANES[i].key != LANES[j].key
    ensures forall i :: 0 <= i < |LANES| ==> LANES[i].key in KEYS.Values
  {
    assert KEYS['D'] == LANES[0].key;
    assert KEYS['F'] == LANES[1].key;
    assert KEYS['J'] == LANES[2].key;
    assert KEYS['K'] == LANES[3].key;
  }

  /**
   * The index of the first lane in lanes[from..] whose key is `code`, or -1:
   * the key-to-lane lookup of the host.
   */
  function FindLane(lanes: seq<Lane>, code: string, from: nat): (r: int)
    requires from <= |lanes|
    ensures r == -1 <==> forall i :: from <= i < |lanes| ==> lanes[i].key != code
    ensures r != -1 ==> from <= r < |lanes| && lanes[r].key == code
    ensures r != -1 ==> forall i :: from <= i < r ==> lanes[i].key != code
    decreases |lanes| - from
  {
    if from == |lanes| then -1
    else if lanes[from].key == code then from
    else FindLane(lanes, code, from + 1)
  }

  /** The lane bound to keyboard code `code`, or -1 when no lane is. */
  function LaneOfKey(code: string): (r: int)
    ensures -1 <= r < LANE_COUNT
    ensures r == -1 <==> forall i :: 0 <= i < |LANES| ==> LANES[i].key != code
    ensures r != -1 ==> LANES[r].key == code
  {
    FindLane(LANES, code, 0)
  }

  // Scene geometry, in milli-units.
  /** Scroll speed: scene units per second, equivalently milli-units per millisecond. */
  const NOTE_SPEED: int := 5
  const SPAWN_DISTANCE_MILLI: int := 20000
  const JUDGMENT_LINE_Y_MILLI: int := -8000
  const NOTE_SIZE_MILLI: int := 800

  /** Notes fall: the speed is positive and the judgment line lies below the spawn point. */
  lemma GeometryConsistent()
    ensures NOTE_SPEED > 0
    ensures JUDGMENT_LINE_Y_MILLI < SPAWN_DISTANCE_MILLI
    ensures NOTE_SIZE_MILLI > 0
  {
  }

  /** Math.abs on integers. */
  function Abs(x: int): (r: nat)
    ensures r == x || r == -x
  {
    if x < 0 then -x else x
  }
}
