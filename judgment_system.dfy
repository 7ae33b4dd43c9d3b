/**
 * The judgment engine: classifies a signed timing error, keeps the combo,
 * the best combo, one counter per class and the running score.
 *
 * The source adds SCORE * (1 + combo * 0.01) in floating point; here the
 * running total is kept exactly, in hundredths of a point, by adding
 * SCORE * (100 + combo). The surfaced score is that total divided by 100,
 * i.e. its floor.
 */
module Scoring {
  import opened Constants

  /** Class `j` admits error `e`: MISS admits everything, a named class its window. */
  predicate Admits(j: Judgment, e: int)
  {
    j == Miss || Abs(e) <= Window(j)
  }

  /** The class of a timing error: the best class whose window admits it. */
  function Classify(e: int): (j: Judgment)
    ensures Admits(j, e)
    ensures forall b :: Rank(b) < Rank(j) ==> !Admits(b, e)
  {
    var absError := Abs(e);
    if absError <= GREAT_WINDOW_MS then Great
    else if absError <= GOOD_WINDOW_MS then Good
    else if absError <= NORMAL_WINDOW_MS then Normal
    else Miss
  }

  /** The bands, written out: exactly one class applies to every error. */
  lemma ClassifyBands(e: int)
    ensures Classify(e) == Great <==> Abs(e) <= 50
    ensures Classify(e) == Good <==> 50 < Abs(e) <= 100
    ensures Classify(e) == Normal <==> 100 < Abs(e) <= 150
    ensures Classify(e) == Miss <==> 150 < Abs(e)
  {
  }

  /** Early and late presses by the same amount are judged alike. */
  lemma ClassifySymmetric(e: int)
    ensures Classify(e) == Classify(-e)
  {
  }

  /** A larger error never gets a better class. */
  lemma ClassifyMonotone(e1: int, e2: int)
    requires Abs(e1) <= Abs(e2)
    ensures Rank(Classify(e1)) <= Rank(Classify(e2))
  {
  }

  // ---------------------------------------------------------------------
  // The run as a sequence of outcomes since the last reset. Every field of
  // the engine is a function of this history.

  /** Combo after the outcomes `h`: MISS resets it, any other class adds one. */
  function ComboAfter(h: seq<Judgment>): nat
  {
    if h == [] then 0
    else if h[|h| - 1] == Miss then 0
    else ComboAfter(h[..|h| - 1]) + 1
  }

  /** The highest combo reached during `h`. */
  function MaxComboAfter(h: seq<Judgment>): nat
  {
    if h == [] then 0
    else Max(MaxComboAfter(h[..|h| - 1]), ComboAfter(h))
  }

  function Max(a: nat, b: nat): nat
  {
    if a < b then b else a
  }

  /**
   * Hundredths of a point earned by outcome `j` judged at `combo` (the combo
   * including this outcome): base * (1 + combo * 0.01), times 100.
   */
  function Award(j: Judgment, combo: nat): nat
  {
    BaseScore(j) * (100 + combo)
  }

  /** A MISS earns nothing; a hit earns at least its base score, strictly more with a longer combo. */
  lemma AwardShape(j: Judgment, c1: nat, c2: nat)
    requires c1 <= c2
    ensures j == Miss <==> Award(j, c1) == 0
    ensures j != Miss ==> 100 * BaseScore(j) <= Award(j, c1) <= Award(j, c2)
    ensures j != Miss && c1 < c2 ==> Award(j, c1) < Award(j, c2)
  {
  }

  /** Running total in hundredths of a point: each outcome adds its award at the combo after it. */
  function TotalAfter(h: seq<Judgment>): nat
  {
    if h == [] then 0
    else TotalAfter(h[..|h| - 1]) + Award(h[|h| - 1], ComboAfter(h))
  }

  /** How many outcomes of class `j` occur in `h`. */
  function CountOf(h: seq<Judgment>, j: Judgment): nat
  {
    if h == [] then 0
    else CountOf(h[..|h| - 1], j) + (if h[|h| - 1] == j then 1 else 0)
  }

  /** The combo is the length of the run of non-MISS outcomes that ends `h`. */
  lemma {:induction false} ComboIsTrailingRun(h: seq<Judgment>)
    ensures ComboAfter(h) <= |h|
    ensures forall i :: |h| - ComboAfter(h) <= i < |h| ==> h[i] != Miss
    ensures ComboAfter(h) == |h| || h[|h| - 1 - ComboAfter(h)] == Miss
  {
    if h != [] && h[|h| - 1] != Miss {
      var p := h[..|h| - 1];
      ComboIsTrailingRun(p);
      assert forall i :: 0 <= i < |p| ==> p[i] == h[i];
    }
  }

  /** The best combo is at least every combo reached along the way, and equals one of them. */
  lemma {:induction false} MaxComboIsPeak(h: seq<Judgment>)
    ensures forall k :: 0 <= k <= |h| ==> ComboAfter(h[..k]) <= MaxComboAfter(h)
    ensures exists k :: 0 <= k <= |h| && ComboAfter(h[..k]) == MaxComboAfter(h)
  {
    if h == [] {
      assert h[..0] == h;
    } else {
      var p := h[..|h| - 1];
      MaxComboIsPeak(p);
      assert h[..|h|] == h;
      forall k | 0 <= k <= |h| ensures ComboAfter(h[..k]) <= MaxComboAfter(h) {
        if k < |h| {
          assert h[..k] == p[..k];
        }
      }
      if MaxComboAfter(p) >= ComboAfter(h) {
        var k :| 0 <= k <= |p| && ComboAfter(p[..k]) == MaxComboAfter(p);
        assert h[..k] == p[..k];
      }
    }
  }

  /** The combo never exceeds the best combo. */
  lemma ComboAtMostMax(h: seq<Judgment>)
    ensures ComboAfter(h) <= MaxComboAfter(h)
  {
  }

  /** The four counters add up to the number of judgments since reset. */
  lemma {:induction false} CountsSum(h: seq<Judgment>)
    ensures CountOf(h, Great) + CountOf(h, Good) + CountOf(h, Normal) + CountOf(h, Miss) == |h|
  {
    if h != [] {
      CountsSum(h[..|h| - 1]);
    }
  }

  /** The running total never decreases, so neither does the floored score. */
  lemma {:induction false} TotalMonotone(h: seq<Judgment>, k: nat)
    requires k <= |h|
    ensures TotalAfter(h[..k]) <= TotalAfter(h)
    ensures TotalAfter(h[..k]) / 100 <= TotalAfter(h) / 100
  {
    if k < |h| {
      var p := h[..|h| - 1];
      TotalMonotone(p, k);
      assert p[..k] == h[..k];
    } else {
      assert h[..k] == h;
    }
  }

  /** One more outcome: what it adds to each statistic. */
  lemma StepEffect(h: seq<Judgment>, j: Judgment)
    ensures ComboAfter(h + [j]) == if j == Miss then 0 else ComboAfter(h) + 1
    ensures MaxComboAfter(h + [j]) == Max(MaxComboAfter(h), ComboAfter(h + [j]))
    ensures TotalAfter(h + [j]) == TotalAfter(h) + Award(j, ComboAfter(h + [j]))
    ensures j == Miss ==> TotalAfter(h + [j]) == TotalAfter(h)
    ensures Tally(h + [j]) == Tally(h).Bump(j)
  {
    assert (h + [j])[..|h|] == h;
  }

  /** Judging 30 ms then 120 ms: GREAT at combo 1 and score 101, then NORMAL at combo 2 and score 121. */
  lemma ScenarioGreatThenNormal()
    ensures Classify(30) == Great && Classify(120) == Normal
    ensures ComboAfter([Great]) == 1 && TotalAfter([Great]) / 100 == 101
    ensures ComboAfter([Great, Normal]) == 2 && TotalAfter([Great, Normal]) / 100 == 121
  {
    assert [Great, Normal][..1] == [Great];
  }

  /**
   * Only the running total is floored, not each award: three GOODs in a row
   * earn 50.5 + 51 + 51.5 = 153 points, where flooring each award would give
   * 50 + 51 + 51 = 152.
   */
  lemma ScenarioThreeGoods()
    ensures TotalAfter([Good, Good, Good]) == 15300
    ensures TotalAfter([Good, Good, Good]) / 100 == 153
    ensures Award(Good, 1) == 5050 && Award(Good, 2) == 5100 && Award(Good, 3) == 5150
  {
    assert [Good, Good, Good][..2] == [Good, Good];
    assert [Good, Good][..1] == [Good];
    assert [Good][..0] == [];
    assert ComboAfter([Good]) == 1 && TotalAfter([Good]) == 5050;
    assert ComboAfter([Good, Good]) == 2 && TotalAfter([Good, Good]) == 10150;
    assert ComboAfter([Good, Good, Good]) == 3;
  }

  /** Judging 40 ms then 500 ms: one GREAT, one MISS, best combo 1, combo 0. */
  lemma ScenarioGreatThenMiss()
    ensures Classify(40) == Great && Classify(500) == Miss
    ensures CountOf([Great, Miss], Great) == 1 && CountOf([Great, Miss], Miss) == 1
    ensures ComboAfter([Great, Miss]) == 0 && MaxComboAfter([Great, Miss]) == 1
  {
    assert [Great, Miss][..1] == [Great];
    assert [Great][..0] == [];
    assert MaxComboAfter([Great]) == 1;
  }

  /** What one call of judge reports. */
  datatype JudgeResult = JudgeResult(judgment: Judgment, combo: nat, score: nat)

  /** The four per-class counters, one field per class as in the source's counter object. */
  datatype Counts = Counts(great: nat, good: nat, normal: nat, miss: nat)
  {
    /** The counter of class `j`. */
    function Get(j: Judgment): nat
    {
      match j
      case Great => great
      case Good => good
      case Normal => normal
      case Miss => miss
    }

    /** The counters with the one of class `j` incremented. */
    function Bump(j: Judgment): (c: Counts)
      ensures c.Get(j) == Get(j) + 1
      ensures forall k :: k != j ==> c.Get(k) == Get(k)
    {
      match j
      case Great => this.(great := great + 1)
      case Good => this.(good := good + 1)
      case Normal => this.(normal := normal + 1)
      case Miss => this.(miss := miss + 1)
    }

    /** The sum of the four counters. */
    function Sum(): nat
    {
      great + good + normal + miss
    }
  }

  /** The end-of-run snapshot. */
  datatype Results = Results(score: nat, maxCombo: nat, judgments: Counts)

  function ZeroCounts(): (c: Counts)
    ensures forall j :: c.Get(j) == 0
  {
    Counts(0, 0, 0, 0)
  }

  /** The counters after history `h`, bumped one outcome at a time from all zeros. */
  function Tally(h: seq<Judgment>): Counts
  {
    if h == [] then ZeroCounts()
    else Tally(h[..|h| - 1]).Bump(h[|h| - 1])
  }

  /** The counters hold exactly the per-class counts of the history. */
  lemma {:induction false} TallyCounts(h: seq<Judgment>)
    ensures forall c :: Tally(h).Get(c) == CountOf(h, c)
  {
    if h != [] {
      TallyCounts(h[..|h| - 1]);
    }
  }

  /**
   * One judgment step on statistics that match a history yields statistics
   * that match the history extended by that judgment.
   */
  lemma StepKeeps(total: nat, c: nat, best: nat, m: Counts, h: seq<Judgment>, j: Judgment, c': nat)
    requires total == TotalAfter(h) && c == ComboAfter(h) && best == MaxComboAfter(h) && m == Tally(h)
    requires c' == if j == Miss then 0 else c + 1
    ensures total + Award(j, c') == TotalAfter(h + [j])
    ensures c' == ComboAfter(h + [j])
    ensures Max(best, c') == MaxComboAfter(h + [j])
    ensures m.Bump(j) == Tally(h + [j])
  {
    StepEffect(h, j);
  }

  class JudgmentSystem {
    /** Running total, in hundredths of a point. */
    var scoreHundredths: nat
    var combo: nat
    var maxCombo: nat
    var judgments: Counts
    /** The outcomes judged since the last reset. */
    ghost var history: seq<Judgment>

    ghost predicate Valid()
      reads this
    {
      && scoreHundredths == TotalAfter(history)
      && combo == ComboAfter(history)
      && maxCombo == MaxComboAfter(history)
      && judgments == Tally(history)
    }

    constructor ()
      ensures Valid() && history == []
      ensures scoreHundredths == 0 && combo == 0 && maxCombo == 0 && judgments == ZeroCounts()
    {
      scoreHundredths := 0;
      combo := 0;
      maxCombo := 0;
      judgments := ZeroCounts();
      history := [];
    }

    method Judge(timingError: int) returns (r: JudgeResult)
      requires Valid()
      modifies this
      ensures Valid()
      ensures r.judgment == Classify(timingError)
      ensures history == old(history) + [r.judgment]
      ensures combo == if r.judgment == Miss then 0 else old(combo) + 1
      ensures maxCombo == Max(old(maxCombo), combo) && combo <= maxCombo
      ensures judgments == old(judgments).Bump(r.judgment)
      ensures scoreHundredths == old(scoreHundredths) + Award(r.judgment, combo)
      ensures old(scoreHundredths) <= scoreHundredths
      ensures r.judgment == Miss ==> scoreHundredths == old(scoreHundredths)
      ensures r.combo == combo && r.score == scoreHundredths / 100
    {
      var absError := Abs(timingError);
      var judgment := Miss;
      if absError <= GREAT_WINDOW_MS {
        judgment := Great;
        combo := combo + 1;
      } else if absError <= GOOD_WINDOW_MS {
        judgment := Good;
        combo := combo + 1;
      } else if absError <= NORMAL_WINDOW_MS {
        judgment := Normal;
        combo := combo + 1;
      } else {
        judgment := Miss;
        combo := 0;
      }
      assert judgment == Classify(timingError);
      StepKeeps(scoreHundredths, old(combo), maxCombo, judgments, history, judgment, combo);
      ghost var h := history + [judgment];
      judgments := judgments.Bump(judgment);
      scoreHundredths := scoreHundredths + Award(judgment, combo);
      maxCombo := Max(maxCombo, combo);
      history := h;
      r := JudgeResult(judgment, combo, scoreHundredths / 100);
    }

    method Reset()
      modifies this
      ensures Valid() && history == []
      ensures scoreHundredths == 0 && combo == 0 && maxCombo == 0 && judgments == ZeroCounts()
    {
      scoreHundredths := 0;
      combo := 0;
      maxCombo := 0;
      judgments := ZeroCounts();
      history := [];
    }

    /** The snapshot: floored score, best combo and a copy of the counters. */
    method GetResults() returns (r: Results)
      requires Valid()
      ensures r.score == TotalAfter(history) / 100
      ensures r.maxCombo == MaxComboAfter(history) && r.maxCombo >= ComboAfter(history)
      ensures forall j :: r.judgments.Get(j) == CountOf(history, j)
      ensures r.judgments.Sum() == |history|
    {
      CountsSum(history);
      TallyCounts(history);
      r := Results(scoreHundredths / 100, maxCombo, judgments);
    }
  }

  /** Reset then snapshot reports a zero score, a zero best combo and zero counters. */
  method ResetThenSnapshot(js: JudgmentSystem) returns (r: Results)
    modifies js
    ensures r.score == 0 && r.maxCombo == 0 && r.judgments == ZeroCounts()
  {
    js.Reset();
    r := js.GetResults();
  }

  /** Judging 30 ms then 120 ms on a fresh engine reports 101 and then 121. */
  method ScenarioGreatThenNormalRun() returns (first: JudgeResult, second: JudgeResult)
    ensures first == JudgeResult(Great, 1, 101)
    ensures second == JudgeResult(Normal, 2, 121)
  {
    var js := new JudgmentSystem();
    first := js.Judge(30);
    second := js.Judge(120);
  }
}
