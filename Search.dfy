/**
 * The best-so-far tracker shared by every configuration search of the
 * command-line runner: a running maximum under the criterion's own
 * comparison, starting from a score of 0.0 and no result.
 */
module Search {
  import opened Model

  /** The search's running state: `maxScore` and the index of the candidate kept as best. */
  datatype Best = Best(maxScore: Score, winner: Option<nat>)

  /** Every tracker starts from `maxScore = 0.0` and no best result. */
  const Baseline: Score := Num(0.0)

  /** One candidate: it replaces the best exactly when `isBetter(score, maxScore)`. */
  function Step(b: Best, s: Score, i: nat, better: (Score, Score) -> bool): Best
  {
    if better(s, b.maxScore) then Best(s, Some(i)) else b
  }

  /** The tracker's state after the candidates with the given scores, in order. */
  function Track(scores: seq<Score>, better: (Score, Score) -> bool): Best
    decreases |scores|
  {
    if |scores| == 0 then Best(Baseline, None)
    else Step(Track(scores[..|scores| - 1], better), scores[|scores| - 1], |scores| - 1, better)
  }

  /** Tracking one more candidate is one more Step. */
  lemma TrackSnoc(scores: seq<Score>, i: nat, better: (Score, Score) -> bool)
    requires i < |scores|
    ensures Track(scores[..i + 1], better) == Step(Track(scores[..i], better), scores[i], i, better)
  {
    assert scores[..i + 1][..i] == scores[..i];
  }

  /** The element a tracker picked, if any. */
  function WinnerOf<T>(xs: seq<T>, w: Option<nat>): Option<T>
  {
    if w.Some? && w.value < |xs| then Some(xs[w.value]) else None
  }

  ghost predicate StrictOrder(better: (Score, Score) -> bool)
  {
    && (forall x :: !better(x, x))
    && (forall x, y, z :: better(x, y) && better(y, z) ==> better(x, z))
  }

  /** The kept best is one of the candidates and `maxScore` is its score; with no best, `maxScore` is still 0.0. */
  lemma {:induction false} TrackShape(scores: seq<Score>, better: (Score, Score) -> bool)
    ensures Track(scores, better).winner.None? ==> Track(scores, better).maxScore == Baseline
    ensures Track(scores, better).winner.Some? ==>
              Track(scores, better).winner.value < |scores| &&
              Track(scores, better).maxScore == scores[Track(scores, better).winner.value]
    decreases |scores|
  {
    if |scores| > 0 {
      TrackShape(scores[..|scores| - 1], better);
    }
  }

  /** No candidate is kept exactly when no candidate's score is better than the 0.0 baseline. */
  lemma {:induction false} TrackNoWinner(scores: seq<Score>, better: (Score, Score) -> bool)
    ensures Track(scores, better).winner.None? <==>
              forall i :: 0 <= i < |scores| ==> !better(scores[i], Baseline)
    decreases |scores|
  {
    if |scores| > 0 {
      var init := scores[..|scores| - 1];
      TrackNoWinner(init, better);
      TrackShape(init, better);
      assert forall i :: 0 <= i < |init| ==> init[i] == scores[i];
    }
  }

  /**
   * The kept candidate beat the running maximum when it was scored, and no
   * later candidate's score is better than its score.
   */
  lemma {:induction false} TrackLastImprovement(scores: seq<Score>, better: (Score, Score) -> bool, k: nat)
    requires Track(scores, better).winner == Some(k)
    ensures k < |scores|
    ensures better(scores[k], Track(scores[..k], better).maxScore)
    ensures forall j :: k < j < |scores| ==> !better(scores[j], scores[k])
    decreases |scores|
  {
    var n := |scores|;
    var init := scores[..n - 1];
    TrackShape(scores, better);
    if better(scores[n - 1], Track(init, better).maxScore) {
      assert k == n - 1;
      assert scores[..k] == init;
    } else {
      TrackLastImprovement(init, better, k);
      assert init[..k] == scores[..k];
      TrackShape(init, better);
    }
  }

  /**
   * When `isBetter` is a strict order, no evaluated candidate is better than the
   * final `maxScore`; in particular no candidate beats the one returned.
   */
  lemma {:induction false} TrackUnbeaten(scores: seq<Score>, better: (Score, Score) -> bool)
    requires StrictOrder(better)
    ensures forall j :: 0 <= j < |scores| ==> !better(scores[j], Track(scores, better).maxScore)
    decreases |scores|
  {
    var n := |scores|;
    if n > 0 {
      var init := scores[..n - 1];
      var b := Track(init, better);
      TrackUnbeaten(init, better);
      forall j | 0 <= j < n
        ensures !better(scores[j], Track(scores, better).maxScore)
      {
        if j < n - 1 {
          assert scores[j] == init[j];
          assert !better(scores[j], b.maxScore);
        }
      }
    }
  }

  /** A criterion under which NaN never wins never keeps a candidate whose scoring failed. */
  lemma TrackWinnerScored(scores: seq<Score>, better: (Score, Score) -> bool)
    requires forall m :: !better(NaN, m)
    ensures Track(scores, better).winner.Some? ==>
              Track(scores, better).winner.value < |scores| &&
              scores[Track(scores, better).winner.value] != NaN
  {
    TrackShape(scores, better);
    if Track(scores, better).winner.Some? {
      TrackLastImprovement(scores, better, Track(scores, better).winner.value);
    }
  }
}
