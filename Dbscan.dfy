/**
 * The DBSCAN parameter search of the command-line runner: a grid over
 * (minPts, eps), eps stepping down from an estimate of its upper bound in ten
 * equal decrements, with two strategies ("sp" and the default incremental
 * one). The algorithm and the criterion are parameters; every call that the
 * source makes to them is made on the same configuration snapshot here.
 */
module Dbscan {
  import opened Model
  import opened Search


  /** The scan's decrement, a tenth of the estimated eps range. */
  function EpsStep(epsMax: real, epsMin: real): real
  {
    (epsMax - epsMin) / 10.0
  }

  /** eps after `t` decrements from epsMax, in exact arithmetic. */
  function Eps(epsMax: real, epsMin: real, t: nat): real
  {
    epsMax - (t as real) * EpsStep(epsMax, epsMin)
  }

  /** Each `eps -= step` of the scan moves from step t to step t + 1; no decrement happens before step 1. */
  lemma EpsDecrement(epsMax: real, epsMin: real, t: nat)
    ensures Eps(epsMax, epsMin, 0) == epsMax
    ensures Eps(epsMax, epsMin, t + 1) == Eps(epsMax, epsMin, t) - EpsStep(epsMax, epsMin)
  {
    var d := EpsStep(epsMax, epsMin);
    assert ((t + 1) as real) * d == (t as real) * d + d;
  }

  /**
   * The scan guard `eps > epsMin` holds at step t exactly for the first ten
   * steps of a non-empty range, and eps then lies in (epsMin, epsMax].
   */
  lemma EpsGuard(epsMax: real, epsMin: real, t: nat)
    requires t == 0 || epsMin < epsMax
    ensures Eps(epsMax, epsMin, t) > epsMin <==> epsMin < epsMax && t < 10
    ensures epsMin < epsMax && t < 10 ==> epsMin < Eps(epsMax, epsMin, t) <= epsMax
  {
    var d := EpsStep(epsMax, epsMin);
    var e := Eps(epsMax, epsMin, t);
    assert e == epsMax - (t as real) * d;
    if epsMin < epsMax {
      assert 10.0 * d == epsMax - epsMin;
      if t < 10 {
        var u := (10 - t) as real;
        assert (t as real) * d + u * d == 10.0 * d;
        MulPositive(u, d);
        MulNonNegative(t as real, d);
        assert e - epsMin == u * d;
      } else {
        var u := (t - 10) as real;
        assert (t as real) * d == 10.0 * d + u * d;
        MulNonNegative(u, d);
        assert epsMin - e == u * d;
      }
    } else {
      assert t == 0;
    }
  }

  lemma MulPositive(a: real, b: real)
    requires a > 0.0 && b > 0.0
    ensures a * b > 0.0
  {
  }

  lemma MulNonNegative(a: real, b: real)
    requires a >= 0.0 && b >= 0.0
    ensures a * b >= 0.0
  {
  }

  /** eps strictly decreases along a scan over a non-empty range, so no eps value is tried twice at one minPts. */
  lemma EpsDecreasing(epsMax: real, epsMin: real, s: nat, t: nat)
    requires epsMin < epsMax && s < t
    ensures Eps(epsMax, epsMin, t) < Eps(epsMax, epsMin, s)
  {
    var d := EpsStep(epsMax, epsMin);
    assert Eps(epsMax, epsMin, s) - Eps(epsMax, epsMin, t) == ((t - s) as real) * d;
    assert ((t - s) as real) * d > 0.0;
  }

  /** `(int) Math.sqrt(n)`: the largest m with m * m <= n. */
  function FloorSqrt(n: nat): (m: nat)
    ensures m * m <= n < (m + 1) * (m + 1)
  {
    if n == 0 then 0
    else
      var r := FloorSqrt(n - 1);
      if (r + 1) * (r + 1) <= n then r + 1 else r
  }

  /** The early-exit rule: a single cluster, or at least `(int) sqrt(n)` clusters. */
  predicate Stops(c: Clustering, maxSize: nat)
  {
    c.size == 1 || c.size >= maxSize
  }

  /** The configuration the algorithm sees at a grid point: `prop` with MIN_PTS and EPS written into it. */
  function GridPoint(base: Config, minPts: int, eps: real): Config
  {
    base[MinPtsKey := IntV(minPts)][EpsKey := RealV(eps)]
  }

  /**
   * What one DBSCAN scan is run on: the configuration `prop` held on entry,
   * the estimated eps range, the early-exit size `(int) sqrt(n)`, the
   * algorithm and the criterion.
   */
  datatype Scan = Scan(base: Config, epsMax: real, epsMin: real, maxSize: nat,
                       algorithm: Config -> Clustering, eval: Criterion)

  function ScanOf(base: Config, n: nat, epsMin: real, epsMax: real,
                  algorithm: Config -> Clustering, eval: Criterion): Scan
  {
    Scan(base, epsMax, epsMin, FloorSqrt(n), algorithm, eval)
  }

  /** One evaluated grid point, as reported on its log line: minPts and the number of eps decrements. */
  datatype Trial = Trial(minPts: int, t: nat)

  /** The configuration the algorithm sees at a grid point. */
  function TrialConf(sc: Scan, tr: Trial): Config
  {
    GridPoint(sc.base, tr.minPts, Eps(sc.epsMax, sc.epsMin, tr.t))
  }

  function TrialResult(sc: Scan, tr: Trial): Clustering
  {
    sc.algorithm(TrialConf(sc, tr))
  }

  function TrialScore(sc: Scan, tr: Trial): Score
  {
    ScoreOf(sc.eval, TrialResult(sc, tr), TrialConf(sc, tr))
  }

  function TrialScores(sc: Scan, trials: seq<Trial>): (r: seq<Score>)
    ensures |r| == |trials|
    ensures forall k :: 0 <= k < |trials| ==> r[k] == TrialScore(sc, trials[k])
  {
    seq(|trials|, k requires 0 <= k < |trials| => TrialScore(sc, trials[k]))
  }

  /**
   * The scan guard `eps > epsMin` at step t, in the integer form EpsGuard
   * proves it equal to: the range is non-empty and fewer than ten decrements
   * have been made.
   */
  predicate EpsLeft(sc: Scan, t: nat)
  {
    sc.epsMin < sc.epsMax && t < 10
  }

  /** Whether the eps scan goes on after a trial: it did not exit early and eps - step is still above epsMin. */
  predicate Continues(sc: Scan, tr: Trial)
  {
    !Stops(TrialResult(sc, tr), sc.maxSize) && EpsLeft(sc, tr.t + 1)
  }

  /** The trials of one eps scan at fixed minPts, from step t until eps reaches epsMin or the result is degenerate. */
  function Row(sc: Scan, pts: int, t: nat): seq<Trial>
    decreases 10 - t
  {
    if !EpsLeft(sc, t) then []
    else
      var tr := Trial(pts, t);
      if Stops(TrialResult(sc, tr), sc.maxSize) then [tr] else [tr] + Row(sc, pts, t + 1)
  }

  /** An eps scan from step t has at most 10 - t trials, and none exactly when eps starts at or below epsMin. */
  lemma {:induction false} RowLength(sc: Scan, pts: int, t: nat)
    ensures |Row(sc, pts, t)| > 0 ==> t + |Row(sc, pts, t)| <= 10
    ensures |Row(sc, pts, t)| > 0 <==> EpsLeft(sc, t)
    decreases 10 - t
  {
    if EpsLeft(sc, t) && !Stops(TrialResult(sc, Trial(pts, t)), sc.maxSize) {
      RowLength(sc, pts, t + 1);
    }
  }

  /** Trial k of an eps scan from step t is the grid point (pts, t + k), at which eps is still above epsMin. */
  lemma RowAt(sc: Scan, pts: int, t: nat)
    ensures forall k :: 0 <= k < |Row(sc, pts, t)| ==>
              Row(sc, pts, t)[k] == Trial(pts, t + k) && EpsLeft(sc, t + k)
  {
    forall k | 0 <= k < |Row(sc, pts, t)|
      ensures Row(sc, pts, t)[k] == Trial(pts, t + k) && EpsLeft(sc, t + k)
    {
      RowAtK(sc, pts, t, k);
    }
  }

  lemma {:induction false} RowAtK(sc: Scan, pts: int, t: nat, k: nat)
    requires k < |Row(sc, pts, t)|
    ensures Row(sc, pts, t)[k] == Trial(pts, t + k) && EpsLeft(sc, t + k)
    decreases k
  {
    var tr := Trial(pts, t);
    assert EpsLeft(sc, t);
    if k > 0 {
      assert !Stops(TrialResult(sc, tr), sc.maxSize);
      var rest := Row(sc, pts, t + 1);
      assert Row(sc, pts, t) == [tr] + rest;
      RowAtK(sc, pts, t + 1, k - 1);
      assert t + 1 + (k - 1) == t + k;
    }
  }

  /** Every trial of an eps scan but the last lets the scan continue; the last one does not. */
  lemma {:induction false} RowEnds(sc: Scan, pts: int, t: nat)
    ensures forall k :: 0 <= k < |Row(sc, pts, t)| - 1 ==> Continues(sc, Row(sc, pts, t)[k])
    ensures |Row(sc, pts, t)| > 0 ==> !Continues(sc, Row(sc, pts, t)[|Row(sc, pts, t)| - 1])
    decreases 10 - t
  {
    var r := Row(sc, pts, t);
    if EpsLeft(sc, t) {
      var tr := Trial(pts, t);
      if !Stops(TrialResult(sc, tr), sc.maxSize) {
        RowEnds(sc, pts, t + 1);
        RowLength(sc, pts, t + 1);
        RowAt(sc, pts, t + 1);
        var rest := Row(sc, pts, t + 1);
        assert r == [tr] + rest;
        if |rest| > 0 {
          assert r[1] == rest[0];
          assert r[|r| - 1] == rest[|rest| - 1];
        }
        forall k | 0 <= k < |r| - 1
          ensures Continues(sc, r[k])
        {
          if k > 0 {
            assert r[k] == rest[k - 1];
          }
        }
      } else {
        assert r == [tr];
      }
    }
  }

  /**
   * The "sp" grid up to minPts i - 1: for minPts = 4..i-1 in turn, a full eps
   * scan starting at epsMax. The whole grid is SearchGrid(sc, GridEnd).
   */
  /** One past the largest minPts of the "sp" grid. */
  const GridEnd: int := 11

  function SearchGrid(sc: Scan, i: int): seq<Trial>
    requires 4 <= i <= 11
    decreases i
  {
    if i == 4 then [] else SearchGrid(sc, i - 1) + Row(sc, i - 1, 0)
  }

  /**
   * The "sp" grid evaluates at most ten eps values for each minPts in 4..i-1;
   * it is empty exactly when the estimated range is empty.
   */
  lemma {:induction false} SearchGridLength(sc: Scan, i: int)
    requires 4 <= i <= 11
    ensures |SearchGrid(sc, i)| <= 10 * (i - 4)
    ensures |SearchGrid(sc, i)| > 0 <==> i > 4 && sc.epsMin < sc.epsMax
    decreases i
  {
    if i > 4 {
      SearchGridLength(sc, i - 1);
      RowLength(sc, i - 1, 0);
    }
  }

  /** Every trial of the "sp" grid has minPts in 4..i-1 and eps above epsMin. */
  lemma {:induction false} SearchGridAt(sc: Scan, i: int)
    requires 4 <= i <= 11
    ensures forall k :: 0 <= k < |SearchGrid(sc, i)| ==>
              4 <= SearchGrid(sc, i)[k].minPts < i && EpsLeft(sc, SearchGrid(sc, i)[k].t)
    decreases i
  {
    if i > 4 {
      SearchGridAt(sc, i - 1);
      RowAt(sc, i - 1, 0);
      var prev := SearchGrid(sc, i - 1);
      var row := Row(sc, i - 1, 0);
      var all: seq<Trial> := prev + row;
      assert SearchGrid(sc, i) == all;
      forall k | |prev| <= k < |all|
        ensures 4 <= all[k].minPts < i && EpsLeft(sc, all[k].t)
      {
        assert all[k] == row[k - |prev|];
      }
    }
  }

  /**
   * The incremental grid after `r` rounds: round j (from 0) is an eps scan at
   * minPts 4 + j that starts at the step where the previous rounds stopped.
   */
  function Rounds(sc: Scan, r: nat): seq<Trial>
    decreases r
  {
    if r == 0 then []
    else
      var prev := Rounds(sc, r - 1);
      prev + Row(sc, 3 + r, |prev|)
  }

  /**
   * The incremental grid never revisits an eps value: trial k is at step k,
   * so at most ten trials happen whatever the number of rounds; minPts never
   * decreases and stays in 4..4 + r - 1.
   */
  lemma RoundsShape(sc: Scan, r: nat)
    ensures |Rounds(sc, r)| <= 10
    ensures forall k :: 0 <= k < |Rounds(sc, r)| ==>
              && Rounds(sc, r)[k].t == k
              && 4 <= Rounds(sc, r)[k].minPts < 4 + r
              && EpsLeft(sc, k)
    ensures forall k :: 0 <= k < |Rounds(sc, r)| - 1 ==>
              Rounds(sc, r)[k].minPts <= Rounds(sc, r)[k + 1].minPts
  {
    var open, stops := sc.epsMin < sc.epsMax, StopsOf(sc);
    RoundsBridge(sc, r);
    var all := RoundsBy(open, stops, r);
    if |all| > 0 {
      RoundsAtK(open, stops, r, |all| - 1);
    }
    forall k | 0 <= k < |all|
      ensures all[k].t == k && 4 <= all[k].minPts < 4 + r && open && k < 10
    {
      RoundsAtK(open, stops, r, k);
    }
    forall k | 0 <= k < |all| - 1
      ensures all[k].minPts <= all[k + 1].minPts
    {
      RoundsMonoK(open, stops, r, k);
    }
  }

  /**
   * The shape of an eps scan from step t, with the results abstracted to
   * whether each trial `stops` the scan early and whether the eps range is
   * `open` (non-empty): the same recursion as Row.
   */
  function RowBy(open: bool, stops: Trial -> bool, pts: int, t: nat): seq<Trial>
    decreases 10 - t
  {
    if !(open && t < 10) then []
    else
      var tr := Trial(pts, t);
      if stops(tr) then [tr] else [tr] + RowBy(open, stops, pts, t + 1)
  }

  /** The incremental grid over the abstract shape: the same recursion as Rounds. */
  function RoundsBy(open: bool, stops: Trial -> bool, r: nat): seq<Trial>
    decreases r
  {
    if r == 0 then []
    else
      var prev := RoundsBy(open, stops, r - 1);
      prev + RowBy(open, stops, 3 + r, |prev|)
  }

  /** Whether a trial ends its eps scan early: its result is degenerate. */
  function StopsOf(sc: Scan): Trial -> bool
  {
    tr => Stops(TrialResult(sc, tr), sc.maxSize)
  }

  /** A scan's eps rows are the abstract rows for its range and its stopping trials. */
  lemma {:induction false} RowBridge(sc: Scan, pts: int, t: nat)
    ensures Row(sc, pts, t) == RowBy(sc.epsMin < sc.epsMax, StopsOf(sc), pts, t)
    decreases 10 - t
  {
    if EpsLeft(sc, t) {
      var tr := Trial(pts, t);
      assert StopsOf(sc)(tr) == Stops(TrialResult(sc, tr), sc.maxSize);
      if !Stops(TrialResult(sc, tr), sc.maxSize) {
        RowBridge(sc, pts, t + 1);
      }
    }
  }

  lemma {:induction false} RoundsBridge(sc: Scan, r: nat)
    ensures Rounds(sc, r) == RoundsBy(sc.epsMin < sc.epsMax, StopsOf(sc), r)
    decreases r
  {
    if r > 0 {
      RoundsBridge(sc, r - 1);
      RowBridge(sc, 3 + r, |Rounds(sc, r - 1)|);
    }
  }

  lemma {:induction false} RowByAtK(open: bool, stops: Trial -> bool, pts: int, t: nat, k: nat)
    requires k < |RowBy(open, stops, pts, t)|
    ensures RowBy(open, stops, pts, t)[k] == Trial(pts, t + k) && open && t + k < 10
    decreases k
  {
    var tr := Trial(pts, t);
    if k > 0 {
      var rest := RowBy(open, stops, pts, t + 1);
      assert RowBy(open, stops, pts, t) == [tr] + rest;
      RowByAtK(open, stops, pts, t + 1, k - 1);
      assert RowBy(open, stops, pts, t)[k] == rest[k - 1];
    }
  }

  /** Trial k of the first r rounds is at step k, with a minPts of one of those rounds, and eps still above epsMin. */
  lemma {:induction false} RoundsAtK(open: bool, stops: Trial -> bool, r: nat, k: nat)
    requires k < |RoundsBy(open, stops, r)|
    ensures var tr := RoundsBy(open, stops, r)[k];
            tr.t == k && 4 <= tr.minPts < 4 + r && open && k < 10
    decreases r
  {
    var prev := RoundsBy(open, stops, r - 1);
    var row := RowBy(open, stops, 3 + r, |prev|);
    assert RoundsBy(open, stops, r) == prev + row;
    if k < |prev| {
      RoundsAtK(open, stops, r - 1, k);
      assert RoundsBy(open, stops, r)[k] == prev[k];
    } else {
      RowByAtK(open, stops, 3 + r, |prev|, k - |prev|);
      assert RoundsBy(open, stops, r)[k] == row[k - |prev|];
    }
  }

  /** Consecutive trials of the incremental grid never go down in minPts. */
  lemma {:induction false} RoundsMonoK(open: bool, stops: Trial -> bool, r: nat, k: nat)
    requires k + 1 < |RoundsBy(open, stops, r)|
    ensures RoundsBy(open, stops, r)[k].minPts <= RoundsBy(open, stops, r)[k + 1].minPts
    decreases r
  {
    var prev := RoundsBy(open, stops, r - 1);
    var row := RowBy(open, stops, 3 + r, |prev|);
    var all := RoundsBy(open, stops, r);
    assert all == prev + row;
    if k + 1 < |prev| {
      RoundsMonoK(open, stops, r - 1, k);
      assert all[k] == prev[k] && all[k + 1] == prev[k + 1];
    } else if k + 1 == |prev| {
      RoundsAtK(open, stops, r - 1, k);
      RowByAtK(open, stops, 3 + r, |prev|, 0);
      assert all[k] == prev[k] && all[k + 1] == row[0];
    } else {
      RowByAtK(open, stops, 3 + r, |prev|, k - |prev|);
      RowByAtK(open, stops, 3 + r, |prev|, k + 1 - |prev|);
      assert all[k] == row[k - |prev|] && all[k + 1] == row[k + 1 - |prev|];
    }
  }

  /** The incremental grid stops at ten trials, and has any only when the eps range is non-empty. */
  lemma RoundsBound(sc: Scan, r: nat)
    ensures |Rounds(sc, r)| <= 10
    ensures |Rounds(sc, r)| > 0 ==> sc.epsMin < sc.epsMax
  {
    RoundsShape(sc, r);
    if |Rounds(sc, r)| > 0 {
      assert EpsLeft(sc, 0);
    }
  }

  /**
   * The scan's mutable locals: maxScore, clustering, bestEps, the minPts of
   * the kept result and the invocation count. ("sp" keeps that minPts in its
   * bestPts; the default strategy uses bestPts as its round counter instead,
   * which the model keeps outside the tracker.)
   */
  datatype Tracker = Tracker(maxScore: Score, clustering: Option<Clustering>, bestEps: real, bestPts: int, cnt: nat)

  /** The locals before the first trial: maxScore 0.0, no result, bestEps 0.0. */
  const Start: Tracker := Tracker(Baseline, None, 0.0, 0, 0)

  /**
   * One pass of the inner loop's body on the locals: the trial's result is
   * scored and kept, with its eps and minPts, when the criterion prefers its
   * score to maxScore; the invocation count goes up either way.
   */
  function Visit(sc: Scan, st: Tracker, tr: Trial): Tracker
  {
    var score := TrialScore(sc, tr);
    var kept :=
      if sc.eval.isBetter(score, st.maxScore) then
        st.(maxScore := score, clustering := Some(TrialResult(sc, tr)),
            bestEps := Eps(sc.epsMax, sc.epsMin, tr.t), bestPts := tr.minPts)
      else st;
    kept.(cnt := kept.cnt + 1)
  }

  /** The inner `while (eps > epsMin)` loop on the locals, from step t at minPts `pts`. */
  function ScanFrom(sc: Scan, pts: int, t: nat, st: Tracker): Tracker
    decreases 10 - t
  {
    if !EpsLeft(sc, t) then st
    else
      var tr := Trial(pts, t);
      var next := Visit(sc, st, tr);
      if Stops(TrialResult(sc, tr), sc.maxSize) then next else ScanFrom(sc, pts, t + 1, next)
  }

  /** One trial of an eps scan: the scan from step t is that trial, then, unless it stops, the scan from t + 1. */
  lemma ScanFromStep(sc: Scan, pts: int, t: nat, st: Tracker)
    requires EpsLeft(sc, t)
    ensures var tr := Trial(pts, t);
            var next := Visit(sc, st, tr);
            if Stops(TrialResult(sc, tr), sc.maxSize) then
              ScanFrom(sc, pts, t, st) == next && |Row(sc, pts, t)| == 1
            else
              ScanFrom(sc, pts, t, st) == ScanFrom(sc, pts, t + 1, next) && |Row(sc, pts, t)| == 1 + |Row(sc, pts, t + 1)|
  {
  }

  /** The locals agree with the best-so-far tracker run over the trials so far. */
  ghost predicate Tracks(sc: Scan, trials: seq<Trial>, st: Tracker)
  {
    var b := Track(TrialScores(sc, trials), sc.eval.isBetter);
    && st.maxScore == b.maxScore
    && st.cnt == |trials|
    && match b.winner
       case Some(k) =>
         && k < |trials|
         && st.clustering == Some(TrialResult(sc, trials[k]))
         && st.bestEps == Eps(sc.epsMax, sc.epsMin, trials[k].t)
         && st.bestPts == trials[k].minPts
       case None => st.clustering == None && st.bestEps == 0.0 && st.bestPts == 0
  }

  lemma StartTracks(sc: Scan)
    ensures Tracks(sc, [], Start)
  {
    assert TrialScores(sc, []) == [];
  }

  /** One pass of the loop body extends the agreement by one trial. */
  lemma VisitTracks(sc: Scan, trials: seq<Trial>, st: Tracker, tr: Trial)
    requires Tracks(sc, trials, st)
    ensures Tracks(sc, trials + [tr], Visit(sc, st, tr))
  {
    var all := trials + [tr];
    var scores := TrialScores(sc, all);
    assert scores[..|trials|] == TrialScores(sc, trials);
    assert Track(scores, sc.eval.isBetter)
        == Step(Track(TrialScores(sc, trials), sc.eval.isBetter), TrialScore(sc, tr), |trials|, sc.eval.isBetter);
    var w := Track(TrialScores(sc, trials), sc.eval.isBetter).winner;
    if w.Some? {
      assert all[w.value] == trials[w.value];
    }
    assert all[|trials|] == tr;
  }

  /** The locals after the inner loop's body has run on each trial in turn, from Start. */
  function Visits(sc: Scan, trials: seq<Trial>): Tracker
    decreases |trials|
  {
    if |trials| == 0 then Start else Visit(sc, Visits(sc, trials[..|trials| - 1]), trials[|trials| - 1])
  }

  /** The locals computed pass by pass are those of the best-so-far tracker over the same trials. */
  lemma {:induction false} VisitsTracks(sc: Scan, trials: seq<Trial>)
    ensures Tracks(sc, trials, Visits(sc, trials))
    decreases |trials|
  {
    if |trials| == 0 {
      StartTracks(sc);
    } else {
      var init := trials[..|trials| - 1];
      VisitsTracks(sc, init);
      VisitTracks(sc, init, Visits(sc, init), trials[|trials| - 1]);
      assert init + [trials[|trials| - 1]] == trials;
    }
  }

  /** A whole eps scan continues the passes over the scan's row of trials. */
  lemma {:induction false} ScanFromVisits(sc: Scan, pts: int, t: nat, trials: seq<Trial>)
    ensures ScanFrom(sc, pts, t, Visits(sc, trials)) == Visits(sc, trials + Row(sc, pts, t))
    decreases 10 - t
  {
    if EpsLeft(sc, t) {
      var tr := Trial(pts, t);
      assert (trials + [tr])[..|trials|] == trials;
      if Stops(TrialResult(sc, tr), sc.maxSize) {
        assert Row(sc, pts, t) == [tr];
      } else {
        ScanFromVisits(sc, pts, t + 1, trials + [tr]);
        assert trials + [tr] + Row(sc, pts, t + 1) == trials + Row(sc, pts, t);
      }
    } else {
      assert trials + Row(sc, pts, t) == trials;
    }
  }

  /**
   * An eps scan at minPts `pts` either keeps the kept result (its clustering,
   * eps and minPts) or ends with a result found at minPts `pts`.
   */
  lemma {:induction false} ScanFromKeeps(sc: Scan, pts: int, t: nat, st: Tracker)
    ensures var r := ScanFrom(sc, pts, t, st);
            || r.bestPts == pts
            || (r.clustering == st.clustering && r.bestEps == st.bestEps && r.bestPts == st.bestPts)
    decreases 10 - t
  {
    if EpsLeft(sc, t) {
      var tr := Trial(pts, t);
      if !Stops(TrialResult(sc, tr), sc.maxSize) {
        ScanFromKeeps(sc, pts, t + 1, Visit(sc, st, tr));
      }
    }
  }

  /** The two keys the scan writes into `prop`. */
  const ScanKeys: set<Key> := {MinPtsKey, EpsKey}

  /** `prop` agrees with the configuration it held on entry at `key`, unless the scan writes that key. */
  ghost predicate AgreeOn(entries: Config, base: Config, key: Key)
  {
    key in ScanKeys || ((key in entries <==> key in base) && (key in base ==> entries[key] == base[key]))
  }

  /** `prop` differs from the configuration it held on entry at most in MIN_PTS and EPS. */
  ghost predicate AgreesOutside(entries: Config, base: Config)
  {
    forall key :: AgreeOn(entries, base, key)
  }

  /** Writing MIN_PTS or EPS keeps the agreement. */
  lemma PutKeepsAgreement(entries: Config, base: Config, key: Key, v: Value)
    requires AgreesOutside(entries, base) && key in ScanKeys
    ensures AgreesOutside(entries[key := v], base)
  {
    var written := entries[key := v];
    forall k
      ensures AgreeOn(written, base, k)
    {
      assert AgreeOn(entries, base, k);
    }
  }

  lemma SelfAgrees(base: Config)
    ensures AgreesOutside(base, base)
  {
    forall k
      ensures AgreeOn(base, base, k)
    {
    }
  }

  /** Two configurations that agree outside the scan keys and on both scan keys are equal. */
  lemma AgreeEverywhere(a: Config, b: Config, base: Config)
    requires AgreesOutside(a, base) && AgreesOutside(b, base)
    requires MinPtsKey in a && MinPtsKey in b && a[MinPtsKey] == b[MinPtsKey]
    requires EpsKey in a && EpsKey in b && a[EpsKey] == b[EpsKey]
    ensures a == b
  {
    forall key | key !in ScanKeys
      ensures (key in a <==> key in b) && (key in a ==> a[key] == b[key])
    {
      assert AgreeOn(a, base, key) && AgreeOn(b, base, key);
    }
    assert a.Keys == b.Keys;
  }

  /** Writing EPS and then MIN_PTS into such a `prop` gives the grid point's configuration. */
  lemma FinalPoint(entries: Config, base: Config, pts: int, eps: real)
    requires AgreesOutside(entries, base)
    ensures entries[EpsKey := RealV(eps)][MinPtsKey := IntV(pts)] == GridPoint(base, pts, eps)
    ensures base[EpsKey := RealV(eps)][MinPtsKey := IntV(pts)] == GridPoint(base, pts, eps)
  {
    var g := GridPoint(base, pts, eps);
    SelfAgrees(base);
    PutKeepsAgreement(base, base, MinPtsKey, IntV(pts));
    PutKeepsAgreement(base[MinPtsKey := IntV(pts)], base, EpsKey, RealV(eps));
    PutKeepsAgreement(entries, base, EpsKey, RealV(eps));
    PutKeepsAgreement(entries[EpsKey := RealV(eps)], base, MinPtsKey, IntV(pts));
    AgreeEverywhere(entries[EpsKey := RealV(eps)][MinPtsKey := IntV(pts)], g, base);
    PutKeepsAgreement(base, base, EpsKey, RealV(eps));
    PutKeepsAgreement(base[EpsKey := RealV(eps)], base, MinPtsKey, IntV(pts));
    AgreeEverywhere(base[EpsKey := RealV(eps)][MinPtsKey := IntV(pts)], g, base);
  }

  /** `prop` during a scan at minPts `pts`: MIN_PTS is `pts` and nothing else but EPS differs from the entry configuration. */
  ghost predicate AtMinPts(entries: Config, base: Config, pts: int)
  {
    AgreesOutside(entries, base) && MinPtsKey in entries && entries[MinPtsKey] == IntV(pts)
  }

  /** Writing EPS into `prop` at minPts `pts` gives the grid point's configuration. */
  lemma PutEpsAtMinPts(entries: Config, base: Config, pts: int, eps: real)
    requires AtMinPts(entries, base, pts)
    ensures entries[EpsKey := RealV(eps)] == GridPoint(base, pts, eps)
    ensures AtMinPts(entries[EpsKey := RealV(eps)], base, pts)
  {
    var g := GridPoint(base, pts, eps);
    SelfAgrees(base);
    PutKeepsAgreement(base, base, MinPtsKey, IntV(pts));
    PutKeepsAgreement(base[MinPtsKey := IntV(pts)], base, EpsKey, RealV(eps));
    PutKeepsAgreement(entries, base, EpsKey, RealV(eps));
    AgreeEverywhere(entries[EpsKey := RealV(eps)], g, base);
  }

  /** Writing MIN_PTS into a `prop` that agrees with the entry configuration starts a scan at that minPts. */
  lemma PutMinPts(entries: Config, base: Config, pts: int)
    requires AgreesOutside(entries, base)
    ensures AtMinPts(entries[MinPtsKey := IntV(pts)], base, pts)
  {
    PutKeepsAgreement(entries, base, MinPtsKey, IntV(pts));
  }

  /**
   * One pass of the inner loop's body at step t: EPS is written into `prop`,
   * the algorithm is run on `prop` and scored, and the locals are updated as
   * Visit says; `stop` is the early-exit test on the result.
   */
  method ScanOnce(prop: Props, sc: Scan, pts: int, t: nat, eps: real, st: Tracker)
    returns (st': Tracker, stop: bool)
    requires eps == Eps(sc.epsMax, sc.epsMin, t)
    requires AtMinPts(prop.entries, sc.base, pts)
    modifies prop
    ensures AtMinPts(prop.entries, sc.base, pts)
    ensures prop.entries == TrialConf(sc, Trial(pts, t))
    ensures stop == Stops(TrialResult(sc, Trial(pts, t)), sc.maxSize)
    ensures st' == Visit(sc, st, Trial(pts, t))
  {
    PutEpsAtMinPts(prop.entries, sc.base, pts, eps);
    prop.Put(EpsKey, RealV(eps));
    var curr := sc.algorithm(prop.entries);
    var score := ScoreOf(sc.eval, curr, prop.entries);
    st' := st;
    if sc.eval.isBetter(score, st.maxScore) {
      st' := st.(maxScore := score, clustering := Some(curr), bestEps := eps, bestPts := pts);
    }
    st' := st'.(cnt := st'.cnt + 1);
    stop := Stops(curr, sc.maxSize);
  }

  /**
   * The inner `while (eps > epsMin)` loop of both DBSCAN strategies, from
   * step t0 at minPts `pts`: one pass per eps value, eps decremented after
   * each, leaving early on a degenerate result. `t` is the step reached.
   */
  method ScanEps(prop: Props, sc: Scan, pts: int, t0: nat, st: Tracker) returns (st': Tracker, t: nat, eps: real)
    requires t0 <= 10 && (t0 == 0 || sc.epsMin < sc.epsMax)
    requires AtMinPts(prop.entries, sc.base, pts)
    modifies prop
    ensures st' == ScanFrom(sc, pts, t0, st)
    ensures t == t0 + |Row(sc, pts, t0)|
    ensures eps > sc.epsMin <==> EpsLeft(sc, t)
    ensures AtMinPts(prop.entries, sc.base, pts)
  {
    var step := EpsStep(sc.epsMax, sc.epsMin);
    t := t0;
    eps := Eps(sc.epsMax, sc.epsMin, t);
    EpsGuard(sc.epsMax, sc.epsMin, t);
    st' := st;
    while eps > sc.epsMin
      invariant t0 <= t <= 10 && (t == 0 || sc.epsMin < sc.epsMax)
      invariant eps == Eps(sc.epsMax, sc.epsMin, t)
      invariant eps > sc.epsMin <==> EpsLeft(sc, t)
      invariant ScanFrom(sc, pts, t, st') == ScanFrom(sc, pts, t0, st)
      invariant (t - t0) + |Row(sc, pts, t)| == |Row(sc, pts, t0)|
      invariant AtMinPts(prop.entries, sc.base, pts)
      decreases 10 - t
    {
      var stop;
      ScanFromStep(sc, pts, t, st');
      st', stop := ScanOnce(prop, sc, pts, t, eps, st');
      EpsDecrement(sc.epsMax, sc.epsMin, t);
      eps := eps - step;
      t := t + 1;
      EpsGuard(sc.epsMax, sc.epsMin, t);
      if stop {
        break;
      }
    }
  }

  /**
   * The "sp" strategy: minPts 4..10, each with a full eps scan from epsMax;
   * the best grid point is written back into `prop`, which then holds exactly
   * the configuration the kept result was computed with.
   */
  method DbscanSearchParams(prop: Props, n: nat, epsMin: real, epsMax: real,
                            algorithm: Config -> Clustering, eval: Criterion)
    returns (clustering: Option<Clustering>, bestEps: real, bestPts: int, cnt: nat, ghost trials: seq<Trial>)
    modifies prop
    ensures var sc := ScanOf(old(prop.entries), n, epsMin, epsMax, algorithm, eval);
            && trials == SearchGrid(sc, GridEnd)
            && cnt == |trials|
            && var w := Track(TrialScores(sc, trials), eval.isBetter).winner;
               if w.Some? && w.value < |trials| then
                 && clustering == Some(TrialResult(sc, trials[w.value]))
                 && bestEps == Eps(epsMax, epsMin, trials[w.value].t) && bestPts == trials[w.value].minPts
                 && prop.entries == TrialConf(sc, trials[w.value])
               else clustering == None && bestEps == 0.0 && bestPts == 0
    ensures prop.entries == old(prop.entries)[EpsKey := RealV(bestEps)][MinPtsKey := IntV(bestPts)]
  {
    var sc := ScanOf(prop.entries, n, epsMin, epsMax, algorithm, eval);
    SelfAgrees(prop.entries);
    var st;
    st, trials := ScanGrid(prop, sc);
    clustering, bestEps, bestPts, cnt := st.clustering, st.bestEps, st.bestPts, st.cnt;
    FinalPoint(prop.entries, sc.base, bestPts, bestEps);
    prop.Put(EpsKey, RealV(bestEps));
    prop.Put(MinPtsKey, IntV(bestPts));
    VisitsTracks(sc, trials);
  }

  /**
   * One round of either strategy: MIN_PTS is written into `prop`, then the
   * eps scan from step t0 runs, continuing the passes over the earlier trials.
   */
  method ScanRound(prop: Props, sc: Scan, pts: int, t0: nat, st: Tracker, ghost trials: seq<Trial>)
    returns (st': Tracker, t: nat, epsAbove: bool)
    requires t0 <= 10 && (t0 == 0 || sc.epsMin < sc.epsMax)
    requires AgreesOutside(prop.entries, sc.base)
    requires st == Visits(sc, trials)
    modifies prop
    ensures AgreesOutside(prop.entries, sc.base)
    ensures st' == Visits(sc, trials + Row(sc, pts, t0))
    ensures t == t0 + |Row(sc, pts, t0)|
    ensures epsAbove <==> EpsLeft(sc, t)
    ensures st'.bestPts == pts || (st'.bestEps == st.bestEps && st'.bestPts == st.bestPts)
  {
    PutMinPts(prop.entries, sc.base, pts);
    prop.Put(MinPtsKey, IntV(pts));
    var eps;
    st', t, eps := ScanEps(prop, sc, pts, t0, st);
    ScanFromKeeps(sc, pts, t0, st);
    epsAbove := eps > sc.epsMin;
    ScanFromVisits(sc, pts, t0, trials);
  }

  /** The outer `for (i = 4; i <= 10; i++)` loop of "sp": one full eps scan per minPts. */
  method ScanGrid(prop: Props, sc: Scan) returns (st: Tracker, ghost trials: seq<Trial>)
    requires AgreesOutside(prop.entries, sc.base)
    modifies prop
    ensures trials == SearchGrid(sc, GridEnd)
    ensures st == Visits(sc, trials)
    ensures AgreesOutside(prop.entries, sc.base)
  {
    st := Start;
    var i := 4;
    while i <= 10
      invariant 4 <= i <= 11
      invariant AgreesOutside(prop.entries, sc.base)
      invariant st == Visits(sc, SearchGrid(sc, i))
    {
      st := GridRound(prop, sc, i, st);
      i := i + 1;
    }
    trials := SearchGrid(sc, i);
  }

  /** The body of the "sp" loop: a full eps scan from epsMax at minPts i. */
  method GridRound(prop: Props, sc: Scan, i: int, st: Tracker) returns (st': Tracker)
    requires 4 <= i <= 10
    requires AgreesOutside(prop.entries, sc.base)
    requires st == Visits(sc, SearchGrid(sc, i))
    modifies prop
    ensures AgreesOutside(prop.entries, sc.base)
    ensures st' == Visits(sc, SearchGrid(sc, i + 1))
  {
    var t, above;
    st', t, above := ScanRound(prop, sc, i, 0, st, SearchGrid(sc, i));
    assert SearchGrid(sc, i + 1) == SearchGrid(sc, i) + Row(sc, i, 0);
  }

  /**
   * The default strategy as written: minPts starts at 4, eps is NOT reset
   * between rounds, and after every round minPts is incremented; the loop
   * repeats while bestEps is still 0.0. `fuel` bounds the number of rounds
   * the model runs: when nothing beats the 0.0 baseline the source never
   * leaves the loop, and `done` is false whatever the fuel. When it does
   * leave, the minPts written back is one more than the minPts that produced
   * the kept result.
   */
  method DbscanIncremental(prop: Props, n: nat, epsMin: real, epsMax: real,
                           algorithm: Config -> Clustering, eval: Criterion, fuel: nat)
    returns (clustering: Option<Clustering>, bestEps: real, bestPts: int, cnt: nat,
             ghost trials: seq<Trial>, rounds: nat, done: bool)
    requires fuel > 0
    modifies prop
    ensures 0 < rounds <= fuel && (!done ==> rounds == fuel)
    ensures cnt == |trials| && bestPts == 4 + rounds
    ensures done <==> bestEps != 0.0
    ensures var sc := ScanOf(old(prop.entries), n, epsMin, epsMax, algorithm, eval);
            && trials == Rounds(sc, rounds)
            && ((forall k :: 0 <= k < |trials| ==> !eval.isBetter(TrialScore(sc, trials[k]), Baseline)) ==> !done)
            && var w := Track(TrialScores(sc, trials), eval.isBetter).winner;
               && (if w.Some? && w.value < |trials| then
                     clustering == Some(TrialResult(sc, trials[w.value])) && bestEps == Eps(epsMax, epsMin, trials[w.value].t)
                   else clustering == None && bestEps == 0.0)
               && (done ==> w.Some? && w.value < |trials| && bestPts == trials[w.value].minPts + 1)
    ensures done ==> prop.entries == old(prop.entries)[EpsKey := RealV(bestEps)][MinPtsKey := IntV(bestPts)]
  {
    var sc := ScanOf(prop.entries, n, epsMin, epsMax, algorithm, eval);
    SelfAgrees(prop.entries);
    var st := Start;
    var t: nat := 0;
    bestPts := 4;
    rounds, done := 0, false;
    while rounds < fuel && !done
      invariant rounds <= fuel
      invariant t <= 10 && t == |Rounds(sc, rounds)| && bestPts == 4 + rounds
      invariant AgreesOutside(prop.entries, sc.base)
      invariant st == Visits(sc, Rounds(sc, rounds))
      invariant done <==> st.bestEps != 0.0
      invariant done ==> rounds > 0 && bestPts == st.bestPts + 1
    {
      var t', epsAbove;
      st, t', epsAbove := NextRound(prop, sc, bestPts, t, st, rounds);
      t := t';
      bestPts := bestPts + 1;
      rounds := rounds + 1;
      done := st.bestEps != 0.0;
    }
    trials := Rounds(sc, rounds);
    clustering, bestEps, cnt := st.clustering, st.bestEps, st.cnt;
    FinalPoint(prop.entries, sc.base, bestPts, bestEps);
    prop.Put(EpsKey, RealV(bestEps));
    prop.Put(MinPtsKey, IntV(bestPts));
    VisitsTracks(sc, trials);
    TrackNoWinner(TrialScores(sc, trials), eval.isBetter);
  }

  /**
   * The default strategy as evidently intended: the same rounds, but the
   * loop also ends once the eps range is used up, and the minPts written
   * back is the one of the kept result, so `prop` ends as the configuration
   * that produced it.
   */
  method DbscanIncrementalFixed(prop: Props, n: nat, epsMin: real, epsMax: real,
                                algorithm: Config -> Clustering, eval: Criterion)
    returns (clustering: Option<Clustering>, bestEps: real, bestPts: int, cnt: nat,
             ghost trials: seq<Trial>, rounds: nat)
    modifies prop
    ensures rounds > 0
    ensures cnt == |trials| <= 10
    ensures var sc := ScanOf(old(prop.entries), n, epsMin, epsMax, algorithm, eval);
            && trials == Rounds(sc, rounds)
            && var w := Track(TrialScores(sc, trials), eval.isBetter).winner;
               if w.Some? && w.value < |trials| then
                 && clustering == Some(TrialResult(sc, trials[w.value]))
                 && bestEps == Eps(epsMax, epsMin, trials[w.value].t) && bestPts == trials[w.value].minPts
                 && prop.entries == TrialConf(sc, trials[w.value])
               else clustering == None && bestEps == 0.0 && bestPts == 0
    ensures prop.entries == old(prop.entries)[EpsKey := RealV(bestEps)][MinPtsKey := IntV(bestPts)]
  {
    var sc := ScanOf(prop.entries, n, epsMin, epsMax, algorithm, eval);
    SelfAgrees(prop.entries);
    var st;
    st, trials, rounds := ScanRounds(prop, sc);
    clustering, bestEps, bestPts, cnt := st.clustering, st.bestEps, st.bestPts, st.cnt;
    FinalPoint(prop.entries, sc.base, bestPts, bestEps);
    prop.Put(EpsKey, RealV(bestEps));
    prop.Put(MinPtsKey, IntV(bestPts));
    VisitsTracks(sc, trials);
    RoundsBound(sc, rounds);
  }

  /**
   * The rounds of the corrected default strategy: an eps scan at minPts 4,
   * 5, ... continuing from the step where the previous one stopped, until a
   * result is kept or eps reaches epsMin.
   */
  method ScanRounds(prop: Props, sc: Scan) returns (st: Tracker, ghost trials: seq<Trial>, rounds: nat)
    requires AgreesOutside(prop.entries, sc.base)
    modifies prop
    ensures rounds > 0 && trials == Rounds(sc, rounds)
    ensures st == Visits(sc, trials)
    ensures AgreesOutside(prop.entries, sc.base)
  {
    st := Start;
    var t: nat := 0;
    var pts := 4;
    rounds := 0;
    var more := true;
    while more
      invariant t <= 10 && t == |Rounds(sc, rounds)| && pts == 4 + rounds
      invariant !more ==> rounds > 0
      invariant AgreesOutside(prop.entries, sc.base)
      invariant st == Visits(sc, Rounds(sc, rounds))
      decreases more, 10 - t
    {
      var t', epsAbove;
      st, t', epsAbove := NextRound(prop, sc, pts, t, st, rounds);
      pts, rounds := pts + 1, rounds + 1;
      more := st.bestEps == 0.0 && epsAbove;
      t := t';
    }
    trials := Rounds(sc, rounds);
  }

  /**
   * The body of the corrected strategy's loop: round `rounds` scans eps at
   * minPts 4 + rounds from the step the earlier rounds reached, and reports
   * whether eps is still above epsMin afterwards.
   */
  method NextRound(prop: Props, sc: Scan, pts: int, t: nat, st: Tracker, ghost rounds: nat)
    returns (st': Tracker, t': nat, epsAbove: bool)
    requires t <= 10 && t == |Rounds(sc, rounds)| && pts == 4 + rounds
    requires AgreesOutside(prop.entries, sc.base)
    requires st == Visits(sc, Rounds(sc, rounds))
    modifies prop
    ensures t' <= 10 && t' == |Rounds(sc, rounds + 1)|
    ensures epsAbove <==> EpsLeft(sc, t')
    ensures epsAbove ==> t < t'
    ensures AgreesOutside(prop.entries, sc.base)
    ensures st' == Visits(sc, Rounds(sc, rounds + 1))
    ensures st'.bestPts == pts || (st'.bestEps == st.bestEps && st'.bestPts == st.bestPts)
  {
    RoundsBound(sc, rounds);
    RowLength(sc, pts, t);
    st', t', epsAbove := ScanRound(prop, sc, pts, t, st, Rounds(sc, rounds));
    assert Rounds(sc, rounds + 1) == Rounds(sc, rounds) + Row(sc, pts, t);
    RoundsBound(sc, rounds + 1);
  }
}
