/**
 * The ranking evaluation of the results exporter: which objective sets every
 * rank strategy is evaluated with, the composite labels written into the
 * results, the in-place shuffle before multi-objective sorting, the Pareto
 * combinations tried against the reference ranking, and the header-if-absent
 * result rows built from a TreeMap.
 */
module Rankings {
  import opened Model
  import opened Files
  import opened Combinations
  import Text
  import TM = TreeMaps

  /**
   * A rank strategy from the rank factory. `sort` is its external sorting of
   * the clusterings by the objectives; None where it throws.
   */
  datatype Rank = Rank(
    name: string,
    minObjectives: int,
    isMultiObjective: bool,
    sort: (seq<Clustering>, seq<Criterion>) -> Option<seq<Clustering>>)

  /** One `evaluateRanking` call: the rank's position and the indices of the objectives in `obj`. */
  datatype RankingCall = RankingCall(rank: nat, objectives: seq<nat>)

  /** The objective index sets one rank is evaluated with, in loop order; None where the switch throws. */
  function ObjectiveSets(n: nat, minObjectives: int): Option<seq<seq<nat>>>
  {
    if minObjectives == 1 then Some(Singles(n))
    else if minObjectives == 2 then Some(Pairs(n, n))
    else if minObjectives == 3 then Some(Triples(n, n))
    else None
  }

  /** A rank the loop gets through: at least one criterion (`obj.add(evals[0])`) and 1 to 3 objectives. */
  predicate Supported(n: nat, rank: Rank)
  {
    n > 0 && ObjectiveSets(n, rank.minObjectives).Some?
  }

  /** Indices strictly increasing and all below `n`. */
  predicate IncreasingBelow(x: seq<nat>, n: nat)
  {
    && (forall a :: 0 <= a < |x| ==> x[a] < n)
    && (forall a, b :: 0 <= a < b < |x| ==> x[a] < x[b])
  }

  /**
   * For a supported size, the objective sets are exactly the strictly
   * increasing index lists of that size: each of the C(n, m) of them occurs.
   */
  lemma ObjectiveSetsExact(n: nat, m: int, x: seq<nat>)
    requires ObjectiveSets(n, m).Some?
    ensures x in ObjectiveSets(n, m).value <==> |x| == m && IncreasingBelow(x, n)
  {
    if m == 1 {
      SinglesMembers(n);
    } else if m == 2 {
      PairsMember(n, n, x);
    } else {
      TriplesMember(n, n, x);
    }
  }

  /** n singletons, C(n, 2) pairs, C(n, 3) triples. */
  lemma ObjectiveSetsCount(n: nat, m: int)
    requires ObjectiveSets(n, m).Some?
    ensures m == 1 ==> |ObjectiveSets(n, m).value| == n
    ensures m == 2 ==> 2 * |ObjectiveSets(n, m).value| == n * (n - 1)
    ensures m == 3 ==> 6 * |ObjectiveSets(n, m).value| == n * (n - 1) * (n - 2)
  {
    if m == 2 {
      PairsCount(n, n);
    } else if m == 3 {
      TriplesCount(n, n);
    }
  }

  function CallsOf(r: nat, sets: seq<seq<nat>>): (calls: seq<RankingCall>)
    ensures |calls| == |sets|
  {
    seq(|sets|, t requires 0 <= t < |sets| => RankingCall(r, sets[t]))
  }

  /** The calls made for the first `r` ranks, when all of them are supported. */
  function RankingCalls(ranks: seq<Rank>, n: nat, r: nat): seq<RankingCall>
    requires r <= |ranks|
    decreases r
  {
    if r == 0 then []
    else
      var more := if Supported(n, ranks[r - 1])
        then CallsOf(r - 1, ObjectiveSets(n, ranks[r - 1].minObjectives).value)
        else [];
      RankingCalls(ranks, n, r - 1) + more
  }

  /** The rank whose `RuntimeException` (or empty criteria array) ends the loop, or |ranks| when none does. */
  function FirstUnsupported(ranks: seq<Rank>, n: nat): (r: nat)
    ensures r <= |ranks|
    ensures forall q :: 0 <= q < r ==> Supported(n, ranks[q])
    ensures r < |ranks| ==> !Supported(n, ranks[r])
    decreases |ranks|
  {
    if |ranks| == 0 then 0
    else if !Supported(n, ranks[0]) then 0
    else 1 + FirstUnsupported(ranks[1..], n)
  }

  /**
   * Every call the loop makes uses a supported rank, and its objective list
   * has exactly `minObjectives` strictly increasing criterion indices.
   */
  lemma {:induction false} RankingCallsShape(ranks: seq<Rank>, n: nat, r: nat, c: RankingCall)
    requires r <= |ranks|
    requires c in RankingCalls(ranks, n, r)
    ensures c.rank < r && Supported(n, ranks[c.rank])
    ensures |c.objectives| == ranks[c.rank].minObjectives && IncreasingBelow(c.objectives, n)
    decreases r
  {
    var prev := RankingCalls(ranks, n, r - 1);
    if c in prev {
      RankingCallsShape(ranks, n, r - 1, c);
    } else {
      var sets := ObjectiveSets(n, ranks[r - 1].minObjectives).value;
      var t :| 0 <= t < |sets| && CallsOf(r - 1, sets)[t] == c;
      ObjectiveSetsExact(n, ranks[r - 1].minObjectives, sets[t]);
    }
  }

  /** The single-objective case: `obj.set(0, evals[i])` for each criterion. */
  method EnumerateSingles(n: nat) returns (sets: seq<seq<nat>>)
    requires n > 0
    ensures sets == Singles(n)
  {
    var obj: seq<nat> := [0];
    sets := [];
    var i := 0;
    while i < n
      invariant 0 <= i <= n && |obj| == 1
      invariant sets == Singles(n)[..i]
    {
      obj := obj[0 := i];
      assert obj == [i] == Singles(n)[i];
      assert Singles(n)[..i + 1] == Singles(n)[..i] + [obj];
      sets := sets + [obj];
      i := i + 1;
    }
  }

  /** The two-objective case: indices i < j, `obj` updated in place. */
  method EnumeratePairs(n: nat) returns (sets: seq<seq<nat>>)
    requires n > 0
    ensures sets == Pairs(n, n)
  {
    var obj: seq<nat> := [0, 0];
    sets := [];
    var i := 0;
    while i < n - 1
      invariant 0 <= i <= n - 1 && |obj| == 2
      invariant sets == Pairs(n, i)
    {
      obj := obj[0 := i];
      var j := i + 1;
      while j < n
        invariant i + 1 <= j <= n && |obj| == 2 && obj[0] == i
        invariant sets == Pairs(n, i) + PairRow(n, i)[..j - i - 1]
      {
        obj := obj[1 := j];
        assert obj == PairRow(n, i)[j - i - 1];
        assert PairRow(n, i)[..j - i] == PairRow(n, i)[..j - i - 1] + [obj];
        sets := sets + [obj];
        j := j + 1;
      }
      assert PairRow(n, i)[..j - i - 1] == PairRow(n, i);
      i := i + 1;
    }
    assert Pairs(n, n) == Pairs(n, n - 1) + PairRow(n, n - 1);
  }

  /** The innermost loop of the three-objective case: k from j + 1. */
  method EnumerateTripleRow(n: nat, i: nat, j: nat, obj0: seq<nat>) returns (row: seq<seq<nat>>, obj: seq<nat>)
    requires i < j < n && |obj0| == 3 && obj0[0] == i && obj0[1] == j
    ensures row == TripleRow(n, i, j)
    ensures |obj| == 3 && obj[0] == i && obj[1] == j
  {
    obj := obj0;
    row := [];
    var k := j + 1;
    while k < n
      invariant j + 1 <= k <= n && |obj| == 3 && obj[0] == i && obj[1] == j
      invariant row == TripleRow(n, i, j)[..k - j - 1]
    {
      obj := obj[2 := k];
      assert obj == TripleRow(n, i, j)[k - j - 1];
      assert TripleRow(n, i, j)[..k - j] == TripleRow(n, i, j)[..k - j - 1] + [obj];
      row := row + [obj];
      k := k + 1;
    }
    assert TripleRow(n, i, j)[..k - j - 1] == TripleRow(n, i, j);
  }

  /** The three-objective case: indices i < j < k, `obj` updated in place. */
  method EnumerateTriples(n: nat) returns (sets: seq<seq<nat>>)
    requires n > 0
    ensures sets == Triples(n, n)
  {
    var obj: seq<nat> := [0, 0, 0];
    sets := [];
    var i := 0;
    while i < n - 2
      invariant 0 <= i && (n >= 2 ==> i <= n - 2) && (n < 2 ==> i == 0) && |obj| == 3
      invariant sets == Triples(n, i)
    {
      var plane;
      plane, obj := EnumeratePlane(n, i, obj);
      sets := sets + plane;
      i := i + 1;
    }
    TriplesTail(n, i);
  }

  /** The middle loop of the three-objective case: j from i + 1, each with its row of k. */
  method EnumeratePlane(n: nat, i: nat, obj0: seq<nat>) returns (plane: seq<seq<nat>>, obj: seq<nat>)
    requires i + 2 < n && |obj0| == 3
    ensures plane == Plane(n, i, n)
    ensures |obj| == 3
  {
    obj := obj0[0 := i];
    plane := [];
    var j := i + 1;
    while j < n - 1
      invariant i + 1 <= j <= n - 1 && |obj| == 3 && obj[0] == i
      invariant plane == Plane(n, i, j)
    {
      obj := obj[1 := j];
      var row;
      row, obj := EnumerateTripleRow(n, i, j, obj);
      plane := plane + row;
      j := j + 1;
    }
    assert Plane(n, i, n) == Plane(n, i, n - 1) + TripleRow(n, i, n - 1);
  }

  /** The planes with first index n - 2 or more are empty, so stopping the outer loop early loses nothing. */
  lemma {:induction false} TriplesTail(n: nat, i: nat)
    requires i <= n && (n >= 2 ==> i == n - 2) && (n < 2 ==> i == 0)
    ensures Triples(n, n) == Triples(n, i)
  {
    if n >= 2 {
      assert Plane(n, n - 1, n) == [];
      assert Plane(n, n - 2, n) == Plane(n, n - 2, n - 1) + TripleRow(n, n - 2, n - 1);
      assert Triples(n, n) == Triples(n, n - 1) + Plane(n, n - 1, n);
    } else if n == 1 {
      assert Plane(1, 0, 1) == [];
    }
  }

  /** The switch on `getMinObjectives()`; None for the default branch, which throws. */
  method EnumerateObjectives(n: nat, minObjectives: int) returns (sets: Option<seq<seq<nat>>>)
    requires n > 0
    ensures sets == ObjectiveSets(n, minObjectives)
  {
    if minObjectives == 1 {
      var s := EnumerateSingles(n);
      sets := Some(s);
    } else if minObjectives == 2 {
      var s := EnumeratePairs(n);
      sets := Some(s);
    } else if minObjectives == 3 {
      var s := EnumerateTriples(n);
      sets := Some(s);
    } else {
      sets := None;
    }
  }

  /**
   * `evaluateRankings`: for every rank, every objective set of its size, in
   * loop order. The loop ends at the first rank it cannot serve (an
   * unsupported `getMinObjectives()`, or no criteria at all); the calls made
   * before it stand.
   */
  method EvaluateRankings(ranks: seq<Rank>, n: nat) returns (calls: seq<RankingCall>, failed: Option<nat>)
    ensures failed.Some? <==> FirstUnsupported(ranks, n) < |ranks|
    ensures failed.Some? ==> failed.value == FirstUnsupported(ranks, n)
    ensures calls == RankingCalls(ranks, n, FirstUnsupported(ranks, n))
  {
    calls := [];
    failed := None;
    ghost var first := FirstUnsupported(ranks, n);
    var r := 0;
    while r < |ranks|
      invariant r <= first
      invariant calls == RankingCalls(ranks, n, r)
    {
      var rank := ranks[r];
      FirstUnsupportedAt(ranks, n, r);
      if n == 0 {
        failed := Some(r);
        return;
      }
      var sets := EnumerateObjectives(n, rank.minObjectives);
      if sets.None? {
        failed := Some(r);
        return;
      }
      RankingCallsStep(ranks, n, r);
      calls := calls + CallsOf(r, sets.value);
      r := r + 1;
    }
  }

  /** A rank at or before the first unsupported one is that one exactly when the loop cannot serve it. */
  lemma FirstUnsupportedAt(ranks: seq<Rank>, n: nat, r: nat)
    requires r <= FirstUnsupported(ranks, n) && r < |ranks|
    ensures Supported(n, ranks[r]) <==> r < FirstUnsupported(ranks, n)
  {
  }

  /** A supported rank appends its own calls to those of the ranks before it. */
  lemma RankingCallsStep(ranks: seq<Rank>, n: nat, r: nat)
    requires r < |ranks| && Supported(n, ranks[r])
    ensures RankingCalls(ranks, n, r + 1) ==
              RankingCalls(ranks, n, r) + CallsOf(r, ObjectiveSets(n, ranks[r].minObjectives).value)
  {
  }

  /** What `rankingStrategyName` prints for one objective: an internal evaluator's callsign, otherwise its handle. */
  function Label(c: Criterion): string
  {
    match c.callsign
    case Some(s) => s
    case None => c.handle
  }

  function Labels(obj: seq<Criterion>): (r: seq<string>)
    ensures |r| == |obj|
  {
    seq(|obj|, t requires 0 <= t < |obj| => Label(obj[t]))
  }

  /** The rank name, a dash, then the objectives' labels separated by commas. */
  function StrategyName(rank: Rank, obj: seq<Criterion>): string
  {
    rank.name + "-" + Text.Join(Labels(obj), ",")
  }

  /** `rankingStrategyName`: the StringBuilder loop that puts a comma before every label but the first. */
  method RankingStrategyName(rank: Rank, obj: seq<Criterion>) returns (r: string)
    ensures r == StrategyName(rank, obj)
  {
    var labels := Labels(obj);
    r := rank.name + "-";
    var i := 0;
    while i < |obj|
      invariant 0 <= i <= |obj|
      invariant r == rank.name + "-" + Text.Join(labels[..i], ",")
    {
      if i > 0 {
        r := r + ",";
        Text.JoinSnoc(labels[..i], labels[i], ",");
      }
      r := r + Label(obj[i]);
      assert labels[..i + 1] == labels[..i] + [labels[i]];
      i := i + 1;
    }
    assert labels[..i] == labels;
  }

  /** With labels free of commas, the name lists them with exactly one comma between neighbours and none trailing. */
  lemma StrategyNameCommas(rank: Rank, obj: seq<Criterion>)
    requires |obj| > 0
    requires forall t :: 0 <= t < |obj| ==> ',' !in Label(obj[t])
    ensures Text.Count(Text.Join(Labels(obj), ","), ',') == |obj| - 1
  {
    Text.JoinCount(Labels(obj), ',');
  }

  /** `moName`: each objective's name followed by " & ", then the sorting objective's name. */
  method MoName(objectives: seq<string>, sorting: string) returns (r: string)
    ensures r == Text.Join(objectives + [sorting], " & ")
  {
    r := "";
    var i := 0;
    while i < |objectives|
      invariant 0 <= i <= |objectives|
      invariant r == Text.Terminated(objectives[..i], " & ")
    {
      assert objectives[..i + 1][..i] == objectives[..i];
      r := r + objectives[i] + " & ";
      i := i + 1;
    }
    assert objectives[..i] == objectives;
    Text.TerminatedThenLastIsJoin(objectives, sorting, " & ");
    r := r + sorting;
  }

  /** Two objectives and a sorting criterion read "A & B & C". */
  lemma MoNameOfThree(a: string, b: string, c: string)
    ensures Text.Join([a, b] + [c], " & ") == a + " & " + b + " & " + c
  {
    assert [a, b] + [c] == [a, b, c];
    assert [a, b, c][..2] == [a, b];
    assert [a, b][..1] == [a];
    assert Text.Join([a], " & ") == a;
    assert Text.Join([a, b], " & ") == a + " & " + b;
  }

  /**
   * `shuffleArray`: Fisher–Yates, swapping each cell from the last down with a
   * cell at or before it. The random index is an arbitrary choice here.
   */
  method Shuffle<T>(a: array<T>)
    modifies a
    ensures multiset(a[..]) == multiset(old(a[..]))
  {
    var i := a.Length - 1;
    while i > 0
      invariant -1 <= i < a.Length
      invariant multiset(a[..]) == multiset(old(a[..]))
    {
      var index :| 0 <= index <= i;
      a[index], a[i] := a[i], a[index];
      i := i - 1;
    }
  }

  /** The result TreeMap of one ranking evaluation, in the order of its puts. */
  function RankingRecord(methodName: string, supervised: string, numObjectives: nat, rankName: string,
                         cmpName: string, corr: string): seq<(string, string)>
  {
    var m0: seq<(string, string)> := [];
    var m1 := TM.Put(m0, "method", methodName);
    var m2 := TM.Put(m1, "ext-ranking", supervised);
    var m3 := TM.Put(m2, "num-objectives", Text.Digits(numObjectives));
    var m4 := TM.Put(m3, "ranking", rankName);
    TM.Put(m4, cmpName, corr)
  }

  /** The row's columns are in key order, one per distinct key put. */
  lemma RankingRecordKeys(methodName: string, supervised: string, numObjectives: nat, rankName: string,
                          cmpName: string, corr: string)
    ensures TM.Sorted(RankingRecord(methodName, supervised, numObjectives, rankName, cmpName, corr))
    ensures TM.KeySet(RankingRecord(methodName, supervised, numObjectives, rankName, cmpName, corr)) ==
              {"method", "ext-ranking", "num-objectives", "ranking", cmpName}
  {
    var m0: seq<(string, string)> := [];
    assert TM.KeySet(m0) == {};
    KeysAfterPuts(m0, "method", methodName, "ext-ranking", supervised, "num-objectives", Text.Digits(numObjectives),
                  "ranking", rankName, cmpName, corr);
  }

  /** Five puts into a sorted map keep it sorted and add exactly their five keys. */
  lemma KeysAfterPuts(m0: seq<(string, string)>, k1: string, v1: string, k2: string, v2: string, k3: string, v3: string,
                      k4: string, v4: string, k5: string, v5: string)
    requires TM.Sorted(m0)
    ensures var m := TM.Put(TM.Put(TM.Put(TM.Put(TM.Put(m0, k1, v1), k2, v2), k3, v3), k4, v4), k5, v5);
            && TM.Sorted(m)
            && TM.KeySet(m) == TM.KeySet(m0) + {k1, k2, k3, k4, k5}
  {
    var m1 := TM.Put(m0, k1, v1);
    var m2 := TM.Put(m1, k2, v2);
    var m3 := TM.Put(m2, k3, v3);
    var m4 := TM.Put(m3, k4, v4);
    TM.PutSorted(m0, k1, v1);
    TM.PutSorted(m1, k2, v2);
    TM.PutSorted(m2, k3, v3);
    TM.PutSorted(m3, k4, v4);
    TM.PutSorted(m4, k5, v5);
    KeySetAfterPuts(m0, k1, v1, k2, v2, k3, v3, k4, v4, k5, v5);
  }

  /** Five puts add exactly their five keys. */
  lemma KeySetAfterPuts(m0: seq<(string, string)>, k1: string, v1: string, k2: string, v2: string, k3: string, v3: string,
                        k4: string, v4: string, k5: string, v5: string)
    ensures var m := TM.Put(TM.Put(TM.Put(TM.Put(TM.Put(m0, k1, v1), k2, v2), k3, v3), k4, v4), k5, v5);
            TM.KeySet(m) == TM.KeySet(m0) + {k1, k2, k3, k4, k5}
  {
    var m1 := TM.Put(m0, k1, v1);
    var m2 := TM.Put(m1, k2, v2);
    var m3 := TM.Put(m2, k3, v3);
    var m4 := TM.Put(m3, k4, v4);
    TM.PutKeys(m0, k1, v1);
    TM.PutKeys(m1, k2, v2);
    assert TM.KeySet(m2) == TM.KeySet(m0) + {k1, k2};
    TM.PutKeys(m2, k3, v3);
    assert TM.KeySet(m3) == TM.KeySet(m0) + {k1, k2, k3};
    TM.PutKeys(m3, k4, v4);
    assert TM.KeySet(m4) == TM.KeySet(m0) + {k1, k2, k3, k4};
    TM.PutKeys(m4, k5, v5);
  }

  /**
   * The row holds each value under its key; the comparator's own name wins
   * if it equals one of the fixed keys.
   */
  lemma RankingRecordValues(methodName: string, supervised: string, numObjectives: nat, rankName: string,
                            cmpName: string, corr: string)
    ensures TM.Get(RankingRecord(methodName, supervised, numObjectives, rankName, cmpName, corr), cmpName) == Some(corr)
    ensures cmpName != "method" ==>
              TM.Get(RankingRecord(methodName, supervised, numObjectives, rankName, cmpName, corr), "method") == Some(methodName)
    ensures cmpName != "ext-ranking" ==>
              TM.Get(RankingRecord(methodName, supervised, numObjectives, rankName, cmpName, corr), "ext-ranking") == Some(supervised)
    ensures cmpName != "num-objectives" ==>
              TM.Get(RankingRecord(methodName, supervised, numObjectives, rankName, cmpName, corr), "num-objectives") ==
                Some(Text.Digits(numObjectives))
    ensures cmpName != "ranking" ==>
              TM.Get(RankingRecord(methodName, supervised, numObjectives, rankName, cmpName, corr), "ranking") == Some(rankName)
  {
    var m0: seq<(string, string)> := [];
    var m1 := TM.Put(m0, "method", methodName);
    var m2 := TM.Put(m1, "ext-ranking", supervised);
    var m3 := TM.Put(m2, "num-objectives", Text.Digits(numObjectives));
    var m4 := TM.Put(m3, "ranking", rankName);
    RankingRecordKeys(methodName, supervised, numObjectives, rankName, cmpName, corr);
    GetAfterPuts(m0, "method", methodName, "ext-ranking", supervised, "num-objectives", Text.Digits(numObjectives),
                 "ranking", rankName, cmpName, corr);
  }

  /** Looking up each of five keys after five puts into a sorted map. */
  lemma GetAfterPuts(m0: seq<(string, string)>, k1: string, v1: string, k2: string, v2: string, k3: string, v3: string,
                     k4: string, v4: string, k5: string, v5: string)
    requires TM.Sorted(m0)
    requires k1 != k2 && k1 != k3 && k1 != k4 && k2 != k3 && k2 != k4 && k3 != k4
    ensures var m := TM.Put(TM.Put(TM.Put(TM.Put(TM.Put(m0, k1, v1), k2, v2), k3, v3), k4, v4), k5, v5);
            && TM.Get(m, k5) == Some(v5)
            && (k1 != k5 ==> TM.Get(m, k1) == Some(v1))
            && (k2 != k5 ==> TM.Get(m, k2) == Some(v2))
            && (k3 != k5 ==> TM.Get(m, k3) == Some(v3))
            && (k4 != k5 ==> TM.Get(m, k4) == Some(v4))
  {
    var m1 := TM.Put(m0, k1, v1);
    var m2 := TM.Put(m1, k2, v2);
    var m3 := TM.Put(m2, k3, v3);
    var m4 := TM.Put(m3, k4, v4);
    TM.PutSorted(m0, k1, v1);
    TM.PutSorted(m1, k2, v2);
    TM.PutSorted(m2, k3, v3);
    TM.PutSorted(m3, k4, v4);
    TM.PutGet(m0, k1, v1, k2);
    TM.PutGet(m1, k2, v2, k1);
    TM.PutGet(m2, k3, v3, k1);
    TM.PutGet(m2, k3, v3, k2);
    TM.PutGet(m3, k4, v4, k1);
    TM.PutGet(m3, k4, v4, k2);
    TM.PutGet(m3, k4, v4, k3);
    TM.PutGet(m4, k5, v5, k1);
    TM.PutGet(m4, k5, v5, k2);
    TM.PutGet(m4, k5, v5, k3);
    TM.PutGet(m4, k5, v5, k4);
  }

  /**
   * `evaluateRanking`: a multi-objective rank first shuffles the shared
   * clustering array in place; then the rank sorts it, and the strategy name,
   * the supervised criterion, the number of objectives, the rank name and the
   * formatted correlation go to the results file under the header discipline.
   * An exception while sorting is caught and nothing is written.
   */
  method EvaluateRanking(fs: FileSystem, results: Path, clusts: array<Clustering>, rank: Rank,
                         obj: seq<Criterion>, supervised: string, cmpName: string,
                         correlation: seq<Clustering> -> real, format: real -> string)
    returns (written: bool)
    modifies fs, clusts
    ensures rank.isMultiObjective ==> multiset(clusts[..]) == multiset(old(clusts[..]))
    ensures !rank.isMultiObjective ==> clusts[..] == old(clusts[..])
    ensures written <==> rank.sort(clusts[..], obj).Some?
    ensures !written ==> fs.files == old(fs.files)
    ensures written ==>
              var rec := RankingRecord(StrategyName(rank, obj), supervised, |obj|, rank.name, cmpName,
                                       format(correlation(rank.sort(clusts[..], obj).value)));
              fs.files == Record(old(fs.files), results, Texts(TM.Keys(rec)), Texts(TM.Values(rec)))
  {
    if rank.isMultiObjective {
      Shuffle(clusts);
    }
    var sorted := rank.sort(clusts[..], obj);
    if sorted.None? {
      return false;
    }
    var methodName := RankingStrategyName(rank, obj);
    var corr := correlation(sorted.value);
    var res: seq<(string, string)> := [];
    res := TM.Put(res, "method", methodName);
    res := TM.Put(res, "ext-ranking", supervised);
    res := TM.Put(res, "num-objectives", Text.Digits(|obj|));
    res := TM.Put(res, "ranking", rank.name);
    res := TM.Put(res, cmpName, format(corr));
    fs.WriteRecord(results, Texts(TM.Keys(res)), Texts(TM.Values(res)));
    written := true;
  }

  /** The name of criterion `i`; the combinations only use indices in range. */
  function NameAt(names: seq<string>, i: nat): string
  {
    if i < |names| then names[i] else ""
  }

  function NamesOf(names: seq<string>, c: seq<nat>): (r: seq<string>)
    ensures |r| == |c|
  {
    seq(|c|, t requires 0 <= t < |c| => NameAt(names, c[t]))
  }

  /** The label `moName` gives a Pareto combination: its criteria's names joined by " & ". */
  function MoLabel(names: seq<string>, c: seq<nat>): string
  {
    Text.Join(NamesOf(names, c), " & ")
  }

  /** The result entries of the given combinations: label and formatted correlation. */
  function MoEntries(names: seq<string>, combos: seq<seq<nat>>, corr: seq<nat> -> real, format: real -> string)
    : (r: seq<(string, string)>)
    ensures |r| == |combos|
  {
    seq(|combos|, t requires 0 <= t < |combos| => (MoLabel(names, combos[t]), format(corr(combos[t]))))
  }

  function Corrs(combos: seq<seq<nat>>, corr: seq<nat> -> real): (r: seq<real>)
    ensures |r| == |combos|
  {
    seq(|combos|, t requires 0 <= t < |combos| => corr(combos[t]))
  }

  /** Extending the combinations by one extends their entries and correlations by that one's. */
  lemma EntriesSnoc(names: seq<string>, combos: seq<seq<nat>>, k: nat, corr: seq<nat> -> real, format: real -> string)
    requires k < |combos|
    ensures MoEntries(names, combos[..k + 1], corr, format)
            == MoEntries(names, combos[..k], corr, format) + [(MoLabel(names, combos[k]), format(corr(combos[k])))]
    ensures Corrs(combos[..k + 1], corr) == Corrs(combos[..k], corr) + [corr(combos[k])]
  {
    var a := MoEntries(names, combos[..k + 1], corr, format);
    var b := MoEntries(names, combos[..k], corr, format) + [(MoLabel(names, combos[k]), format(corr(combos[k])))];
    assert forall t :: 0 <= t < |a| ==> a[t] == b[t];
    var c := Corrs(combos[..k + 1], corr);
    var d := Corrs(combos[..k], corr) + [corr(combos[k])];
    assert forall t :: 0 <= t < |c| ==> c[t] == d[t];
  }

  /** The label of a triple names its three criteria in order. */
  lemma TripleLabel(names: seq<string>, i: nat, j: nat, k: nat)
    requires i < |names| && j < |names| && k < |names|
    ensures MoLabel(names, [i, j, k]) == Text.Join([names[i], names[j]] + [names[k]], " & ")
  {
    assert NamesOf(names, [i, j, k]) == [names[i], names[j]] + [names[k]];
  }

  /** A running maximum from `start` that only a strictly greater value replaces. */
  function MaxFrom(start: real, cs: seq<real>): real
    decreases |cs|
  {
    if |cs| == 0 then start
    else
      var m := MaxFrom(start, cs[..|cs| - 1]);
      if cs[|cs| - 1] > m then cs[|cs| - 1] else m
  }

  /** The running maximum is the largest of the start and the values, and is one of them. */
  lemma {:induction false} MaxFromBounds(start: real, cs: seq<real>)
    ensures MaxFrom(start, cs) >= start
    ensures forall t :: 0 <= t < |cs| ==> cs[t] <= MaxFrom(start, cs)
    ensures MaxFrom(start, cs) == start || MaxFrom(start, cs) in cs
    decreases |cs|
  {
    if |cs| > 0 {
      var init := cs[..|cs| - 1];
      MaxFromBounds(start, init);
      assert forall t :: 0 <= t < |init| ==> init[t] == cs[t];
      assert MaxFrom(start, init) in init ==> MaxFrom(start, init) in cs;
    }
  }

  /** One more value replaces the running maximum exactly when it is strictly greater. */
  lemma MaxFromSnoc(start: real, cs: seq<real>, c: real)
    ensures MaxFrom(start, cs + [c]) == if c > MaxFrom(start, cs) then c else MaxFrom(start, cs)
  {
    assert (cs + [c])[..|cs|] == cs;
  }

  lemma {:induction false} MaxFromAppend(start: real, a: seq<real>, b: seq<real>)
    ensures MaxFrom(start, a + b) == MaxFrom(MaxFrom(start, a), b)
    decreases |b|
  {
    if |b| == 0 {
      assert a + b == a;
    } else {
      var init := b[..|b| - 1];
      MaxFromAppend(start, a, init);
      assert (a + b)[..|a + b| - 1] == a + init;
    }
  }

  /** The Pareto combinations `evaluateMOrank` tries: every pair i < j, then every sorting criterion k. */
  function MoCombos(n: nat): seq<seq<nat>>
  {
    Crossed(Pairs(n, n), n)
  }

  /** Exactly the [i, j, k] with i < j < n and k < n occur, n · C(n, 2) of them. */
  lemma MoCombosExact(n: nat, x: seq<nat>)
    ensures x in MoCombos(n) <==> |x| == 3 && x[0] < x[1] < n && x[2] < n
    ensures 2 * |MoCombos(n)| == n * (n * (n - 1))
  {
    CrossedMember(Pairs(n, n), n, x);
    CrossedCount(Pairs(n, n), n);
    PairsCount(n, n);
    if |x| > 0 {
      PairsMember(n, n, x[..|x| - 1]);
    }
  }

  /** Crossing two runs of pairs one after the other is crossing them together, in entries and in correlations. */
  lemma MoAppend(res: seq<(string, string)>, start: real, names: seq<string>, ps: seq<seq<nat>>, qs: seq<seq<nat>>,
                 n: nat, corr: seq<nat> -> real, format: real -> string)
    ensures TM.PutAll(res, MoEntries(names, Crossed(ps + qs, n), corr, format)) ==
              TM.PutAll(TM.PutAll(res, MoEntries(names, Crossed(ps, n), corr, format)), MoEntries(names, Crossed(qs, n), corr, format))
    ensures MaxFrom(start, Corrs(Crossed(ps + qs, n), corr)) ==
              MaxFrom(MaxFrom(start, Corrs(Crossed(ps, n), corr)), Corrs(Crossed(qs, n), corr))
  {
    var a := Crossed(ps, n);
    var b := Crossed(qs, n);
    CrossedAppend(ps, qs, n);
    assert MoEntries(names, a + b, corr, format) == MoEntries(names, a, corr, format) + MoEntries(names, b, corr, format);
    assert Corrs(a + b, corr) == Corrs(a, corr) + Corrs(b, corr);
    TM.PutAllAppend(res, MoEntries(names, a, corr, format), MoEntries(names, b, corr, format));
    MaxFromAppend(start, Corrs(a, corr), Corrs(b, corr));
  }

  /**
   * The innermost loop of `evaluateMOrank` for the pair (i, j): each sorting
   * criterion k gives a label and a correlation; `maxCorr` moves only on a
   * strictly greater correlation and the map gets the formatted value.
   */
  method SortCriteria(res0: seq<(string, string)>, names: seq<string>, i: nat, j: nat,
                      corr: seq<nat> -> real, format: real -> string, maxCorr0: real)
    returns (res: seq<(string, string)>, maxCorr: real)
    requires i < j < |names|
    ensures res == TM.PutAll(res0, MoEntries(names, SortRow([i, j], |names|), corr, format))
    ensures maxCorr == MaxFrom(maxCorr0, Corrs(SortRow([i, j], |names|), corr))
  {
    var n := |names|;
    ghost var row := SortRow([i, j], n);
    res := res0;
    maxCorr := maxCorr0;
    var k := 0;
    while k < n
      invariant 0 <= k <= n
      invariant res == TM.PutAll(res0, MoEntries(names, row[..k], corr, format))
      invariant maxCorr == MaxFrom(maxCorr0, Corrs(row[..k], corr))
    {
      var name := MoName([names[i], names[j]], names[k]);
      var c := corr([i, j, k]);
      SortStep(res0, names, i, j, k, corr, format, maxCorr0);
      if c > maxCorr {
        maxCorr := c;
      }
      res := TM.Put(res, name, format(c));
      k := k + 1;
    }
    assert row[..k] == row;
  }

  /** Sorting criterion `k` puts its label and formatted correlation, and offers its correlation to the maximum. */
  lemma SortStep(res0: seq<(string, string)>, names: seq<string>, i: nat, j: nat, k: nat,
                 corr: seq<nat> -> real, format: real -> string, maxCorr0: real)
    requires i < j < |names| && k < |names|
    ensures var row, c := SortRow([i, j], |names|), corr([i, j, k]);
      && TM.PutAll(res0, MoEntries(names, row[..k + 1], corr, format)) ==
           TM.Put(TM.PutAll(res0, MoEntries(names, row[..k], corr, format)),
                  Text.Join([names[i], names[j]] + [names[k]], " & "), format(c))
      && MaxFrom(maxCorr0, Corrs(row[..k + 1], corr)) ==
           if c > MaxFrom(maxCorr0, Corrs(row[..k], corr)) then c else MaxFrom(maxCorr0, Corrs(row[..k], corr))
  {
    var row, c := SortRow([i, j], |names|), corr([i, j, k]);
    var name := Text.Join([names[i], names[j]] + [names[k]], " & ");
    assert row[k] == [i, j, k];
    TripleLabel(names, i, j, k);
    EntriesSnoc(names, row, k, corr, format);
    MaxFromSnoc(maxCorr0, Corrs(row[..k], corr), c);
    TM.PutAllSnoc(res0, MoEntries(names, row[..k], corr, format), (name, format(c)));
  }

  /** The result map after the combinations of the given pairs. */
  function MoState(res0: seq<(string, string)>, names: seq<string>, ps: seq<seq<nat>>,
                   corr: seq<nat> -> real, format: real -> string): seq<(string, string)>
  {
    TM.PutAll(res0, MoEntries(names, Crossed(ps, |names|), corr, format))
  }

  /** The best correlation after the combinations of the given pairs. */
  function MoMax(start: real, names: seq<string>, ps: seq<seq<nat>>, corr: seq<nat> -> real): real
  {
    MaxFrom(start, Corrs(Crossed(ps, |names|), corr))
  }

  /** Pair (i, j) comes next in row i: its sorting criteria extend the state. */
  lemma PairRowStep(res0: seq<(string, string)>, start: real, names: seq<string>, i: nat, j: nat,
                    corr: seq<nat> -> real, format: real -> string)
    requires i < j < |names|
    ensures MoState(res0, names, PairRow(|names|, i)[..j - i], corr, format) ==
              TM.PutAll(MoState(res0, names, PairRow(|names|, i)[..j - i - 1], corr, format),
                        MoEntries(names, SortRow([i, j], |names|), corr, format))
    ensures MoMax(start, names, PairRow(|names|, i)[..j - i], corr) ==
              MaxFrom(MoMax(start, names, PairRow(|names|, i)[..j - i - 1], corr), Corrs(SortRow([i, j], |names|), corr))
  {
    var n := |names|;
    var done := PairRow(n, i)[..j - i - 1];
    assert PairRow(n, i)[..j - i] == done + [[i, j]];
    MoAppend(res0, start, names, done, [[i, j]], n, corr, format);
    assert Crossed([[i, j]], n) == SortRow([i, j], n) by {
      assert [[i, j]][..0] == [];
    }
  }

  /** The middle loop of `evaluateMOrank` for first objective `i`: every j > i. */
  method SecondObjectives(res0: seq<(string, string)>, names: seq<string>, i: nat,
                          corr: seq<nat> -> real, format: real -> string, maxCorr0: real)
    returns (res: seq<(string, string)>, maxCorr: real)
    requires i < |names|
    ensures res == MoState(res0, names, PairRow(|names|, i), corr, format)
    ensures maxCorr == MoMax(maxCorr0, names, PairRow(|names|, i), corr)
  {
    var n := |names|;
    res := res0;
    maxCorr := maxCorr0;
    var j := i + 1;
    while j < n
      invariant i + 1 <= j <= n
      invariant res == MoState(res0, names, PairRow(n, i)[..j - i - 1], corr, format)
      invariant maxCorr == MoMax(maxCorr0, names, PairRow(n, i)[..j - i - 1], corr)
    {
      PairRowStep(res0, maxCorr0, names, i, j, corr, format);
      res, maxCorr := SortCriteria(res, names, i, j, corr, format, maxCorr);
      j := j + 1;
    }
    assert PairRow(n, i)[..j - i - 1] == PairRow(n, i);
  }

  /**
   * `evaluateMOrank`: every pair i < j of objectives crossed with every
   * sorting criterion k, each combination's correlation with the reference
   * ranking put into the result map under its label, and the best
   * correlation tracked from -1.0. `corr` gives each combination's own
   * correlation, as `MoCorrelations` computes it with a fresh buffer.
   */
  method EvaluateMORank(res0: seq<(string, string)>, names: seq<string>, corr: seq<nat> -> real, format: real -> string)
    returns (res: seq<(string, string)>, maxCorr: real)
    ensures res == TM.PutAll(res0, MoEntries(names, MoCombos(|names|), corr, format))
    ensures maxCorr == MaxFrom(-1.0, Corrs(MoCombos(|names|), corr))
  {
    var n := |names|;
    res := res0;
    maxCorr := -1.0;
    var i := 0;
    while i < n
      invariant 0 <= i <= n
      invariant res == MoState(res0, names, Pairs(n, i), corr, format)
      invariant maxCorr == MoMax(-1.0, names, Pairs(n, i), corr)
    {
      MoAppend(res0, -1.0, names, Pairs(n, i), PairRow(n, i), n, corr, format);
      res, maxCorr := SecondObjectives(res, names, i, corr, format, maxCorr);
      i := i + 1;
    }
  }

  // ----- the `mo` buffer of evaluateMOrank -----

  /** `front` stored over the first cells of a `Clustering[]`, the later cells kept: what `mo[l++] = c` leaves. */
  function Overlay(buf: seq<Option<Clustering>>, front: seq<Clustering>): (r: seq<Option<Clustering>>)
    requires |front| <= |buf|
    ensures |r| == |buf|
    ensures forall l :: 0 <= l < |front| ==> r[l] == Some(front[l])
    ensures forall l :: |front| <= l < |buf| ==> r[l] == buf[l]
  {
    seq(|buf|, l requires 0 <= l < |buf| => if l < |front| then Some(front[l]) else buf[l])
  }

  /** Every combination's Pareto ranking fits the buffer: it ranks clusterings of the reference array. */
  predicate FrontsFit(n: nat, combos: seq<seq<nat>>, front: seq<nat> -> seq<Clustering>)
  {
    forall t :: 0 <= t < |combos| ==> |front(combos[t])| <= n
  }

  /** A fresh `new Clustering[n]` holding one ranking, null after it. */
  function FreshBuffer(n: nat, front: seq<Clustering>): (r: seq<Option<Clustering>>)
    requires |front| <= n
    ensures |r| == n
  {
    Overlay(seq(n, _ => None), front)
  }

  /** One `mo` array shared by all combinations, each ranking stored over what the earlier ones left. */
  function SharedBuffer(n: nat, combos: seq<seq<nat>>, front: seq<nat> -> seq<Clustering>): (r: seq<Option<Clustering>>)
    requires FrontsFit(n, combos, front)
    ensures |r| == n
    decreases |combos|
  {
    if |combos| == 0 then seq(n, _ => None)
    else Overlay(SharedBuffer(n, combos[..|combos| - 1], front), front(combos[|combos| - 1]))
  }

  /**
   * The correlations of `evaluateMOrank` as written: `mo` is allocated once
   * before the loops, each ranking is copied into its first cells, and
   * `rankCmp.correlation(mo, ref, map)` reads the whole array.
   */
  method MoCorrelationsAsWritten(n: nat, combos: seq<seq<nat>>, front: seq<nat> -> seq<Clustering>,
                                 correlation: seq<Option<Clustering>> -> real) returns (corrs: seq<real>)
    requires FrontsFit(n, combos, front)
    ensures |corrs| == |combos|
    ensures forall t :: 0 <= t < |combos| ==> corrs[t] == correlation(SharedBuffer(n, combos[..t + 1], front))
  {
    var mo := new Option<Clustering>[n](_ => None);
    assert mo[..] == SharedBuffer(n, combos[..0], front);
    corrs := [];
    var t := 0;
    while t < |combos|
      invariant 0 <= t <= |combos| && mo.Length == n
      invariant mo[..] == SharedBuffer(n, combos[..t], front)
      invariant |corrs| == t
      invariant forall s :: 0 <= s < t ==> corrs[s] == correlation(SharedBuffer(n, combos[..s + 1], front))
    {
      ghost var before := mo[..];
      var ranking := front(combos[t]);
      var l := 0;
      while l < |ranking|
        invariant 0 <= l <= |ranking| <= n
        invariant mo[..] == Overlay(before, ranking[..l])
      {
        mo[l] := Some(ranking[l]);
        l := l + 1;
      }
      assert ranking[..l] == ranking;
      assert combos[..t + 1][..t] == combos[..t];
      corrs := corrs + [correlation(mo[..])];
      t := t + 1;
    }
  }

  /** The correlations with a fresh buffer per combination: each reads its own ranking and nothing else. */
  method MoCorrelations(n: nat, combos: seq<seq<nat>>, front: seq<nat> -> seq<Clustering>,
                        correlation: seq<Option<Clustering>> -> real) returns (corrs: seq<real>)
    requires FrontsFit(n, combos, front)
    ensures |corrs| == |combos|
    ensures forall t :: 0 <= t < |combos| ==> corrs[t] == correlation(FreshBuffer(n, front(combos[t])))
  {
    corrs := [];
    var t := 0;
    while t < |combos|
      invariant 0 <= t <= |combos| && |corrs| == t
      invariant forall s :: 0 <= s < t ==> corrs[s] == correlation(FreshBuffer(n, front(combos[s])))
    {
      var mo := new Option<Clustering>[n](_ => None);
      var ranking := front(combos[t]);
      var l := 0;
      while l < |ranking|
        invariant 0 <= l <= |ranking| <= n
        invariant mo[..] == Overlay(seq(n, _ => None), ranking[..l])
      {
        mo[l] := Some(ranking[l]);
        l := l + 1;
      }
      assert ranking[..l] == ranking;
      corrs := corrs + [correlation(mo[..])];
      t := t + 1;
    }
  }

  /** A fresh buffer holds exactly its ranking, then nulls: the correlation sees no other combination. */
  lemma FreshBufferOwn(n: nat, front: seq<Clustering>)
    requires |front| <= n
    ensures FreshBuffer(n, front)[..|front|] == seq(|front|, l requires 0 <= l < |front| => Some(front[l]))
    ensures forall l :: |front| <= l < n ==> FreshBuffer(n, front)[l] == None
  {
  }

  /**
   * The shared buffer after a combination is its fresh buffer in the cells
   * its ranking fills, and keeps the earlier combinations' cells after them;
   * the two agree exactly when those kept cells are all null.
   */
  lemma SharedBufferTail(n: nat, combos: seq<seq<nat>>, front: seq<nat> -> seq<Clustering>)
    requires FrontsFit(n, combos, front) && |combos| > 0
    ensures var last := front(combos[|combos| - 1]);
      var before := SharedBuffer(n, combos[..|combos| - 1], front);
      && (forall l :: 0 <= l < |last| ==> SharedBuffer(n, combos, front)[l] == FreshBuffer(n, last)[l])
      && (forall l :: |last| <= l < n ==> SharedBuffer(n, combos, front)[l] == before[l])
      && (SharedBuffer(n, combos, front) == FreshBuffer(n, last) <==> forall l :: |last| <= l < n ==> before[l] == None)
  {
    var last := front(combos[|combos| - 1]);
    var before := SharedBuffer(n, combos[..|combos| - 1], front);
    var shared := SharedBuffer(n, combos, front);
    var own := FreshBuffer(n, last);
    if forall l :: |last| <= l < n ==> before[l] == None {
      assert forall l :: 0 <= l < n ==> shared[l] == own[l];
    }
  }

  /**
   * Two combinations whose rankings hold two clusterings and then one: the
   * second correlation reads the first combination's second clustering where
   * a fresh buffer holds null.
   */
  lemma ShortRankingReadsStale(a: Clustering, b: Clustering)
    ensures var front := (c: seq<nat>) => if |c| == 3 && c[2] == 0 then [a, b] else [a];
      var combos: seq<seq<nat>> := [[0, 1, 0], [0, 1, 1]];
      && FrontsFit(2, combos, front)
      && SharedBuffer(2, combos, front) == [Some(a), Some(b)]
      && FreshBuffer(2, front(combos[1])) == [Some(a), None]
  {
    var front := (c: seq<nat>) => if |c| == 3 && c[2] == 0 then [a, b] else [a];
    var combos: seq<seq<nat>> := [[0, 1, 0], [0, 1, 1]];
    assert combos[..1] == [[0, 1, 0]];
    assert |combos[..1][..0]| == 0;
    var first := SharedBuffer(2, combos[..1], front);
    assert first == [Some(a), Some(b)];
  }

  /** Each criterion's correlation, formatted, under the criterion's name. */
  function EvalEntries(evals: seq<(string, real)>, format: real -> string): (r: seq<(string, string)>)
    ensures |r| == |evals|
  {
    seq(|evals|, t requires 0 <= t < |evals| => (evals[t].0, format(evals[t].1)))
  }

  /** The criterion names are the keys of their entries. */
  lemma EvalEntriesKeys(evals: seq<(string, real)>, format: real -> string)
    ensures TM.KeySet(EvalEntries(evals, format)) == (set t | 0 <= t < |evals| :: evals[t].0)
  {
    var ev := EvalEntries(evals, format);
    forall x | x in (set t | 0 <= t < |evals| :: evals[t].0)
      ensures x in TM.KeySet(ev)
    {
      var t :| 0 <= t < |evals| && evals[t].0 == x;
      assert ev[t].0 == x;
    }
  }

  /** The Pareto labels of the combinations are the keys of their entries. */
  lemma MoEntriesKeys(names: seq<string>, combos: seq<seq<nat>>, corr: seq<nat> -> real, format: real -> string)
    ensures TM.KeySet(MoEntries(names, combos, corr, format)) == (set c | c in combos :: MoLabel(names, c))
  {
    var mo := MoEntries(names, combos, corr, format);
    forall x | x in (set c | c in combos :: MoLabel(names, c))
      ensures x in TM.KeySet(mo)
    {
      var c :| c in combos && MoLabel(names, c) == x;
      var t :| 0 <= t < |combos| && combos[t] == c;
      assert mo[t].0 == x;
    }
  }

  /** The result map `correlation` writes: the method's own correlation, each criterion's, then every Pareto combination's. */
  function CorrelationRecord(methodName: string, mainCorr: real, evals: seq<(string, real)>, objectives: seq<string>,
                             moCorr: seq<nat> -> real, format: real -> string): seq<(string, string)>
  {
    var withEvals := TM.PutAll([(methodName, format(mainCorr))], EvalEntries(evals, format));
    TM.PutAll(withEvals, MoEntries(objectives, MoCombos(|objectives|), moCorr, format))
  }

  /**
   * The correlation row has one column per distinct label: the method name,
   * every criterion name and every Pareto label, in key order; each header
   * cell sits above its own value.
   */
  lemma CorrelationRecordShape(methodName: string, mainCorr: real, evals: seq<(string, real)>, objectives: seq<string>,
                               moCorr: seq<nat> -> real, format: real -> string)
    ensures var r := CorrelationRecord(methodName, mainCorr, evals, objectives, moCorr, format);
            && TM.Sorted(r)
            && TM.KeySet(r) == {methodName} + (set t | 0 <= t < |evals| :: evals[t].0)
                                + (set c | c in MoCombos(|objectives|) :: MoLabel(objectives, c))
            && forall t :: 0 <= t < |r| ==> TM.Get(r, TM.Keys(r)[t]) == Some(TM.Values(r)[t])
  {
    var start: seq<(string, string)> := [(methodName, format(mainCorr))];
    var ev := EvalEntries(evals, format);
    var mo := MoEntries(objectives, MoCombos(|objectives|), moCorr, format);
    TM.PutAllSorted(start, ev);
    TM.PutAllSorted(TM.PutAll(start, ev), mo);
    assert TM.KeySet(start) == {methodName} by {
      assert start[0].0 == methodName;
    }
    EvalEntriesKeys(evals, format);
    MoEntriesKeys(objectives, MoCombos(|objectives|), moCorr, format);
    TM.ColumnsAlign(CorrelationRecord(methodName, mainCorr, evals, objectives, moCorr, format));
  }

  /**
   * `correlation`: the method's correlation with the supervised ranking, each
   * criterion's, and the Pareto combinations', written as one row under the
   * header discipline. The correlations come from external ranking code and
   * are inputs; each criterion's is taken independently, in evaluator order.
   */
  method Correlation(fs: FileSystem, results: Path, methodName: string, mainCorr: real, evals: seq<(string, real)>,
                     objectives: seq<string>, moCorr: seq<nat> -> real, format: real -> string)
    modifies fs
    ensures var r := CorrelationRecord(methodName, mainCorr, evals, objectives, moCorr, format);
            fs.files == Record(old(fs.files), results, Texts(TM.Keys(r)), Texts(TM.Values(r)))
  {
    var res: seq<(string, string)> := [];
    res := TM.Put(res, methodName, format(mainCorr));
    ghost var start := res;
    assert start == [(methodName, format(mainCorr))];
    var i := 0;
    while i < |evals|
      invariant 0 <= i <= |evals|
      invariant res == TM.PutAll(start, EvalEntries(evals[..i], format))
      invariant fs.files == old(fs.files)
    {
      assert EvalEntries(evals[..i + 1], format) == EvalEntries(evals[..i], format) + [(evals[i].0, format(evals[i].1))];
      TM.PutAllSnoc(start, EvalEntries(evals[..i], format), (evals[i].0, format(evals[i].1)));
      res := TM.Put(res, evals[i].0, format(evals[i].1));
      i := i + 1;
    }
    assert evals[..i] == evals;
    var maxCorr;
    res, maxCorr := EvaluateMORank(res, objectives, moCorr, format);
    assert res == CorrelationRecord(methodName, mainCorr, evals, objectives, moCorr, format);
    fs.WriteRecord(results, Texts(TM.Keys(res)), Texts(TM.Values(res)));
  }
}
