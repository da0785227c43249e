/**
 * The index sets the ranking evaluation enumerates, in the order its nested
 * loops produce them: singletons, pairs i < j, triples i < j < k, and the
 * Pareto combinations (a pair crossed with every sorting criterion).
 * Each is defined by its loop structure, and the lemmas characterise it
 * independently: which sets occur and how many there are.
 */
module Combinations {

  /** `[i]` for every i < n. */
  function Singles(n: nat): seq<seq<nat>>
  {
    seq(n, i => [i])
  }

  /** The pairs with first index `i`, in the inner loop's order. */
  function PairRow(n: nat, i: nat): seq<seq<nat>>
    requires i < n
  {
    seq(n - 1 - i, d => [i, i + 1 + d])
  }

  /** The pairs whose first index is below `i`. */
  function Pairs(n: nat, i: nat): seq<seq<nat>>
    requires i <= n
    decreases i
  {
    if i == 0 then [] else Pairs(n, i - 1) + PairRow(n, i - 1)
  }

  /** The triples with first index `i` and second index below `j`. */
  function TripleRow(n: nat, i: nat, j: nat): seq<seq<nat>>
    requires i < j < n
  {
    seq(n - 1 - j, d => [i, j, j + 1 + d])
  }

  function Plane(n: nat, i: nat, j: nat): seq<seq<nat>>
    requires i < j <= n
    decreases j - i
  {
    if j == i + 1 then [] else Plane(n, i, j - 1) + TripleRow(n, i, j - 1)
  }

  /** The triples whose first index is below `i`. */
  function Triples(n: nat, i: nat): seq<seq<nat>>
    requires i <= n
    decreases i
  {
    if i == 0 then [] else Triples(n, i - 1) + Plane(n, i - 1, n)
  }

  /** Each singleton `[i]` with i < n occurs, and nothing else. */
  lemma SinglesMembers(n: nat)
    ensures |Singles(n)| == n
    ensures forall x :: x in Singles(n) <==> |x| == 1 && x[0] < n
  {
    forall x | |x| == 1 && x[0] < n
      ensures x in Singles(n)
    {
      assert Singles(n)[x[0]] == x;
    }
  }

  lemma PairRowMember(n: nat, i: nat, x: seq<nat>)
    requires i < n
    ensures x in PairRow(n, i) <==> |x| == 2 && x[0] == i && i < x[1] < n
  {
    if |x| == 2 && x[0] == i && i < x[1] < n {
      assert PairRow(n, i)[x[1] - i - 1] == x;
    }
  }

  lemma {:induction false} PairsMember(n: nat, i: nat, x: seq<nat>)
    requires i <= n
    ensures x in Pairs(n, i) <==> |x| == 2 && x[0] < i && x[0] < x[1] < n
    decreases i
  {
    if i > 0 {
      PairsMember(n, i - 1, x);
      PairRowMember(n, i - 1, x);
    }
  }

  /** Exactly the pairs i < j < n occur. */
  lemma PairsMembers(n: nat)
    ensures forall x :: x in Pairs(n, n) <==> |x| == 2 && x[0] < x[1] < n
  {
    forall x
      ensures x in Pairs(n, n) <==> |x| == 2 && x[0] < x[1] < n
    {
      PairsMember(n, n, x);
    }
  }

  /** There are C(n, 2) - C(n - i, 2) of them; C(n, 2) in all. */
  lemma {:induction false} PairsCount(n: nat, i: nat)
    requires i <= n
    ensures 2 * |Pairs(n, i)| == n * (n - 1) - (n - i) * (n - i - 1)
    decreases i
  {
    if i > 0 {
      PairsCount(n, i - 1);
      var m := n - i;
      assert (m + 1) * m - m * (m - 1) == 2 * m;
    }
  }

  lemma TripleRowMember(n: nat, i: nat, j: nat, x: seq<nat>)
    requires i < j < n
    ensures x in TripleRow(n, i, j) <==> |x| == 3 && x[0] == i && x[1] == j && j < x[2] < n
  {
    if |x| == 3 && x[0] == i && x[1] == j && j < x[2] < n {
      assert TripleRow(n, i, j)[x[2] - j - 1] == x;
    }
  }

  lemma {:induction false} PlaneMember(n: nat, i: nat, j: nat, x: seq<nat>)
    requires i < j <= n
    ensures x in Plane(n, i, j) <==> |x| == 3 && x[0] == i && i < x[1] < j && x[1] < x[2] < n
    decreases j - i
  {
    if j > i + 1 {
      PlaneMember(n, i, j - 1, x);
      TripleRowMember(n, i, j - 1, x);
    }
  }

  lemma {:induction false} TriplesMember(n: nat, i: nat, x: seq<nat>)
    requires i <= n
    ensures x in Triples(n, i) <==> |x| == 3 && x[0] < i && x[0] < x[1] < x[2] < n
    decreases i
  {
    if i > 0 {
      TriplesMember(n, i - 1, x);
      PlaneMember(n, i - 1, n, x);
    }
  }

  /** Exactly the triples i < j < k < n occur. */
  lemma TriplesMembers(n: nat)
    ensures forall x :: x in Triples(n, n) <==> |x| == 3 && x[0] < x[1] < x[2] < n
  {
    forall x
      ensures x in Triples(n, n) <==> |x| == 3 && x[0] < x[1] < x[2] < n
    {
      TriplesMember(n, n, x);
    }
  }

  lemma {:induction false} PlaneCount(n: nat, i: nat, j: nat)
    requires i < j <= n
    ensures 2 * |Plane(n, i, j)| == (n - 1 - i) * (n - 2 - i) - (n - j) * (n - j - 1)
    decreases j - i
  {
    if j > i + 1 {
      PlaneCount(n, i, j - 1);
      var m := n - j;
      assert (m + 1) * m - m * (m - 1) == 2 * m;
    }
  }

  /** There are C(n, 3) - C(n - i, 3) of them; C(n, 3) in all. */
  lemma {:induction false} TriplesCount(n: nat, i: nat)
    requires i <= n
    ensures 6 * |Triples(n, i)| == n * (n - 1) * (n - 2) - (n - i) * (n - i - 1) * (n - i - 2)
    decreases i
  {
    if i > 0 {
      TriplesCount(n, i - 1);
      PlaneCount(n, i - 1, n);
      var m := n - i;
      assert 2 * |Plane(n, i - 1, n)| == m * (m - 1);
      CubeStep(m);
      assert |Triples(n, i)| == |Triples(n, i - 1)| + |Plane(n, i - 1, n)|;
    }
  }

  lemma CubeStep(m: int)
    ensures (m + 1) * m * (m - 1) - m * (m - 1) * (m - 2) == 3 * (m * (m - 1))
  {
  }

  /** The Pareto combinations of one pair: the pair, then each sorting criterion k < n. */
  function SortRow(p: seq<nat>, n: nat): seq<seq<nat>>
  {
    seq(n, k => p + [k])
  }

  /** Every pair crossed with every sorting criterion, pair by pair. */
  function Crossed(ps: seq<seq<nat>>, n: nat): seq<seq<nat>>
    decreases |ps|
  {
    if |ps| == 0 then [] else Crossed(ps[..|ps| - 1], n) + SortRow(ps[|ps| - 1], n)
  }

  lemma {:induction false} CrossedAppend(a: seq<seq<nat>>, b: seq<seq<nat>>, n: nat)
    ensures Crossed(a + b, n) == Crossed(a, n) + Crossed(b, n)
    decreases |b|
  {
    if |b| == 0 {
      assert a + b == a;
    } else {
      var init := b[..|b| - 1];
      CrossedAppend(a, init, n);
      assert (a + b)[..|a + b| - 1] == a + init;
      assert (a + b)[|a + b| - 1] == b[|b| - 1];
      assert Crossed(a + b, n) == Crossed(a + init, n) + SortRow(b[|b| - 1], n);
      assert Crossed(b, n) == Crossed(init, n) + SortRow(b[|b| - 1], n);
    }
  }

  lemma SortRowMember(p: seq<nat>, n: nat, x: seq<nat>)
    ensures x in SortRow(p, n) <==> |x| > 0 && x[..|x| - 1] == p && x[|x| - 1] < n
  {
    if |x| > 0 && x[..|x| - 1] == p && x[|x| - 1] < n {
      assert x == p + [x[|x| - 1]];
      assert SortRow(p, n)[x[|x| - 1]] == x;
    }
    if x in SortRow(p, n) {
      var k :| 0 <= k < n && SortRow(p, n)[k] == x;
      assert x[..|x| - 1] == p;
    }
  }

  lemma {:induction false} CrossedMember(ps: seq<seq<nat>>, n: nat, x: seq<nat>)
    ensures x in Crossed(ps, n) <==> |x| > 0 && x[..|x| - 1] in ps && x[|x| - 1] < n
    decreases |ps|
  {
    if |ps| > 0 {
      var init := ps[..|ps| - 1];
      CrossedMember(init, n, x);
      SortRowMember(ps[|ps| - 1], n, x);
      assert ps == init + [ps[|ps| - 1]];
    }
  }

  lemma {:induction false} CrossedCount(ps: seq<seq<nat>>, n: nat)
    ensures |Crossed(ps, n)| == |ps| * n
    decreases |ps|
  {
    if |ps| > 0 {
      CrossedCount(ps[..|ps| - 1], n);
      assert (|ps| - 1) * n + n == |ps| * n;
    }
  }

  /** |pairs| · n combinations: each listed pair extended by each k < n, and nothing else. */
  lemma CrossedMembers(ps: seq<seq<nat>>, n: nat)
    ensures |Crossed(ps, n)| == |ps| * n
    ensures forall x :: x in Crossed(ps, n) <==> |x| > 0 && x[..|x| - 1] in ps && x[|x| - 1] < n
  {
    CrossedCount(ps, n);
    forall x
      ensures x in Crossed(ps, n) <==> |x| > 0 && x[..|x| - 1] in ps && x[|x| - 1] < n
    {
      CrossedMember(ps, n, x);
    }
  }
}
