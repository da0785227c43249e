/**
 * The scatter-plot exporter: one gnuplot script per pair of attributes, each
 * drawing every cluster from a CSV data file whose last column is the cluster
 * label. Scripts and data lines are plain strings; the writers are modelled by
 * the sequence of what they are given.
 */
module GnuplotScatter {
  import opened Model
  import Text
  import C = Combinations

  /** `triangleSize(n)`: the entries of an n × n matrix above the diagonal, `((n - 1) * n) >>> 1`. */
  function TriangleSize(n: nat): nat
  {
    if n == 0 then 0 else (n - 1) * n / 2
  }

  /** It is the number of pairs i < j < n, C(n, 2). */
  lemma TriangleSizeCountsPairs(n: nat)
    ensures TriangleSize(n) == |C.Pairs(n, n)|
    ensures 2 * TriangleSize(n) == n * (n - 1)
  {
    C.PairsCount(n, n);
  }

  /** The name of the script for plot `idx`: "plot-", the index padded to two digits, the gnuplot extension. */
  function ScriptName(idx: nat, gpExt: string): string
  {
    "plot-" + Text.Pad2(idx) + gpExt
  }

  /** Different plot indices give different script names. */
  lemma ScriptNamesDistinct(s: nat, t: nat, gpExt: string)
    requires ScriptName(s, gpExt) == ScriptName(t, gpExt)
    ensures s == t
  {
    var a, b := ScriptName(s, gpExt), ScriptName(t, gpExt);
    assert |Text.Pad2(s)| == |Text.Pad2(t)|;
    assert Text.Pad2(s) == a[5..|a| - |gpExt|];
    assert Text.Pad2(t) == b[5..|b| - |gpExt|];
    Text.Pad2Injective(s, t);
  }

  /** The data file of a dataset: "data-", its name, ".csv". */
  function DataFile(dataset: string): string
  {
    "data-" + dataset + ".csv"
  }

  /** The dataset's name is recovered from its data file name, so different datasets use different files. */
  lemma DataFileNameRoundTrip(dataset: string, other: string)
    ensures var f := DataFile(dataset); |f| == |dataset| + 9 && f[5..|f| - 4] == dataset
    ensures DataFile(dataset) == DataFile(other) ==> dataset == other
  {
    var f, g := DataFile(dataset), DataFile(other);
    assert f[5..|f| - 4] == dataset;
    assert g[5..|g| - 4] == other;
  }

  // ----- the plot-index loop of `plot` -----

  /** A script written by `writePlot`: its file name and the attribute pair it plots. */
  datatype Script = Script(name: string, attrs: seq<nat>)

  /** The scripts for plots `base`, `base + 1`, … of the given attribute pairs. */
  function ScriptsAt(ps: seq<seq<nat>>, base: nat, gpExt: string): (r: seq<Script>)
    ensures |r| == |ps|
  {
    seq(|ps|, s requires 0 <= s < |ps| => Script(ScriptName(base + s, gpExt), ps[s]))
  }

  lemma ScriptsAtAppend(a: seq<seq<nat>>, b: seq<seq<nat>>, base: nat, gpExt: string)
    ensures ScriptsAt(a + b, base, gpExt) == ScriptsAt(a, base, gpExt) + ScriptsAt(b, base + |a|, gpExt)
  {
  }

  lemma ScriptsAtPrefix(ps: seq<seq<nat>>, base: nat, gpExt: string, k: nat)
    requires k <= |ps|
    ensures ScriptsAt(ps, base, gpExt)[..k] == ScriptsAt(ps[..k], base, gpExt)
  {
  }

  function ScriptNames(ss: seq<Script>): (r: seq<string>)
    ensures |r| == |ss|
  {
    seq(|ss|, s requires 0 <= s < |ss| => ss[s].name)
  }

  /**
   * How the plot loop ends: it runs to completion, `plotTemplate` asks the
   * dataset for an attribute it does not have (`getAttribute` throws before
   * the script is written), or a store lands past the end of `plots`.
   */
  datatype Stop = Completed | MissingAttribute | StoreOverflow

  /** A script can be written only when every attribute it plots exists: `plotTemplate` reads the range of each. */
  predicate Plottable(s: Script, attrCount: nat)
  {
    forall k :: 0 <= k < |s.attrs| ==> s.attrs[k] < attrCount
  }

  /**
   * The inner loop for first attribute `i`: second attributes i + 1 … N - 1,
   * each plot written under the next index and stored in the next slot of a
   * `String[cap]`. A second attribute the dataset lacks throws before its
   * script is written; storing past the end throws after it was written.
   */
  method PlotRow(N: nat, i: nat, cap: nat, attrCount: nat, gpExt: string, written0: seq<Script>, ghost full: seq<Script>)
    returns (written: seq<Script>, stop: Stop)
    requires i < N && |written0| <= cap
    requires RowShaped(N, i, gpExt, written0, full)
    ensures |written0| <= |written| <= |full| && written == full[..|written|]
    ensures forall s :: |written0| <= s < |written| ==> Plottable(written[s], attrCount)
    ensures stop == Completed ==> written == full && |full| <= cap
    ensures stop == MissingAttribute ==> |written| <= cap && |written| < |full| && !Plottable(full[|written|], attrCount)
    ensures stop == StoreOverflow ==> |full| > cap && |written| == cap + 1
  {
    assert full[..|written0|] == written0;
    written := written0;
    var j := i + 1;
    var m := |written0|;
    while j < N
      invariant i + 1 <= j <= N
      invariant m == |written0| + (j - i - 1) <= cap
      invariant |written| == m && written == full[..m]
      invariant forall s :: |written0| <= s < m ==> Plottable(written[s], attrCount)
    {
      assert full[m] == Script(ScriptName(m, gpExt), [i, j]);
      if j >= attrCount {
        assert !Plottable(full[m], attrCount) by {
          assert full[m].attrs[1] == j;
        }
        return written, MissingAttribute;
      }
      Text.PrefixExtend(full, m);
      written := written + [Script(ScriptName(m, gpExt), [i, j])];
      m := m + 1;
      if m > cap {
        return written, StoreOverflow;
      }
      j := j + 1;
    }
    assert full[..m] == full;
    stop := Completed;
  }

  /** `full` is what row `i` leaves written: `written0`, then the script of each pair (i, j), j = i + 1 … N - 1, under the next index. */
  ghost predicate RowShaped(N: nat, i: nat, gpExt: string, written0: seq<Script>, full: seq<Script>)
    requires i < N
  {
    && |full| == |written0| + (N - 1 - i)
    && full[..|written0|] == written0
    && forall m :: |written0| <= m < |full| ==> full[m] == Script(ScriptName(m, gpExt), [i, i + 1 + (m - |written0|)])
  }

  /** The scripts written once row `i` is done: the earlier ones, then one per pair of the row. */
  function RowFull(N: nat, i: nat, gpExt: string, written0: seq<Script>): (r: seq<Script>)
    requires i < N
    ensures |r| == |written0| + (N - 1 - i)
  {
    written0 + ScriptsAt(C.PairRow(N, i), |written0|, gpExt)
  }

  lemma RowFullShaped(N: nat, i: nat, gpExt: string, written0: seq<Script>)
    requires i < N
    ensures RowShaped(N, i, gpExt, written0, RowFull(N, i, gpExt, written0))
  {
    var full := RowFull(N, i, gpExt, written0);
    var row := C.PairRow(N, i);
    var tail := ScriptsAt(row, |written0|, gpExt);
    assert full[..|written0|] == written0;
    forall m | |written0| <= m < |full|
      ensures full[m] == Script(ScriptName(m, gpExt), [i, i + 1 + (m - |written0|)])
    {
      var d := m - |written0|;
      assert full[m] == tail[d];
      assert row[d] == [i, i + 1 + d];
    }
  }

  /**
   * The nested loops: first attributes 0 … rows - 1, each with its row of
   * second attributes below N, until an attribute is missing or a store
   * overflows.
   */
  method PlotLoop(N: nat, rows: nat, cap: nat, attrCount: nat, gpExt: string) returns (written: seq<Script>, stop: Stop)
    requires rows <= N
    ensures var total := ScriptsAt(C.Pairs(N, rows), 0, gpExt);
      && |written| <= |total| && written == total[..|written|]
      && (forall s :: 0 <= s < |written| ==> Plottable(written[s], attrCount))
      && (stop == Completed ==> written == total && |total| <= cap)
      && (stop == MissingAttribute ==> |written| <= cap && |written| < |total| && !Plottable(total[|written|], attrCount))
      && (stop == StoreOverflow ==> |total| > cap && |written| == cap + 1)
  {
    written := [];
    var i := 0;
    while i < rows
      invariant 0 <= i <= rows
      invariant written == ScriptsAt(C.Pairs(N, i), 0, gpExt) && |written| <= cap
      invariant forall s :: 0 <= s < |written| ==> Plottable(written[s], attrCount)
    {
      RowFullShaped(N, i, gpExt, written);
      ghost var full := RowFull(N, i, gpExt, written);
      written, stop := PlotRow(N, i, cap, attrCount, gpExt, written, full);
      PlotStep(N, i, rows, gpExt);
      if stop != Completed {
        ghost var total := ScriptsAt(C.Pairs(N, rows), 0, gpExt);
        assert full == ScriptsAt(C.Pairs(N, i + 1), 0, gpExt);
        assert total[..|full|] == full;
        assert total[..|written|] == full[..|written|];
        if stop == MissingAttribute {
          assert total[|written|] == full[|written|];
        }
        return;
      }
      i := i + 1;
    }
    stop := Completed;
  }

  /** One more row of the loop extends the scripts written, which stay a prefix of all the loop's scripts. */
  lemma PlotStep(N: nat, i: nat, rows: nat, gpExt: string)
    requires i < rows <= N
    ensures var next := ScriptsAt(C.Pairs(N, i + 1), 0, gpExt);
      var total := ScriptsAt(C.Pairs(N, rows), 0, gpExt);
      && next == ScriptsAt(C.Pairs(N, i), 0, gpExt) + ScriptsAt(C.PairRow(N, i), |C.Pairs(N, i)|, gpExt)
      && |next| <= |total| && total[..|next|] == next
  {
    ScriptsAtAppend(C.Pairs(N, i), C.PairRow(N, i), 0, gpExt);
    PairsPrefix(N, i + 1, rows);
    ScriptsAtPrefix(C.Pairs(N, rows), 0, gpExt, |C.Pairs(N, i + 1)|);
  }

  /** The pairs with first index below i come first among those below m. */
  lemma {:induction false} PairsPrefix(n: nat, i: nat, m: nat)
    requires i <= m <= n
    ensures |C.Pairs(n, i)| <= |C.Pairs(n, m)|
    ensures C.Pairs(n, m)[..|C.Pairs(n, i)|] == C.Pairs(n, i)
    decreases m - i
  {
    if i < m {
      PairsPrefix(n, i, m - 1);
      assert C.Pairs(n, m) == C.Pairs(n, m - 1) + C.PairRow(n, m - 1);
    }
  }

  /**
   * `plot`'s loop as written: n = triangleSize(attributeCount) slots, filled
   * from the pairs i < j ≤ n with i < n. With three or more attributes the
   * pair (0, attributeCount) comes up at plot attributeCount - 1, before any
   * store can overflow, and `plotTemplate` asks for that missing attribute:
   * the scripts of (0, 1) … (0, attributeCount - 1) are written, then it throws.
   */
  method PlotAsWritten(attrCount: nat, gpExt: string) returns (plots: Option<seq<string>>, written: seq<Script>, stop: Stop)
    ensures var n := TriangleSize(attrCount); var all := ScriptsAt(C.Pairs(n + 1, n), 0, gpExt);
      && (plots.Some? <==> attrCount <= 2)
      && (plots.Some? ==> stop == Completed && written == all && plots.value == ScriptNames(all))
      && (plots.None? ==> stop == MissingAttribute && attrCount - 1 < |all| && written == all[..attrCount - 1]
                          && all[attrCount - 1].attrs == [0, attrCount])
  {
    var n := TriangleSize(attrCount);
    ghost var all := ScriptsAt(C.Pairs(n + 1, n), 0, gpExt);
    written, stop := PlotLoop(n + 1, n, n, attrCount, gpExt);
    if attrCount <= 2 {
      PlotOverflows(attrCount);
      SmallPairsPlottable(attrCount, gpExt);
      if stop == MissingAttribute {
        assert false;
      }
    } else {
      FirstRowAsWritten(attrCount, gpExt);
      var w := |written|;
      if w > attrCount - 1 {
        assert false;
      }
      if stop == MissingAttribute && w < attrCount - 1 {
        assert false;
      }
      if stop != MissingAttribute {
        assert false;
      }
    }
    if stop == Completed {
      plots := Some(ScriptNames(written));
    } else {
      plots := None;
    }
  }

  /** With at most two attributes, every pair the loop as written reaches exists in the dataset. */
  lemma SmallPairsPlottable(attrCount: nat, gpExt: string)
    requires attrCount <= 2
    ensures var n := TriangleSize(attrCount); var all := ScriptsAt(C.Pairs(n + 1, n), 0, gpExt);
      forall s :: 0 <= s < |all| ==> Plottable(all[s], attrCount)
  {
    var n := TriangleSize(attrCount);
    if n == 1 {
      assert attrCount == 2;
      assert C.Pairs(2, 1) == [[0, 1]];
    }
  }

  /**
   * With three or more attributes the loop as written starts with the pairs
   * (0, 1) … (0, n), and n ≥ attributeCount, so plot attributeCount - 1 is
   * the first to ask for the attribute numbered attributeCount.
   */
  lemma FirstRowAsWritten(attrCount: nat, gpExt: string)
    requires attrCount >= 3
    ensures var n := TriangleSize(attrCount); var all := ScriptsAt(C.Pairs(n + 1, n), 0, gpExt);
      && attrCount <= n && attrCount - 1 < |all|
      && (forall s :: 0 <= s < attrCount - 1 ==> all[s].attrs == [0, s + 1] && Plottable(all[s], attrCount))
      && all[attrCount - 1].attrs == [0, attrCount] && !Plottable(all[attrCount - 1], attrCount)
  {
    var n := TriangleSize(attrCount);
    TriangleSizeCountsPairs(attrCount);
    MulAtLeast(attrCount, attrCount - 1, attrCount, 2);
    assert n >= attrCount;
    PairsPrefix(n + 1, 1, n);
    assert C.Pairs(n + 1, 1) == C.PairRow(n + 1, 0);
    var ps := C.Pairs(n + 1, n);
    var all := ScriptsAt(ps, 0, gpExt);
    forall s | 0 <= s < attrCount
      ensures all[s].attrs == [0, s + 1]
    {
      assert ps[s] == C.PairRow(n + 1, 0)[s];
    }
    assert all[attrCount - 1].attrs[1] == attrCount;
  }

  /** As written, the pairs of `plot`'s loop fit its triangleSize(attributeCount) slots exactly when the dataset has at most two attributes. */
  lemma {:induction false} PlotOverflows(attrCount: nat)
    ensures var n := TriangleSize(attrCount); |C.Pairs(n + 1, n)| <= n <==> attrCount <= 2
  {
    var n := TriangleSize(attrCount);
    C.PairsCount(n + 1, n);
    assert 2 * |C.Pairs(n + 1, n)| == (n + 1) * n;
    if attrCount <= 2 {
      assert n <= 1;
    } else {
      TriangleSizeCountsPairs(attrCount);
      MulAtLeast(attrCount, attrCount - 1, 3, 2);
      assert n >= 3;
      MulAtLeast(n, n + 1, 3, 4);
      assert (n + 1) * n == n * n + n;
    }
  }

  lemma MulAtLeast(a: int, b: int, x: nat, y: nat)
    requires a >= x && b >= y
    ensures a * b >= x * y
  {
    assert a * b - x * y == (a - x) * b + x * (b - y);
  }

  /** Three attributes: three slots against six pairs in the loop as written. */
  lemma ThreeAttributesOverflow()
    ensures TriangleSize(3) == 3 && |C.Pairs(4, 3)| == 6
  {
    C.PairsCount(4, 3);
  }

  /**
   * `plot` with the loops it evidently intends: one script per attribute
   * pair i < j < attributeCount, filling the triangleSize(attributeCount)
   * slots exactly, slot s holding plot s.
   */
  method Plot(attrCount: nat, gpExt: string) returns (plots: seq<string>, written: seq<Script>)
    ensures written == ScriptsAt(C.Pairs(attrCount, attrCount), 0, gpExt)
    ensures plots == ScriptNames(written) && |plots| == TriangleSize(attrCount)
  {
    TriangleSizeCountsPairs(attrCount);
    var stop;
    written, stop := PlotLoop(attrCount, attrCount, TriangleSize(attrCount), attrCount, gpExt);
    if stop == MissingAttribute {
      C.PairsMember(attrCount, attrCount, C.Pairs(attrCount, attrCount)[|written|]);
      assert false;
    }
    plots := ScriptNames(written);
  }

  /** The corrected loop plots each pair i < j < attributeCount, and nothing else ... */
  lemma PlotCovers(attrCount: nat, gpExt: string)
    ensures var all := ScriptsAt(C.Pairs(attrCount, attrCount), 0, gpExt);
      forall x :: (exists s :: 0 <= s < |all| && all[s].attrs == x) <==> |x| == 2 && x[0] < x[1] < attrCount
  {
    var ps := C.Pairs(attrCount, attrCount);
    var all := ScriptsAt(ps, 0, gpExt);
    forall x
      ensures (exists s :: 0 <= s < |all| && all[s].attrs == x) <==> |x| == 2 && x[0] < x[1] < attrCount
    {
      C.PairsMember(attrCount, attrCount, x);
      if |x| == 2 && x[0] < x[1] < attrCount {
        var s :| 0 <= s < |ps| && ps[s] == x;
        assert all[s].attrs == x;
      }
    }
  }

  /** ... each exactly once, since every plot is written under a name of its own. */
  lemma PlotNamesDistinct(ps: seq<seq<nat>>, gpExt: string)
    ensures var all := ScriptsAt(ps, 0, gpExt);
      forall s, t :: 0 <= s < t < |all| ==> all[s].name != all[t].name
  {
    var all := ScriptsAt(ps, 0, gpExt);
    forall s, t | 0 <= s < t < |all|
      ensures all[s].name != all[t].name
    {
      if all[s].name == all[t].name {
        ScriptNamesDistinct(s, t, gpExt);
      }
    }
  }

  // ----- plotTemplate -----

  /** The fixed settings at the top of every script; the axis ranges are given already formatted. */
  function Preamble(title: string, xName: string, yName: string, xrange: string, yrange: string): string
  {
    "set datafile separator \",\"\n"
      + "set key outside bottom horizontal box\n"
      + "set title \"" + title + "\"\n"
      + "set xlabel \"" + xName + "\" font \"Times,7\"\n"
      + "set ylabel \"" + yName + "\" font \"Times,7\"\n"
      + "set xtics 0,0.5 nomirror\n"
      + "set ytics 0,0.5 nomirror\n"
      + "set mytics 2\n"
      + "set mx2tics 2\n"
      + "set xrange " + xrange + "\n"
      + "set yrange " + yrange + "\n"
      + "set grid\n"
      + "set pointsize 0.5\n"
  }

  /** The plot clause of one cluster: rows whose label column equals the cluster's name, columns x:y. */
  function Clause(labelPos: nat, cluster: string, dataFile: string, x: nat, y: nat, pointType: string): string
  {
    "\"< awk -F\\\",\\\" '{if($" + Text.Digits(labelPos) + " == \\\"" + cluster + "\\\") print}' " + dataFile
      + "\" u " + Text.Digits(x) + ":" + Text.Digits(y) + " t \"" + cluster + "\" w p pt " + pointType
  }

  /** The clauses of all clusters, the k-th drawn with the point type the iterator yields k-th. */
  function Clauses(attrCnt: nat, clusters: seq<string>, dataFile: string, x: nat, y: nat,
                   pointType: nat -> string): (r: seq<string>)
    ensures |r| == |clusters|
  {
    seq(|clusters|, k requires 0 <= k < |clusters| =>
      Clause(attrCnt + 1, clusters[k], dataFile, x, y, pointType(k)))
  }

  const ClauseSep := ", \\\n"

  /** One `plot` command: "plot " once, the clauses separated by ", \" line breaks, a final newline. */
  function PlotCommand(clauses: seq<string>): string
  {
    if |clauses| == 0 then "" else "plot " + Text.Join(clauses, ClauseSep) + "\n"
  }

  /** What the cluster loop has appended after `i` clusters. */
  ghost function Partial(cls: seq<string>, i: nat): string
    requires i <= |cls|
  {
    if i == 0 then "" else if i < |cls| then "plot " + Text.Terminated(cls[..i], ClauseSep) else PlotCommand(cls)
  }

  /** What the loop appends for cluster `i`. */
  function Piece(cls: seq<string>, i: nat): string
    requires i < |cls|
  {
    var tail := if i != |cls| - 1 then ClauseSep else "\n";
    if i == 0 then "plot " + cls[i] + tail else cls[i] + tail
  }

  lemma PartialStep(cls: seq<string>, i: nat)
    requires i < |cls|
    ensures Partial(cls, i + 1) == Partial(cls, i) + Piece(cls, i)
  {
    var c := cls[i];
    var t := Text.Terminated(cls[..i], ClauseSep);
    assert cls[..i + 1][..i] == cls[..i];
    if i + 1 < |cls| {
      assert Text.Terminated(cls[..i + 1], ClauseSep) == t + c + ClauseSep;
      if i == 0 {
        assert t == "";
        Assoc("plot ", c, ClauseSep);
      } else {
        Assoc("plot " + t, c, ClauseSep);
        Assoc("plot ", t, c);
        Assoc("plot ", t + c, ClauseSep);
      }
    } else {
      assert cls[..i + 1] == cls;
      if i == 0 {
        assert Text.Join(cls, ClauseSep) == c;
      } else {
        Text.TerminatedThenLastIsJoin(cls[..i], c, ClauseSep);
        assert Text.Join(cls, ClauseSep) == t + c;
        Assoc("plot " + t, c, "\n");
        Assoc("plot ", t, c);
      }
    }
  }

  /**
   * `plotTemplate`: the preamble, then the cluster loop emitting "plot "
   * before the first clause and, after each clause, a continuation or, after
   * the last one, a newline.
   */
  method PlotTemplate(title: string, x: nat, y: nat, xName: string, yName: string, xrange: string, yrange: string,
                      attrCnt: nat, clusters: seq<string>, dataFile: string, pointType: nat -> string)
    returns (res: string)
    ensures res == Preamble(title, xName, yName, xrange, yrange)
                   + PlotCommand(Clauses(attrCnt, clusters, dataFile, x, y, pointType))
  {
    res := Preamble(title, xName, yName, xrange, yrange);
    res := AppendClauses(res, x, y, attrCnt, clusters, dataFile, pointType);
  }

  /** The cluster loop of `plotTemplate`, appending to what the builder holds. */
  method AppendClauses(res0: string, x: nat, y: nat, attrCnt: nat, clusters: seq<string>, dataFile: string,
                       pointType: nat -> string)
    returns (res: string)
    ensures res == res0 + PlotCommand(Clauses(attrCnt, clusters, dataFile, x, y, pointType))
  {
    ghost var cls := Clauses(attrCnt, clusters, dataFile, x, y, pointType);
    res := res0;
    var labelPos := attrCnt + 1;
    var last := |clusters| - 1;
    var i := 0;
    AppendEmpty(res0);
    while i < |clusters|
      invariant 0 <= i <= |clusters|
      invariant res == res0 + Partial(cls, i)
    {
      ghost var before := res;
      ghost var tail: string := if i != last then ClauseSep else "\n";
      if i == 0 {
        res := res + "plot ";
      }
      var clause := Clause(labelPos, clusters[i], dataFile, x, y, pointType(i));
      res := res + clause;
      if i != last {
        res := res + ClauseSep;
      } else {
        res := res + "\n";
      }
      if i == 0 {
        Assoc3(before, "plot ", clause, tail);
        Assoc("plot ", clause, tail);
      } else {
        Assoc(before, clause, tail);
      }
      assert res == before + Piece(cls, i);
      PartialStep(cls, i);
      Assoc(res0, Partial(cls, i), Piece(cls, i));
      i := i + 1;
    }
    if |clusters| == 0 {
      assert PlotCommand(cls) == "";
    }
  }

  lemma AppendEmpty(a: string)
    ensures a + "" == a
  {
  }

  lemma Assoc(a: string, b: string, c: string)
    ensures (a + b) + c == a + (b + c)
  {
  }

  lemma Assoc3(a: string, b: string, c: string, d: string)
    ensures ((a + b) + c) + d == a + ((b + c) + d)
  {
  }

  /** A plot command spans one line per clause when no clause holds a line break. */
  lemma PlotCommandLinesOf(cls: seq<string>)
    requires forall k :: 0 <= k < |cls| ==> '\n' !in cls[k]
    ensures Text.Count(PlotCommand(cls), '\n') == |cls|
  {
    if |cls| > 0 {
      var joined := Text.Join(cls, ClauseSep);
      assert Text.Count(ClauseSep, '\n') == 1 by {
        Text.CountAbsent(ClauseSep[..3], '\n');
      }
      Text.JoinCountIn(cls, ClauseSep, '\n');
      Text.CountAbsent("plot ", '\n');
      Text.CountAppend("plot ", joined, '\n');
      Text.CountAppend("plot " + joined, "\n", '\n');
      assert Text.Count("\n", '\n') == 1 by {
        assert "\n"[..0] == [];
      }
    }
  }

  /**
   * When no cluster name, data file name or point type holds a line break,
   * the plot command spans exactly one line per cluster.
   */
  lemma PlotCommandLines(attrCnt: nat, clusters: seq<string>, dataFile: string, x: nat, y: nat,
                         pointType: nat -> string)
    requires forall k :: 0 <= k < |clusters| ==> '\n' !in clusters[k] && '\n' !in pointType(k)
    requires '\n' !in dataFile
    ensures Text.Count(PlotCommand(Clauses(attrCnt, clusters, dataFile, x, y, pointType)), '\n') == |clusters|
  {
    var cls := Clauses(attrCnt, clusters, dataFile, x, y, pointType);
    forall k | 0 <= k < |cls|
      ensures '\n' !in cls[k]
    {
      ClauseHasNoBreak(attrCnt + 1, clusters[k], dataFile, x, y, pointType(k));
    }
    PlotCommandLinesOf(cls);
  }

  lemma ClauseHasNoBreak(labelPos: nat, cluster: string, dataFile: string, x: nat, y: nat, pointType: string)
    requires '\n' !in cluster && '\n' !in dataFile && '\n' !in pointType
    ensures '\n' !in Clause(labelPos, cluster, dataFile, x, y, pointType)
  {
    NoBreakInDigits(labelPos);
    NoBreakInDigits(x);
    NoBreakInDigits(y);
  }

  lemma NoBreakInDigits(n: nat)
    ensures '\n' !in Text.Digits(n)
  {
  }

  // ----- the data file -----

  /** A cluster as `toCsv` sees it: its name and its instances, each a row of rendered values. */
  datatype Cluster = Cluster(name: string, instances: seq<seq<string>>)

  /** `appendClass`: the values separated by commas, then a comma and the cluster's name. */
  method AppendClass(inst: seq<string>, klass: string) returns (line: string)
    ensures line == Text.Join(inst, ",") + "," + klass
  {
    line := "";
    var i := 0;
    while i < |inst|
      invariant 0 <= i <= |inst|
      invariant line == Text.Join(inst[..i], ",")
    {
      if i > 0 {
        line := line + ",";
        Text.JoinSnoc(inst[..i], inst[i], ",");
      }
      assert inst[..i + 1] == inst[..i] + [inst[i]];
      line := line + inst[i];
      i := i + 1;
    }
    assert inst[..i] == inst;
    line := line + "," + klass;
  }

  /**
   * A data line holds one comma per value when there is at least one value
   * (and one comma when there is none), provided no value or name holds a comma.
   */
  lemma AppendClassCommas(inst: seq<string>, klass: string)
    requires forall k :: 0 <= k < |inst| ==> ',' !in inst[k]
    requires ',' !in klass
    ensures Text.Count(Text.Join(inst, ",") + "," + klass, ',') == if |inst| == 0 then 1 else |inst|
  {
    Text.CountAbsent(klass, ',');
    if |inst| > 0 {
      Text.JoinCount(inst, ',');
    }
    Text.CountAppend(Text.Join(inst, ","), ",", ',');
    Text.CountAppend(Text.Join(inst, ",") + ",", klass, ',');
    assert Text.Count(",", ',') == 1 by {
      assert ","[..0] == [];
    }
  }

  /** What the CSV writer is given: a header row through `writeNext`, data lines through `writeLine`. */
  datatype Emitted = Fields(cells: seq<string>) | Line(text: string)

  class CsvWriter {
    var emitted: seq<Emitted>

    constructor ()
      ensures emitted == []
    {
      emitted := [];
    }

    method WriteNext(cells: seq<string>)
      modifies this
      ensures emitted == old(emitted) + [Fields(cells)]
    {
      emitted := emitted + [Fields(cells)];
    }

    method WriteLine(text: string)
      modifies this
      ensures emitted == old(emitted) + [Line(text)]
    {
      emitted := emitted + [Line(text)];
    }
  }

  /** The data lines of one cluster, in instance order. */
  function ClusterLines(c: Cluster): (r: seq<Emitted>)
    ensures |r| == |c.instances|
  {
    seq(|c.instances|, k requires 0 <= k < |c.instances| => Line(Text.Join(c.instances[k], ",") + "," + c.name))
  }

  /** The data lines of all clusters, cluster by cluster. */
  function CsvLines(cs: seq<Cluster>): seq<Emitted>
    decreases |cs|
  {
    if |cs| == 0 then [] else CsvLines(cs[..|cs| - 1]) + ClusterLines(cs[|cs| - 1])
  }

  function InstanceCount(cs: seq<Cluster>): nat
    decreases |cs|
  {
    if |cs| == 0 then 0 else InstanceCount(cs[..|cs| - 1]) + |cs[|cs| - 1].instances|
  }

  /** The data file has exactly one line per instance ... */
  lemma {:induction false} CsvLinesCount(cs: seq<Cluster>)
    ensures |CsvLines(cs)| == InstanceCount(cs)
    decreases |cs|
  {
    if |cs| > 0 {
      CsvLinesCount(cs[..|cs| - 1]);
    }
  }

  /** ... and each line is an instance of some cluster labelled with that cluster's name, and every instance has one. */
  lemma {:induction false} CsvLinesMember(cs: seq<Cluster>, e: Emitted)
    ensures e in CsvLines(cs) <==>
              exists c, k :: c in cs && 0 <= k < |c.instances| && e == Line(Text.Join(c.instances[k], ",") + "," + c.name)
    decreases |cs|
  {
    if |cs| > 0 {
      var init, c := cs[..|cs| - 1], cs[|cs| - 1];
      CsvLinesMember(init, e);
      assert cs == init + [c];
      if e in ClusterLines(c) {
        var k :| 0 <= k < |c.instances| && ClusterLines(c)[k] == e;
        assert c in cs;
      }
      if exists k :: 0 <= k < |c.instances| && e == Line(Text.Join(c.instances[k], ",") + "," + c.name) {
        var k :| 0 <= k < |c.instances| && e == Line(Text.Join(c.instances[k], ",") + "," + c.name);
        assert ClusterLines(c)[k] == e;
      }
    }
  }

  /** The inner loop of `toCsv`: every instance of one cluster. */
  method WriteCluster(writer: CsvWriter, c: Cluster)
    modifies writer
    ensures writer.emitted == old(writer.emitted) + ClusterLines(c)
  {
    var k := 0;
    while k < |c.instances|
      invariant 0 <= k <= |c.instances|
      invariant writer.emitted == old(writer.emitted) + ClusterLines(c)[..k]
    {
      var line := AppendClass(c.instances[k], c.name);
      writer.WriteLine(line);
      assert ClusterLines(c)[..k + 1] == ClusterLines(c)[..k] + [Line(line)];
      k := k + 1;
    }
    assert ClusterLines(c)[..k] == ClusterLines(c);
  }

  /**
   * `toCsv`: a header of the attribute names and "label" (attributeCount + 1
   * cells, the label last), then one line per instance, cluster by cluster.
   */
  method ToCsv(writer: CsvWriter, attrNames: seq<string>, clusters: seq<Cluster>)
    modifies writer
    ensures writer.emitted == old(writer.emitted) + [Fields(attrNames + ["label"])] + CsvLines(clusters)
  {
    var header := [];
    var i := 0;
    while i < |attrNames|
      invariant 0 <= i <= |attrNames|
      invariant header == attrNames[..i]
    {
      assert attrNames[..i + 1] == attrNames[..i] + [attrNames[i]];
      header := header + [attrNames[i]];
      i := i + 1;
    }
    assert attrNames[..i] == attrNames;
    writer.WriteNext(header + ["label"]);
    ghost var start := writer.emitted;
    var c := 0;
    while c < |clusters|
      invariant 0 <= c <= |clusters|
      invariant writer.emitted == start + CsvLines(clusters[..c])
    {
      WriteCluster(writer, clusters[c]);
      assert clusters[..c + 1][..c] == clusters[..c];
      c := c + 1;
    }
    assert clusters[..c] == clusters;
  }
}
