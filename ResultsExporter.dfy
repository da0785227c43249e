/**
 * The CSV writers of the results exporter: the per-clustering score rows of
 * both `evaluate` overloads (with the criteria timing file), the dataset's
 * meta-feature file and the clustering listing. Each writes a header only when
 * its file is absent and then appends a row built slot by slot in a `String[]`
 * whose unset slots stay null.
 */
module ResultsExporter {
  import opened Model
  import opened Files
  import Text
  import TM = TreeMaps

  /** How the source renders values; all of it is library code. */
  datatype Formats = Formats(
    decimal: real -> string,       // DecimalFormat without grouping
    double: real -> string,        // String.valueOf(double)
    json: Config -> string,        // Props.toJson()
    text: Config -> string,        // Props.toString()
    perfTime: Config -> string)    // String.valueOf(p.get(PERFORMANCE, "time", -1))

  datatype Outcome = Thrown | Skipped | Written

  /** `resultsFile(name)`: the work directory, the separator, the name and ".csv". */
  function ResultsFile(workDir: string, name: string): Path
  {
    workDir + "/" + name + ".csv"
  }

  /** The criteria timing file next to a results file. */
  function CriteriaFile(parent: string): Path
  {
    parent + "/criteria.csv"
  }

  function Names(evals: seq<Criterion>): (r: seq<string>)
    ensures |r| == |evals|
  {
    seq(|evals|, t requires 0 <= t < |evals| => evals[t].name)
  }

  /** The run time from the clustering's StopWatch, or an empty cell without one. */
  function TimeText(c: Clustering, fm: Formats): string
  {
    match c.timeMs
    case Some(t) => fm.decimal(t)
    case None => ""
  }

  function ScoreText(c: Clustering, e: Criterion, fm: Formats): string
  {
    match e.score(c, c.params)
    case Some(x) => fm.double(x)
    case None => ""
  }

  function ScoreTexts(c: Clustering, evals: seq<Criterion>, fm: Formats): (r: seq<string>)
    ensures |r| == |evals|
  {
    seq(|evals|, t requires 0 <= t < |evals| => ScoreText(c, evals[t], fm))
  }

  /** How many criteria are scored before the first one that throws (all of them when none does). */
  function FirstFailure(c: Clustering, evals: seq<Criterion>): (k: nat)
    ensures k <= |evals|
    ensures forall e :: 0 <= e < k ==> evals[e].score(c, c.params).Some?
    ensures k < |evals| ==> evals[k].score(c, c.params).None?
    decreases |evals|
  {
    if |evals| == 0 then 0
    else if evals[0].score(c, c.params).None? then 0
    else 1 + FirstFailure(c, evals[1..])
  }

  /** Up to the first failure, criterion `e` is scored exactly when it comes before it. */
  lemma ScoredBefore(c: Clustering, evals: seq<Criterion>, e: nat)
    requires e <= FirstFailure(c, evals)
    ensures e < FirstFailure(c, evals) <==> e < |evals| && evals[e].score(c, c.params).Some?
  {
  }

  /** A scored criterion extends the score cells by its own formatted score. */
  lemma ScoreCellStep(c: Clustering, evals: seq<Criterion>, fm: Formats, e: nat)
    requires e < FirstFailure(c, evals)
    ensures evals[e].score(c, c.params).Some?
    ensures ScoreTexts(c, evals, fm)[..e + 1]
         == ScoreTexts(c, evals, fm)[..e] + [fm.double(evals[e].score(c, c.params).value)]
  {
    Text.PrefixExtend(ScoreTexts(c, evals, fm), e);
  }

  /** The header line of `evaluate(clustering, evals, file)`. */
  function EvalHeader(evals: seq<Criterion>): Row
  {
    Texts(["dataset", "clusters", "time (ms)"] + Names(evals) + ["template", "alg time"])
  }

  /**
   * The data line as the source writes it: after a criterion throws, the
   * template and the algorithm time go into the next free slots, and the
   * remaining slots stay null.
   */
  function EvalRowAsWritten(dataset: string, c: Clustering, evals: seq<Criterion>, fm: Formats): Row
  {
    var k := FirstFailure(c, evals);
    Texts([dataset, Text.Digits(c.size), TimeText(c, fm)] + ScoreTexts(c, evals, fm)[..k]
          + [fm.json(c.params), fm.perfTime(c.params)])
      + Nulls(|evals| - k)
  }

  /** The data line with every value under its own header: unscored criteria are left empty. */
  function EvalRow(dataset: string, c: Clustering, evals: seq<Criterion>, fm: Formats): Row
  {
    var k := FirstFailure(c, evals);
    Texts([dataset, Text.Digits(c.size), TimeText(c, fm)] + ScoreTexts(c, evals, fm)[..k])
      + Nulls(|evals| - k)
      + Texts([fm.json(c.params), fm.perfTime(c.params)])
  }

  /**
   * Header and data line both have `evals.length + 5` cells; when every
   * criterion is scored, column 3 + e holds criterion e's score under its
   * name and the last two columns hold the template and the algorithm time.
   */
  lemma EvalRowLayout(dataset: string, c: Clustering, evals: seq<Criterion>, fm: Formats)
    ensures |EvalHeader(evals)| == |EvalRowAsWritten(dataset, c, evals, fm)| == |evals| + 5
    ensures FirstFailure(c, evals) == |evals| ==>
              && (forall e :: 0 <= e < |evals| ==>
                    EvalHeader(evals)[3 + e] == Text(evals[e].name) &&
                    EvalRowAsWritten(dataset, c, evals, fm)[3 + e] == Text(ScoreText(c, evals[e], fm)))
              && EvalHeader(evals)[|evals| + 3] == Text("template")
              && EvalRowAsWritten(dataset, c, evals, fm)[|evals| + 3] == Text(fm.json(c.params))
              && EvalRowAsWritten(dataset, c, evals, fm)[|evals| + 4] == Text(fm.perfTime(c.params))
  {
    var k := FirstFailure(c, evals);
    var sc := ScoreTexts(c, evals, fm);
    var rs := [dataset, Text.Digits(c.size), TimeText(c, fm)] + sc[..k] + [fm.json(c.params), fm.perfTime(c.params)];
    var row := EvalRowAsWritten(dataset, c, evals, fm);
    EvalHeaderCells(evals);
    assert row == Texts(rs) + Nulls(|evals| - k);
    if k == |evals| {
      assert row == Texts(rs);
      forall e | 0 <= e < |evals|
        ensures row[3 + e] == Text(ScoreText(c, evals[e], fm))
      {
        assert rs[3 + e] == sc[e];
      }
      assert rs[|evals| + 3] == fm.json(c.params);
      assert rs[|evals| + 4] == fm.perfTime(c.params);
    }
  }

  /** The header names criterion `e` in column 3 + e, between the three leading and the two trailing names. */
  lemma EvalHeaderCells(evals: seq<Criterion>)
    ensures |EvalHeader(evals)| == |evals| + 5
    ensures forall e :: 0 <= e < |evals| ==> EvalHeader(evals)[3 + e] == Text(evals[e].name)
    ensures EvalHeader(evals)[|evals| + 3] == Text("template") && EvalHeader(evals)[|evals| + 4] == Text("alg time")
  {
    TextsMiddle(["dataset", "clusters", "time (ms)"], Names(evals), ["template", "alg time"]);
  }

  /**
   * As written, a criterion that throws puts the template under that
   * criterion's own header, and the "alg time" column is left null.
   */
  lemma EvalRowShifts(dataset: string, c: Clustering, evals: seq<Criterion>, fm: Formats)
    requires FirstFailure(c, evals) < |evals|
    ensures EvalHeader(evals)[3 + FirstFailure(c, evals)] == Text(evals[FirstFailure(c, evals)].name)
    ensures EvalRowAsWritten(dataset, c, evals, fm)[3 + FirstFailure(c, evals)] == Text(fm.json(c.params))
    ensures EvalRowAsWritten(dataset, c, evals, fm)[|evals| + 4] == Null
  {
    var k := FirstFailure(c, evals);
    var rs := [dataset, Text.Digits(c.size), TimeText(c, fm)] + ScoreTexts(c, evals, fm)[..k]
              + [fm.json(c.params), fm.perfTime(c.params)];
    EvalHeaderCells(evals);
    assert EvalRowAsWritten(dataset, c, evals, fm) == Texts(rs) + Nulls(|evals| - k);
    TextsThenNulls(rs, |evals| - k);
    assert |rs| == k + 5 && rs[3 + k] == fm.json(c.params);
  }

  /**
   * The corrected line keeps every column under its header whatever throws:
   * scores of the criteria reached, nulls for the rest, then the template
   * and the algorithm time in the last two columns.
   */
  lemma EvalRowAligned(dataset: string, c: Clustering, evals: seq<Criterion>, fm: Formats)
    ensures |EvalRow(dataset, c, evals, fm)| == |EvalHeader(evals)| == |evals| + 5
    ensures forall e :: 0 <= e < |evals| ==>
              EvalRow(dataset, c, evals, fm)[3 + e] ==
                (if e < FirstFailure(c, evals) then Text(ScoreText(c, evals[e], fm)) else Null)
    ensures EvalRow(dataset, c, evals, fm)[|evals| + 3] == Text(fm.json(c.params))
    ensures EvalRow(dataset, c, evals, fm)[|evals| + 4] == Text(fm.perfTime(c.params))
  {
  }

  /** The header loop: fixed leading names, one name per criterion, fixed trailing names. */
  method HeaderLine(lead: seq<string>, evals: seq<Criterion>, trail: seq<string>) returns (line: Row)
    ensures line == Texts(lead + Names(evals) + trail)
  {
    var cells := lead;
    var e := 0;
    while e < |evals|
      invariant 0 <= e <= |evals|
      invariant cells == lead + Names(evals)[..e]
    {
      assert Names(evals)[..e + 1] == Names(evals)[..e] + [evals[e].name];
      cells := cells + [evals[e].name];
      e := e + 1;
    }
    assert Names(evals)[..e] == Names(evals);
    line := Texts(cells + trail);
  }

  /**
   * The scoring loop inside the try block: the score of each criterion in
   * turn; the first one that throws ends the loop.
   */
  method ScoreCells(c: Clustering, evals: seq<Criterion>, fm: Formats) returns (cells: seq<string>)
    ensures cells == ScoreTexts(c, evals, fm)[..FirstFailure(c, evals)]
  {
    cells := [];
    var e := 0;
    while e < |evals|
      invariant 0 <= e <= FirstFailure(c, evals)
      invariant cells == ScoreTexts(c, evals, fm)[..e]
    {
      var score := evals[e].score(c, c.params);
      ScoredBefore(c, evals, e);
      if score.None? {
        break;
      }
      ScoreCellStep(c, evals, fm, e);
      cells := cells + [fm.double(score.value)];
      e := e + 1;
    }
  }

  /**
   * The data line of `evaluate(clustering, evals, file)`. The source fills its
   * `String[evals.length + 5]` with `line[i++]`, so the line is what was
   * filled, in order, followed by the slots never reached.
   */
  method DataLineAsWritten(dataset: string, c: Clustering, evals: seq<Criterion>, fm: Formats) returns (row: Row)
    ensures row == EvalRowAsWritten(dataset, c, evals, fm)
  {
    var filled := [dataset, Text.Digits(c.size), TimeText(c, fm)];
    if |evals| > 0 {
      var scores := ScoreCells(c, evals, fm);
      filled := filled + scores;
    }
    filled := filled + [fm.json(c.params), fm.perfTime(c.params)];
    row := Texts(filled) + Nulls(|evals| + 5 - |filled|);
  }

  /** The data line with the template and algorithm time written to the last two slots. */
  method DataLine(dataset: string, c: Clustering, evals: seq<Criterion>, fm: Formats) returns (row: Row)
    ensures row == EvalRow(dataset, c, evals, fm)
  {
    var filled := [dataset, Text.Digits(c.size), TimeText(c, fm)];
    if |evals| > 0 {
      var scores := ScoreCells(c, evals, fm);
      filled := filled + scores;
    }
    row := Texts(filled) + Nulls(|evals| + 3 - |filled|) + Texts([fm.json(c.params), fm.perfTime(c.params)]);
  }

  /**
   * `evaluate(clustering, evals, file)`: a missing clustering or dataset
   * throws, missing criteria write nothing, and otherwise the header (if the
   * file is absent) and the data line are written.
   */
  method EvaluateAsWritten(fs: FileSystem, results: Path, clustering: Option<Clustering>, evals: Option<seq<Criterion>>,
                           fm: Formats)
    returns (outcome: Outcome)
    modifies fs
    ensures clustering.None? ==> outcome == Thrown && fs.files == old(fs.files)
    ensures clustering.Some? && evals.None? ==> outcome == Skipped && fs.files == old(fs.files)
    ensures clustering.Some? && evals.Some? && clustering.value.dataset.None? ==>
              outcome == Thrown && fs.files == old(fs.files)
    ensures clustering.Some? && evals.Some? && clustering.value.dataset.Some? ==>
              outcome == Written &&
              fs.files == Record(old(fs.files), results, EvalHeader(evals.value),
                                 EvalRowAsWritten(clustering.value.dataset.value, clustering.value, evals.value, fm))
  {
    if clustering.None? {
      return Thrown;
    }
    if evals.None? {
      return Skipped;
    }
    var c := clustering.value;
    if c.dataset.None? {
      return Thrown;
    }
    var header := HeaderLine(["dataset", "clusters", "time (ms)"], evals.value, ["template", "alg time"]);
    var row := DataLineAsWritten(c.dataset.value, c, evals.value, fm);
    fs.WriteRecord(results, header, row);
    return Written;
  }

  /** `evaluate(clustering, evals, file)` with the template and algorithm time kept in their own columns. */
  method Evaluate(fs: FileSystem, results: Path, clustering: Option<Clustering>, evals: Option<seq<Criterion>>,
                  fm: Formats)
    returns (outcome: Outcome)
    modifies fs
    ensures clustering.None? ==> outcome == Thrown && fs.files == old(fs.files)
    ensures clustering.Some? && evals.None? ==> outcome == Skipped && fs.files == old(fs.files)
    ensures clustering.Some? && evals.Some? && clustering.value.dataset.None? ==>
              outcome == Thrown && fs.files == old(fs.files)
    ensures clustering.Some? && evals.Some? && clustering.value.dataset.Some? ==>
              outcome == Written &&
              fs.files == Record(old(fs.files), results, EvalHeader(evals.value),
                                 EvalRow(clustering.value.dataset.value, clustering.value, evals.value, fm))
  {
    if clustering.None? {
      return Thrown;
    }
    if evals.None? {
      return Skipped;
    }
    var c := clustering.value;
    if c.dataset.None? {
      return Thrown;
    }
    var header := HeaderLine(["dataset", "clusters", "time (ms)"], evals.value, ["template", "alg time"]);
    var row := DataLine(c.dataset.value, c, evals.value, fm);
    fs.WriteRecord(results, header, row);
    return Written;
  }

  /** The keys of a map in its iteration order, collected by a loop over `keySet()`. */
  method KeysOf<V>(m: seq<(string, V)>) returns (ks: seq<string>)
    ensures ks == TM.Keys(m)
  {
    ks := [];
    var t := 0;
    while t < |m|
      invariant 0 <= t <= |m|
      invariant ks == TM.Keys(m)[..t]
    {
      assert TM.Keys(m)[..t + 1] == TM.Keys(m)[..t] + [m[t].0];
      ks := ks + [m[t].0];
      t := t + 1;
    }
    assert TM.Keys(m)[..t] == TM.Keys(m);
  }

  /** The values of a string map in its iteration order, collected by a loop over `values()`. */
  method ValuesOf(m: seq<(string, string)>) returns (vs: seq<string>)
    ensures vs == TM.Values(m)
  {
    vs := [];
    var t := 0;
    while t < |m|
      invariant 0 <= t <= |m|
      invariant vs == TM.Values(m)[..t]
    {
      assert TM.Values(m)[..t + 1] == TM.Values(m)[..t] + [m[t].1];
      vs := vs + [m[t].1];
      t := t + 1;
    }
    assert TM.Values(m)[..t] == TM.Values(m);
  }

  // ----- evaluate(clustering, evals, results, meta) -----

  /** The header: the meta keys, the run time, one column per criterion, the template and the algorithm time. */
  function MetaHeader(meta: seq<(string, string)>, evals: seq<Criterion>): Row
  {
    Texts(TM.Keys(meta) + ["time (ms)"] + Names(evals) + ["template", "alg time"])
  }

  /**
   * The data line: the meta values, the run time, the scores up to the first
   * criterion that throws, then the template; the rest of the
   * `String[evals.length + meta.size() + 3]` stays null.
   */
  function MetaRow(meta: seq<(string, string)>, c: Clustering, evals: seq<Criterion>, fm: Formats): Row
  {
    var k := FirstFailure(c, evals);
    Texts(TM.Values(meta) + [TimeText(c, fm)] + ScoreTexts(c, evals, fm)[..k] + [fm.json(c.params)])
      + Nulls(|evals| - k + 1)
  }

  function CriteriaHeader(): Row
  {
    Texts(["objective", "time", "k", "fingerprint"])
  }

  /**
   * One line of criteria.csv: the criterion, the time its score took
   * (`clock`, the StopWatch reading), the number of clusters and the fingerprint.
   */
  function CriteriaRow(c: Clustering, e: Criterion, clock: Criterion -> string): Row
  {
    Texts([e.name, clock(e), Text.Digits(c.size), c.fingerprint])
  }

  /** The criteria.csv lines for the criteria scored, in order: internal criteria only. */
  function CriteriaRows(c: Clustering, scored: seq<Criterion>, clock: Criterion -> string): seq<Row>
    decreases |scored|
  {
    if |scored| == 0 then []
    else
      var e := scored[|scored| - 1];
      CriteriaRows(c, scored[..|scored| - 1], clock) + (if e.isExternal then [] else [CriteriaRow(c, e, clock)])
  }

  lemma {:induction false} CriteriaRowsMember(c: Clustering, scored: seq<Criterion>, clock: Criterion -> string, row: Row)
    ensures row in CriteriaRows(c, scored, clock) <==>
              exists e :: e in scored && !e.isExternal && row == CriteriaRow(c, e, clock)
    ensures |CriteriaRows(c, scored, clock)| <= |scored|
    decreases |scored|
  {
    if |scored| > 0 {
      var init := scored[..|scored| - 1];
      CriteriaRowsMember(c, init, clock, row);
      assert scored == init + [scored[|scored| - 1]];
    }
  }

  /**
   * criteria.csv gains a line for every internal criterion scored before
   * the first one that throws, and for nothing else.
   */
  lemma CriteriaRowsExact(c: Clustering, evals: seq<Criterion>, clock: Criterion -> string)
    ensures var rows := CriteriaRows(c, evals[..FirstFailure(c, evals)], clock);
      && |rows| <= FirstFailure(c, evals)
      && forall row :: row in rows <==>
           exists e :: 0 <= e < FirstFailure(c, evals) && !evals[e].isExternal && row == CriteriaRow(c, evals[e], clock)
  {
    var k := FirstFailure(c, evals);
    var scored := evals[..k];
    forall row
      ensures row in CriteriaRows(c, scored, clock) <==>
                exists e :: 0 <= e < k && !evals[e].isExternal && row == CriteriaRow(c, evals[e], clock)
    {
      CriteriaRowsMember(c, scored, clock, row);
      if row in CriteriaRows(c, scored, clock) {
        var x :| x in scored && !x.isExternal && row == CriteriaRow(c, x, clock);
        var e :| 0 <= e < k && scored[e] == x;
        assert evals[e] == x;
      }
      if exists e :: 0 <= e < k && !evals[e].isExternal && row == CriteriaRow(c, evals[e], clock) {
        var e :| 0 <= e < k && !evals[e].isExternal && row == CriteriaRow(c, evals[e], clock);
        assert scored[e] == evals[e];
      }
    }
    CriteriaRowsMember(c, scored, clock, []);
  }

  /**
   * Header and data line have `meta.size() + evals.length + 3` cells; the
   * "alg time" column is never filled, and when every criterion is scored
   * each score sits under its criterion's name and the template under "template".
   */
  lemma MetaRowLayout(meta: seq<(string, string)>, c: Clustering, evals: seq<Criterion>, fm: Formats)
    ensures var h, r := MetaHeader(meta, evals), MetaRow(meta, c, evals, fm);
      && |h| == |r| == |meta| + |evals| + 3
      && h[|h| - 1] == Text("alg time") && r[|r| - 1] == Null
      && (FirstFailure(c, evals) == |evals| ==>
            && (forall e :: 0 <= e < |evals| ==>
                  h[|meta| + 1 + e] == Text(evals[e].name) && r[|meta| + 1 + e] == Text(ScoreText(c, evals[e], fm)))
            && h[|meta| + |evals| + 1] == Text("template") && r[|meta| + |evals| + 1] == Text(fm.json(c.params)))
  {
    MetaHeaderCells(meta, evals);
    MetaRowCells(meta, c, evals, fm);
  }

  lemma MetaHeaderCells(meta: seq<(string, string)>, evals: seq<Criterion>)
    ensures var h := MetaHeader(meta, evals);
      && |h| == |meta| + |evals| + 3
      && h[|h| - 1] == Text("alg time")
      && (forall e :: 0 <= e < |evals| ==> h[|meta| + 1 + e] == Text(evals[e].name))
      && h[|meta| + |evals| + 1] == Text("template")
  {
    TextsMiddle(TM.Keys(meta) + ["time (ms)"], Names(evals), ["template", "alg time"]);
  }

  lemma MetaRowCells(meta: seq<(string, string)>, c: Clustering, evals: seq<Criterion>, fm: Formats)
    ensures var r := MetaRow(meta, c, evals, fm);
      && |r| == |meta| + |evals| + 3
      && r[|r| - 1] == Null
      && (FirstFailure(c, evals) == |evals| ==>
            && (forall e :: 0 <= e < |evals| ==> r[|meta| + 1 + e] == Text(ScoreText(c, evals[e], fm)))
            && r[|meta| + |evals| + 1] == Text(fm.json(c.params)))
  {
    var k := FirstFailure(c, evals);
    var sc := ScoreTexts(c, evals, fm);
    var front := TM.Values(meta) + [TimeText(c, fm)];
    PaddedRow(front, sc[..k], fm.json(c.params), |evals| - k + 1);
    if k == |evals| {
      assert sc[..k] == sc;
      forall e | 0 <= e < |evals|
        ensures sc[e] == ScoreText(c, evals[e], fm)
      {
      }
    }
  }

  /**
   * The meta overload fills its line with `line[i++]` too: a criterion that
   * throws puts the template under that criterion's own header, and the
   * "template" column is left null.
   */
  lemma MetaRowShifts(meta: seq<(string, string)>, c: Clustering, evals: seq<Criterion>, fm: Formats)
    requires FirstFailure(c, evals) < |evals|
    ensures MetaHeader(meta, evals)[|meta| + 1 + FirstFailure(c, evals)] == Text(evals[FirstFailure(c, evals)].name)
    ensures MetaRow(meta, c, evals, fm)[|meta| + 1 + FirstFailure(c, evals)] == Text(fm.json(c.params))
    ensures MetaHeader(meta, evals)[|meta| + |evals| + 1] == Text("template")
    ensures MetaRow(meta, c, evals, fm)[|meta| + |evals| + 1] == Null
  {
    var k := FirstFailure(c, evals);
    var filled := TM.Values(meta) + [TimeText(c, fm)] + ScoreTexts(c, evals, fm)[..k] + [fm.json(c.params)];
    var t, z := Texts(filled), Nulls(|evals| - k + 1);
    MetaHeaderCells(meta, evals);
    assert MetaRow(meta, c, evals, fm) == t + z;
    assert |t| == |meta| + k + 2;
    assert t[|t| - 1] == Text(fm.json(c.params));
    assert (t + z)[|meta| + |evals| + 1] == z[|evals| - k - 1];
  }

  /** Where the cells of a row written as a front, a middle, a last cell and then unset slots sit. */
  lemma PaddedRow(front: seq<string>, mid: seq<string>, last: string, pad: nat)
    ensures var r := Texts(front + mid + [last]) + Nulls(pad);
      && |r| == |front| + |mid| + 1 + pad
      && (pad > 0 ==> r[|r| - 1] == Null)
      && (forall e :: 0 <= e < |mid| ==> r[|front| + e] == Text(mid[e]))
      && r[|front| + |mid|] == Text(last)
  {
    var t := Texts(front + mid + [last]);
    TextsMiddle(front, mid, [last]);
    assert t[|front| + |mid| + 0] == Text(last);
  }

  /** Scoring criterion `e` appends its criteria.csv line exactly when it is internal. */
  lemma CriteriaLogStep(files: Dir, path: Path, c: Clustering, evals: seq<Criterion>, clock: Criterion -> string, e: nat)
    requires e < |evals|
    ensures var before := AppendAll(files, path, CriteriaRows(c, evals[..e], clock));
      AppendAll(files, path, CriteriaRows(c, evals[..e + 1], clock))
        == if evals[e].isExternal then before else Append(before, path, CriteriaRow(c, evals[e], clock))
  {
    var rows := CriteriaRows(c, evals[..e], clock);
    assert evals[..e + 1][..e] == evals[..e];
    if !evals[e].isExternal {
      var row := CriteriaRow(c, evals[e], clock);
      assert CriteriaRows(c, evals[..e + 1], clock) == rows + [row];
      assert (rows + [row])[..|rows|] == rows;
      assert AppendAll(files, path, rows + [row]) == Append(AppendAll(files, path, rows), path, row);
    } else {
      assert CriteriaRows(c, evals[..e + 1], clock) == rows;
    }
  }

  /** The criteria.csv line of a scored criterion, written only for an internal one. */
  method LogCriterion(fs: FileSystem, criteria: Path, c: Clustering, evals: seq<Criterion>, clock: Criterion -> string,
                      e: nat, ghost f0: Dir)
    requires e < |evals|
    requires fs.files == AppendAll(f0, criteria, CriteriaRows(c, evals[..e], clock))
    modifies fs
    ensures fs.files == AppendAll(f0, criteria, CriteriaRows(c, evals[..e + 1], clock))
  {
    CriteriaLogStep(f0, criteria, c, evals, clock, e);
    if !evals[e].isExternal {
      fs.WriteCsvLine(criteria, CriteriaRow(c, evals[e], clock), true);
    }
  }

  /**
   * The scoring loop of the meta overload: each score in turn, and for each
   * internal criterion a line appended to criteria.csv; the first criterion
   * that throws ends the loop.
   */
  method ScoreAndLog(fs: FileSystem, criteria: Path, c: Clustering, evals: seq<Criterion>, fm: Formats,
                     clock: Criterion -> string)
    returns (cells: seq<string>)
    modifies fs
    ensures cells == ScoreTexts(c, evals, fm)[..FirstFailure(c, evals)]
    ensures fs.files == AppendAll(old(fs.files), criteria, CriteriaRows(c, evals[..FirstFailure(c, evals)], clock))
  {
    ghost var k := FirstFailure(c, evals);
    ghost var all := ScoreTexts(c, evals, fm);
    ghost var f0 := fs.files;
    cells := [];
    var e := 0;
    while e < |evals|
      invariant 0 <= e <= k
      invariant cells == all[..e]
      invariant fs.files == AppendAll(f0, criteria, CriteriaRows(c, evals[..e], clock))
    {
      var score := evals[e].score(c, c.params);
      ScoredBefore(c, evals, e);
      if score.None? {
        break;
      }
      ScoreCellStep(c, evals, fm, e);
      cells := cells + [fm.double(score.value)];
      LogCriterion(fs, criteria, c, evals, clock, e, f0);
      e := e + 1;
    }
  }

  /**
   * `evaluate(clustering, evals, results, meta)`: the results header if the
   * file is absent, the criteria.csv header if that file is absent, one
   * criteria.csv line per internal criterion scored, and the data line.
   * The meta map is given in its iteration order.
   */
  method EvaluateWithMeta(fs: FileSystem, results: Path, parent: string, c: Clustering, evals: seq<Criterion>,
                          meta: seq<(string, string)>, fm: Formats, clock: Criterion -> string)
    modifies fs
    ensures var withHeaders := HeaderIfAbsent(HeaderIfAbsent(old(fs.files), results, MetaHeader(meta, evals)),
                                              CriteriaFile(parent), CriteriaHeader());
      fs.files == Append(AppendAll(withHeaders, CriteriaFile(parent), CriteriaRows(c, evals[..FirstFailure(c, evals)], clock)),
                         results, MetaRow(meta, c, evals, fm))
  {
    ghost var f0 := fs.files;
    if !fs.Exists(results) {
      var keys := KeysOf(meta);
      var header := HeaderLine(keys + ["time (ms)"], evals, ["template", "alg time"]);
      fs.WriteCsvLine(results, header, false);
    }
    ghost var f1 := fs.files;
    assert f1 == HeaderIfAbsent(f0, results, MetaHeader(meta, evals));
    var criteria := CriteriaFile(parent);
    if !fs.Exists(criteria) {
      fs.WriteCsvLine(criteria, CriteriaHeader(), false);
    }
    ghost var f2 := fs.files;
    assert f2 == HeaderIfAbsent(f1, criteria, CriteriaHeader());
    var filled := ValuesOf(meta);
    filled := filled + [TimeText(c, fm)];
    var scores := ScoreAndLog(fs, criteria, c, evals, fm, clock);
    ghost var f3 := fs.files;
    filled := filled + scores + [fm.json(c.params)];
    MetaRowFilled(meta, c, evals, fm, filled);
    var row := Texts(filled) + Nulls(|evals| + |meta| + 3 - |filled|);
    fs.WriteCsvLine(results, row, true);
    assert fs.files == Append(f3, results, row);
  }

  /** The slots the meta overload fills, followed by the ones it leaves null, make up its data line. */
  lemma MetaRowFilled(meta: seq<(string, string)>, c: Clustering, evals: seq<Criterion>, fm: Formats,
                      filled: seq<string>)
    requires filled == TM.Values(meta) + [TimeText(c, fm)] + ScoreTexts(c, evals, fm)[..FirstFailure(c, evals)]
                       + [fm.json(c.params)]
    ensures |filled| <= |evals| + |meta| + 3
    ensures Texts(filled) + Nulls(|evals| + |meta| + 3 - |filled|) == MetaRow(meta, c, evals, fm)
  {
  }

  // ----- writeMeta -----

  /** The meta-features file of a dataset. */
  function MetaFile(workDir: string, dataset: string): Path
  {
    ResultsFile(workDir, dataset + "-meta")
  }

  /** The formatted meta values, in the map's iteration order. */
  function Formatted(meta: seq<(string, real)>, fm: Formats): (r: seq<string>)
    ensures |r| == |meta|
  {
    seq(|meta|, t requires 0 <= t < |meta| => fm.decimal(meta[t].1))
  }

  /**
   * `writeMeta(meta, dataset)`: the meta file is overwritten with exactly two
   * lines, "dataset" and the feature names, then the dataset's name and the
   * formatted feature values, column for column. Nothing else changes.
   */
  method WriteMeta(fs: FileSystem, workDir: string, dataset: string, meta: seq<(string, real)>, fm: Formats)
    modifies fs
    ensures fs.files == old(fs.files)[MetaFile(workDir, dataset) :=
                          [Texts(["dataset"] + TM.Keys(meta)), Texts([dataset] + Formatted(meta, fm))]]
  {
    var path := MetaFile(workDir, dataset);
    var keys := KeysOf(meta);
    fs.WriteCsvLine(path, Texts(["dataset"] + keys), false);
    var values := [];
    var t := 0;
    while t < |meta|
      invariant 0 <= t <= |meta|
      invariant fs.files == old(fs.files)[path := [Texts(["dataset"] + keys)]]
      invariant values == Formatted(meta, fm)[..t]
    {
      assert Formatted(meta, fm)[..t + 1] == Formatted(meta, fm)[..t] + [fm.decimal(meta[t].1)];
      values := values + [fm.decimal(meta[t].1)];
      t := t + 1;
    }
    assert Formatted(meta, fm)[..t] == Formatted(meta, fm);
    ghost var header := Texts(["dataset"] + keys);
    fs.WriteCsvLine(path, Texts([dataset] + values), true);
    assert [header] + [Texts([dataset] + values)] == [header, Texts([dataset] + values)];
  }

  // ----- clusterings -----

  /** The TreeMap a clustering is written from: size, fingerprint and params, put in that order. */
  function ClusteringRecord(c: Clustering, fm: Formats): seq<(string, string)>
  {
    TM.Put(TM.Put(TM.Put([], "size", Text.Digits(c.size)), "fingerprint", c.fingerprint), "params", fm.text(c.params))
  }

  /** The TreeMap orders the columns fingerprint, params, size, whatever the clustering. */
  lemma ClusteringRecordLayout(c: Clustering, fm: Formats)
    ensures TM.Keys(ClusteringRecord(c, fm)) == ["fingerprint", "params", "size"]
    ensures TM.Values(ClusteringRecord(c, fm)) == [c.fingerprint, fm.text(c.params), Text.Digits(c.size)]
  {
    var m1 := TM.Put([], "size", Text.Digits(c.size));
    assert m1 == [("size", Text.Digits(c.size))];
    assert TM.StrLess("fingerprint", "size");
    var m2 := TM.Put(m1, "fingerprint", c.fingerprint);
    assert m2 == [("fingerprint", c.fingerprint), ("size", Text.Digits(c.size))];
    assert !TM.StrLess("params", "fingerprint");
    assert TM.StrLess("params", "size");
    assert TM.Put(m2[1..], "params", fm.text(c.params)) == [("params", fm.text(c.params)), ("size", Text.Digits(c.size))];
  }

  function ClusteringHeader(): Row
  {
    Texts(["fingerprint", "params", "size"])
  }

  function ClusteringRows(list: seq<Clustering>, fm: Formats): (r: seq<Row>)
    ensures |r| == |list|
  {
    seq(|list|, i requires 0 <= i < |list| => Texts([list[i].fingerprint, fm.text(list[i].params), Text.Digits(list[i].size)]))
  }

  /** The record of one clustering, put into a TreeMap and written as its keys and its values. */
  method ClusteringLine(c: Clustering, fm: Formats) returns (header: Row, line: Row)
    ensures header == ClusteringHeader()
    ensures line == Texts([c.fingerprint, fm.text(c.params), Text.Digits(c.size)])
  {
    var res := TM.Put([], "size", Text.Digits(c.size));
    res := TM.Put(res, "fingerprint", c.fingerprint);
    res := TM.Put(res, "params", fm.text(c.params));
    ClusteringRecordLayout(c, fm);
    var keys := KeysOf(res);
    var values := ValuesOf(res);
    header, line := Texts(keys), Texts(values);
  }

  /**
   * `clusterings(list, results)`: one line per clustering, in list order,
   * under a header written only if the file was absent; an empty list
   * writes nothing. A new file thus holds the header once and then the lines.
   */
  method Clusterings(fs: FileSystem, list: seq<Clustering>, results: Path, fm: Formats)
    modifies fs
    ensures |list| == 0 ==> fs.files == old(fs.files)
    ensures |list| > 0 ==>
              fs.files == AppendAll(HeaderIfAbsent(old(fs.files), results, ClusteringHeader()), results,
                                    ClusteringRows(list, fm))
    ensures |list| > 0 && results !in old(fs.files) ==>
              fs.files[results] == [ClusteringHeader()] + ClusteringRows(list, fm)
  {
    ghost var f0 := fs.files;
    ghost var rows := ClusteringRows(list, fm);
    var i := 0;
    while i < |list|
      invariant 0 <= i <= |list|
      invariant fs.files == AfterRecords(f0, results, ClusteringHeader(), rows, i)
    {
      var header, line := ClusteringLine(list[i], fm);
      assert line == rows[i];
      RecordStep(f0, results, ClusteringHeader(), rows, i);
      fs.WriteRecord(results, header, line);
      i := i + 1;
    }
    if |list| > 0 {
      assert rows[..|list|] == rows;
      if results !in f0 {
        RecordsKeepOneHeader(f0, results, ClusteringHeader(), rows);
      }
    }
  }

}
