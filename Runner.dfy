/**
 * The catalogue searches of the command-line runner: each configuration of a
 * catalogue (Chameleon presets, Cluto criterion functions, Affinity
 * Propagation damping values) is merged onto the base configuration, run and
 * scored, and the best-so-far tracker keeps the winner. The clustering
 * algorithm, the JSON parser and the evaluation criterion are parameters.
 */
module Runner {
  import opened Model
  import opened Search


  /** Each override parsed and merged onto the base configuration. */
  function CandidateConfigs(base: Config, overrides: seq<string>, parse: string -> Config): (r: seq<Config>)
    ensures |r| == |overrides|
  {
    seq(|overrides|, i requires 0 <= i < |overrides| => Merge(base, parse(overrides[i])))
  }

  function ScoresOf(eval: Criterion, confs: seq<Config>, run: Config -> Clustering): (r: seq<Score>)
    ensures |r| == |confs|
  {
    seq(|confs|, i requires 0 <= i < |confs| => ScoreOf(eval, run(confs[i]), confs[i]))
  }

  /**
   * One catalogue entry: `base` is copied, the parsed override is merged into
   * the copy, and the copy is clustered and scored; `base` is left untouched.
   */
  method RunCandidate(base: Props, over: string, parse: string -> Config,
                      run: Config -> Clustering, eval: Criterion)
    returns (res: Clustering, score: Score)
    ensures res == run(Merge(base.entries, parse(over)))
    ensures score == ScoreOf(eval, res, Merge(base.entries, parse(over)))
  {
    var prop := base.Copy();
    prop.MergeWith(parse(over));
    res := run(prop.entries);
    score := ScoreOf(eval, res, prop.entries);
  }

  /**
   * `findBestHclust`: every catalogue entry is merged onto a copy of `def`,
   * clustered, scored and exported; the result of the tracker's winner is
   * returned (none if no entry beat 0.0). `def` itself is only read.
   */
  method FindBestHclust(configs: seq<string>, def: Props, parse: string -> Config,
                        hclust: Config -> Clustering, eval: Criterion)
    returns (best: Option<Clustering>, exported: seq<Clustering>)
    ensures |exported| == |configs|
    ensures forall i :: 0 <= i < |configs| ==>
              exported[i] == hclust(CandidateConfigs(def.entries, configs, parse)[i])
    ensures best == WinnerOf(exported,
              Track(ScoresOf(eval, CandidateConfigs(def.entries, configs, parse), hclust), eval.isBetter).winner)
  {
    ghost var confs := CandidateConfigs(def.entries, configs, parse);
    ghost var scores := ScoresOf(eval, confs, hclust);
    var maxScore := Baseline;
    best := None;
    exported := [];
    ghost var w: Option<nat> := None;
    var i := 0;
    while i < |configs|
      invariant 0 <= i <= |configs|
      invariant |exported| == i
      invariant forall j :: 0 <= j < i ==> exported[j] == hclust(confs[j])
      invariant Track(scores[..i], eval.isBetter) == Best(maxScore, w)
      invariant best == WinnerOf(exported, w)
      invariant w.Some? ==> w.value < i
    {
      var res, score := RunCandidate(def, configs[i], parse, hclust, eval);
      TrackSnoc(scores, i, eval.isBetter);
      if eval.isBetter(score, maxScore) {
        maxScore := score;
        best := Some(res);
        w := Some(i);
      }
      exported := exported + [res];
      i := i + 1;
    }
    assert scores[..i] == scores;
  }

  /**
   * The Cluto and Affinity Propagation branches of `optFlatPartitioning`: the
   * same tracker, also counting invocations and remembering the winning
   * override string (empty when none wins). `prop` is only copied.
   */
  method OptCatalogue(configs: seq<string>, prop: Props, parse: string -> Config,
                      algorithm: Config -> Clustering, eval: Criterion)
    returns (clustering: Option<Clustering>, bestConf: string, cnt: nat, exported: seq<Clustering>)
    ensures cnt == |configs| && |exported| == |configs|
    ensures forall i :: 0 <= i < |configs| ==>
              exported[i] == algorithm(CandidateConfigs(prop.entries, configs, parse)[i])
    ensures var w := Track(ScoresOf(eval, CandidateConfigs(prop.entries, configs, parse), algorithm), eval.isBetter).winner;
            && clustering == WinnerOf(exported, w)
            && bestConf == (if w.Some? && w.value < |configs| then configs[w.value] else "")
  {
    ghost var confs := CandidateConfigs(prop.entries, configs, parse);
    ghost var scores := ScoresOf(eval, confs, algorithm);
    var maxScore := Baseline;
    clustering, bestConf, cnt, exported := None, "", 0, [];
    ghost var w: Option<nat> := None;
    for i := 0 to |configs|
      invariant cnt == i && |exported| == i
      invariant forall j :: 0 <= j < i ==> exported[j] == algorithm(confs[j])
      invariant Track(scores[..i], eval.isBetter) == Best(maxScore, w)
      invariant clustering == WinnerOf(exported, w)
      invariant bestConf == (if w.Some? && w.value < i then configs[w.value] else "")
      invariant w.Some? ==> w.value < i
    {
      var curr, score := RunCandidate(prop, configs[i], parse, algorithm, eval);
      TrackSnoc(scores, i, eval.isBetter);
      if eval.isBetter(score, maxScore) {
        maxScore := score;
        clustering := Some(curr);
        bestConf := configs[i];
        w := Some(i);
      }
      cnt := cnt + 1;
      exported := exported + [curr];
    }
    assert scores[..|configs|] == scores;
  }

  /** The overrides shared by the Chameleon "Ch1" presets. */
  const Ch1: string := "partitioning:hMETIS,bisection:hMETIS,internal_noise_threshold:1,noise_detection:0"

  /** The eleven cluster-type suffixes (`ch1c`). */
  const CtypeSuffixes: seq<string> := [
    ",ctype=h12", ",ctype=fc1", ",ctype=fc2", ",ctype=gfc1", ",ctype=gfc2", ",ctype=h1",
    ",ctype=h2", ",ctype=edge1", ",ctype=edge2", ",ctype=gedge1", ",ctype=gedge2"]

  /** The seven priority settings (`ch2c`). */
  const PrioritySettings: seq<string> := [
    "k-estim:log10",
    "closeness_priority:2.0,interconnectivity_priority:3.0",
    "closeness_priority:3.0,interconnectivity_priority:1.0",
    "closeness_priority:1.0,interconnectivity_priority:2.0",
    "closeness_priority:2.0,interconnectivity_priority:4.0,k:14",
    "closeness_priority:2.0,interconnectivity_priority:1.0,k:25",
    "closeness_priority:2.0,interconnectivity_priority:1.0,k:3"]

  /** The cartesian catalogue, outer loop over `xs`, inner over `ys`. */
  function Cartesian(prefix: string, xs: seq<string>, ys: seq<string>): seq<string>
    decreases |xs|
  {
    if |xs| == 0 then []
    else Cartesian(prefix, xs[..|xs| - 1], ys) + Pairings(prefix, xs[|xs| - 1], ys)
  }

  /** One row of the catalogue: `x` combined with every entry of `ys`, in order. */
  function Pairings(prefix: string, x: string, ys: seq<string>): (r: seq<string>)
    ensures |r| == |ys|
  {
    seq(|ys|, b requires 0 <= b < |ys| => "{" + prefix + x + "," + ys[b] + "}")
  }

  lemma {:induction false} CartesianLength(prefix: string, xs: seq<string>, ys: seq<string>)
    ensures |Cartesian(prefix, xs, ys)| == |xs| * |ys|
    decreases |xs|
  {
    if |xs| > 0 {
      CartesianLength(prefix, xs[..|xs| - 1], ys);
      assert |xs| * |ys| == (|xs| - 1) * |ys| + |ys|;
    }
  }

  /** Position `a * |ys| + b` lies inside the table of |xs| rows of |ys| entries. */
  lemma IndexBound(a: nat, b: nat, m: nat, n: nat)
    requires a < n && b < m
    ensures a * m + b < n * m
  {
    assert (a + 1) * m == a * m + m;
    assert (a + 1) * m <= n * m;
  }

  /** Entry `a * |ys| + b` of the cartesian catalogue combines `xs[a]` with `ys[b]`. */
  lemma {:induction false} CartesianAt(prefix: string, xs: seq<string>, ys: seq<string>, a: nat, b: nat)
    requires a < |xs| && b < |ys|
    ensures a * |ys| + b < |Cartesian(prefix, xs, ys)|
    ensures Cartesian(prefix, xs, ys)[a * |ys| + b] == "{" + prefix + xs[a] + "," + ys[b] + "}"
    decreases |xs|
  {
    var n, m := |xs|, |ys|;
    var init := xs[..n - 1];
    CartesianLength(prefix, xs, ys);
    CartesianLength(prefix, init, ys);
    IndexBound(a, b, m, n);
    if a < n - 1 {
      CartesianAt(prefix, init, ys, a, b);
      assert init[a] == xs[a];
    } else {
      assert a * m == (n - 1) * m;
    }
  }

  /** The loops of the "Ch2-hmetis" preset: `configs[i++] = "{" + ch1 + c1 + "," + c2 + "}"`. */
  method BuildCartesian(prefix: string, xs: seq<string>, ys: seq<string>) returns (configs: array<string>)
    ensures fresh(configs)
    ensures configs[..] == Cartesian(prefix, xs, ys)
  {
    CartesianLength(prefix, xs, ys);
    configs := new string[|xs| * |ys|](_ => "");
    var i := 0;
    for a := 0 to |xs|
      invariant i == a * |ys| <= configs.Length
      invariant configs[..i] == Cartesian(prefix, xs[..a], ys)
    {
      assert (a + 1) * |ys| == a * |ys| + |ys|;
      assert xs[..a + 1][..a] == xs[..a];
      assert (a + 1) * |ys| <= |xs| * |ys| by {
        MulMonotone(a + 1, |xs|, |ys|);
      }
      FillRow(configs, i, prefix, xs[a], ys);
      i := i + |ys|;
    }
    assert xs[..|xs|] == xs;
  }

  /** `p <= q` scales: `p * m <= q * m`. */
  lemma MulMonotone(p: nat, q: nat, m: nat)
    requires p <= q
    ensures p * m <= q * m
  {
    assert q * m == p * m + (q - p) * m;
  }

  /** The inner loop: one catalogue row written from position `start` on. */
  method FillRow(configs: array<string>, start: nat, prefix: string, x: string, ys: seq<string>)
    requires start + |ys| <= configs.Length
    modifies configs
    ensures configs[..start + |ys|] == old(configs[..start]) + Pairings(prefix, x, ys)
  {
    ghost var before := configs[..start];
    for b := 0 to |ys|
      invariant configs[..start + b] == before + Pairings(prefix, x, ys)[..b]
    {
      configs[start + b] := "{" + prefix + x + "," + ys[b] + "}";
      assert Pairings(prefix, x, ys)[..b + 1] == Pairings(prefix, x, ys)[..b] + [configs[start + b]];
    }
    assert Pairings(prefix, x, ys)[..|ys|] == Pairings(prefix, x, ys);
  }

  /** Presets "Ch2s1".."Ch2s5": the similarity measure named by the preset (BBK1 by default). */
  function SimilarityFor(name: string): string
  {
    if name == "Ch2s2" then "BBK2"
    else if name == "Ch2s3" then "BBK3"
    else if name == "Ch2s4" then "BBK4"
    else if name == "Ch2s5" then "BBK5"
    else "BBK1"
  }

  function Ch2sCatalogue(sim: string): seq<string>
  {
    var base := "{cutoff-strategy:External_cutoff,similarity_measure:" + sim;
    [ base + "}",
      base + ",k-estim:log10}",
      base + ",closeness_priority:2.0,interconnectivity_priority:4.0}",
      base + ",closeness_priority:3.0,interconnectivity_priority:1.0}",
      base + ",closeness_priority:1.0,interconnectivity_priority:2.0}",
      base + ",closeness_priority:2.0,interconnectivity_priority:4.0,k:14}",
      base + ",noise_detection:1}",
      base + ",closeness_priority:2.0,interconnectivity_priority:4.0,noise_detection:1}",
      base + ",closeness_priority:1.0,interconnectivity_priority:2.0,noise_detection:1}",
      base + ",closeness_priority:2.0,interconnectivity_priority:3.0,noise_detection:1,k:10}" ]
  }

  const Ch2nnCatalogue: seq<string> := [
    "{cutoff-strategy:External_cutoff,similarity_measure:BBK1}",
    "{cutoff-strategy:External_cutoff,similarity_measure:BBK1,k-estim:log10}",
    "{cutoff-strategy:External_cutoff,similarity_measure:BBK1,closeness_priority:2.0,interconnectivity_priority:4.0}",
    "{cutoff-strategy:External_cutoff,similarity_measure:BBK1,closeness_priority:2.0,interconnectivity_priority:3.0}",
    "{cutoff-strategy:External_cutoff,similarity_measure:BBK1,closeness_priority:3.0,interconnectivity_priority:1.0}",
    "{cutoff-strategy:External_cutoff,similarity_measure:BBK1,closeness_priority:1.0,interconnectivity_priority:2.0}",
    "{cutoff-strategy:External_cutoff,similarity_measure:BBK1,closeness_priority:2.0,interconnectivity_priority:4.0,k:14}",
    "{cutoff-strategy:External_cutoff,similarity_measure:Standard}"]

  const DefaultChameleonCatalogue: seq<string> := [
    "{k-estim:log10}", "{k-estim:10ln}", "{k-estim:8ln}", "{k-estim:4ln}", "{k-estim:cln}",
    "{closeness_priority:2.0,interconnectivity_priority:3.0}",
    "{closeness_priority:3.0,interconnectivity_priority:1.0}",
    "{closeness_priority:1.0,interconnectivity_priority:2.0}",
    "{closeness_priority:2.0,interconnectivity_priority:4.0,k:14}",
    "{closeness_priority:2.0,interconnectivity_priority:1.0,k:25}",
    "{closeness_priority:2.0,interconnectivity_priority:1.0,k:3}"]

  const ClutoCatalogue: seq<string> := [
    "{crfun=i1,agglofrom=15}", "{crfun=i2}", "{crfun=e1}", "{crfun=g1}", "{crfun=g1p}",
    "{crfun=h1,agglofrom=20}", "{crfun=h2}", "{crfun=slink}", "{crfun=wslink}",
    "{crfun=clink}", "{crfun=wclink}", "{crfun=upgma}"]

  const AffinityCatalogue: seq<string> := [
    "{damping=0.5}", "{damping=0.55}", "{damping=0.6}", "{damping=0.65}", "{damping=0.7}",
    "{damping=0.75}", "{damping=0.8}", "{damping=0.85}", "{damping=0.9}", "{damping=0.95}"]

  /** The Chameleon catalogue chosen by the named method. */
  function ChameleonCatalogue(name: string): seq<string>
  {
    if name == "Ch1" then seq(|CtypeSuffixes|, i requires 0 <= i < |CtypeSuffixes| => "{" + Ch1 + CtypeSuffixes[i] + "}")
    else if name == "Ch2-hmetis" then Cartesian(Ch1, CtypeSuffixes, PrioritySettings)
    else if name == "Ch2nn" then Ch2nnCatalogue
    else if name in {"Ch2s1", "Ch2s2", "Ch2s3", "Ch2s4", "Ch2s5"} then Ch2sCatalogue(SimilarityFor(name))
    else DefaultChameleonCatalogue
  }

  /** Entry `a * 7 + b` of "Ch2-hmetis" is `"{" + ch1 + ch1c[a] + "," + ch2c[b] + "}"`. */
  lemma HmetisEntry(a: nat, b: nat)
    requires a < 11 && b < 7
    ensures |ChameleonCatalogue("Ch2-hmetis")| == 77
    ensures a * 7 + b < |ChameleonCatalogue("Ch2-hmetis")|
    ensures ChameleonCatalogue("Ch2-hmetis")[a * 7 + b] == "{" + Ch1 + CtypeSuffixes[a] + "," + PrioritySettings[b] + "}"
  {
    CartesianLength(Ch1, CtypeSuffixes, PrioritySettings);
    CartesianAt(Ch1, CtypeSuffixes, PrioritySettings, a, b);
  }

  /**
   * `optHierarchical`: for Chameleon, build the catalogue named by `method`
   * (the cartesian one through its loops) and run `findBestHclust` on it; for
   * any other hierarchical algorithm, one plain run on `def` with nothing exported.
   */
  method OptHierarchical(name: string, isChameleon: bool, def: Props, parse: string -> Config,
                         hclust: Config -> Clustering, eval: Criterion)
    returns (res: Option<Clustering>, exported: seq<Clustering>)
    ensures !isChameleon ==> res == Some(hclust(def.entries)) && exported == []
    ensures isChameleon ==>
              var cat := ChameleonCatalogue(name);
              && |exported| == |cat|
              && (forall i :: 0 <= i < |cat| ==> exported[i] == hclust(CandidateConfigs(def.entries, cat, parse)[i]))
              && res == WinnerOf(exported,
                          Track(ScoresOf(eval, CandidateConfigs(def.entries, cat, parse), hclust), eval.isBetter).winner)
  {
    if !isChameleon {
      res, exported := Some(hclust(def.entries)), [];
      return;
    }
    var configs: seq<string>;
    if name == "Ch2-hmetis" {
      var arr := BuildCartesian(Ch1, CtypeSuffixes, PrioritySettings);
      configs := arr[..];
    } else {
      configs := ChameleonCatalogue(name);
    }
    res, exported := FindBestHclust(configs, def, parse, hclust, eval);
  }

  /**
   * `hierachical`, before clustering: a configuration without a cutoff
   * strategy gets the command-line one; an existing one is kept.
   */
  method DefaultCutoff(prop: Props, cutoff: string)
    modifies prop
    ensures prop.entries == if CutoffKey in old(prop.entries) then old(prop.entries)
                            else old(prop.entries)[CutoffKey := StrV(cutoff)]
  {
    if !prop.ContainsKey(CutoffKey) {
      prop.Put(CutoffKey, StrV(cutoff));
    }
  }

  /** One character of `safeName`: ASCII upper case lowered, a space turned into an underscore. */
  function SafeChar(c: char): char
  {
    if c == ' ' then '_'
    else if 'A' <= c <= 'Z' then (c as int + 32) as char
    else c
  }

  /** `safeName`: the name lower-cased, then every space replaced by an underscore. */
  function SafeName(name: string): (r: string)
    ensures |r| == |name|
  {
    seq(|name|, i requires 0 <= i < |name| => SafeChar(name[i]))
  }

  /**
   * A safe name holds neither spaces nor ASCII capitals: each space becomes an
   * underscore, each capital its lower-case letter, other characters stay in place.
   */
  lemma SafeNameClean(name: string)
    ensures ' ' !in SafeName(name)
    ensures forall i :: 0 <= i < |name| && name[i] == ' ' ==> SafeName(name)[i] == '_'
    ensures forall i :: 0 <= i < |name| ==> !('A' <= SafeName(name)[i] <= 'Z')
    ensures forall i :: 0 <= i < |name| && name[i] != ' ' && !('A' <= name[i] <= 'Z') ==> SafeName(name)[i] == name[i]
    ensures forall i :: 0 <= i < |name| && 'A' <= name[i] <= 'Z' ==> SafeName(name)[i] as int == name[i] as int + 32
  {
  }

  /** Making a safe name safe again changes nothing. */
  lemma SafeNameIdempotent(name: string)
    ensures SafeName(SafeName(name)) == SafeName(name)
  {
  }
}
