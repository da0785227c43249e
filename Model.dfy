/**
 * Entities shared by the configuration search and the exporters: algorithm
 * configurations (the library's Props), clustering results, scores and
 * evaluation criteria. The clustering algorithms and the criteria themselves
 * live in external libraries; here they are function-valued parameters.
 */
module Model {

  datatype Option<T> = None | Some(value: T)

  /** A typed hyperparameter value. */
  datatype Value = IntV(i: int) | RealV(r: real) | StrV(s: string) | BoolV(b: bool)

  /**
   * A hyperparameter key. The three keys the search writes itself ("minPts",
   * "eps" and "cutoff-strategy" in the library) are constructors of their
   * own; any other key, such as those of a parsed override, is `Named`.
   */
  datatype Key = MinPtsKey | EpsKey | CutoffKey | Named(name: string)

  /** The library's name of a key. */
  function KeyName(k: Key): string
  {
    match k
    case MinPtsKey => "minPts"
    case EpsKey => "eps"
    case CutoffKey => "cutoff-strategy"
    case Named(name) => name
  }

  /** A configuration snapshot: hyperparameter key to value. */
  type Config = map<Key, Value>

  /** `merge`: the override wins on every key it holds, every other key keeps the base value. */
  function Merge(base: Config, over: Config): (r: Config)
    ensures r.Keys == base.Keys + over.Keys
    ensures forall k :: k in over ==> r[k] == over[k]
    ensures forall k :: k in base && k !in over ==> r[k] == base[k]
  {
    base + over
  }

  /** Merging the same override twice changes nothing more than merging it once. */
  lemma MergeIdempotent(base: Config, over: Config)
    ensures Merge(Merge(base, over), over) == Merge(base, over)
  {
    var once := Merge(base, over);
    var twice := Merge(once, over);
    assert forall k :: k in twice <==> k in once;
    assert forall k :: k in twice ==> twice[k] == once[k];
  }

  /**
   * The library's mutable property map. The search copies it before merging an
   * override, and the DBSCAN scan writes grid points into it in place.
   */
  class Props {
    var entries: Config

    constructor (initial: Config)
      ensures entries == initial
    {
      entries := initial;
    }

    predicate ContainsKey(key: Key)
      reads this
    {
      key in entries
    }

    /** `copy()`: a fresh object holding the same entries. */
    method Copy() returns (p: Props)
      ensures fresh(p) && p.entries == entries
    {
      p := new Props(entries);
    }

    /** `merge(other)`: override-wins union, in place. */
    method MergeWith(over: Config)
      modifies this
      ensures entries == Merge(old(entries), over)
    {
      entries := Merge(entries, over);
    }

    /** `put`, `putInt`, `putDouble`: one key set in place. */
    method Put(key: Key, v: Value)
      modifies this
      ensures entries == old(entries)[key := v]
    {
      entries := entries[key := v];
    }
  }

  /**
   * An opaque clustering result: its number of clusters, content fingerprint,
   * the configuration that produced it, the measured run time (the StopWatch in
   * its lookup, possibly absent) and the name of its dataset (possibly absent).
   */
  datatype Clustering = Clustering(
    size: nat,
    fingerprint: string,
    params: Config,
    timeMs: Option<real>,
    dataset: Option<string>)

  /** A criterion score as a Java double: a number or NaN (floating-point detail is not modelled). */
  datatype Score = Num(value: real) | NaN

  /**
   * An evaluation criterion. `score` yields None where the library throws a
   * ScoreException; `isBetter(candidate, currentBest)` is the criterion's own
   * comparison, not necessarily `>`. `callsign` is Some for internal evaluators
   * (which print a callsign), `handle` is used otherwise.
   */
  datatype Criterion = Criterion(
    name: string,
    isExternal: bool,
    callsign: Option<string>,
    handle: string,
    score: (Clustering, Config) -> Option<real>,
    isBetter: (Score, Score) -> bool)

  /** `eval.score(c, conf)` inside the search's try block: a ScoreException becomes NaN. */
  function ScoreOf(eval: Criterion, c: Clustering, conf: Config): (s: Score)
    ensures s.NaN? <==> eval.score(c, conf).None?
    ensures s.Num? ==> eval.score(c, conf) == Some(s.value)
  {
    match eval.score(c, conf)
    case Some(x) => Num(x)
    case None => NaN
  }
}
