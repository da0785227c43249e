/**
 * The command-line options object: option defaults, and the algorithm and
 * meta-search parameter words joined once into a string and then cached.
 */
module CliParams {
  import opened Model
  import Text

  /** `concat(list)`: every word followed by one space, in order. */
  method Concat(list: seq<string>) returns (s: string)
    ensures s == Text.Terminated(list, " ")
  {
    s := "";
    var k := 0;
    while k < |list|
      invariant 0 <= k <= |list|
      invariant s == Text.Terminated(list[..k], " ")
    {
      assert list[..k + 1][..k] == list[..k];
      s := s + list[k] + " ";
      k := k + 1;
    }
    assert list[..k] == list;
  }

  /**
   * The joined words are as long as the words plus one space each, hold one
   * more space per word than the words do, and are empty for no words.
   */
  lemma {:induction false} ConcatShape(list: seq<string>)
    ensures |Text.Terminated(list, " ")| == Text.TotalLength(list) + |list|
    ensures Text.Count(Text.Terminated(list, " "), ' ') == SpacesIn(list) + |list|
    ensures |list| == 0 <==> Text.Terminated(list, " ") == ""
    decreases |list|
  {
    Text.TerminatedLength(list, " ");
    if |list| > 0 {
      var init := list[..|list| - 1];
      var last := list[|list| - 1];
      ConcatShape(init);
      Text.CountAppend(Text.Terminated(init, " "), last, ' ');
      Text.CountAppend(Text.Terminated(init, " ") + last, " ", ' ');
      assert Text.Count(" ", ' ') == 1 by {
        assert " "[..0] == [];
      }
    }
  }

  /** The spaces inside the words themselves. */
  function SpacesIn(list: seq<string>): nat
    decreases |list|
  {
    if |list| == 0 then 0 else SpacesIn(list[..|list| - 1]) + Text.Count(list[|list| - 1], ' ')
  }

  /** The options with logic behind them; options read from the command line start at these defaults. */
  class CliParams {
    var data: Option<string>
    var generate: Option<string>
    var dataType: Option<string>
    var separator: string
    var clsIndex: int
    var idIndex: int
    var skip: Option<string>
    var header: bool
    var algorithm: Option<string>
    var cluster: string
    var tree: bool
    var matrix: bool
    var heatmap: bool
    var cutoff: string
    var width: int
    var height: int
    var eval: string
    var hintK: bool
    var repeat: int
    var scatter: bool
    var experiment: Option<string>
    var optimal: bool
    var optEval: string
    var methodName: string
    var metaSearch: bool
    var se: Option<string>
    var logLevel: string
    var executor: string
    var syncDB: bool
    var params: seq<string>
    var metaParams: seq<string>
    /** `p`: the cached join of `params`, None until first asked for. */
    var p: Option<string>
    /** `meta`: the cached join of `metaParams`. */
    var meta: Option<string>

    constructor ()
      ensures data.None? && generate.None? && dataType.None? && skip.None? && algorithm.None?
      ensures experiment.None? && se.None?
      ensures separator == "," && clsIndex == -1 && idIndex == -1 && header
      ensures cluster == "rows" && !tree && !matrix && !heatmap && cutoff == "hill-climb inc"
      ensures width == 200 && height == 200 && eval == "" && !hintK && repeat == 1 && !scatter
      ensures !optimal && optEval == "NMI-sqrt" && methodName == "" && !metaSearch
      ensures logLevel == "info" && executor == "local" && !syncDB
      ensures params == [] && metaParams == [] && p.None? && meta.None?
    {
      data, generate, dataType, skip, algorithm := None, None, None, None, None;
      experiment, se := None, None;
      separator, clsIndex, idIndex, header := ",", -1, -1, true;
      cluster, tree, matrix, heatmap, cutoff := "rows", false, false, false, "hill-climb inc";
      width, height, eval, hintK, repeat, scatter := 200, 200, "", false, 1, false;
      optimal, optEval, methodName, metaSearch := false, "NMI-sqrt", "", false;
      logLevel, executor, syncDB := "info", "local", false;
      params, metaParams, p, meta := [], [], None, None;
    }

    /**
     * `getParams()`: the first call joins `params` and caches the result;
     * every later call returns the cached string, whatever `params` holds by then.
     */
    method GetParams() returns (r: string)
      modifies this`p
      ensures old(p).None? ==> r == Text.Terminated(params, " ") && p == Some(r)
      ensures old(p).Some? ==> r == old(p).value && p == old(p)
    {
      if p.None? {
        var joined := Concat(params);
        p := Some(joined);
      }
      r := p.value;
    }

    /** `getMetaParams()`: the same cache for `metaParams`, in the field `meta`. */
    method GetMetaParams() returns (r: string)
      modifies this`meta
      ensures old(meta).None? ==> r == Text.Terminated(metaParams, " ") && meta == Some(r)
      ensures old(meta).Some? ==> r == old(meta).value && meta == old(meta)
    {
      if meta.None? {
        var joined := Concat(metaParams);
        meta := Some(joined);
      }
      r := meta.value;
    }
  }
}
