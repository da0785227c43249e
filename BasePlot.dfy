/**
 * The base of the plot exporters: where plot data goes, and the bash script
 * that renders every gnuplot script of a run into one output format.
 */
module BasePlot {
  import Text

  /** The folders a plot exporter works in. */
  class BasePlot {
    var baseFolder: string
    var dataFolder: string

    /** A new exporter keeps its data in the sub-folder "data" of its base folder.
        `FileUtil.mkdir` is taken to return its argument unchanged. */
    constructor (folder: string)
      ensures baseFolder == folder && dataFolder == "data"
    {
      baseFolder := folder;
      dataFolder := "data";
    }

    /** `getDataDir(dir)`: the data folder inside `dir`, with `FileUtil.mkdir`
        taken to return its argument unchanged. */
    function DataDir(dir: string): (r: string)
      reads this
      ensures |r| == |dir| + 1 + |dataFolder| && r[..|dir|] == dir && r[|dir|] == '/' && r[|dir| + 1..] == dataFolder
    {
      dir + "/" + dataFolder
    }
  }

  /**
   * The stem of a plot name: the name cut before its first '.', when that dot
   * is not the first character; otherwise the name unchanged.
   */
  function Stem(plot: string): string
  {
    var pos := Text.IndexOf(plot, '.');
    if pos > 0 then plot[..pos] else plot
  }

  /**
   * A stem is the name itself, or a proper prefix without any dot that ends
   * right before the name's first dot; cutting again changes nothing.
   */
  lemma StemShape(plot: string)
    ensures var s := Stem(plot);
      || s == plot
      || (0 < |s| < |plot| && s == plot[..|s|] && '.' !in s && plot[|s|] == '.')
    ensures Stem(Stem(plot)) == Stem(plot)
  {
    var pos := Text.IndexOf(plot, '.');
    if pos > 0 {
      var s := plot[..pos];
      assert Text.IndexOf(s, '.') == -1;
    }
  }

  /** The dotless names and the names starting with a dot are kept whole. */
  lemma StemKeeps(plot: string)
    requires '.' !in plot || (|plot| > 0 && plot[0] == '.')
    ensures Stem(plot) == plot
  {
  }

  /** The render command of one plot: run its gnuplot script, send the picture to the parent folder. */
  function GnuplotLine(stem: string, gpExt: string, ext: string): string
  {
    "gnuplot -e \"${TERM}\" $PWD/" + stem + gpExt + " > $PWD/../" + stem + "." + ext + "\n"
  }

  /** One render command per plot, in the order given. */
  function ScriptLines(plots: seq<string>, gpExt: string, ext: string): (r: seq<string>)
    ensures |r| == |plots|
  {
    seq(|plots|, k requires 0 <= k < |plots| => GnuplotLine(Stem(plots[k]), gpExt, ext))
  }

  /** The script of a format: "_plot-" and the extension, inside `dir`. */
  function ScriptFile(dir: string, ext: string): string
  {
    dir + "/_plot-" + ext
  }

  /**
   * `bashPlotScript(plots, dir, gnuplotDir, term, ext)`: what is written to
   * the script file, write by write: the bash template for `gnuplotDir`,
   * the TERM assignment, then one render command per plot.
   */
  method BashPlotScript(plots: seq<string>, dir: string, gnuplotDir: string, term: string, ext: string,
                        gpExt: string, bashTemplate: string -> string)
    returns (shFile: string, writes: seq<string>)
    ensures shFile == ScriptFile(dir, ext)
    ensures writes == [bashTemplate(gnuplotDir), "TERM=\"" + term + "\"\n"] + ScriptLines(plots, gpExt, ext)
  {
    shFile := dir + "/_plot-" + ext;
    writes := [bashTemplate(gnuplotDir)];
    writes := writes + ["TERM=\"" + term + "\"\n"];
    ghost var start := writes;
    var k := 0;
    while k < |plots|
      invariant 0 <= k <= |plots|
      invariant writes == start + ScriptLines(plots, gpExt, ext)[..k]
    {
      var plot := plots[k];
      var pos := Text.IndexOf(plot, '.');
      if pos > 0 {
        plot := plot[..pos];
      }
      assert plot == Stem(plots[k]);
      writes := writes + [GnuplotLine(plot, gpExt, ext)];
      assert ScriptLines(plots, gpExt, ext)[..k + 1] == ScriptLines(plots, gpExt, ext)[..k] + [GnuplotLine(plot, gpExt, ext)];
      k := k + 1;
    }
    assert ScriptLines(plots, gpExt, ext)[..k] == ScriptLines(plots, gpExt, ext);
  }

  lemma NoBreakInLine(stem: string, gpExt: string, ext: string)
    requires '\n' !in stem && '\n' !in gpExt && '\n' !in ext
    ensures var l := GnuplotLine(stem, gpExt, ext);
      |l| > 0 && l[|l| - 1] == '\n' && '\n' !in l[..|l| - 1]
  {
    var l := GnuplotLine(stem, gpExt, ext);
    var body := "gnuplot -e \"${TERM}\" $PWD/" + stem + gpExt + " > $PWD/../" + stem + "." + ext;
    assert l == body + "\n";
    assert l[..|l| - 1] == body;
  }

  /**
   * The render commands, written one after another, form exactly one text
   * line per plot when no name or extension holds a line break.
   */
  lemma {:induction false} ScriptLinesCount(plots: seq<string>, gpExt: string, ext: string)
    requires forall k :: 0 <= k < |plots| ==> '\n' !in plots[k]
    requires '\n' !in gpExt && '\n' !in ext
    ensures Text.Count(Text.Terminated(ScriptLines(plots, gpExt, ext), ""), '\n') == |plots|
    decreases |plots|
  {
    if |plots| > 0 {
      var init := plots[..|plots| - 1];
      var lines := ScriptLines(plots, gpExt, ext);
      assert lines[..|lines| - 1] == ScriptLines(init, gpExt, ext);
      ScriptLinesCount(init, gpExt, ext);
      var last := lines[|lines| - 1];
      var stem := Stem(plots[|plots| - 1]);
      StemShape(plots[|plots| - 1]);
      assert '\n' !in stem;
      NoBreakInLine(stem, gpExt, ext);
      var body := last[..|last| - 1];
      assert last == body + "\n";
      Text.CountAbsent(body, '\n');
      Text.CountAppend(body, "\n", '\n');
      assert Text.Count("\n", '\n') == 1 by {
        assert "\n"[..0] == [];
      }
      var prev := Text.Terminated(ScriptLines(init, gpExt, ext), "");
      assert Text.Terminated(lines, "") == prev + last + "";
      assert prev + last + "" == prev + last;
      Text.CountAppend(prev, last, '\n');
    }
  }
}
