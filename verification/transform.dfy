/** The common shape of the Silver, Gold and Mart transform scripts: run
    each SQL file of a fixed list in order, deriving its label first, then
    count rows of a fixed list of tables. Any failure (a file without a
    label, a file that cannot be read) ends the script at that point.
    The label derivation is a parameter here; the layers pass
    `Labels.Label`. */
module Transform {
  import opened Wrappers
  import opened Config
  import opened FileSystem

  /** One warehouse action of a transform script. */
  datatype Step =
    | Build(file: string, title: string, sql: string)  // execute a file's whole text
    | Count(table: string)                             // SELECT COUNT(*) FROM <schema>.<table>

  /** The actions taken, and whether the script got to its end. */
  datatype Run = Run(steps: seq<Step>, ok: bool)

  /** The label of each SQL file, or `None` where deriving it raises. */
  type Labeler = string -> Option<string>

  /** The file is labelled and readable, and `s` is the step that runs it. */
  predicate Runs(s: Step, file: string, labelOf: Labeler, read: Reader)
  {
    && labelOf(file).Some? && read(file).Some?
    && s == Build(file, labelOf(file).value, read(file).value)
  }

  /** The file loop: label, then read and execute, for each file in order. */
  function BuildAll(files: seq<string>, labelOf: Labeler, read: Reader): (r: Run)
    ensures |r.steps| <= |files|
    ensures r.ok <==> |r.steps| == |files|
    ensures forall i :: 0 <= i < |r.steps| ==> Runs(r.steps[i], files[i], labelOf, read)
    ensures !r.ok ==> labelOf(files[|r.steps|]).None? || read(files[|r.steps|]).None?
  {
    if |files| == 0 then Run([], true)
    else
      var f := files[0];
      match (labelOf(f), read(f))
      case (Some(l), Some(sql)) =>
        var rest := BuildAll(files[1..], labelOf, read);
        var r := Run([Build(f, l, sql)] + rest.steps, rest.ok);
        assert forall i :: 0 <= i < |r.steps| ==> Runs(r.steps[i], files[i], labelOf, read) by {
          forall i | 0 <= i < |r.steps|
            ensures Runs(r.steps[i], files[i], labelOf, read)
          {
            if i > 0 { assert r.steps[i] == rest.steps[i - 1] && files[i] == files[1..][i - 1]; }
          }
        }
        r
      case _ => Run([], false)
  }

  /** One row count per table, in list order. */
  function Counts(tables: seq<string>): (r: seq<Step>)
    ensures |r| == |tables|
    ensures forall j :: 0 <= j < |tables| ==> r[j] == Count(tables[j])
  {
    seq(|tables|, j requires 0 <= j < |tables| => Count(tables[j]))
  }

  /** A whole transform script: the file loop, then (only if it finished)
      the row counts of `summary`. */
  function Layer(files: seq<string>, summary: seq<string>, labelOf: Labeler, read: Reader): (r: Run)
    ensures r.ok <==> BuildAll(files, labelOf, read).ok
    ensures r.ok ==> |r.steps| == |files| + |summary|
    ensures r.ok ==> forall j :: 0 <= j < |summary| ==> r.steps[|files| + j] == Count(summary[j])
    ensures forall i :: 0 <= i < |files| && i < |r.steps| ==> Runs(r.steps[i], files[i], labelOf, read)
    ensures !r.ok ==> forall i :: 0 <= i < |r.steps| ==> r.steps[i].Build?
    ensures !r.ok ==> r.steps == BuildAll(files, labelOf, read).steps
    ensures !r.ok ==> |r.steps| < |files|
                      && (labelOf(files[|r.steps|]).None? || read(files[|r.steps|]).None?)
  {
    var b := BuildAll(files, labelOf, read);
    if b.ok then
      var r := Run(b.steps + Counts(summary), true);
      assert forall i :: 0 <= i < |files| ==> r.steps[i] == b.steps[i];
      assert forall j :: 0 <= j < |summary| ==> r.steps[|files| + j] == Counts(summary)[j];
      r
    else b
  }

  /** When file `k` is the first without a label or a text, the script
      fails after building exactly the `k` files before it, and counts
      nothing. */
  lemma FirstMissingStopsLayer(files: seq<string>, summary: seq<string>, labelOf: Labeler, read: Reader, k: nat)
    requires k < |files| && (labelOf(files[k]).None? || read(files[k]).None?)
    requires forall i :: 0 <= i < k ==> labelOf(files[i]).Some? && read(files[i]).Some?
    ensures !Layer(files, summary, labelOf, read).ok
    ensures |Layer(files, summary, labelOf, read).steps| == k
    ensures forall i :: 0 <= i < k ==>
              Layer(files, summary, labelOf, read).steps[i]
              == Build(files[i], labelOf(files[i]).value, read(files[i]).value)
  {
    var b := BuildAll(files, labelOf, read);
    assert forall s :: !Runs(s, files[k], labelOf, read);
    assert |b.steps| <= k;
    assert |b.steps| >= k;
    var r := Layer(files, summary, labelOf, read);
    forall i | 0 <= i < k
      ensures r.steps[i] == Build(files[i], labelOf(files[i]).value, read(files[i]).value)
    {
      assert Runs(r.steps[i], files[i], labelOf, read);
    }
  }

  /** Every file has a label and can be read. */
  predicate Ready(files: seq<string>, labelOf: Labeler, read: Reader)
  {
    forall i :: 0 <= i < |files| ==> labelOf(files[i]).Some? && read(files[i]).Some?
  }

  lemma {:induction false} BuildAllCompletes(files: seq<string>, labelOf: Labeler, read: Reader)
    requires Ready(files, labelOf, read)
    ensures BuildAll(files, labelOf, read).ok
    decreases |files|
  {
    if |files| > 0 {
      assert labelOf(files[0]).Some? && read(files[0]).Some?;
      assert Ready(files[1..], labelOf, read) by {
        forall i | 0 <= i < |files[1..]|
          ensures labelOf(files[1..][i]).Some? && read(files[1..][i]).Some?
        {
          assert files[1..][i] == files[i + 1];
        }
      }
      BuildAllCompletes(files[1..], labelOf, read);
    }
  }

  /** When every file has a label and can be read, the script finishes, and
      the step at position `i < |files|` runs file `i` under its label. */
  lemma LayerCompletes(files: seq<string>, summary: seq<string>, labelOf: Labeler, read: Reader)
    requires Ready(files, labelOf, read)
    ensures Layer(files, summary, labelOf, read).ok
    ensures forall i :: 0 <= i < |files| ==>
              Layer(files, summary, labelOf, read).steps[i].Build?
              && Layer(files, summary, labelOf, read).steps[i].title == labelOf(files[i]).value
  {
    BuildAllCompletes(files, labelOf, read);
    var r := Layer(files, summary, labelOf, read);
    forall i | 0 <= i < |files|
      ensures r.steps[i].Build? && r.steps[i].title == labelOf(files[i]).value
    {
      assert Runs(r.steps[i], files[i], labelOf, read);
    }
  }

  /** When file `i` has label `labels[i]` and every file can be read, the
      script finishes: it builds the files in order, each under its label,
      and then counts the summary tables in order. */
  lemma LayerBuildsThenCounts(files: seq<string>, labels: seq<string>, summary: seq<string>,
                              labelOf: Labeler, read: Reader)
    requires |labels| == |files|
    requires forall i :: 0 <= i < |files| ==> labelOf(files[i]) == Some(labels[i]) && read(files[i]).Some?
    ensures Layer(files, summary, labelOf, read).ok
    ensures |Layer(files, summary, labelOf, read).steps| == |files| + |summary|
    ensures forall i :: 0 <= i < |files| ==>
              Layer(files, summary, labelOf, read).steps[i] == Build(files[i], labels[i], read(files[i]).value)
    ensures forall j :: 0 <= j < |summary| ==>
              Layer(files, summary, labelOf, read).steps[|files| + j] == Count(summary[j])
  {
    LayerCompletes(files, summary, labelOf, read);
    var r := Layer(files, summary, labelOf, read);
    forall i | 0 <= i < |files|
      ensures r.steps[i] == Build(files[i], labels[i], read(files[i]).value)
    {
      assert Runs(r.steps[i], files[i], labelOf, read);
    }
  }

  /** A table outside the summary list is never counted, whatever happens. */
  lemma UncountedTable(files: seq<string>, summary: seq<string>, labelOf: Labeler, read: Reader, t: string)
    requires t !in summary
    ensures Count(t) !in Layer(files, summary, labelOf, read).steps
  {
    var b := BuildAll(files, labelOf, read);
    var r := Layer(files, summary, labelOf, read);
    forall i | 0 <= i < |r.steps|
      ensures r.steps[i] != Count(t)
    {
      if i < |b.steps| {
        assert Runs(b.steps[i], files[i], labelOf, read);
      } else {
        assert r.steps[i] == Count(summary[i - |files|]);
      }
    }
  }

  /** What a script run leaves behind: the actions taken and the exit code. */
  datatype Outcome = Outcome(run: Run, exitCode: int)

  /** A whole transform script. The connection is made before the `try`, so
      a missing configuration key raises before anything runs; a failure
      in the loop is printed and re-raised. Either way Python exits with 1. */
  function Script(cfg: Settings, schema: string, files: seq<string>, summary: seq<string>,
                  labelOf: Labeler, read: Reader): (r: Outcome)
    ensures ScriptConnection(cfg, schema).Failure? ==> r.run.steps == [] && r.exitCode == 1
    ensures ScriptConnection(cfg, schema).Success? ==> r.run == Layer(files, summary, labelOf, read)
    ensures r.exitCode == 0 <==> ScriptConnection(cfg, schema).Success? && r.run.ok
    ensures r.exitCode == 0 || r.exitCode == 1
  {
    match ScriptConnection(cfg, schema)
    case Failure(_) => Outcome(Run([], false), 1)
    case Success(_) =>
      var run := Layer(files, summary, labelOf, read);
      Outcome(run, if run.ok then 0 else 1)
  }
}
