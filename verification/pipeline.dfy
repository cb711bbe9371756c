/** The pipeline runner: launch the four layer scripts in order as
    subprocesses, stopping at the first one that does not exit with 0. */
module Pipeline {
  import opened Wrappers
  import opened FailFast
  import opened Config
  import BronzeLoad
  import Transform
  import FileSystem
  import Labels
  import Quality
  import Silver
  import SilverScript
  import Gold
  import Mart

  /** A script to launch and the banner printed before it. */
  datatype Stage = Stage(script: string, description: string)

  /** The stages, in order. There is no setup stage: the Bronze tables are
      expected to exist already. */
  const Stages: seq<Stage> := [BronzeStage, SilverStage, GoldStage, MartStage]

  const BronzeStage := Stage("python/bronze_load.py", "1. BRONZE LAYER - Raw Data Ingestion")
  const SilverStage := Stage("python/silver_transform.py", "2. SILVER LAYER - Data Cleansing")
  const GoldStage := Stage("python/gold_transform.py", "3. GOLD LAYER - Dimensional Model")
  const MartStage := Stage("python/mart_transform.py", "4. MART LAYER - Business Views")

  /** What launching a script gives: its exit status, or a failure of
      `subprocess.run` itself (the interpreter could not be started). */
  datatype Launch = Exited(code: int) | LaunchFailed

  /** The result of launching each script. */
  type Launcher = string -> Launch

  /** `run_script`: the return code when it returns, which is always 0; a
      non-zero status ends the process with `sys.exit(1)`, and a launch
      failure propagates to the top-level handler, which exits with 1 too.
      Either way `None` here. */
  function RunScript(stage: Stage, launch: Launcher): (r: Option<int>)
    ensures r.Some? <==> launch(stage.script) == Exited(0)
    ensures r.Some? ==> r.value == 0
  {
    match launch(stage.script)
    case Exited(code) => if code != 0 then None else Some(code)
    case LaunchFailed => None
  }

  /** A stage passes when `run_script` returns. */
  predicate Passes(launch: Launcher, stage: Stage)
  {
    RunScript(stage, launch).Some?
  }

  function Passing(launch: Launcher): Stage -> bool
  {
    s => Passes(launch, s)
  }

  /** What a pipeline run leaves behind: the stages launched, in order,
      whether the completion banner was printed, and the exit code. */
  datatype Outcome = Outcome(launched: seq<Stage>, completed: bool, exitCode: int)

  /** The whole runner. */
  function Run(launch: Launcher): (r: Outcome)
    ensures 0 < |r.launched| <= |Stages| && r.launched == Stages[..|r.launched|]
    ensures r.completed <==> r.exitCode == 0
    ensures r.exitCode == 0 || r.exitCode == 1
    ensures r.exitCode == 0 <==> forall i :: 0 <= i < |Stages| ==> launch(Stages[i].script) == Exited(0)
    ensures r.exitCode == 0 ==> r.launched == Stages
    ensures r.exitCode == 1 ==>
              launch(r.launched[|r.launched| - 1].script) != Exited(0)
              && forall i :: 0 <= i < |r.launched| - 1 ==> launch(r.launched[i].script) == Exited(0)
  {
    var (launched, done) := RunUntil(Stages, Passing(launch));
    Outcome(launched, done, if done then 0 else 1)
  }

  /** The stage loop as the script writes it out, one `run_script` call
      after another; it agrees with the recursive definition. */
  method RunStages(stages: seq<Stage>, launch: Launcher) returns (launched: seq<Stage>, ok: bool)
    ensures (launched, ok) == RunUntil(stages, Passing(launch))
  {
    launched := [];
    var i := 0;
    while i < |stages|
      invariant 0 <= i <= |stages|
      invariant launched == stages[..i]
      invariant forall j :: 0 <= j < i ==> Passes(launch, stages[j])
    {
      launched := launched + [stages[i]];
      assert launched == stages[..i + 1];
      if RunScript(stages[i], launch).None? {
        RunUntilFirstFailure(stages, Passing(launch), i);
        return launched, false;
      }
      i := i + 1;
    }
    RunUntilAll(stages, Passing(launch));
    assert stages[..i] == stages;
    ok := true;
  }

  /** The runner: the stage loop, then the exit code. */
  method RunPipeline(launch: Launcher) returns (launched: seq<Stage>, exitCode: int)
    ensures launched == Run(launch).launched && exitCode == Run(launch).exitCode
  {
    var ok;
    launched, ok := RunStages(Stages, launch);
    exitCode := if ok then 0 else 1;
  }

  /** A stage that fails stops the run: the stages after it are never
      launched, and the run exits with 1. */
  lemma FailureStopsRun(launch: Launcher, k: nat)
    requires k < |Stages| && launch(Stages[k].script) != Exited(0)
    ensures Run(launch).exitCode == 1 && !Run(launch).completed
    ensures |Run(launch).launched| <= k + 1
  {
    RunUntilStops(Stages, Passing(launch), k);
  }

  // How the layer scripts' own exit codes drive the runner. The lemmas below
  // take the launcher to report, for each script, the exit code its model
  // gives.

  function BronzeExit(cfg: Settings, listing: Option<seq<string>>, accepts: BronzeLoad.Directive -> bool): int
  {
    BronzeLoad.Load(cfg, listing, accepts).exitCode
  }

  function SilverExit(cfg: Settings, read: FileSystem.Reader, rows: Quality.Rows, f: Quality.Flags,
                      statuses: seq<string>, days: seq<Option<int>>): int
  {
    SilverScript.RunSilver(cfg, read, rows, f, statuses, days).exitCode
  }

  function GoldExit(cfg: Settings, read: FileSystem.Reader): int
  {
    Transform.Script(cfg, "GOLD", Gold.GoldFiles, Gold.Dimensions + Gold.Facts, Labels.Label, read).exitCode
  }

  function MartExit(cfg: Settings, read: FileSystem.Reader): int
  {
    Transform.Script(cfg, "MART", Mart.MartFiles, Mart.Samples, Labels.Label, read).exitCode
  }

  /** Every connection key is present. */
  predicate Complete(cfg: Settings)
  {
    forall k :: k in ScriptRequired ==> k in cfg
  }

  /** Every file of a list can be read. */
  predicate Readable(read: FileSystem.Reader, files: seq<string>)
  {
    forall i :: 0 <= i < |files| ==> read(files[i]).Some?
  }

  /** Some shipment has a delivery time. */
  predicate SomeDelivered(days: seq<Option<int>>)
  {
    exists i :: 0 <= i < |days| && days[i].Some?
  }

  /** A configuration missing a connection key makes Bronze Load exit with 1
      before its `try`, so the runner stops after the first stage. */
  lemma MissingKeyStopsAtBronze(cfg: Settings, listing: Option<seq<string>>,
                                accepts: BronzeLoad.Directive -> bool, launch: Launcher)
    requires ScriptConnection(cfg, "BRONZE").Failure?
    requires launch(BronzeStage.script) == Exited(BronzeExit(cfg, listing, accepts))
    ensures Run(launch).launched == [BronzeStage] && Run(launch).exitCode == 1
  {
    FailureStopsRun(launch, 0);
  }

  /** Once Bronze Load has connected, nothing that goes wrong inside it (an
      unreadable data directory, a rejected PUT or COPY) stops the run: it
      exits with 0 and the Silver stage is launched next. */
  lemma BronzeErrorsDoNotStopRun(cfg: Settings, listing: Option<seq<string>>,
                                 accepts: BronzeLoad.Directive -> bool, launch: Launcher)
    requires ScriptConnection(cfg, "BRONZE").Success?
    ensures launch(BronzeStage.script) == Exited(BronzeExit(cfg, listing, accepts)) ==>
              |Run(launch).launched| >= 2 && Run(launch).launched[1] == SilverStage
  {
    if launch(BronzeStage.script) == Exited(BronzeExit(cfg, listing, accepts)) && |Run(launch).launched| < 2 {
      assert false;
    }
  }

  lemma BronzePasses(cfg: Settings, listing: Option<seq<string>>, accepts: BronzeLoad.Directive -> bool)
    requires Complete(cfg)
    ensures BronzeExit(cfg, listing, accepts) == 0
  {
  }

  lemma SilverPasses(cfg: Settings, read: FileSystem.Reader, rows: Quality.Rows, f: Quality.Flags,
                     statuses: seq<string>, days: seq<Option<int>>)
    requires Complete(cfg)
    requires Readable(read, Silver.SilverFiles)
    requires SomeDelivered(days)
    ensures SilverExit(cfg, read, rows, f, statuses, days) == 0
  {
    Silver.SilverRunBuildsThenCounts(read);
  }

  lemma GoldPasses(cfg: Settings, read: FileSystem.Reader)
    requires Complete(cfg)
    requires Readable(read, Gold.GoldFiles)
    ensures GoldExit(cfg, read) == 0
  {
    Gold.GoldRunBuildsThenCounts(read);
  }

  lemma MartPasses(cfg: Settings, read: FileSystem.Reader)
    requires Complete(cfg)
    requires Readable(read, Mart.MartFiles)
    ensures MartExit(cfg, read) == 0
  {
    Mart.MartRunBuildsThenSamples(read);
  }

  /** The four stages exiting with 0 is all the runner needs. */
  lemma AllPassing(launch: Launcher)
    requires launch(BronzeStage.script) == Exited(0) && launch(SilverStage.script) == Exited(0)
    requires launch(GoldStage.script) == Exited(0) && launch(MartStage.script) == Exited(0)
    ensures Run(launch).completed && Run(launch).launched == Stages
  {
    assert forall i :: 0 <= i < |Stages| ==> launch(Stages[i].script) == Exited(0) by {
      forall i | 0 <= i < |Stages|
        ensures launch(Stages[i].script) == Exited(0)
      {
        if i == 0 {} else if i == 1 {} else if i == 2 {} else {}
      }
    }
  }

  /** With a complete configuration, every SQL file readable and at least one
      delivery time known, every layer script exits with 0, so all four
      stages run and the completion banner is printed. */
  lemma RunCompletes(cfg: Settings, listing: Option<seq<string>>, accepts: BronzeLoad.Directive -> bool,
                     silverRead: FileSystem.Reader, rows: Quality.Rows, f: Quality.Flags,
                     statuses: seq<string>, days: seq<Option<int>>,
                     goldRead: FileSystem.Reader, martRead: FileSystem.Reader, launch: Launcher)
    requires Complete(cfg)
    requires Readable(silverRead, Silver.SilverFiles)
    requires Readable(goldRead, Gold.GoldFiles)
    requires Readable(martRead, Mart.MartFiles)
    requires SomeDelivered(days)
    requires launch(BronzeStage.script) == Exited(BronzeExit(cfg, listing, accepts))
    requires launch(SilverStage.script) == Exited(SilverExit(cfg, silverRead, rows, f, statuses, days))
    requires launch(GoldStage.script) == Exited(GoldExit(cfg, goldRead))
    requires launch(MartStage.script) == Exited(MartExit(cfg, martRead))
    ensures Run(launch).completed && Run(launch).launched == Stages
  {
    BronzePasses(cfg, listing, accepts);
    SilverPasses(cfg, silverRead, rows, f, statuses, days);
    GoldPasses(cfg, goldRead);
    MartPasses(cfg, martRead);
    AllPassing(launch);
  }
}
