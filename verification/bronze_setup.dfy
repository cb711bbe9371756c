/** Bronze Setup: connect, run the infrastructure script, then create the six
    raw tables, one SQL file each. Every file goes through the statement
    splitter of `SqlScript`. */
module BronzeSetup {
  import opened Wrappers
  import opened Text
  import opened Config
  import opened SqlScript
  import opened FileSystem
  import opened FailFast

  /** A file to run and the description announced before it. */
  datatype Task = Task(file: string, description: string)

  const Infrastructure: Task := Task("00_setup_infrastructure.sql", "Infrastructure")

  /** The table files, in creation order. */
  const TableTasks: seq<Task> := [
    Task("01_customers.sql", "CUSTOMERS"),
    Task("02_products.sql", "PRODUCTS"),
    Task("03_orders.sql", "ORDERS"),
    Task("04_order_items.sql", "ORDER_ITEMS"),
    Task("05_payments.sql", "PAYMENTS"),
    Task("06_shipments.sql", "SHIPMENTS")
  ]

  /** Everything the script runs, in order. */
  const SetupTasks: seq<Task> := [Infrastructure] + TableTasks

  /** Whether the warehouse accepts a statement; `cursor.execute` raises on
      one it rejects. */
  type Accepts = string -> bool

  /** Every statement of `xs` is accepted. */
  predicate AllAccepted(xs: seq<string>, accepts: Accepts)
  {
    forall k :: 0 <= k < |xs| ==> accepts(xs[k])
  }

  /** One file run: its description and the statements it executed, up to
      and including the first one the warehouse rejected. */
  datatype FileRun = FileRun(description: string, executed: seq<string>)

  /** `execute_sql_file` for task `t`: "Creating ..." is announced, then the
      file is read and its statements are sent until the first one the
      warehouse rejects; an unreadable file sends nothing. */
  function RunOf(t: Task, read: Reader, accepts: Accepts): (r: FileRun)
    ensures r.description == t.description
    ensures read(t.file).None? ==> r.executed == []
    ensures read(t.file).Some? ==>
              var all := Statements(read(t.file).value);
              |r.executed| <= |all| && r.executed == all[..|r.executed|]
              && (r.executed == all || (|r.executed| > 0 && !accepts(r.executed[|r.executed| - 1])))
              && forall k :: 0 <= k < |r.executed| - 1 ==> accepts(r.executed[k])
  {
    match read(t.file)
    case None => FileRun(t.description, [])
    case Some(sql) => FileRun(t.description, RunUntil(Statements(sql), accepts).0)
  }

  /** Task `t` runs to its end: the file is read and every statement of it
      is accepted. */
  predicate Clean(t: Task, read: Reader, accepts: Accepts)
  {
    read(t.file).Some? && AllAccepted(Statements(read(t.file).value), accepts)
  }

  /** `Clean` as a function value, for the fail-fast runner. */
  function CleanOf(read: Reader, accepts: Accepts): (ok: Task -> bool)
    ensures forall t :: ok(t) == Clean(t, read, accepts)
  {
    t => Clean(t, read, accepts)
  }

  /** A clean task sends every statement of its file. */
  lemma CleanSendsAll(t: Task, read: Reader, accepts: Accepts)
    requires Clean(t, read, accepts)
    ensures RunOf(t, read, accepts) == FileRun(t.description, Statements(read(t.file).value))
  {
    RunUntilAll(Statements(read(t.file).value), accepts);
  }

  /** The file loop: run each task in order, stopping after the first one
      whose file cannot be read or has a rejected statement. `ok` says the
      loop finished. */
  function RunTasks(tasks: seq<Task>, read: Reader, accepts: Accepts): (r: (seq<FileRun>, bool))
    ensures |r.0| <= |tasks|
    ensures forall i :: 0 <= i < |r.0| ==> r.0[i] == RunOf(tasks[i], read, accepts)
    ensures forall i :: 0 <= i < |r.0| - 1 ==> Clean(tasks[i], read, accepts)
    ensures r.1 <==> |r.0| == |tasks| && forall i :: 0 <= i < |tasks| ==> Clean(tasks[i], read, accepts)
    ensures !r.1 ==> |r.0| > 0 && !Clean(tasks[|r.0| - 1], read, accepts)
  {
    var (tried, ok) := RunUntil(tasks, CleanOf(read, accepts));
    var runs := seq(|tried|, i requires 0 <= i < |tried| => RunOf(tried[i], read, accepts));
    assert forall i :: 0 <= i < |tried| ==> tried[i] == tasks[i];
    (runs, ok)
  }

  /** All statements sent to the warehouse, in order. */
  function Executed(runs: seq<FileRun>): seq<string>
  {
    if |runs| == 0 then [] else runs[0].executed + Executed(runs[1..])
  }

  /** Every statement the script executes, from whichever file, is a
      non-empty stripped piece of text holding no `;`. */
  lemma {:induction false} ExecutedWellFormed(runs: seq<FileRun>, tasks: seq<Task>, read: Reader, accepts: Accepts)
    requires |runs| <= |tasks|
    requires forall i :: 0 <= i < |runs| ==> runs[i] == RunOf(tasks[i], read, accepts)
    ensures forall k :: 0 <= k < |Executed(runs)| ==>
              Executed(runs)[k] != "" && IsStripped(Executed(runs)[k]) && Delimiter !in Executed(runs)[k]
    decreases |runs|
  {
    if |runs| > 0 {
      assert forall i :: 0 <= i < |runs[1..]| ==> runs[1..][i] == RunOf(tasks[1..][i], read, accepts) by {
        forall i | 0 <= i < |runs[1..]|
          ensures runs[1..][i] == RunOf(tasks[1..][i], read, accepts)
        {
          assert runs[1..][i] == runs[i + 1] && tasks[1..][i] == tasks[i + 1];
        }
      }
      ExecutedWellFormed(runs[1..], tasks[1..], read, accepts);
      var first := runs[0].executed;
      assert forall k :: 0 <= k < |first| ==> first[k] == Statements(read(tasks[0].file).value)[k];
      var rest := Executed(runs[1..]);
      assert Executed(runs) == first + rest;
      forall k | 0 <= k < |first + rest|
        ensures (first + rest)[k] != "" && IsStripped((first + rest)[k]) && Delimiter !in (first + rest)[k]
      {
        if k >= |first| {
          assert (first + rest)[k] == rest[k - |first|];
        }
      }
    }
  }

  /** The result of `main`. */
  datatype Outcome = Outcome(runs: seq<FileRun>, exitCode: int)

  /** `main`: a missing `user`, `password` or `account` raises from the
      connection call before any file runs; an unreadable file or a
      rejected statement is reported, re-raised and ends the run. Either
      way Python exits with 1. */
  function Setup(cfg: Settings, read: Reader, accepts: Accepts): (r: Outcome)
    ensures SetupConnection(cfg).Failure? ==> r == Outcome([], 1)
    ensures |r.runs| <= |SetupTasks|
    ensures forall i :: 0 <= i < |r.runs| ==> r.runs[i] == RunOf(SetupTasks[i], read, accepts)
    ensures forall i :: 0 <= i < |r.runs| - 1 ==> Clean(SetupTasks[i], read, accepts)
    ensures r.exitCode == 0 <==> SetupConnection(cfg).Success? && |r.runs| == |SetupTasks| && AllClean(read, accepts)
    ensures r.exitCode == 1 && SetupConnection(cfg).Success? ==>
              |r.runs| > 0 && !Clean(SetupTasks[|r.runs| - 1], read, accepts)
    ensures r.exitCode == 0 || r.exitCode == 1
  {
    match SetupConnection(cfg)
    case Failure(_) => Outcome([], 1)
    case Success(_) =>
      var (runs, ok) := RunTasks(SetupTasks, read, accepts);
      assert ok <==> |runs| == |SetupTasks| && AllClean(read, accepts);
      Outcome(runs, if ok then 0 else 1)
  }

  /** Every setup file is readable and every statement in it is accepted. */
  predicate AllClean(read: Reader, accepts: Accepts)
  {
    forall i :: 0 <= i < |SetupTasks| ==> Clean(SetupTasks[i], read, accepts)
  }

  /** The infrastructure file runs before any table file, and the table
      files run in the order CUSTOMERS, PRODUCTS, ORDERS, ORDER_ITEMS,
      PAYMENTS, SHIPMENTS. */
  lemma SetupOrder(cfg: Settings, read: Reader, accepts: Accepts)
    ensures forall i :: 0 <= i < |Setup(cfg, read, accepts).runs| ==>
              Setup(cfg, read, accepts).runs[i].description == SetupTasks[i].description
    ensures |Setup(cfg, read, accepts).runs| > 0 ==> Setup(cfg, read, accepts).runs[0].description == "Infrastructure"
    ensures SetupTasks[1..] == TableTasks
    ensures forall i :: 0 <= i < |TableTasks| ==>
              TableTasks[i].description
              == ["CUSTOMERS", "PRODUCTS", "ORDERS", "ORDER_ITEMS", "PAYMENTS", "SHIPMENTS"][i]
  {
    var runs := Setup(cfg, read, accepts).runs;
    forall i | 0 <= i < |runs|
      ensures runs[i].description == SetupTasks[i].description
    {
      assert runs[i] == RunOf(SetupTasks[i], read, accepts);
    }
    assert SetupTasks[0] == Infrastructure;
    TableOrder();
  }

  /** The fixed task list: the infrastructure file, then the table files
      under their table names. */
  lemma TableOrder()
    ensures SetupTasks[1..] == TableTasks
    ensures forall i :: 0 <= i < |TableTasks| ==>
              TableTasks[i].description
              == ["CUSTOMERS", "PRODUCTS", "ORDERS", "ORDER_ITEMS", "PAYMENTS", "SHIPMENTS"][i]
  {
    assert SetupTasks == [Infrastructure] + TableTasks;
  }

  /** With the three required keys present, every file readable and every
      statement accepted, the script exits 0 having run all seven files in
      order, each executing all the statements of its own text; the
      infrastructure statements are the first ones sent. */
  lemma SetupCompletes(cfg: Settings, read: Reader, accepts: Accepts)
    requires "user" in cfg && "password" in cfg && "account" in cfg
    requires AllClean(read, accepts)
    ensures Setup(cfg, read, accepts).exitCode == 0
    ensures |Setup(cfg, read, accepts).runs| == |SetupTasks|
    ensures forall i :: 0 <= i < |SetupTasks| ==>
              Setup(cfg, read, accepts).runs[i]
              == FileRun(SetupTasks[i].description, Statements(read(SetupTasks[i].file).value))
    ensures Executed(Setup(cfg, read, accepts).runs)
            == Statements(read(Infrastructure.file).value) + Executed(Setup(cfg, read, accepts).runs[1..])
  {
    assert SetupConnection(cfg).Success?;
    var runs := Setup(cfg, read, accepts).runs;
    assert |runs| == |SetupTasks|;
    forall i | 0 <= i < |SetupTasks|
      ensures runs[i] == FileRun(SetupTasks[i].description, Statements(read(SetupTasks[i].file).value))
    {
      assert Clean(SetupTasks[i], read, accepts);
      CleanSendsAll(SetupTasks[i], read, accepts);
    }
    assert SetupTasks[0] == Infrastructure;
  }

  /** The first file that is unreadable or has a rejected statement is the
      last one run, and the script exits 1. */
  lemma {:induction false} FirstUncleanStops(cfg: Settings, read: Reader, accepts: Accepts, k: nat)
    requires "user" in cfg && "password" in cfg && "account" in cfg
    requires k < |SetupTasks| && !Clean(SetupTasks[k], read, accepts)
    requires forall i :: 0 <= i < k ==> Clean(SetupTasks[i], read, accepts)
    ensures Setup(cfg, read, accepts).exitCode == 1
    ensures |Setup(cfg, read, accepts).runs| == k + 1
  {
    var r := Setup(cfg, read, accepts);
    assert !AllClean(read, accepts);
    if |r.runs| > k + 1 {
      assert k < |r.runs| - 1;
    }
  }

  /** A statement the warehouse rejects ends the setup with exit code 1:
      the statements of its file after it are not sent, and no later file
      runs. */
  lemma RejectionStopsSetup(cfg: Settings, read: Reader, accepts: Accepts, k: nat, j: nat)
    requires "user" in cfg && "password" in cfg && "account" in cfg
    requires k < |SetupTasks| && forall i :: 0 <= i < k ==> Clean(SetupTasks[i], read, accepts)
    requires read(SetupTasks[k].file).Some?
    requires j < |Statements(read(SetupTasks[k].file).value)|
    requires !accepts(Statements(read(SetupTasks[k].file).value)[j])
    requires forall m :: 0 <= m < j ==> accepts(Statements(read(SetupTasks[k].file).value)[m])
    ensures Setup(cfg, read, accepts).exitCode == 1
    ensures |Setup(cfg, read, accepts).runs| == k + 1
    ensures Setup(cfg, read, accepts).runs[k].executed == Statements(read(SetupTasks[k].file).value)[..j + 1]
  {
    RunUntilFirstFailure(Statements(read(SetupTasks[k].file).value), accepts, j);
    FirstUncleanStops(cfg, read, accepts, k);
  }

  /** A file that cannot be opened sends nothing and ends the setup with
      exit code 1; no later file runs. */
  lemma UnreadableStopsSetup(cfg: Settings, read: Reader, accepts: Accepts, k: nat)
    requires "user" in cfg && "password" in cfg && "account" in cfg
    requires k < |SetupTasks| && forall i :: 0 <= i < k ==> Clean(SetupTasks[i], read, accepts)
    requires read(SetupTasks[k].file).None?
    ensures Setup(cfg, read, accepts).exitCode == 1
    ensures |Setup(cfg, read, accepts).runs| == k + 1
    ensures Setup(cfg, read, accepts).runs[k].executed == []
  {
    FirstUncleanStops(cfg, read, accepts, k);
  }

  /** The statements executed by the whole script are all well formed. */
  lemma SetupStatementsWellFormed(cfg: Settings, read: Reader, accepts: Accepts)
    ensures forall k :: 0 <= k < |Executed(Setup(cfg, read, accepts).runs)| ==>
              Executed(Setup(cfg, read, accepts).runs)[k] != ""
              && IsStripped(Executed(Setup(cfg, read, accepts).runs)[k])
              && Delimiter !in Executed(Setup(cfg, read, accepts).runs)[k]
  {
    if SetupConnection(cfg).Success? {
      ExecutedWellFormed(Setup(cfg, read, accepts).runs, SetupTasks, read, accepts);
    }
  }
}
