/** The whole Silver script: connect, run the seven files and count the
    entity tables (`Silver`), print the quality summary (`Quality`), then the
    average delivery time. Every failure inside the `try` is printed and
    re-raised, so Python exits with 1. */
module SilverScript {
  import opened Wrappers
  import opened Config
  import opened FileSystem
  import opened Transform
  import opened Silver
  import opened Quality
  import opened Labels

  /** The `DELIVERY_DAYS` values that are not NULL, in row order. */
  function KnownDays(days: seq<Option<int>>): (r: seq<int>)
    ensures |r| <= |days|
    ensures r == [] <==> forall i :: 0 <= i < |days| ==> days[i].None?
  {
    if |days| == 0 then []
    else
      var rest := KnownDays(days[1..]);
      assert (forall i :: 0 <= i < |days| ==> days[i].None?)
             <==> days[0].None? && forall i :: 0 <= i < |days[1..]| ==> days[1..][i].None? by {
        if days[0].None? && forall i :: 0 <= i < |days[1..]| ==> days[1..][i].None? {
          forall i | 0 <= i < |days|
            ensures days[i].None?
          {
            if i > 0 { assert days[i] == days[1..][i - 1]; }
          }
        }
      }
      match days[0]
      case Some(d) => [d] + rest
      case None => rest
  }

  /** The known days are exactly the values of the non-NULL rows. */
  lemma {:induction false} KnownDaysMembers(days: seq<Option<int>>)
    ensures forall x :: x in KnownDays(days) <==> Some(x) in days
    decreases |days|
  {
    if |days| > 0 {
      KnownDaysMembers(days[1..]);
      assert days == [days[0]] + days[1..];
    }
  }

  function Sum(xs: seq<int>): int
  {
    if |xs| == 0 then 0 else xs[0] + Sum(xs[1..])
  }

  /** `SELECT AVG(DELIVERY_DAYS) ... WHERE DELIVERY_DAYS IS NOT NULL`: NULL
      when no shipment has a delivery time. */
  function AvgDelivery(days: seq<Option<int>>): (r: Option<real>)
    ensures r.None? <==> forall i :: 0 <= i < |days| ==> days[i].None?
    ensures r.Some? ==> r.value * |KnownDays(days)| as real == Sum(KnownDays(days)) as real
  {
    var known := KnownDays(days);
    if |known| == 0 then None else Some(Sum(known) as real / |known| as real)
  }

  /** What the script leaves behind: the file loop and counts, the summary if
      it got that far, and the exit code. */
  datatype SilverOutcome = SilverOutcome(run: Run, summary: Option<Summary>, exitCode: int)

  /** The script. Connecting, the file loop and the row counts are the
      common transform shape over the Silver lists; the flag counts, payment
      statuses and delivery times are what the warehouse's queries return.
      Formatting a NULL average raises `TypeError` inside the `try`, so a
      table without any delivery time makes the script fail after its
      summary. */
  function RunSilver(cfg: Settings, read: Reader, rows: Rows, f: Flags, statuses: seq<string>,
                days: seq<Option<int>>): (r: SilverOutcome)
    ensures r.run == Script(cfg, "SILVER", SilverFiles, SilverTables, Label, read).run
    ensures r.summary.Some? <==> Script(cfg, "SILVER", SilverFiles, SilverTables, Label, read).exitCode == 0
    ensures r.summary.Some? ==> r.summary.value == Summarize(rows, f, statuses)
    ensures r.exitCode == 0 <==> r.summary.Some? && AvgDelivery(days).Some?
    ensures r.exitCode == 0 || r.exitCode == 1
  {
    var s := Script(cfg, "SILVER", SilverFiles, SilverTables, Label, read);
    if s.exitCode != 0 then SilverOutcome(s.run, None, 1)
    else
      var avg := AvgDelivery(days);
      SilverOutcome(s.run, Some(Summarize(rows, f, statuses)), if avg.Some? then 0 else 1)
  }

  /** With every file in place and readable, a Silver run whose shipments
      carry no delivery time still fails, after building every table and
      printing the whole summary. */
  lemma NoDeliveryTimesFails(cfg: Settings, read: Reader, rows: Rows, f: Flags, statuses: seq<string>,
                             days: seq<Option<int>>)
    requires ScriptConnection(cfg, "SILVER").Success?
    requires forall i :: 0 <= i < |SilverFiles| ==> read(SilverFiles[i]).Some?
    requires forall i :: 0 <= i < |days| ==> days[i].None?
    ensures RunSilver(cfg, read, rows, f, statuses, days).summary.Some?
    ensures RunSilver(cfg, read, rows, f, statuses, days).exitCode == 1
  {
    SilverRunBuildsThenCounts(read);
    assert SilverRun(read).ok;
  }
}
