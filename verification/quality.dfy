/** The data-quality summary the Silver script prints after its file loop:
    totals of the row counts and flag counts it queries, the referential
    integrity verdict, the quality score and the payment success rate.
    Every count is a query result and so an input here; the two ratios are
    computed over `real`. */
module Quality {
  import opened Wrappers
  import opened Silver

  /** The row count of each table, as `SELECT COUNT(*)` returns it. */
  type Rows = string -> nat

  /** Reference definition: the sum of the row counts of `tables`. */
  function SumRows(tables: seq<string>, rows: Rows): nat
  {
    if |tables| == 0 then 0 else rows(tables[0]) + SumRows(tables[1..], rows)
  }

  lemma {:induction false} SumRowsSnoc(tables: seq<string>, t: string, rows: Rows)
    ensures SumRows(tables + [t], rows) == SumRows(tables, rows) + rows(t)
    decreases |tables|
  {
    if |tables| > 0 {
      assert (tables + [t])[1..] == tables[1..] + [t];
      SumRowsSnoc(tables[1..], t, rows);
    }
  }

  /** The running total over the counted tables, one table at a time. */
  method TotalRecords(tables: seq<string>, rows: Rows) returns (total: nat)
    ensures total == SumRows(tables, rows)
  {
    total := 0;
    var i := 0;
    while i < |tables|
      invariant 0 <= i <= |tables|
      invariant total == SumRows(tables[..i], rows)
    {
      SumRowsSnoc(tables[..i], tables[i], rows);
      assert tables[..i + 1] == tables[..i] + [tables[i]];
      total := total + rows(tables[i]);
      i := i + 1;
    }
    assert tables[..i] == tables;
  }

  /** The total depends only on the counts of the listed tables. */
  lemma {:induction false} SumRowsOnlyListed(tables: seq<string>, rows: Rows, rows': Rows)
    requires forall j :: 0 <= j < |tables| ==> rows(tables[j]) == rows'(tables[j])
    ensures SumRows(tables, rows) == SumRows(tables, rows')
    decreases |tables|
  {
    if |tables| > 0 {
      assert forall j :: 0 <= j < |tables[1..]| ==> rows(tables[1..][j]) == rows'(tables[1..][j]) by {
        forall j | 0 <= j < |tables[1..]|
          ensures rows(tables[1..][j]) == rows'(tables[1..][j])
        {
          assert tables[1..][j] == tables[j + 1];
        }
      }
      SumRowsOnlyListed(tables[1..], rows, rows');
    }
  }

  /** `total_records` is the sum of the six entity-table counts. */
  lemma TotalRecordsOfSilver(rows: Rows)
    ensures SumRows(SilverTables, rows)
            == rows("CUSTOMERS") + rows("PRODUCTS") + rows("ORDERS")
               + rows("ORDER_ITEMS") + rows("PAYMENTS") + rows("SHIPMENTS")
  {
  }

  /** The exchange-rate table's row count does not enter `total_records`. */
  lemma TotalRecordsIgnoresExchangeRates(rows: Rows, n: nat)
    ensures SumRows(SilverTables, rows)
            == SumRows(SilverTables, t => if t == ExchangeRates then n else rows(t))
  {
    ExchangeRatesNotListed();
    SumRowsOnlyListed(SilverTables, rows, t => if t == ExchangeRates then n else rows(t));
  }

  /** The flag counts the Silver script queries, one per quality query. */
  datatype Flags = Flags(
    orphanedOrders: nat,          // ORDERS whose customer is missing
    orphanedItems: nat,           // ORDER_ITEMS whose order or product is missing
    orphanedPayments: nat,        // PAYMENTS whose order is missing
    orphanedShipments: nat,       // SHIPMENTS whose order is missing
    illogicalDeliveryDates: nat,  // SHIPMENTS delivered before they shipped
    missingEmails: nat,           // CUSTOMERS without an email
    invalidPrices: nat,           // PRODUCTS with an invalid price
    invalidQuantities: nat,       // ORDER_ITEMS with an invalid quantity
    missingDeliveryDates: nat)    // SHIPMENTS without a delivery date

  /** `total_orphaned`: the four orphan counts together. */
  function TotalOrphaned(f: Flags): (r: nat)
    ensures r == 0 <==> f.orphanedOrders == 0 && f.orphanedItems == 0
                        && f.orphanedPayments == 0 && f.orphanedShipments == 0
    ensures f.orphanedOrders <= r && f.orphanedItems <= r
    ensures f.orphanedPayments <= r && f.orphanedShipments <= r
  {
    f.orphanedOrders + f.orphanedItems + f.orphanedPayments + f.orphanedShipments
  }

  /** Each orphan counter adds to the orphan total one for one, and the five
      other counters leave it unchanged. */
  lemma OrphansCountEachFlag(f: Flags, n: nat)
    ensures TotalOrphaned(f.(orphanedOrders := f.orphanedOrders + 1)) == TotalOrphaned(f) + 1
    ensures TotalOrphaned(f.(orphanedItems := f.orphanedItems + 1)) == TotalOrphaned(f) + 1
    ensures TotalOrphaned(f.(orphanedPayments := f.orphanedPayments + 1)) == TotalOrphaned(f) + 1
    ensures TotalOrphaned(f.(orphanedShipments := f.orphanedShipments + 1)) == TotalOrphaned(f) + 1
    ensures TotalOrphaned(f.(illogicalDeliveryDates := n)) == TotalOrphaned(f)
    ensures TotalOrphaned(f.(missingEmails := n)) == TotalOrphaned(f)
    ensures TotalOrphaned(f.(invalidPrices := n)) == TotalOrphaned(f)
    ensures TotalOrphaned(f.(invalidQuantities := n)) == TotalOrphaned(f)
    ensures TotalOrphaned(f.(missingDeliveryDates := n)) == TotalOrphaned(f)
  {
  }

  /** The referential-integrity verdict. */
  datatype Status = Pass | Fail(orphaned: nat)

  function IntegrityStatus(f: Flags): (r: Status)
    ensures r == Pass <==> TotalOrphaned(f) == 0
    ensures r.Fail? ==> r.orphaned == TotalOrphaned(f) && r.orphaned > 0
  {
    var n := TotalOrphaned(f);
    if n == 0 then Pass else Fail(n)
  }

  /** `total_issues`: the three field checks, the orphans and the illogical
      delivery dates. Missing delivery dates are reported but not counted. */
  function TotalIssues(f: Flags): (r: nat)
    ensures TotalOrphaned(f) <= r
    ensures r == 0 <==> TotalOrphaned(f) == 0 && f.illogicalDeliveryDates == 0
                        && f.missingEmails == 0 && f.invalidPrices == 0 && f.invalidQuantities == 0
  {
    f.missingEmails + f.invalidPrices + f.invalidQuantities + TotalOrphaned(f) + f.illogicalDeliveryDates
  }

  /** Missing delivery dates never change the issue total. */
  lemma IssuesIgnoreMissingDeliveryDates(f: Flags, n: nat)
    ensures TotalIssues(f.(missingDeliveryDates := n)) == TotalIssues(f)
  {
  }

  /** Each of the other eight counters adds to the total one for one. */
  lemma IssuesCountEachFlag(f: Flags)
    ensures TotalIssues(f.(orphanedOrders := f.orphanedOrders + 1)) == TotalIssues(f) + 1
    ensures TotalIssues(f.(orphanedItems := f.orphanedItems + 1)) == TotalIssues(f) + 1
    ensures TotalIssues(f.(orphanedPayments := f.orphanedPayments + 1)) == TotalIssues(f) + 1
    ensures TotalIssues(f.(orphanedShipments := f.orphanedShipments + 1)) == TotalIssues(f) + 1
    ensures TotalIssues(f.(illogicalDeliveryDates := f.illogicalDeliveryDates + 1)) == TotalIssues(f) + 1
    ensures TotalIssues(f.(missingEmails := f.missingEmails + 1)) == TotalIssues(f) + 1
    ensures TotalIssues(f.(invalidPrices := f.invalidPrices + 1)) == TotalIssues(f) + 1
    ensures TotalIssues(f.(invalidQuantities := f.invalidQuantities + 1)) == TotalIssues(f) + 1
  {
  }

  /** `quality_score`: the share of records without an issue, in percent,
      and 0 when there are no records. It is not clamped. */
  function QualityScore(records: int, issues: int): (r: real)
    ensures records <= 0 ==> r == 0.0
    ensures records > 0 ==> r * records as real == (records - issues) as real * 100.0
    ensures records > 0 ==> (r == 100.0 <==> issues == 0)
    ensures records > 0 ==> (r <= 100.0 <==> issues >= 0)
    ensures records > 0 ==> (r >= 0.0 <==> issues <= records)
  {
    if records > 0 then (records - issues) as real / records as real * 100.0 else 0.0
  }

  lemma QualityScoreExamples()
    ensures QualityScore(100, 5) == 95.0
    ensures QualityScore(10, 20) == -100.0
    ensures QualityScore(0, 3) == 0.0
  {
  }

  /** `success_rate`: the share of payments that did not fail, in percent,
      and 0 when there are no payments. `failed` is the SQL `SUM`, which is
      NULL over no rows; a NULL with payments present would make the
      subtraction raise, and that case gives `None`. */
  function SuccessRate(total: int, failed: Option<int>): (r: Option<real>)
    ensures r.None? <==> total > 0 && failed.None?
    ensures total <= 0 ==> r == Some(0.0)
    ensures total > 0 && failed.Some? ==>
              r.value * total as real == (total - failed.value) as real * 100.0
    ensures total > 0 && failed.Some? && 0 <= failed.value <= total ==> 0.0 <= r.value <= 100.0
  {
    if total > 0 then
      match failed
      case Some(n) => Some((total - n) as real / total as real * 100.0)
      case None => None
    else Some(0.0)
  }

  lemma SuccessRateExamples()
    ensures SuccessRate(10, Some(2)) == Some(80.0)
    ensures SuccessRate(0, None) == Some(0.0)
  {
  }

  /** The number of payments whose status is FAILED. */
  function CountFailed(statuses: seq<string>): (r: nat)
    ensures r <= |statuses|
  {
    if |statuses| == 0 then 0
    else (if statuses[0] == "FAILED" then 1 else 0) + CountFailed(statuses[1..])
  }

  /** The count over two runs of rows is the sum of their counts. */
  lemma {:induction false} CountFailedConcat(a: seq<string>, b: seq<string>)
    ensures CountFailed(a + b) == CountFailed(a) + CountFailed(b)
    decreases |a|
  {
    if |a| > 0 {
      assert (a + b)[0] == a[0] && (a + b)[1..] == a[1..] + b;
      CountFailedConcat(a[1..], b);
    } else {
      assert a + b == b;
    }
  }

  /** A single row counts 1 exactly when its status is FAILED. */
  lemma CountFailedOne(s: string)
    ensures CountFailed([s]) == if s == "FAILED" then 1 else 0
  {
  }

  /** The payment query: `COUNT(*)`, and the `SUM` of the failure indicator,
      which is NULL when there are no rows. */
  function PaymentQuery(statuses: seq<string>): (r: (nat, Option<nat>))
    ensures r.0 == |statuses|
    ensures r.1.None? <==> |statuses| == 0
    ensures r.1.Some? ==> r.1.value == CountFailed(statuses)
  {
    (|statuses|, if |statuses| == 0 then None else Some(CountFailed(statuses)))
  }

  /** Whatever the payment rows, the rate is defined and lies in [0, 100]:
      the NULL sum only occurs together with the zero-payment guard. */
  lemma SuccessRateOfPayments(statuses: seq<string>)
    ensures SuccessRate(PaymentQuery(statuses).0, PaymentQuery(statuses).1).Some?
    ensures 0.0 <= SuccessRate(PaymentQuery(statuses).0, PaymentQuery(statuses).1).value <= 100.0
  {
  }

  /** What the summary reports. */
  datatype Summary = Summary(
    totalRecords: nat, status: Status, totalIssues: nat,
    qualityScore: real, successRate: Option<real>)

  /** The whole summary from the query results. */
  function Summarize(rows: Rows, f: Flags, statuses: seq<string>): (r: Summary)
    ensures r.totalRecords == SumRows(SilverTables, rows)
    ensures r.status == Pass <==> TotalOrphaned(f) == 0
    ensures r.status == IntegrityStatus(f)
    ensures r.totalIssues == TotalIssues(f)
    ensures r.qualityScore == QualityScore(r.totalRecords, r.totalIssues)
    ensures r.successRate.Some? && 0.0 <= r.successRate.value <= 100.0
    ensures r.successRate == SuccessRate(|statuses|, if |statuses| == 0 then None else Some(CountFailed(statuses)))
  {
    var records := SumRows(SilverTables, rows);
    var issues := TotalIssues(f);
    var q := PaymentQuery(statuses);
    var rate := SuccessRate(q.0, q.1);
    SuccessRateOfPayments(statuses);
    Summary(records, IntegrityStatus(f), issues, QualityScore(records, issues), rate)
  }
}
