/** Mart Transform: create the business views in order, then query the row
    counts of three sample views. The full view list is only printed. */
module Mart {
  import opened Wrappers
  import opened Text
  import opened Labels
  import opened FileSystem
  import opened Transform

  /** The directory of the Mart scripts. */
  const MartDir: string := "sql/mart"

  /** The two parts of each Mart file name, in list order. */
  const MartNames: seq<ScriptName> := [
    ScriptName("01", "daily_revenue"), ScriptName("02", "monthly_revenue"),
    ScriptName("03", "customer_lifetime_value"), ScriptName("04", "product_performance"),
    ScriptName("05", "category_performance"), ScriptName("06", "payment_analysis"),
    ScriptName("07", "shipment_performance")
  ]

  /** The file list in run order, `sql/mart/01_daily_revenue.sql` first. */
  const MartFiles: seq<string> := ScriptPaths(MartDir, MartNames)

  /** The views the script lists as created. */
  const Views: seq<string> := [
    "DAILY_REVENUE", "MONTHLY_REVENUE", "CUSTOMER_LIFETIME_VALUE", "PRODUCT_PERFORMANCE",
    "CATEGORY_PERFORMANCE", "PAYMENT_ANALYSIS", "SHIPMENT_PERFORMANCE"
  ]

  /** The views whose rows are counted as sample metrics, in query order. */
  const Samples: seq<string> := ["DAILY_REVENUE", "CUSTOMER_LIFETIME_VALUE", "PRODUCT_PERFORMANCE"]

  /** The Mart script: every file, then the three sample counts. */
  function MartRun(read: Reader): Run
  {
    Layer(MartFiles, Samples, Label, read)
  }

  // Each file name is checked on its own, and the results are collected by
  // position; the solver never sees all the names at once.

  lemma WordDailyRevenue()
    ensures WordFrom("daily_revenue", 0)
  {
    assert WordFrom("daily_revenue", 12);
    assert WordFrom("daily_revenue", 8);
    assert WordFrom("daily_revenue", 4);
  }

  lemma UpperDailyRevenue()
    ensures |"daily_revenue"| == |"DAILY_REVENUE"| && UpperFrom("daily_revenue", "DAILY_REVENUE", 0)
  {
    assert UpperFrom("daily_revenue", "DAILY_REVENUE", 12);
    assert UpperFrom("daily_revenue", "DAILY_REVENUE", 8);
    assert UpperFrom("daily_revenue", "DAILY_REVENUE", 4);
  }

  lemma CheckDailyRevenue()
    ensures Checked(ScriptName("01", "daily_revenue"), "DAILY_REVENUE")
  {
    WordDailyRevenue();
    UpperDailyRevenue();
  }

  lemma WordMonthlyRevenue()
    ensures WordFrom("monthly_revenue", 0)
  {
    assert WordFrom("monthly_revenue", 12);
    assert WordFrom("monthly_revenue", 8);
    assert WordFrom("monthly_revenue", 4);
  }

  lemma UpperMonthlyRevenue()
    ensures |"monthly_revenue"| == |"MONTHLY_REVENUE"| && UpperFrom("monthly_revenue", "MONTHLY_REVENUE", 0)
  {
    assert UpperFrom("monthly_revenue", "MONTHLY_REVENUE", 12);
    assert UpperFrom("monthly_revenue", "MONTHLY_REVENUE", 8);
    assert UpperFrom("monthly_revenue", "MONTHLY_REVENUE", 4);
  }

  lemma CheckMonthlyRevenue()
    ensures Checked(ScriptName("02", "monthly_revenue"), "MONTHLY_REVENUE")
  {
    WordMonthlyRevenue();
    UpperMonthlyRevenue();
  }

  lemma WordCustomerLifetimeValue()
    ensures WordFrom("customer_lifetime_value", 0)
  {
    assert WordFrom("customer_lifetime_value", 20);
    assert WordFrom("customer_lifetime_value", 16);
    assert WordFrom("customer_lifetime_value", 12);
    assert WordFrom("customer_lifetime_value", 8);
    assert WordFrom("customer_lifetime_value", 4);
  }

  lemma UpperCustomerLifetimeValueTail()
    ensures |"customer_lifetime_value"| == |"CUSTOMER_LIFETIME_VALUE"| && UpperFrom("customer_lifetime_value", "CUSTOMER_LIFETIME_VALUE", 12)
  {
    assert UpperFrom("customer_lifetime_value", "CUSTOMER_LIFETIME_VALUE", 20);
    assert UpperFrom("customer_lifetime_value", "CUSTOMER_LIFETIME_VALUE", 16);
  }

  lemma UpperCustomerLifetimeValue()
    ensures |"customer_lifetime_value"| == |"CUSTOMER_LIFETIME_VALUE"| && UpperFrom("customer_lifetime_value", "CUSTOMER_LIFETIME_VALUE", 0)
  {
    UpperCustomerLifetimeValueTail();
    assert UpperFrom("customer_lifetime_value", "CUSTOMER_LIFETIME_VALUE", 12);
    assert UpperFrom("customer_lifetime_value", "CUSTOMER_LIFETIME_VALUE", 8);
    assert UpperFrom("customer_lifetime_value", "CUSTOMER_LIFETIME_VALUE", 4);
  }

  lemma CheckCustomerLifetimeValue()
    ensures Checked(ScriptName("03", "customer_lifetime_value"), "CUSTOMER_LIFETIME_VALUE")
  {
    WordCustomerLifetimeValue();
    UpperCustomerLifetimeValue();
  }

  lemma WordProductPerformance()
    ensures WordFrom("product_performance", 0)
  {
    assert WordFrom("product_performance", 16);
    assert WordFrom("product_performance", 12);
    assert WordFrom("product_performance", 8);
    assert WordFrom("product_performance", 4);
  }

  lemma UpperProductPerformance()
    ensures |"product_performance"| == |"PRODUCT_PERFORMANCE"| && UpperFrom("product_performance", "PRODUCT_PERFORMANCE", 0)
  {
    assert UpperFrom("product_performance", "PRODUCT_PERFORMANCE", 16);
    assert UpperFrom("product_performance", "PRODUCT_PERFORMANCE", 12);
    assert UpperFrom("product_performance", "PRODUCT_PERFORMANCE", 8);
    assert UpperFrom("product_performance", "PRODUCT_PERFORMANCE", 4);
  }

  lemma CheckProductPerformance()
    ensures Checked(ScriptName("04", "product_performance"), "PRODUCT_PERFORMANCE")
  {
    WordProductPerformance();
    UpperProductPerformance();
  }

  lemma WordCategoryPerformance()
    ensures WordFrom("category_performance", 0)
  {
    assert WordFrom("category_performance", 16);
    assert WordFrom("category_performance", 12);
    assert WordFrom("category_performance", 8);
    assert WordFrom("category_performance", 4);
  }

  lemma UpperCategoryPerformance()
    ensures |"category_performance"| == |"CATEGORY_PERFORMANCE"| && UpperFrom("category_performance", "CATEGORY_PERFORMANCE", 0)
  {
    assert UpperFrom("category_performance", "CATEGORY_PERFORMANCE", 16);
    assert UpperFrom("category_performance", "CATEGORY_PERFORMANCE", 12);
    assert UpperFrom("category_performance", "CATEGORY_PERFORMANCE", 8);
    assert UpperFrom("category_performance", "CATEGORY_PERFORMANCE", 4);
  }

  lemma CheckCategoryPerformance()
    ensures Checked(ScriptName("05", "category_performance"), "CATEGORY_PERFORMANCE")
  {
    WordCategoryPerformance();
    UpperCategoryPerformance();
  }

  lemma WordPaymentAnalysis()
    ensures WordFrom("payment_analysis", 0)
  {
    assert WordFrom("payment_analysis", 12);
    assert WordFrom("payment_analysis", 8);
    assert WordFrom("payment_analysis", 4);
  }

  lemma UpperPaymentAnalysis()
    ensures |"payment_analysis"| == |"PAYMENT_ANALYSIS"| && UpperFrom("payment_analysis", "PAYMENT_ANALYSIS", 0)
  {
    assert UpperFrom("payment_analysis", "PAYMENT_ANALYSIS", 12);
    assert UpperFrom("payment_analysis", "PAYMENT_ANALYSIS", 8);
    assert UpperFrom("payment_analysis", "PAYMENT_ANALYSIS", 4);
  }

  lemma CheckPaymentAnalysis()
    ensures Checked(ScriptName("06", "payment_analysis"), "PAYMENT_ANALYSIS")
  {
    WordPaymentAnalysis();
    UpperPaymentAnalysis();
  }

  lemma WordShipmentPerformance()
    ensures WordFrom("shipment_performance", 0)
  {
    assert WordFrom("shipment_performance", 16);
    assert WordFrom("shipment_performance", 12);
    assert WordFrom("shipment_performance", 8);
    assert WordFrom("shipment_performance", 4);
  }

  lemma UpperShipmentPerformance()
    ensures |"shipment_performance"| == |"SHIPMENT_PERFORMANCE"| && UpperFrom("shipment_performance", "SHIPMENT_PERFORMANCE", 0)
  {
    assert UpperFrom("shipment_performance", "SHIPMENT_PERFORMANCE", 16);
    assert UpperFrom("shipment_performance", "SHIPMENT_PERFORMANCE", 12);
    assert UpperFrom("shipment_performance", "SHIPMENT_PERFORMANCE", 8);
    assert UpperFrom("shipment_performance", "SHIPMENT_PERFORMANCE", 4);
  }

  lemma CheckShipmentPerformance()
    ensures Checked(ScriptName("07", "shipment_performance"), "SHIPMENT_PERFORMANCE")
  {
    WordShipmentPerformance();
    UpperShipmentPerformance();
  }

  lemma MartCheckAt(k: nat)
    requires k < |MartNames|
    ensures Checked(MartNames[k], Views[k])
  {
    if k == 0 {
      CheckDailyRevenue();
    } else if k == 1 {
      CheckMonthlyRevenue();
    } else if k == 2 {
      CheckCustomerLifetimeValue();
    } else if k == 3 {
      CheckProductPerformance();
    } else if k == 4 {
      CheckCategoryPerformance();
    } else if k == 5 {
      CheckPaymentAnalysis();
    } else {
      CheckShipmentPerformance();
    }
  }

  lemma MartNamesChecked()
    ensures |Views| == |MartNames|
    ensures forall k :: 0 <= k < |MartNames| ==> Checked(MartNames[k], Views[k])
  {
    forall k | 0 <= k < |MartNames|
      ensures Checked(MartNames[k], Views[k])
    {
      MartCheckAt(k);
    }
  }

  /** The labels derived from the file list are exactly the listed views,
      in order; `03_customer_lifetime_value.sql` gives
      `CUSTOMER_LIFETIME_VALUE`. */
  lemma MartLabels()
    ensures LabelAll(MartFiles) == Some(Views)
  {
    MartNamesChecked();
    LabelsOfScripts(MartDir, MartNames, Views);
  }

  /** The sample metrics are the first, third and fourth views. */
  lemma SamplesAreViews()
    ensures Samples == [Views[0], Views[2], Views[3]]
  {
  }

  /** With every file readable the script finishes: file `i` is built under
      the name of view `i`, and then the sample views are counted in the
      order DAILY_REVENUE, CUSTOMER_LIFETIME_VALUE, PRODUCT_PERFORMANCE. */
  lemma MartRunBuildsThenSamples(read: Reader)
    requires forall i :: 0 <= i < |MartFiles| ==> read(MartFiles[i]).Some?
    ensures MartRun(read).ok
    ensures |MartRun(read).steps| == |MartFiles| + |Samples|
    ensures forall i :: 0 <= i < |MartFiles| ==>
              MartRun(read).steps[i] == Build(MartFiles[i], Views[i], read(MartFiles[i]).value)
    ensures forall j :: 0 <= j < |Samples| ==> MartRun(read).steps[|MartFiles| + j] == Count(Samples[j])
  {
    MartLabels();
    LayerBuildsThenCounts(MartFiles, Views, Samples, Label, read);
  }
}
