/** Gold Transform: build the star schema (three dimensions, then four
    facts) and count the rows of each table. */
module Gold {
  import opened Wrappers
  import opened Text
  import opened Labels
  import opened FileSystem
  import opened Transform

  /** The directory of the Gold scripts. */
  const GoldDir: string := "sql/gold"

  /** The two parts of each Gold file name, in list order. */
  const GoldNames: seq<ScriptName> := [
    ScriptName("01", "dim_date"), ScriptName("02", "dim_customer"),
    ScriptName("03", "dim_product"), ScriptName("04", "fact_orders"),
    ScriptName("05", "fact_order_items"), ScriptName("06", "fact_payments"),
    ScriptName("07", "fact_shipments")
  ]

  /** The file list in run order, `sql/gold/01_dim_date.sql` first. */
  const GoldFiles: seq<string> := ScriptPaths(GoldDir, GoldNames)

  const Dimensions: seq<string> := ["DIM_DATE", "DIM_CUSTOMER", "DIM_PRODUCT"]

  const Facts: seq<string> := ["FACT_ORDERS", "FACT_ORDER_ITEMS", "FACT_PAYMENTS", "FACT_SHIPMENTS"]

  /** The Gold script: every file, then one count per dimension and fact. */
  function GoldRun(read: Reader): Run
  {
    Layer(GoldFiles, Dimensions + Facts, Label, read)
  }

  // Each file name is checked on its own, and the results are collected by
  // position; the solver never sees all the names at once.

  lemma WordDimDate()
    ensures WordFrom("dim_date", 0)
  {
    assert WordFrom("dim_date", 4);
  }

  lemma UpperDimDate()
    ensures |"dim_date"| == |"DIM_DATE"| && UpperFrom("dim_date", "DIM_DATE", 0)
  {
    assert UpperFrom("dim_date", "DIM_DATE", 4);
  }

  lemma CheckDimDate()
    ensures Checked(ScriptName("01", "dim_date"), "DIM_DATE")
  {
    WordDimDate();
    UpperDimDate();
  }

  lemma WordDimCustomer()
    ensures WordFrom("dim_customer", 0)
  {
    assert WordFrom("dim_customer", 8);
    assert WordFrom("dim_customer", 4);
  }

  lemma UpperDimCustomer()
    ensures |"dim_customer"| == |"DIM_CUSTOMER"| && UpperFrom("dim_customer", "DIM_CUSTOMER", 0)
  {
    assert UpperFrom("dim_customer", "DIM_CUSTOMER", 8);
    assert UpperFrom("dim_customer", "DIM_CUSTOMER", 4);
  }

  lemma CheckDimCustomer()
    ensures Checked(ScriptName("02", "dim_customer"), "DIM_CUSTOMER")
  {
    WordDimCustomer();
    UpperDimCustomer();
  }

  lemma WordDimProduct()
    ensures WordFrom("dim_product", 0)
  {
    assert WordFrom("dim_product", 8);
    assert WordFrom("dim_product", 4);
  }

  lemma UpperDimProduct()
    ensures |"dim_product"| == |"DIM_PRODUCT"| && UpperFrom("dim_product", "DIM_PRODUCT", 0)
  {
    assert UpperFrom("dim_product", "DIM_PRODUCT", 8);
    assert UpperFrom("dim_product", "DIM_PRODUCT", 4);
  }

  lemma CheckDimProduct()
    ensures Checked(ScriptName("03", "dim_product"), "DIM_PRODUCT")
  {
    WordDimProduct();
    UpperDimProduct();
  }

  lemma WordFactOrders()
    ensures WordFrom("fact_orders", 0)
  {
    assert WordFrom("fact_orders", 8);
    assert WordFrom("fact_orders", 4);
  }

  lemma UpperFactOrders()
    ensures |"fact_orders"| == |"FACT_ORDERS"| && UpperFrom("fact_orders", "FACT_ORDERS", 0)
  {
    assert UpperFrom("fact_orders", "FACT_ORDERS", 8);
    assert UpperFrom("fact_orders", "FACT_ORDERS", 4);
  }

  lemma CheckFactOrders()
    ensures Checked(ScriptName("04", "fact_orders"), "FACT_ORDERS")
  {
    WordFactOrders();
    UpperFactOrders();
  }

  lemma WordFactOrderItems()
    ensures WordFrom("fact_order_items", 0)
  {
    assert WordFrom("fact_order_items", 12);
    assert WordFrom("fact_order_items", 8);
    assert WordFrom("fact_order_items", 4);
  }

  lemma UpperFactOrderItems()
    ensures |"fact_order_items"| == |"FACT_ORDER_ITEMS"| && UpperFrom("fact_order_items", "FACT_ORDER_ITEMS", 0)
  {
    assert UpperFrom("fact_order_items", "FACT_ORDER_ITEMS", 12);
    assert UpperFrom("fact_order_items", "FACT_ORDER_ITEMS", 8);
    assert UpperFrom("fact_order_items", "FACT_ORDER_ITEMS", 4);
  }

  lemma CheckFactOrderItems()
    ensures Checked(ScriptName("05", "fact_order_items"), "FACT_ORDER_ITEMS")
  {
    WordFactOrderItems();
    UpperFactOrderItems();
  }

  lemma WordFactPayments()
    ensures WordFrom("fact_payments", 0)
  {
    assert WordFrom("fact_payments", 12);
    assert WordFrom("fact_payments", 8);
    assert WordFrom("fact_payments", 4);
  }

  lemma UpperFactPayments()
    ensures |"fact_payments"| == |"FACT_PAYMENTS"| && UpperFrom("fact_payments", "FACT_PAYMENTS", 0)
  {
    assert UpperFrom("fact_payments", "FACT_PAYMENTS", 12);
    assert UpperFrom("fact_payments", "FACT_PAYMENTS", 8);
    assert UpperFrom("fact_payments", "FACT_PAYMENTS", 4);
  }

  lemma CheckFactPayments()
    ensures Checked(ScriptName("06", "fact_payments"), "FACT_PAYMENTS")
  {
    WordFactPayments();
    UpperFactPayments();
  }

  lemma WordFactShipments()
    ensures WordFrom("fact_shipments", 0)
  {
    assert WordFrom("fact_shipments", 12);
    assert WordFrom("fact_shipments", 8);
    assert WordFrom("fact_shipments", 4);
  }

  lemma UpperFactShipments()
    ensures |"fact_shipments"| == |"FACT_SHIPMENTS"| && UpperFrom("fact_shipments", "FACT_SHIPMENTS", 0)
  {
    assert UpperFrom("fact_shipments", "FACT_SHIPMENTS", 12);
    assert UpperFrom("fact_shipments", "FACT_SHIPMENTS", 8);
    assert UpperFrom("fact_shipments", "FACT_SHIPMENTS", 4);
  }

  lemma CheckFactShipments()
    ensures Checked(ScriptName("07", "fact_shipments"), "FACT_SHIPMENTS")
  {
    WordFactShipments();
    UpperFactShipments();
  }

  lemma GoldCheckAt(k: nat)
    requires k < |GoldNames|
    ensures Checked(GoldNames[k], (Dimensions + Facts)[k])
  {
    if k == 0 {
      CheckDimDate();
    } else if k == 1 {
      CheckDimCustomer();
    } else if k == 2 {
      CheckDimProduct();
    } else if k == 3 {
      CheckFactOrders();
    } else if k == 4 {
      CheckFactOrderItems();
    } else if k == 5 {
      CheckFactPayments();
    } else {
      CheckFactShipments();
    }
  }

  lemma GoldNamesChecked()
    ensures |(Dimensions + Facts)| == |GoldNames|
    ensures forall k :: 0 <= k < |GoldNames| ==> Checked(GoldNames[k], (Dimensions + Facts)[k])
  {
    forall k | 0 <= k < |GoldNames|
      ensures Checked(GoldNames[k], (Dimensions + Facts)[k])
    {
      GoldCheckAt(k);
    }
  }

  /** The labels derived from the file list are the dimension tables followed
      by the fact tables; `01_dim_date.sql` gives `DIM_DATE`, keeping the
      inner `_`. */
  lemma GoldLabels()
    ensures LabelAll(GoldFiles) == Some(Dimensions + Facts)
  {
    GoldNamesChecked();
    LabelsOfScripts(GoldDir, GoldNames, Dimensions + Facts);
  }

  /** No table is counted twice. */
  lemma GoldTablesDistinct()
    ensures forall i, j :: 0 <= i < j < |Dimensions + Facts| ==> (Dimensions + Facts)[i] != (Dimensions + Facts)[j]
  {
  }

  /** With every file readable the script finishes: the dimension files are
      built before the fact files, file `i` under the name of table `i`,
      and then each of those tables is counted once, in the same order. */
  lemma GoldRunBuildsThenCounts(read: Reader)
    requires forall i :: 0 <= i < |GoldFiles| ==> read(GoldFiles[i]).Some?
    ensures GoldRun(read).ok
    ensures |GoldRun(read).steps| == 2 * |GoldFiles|
    ensures forall i :: 0 <= i < |GoldFiles| ==>
              GoldRun(read).steps[i] == Build(GoldFiles[i], (Dimensions + Facts)[i], read(GoldFiles[i]).value)
    ensures forall i :: 0 <= i < |GoldFiles| ==>
              GoldRun(read).steps[|GoldFiles| + i] == Count((Dimensions + Facts)[i])
  {
    GoldLabels();
    LayerBuildsThenCounts(GoldFiles, Dimensions + Facts, Dimensions + Facts, Label, read);
  }
}
