/** Silver Transform: clean each Bronze table into Silver (plus the
    exchange-rate table), then count the rows of the six entity tables. */
module Silver {
  import opened Wrappers
  import opened Text
  import opened Labels
  import opened FileSystem
  import opened Transform
  import opened TableNames

  /** The directory of the Silver scripts. */
  const SilverDir: string := "sql/silver"

  /** The two parts of each Silver file name, in list order. */
  const SilverNames: seq<ScriptName> := [
    ScriptName("01", "customers"), ScriptName("02", "products"),
    ScriptName("03", "orders"), ScriptName("04", "order_items"),
    ScriptName("05", "payments"), ScriptName("06", "shipments"),
    ScriptName("07", "exchange_rates")
  ]

  /** The file list in run order, `sql/silver/01_customers.sql` first. */
  const SilverFiles: seq<string> := ScriptPaths(SilverDir, SilverNames)

  /** The tables counted after the file loop; EXCHANGE_RATES is not among them. */
  const SilverTables: seq<string> := ["CUSTOMERS", "PRODUCTS", "ORDERS", "ORDER_ITEMS", "PAYMENTS", "SHIPMENTS"]

  /** The label of the seventh file. */
  const ExchangeRates: string := "EXCHANGE_RATES"

  /** The table-count part of the Silver script: every file, then one count
      per entity table. The quality queries that follow are in `Quality`. */
  function SilverRun(read: Reader): Run
  {
    Layer(SilverFiles, SilverTables, Label, read)
  }

  // Each file name is checked on its own, and the results are collected by
  // position; the solver never sees all the names at once.

  lemma UpperCustomers()
    ensures |"customers"| == |"CUSTOMERS"| && UpperFrom("customers", "CUSTOMERS", 0)
  {
    assert UpperFrom("customers", "CUSTOMERS", 8);
    assert UpperFrom("customers", "CUSTOMERS", 4);
  }

  lemma CheckCustomers()
    ensures Checked(ScriptName("01", "customers"), "CUSTOMERS")
  {
    WordCustomers();
    UpperCustomers();
  }

  lemma UpperProducts()
    ensures |"products"| == |"PRODUCTS"| && UpperFrom("products", "PRODUCTS", 0)
  {
    assert UpperFrom("products", "PRODUCTS", 4);
  }

  lemma CheckProducts()
    ensures Checked(ScriptName("02", "products"), "PRODUCTS")
  {
    WordProducts();
    UpperProducts();
  }

  lemma UpperOrders()
    ensures |"orders"| == |"ORDERS"| && UpperFrom("orders", "ORDERS", 0)
  {
    assert UpperFrom("orders", "ORDERS", 4);
  }

  lemma CheckOrders()
    ensures Checked(ScriptName("03", "orders"), "ORDERS")
  {
    WordOrders();
    UpperOrders();
  }

  lemma UpperOrderItems()
    ensures |"order_items"| == |"ORDER_ITEMS"| && UpperFrom("order_items", "ORDER_ITEMS", 0)
  {
    assert UpperFrom("order_items", "ORDER_ITEMS", 8);
    assert UpperFrom("order_items", "ORDER_ITEMS", 4);
  }

  lemma CheckOrderItems()
    ensures Checked(ScriptName("04", "order_items"), "ORDER_ITEMS")
  {
    WordOrderItems();
    UpperOrderItems();
  }

  lemma UpperPayments()
    ensures |"payments"| == |"PAYMENTS"| && UpperFrom("payments", "PAYMENTS", 0)
  {
    assert UpperFrom("payments", "PAYMENTS", 4);
  }

  lemma CheckPayments()
    ensures Checked(ScriptName("05", "payments"), "PAYMENTS")
  {
    WordPayments();
    UpperPayments();
  }

  lemma UpperShipments()
    ensures |"shipments"| == |"SHIPMENTS"| && UpperFrom("shipments", "SHIPMENTS", 0)
  {
    assert UpperFrom("shipments", "SHIPMENTS", 8);
    assert UpperFrom("shipments", "SHIPMENTS", 4);
  }

  lemma CheckShipments()
    ensures Checked(ScriptName("06", "shipments"), "SHIPMENTS")
  {
    WordShipments();
    UpperShipments();
  }

  lemma WordExchangeRates()
    ensures WordFrom("exchange_rates", 0)
  {
    assert WordFrom("exchange_rates", 12);
    assert WordFrom("exchange_rates", 8);
    assert WordFrom("exchange_rates", 4);
  }

  lemma UpperExchangeRates()
    ensures |"exchange_rates"| == |"EXCHANGE_RATES"| && UpperFrom("exchange_rates", "EXCHANGE_RATES", 0)
  {
    assert UpperFrom("exchange_rates", "EXCHANGE_RATES", 12);
    assert UpperFrom("exchange_rates", "EXCHANGE_RATES", 8);
    assert UpperFrom("exchange_rates", "EXCHANGE_RATES", 4);
  }

  lemma CheckExchangeRates()
    ensures Checked(ScriptName("07", "exchange_rates"), "EXCHANGE_RATES")
  {
    WordExchangeRates();
    UpperExchangeRates();
  }

  lemma SilverCheckAt(k: nat)
    requires k < |SilverNames|
    ensures Checked(SilverNames[k], (SilverTables + [ExchangeRates])[k])
  {
    if k == 0 {
      CheckCustomers();
    } else if k == 1 {
      CheckProducts();
    } else if k == 2 {
      CheckOrders();
    } else if k == 3 {
      CheckOrderItems();
    } else if k == 4 {
      CheckPayments();
    } else if k == 5 {
      CheckShipments();
    } else {
      CheckExchangeRates();
    }
  }

  lemma SilverNamesChecked()
    ensures |(SilverTables + [ExchangeRates])| == |SilverNames|
    ensures forall k :: 0 <= k < |SilverNames| ==> Checked(SilverNames[k], (SilverTables + [ExchangeRates])[k])
  {
    forall k | 0 <= k < |SilverNames|
      ensures Checked(SilverNames[k], (SilverTables + [ExchangeRates])[k])
    {
      SilverCheckAt(k);
    }
  }

  /** The labels derived from the file list are the six counted tables, in
      order, and then EXCHANGE_RATES; `04_order_items.sql` gives
      `ORDER_ITEMS`, keeping the inner `_`. */
  lemma SilverLabels()
    ensures LabelAll(SilverFiles) == Some(SilverTables + [ExchangeRates])
  {
    SilverNamesChecked();
    LabelsOfScripts(SilverDir, SilverNames, SilverTables + [ExchangeRates]);
  }

  /** With every file readable the script finishes: all seven files are
      built, file `i` under the name of table `i` and the last under
      EXCHANGE_RATES, and then the six entity tables are counted in order. */
  lemma SilverRunBuildsThenCounts(read: Reader)
    requires forall i :: 0 <= i < |SilverFiles| ==> read(SilverFiles[i]).Some?
    ensures SilverRun(read).ok
    ensures |SilverRun(read).steps| == |SilverFiles| + |SilverTables|
    ensures forall i :: 0 <= i < |SilverFiles| ==>
              SilverRun(read).steps[i] == Build(SilverFiles[i], (SilverTables + [ExchangeRates])[i], read(SilverFiles[i]).value)
    ensures forall j :: 0 <= j < |SilverTables| ==>
              SilverRun(read).steps[|SilverFiles| + j] == Count(SilverTables[j])
  {
    SilverLabels();
    LayerBuildsThenCounts(SilverFiles, SilverTables + [ExchangeRates], SilverTables, Label, read);
  }

  lemma ExchangeRatesNotListed()
    ensures ExchangeRates !in SilverTables
  {
  }

  /** The exchange-rate table is built but never counted. */
  lemma ExchangeRatesNotCounted(read: Reader)
    ensures Count(ExchangeRates) !in SilverRun(read).steps
  {
    ExchangeRatesNotListed();
    UncountedTable(SilverFiles, SilverTables, Label, read, ExchangeRates);
  }
}
