/** Bronze Load: upload every CSV file of the data directory to the stage,
    then issue one COPY per raw table, selecting the staged files whose name
    mentions the table. Errors after connecting are printed and swallowed. */
module BronzeLoad {
  import opened Wrappers
  import opened Text
  import opened Config
  import opened Labels
  import opened FailFast
  import opened TableNames

  /** A raw table and its columns, in declaration order. */
  datatype TableSpec = TableSpec(table: string, columns: seq<string>)

  /** The tables loaded, in the order they are declared (and so iterated). */
  const TableColumns: seq<TableSpec> := [
    Customers, Products, Orders, OrderItems, Payments, Shipments
  ]

  const Customers := TableSpec("CUSTOMERS", ["CUSTOMER_ID", "FIRST_NAME", "LAST_NAME", "EMAIL", "PHONE", "COUNTRY", "CREATED_AT", "IS_ACTIVE"])
  const Products := TableSpec("PRODUCTS", ["PRODUCT_ID", "PRODUCT_NAME", "CATEGORY", "PRICE", "CURRENCY", "IS_ACTIVE", "CREATED_AT"])
  const Orders := TableSpec("ORDERS", ["ORDER_ID", "CUSTOMER_ID", "ORDER_DATE", "ORDER_STATUS", "TOTAL_AMOUNT", "CURRENCY"])
  const OrderItems := TableSpec("ORDER_ITEMS", ["ORDER_ITEM_ID", "ORDER_ID", "PRODUCT_ID", "QUANTITY", "UNIT_PRICE"])
  const Payments := TableSpec("PAYMENTS", ["PAYMENT_ID", "ORDER_ID", "PAYMENT_DATE", "PAYMENT_METHOD", "AMOUNT", "CURRENCY", "PAYMENT_STATUS"])
  const Shipments := TableSpec("SHIPMENTS", ["SHIPMENT_ID", "ORDER_ID", "SHIPMENT_DATE", "DELIVERY_DATE", "CARRIER", "SHIPMENT_STATUS"])

  const CsvExtension := ".csv"

  /** `file.endswith(".csv")`: the name is some stem followed by `.csv`. */
  predicate IsCsv(name: string)
    ensures IsCsv(name) ==> |name| >= |CsvExtension| && name == name[..|name| - |CsvExtension|] + CsvExtension
  {
    EndsWith(name, CsvExtension)
  }

  /** Every name of the form `<stem>.csv` is uploaded, whatever the stem. */
  lemma CsvOfStem(stem: string)
    ensures IsCsv(stem + CsvExtension)
  {
    EndsWithAppend(stem, CsvExtension);
  }

  /** A statement sent to the warehouse. */
  datatype Directive =
    | Put(file: string)                                     // PUT file://<data>/<file> @BRONZE_STAGE
    | Copy(table: string, columns: string, pattern: string) // COPY INTO BRONZE.<table> (<columns>) ... PATTERN

  /** One PUT per CSV entry of the directory listing, in listing order. */
  function Uploads(entries: seq<string>): (r: seq<Directive>)
    ensures |r| <= |entries|
    ensures forall i :: 0 <= i < |r| ==> r[i].Put? && IsCsv(r[i].file) && r[i].file in entries
    ensures forall e :: e in entries && IsCsv(e) ==> Put(e) in r
  {
    if |entries| == 0 then []
    else
      var rest := Uploads(entries[1..]);
      assert forall e :: e in entries[1..] ==> e in entries;
      if IsCsv(entries[0]) then [Put(entries[0])] + rest else rest
  }

  /** Listing order is kept: the uploads of two listings one after the other
      are those of the first, then those of the second. */
  lemma {:induction false} UploadsConcat(a: seq<string>, b: seq<string>)
    ensures Uploads(a + b) == Uploads(a) + Uploads(b)
    decreases |a|
  {
    if |a| == 0 {
      assert a + b == b;
    } else {
      assert (a + b)[0] == a[0] && (a + b)[1..] == a[1..] + b;
      UploadsConcat(a[1..], b);
    }
  }

  /** An entry that is not a CSV file contributes nothing. */
  lemma UploadsSkip(a: seq<string>, e: string, b: seq<string>)
    requires !IsCsv(e)
    ensures Uploads(a + [e] + b) == Uploads(a + b)
  {
    UploadsConcat(a + [e], b);
    UploadsConcat(a, [e]);
    UploadsConcat(a, b);
    assert [e][1..] == [];
    assert Uploads([e]) == [];
    assert Uploads(a) + [] == Uploads(a);
  }

  /** `", ".join(columns)`. For stripped column names without commas it
      splits back into the columns: splitting on `,` and stripping each piece
      loses nothing. */
  function ColumnList(columns: seq<string>): (r: string)
    ensures |columns| > 0 && (forall i :: 0 <= i < |columns| ==> ',' !in columns[i] && IsStripped(columns[i])) ==>
              StripEach(Split(r, ',')) == columns
  {
    var r := Join(columns, ", ");
    assert |columns| > 0 && (forall i :: 0 <= i < |columns| ==> ',' !in columns[i] && IsStripped(columns[i])) ==>
             StripEach(Split(r, ',')) == columns by {
      if |columns| > 0 && forall i :: 0 <= i < |columns| ==> ',' !in columns[i] && IsStripped(columns[i]) {
        var p := Padded("", columns);
        JoinUnpadded(columns);
        PiecesOk(columns, p);
        SplitJoin(p, ',');
      }
    }
    r
  }

  /** The `PATTERN` of a table's COPY: `.*<lower(table)>.*`, so four
      characters longer than the name and free of upper-case letters. */
  function Pattern(table: string): (r: string)
    ensures |r| == |table| + 4 && r[..2] == ".*" && r[|r| - 2..] == ".*"
    ensures forall i :: 0 <= i < |r| ==> !('A' <= r[i] <= 'Z')
    ensures r[2..|r| - 2] == Lower(table)
  {
    var r := ".*" + Lower(table) + ".*";
    assert forall i :: 2 <= i < |r| - 2 ==> r[i] == Lower(table)[i - 2];
    r
  }

  /** Whether the pattern `.*x.*` of a table matches a staged file name:
      `.*` matches anything, so it does exactly when `x` occurs in the name.
      The regular expression is modelled by that substring test. A selected
      name is at least as long as the table name. */
  predicate Selects(table: string, file: string)
    ensures Selects(table, file) ==> |table| <= |file|
  {
    Contains(file, Lower(table))
  }

  /** Any name that mentions the lower-case table name is selected, whatever
      surrounds it. */
  lemma SelectsMention(table: string, x: string, y: string)
    ensures Selects(table, x + Lower(table) + y)
  {
    var s := x + Lower(table) + y;
    assert s[|x|..|x| + |Lower(table)|] == Lower(table);
    assert OccursAt(s, Lower(table), |x|);
  }

  /** The COPY directive of a table. */
  function CopyOf(spec: TableSpec): Directive
  {
    Copy(spec.table, ColumnList(spec.columns), Pattern(spec.table))
  }

  function Copies(specs: seq<TableSpec>): (r: seq<Directive>)
    ensures |r| == |specs|
    ensures forall i :: 0 <= i < |specs| ==> r[i] == CopyOf(specs[i])
  {
    seq(|specs|, i requires 0 <= i < |specs| => CopyOf(specs[i]))
  }

  /** Everything the script sends after connecting, in order: every PUT
      before every COPY, then exactly one COPY per table of `TABLE_COLUMNS`
      in declaration order, carrying its column list and pattern, and no
      table copied twice. */
  function LoadPlan(entries: seq<string>): (r: seq<Directive>)
    ensures |r| == |Uploads(entries)| + |TableColumns|
    ensures r[..|Uploads(entries)|] == Uploads(entries)
    ensures forall j :: 0 <= j < |TableColumns| ==>
              r[|Uploads(entries)| + j]
              == Copy(TableColumns[j].table, ColumnList(TableColumns[j].columns), Pattern(TableColumns[j].table))
    ensures forall i, k :: 0 <= i < k < |r| && r[i].Copy? ==> r[k].Copy? && r[k].table != r[i].table
  {
    TablesDistinct();
    PlanShape(Uploads(entries), TableColumns);
    var r := Uploads(entries) + Copies(TableColumns);
    assert r[..|Uploads(entries)|] == Uploads(entries);
    r
  }

  /** The pieces of `w + ", ".join(columns)` between commas: the first
      column behind `w`, every later one behind the blank of `", "`. */
  function Padded(w: string, columns: seq<string>): (r: seq<string>)
    requires |columns| > 0
    ensures |r| == |columns| && r[0] == w + columns[0]
    ensures forall i :: 0 < i < |columns| ==> r[i] == " " + columns[i]
  {
    seq(|columns|, i requires 0 <= i < |columns| => (if i == 0 then w else " ") + columns[i])
  }

  lemma {:induction false} JoinPadded(w: string, columns: seq<string>)
    requires |columns| > 0
    ensures w + Join(columns, ", ") == Join(Padded(w, columns), [','])
    decreases |columns|
  {
    if |columns| > 1 {
      var rest := columns[1..];
      var p := Padded(w, columns);
      assert p[1..] == Padded(" ", rest);
      JoinPadded(" ", rest);
      assert Join(p, [',']) == p[0] + [','] + Join(p[1..], [',']);
      assert ", " == [','] + " ";
      assert w + Join(columns, ", ") == (w + columns[0]) + [','] + (" " + Join(rest, ", "));
    }
  }

  /** One piece between commas: a blank margin and a column name. */
  lemma PaddedPiece(w: string, c: string)
    requires AllSpace(w) && ',' !in c && IsStripped(c)
    ensures ',' !in w + c && Strip(w + c) == c
  {
    forall k | 0 <= k < |w + c|
      ensures (w + c)[k] != ','
    {
      if k < |w| { assert (w + c)[k] == w[k] && IsSpace(w[k]); }
      else { assert (w + c)[k] == c[k - |w|]; }
    }
    assert AllSpace("");
    assert w + c + "" == w + c;
    StripPadded(w, c, "");
  }

  lemma JoinUnpadded(columns: seq<string>)
    requires |columns| > 0
    ensures Join(columns, ", ") == Join(Padded("", columns), [','])
  {
    JoinPadded("", columns);
    assert "" + Join(columns, ", ") == Join(columns, ", ");
  }

  lemma PiecesOk(columns: seq<string>, p: seq<string>)
    requires |columns| > 0 && p == Padded("", columns)
    requires forall i :: 0 <= i < |columns| ==> ',' !in columns[i] && IsStripped(columns[i])
    ensures forall i :: 0 <= i < |p| ==> ',' !in p[i]
    ensures StripEach(p) == columns
  {
    forall i | 0 <= i < |p|
      ensures ',' !in p[i] && Strip(p[i]) == columns[i]
    {
      if i == 0 {
        assert AllSpace("");
        PaddedPiece("", columns[i]);
      } else {
        assert AllSpace(" ");
        PaddedPiece(" ", columns[i]);
      }
    }
  }

  /** Every PUT comes before every COPY, and there is exactly one COPY per
      table spec, in order, carrying that table's column list and pattern;
      with distinct tables no table is copied twice. */
  lemma PlanShape(puts: seq<Directive>, specs: seq<TableSpec>)
    requires forall i :: 0 <= i < |puts| ==> puts[i].Put?
    requires forall i, j :: 0 <= i < j < |specs| ==> specs[i].table != specs[j].table
    ensures |puts + Copies(specs)| == |puts| + |specs|
    ensures forall i :: 0 <= i < |puts| ==> (puts + Copies(specs))[i].Put?
    ensures forall j :: 0 <= j < |specs| ==>
              (puts + Copies(specs))[|puts| + j]
              == Copy(specs[j].table, ColumnList(specs[j].columns), Pattern(specs[j].table))
    ensures forall i, k :: 0 <= i < k < |puts + Copies(specs)| && (puts + Copies(specs))[i].Copy? ==>
              (puts + Copies(specs))[k].Copy? && (puts + Copies(specs))[k].table != (puts + Copies(specs))[i].table
  {
    CopiesAfterPuts(puts, specs);
    NoTableTwice(puts, specs);
  }

  /** In `puts + Copies(specs)` the COPY of spec `j` sits right after the
      PUTs. */
  lemma CopiesAfterPuts(puts: seq<Directive>, specs: seq<TableSpec>)
    ensures forall j :: 0 <= j < |specs| ==> (puts + Copies(specs))[|puts| + j] == CopyOf(specs[j])
  {
    var copies := Copies(specs);
    forall j | 0 <= j < |specs|
      ensures (puts + copies)[|puts| + j] == CopyOf(specs[j])
    {
      assert (puts + copies)[|puts| + j] == copies[j];
    }
  }

  /** With distinct tables and only PUTs in front, a COPY is followed only
      by COPYs of other tables. */
  lemma NoTableTwice(puts: seq<Directive>, specs: seq<TableSpec>)
    requires forall i :: 0 <= i < |puts| ==> puts[i].Put?
    requires forall i, j :: 0 <= i < j < |specs| ==> specs[i].table != specs[j].table
    ensures forall i, k :: 0 <= i < k < |puts + Copies(specs)| && (puts + Copies(specs))[i].Copy? ==>
              (puts + Copies(specs))[k].Copy? && (puts + Copies(specs))[k].table != (puts + Copies(specs))[i].table
  {
    var n := |puts|;
    var copies := Copies(specs);
    var plan := puts + copies;
    forall i, k | 0 <= i < k < |plan| && plan[i].Copy?
      ensures plan[k].Copy? && plan[k].table != plan[i].table
    {
      assert plan[i] == copies[i - n];
      assert plan[k] == copies[k - n];
    }
  }

  lemma TablesDistinct()
    ensures forall i, j :: 0 <= i < j < |TableColumns| ==> TableColumns[i].table != TableColumns[j].table
  {
  }

  /** The lower-case table names, as the patterns use them. */
  const LowerNames: seq<string> := ["customers", "products", "orders", "order_items", "payments", "shipments"]

  lemma LowerFromCustomers()
    ensures |"CUSTOMERS"| == |"customers"| && LowerFrom("CUSTOMERS", "customers", 0)
  {
    assert LowerFrom("CUSTOMERS", "customers", 8);
    assert LowerFrom("CUSTOMERS", "customers", 4);
  }

  lemma LowerCustomers()
    ensures Lower("CUSTOMERS") == "customers" && WordFrom("customers", 0)
  {
    LowerFromCustomers();
    WordCustomers();
    LowerByIndex("CUSTOMERS", "customers");
  }

  lemma LowerFromProducts()
    ensures |"PRODUCTS"| == |"products"| && LowerFrom("PRODUCTS", "products", 0)
  {
    assert LowerFrom("PRODUCTS", "products", 4);
  }

  lemma LowerProducts()
    ensures Lower("PRODUCTS") == "products" && WordFrom("products", 0)
  {
    LowerFromProducts();
    WordProducts();
    LowerByIndex("PRODUCTS", "products");
  }

  lemma LowerFromOrders()
    ensures |"ORDERS"| == |"orders"| && LowerFrom("ORDERS", "orders", 0)
  {
    assert LowerFrom("ORDERS", "orders", 4);
  }

  lemma LowerOrders()
    ensures Lower("ORDERS") == "orders" && WordFrom("orders", 0)
  {
    LowerFromOrders();
    WordOrders();
    LowerByIndex("ORDERS", "orders");
  }

  lemma LowerFromOrderItems()
    ensures |"ORDER_ITEMS"| == |"order_items"| && LowerFrom("ORDER_ITEMS", "order_items", 0)
  {
    assert LowerFrom("ORDER_ITEMS", "order_items", 8);
    assert LowerFrom("ORDER_ITEMS", "order_items", 4);
  }

  lemma LowerOrderItems()
    ensures Lower("ORDER_ITEMS") == "order_items" && WordFrom("order_items", 0)
  {
    LowerFromOrderItems();
    WordOrderItems();
    LowerByIndex("ORDER_ITEMS", "order_items");
  }

  lemma LowerFromPayments()
    ensures |"PAYMENTS"| == |"payments"| && LowerFrom("PAYMENTS", "payments", 0)
  {
    assert LowerFrom("PAYMENTS", "payments", 4);
  }

  lemma LowerPayments()
    ensures Lower("PAYMENTS") == "payments" && WordFrom("payments", 0)
  {
    LowerFromPayments();
    WordPayments();
    LowerByIndex("PAYMENTS", "payments");
  }

  lemma LowerFromShipments()
    ensures |"SHIPMENTS"| == |"shipments"| && LowerFrom("SHIPMENTS", "shipments", 0)
  {
    assert LowerFrom("SHIPMENTS", "shipments", 8);
    assert LowerFrom("SHIPMENTS", "shipments", 4);
  }

  lemma LowerShipments()
    ensures Lower("SHIPMENTS") == "shipments" && WordFrom("shipments", 0)
  {
    LowerFromShipments();
    WordShipments();
    LowerByIndex("SHIPMENTS", "shipments");
  }

  lemma LowerNameOfCustomers()
    ensures Lower(TableColumns[0].table) == LowerNames[0] && WordFrom(LowerNames[0], 0)
  {
    LowerCustomers();
  }

  lemma LowerNameOfProducts()
    ensures Lower(TableColumns[1].table) == LowerNames[1] && WordFrom(LowerNames[1], 0)
  {
    LowerProducts();
  }

  lemma LowerNameOfOrders()
    ensures Lower(TableColumns[2].table) == LowerNames[2] && WordFrom(LowerNames[2], 0)
  {
    LowerOrders();
  }

  lemma LowerNameOfOrderItems()
    ensures Lower(TableColumns[3].table) == LowerNames[3] && WordFrom(LowerNames[3], 0)
  {
    LowerOrderItems();
  }

  lemma LowerNameOfPayments()
    ensures Lower(TableColumns[4].table) == LowerNames[4] && WordFrom(LowerNames[4], 0)
  {
    LowerPayments();
  }

  lemma LowerNameOfShipments()
    ensures Lower(TableColumns[5].table) == LowerNames[5] && WordFrom(LowerNames[5], 0)
  {
    LowerShipments();
  }

  lemma LowerNameAt(i: nat)
    requires i < |TableColumns|
    ensures Lower(TableColumns[i].table) == LowerNames[i] && WordFrom(LowerNames[i], 0)
  {
    if i == 0 {
      LowerNameOfCustomers();
    } else if i == 1 {
      LowerNameOfProducts();
    } else if i == 2 {
      LowerNameOfOrders();
    } else if i == 3 {
      LowerNameOfOrderItems();
    } else if i == 4 {
      LowerNameOfPayments();
    } else {
      LowerNameOfShipments();
    }
  }

  lemma AbsentCustomers(j: nat)
    requires j < |LowerNames| && j != 0
    ensures !Contains(LowerNames[0], LowerNames[j])
  {
    if j == 1 {
      AbsentNotContained("customers", "products");
    } else if j == 2 {
      AbsentNotContained("customers", "orders");
    } else if j == 3 {
      AbsentNotContained("customers", "order_items");
    } else if j == 4 {
      AbsentNotContained("customers", "payments");
    } else {
      AbsentNotContained("customers", "shipments");
    }
  }

  lemma AbsentProducts(j: nat)
    requires j < |LowerNames| && j != 1
    ensures !Contains(LowerNames[1], LowerNames[j])
  {
    if j == 0 {
      AbsentNotContained("products", "customers");
    } else if j == 2 {
      AbsentNotContained("products", "orders");
    } else if j == 3 {
      AbsentNotContained("products", "order_items");
    } else if j == 4 {
      AbsentNotContained("products", "payments");
    } else {
      AbsentNotContained("products", "shipments");
    }
  }

  lemma AbsentOrders(j: nat)
    requires j < |LowerNames| && j != 2
    ensures !Contains(LowerNames[2], LowerNames[j])
  {
    if j == 0 {
      AbsentNotContained("orders", "customers");
    } else if j == 1 {
      AbsentNotContained("orders", "products");
    } else if j == 3 {
      AbsentNotContained("orders", "order_items");
    } else if j == 4 {
      AbsentNotContained("orders", "payments");
    } else {
      AbsentNotContained("orders", "shipments");
    }
  }

  lemma AbsentOrderItems(j: nat)
    requires j < |LowerNames| && j != 3
    ensures !Contains(LowerNames[3], LowerNames[j])
  {
    if j == 0 {
      AbsentNotContained("order_items", "customers");
    } else if j == 1 {
      AbsentNotContained("order_items", "products");
    } else if j == 2 {
      AbsentNotContained("order_items", "orders");
    } else if j == 4 {
      AbsentNotContained("order_items", "payments");
    } else {
      AbsentNotContained("order_items", "shipments");
    }
  }

  lemma AbsentPayments(j: nat)
    requires j < |LowerNames| && j != 4
    ensures !Contains(LowerNames[4], LowerNames[j])
  {
    if j == 0 {
      AbsentNotContained("payments", "customers");
    } else if j == 1 {
      AbsentNotContained("payments", "products");
    } else if j == 2 {
      AbsentNotContained("payments", "orders");
    } else if j == 3 {
      AbsentNotContained("payments", "order_items");
    } else {
      AbsentNotContained("payments", "shipments");
    }
  }

  lemma AbsentShipments(j: nat)
    requires j < |LowerNames| && j != 5
    ensures !Contains(LowerNames[5], LowerNames[j])
  {
    if j == 0 {
      AbsentNotContained("shipments", "customers");
    } else if j == 1 {
      AbsentNotContained("shipments", "products");
    } else if j == 2 {
      AbsentNotContained("shipments", "orders");
    } else if j == 3 {
      AbsentNotContained("shipments", "order_items");
    } else {
      AbsentNotContained("shipments", "payments");
    }
  }

  lemma AbsentAt(i: nat, j: nat)
    requires i < |LowerNames| && j < |LowerNames| && i != j
    ensures !Contains(LowerNames[i], LowerNames[j])
  {
    if i == 0 {
      AbsentCustomers(j);
    } else if i == 1 {
      AbsentProducts(j);
    } else if i == 2 {
      AbsentOrders(j);
    } else if i == 3 {
      AbsentOrderItems(j);
    } else if i == 4 {
      AbsentPayments(j);
    } else {
      AbsentShipments(j);
    }
  }

  /** Each table's pattern is its lower-case name between two `.*`, with
      the underscores kept: `.*order_items.*` for ORDER_ITEMS. */
  lemma PatternsOfTables()
    ensures forall i :: 0 <= i < |TableColumns| ==> Pattern(TableColumns[i].table) == ".*" + LowerNames[i] + ".*"
  {
    forall i | 0 <= i < |TableColumns|
      ensures Pattern(TableColumns[i].table) == ".*" + LowerNames[i] + ".*"
    {
      LowerNameAt(i);
    }
  }

  /** No table's lower-case name occurs inside another's. */
  lemma LowerNamesDisjoint()
    ensures forall i, j :: 0 <= i < |TableColumns| && 0 <= j < |TableColumns| && i != j ==>
              !Contains(Lower(TableColumns[i].table), Lower(TableColumns[j].table))
  {
    forall i, j | 0 <= i < |TableColumns| && 0 <= j < |TableColumns| && i != j
      ensures !Contains(Lower(TableColumns[i].table), Lower(TableColumns[j].table))
    {
      LowerNameAt(i);
      LowerNameAt(j);
      AbsentAt(i, j);
    }
  }

  /** Appending `.csv` to a name cannot make a word longer than the
      extension occur in it: such a word holds no `.`. */
  lemma CsvSuffixAddsNoWord(x: string, p: string)
    requires WordFrom(p, 0) && |p| > |CsvExtension| && !Contains(x, p)
    ensures !Contains(x + CsvExtension, p)
  {
    WordFromAt(p, 0);
    assert CsvExtension[0] !in p;
    if Contains(x + CsvExtension, p) {
      ContainsInPrefix(x, CsvExtension, p);
      assert false;
    }
  }

  /** The file named after a table, `<lower(table)>.csv`, is selected by that
      table's pattern and by no other table's. */
  lemma EachFileLoadsOnce(i: nat, j: nat)
    requires i < |TableColumns| && j < |TableColumns|
    ensures Selects(TableColumns[j].table, Lower(TableColumns[i].table) + CsvExtension) <==> i == j
  {
    LowerNameAt(i);
    LowerNameAt(j);
    if i == j {
      ContainsPrefixOf(LowerNames[i], CsvExtension);
    } else {
      AbsentAt(i, j);
      assert |LowerNames[j]| > |CsvExtension|;
      CsvSuffixAddsNoWord(LowerNames[i], LowerNames[j]);
    }
  }

  /** The result of the script. */
  datatype Outcome = Outcome(sent: seq<Directive>, succeeded: bool, exitCode: int)

  /** The script: the connection (all six keys required) is made outside the
      `try`, so a missing key raises and exits 1. Inside, listing the data
      directory (`None` where it raises) and every directive can fail; the
      failure is printed and swallowed, and the script exits 0. */
  function Load(cfg: Settings, listing: Option<seq<string>>, accepts: Directive -> bool): (r: Outcome)
    ensures r.exitCode == 0 <==> ScriptConnection(cfg, "BRONZE").Success?
    ensures r.exitCode == 0 || r.exitCode == 1
    ensures r.exitCode == 1 ==> r.sent == [] && !r.succeeded
    ensures listing.None? ==> r.sent == [] && !r.succeeded
    ensures listing.Some? && r.exitCode == 0 ==>
              |r.sent| <= |LoadPlan(listing.value)|
              && r.sent == LoadPlan(listing.value)[..|r.sent|]
              && (r.succeeded <==> r.sent == LoadPlan(listing.value)
                                   && forall i :: 0 <= i < |r.sent| ==> accepts(r.sent[i]))
    ensures listing.Some? && r.exitCode == 0 && !r.succeeded ==>
              |r.sent| > 0 && !accepts(r.sent[|r.sent| - 1])
              && forall i :: 0 <= i < |r.sent| - 1 ==> accepts(r.sent[i])
  {
    if ScriptConnection(cfg, "BRONZE").Failure? then Outcome([], false, 1)
    else
      match listing
      case None => Outcome([], false, 0)
      case Some(entries) =>
        var (sent, done) := RunUntil(LoadPlan(entries), accepts);
        Outcome(sent, done, 0)
  }

  /** A rejected directive does not make the script fail: it stops the load
      and the exit code is still 0. */
  lemma RejectionIsSwallowed(cfg: Settings, entries: seq<string>, accepts: Directive -> bool, k: nat)
    requires ScriptConnection(cfg, "BRONZE").Success?
    requires k < |LoadPlan(entries)| && !accepts(LoadPlan(entries)[k])
    ensures Load(cfg, Some(entries), accepts).exitCode == 0
    ensures !Load(cfg, Some(entries), accepts).succeeded
    ensures |Load(cfg, Some(entries), accepts).sent| <= k + 1
  {
    RunUntilStops(LoadPlan(entries), accepts, k);
  }

  /** Once connected, a warehouse that accepts every directive receives the
      whole plan: every PUT, then one COPY per table. */
  lemma LoadCompletes(cfg: Settings, entries: seq<string>, accepts: Directive -> bool)
    requires ScriptConnection(cfg, "BRONZE").Success?
    requires forall i :: 0 <= i < |LoadPlan(entries)| ==> accepts(LoadPlan(entries)[i])
    ensures Load(cfg, Some(entries), accepts).sent == LoadPlan(entries)
    ensures Load(cfg, Some(entries), accepts).succeeded
    ensures Load(cfg, Some(entries), accepts).exitCode == 0
  {
    RunUntilAll(LoadPlan(entries), accepts);
  }

  /** Directive `k` being the first one rejected, the load sends exactly the
      plan up to and including it, and still exits 0. */
  lemma FirstRejectionEndsLoad(cfg: Settings, entries: seq<string>, accepts: Directive -> bool, k: nat)
    requires ScriptConnection(cfg, "BRONZE").Success?
    requires k < |LoadPlan(entries)| && !accepts(LoadPlan(entries)[k])
    requires forall i :: 0 <= i < k ==> accepts(LoadPlan(entries)[i])
    ensures Load(cfg, Some(entries), accepts).sent == LoadPlan(entries)[..k + 1]
    ensures !Load(cfg, Some(entries), accepts).succeeded
    ensures Load(cfg, Some(entries), accepts).exitCode == 0
  {
    RunUntilFirstFailure(LoadPlan(entries), accepts, k);
  }
}
