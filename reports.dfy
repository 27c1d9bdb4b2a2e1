/**
 * The reports page: the dashboard summary `fetchSummary` computes from the
 * three selects, and the generic report table's column filter, header labels
 * and cell formatting. The three selects' results are parameters.
 */
module Reports {
  import opened Js
  import opened Numbers
  import Strings
  import SalesInvoice

  /** The `price, gst_percent` columns of a sales invoice. */
  datatype SalesRow = SalesRow(price: real, gstPercent: real)

  /** The `status, amount` columns of a payment. */
  datatype PaymentRow = PaymentRow(status: string, amount: Option<real>)

  /** The `status` column of a delivery. */
  datatype DeliveryRow = DeliveryRow(status: string)

  datatype Summary = Summary(totalRevenue: real, totalOrders: nat, successfulPayments: nat, pendingDeliveries: nat)

  /** The summary before `fetchSummary` completes. */
  const InitialSummary := Summary(0.0, 0, 0, 0)

  /** One invoice's contribution to revenue: `item.price + (item.price * item.gst_percent) / 100`. */
  function LineTotal(item: SalesRow): real
  {
    item.price + (item.price * item.gstPercent) / 100.0
  }

  /** `reduce((sum, item) => sum + total, 0)`: a left fold over the rows. */
  function Revenue(rows: seq<SalesRow>): (r: real)
    ensures rows == [] ==> r == 0.0
    ensures (forall i :: 0 <= i < |rows| ==> Priced(rows[i])) ==> r >= 0.0
  {
    if rows == [] then 0.0 else Revenue(rows[..|rows| - 1]) + LineTotal(rows[|rows| - 1])
  }

  /** The sum of the prices alone. */
  function PriceSum(rows: seq<SalesRow>): real
  {
    if rows == [] then 0.0 else PriceSum(rows[..|rows| - 1]) + rows[|rows| - 1].price
  }

  /** Each invoice contributes exactly the Total its row shows on the sales invoice page. */
  lemma LineTotalIsInvoiceTotal(item: SalesRow)
    ensures LineTotal(item) == SalesInvoice.CalculateTotal(item.price, item.gstPercent)
  {
  }

  /** Revenue is additive over a split of the rows. */
  lemma {:induction false} RevenueAppend(a: seq<SalesRow>, b: seq<SalesRow>)
    ensures Revenue(a + b) == Revenue(a) + Revenue(b)
    decreases |b|
  {
    if b == [] {
      assert a + b == a;
    } else {
      var n := |b|;
      assert (a + b)[..|a + b| - 1] == a + b[..n - 1];
      assert (a + b)[|a + b| - 1] == b[n - 1];
      RevenueAppend(a, b[..n - 1]);
    }
  }

  predicate Priced(item: SalesRow) { item.price >= 0.0 && 0.0 <= item.gstPercent <= 100.0 }

  /** With non-negative prices and GST between 0 and 100 %, revenue lies between the price sum and twice it. */
  lemma {:induction false} RevenueBounds(rows: seq<SalesRow>)
    requires forall i :: 0 <= i < |rows| ==> Priced(rows[i])
    ensures PriceSum(rows) <= Revenue(rows) <= 2.0 * PriceSum(rows)
  {
    if rows != [] {
      var n := |rows|;
      RevenueBounds(rows[..n - 1]);
      LineTotalIsInvoiceTotal(rows[n - 1]);
      assert Priced(rows[n - 1]);
    }
  }

  /** `filter((r) => r.status === wanted).length`. */
  function CountStatus<T>(rows: seq<T>, status: T -> string, wanted: string): (n: nat)
    ensures n <= |rows|
  {
    if rows == [] then 0
    else CountStatus(rows[..|rows| - 1], status, wanted) + (if status(rows[|rows| - 1]) == wanted then 1 else 0)
  }

  /** The count is zero exactly when no row has the wanted status. */
  lemma {:induction false} CountStatusZero<T>(rows: seq<T>, status: T -> string, wanted: string)
    ensures CountStatus(rows, status, wanted) == 0 <==> forall i :: 0 <= i < |rows| ==> status(rows[i]) != wanted
  {
    if rows != [] {
      var n := |rows|;
      CountStatusZero(rows[..n - 1], status, wanted);
      assert forall i :: 0 <= i < n - 1 ==> rows[..n - 1][i] == rows[i];
    }
  }

  /** The count is the number of rows exactly when every row has the wanted status. */
  lemma {:induction false} CountStatusAll<T>(rows: seq<T>, status: T -> string, wanted: string)
    ensures CountStatus(rows, status, wanted) == |rows| <==> forall i :: 0 <= i < |rows| ==> status(rows[i]) == wanted
  {
    if rows != [] {
      var n := |rows|;
      CountStatusAll(rows[..n - 1], status, wanted);
      assert forall i :: 0 <= i < n - 1 ==> rows[..n - 1][i] == rows[i];
    }
  }

  function PaymentStatus(p: PaymentRow): string { p.status }

  function DeliveryStatus(d: DeliveryRow): string { d.status }

  /** `x?.length || 0`: a count, or 0 when the select returned no data. */
  function CountOrZero(n: Option<nat>): (r: nat)
    ensures n.Some? ==> r == n.value
    ensures n == None ==> r == 0
  {
    if n.Some? && TruthyNumber(Num(n.value as real)) then n.value else 0
  }

  /**
   * `fetchSummary`: revenue and order count from the sales data, successful
   * payments and pending deliveries by exact status; absent data gives 0.
   */
  function ComputeSummary(sales: Option<seq<SalesRow>>, payments: Option<seq<PaymentRow>>,
                          deliveries: Option<seq<DeliveryRow>>): (s: Summary)
    ensures sales == None ==> s.totalRevenue == 0.0 && s.totalOrders == 0
    ensures sales.Some? ==> s.totalRevenue == Revenue(sales.value) && s.totalOrders == |sales.value|
    ensures payments == None ==> s.successfulPayments == 0
    ensures payments.Some? ==> s.successfulPayments == CountStatus(payments.value, PaymentStatus, "Success")
    ensures deliveries == None ==> s.pendingDeliveries == 0
    ensures deliveries.Some? ==> s.pendingDeliveries == CountStatus(deliveries.value, DeliveryStatus, "Pending")
    ensures payments.Some? ==> s.successfulPayments <= |payments.value|
    ensures deliveries.Some? ==> s.pendingDeliveries <= |deliveries.value|
  {
    var revenue := if sales.Some? then Revenue(sales.value) else 0.0;
    var successful := CountOrZero(if payments.Some? then Some(CountStatus(payments.value, PaymentStatus, "Success")) else None);
    var pending := CountOrZero(if deliveries.Some? then Some(CountStatus(deliveries.value, DeliveryStatus, "Pending")) else None);
    Summary(revenue, CountOrZero(if sales.Some? then Some(|sales.value|) else None), successful, pending)
  }

  /** The page's summary state, written by `fetchSummary`. */
  class ReportsPage {
    var summary: Summary

    constructor()
      ensures summary == InitialSummary
    {
      summary := InitialSummary;
    }

    method FetchSummary(sales: Option<seq<SalesRow>>, payments: Option<seq<PaymentRow>>, deliveries: Option<seq<DeliveryRow>>)
      modifies this
      ensures summary == ComputeSummary(sales, payments, deliveries)
    {
      summary := ComputeSummary(sales, payments, deliveries);
    }
  }

  // ---------------------------------------------------------------- report table

  /** A column value as the store returns it. `JObject` carries its `JSON.stringify` text. */
  datatype JsValue = JNull | JBool(b: bool) | JNum(d: Decimal) | JNaN | JStr(s: string) | JObject(json: string)

  /** A row as `Object.entries` lists it. */
  type Row = seq<(string, JsValue)>

  predicate TruthyValue(v: JsValue)
  {
    match v
    case JNull => false
    case JBool(b) => b
    case JNum(d) => Value(d) != 0.0
    case JNaN => false
    case JStr(s) => TruthyString(s)
    case JObject(_) => true
  }

  /** `String(value)` for the values that reach it. */
  function ToText(v: JsValue): string
  {
    match v
    case JNull => "null"
    case JBool(b) => if b then "true" else "false"
    case JNum(d) => ShowDecimal(d)
    case JNaN => "NaN"
    case JStr(s) => s
    case JObject(j) => j
  }

  /** A column is shown unless its key contains "id", "created_at" or "updated_at". */
  predicate Shown(key: string)
  {
    !Strings.Contains(key, "id") && !Strings.Contains(key, "created_at") && !Strings.Contains(key, "updated_at")
  }

  /** The `filter` over a row's entries: the shown ones, in order. */
  function ShownEntries(row: Row): (r: Row)
    ensures |r| <= |row|
    ensures forall e :: e in r <==> e in row && Shown(e.0)
  {
    if row == [] then []
    else (if Shown(row[0].0) then [row[0]] else []) + ShownEntries(row[1..])
  }

  /** Filtering a row split in two filters each part and keeps them in order. */
  lemma {:induction false} ShownEntriesAppend(a: Row, b: Row)
    ensures ShownEntries(a + b) == ShownEntries(a) + ShownEntries(b)
    decreases |a|
  {
    if a == [] {
      assert a + b == b;
    } else {
      assert (a + b)[0] == a[0] && (a + b)[1..] == a[1..] + b;
      ShownEntriesAppend(a[1..], b);
    }
  }

  /** A single entry is kept exactly when its key is shown. */
  lemma ShownEntry(key: string, v: JsValue)
    ensures ShownEntries([(key, v)]) == if Shown(key) then [(key, v)] else []
  {
    assert [(key, v)][1..] == [];
  }

  function Keys(row: Row): (ks: seq<string>)
    ensures |ks| == |row|
    ensures forall i :: 0 <= i < |row| ==> ks[i] == row[i].0
  {
    if row == [] then [] else [row[0].0] + Keys(row[1..])
  }

  /** The columns of the table: the shown keys of the first row, in order. */
  function Columns(first: Row): seq<string>
  {
    Keys(ShownEntries(first))
  }

  /** A header cell: `key.replace(/_/g, ' ')`. */
  function HeaderLabel(key: string): (h: string)
    ensures |h| == |key| && '_' !in h
    ensures forall i :: 0 <= i < |key| && key[i] != '_' ==> h[i] == key[i]
    ensures forall i :: 0 <= i < |key| && key[i] == '_' ==> h[i] == ' '
  {
    Strings.UnderscoresToSpaces(key)
  }

  /**
   * A body cell: an object shows its JSON text, a boolean "Yes"/"No", any
   * other value its text, or "-" when it is falsy (null, '', 0, NaN).
   */
  function FormatCell(v: JsValue): (c: string)
    ensures v.JObject? ==> c == v.json
    ensures v.JBool? ==> c == (if v.b then "Yes" else "No")
    ensures !v.JObject? && !v.JBool? && !TruthyValue(v) ==> c == "-"
    ensures !v.JObject? && !v.JBool? && TruthyValue(v) ==> c == ToText(v)
    ensures !v.JObject? ==> c != ""
  {
    if v.JObject? then v.json
    else if v.JBool? then (if v.b then "Yes" else "No")
    else if TruthyValue(v) then ToText(v)
    else "-"
  }

  function Cells(row: Row): (cs: seq<string>)
    ensures |cs| == |ShownEntries(row)|
    ensures forall i :: 0 <= i < |cs| ==> cs[i] == FormatCell(ShownEntries(row)[i].1)
  {
    var entries := ShownEntries(row);
    seq(|entries|, i requires 0 <= i < |entries| => FormatCell(entries[i].1))
  }

  /** Rows with the same keys show the same columns. */
  lemma {:induction false} SameKeysSameColumns(a: Row, b: Row)
    requires Keys(a) == Keys(b)
    ensures Columns(a) == Columns(b)
    decreases |a|
  {
    if a != [] {
      assert Keys(a[1..]) == Keys(a)[1..];
      assert Keys(b[1..]) == Keys(b)[1..];
      SameKeysSameColumns(a[1..], b[1..]);
      assert a[0].0 == b[0].0;
      KeysConcat(if Shown(a[0].0) then [a[0]] else [], ShownEntries(a[1..]));
      KeysConcat(if Shown(b[0].0) then [b[0]] else [], ShownEntries(b[1..]));
    }
  }

  lemma {:induction false} KeysConcat(a: Row, b: Row)
    ensures Keys(a + b) == Keys(a) + Keys(b)
    decreases |a|
  {
    if a != [] {
      assert (a + b)[1..] == a[1..] + b;
      KeysConcat(a[1..], b);
    }
  }

  /**
   * Header and body use the same filter: for every row with the first row's
   * keys there is one cell per column, and cell i formats that row's value
   * for column i. A shown column never contains "id".
   */
  lemma CellsAlignWithHeader(first: Row, row: Row)
    requires Keys(row) == Keys(first)
    ensures |Cells(row)| == |Columns(first)|
    ensures forall i :: 0 <= i < |Cells(row)| ==>
      ShownEntries(row)[i].0 == Columns(first)[i] && Cells(row)[i] == FormatCell(ShownEntries(row)[i].1)
    ensures forall k :: k in Columns(first) ==> !Strings.Contains(k, "id")
  {
    SameKeysSameColumns(row, first);
    forall k | k in Columns(first) ensures !Strings.Contains(k, "id") {
      var i :| 0 <= i < |Columns(first)| && Columns(first)[i] == k;
      assert ShownEntries(first)[i] in ShownEntries(first);
    }
  }
}
