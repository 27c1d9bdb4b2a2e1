/**
 * The purchase order page: its form, the payload `handleSubmit` builds and
 * the form `handleEdit` loads. Its gateway calls are commented out, so its
 * editor is not live.
 */
module PurchaseOrder {
  import opened Js
  import opened Numbers
  import Strings
  import Fields
  import Numbering
  import RecordEditor

  datatype Form = Form(poNumber: string, poDate: string, fruitId: string, price: string, gstPercent: string,
                       supplierInfo: string, active: bool)

  /** A stored order; `supplier_info` may be null. */
  datatype Order = Order(id: string, poNumber: string, poDate: string, fruitId: string, price: Decimal, gstPercent: Decimal,
                         supplierInfo: Option<string>, active: bool)

  /** The row sent to the `purchase_orders` table. */
  datatype Payload = Payload(poNumber: string, poDate: string, fruitId: string, price: JsNumber, gstPercent: real,
                             supplierInfo: Option<string>, active: bool)

  const Prefix := "PO"

  /** `generatePONumber`. */
  function GeneratePONumber(now: nat): string
  {
    Numbering.GenerateNumber(Prefix, now)
  }

  /** The form on first render and after `resetForm`. */
  function Blank(isoNow: string): (f: Form)
    ensures f.poNumber == "" && f.fruitId == "" && f.price == "" && f.gstPercent == "" && f.supplierInfo == "" && f.active
    ensures f.poDate == Strings.SplitFirst(isoNow, 'T')
    ensures f.poDate <= isoNow && 'T' !in f.poDate
  {
    Form("", Strings.SplitFirst(isoNow, 'T'), "", "", "", "", true)
  }

  /** `handleEdit`'s form: a null supplier becomes '', numbers go through `toString()`. */
  function Load(o: Order): (f: Form)
    ensures f.poNumber == o.poNumber && f.poDate == o.poDate && f.fruitId == o.fruitId && f.active == o.active
    ensures ParseFloat(f.price) == Num(Value(o.price)) && ParseFloat(f.gstPercent) == Num(Value(o.gstPercent))
    ensures o.supplierInfo == None ==> f.supplierInfo == ""
    ensures o.supplierInfo.Some? ==> f.supplierInfo == o.supplierInfo.value
  {
    ParseShowDecimal(o.price);
    ParseShowDecimal(o.gstPercent);
    Form(o.poNumber, o.poDate, o.fruitId, ShowDecimal(o.price), ShowDecimal(o.gstPercent), Fields.OrEmpty(o.supplierInfo), o.active)
  }

  /**
   * `orderData`: a blank number is replaced by a generated one, an
   * unparsable or zero GST becomes 0 and an empty supplier is stored as null.
   */
  function Build(f: Form, now: nat): (p: Payload)
    ensures p.poNumber != ""
    ensures f.poNumber != "" ==> p.poNumber == f.poNumber
    ensures f.poNumber == "" ==> p.poNumber == GeneratePONumber(now)
    ensures p.price == ParseFloat(f.price)
    ensures !TruthyNumber(ParseFloat(f.gstPercent)) ==> p.gstPercent == 0.0
    ensures TruthyNumber(ParseFloat(f.gstPercent)) ==> ParseFloat(f.gstPercent) == Num(p.gstPercent)
    ensures p.supplierInfo == None <==> f.supplierInfo == ""
    ensures p.supplierInfo.Some? ==> p.supplierInfo.value == f.supplierInfo
    ensures p.poDate == f.poDate && p.fruitId == f.fruitId && p.active == f.active
  {
    Payload(if TruthyString(f.poNumber) then f.poNumber else GeneratePONumber(now),
            f.poDate, f.fruitId, ParseFloat(f.price), OrZero(ParseFloat(f.gstPercent)),
            Fields.OrNull(f.supplierInfo), f.active)
  }

  /** What the table holds for an order, as a payload would carry it. */
  function Stored(o: Order): Payload
  {
    Payload(o.poNumber, o.poDate, o.fruitId, Num(Value(o.price)), Value(o.gstPercent), o.supplierInfo, o.active)
  }

  /**
   * Editing an order and saving it unchanged writes back what is stored
   * exactly when its number is not blank and its supplier is null or
   * non-empty.
   */
  lemma EditRoundTrip(o: Order, now: nat)
    ensures Build(Load(o), now) == Stored(o) <==> o.poNumber != "" && o.supplierInfo != Some("")
  {
    Fields.ColumnRoundTrip(o.supplierInfo);
  }

  const Page: RecordEditor.Schema<Form, Order, Payload> := RecordEditor.Schema(Blank, Load, (o: Order) => o.id, Build)
  const Live := false

  /** The page on mount: the `useState` initial values; its gateway calls are commented out, so it is not live. */
  method Mount(today: string) returns (e: RecordEditor.Editor<Form, Order, Payload>)
    ensures fresh(e) && e.schema == Page && e.live == Live
    ensures e.formData == Blank(today) && e.editingId == None && e.records == [] && !e.loading
  {
    e := new RecordEditor.Editor(Page, Live, today);
  }
}
