/**
 * The sales invoice page: its form, the payload `handleSubmit` builds, the
 * form `handleEdit` loads and the GST total shown in the form and the table.
 * Its gateway calls are commented out, so its editor is not live.
 */
module SalesInvoice {
  import opened Js
  import opened Numbers
  import Strings
  import Numbering
  import RecordEditor

  /** The draft: text fields as typed, plus the active flag. */
  datatype Form = Form(siNumber: string, siDate: string, fruitId: string, price: string, gstPercent: string, active: bool)

  /** A stored invoice. */
  datatype Invoice = Invoice(id: string, siNumber: string, siDate: string, fruitId: string, price: Decimal, gstPercent: Decimal, active: bool)

  /** The row sent to the `sales_invoices` table. */
  datatype Payload = Payload(siNumber: string, siDate: string, fruitId: string, price: JsNumber, gstPercent: real, active: bool)

  const Prefix := "SI"

  /** `generateSINumber`. */
  function GenerateSINumber(now: nat): string
  {
    Numbering.GenerateNumber(Prefix, now)
  }

  /** The form on first render and after `resetForm`: empty fields, active, dated today (`toISOString().split('T')[0]`). */
  function Blank(isoNow: string): (f: Form)
    ensures f.siNumber == "" && f.fruitId == "" && f.price == "" && f.gstPercent == "" && f.active
    ensures f.siDate == Strings.SplitFirst(isoNow, 'T')
    ensures f.siDate <= isoNow && 'T' !in f.siDate
  {
    Form("", Strings.SplitFirst(isoNow, 'T'), "", "", "", true)
  }

  /** `handleEdit`'s form: text copied, numbers through `toString()`. */
  function Load(inv: Invoice): (f: Form)
    ensures f.siNumber == inv.siNumber && f.siDate == inv.siDate && f.fruitId == inv.fruitId && f.active == inv.active
    ensures ParseFloat(f.price) == Num(Value(inv.price)) && ParseFloat(f.gstPercent) == Num(Value(inv.gstPercent))
  {
    ParseShowDecimal(inv.price);
    ParseShowDecimal(inv.gstPercent);
    Form(inv.siNumber, inv.siDate, inv.fruitId, ShowDecimal(inv.price), ShowDecimal(inv.gstPercent), inv.active)
  }

  /**
   * `invoiceData`: a blank number is replaced by a generated one, the price is
   * parsed (NaN possible) and an unparsable or zero GST becomes 0.
   */
  function Build(f: Form, now: nat): (p: Payload)
    ensures p.siNumber != ""
    ensures f.siNumber != "" ==> p.siNumber == f.siNumber
    ensures f.siNumber == "" ==> p.siNumber == GenerateSINumber(now)
    ensures p.price == ParseFloat(f.price)
    ensures !TruthyNumber(ParseFloat(f.gstPercent)) ==> p.gstPercent == 0.0
    ensures TruthyNumber(ParseFloat(f.gstPercent)) ==> ParseFloat(f.gstPercent) == Num(p.gstPercent)
    ensures p.siDate == f.siDate && p.fruitId == f.fruitId && p.active == f.active
  {
    Payload(if TruthyString(f.siNumber) then f.siNumber else GenerateSINumber(now),
            f.siDate, f.fruitId, ParseFloat(f.price), OrZero(ParseFloat(f.gstPercent)), f.active)
  }

  /** What the table holds for an invoice, as a payload would carry it. */
  function Stored(inv: Invoice): Payload
  {
    Payload(inv.siNumber, inv.siDate, inv.fruitId, Num(Value(inv.price)), Value(inv.gstPercent), inv.active)
  }

  /** Editing an invoice and saving it unchanged writes back what is stored, exactly when its number is not blank. */
  lemma EditRoundTrip(inv: Invoice, now: nat)
    ensures Build(Load(inv), now) == Stored(inv) <==> inv.siNumber != ""
  {
  }

  /** `calculateTotal(price, gst) = price + price * gst / 100`. */
  function CalculateTotal(price: real, gst: real): (t: real)
    ensures gst == 0.0 ==> t == price
    ensures price >= 0.0 && 0.0 <= gst <= 100.0 ==> price <= t <= 2.0 * price
  {
    TaxBounds(price, gst);
    price + (price * gst) / 100.0
  }

  lemma TaxBounds(price: real, gst: real)
    ensures price >= 0.0 && 0.0 <= gst <= 100.0 ==> 0.0 <= price * gst <= 100.0 * price
  {
    if price >= 0.0 && 0.0 <= gst <= 100.0 {
      assert price * (100.0 - gst) >= 0.0;
    }
  }

  /** The "Total Amount" preview: shown while a price is typed, from the parsed fields with `|| 0`. */
  function Preview(f: Form): (r: Option<real>)
    ensures r.Some? <==> f.price != ""
  {
    if TruthyString(f.price) then Some(CalculateTotal(OrZero(ParseFloat(f.price)), OrZero(ParseFloat(f.gstPercent)))) else None
  }

  /** The table's Total column for an invoice. */
  function RowTotal(inv: Invoice): real
  {
    CalculateTotal(Value(inv.price), Value(inv.gstPercent))
  }

  /** After `handleEdit`, the form's preview shows the invoice's Total column. */
  lemma PreviewMatchesRow(inv: Invoice)
    ensures Preview(Load(inv)) == Some(RowTotal(inv))
  {
  }

  /** The page's editor: gateway calls commented out. */
  const Page: RecordEditor.Schema<Form, Invoice, Payload> := RecordEditor.Schema(Blank, Load, (inv: Invoice) => inv.id, Build)
  const Live := false

  /** The page on mount: the `useState` initial values; its gateway calls are commented out, so it is not live. */
  method Mount(today: string) returns (e: RecordEditor.Editor<Form, Invoice, Payload>)
    ensures fresh(e) && e.schema == Page && e.live == Live
    ensures e.formData == Blank(today) && e.editingId == None && e.records == [] && !e.loading
  {
    e := new RecordEditor.Editor(Page, Live, today);
  }
}
