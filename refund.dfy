/**
 * The refund page: its form, payload, edit form, status colours and the
 * amount column. Its gateway calls are commented out, so its editor is not
 * live.
 */
module Refund {
  import opened Js
  import opened Numbers
  import Fields
  import opened Badges
  import RecordEditor

  /** `refundStatusOptions`. */
  const StatusOptions: seq<string> := ["Initiated", "Completed", "Failed"]

  datatype Form = Form(customerName: string, refundStatus: string, remark: string, amount: string)

  /** A stored refund; remark and amount may be null. */
  datatype RefundRecord = RefundRecord(id: string, customerName: string, refundStatus: string,
                                       remark: Option<string>, amount: Option<Decimal>)

  datatype Payload = Payload(customerName: string, refundStatus: string, remark: Option<string>, amount: Option<JsNumber>)

  /** The form on first render and after `resetForm`: all fields empty. */
  function Blank(isoNow: string): (f: Form)
    ensures f.customerName == "" && f.refundStatus == "" && f.remark == "" && f.amount == ""
  {
    Form("", "", "", "")
  }

  /** `handleEdit`'s form: null remark and amount become ''. */
  function Load(r: RefundRecord): (f: Form)
    ensures f.customerName == r.customerName && f.refundStatus == r.refundStatus
    ensures f.remark == "" <==> r.remark == None || r.remark == Some("")
    ensures r.remark.Some? && r.remark.value != "" ==> f.remark == r.remark.value
    ensures f.amount == "" <==> r.amount == None
  {
    Form(r.customerName, r.refundStatus, Fields.OrEmpty(r.remark), Fields.AmountText(r.amount))
  }

  /** `refundData`: an empty remark or amount is stored as null, a typed amount is parsed. */
  function Build(f: Form, now: nat): (p: Payload)
    ensures p.customerName == f.customerName && p.refundStatus == f.refundStatus
    ensures p.remark == None <==> f.remark == ""
    ensures p.amount == None <==> f.amount == ""
    ensures p.amount.Some? ==> p.amount.value == ParseFloat(f.amount)
  {
    Payload(f.customerName, f.refundStatus, Fields.OrNull(f.remark), Fields.AmountPayload(f.amount))
  }

  function Stored(r: RefundRecord): Payload
  {
    Payload(r.customerName, r.refundStatus, r.remark, Fields.StoredAmount(r.amount))
  }

  /** Editing a refund and saving it unchanged writes back what is stored exactly
    * when its remark is not a stored empty string; the amount always survives. */
  lemma EditRoundTrip(r: RefundRecord, now: nat)
    ensures Build(Load(r), now) == Stored(r) <==> r.remark != Some("")
  {
    Fields.ColumnRoundTrip(r.remark);
    Fields.AmountRoundTrip(r.amount);
  }

  /** `getStatusColor`. */
  function StatusColor(status: string): (t: Tone)
    ensures t == Green <==> status == "Completed"
    ensures t == Red <==> status == "Failed"
    ensures t == Blue <==> status == "Initiated"
    ensures t != Yellow
  {
    match status
    case "Completed" => Green
    case "Failed" => Red
    case "Initiated" => Blue
    case _ => Gray
  }

  /** A status gets a colour exactly when it is one of the options, and the options' colours differ. */
  lemma StatusColorsCoverOptions()
    ensures forall s :: StatusColor(s) != Gray <==> s in StatusOptions
    ensures forall a, b :: a in StatusOptions && b in StatusOptions && a != b ==> StatusColor(a) != StatusColor(b)
  {
  }

  const Page: RecordEditor.Schema<Form, RefundRecord, Payload> := RecordEditor.Schema(Blank, Load, (r: RefundRecord) => r.id, Build)
  const Live := false

  /** The page on mount: the `useState` initial values; its gateway calls are commented out, so it is not live. */
  method Mount(today: string) returns (e: RecordEditor.Editor<Form, RefundRecord, Payload>)
    ensures fresh(e) && e.schema == Page && e.live == Live
    ensures e.formData == Blank(today) && e.editingId == None && e.records == [] && !e.loading
  {
    e := new RecordEditor.Editor(Page, Live, today);
  }
}
