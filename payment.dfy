/**
 * The payment page, one of the two pages whose gateway calls are live: its
 * form, payload, edit form, status colours and amount column, and the
 * edit-then-save sequence through the editor.
 */
module Payment {
  import opened Js
  import opened Numbers
  import Fields
  import opened Badges
  import RecordEditor

  /** `statusOptions`. */
  const StatusOptions: seq<string> := ["Success", "Failure", "Declined"]

  datatype Form = Form(customerName: string, status: string, remark: string, amount: string)

  /** A stored payment; remark and amount may be null. */
  datatype PaymentRecord = PaymentRecord(id: string, customerName: string, status: string,
                                         remark: Option<string>, amount: Option<Decimal>)

  datatype Payload = Payload(customerName: string, status: string, remark: Option<string>, amount: Option<JsNumber>)

  /** The form on first render and after `resetForm`: all fields empty. */
  function Blank(isoNow: string): (f: Form)
    ensures f.customerName == "" && f.status == "" && f.remark == "" && f.amount == ""
  {
    Form("", "", "", "")
  }

  /** `handleEdit`'s form: null remark and amount become ''. */
  function Load(p: PaymentRecord): (f: Form)
    ensures f.customerName == p.customerName && f.status == p.status
    ensures f.remark == "" <==> p.remark == None || p.remark == Some("")
    ensures p.remark.Some? && p.remark.value != "" ==> f.remark == p.remark.value
    ensures f.amount == "" <==> p.amount == None
  {
    Form(p.customerName, p.status, Fields.OrEmpty(p.remark), Fields.AmountText(p.amount))
  }

  /** `paymentData`: an empty remark or amount is stored as null (not 0), a typed amount is parsed. */
  function Build(f: Form, now: nat): (p: Payload)
    ensures p.customerName == f.customerName && p.status == f.status
    ensures p.remark == None <==> f.remark == ""
    ensures p.amount == None <==> f.amount == ""
    ensures p.amount.Some? ==> p.amount.value == ParseFloat(f.amount)
  {
    Payload(f.customerName, f.status, Fields.OrNull(f.remark), Fields.AmountPayload(f.amount))
  }

  function Stored(p: PaymentRecord): Payload
  {
    Payload(p.customerName, p.status, p.remark, Fields.StoredAmount(p.amount))
  }

  /** Editing a payment and saving it unchanged writes back what is stored exactly
    * when its remark is not a stored empty string. */
  lemma EditRoundTrip(p: PaymentRecord, now: nat)
    ensures Build(Load(p), now) == Stored(p) <==> p.remark != Some("")
  {
    Fields.ColumnRoundTrip(p.remark);
    Fields.AmountRoundTrip(p.amount);
  }

  /** `getStatusColor`. */
  function StatusColor(status: string): (t: Tone)
    ensures t == Green <==> status == "Success"
    ensures t == Red <==> status == "Failure"
    ensures t == Yellow <==> status == "Declined"
    ensures t != Blue
  {
    match status
    case "Success" => Green
    case "Failure" => Red
    case "Declined" => Yellow
    case _ => Gray
  }

  /** A status gets a colour exactly when it is one of the options, and the options' colours differ. */
  lemma StatusColorsCoverOptions()
    ensures forall s :: StatusColor(s) != Gray <==> s in StatusOptions
    ensures forall a, b :: a in StatusOptions && b in StatusOptions && a != b ==> StatusColor(a) != StatusColor(b)
  {
  }

  const Page: RecordEditor.Schema<Form, PaymentRecord, Payload> := RecordEditor.Schema(Blank, Load, (p: PaymentRecord) => p.id, Build)
  const Live := true

  /** The page on mount: the `useState` initial values; its gateway calls are live. */
  method Mount(today: string) returns (e: RecordEditor.Editor<Form, PaymentRecord, Payload>)
    ensures fresh(e) && e.schema == Page && e.live == Live
    ensures e.formData == Blank(today) && e.editingId == None && e.records == [] && !e.loading
  {
    e := new RecordEditor.Editor(Page, Live, today);
  }

  /**
   * Pressing Edit on a payment and then Update without touching the form
   * sends one update of that payment's id carrying what is stored (for a
   * non-empty id and a remark that is not a stored empty string); on success
   * the form is blank again and the list is the refetched one.
   */
  method EditThenSave(page: RecordEditor.Editor<Form, PaymentRecord, Payload>, p: PaymentRecord, now: nat,
                      succeeded: bool, today: string, refetch: RecordEditor.Fetched<PaymentRecord>)
    returns (sent: Option<RecordEditor.Request<Payload>>)
    requires page.schema == Page && page.live == Live
    requires p.id != "" && p.remark != Some("")
    modifies page
    ensures sent == Some(RecordEditor.Update(p.id, Stored(p)))
    ensures succeeded ==> page.formData == Blank(today) && page.editingId == None &&
                          page.records == RecordEditor.Refreshed(old(page.records), refetch)
    ensures !succeeded ==> page.formData == Load(p) && page.editingId == Some(p.id)
  {
    page.Edit(p);
    EditRoundTrip(p, now);
    sent := page.Submit(now, succeeded, today, refetch);
  }
}
