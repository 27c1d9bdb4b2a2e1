/**
 * The delivery (order status) page: its form, payload, edit form and status
 * colours. Its gateway calls are commented out, so its editor is not live.
 */
module Delivery {
  import opened Js
  import Fields
  import opened Badges
  import RecordEditor

  /** `deliveryStatusOptions`. */
  const StatusOptions: seq<string> := ["Pending", "Dispatched", "Delivered", "Cancelled"]

  datatype Form = Form(deliveryName: string, status: string, remark: string, deliveryAddress: string)

  datatype DeliveryRecord = DeliveryRecord(id: string, deliveryName: string, status: string,
                                           remark: Option<string>, deliveryAddress: Option<string>)

  datatype Payload = Payload(deliveryName: string, status: string, remark: Option<string>, deliveryAddress: Option<string>)

  /** The form on first render and after `resetForm`: all four fields empty. */
  function Blank(isoNow: string): (f: Form)
    ensures f.deliveryName == "" && f.status == "" && f.remark == "" && f.deliveryAddress == ""
  {
    Form("", "", "", "")
  }

  /** `handleEdit`'s form: nulls become ''. */
  function Load(d: DeliveryRecord): (f: Form)
    ensures f.deliveryName == d.deliveryName && f.status == d.status
    ensures f.remark == "" <==> d.remark == None || d.remark == Some("")
    ensures f.deliveryAddress == "" <==> d.deliveryAddress == None || d.deliveryAddress == Some("")
  {
    Form(d.deliveryName, d.status, Fields.OrEmpty(d.remark), Fields.OrEmpty(d.deliveryAddress))
  }

  /** `deliveryData`: empty remark and address are stored as null. */
  function Build(f: Form, now: nat): (p: Payload)
    ensures p.deliveryName == f.deliveryName && p.status == f.status
    ensures p.remark == None <==> f.remark == ""
    ensures p.deliveryAddress == None <==> f.deliveryAddress == ""
    ensures p.remark.Some? ==> p.remark.value == f.remark
    ensures p.deliveryAddress.Some? ==> p.deliveryAddress.value == f.deliveryAddress
  {
    Payload(f.deliveryName, f.status, Fields.OrNull(f.remark), Fields.OrNull(f.deliveryAddress))
  }

  function Stored(d: DeliveryRecord): Payload
  {
    Payload(d.deliveryName, d.status, d.remark, d.deliveryAddress)
  }

  /** Editing a delivery and saving it unchanged writes back what is stored exactly
    * when neither remark nor address is a stored empty string. */
  lemma EditRoundTrip(d: DeliveryRecord, now: nat)
    ensures Build(Load(d), now) == Stored(d) <==> d.remark != Some("") && d.deliveryAddress != Some("")
  {
    Fields.ColumnRoundTrip(d.remark);
    Fields.ColumnRoundTrip(d.deliveryAddress);
  }

  /** `getStatusColor`. */
  function StatusColor(status: string): (t: Tone)
    ensures t == Green <==> status == "Delivered"
    ensures t == Red <==> status == "Cancelled"
    ensures t == Blue <==> status == "Dispatched"
    ensures t == Yellow <==> status == "Pending"
  {
    match status
    case "Delivered" => Green
    case "Cancelled" => Red
    case "Dispatched" => Blue
    case "Pending" => Yellow
    case _ => Gray
  }

  /** A status gets a colour exactly when it is one of the options, and the options' colours differ. */
  lemma StatusColorsCoverOptions()
    ensures forall s :: StatusColor(s) != Gray <==> s in StatusOptions
    ensures forall a, b :: a in StatusOptions && b in StatusOptions && a != b ==> StatusColor(a) != StatusColor(b)
  {
  }

  const Page: RecordEditor.Schema<Form, DeliveryRecord, Payload> := RecordEditor.Schema(Blank, Load, (d: DeliveryRecord) => d.id, Build)
  const Live := false

  /** The page on mount: the `useState` initial values; its gateway calls are commented out, so it is not live. */
  method Mount(today: string) returns (e: RecordEditor.Editor<Form, DeliveryRecord, Payload>)
    ensures fresh(e) && e.schema == Page && e.live == Live
    ensures e.formData == Blank(today) && e.editingId == None && e.records == [] && !e.loading
  {
    e := new RecordEditor.Editor(Page, Live, today);
  }
}
