/**
 * The fruit master page: its form, payload, edit form, the image it attaches
 * and the Active badge. Its gateway calls are commented out, so its editor is
 * not live.
 */
module FruitMaster {
  import opened Js
  import opened Numbers
  import Fields
  import RecordEditor

  datatype Form = Form(fruitName: string, price: string, description: string, active: bool, imageUrl: string)

  /** A stored fruit; description and image may be null. */
  datatype Fruit = Fruit(id: string, fruitName: string, imageUrl: Option<string>, price: Decimal,
                         description: Option<string>, active: bool)

  /** The row sent to the `fruits` table. */
  datatype Payload = Payload(fruitName: string, price: JsNumber, description: Option<string>, active: bool,
                             imageUrl: Option<string>)

  /** The form on first render and after `resetForm` (the date is not used). */
  function Blank(isoNow: string): (f: Form)
    ensures f.fruitName == "" && f.price == "" && f.description == "" && f.imageUrl == "" && f.active
  {
    Form("", "", "", true, "")
  }

  /** `handleEdit`'s form: nulls become '', the price goes through `toString()`. */
  function Load(fr: Fruit): (f: Form)
    ensures f.fruitName == fr.fruitName && f.active == fr.active
    ensures ParseFloat(f.price) == Num(Value(fr.price))
    ensures f.description == "" <==> fr.description == None || fr.description == Some("")
    ensures f.imageUrl == "" <==> fr.imageUrl == None || fr.imageUrl == Some("")
  {
    ParseShowDecimal(fr.price);
    Form(fr.fruitName, ShowDecimal(fr.price), Fields.OrEmpty(fr.description), fr.active, Fields.OrEmpty(fr.imageUrl))
  }

  /** `fruitData`: empty description and image are stored as null; name and flag are copied. */
  function Build(f: Form, now: nat): (p: Payload)
    ensures p.fruitName == f.fruitName && p.active == f.active && p.price == ParseFloat(f.price)
    ensures p.description == None <==> f.description == ""
    ensures p.imageUrl == None <==> f.imageUrl == ""
    ensures p.description.Some? ==> p.description.value == f.description
    ensures p.imageUrl.Some? ==> p.imageUrl.value == f.imageUrl
  {
    Payload(f.fruitName, ParseFloat(f.price), Fields.OrNull(f.description), f.active, Fields.OrNull(f.imageUrl))
  }

  function Stored(fr: Fruit): Payload
  {
    Payload(fr.fruitName, Num(Value(fr.price)), fr.description, fr.active, fr.imageUrl)
  }

  /** Editing a fruit and saving it unchanged writes back what is stored exactly
    * when neither description nor image is a stored empty string. */
  lemma EditRoundTrip(fr: Fruit, now: nat)
    ensures Build(Load(fr), now) == Stored(fr) <==> fr.description != Some("") && fr.imageUrl != Some("")
  {
    Fields.ColumnRoundTrip(fr.description);
    Fields.ColumnRoundTrip(fr.imageUrl);
  }

  /** The reader's result written into the form (`{...formData, image_url: result}`). */
  function WithImage(f: Form, dataUrl: string): (g: Form)
    ensures g.imageUrl == dataUrl
    ensures g.fruitName == f.fruitName && g.price == f.price && g.description == f.description && g.active == f.active
  {
    f.(imageUrl := dataUrl)
  }

  const Page: RecordEditor.Schema<Form, Fruit, Payload> := RecordEditor.Schema(Blank, Load, (fr: Fruit) => fr.id, Build)
  const Live := false

  /** The page on mount: the `useState` initial values; its gateway calls are commented out, so it is not live. */
  method Mount(today: string) returns (e: RecordEditor.Editor<Form, Fruit, Payload>)
    ensures fresh(e) && e.schema == Page && e.live == Live
    ensures e.formData == Blank(today) && e.editingId == None && e.records == [] && !e.loading
  {
    e := new RecordEditor.Editor(Page, Live, today);
  }
}
