/**
 * The decoration master page, one of the two pages whose gateway calls are
 * live: its form, payload, edit form and Active badge, and the
 * edit-then-save sequence through the editor.
 */
module DecorationMaster {
  import opened Js
  import opened Numbers
  import RecordEditor

  /** `decorationTypes`, the choices of the type select. */
  const DecorationTypes: seq<string> := ["Ribbon", "Paper Wrap", "Floral", "Custom"]

  datatype Form = Form(decorationName: string, decorationType: string, price: string, active: bool)

  datatype Decoration = Decoration(id: string, decorationName: string, decorationType: string, price: Decimal, active: bool)

  datatype Payload = Payload(decorationName: string, decorationType: string, price: JsNumber, active: bool)

  /** The form on first render and after `resetForm`: empty fields, active. */
  function Blank(isoNow: string): (f: Form)
    ensures f.decorationName == "" && f.decorationType == "" && f.price == "" && f.active
  {
    Form("", "", "", true)
  }

  /** `handleEdit`'s form: name, type and flag copied, the price through `toString()`. */
  function Load(d: Decoration): (f: Form)
    ensures f.decorationName == d.decorationName && f.decorationType == d.decorationType && f.active == d.active
    ensures ParseFloat(f.price) == Num(Value(d.price))
  {
    ParseShowDecimal(d.price);
    Form(d.decorationName, d.decorationType, ShowDecimal(d.price), d.active)
  }

  /** `decorationData`: fields copied, the price parsed (NaN possible). */
  function Build(f: Form, now: nat): (p: Payload)
    ensures p.decorationName == f.decorationName && p.decorationType == f.decorationType && p.active == f.active
    ensures p.price == ParseFloat(f.price)
    ensures f.price == "" ==> p.price == NaN
  {
    Payload(f.decorationName, f.decorationType, ParseFloat(f.price), f.active)
  }

  function Stored(d: Decoration): Payload
  {
    Payload(d.decorationName, d.decorationType, Num(Value(d.price)), d.active)
  }

  /** Editing a decoration and saving it unchanged always writes back what is stored. */
  lemma EditRoundTrip(d: Decoration, now: nat)
    ensures Build(Load(d), now) == Stored(d)
  {
  }

  const Page: RecordEditor.Schema<Form, Decoration, Payload> := RecordEditor.Schema(Blank, Load, (d: Decoration) => d.id, Build)
  const Live := true

  /** The page on mount: the `useState` initial values; its gateway calls are live. */
  method Mount(today: string) returns (e: RecordEditor.Editor<Form, Decoration, Payload>)
    ensures fresh(e) && e.schema == Page && e.live == Live
    ensures e.formData == Blank(today) && e.editingId == None && e.records == [] && !e.loading
  {
    e := new RecordEditor.Editor(Page, Live, today);
  }

  /**
   * Pressing Edit on a decoration with a non-empty id and then Update
   * without touching the form sends one update of its id carrying what is
   * stored; on success the form is blank again and the list refetched, on
   * error the page stays in edit mode on that decoration.
   */
  method EditThenSave(page: RecordEditor.Editor<Form, Decoration, Payload>, d: Decoration, now: nat,
                      succeeded: bool, today: string, refetch: RecordEditor.Fetched<Decoration>)
    returns (sent: Option<RecordEditor.Request<Payload>>)
    requires page.schema == Page && page.live == Live
    requires d.id != ""
    modifies page
    ensures sent == Some(RecordEditor.Update(d.id, Stored(d)))
    ensures succeeded ==> page.formData == Blank(today) && page.editingId == None &&
                          page.records == RecordEditor.Refreshed(old(page.records), refetch)
    ensures !succeeded ==> page.formData == Load(d) && page.editingId == Some(d.id)
  {
    page.Edit(d);
    EditRoundTrip(d, now);
    sent := page.Submit(now, succeeded, today, refetch);
  }
}
