/**
 * The basket master page: its form, payload (an integer quantity and a
 * decimal weight), edit form and the input constraints the form declares.
 * Its gateway calls are commented out, so its editor is not live.
 */
module BasketMaster {
  import opened Js
  import opened Numbers
  import RecordEditor

  datatype Form = Form(basketName: string, quantity: string, weight: string, active: bool)

  datatype Basket = Basket(id: string, basketName: string, quantity: int, weight: Decimal, active: bool)

  datatype Payload = Payload(basketName: string, quantity: JsNumber, weight: JsNumber, active: bool)

  /** The form on first render and after `resetForm`: empty fields, active. */
  function Blank(isoNow: string): (f: Form)
    ensures f.basketName == "" && f.quantity == "" && f.weight == "" && f.active
  {
    Form("", "", "", true)
  }

  /** `handleEdit`'s form: name and flag copied, numbers through `toString()`. */
  function Load(b: Basket): (f: Form)
    ensures f.basketName == b.basketName && f.active == b.active
    ensures ParseIntNumber(f.quantity) == Num(b.quantity as real)
    ensures ParseFloat(f.weight) == Num(Value(b.weight))
  {
    ParseShowInt(b.quantity);
    ParseShowDecimal(b.weight);
    Form(b.basketName, ShowInt(b.quantity), ShowDecimal(b.weight), b.active)
  }

  /** `basketData`: name and flag copied, `parseInt` on the quantity, `parseFloat` on the weight. */
  function Build(f: Form, now: nat): (p: Payload)
    ensures p.basketName == f.basketName && p.active == f.active
    ensures p.quantity == ParseIntNumber(f.quantity) && p.weight == ParseFloat(f.weight)
  {
    Payload(f.basketName, ParseIntNumber(f.quantity), ParseFloat(f.weight), f.active)
  }

  function Stored(b: Basket): Payload
  {
    Payload(b.basketName, Num(b.quantity as real), Num(Value(b.weight)), b.active)
  }

  /** Editing a basket and saving it unchanged always writes back what is stored. */
  lemma EditRoundTrip(b: Basket, now: nat)
    ensures Build(Load(b), now) == Stored(b)
  {
  }

  /**
   * The browser's checks before `onSubmit` runs: a name (`required`), a
   * quantity of at least 1 (`min={1}`) and a weight of at least 0.01
   * (`min={0.01}`); both numbers are required and must read as numbers.
   */
  predicate FormValid(f: Form)
  {
    && f.basketName != ""
    && ParseFloat(f.quantity).Num? && ParseFloat(f.quantity).value >= 1.0
    && ParseFloat(f.weight).Num? && ParseFloat(f.weight).value >= 0.01
  }

  /**
   * A form that passes the browser's checks yields a named payload with a
   * whole quantity of at least 1 and a weight of at least 0.01.
   */
  lemma ValidPayload(f: Form, now: nat)
    requires FormValid(f)
    ensures Build(f, now).basketName != ""
    ensures Build(f, now).quantity.Num? && Build(f, now).quantity.value >= 1.0
    ensures Build(f, now).quantity.value == Build(f, now).quantity.value.Floor as real
    ensures Build(f, now).weight.Num? && Build(f, now).weight.value >= 0.01
  {
    var q := ParseInt(f.quantity);
    assert q.Some? && q.value as real > 0.0;
  }

  /** A stored basket within the constraints loads into a form that passes them. */
  lemma {:induction false} LoadValid(b: Basket)
    requires b.basketName != "" && b.quantity >= 1 && Value(b.weight) >= 0.01
    ensures FormValid(Load(b))
  {
    ParseShowDecimal(b.weight);
    QuantityReadsBack(b.quantity);
  }

  /** A positive quantity's text also reads back through `parseFloat`. */
  lemma QuantityReadsBack(n: int)
    requires n >= 1
    ensures ParseFloat(ShowInt(n)) == Num(n as real)
  {
    var q := ShowInt(n);
    assert q == ShowNat(n);
    ParseWhole(q);
    ParsePositive(q);
  }

  const Page: RecordEditor.Schema<Form, Basket, Payload> := RecordEditor.Schema(Blank, Load, (b: Basket) => b.id, Build)
  const Live := false

  /** The page on mount: the `useState` initial values; its gateway calls are commented out, so it is not live. */
  method Mount(today: string) returns (e: RecordEditor.Editor<Form, Basket, Payload>)
    ensures fresh(e) && e.schema == Page && e.live == Live
    ensures e.formData == Blank(today) && e.editingId == None && e.records == [] && !e.loading
  {
    e := new RecordEditor.Editor(Page, Live, today);
  }
}
