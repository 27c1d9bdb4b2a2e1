/**
 * The conversions between a form's text fields and the nullable columns they
 * are stored in: `s || null` on the way out, `v || ''` and
 * `v?.toString() || ''` on the way back into the form.
 */
module Fields {
  import opened Js
  import opened Numbers

  /** `s || null`: the empty string is stored as null, any other text as itself. */
  function OrNull(s: string): (r: Option<string>)
    ensures r == None <==> s == ""
    ensures r.Some? ==> r.value == s
  {
    if TruthyString(s) then Some(s) else None
  }

  /** `v || ''`: null (and the empty string) become the empty string. */
  function OrEmpty(o: Option<string>): (r: string)
    ensures r == "" <==> o == None || o == Some("")
    ensures o.Some? ==> r == o.value
  {
    if TruthyNullable(o) then o.value else ""
  }

  /** Filling a text field from a column and storing it back keeps the column,
    * except that a stored empty string comes back as null. */
  lemma ColumnRoundTrip(o: Option<string>)
    ensures OrNull(OrEmpty(o)) == o <==> o != Some("")
  {
  }

  /** Storing a text field and loading it back gives the same text. */
  lemma TextRoundTrip(s: string)
    ensures OrEmpty(OrNull(s)) == s
  {
  }

  /** `s ? parseFloat(s) : null`: an empty amount is stored as null, not 0. */
  function AmountPayload(s: string): (r: Option<JsNumber>)
    ensures r == None <==> s == ""
    ensures r.Some? ==> r.value == ParseFloat(s)
  {
    if TruthyString(s) then Some(ParseFloat(s)) else None
  }

  /** `a?.toString() || ''`: a null amount shows as the empty string. */
  function AmountText(a: Option<Decimal>): (r: string)
    ensures r == "" <==> a == None
  {
    match a
    case None => ""
    case Some(d) => var t := ShowDecimal(d); if TruthyString(t) then t else ""
  }

  /** The number a stored amount column holds. */
  function StoredAmount(a: Option<Decimal>): Option<JsNumber>
  {
    match a
    case None => None
    case Some(d) => Some(Num(Value(d)))
  }

  /** Loading an amount into the form and storing it back gives the stored number,
    * null included. */
  lemma AmountRoundTrip(a: Option<Decimal>)
    ensures AmountPayload(AmountText(a)) == StoredAmount(a)
  {
    if a.Some? {
      ParseShowDecimal(a.value);
    }
  }

  /** `amount ? ... : 'N/A'`: the amount shown in a table, None standing for "N/A". */
  function AmountCell(a: Option<Decimal>): (r: Option<real>)
    ensures r == None <==> a == None || Value(a.value) == 0.0
    ensures r.Some? ==> r.value == Value(a.value)
  {
    match a
    case Some(d) => if TruthyNumber(Num(Value(d))) then Some(Value(d)) else None
    case None => None
  }
}
