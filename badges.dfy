/**
 * The coloured pills the tables show. A colour class string
 * (`bg-green-500/20 text-green-700` and so on) is kept as an opaque tone.
 */
module Badges {

  datatype Tone = Green | Red | Blue | Yellow | Gray

  datatype Badge = Badge(caption: string, tone: Tone)

  /** The Active/Inactive pill of the master tables: chosen by the flag alone. */
  function ActiveBadge(active: bool): (b: Badge)
    ensures b.tone == Green <==> active
    ensures b.tone == Gray <==> !active
    ensures b.caption == (if active then "Active" else "Inactive")
  {
    if active then Badge("Active", Green) else Badge("Inactive", Gray)
  }
}
