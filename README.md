# Fruitweb in Dafny

A model of Fruitweb, a React single-page back office for a fruit business.
It covers three parts of the app:

- **Record pages.** Fruits, baskets, decorations, purchase orders, sales
  invoices, payments, refunds and deliveries each keep a draft form, an
  `editingId` (null in create mode), the list of records and a `loading`
  flag. Each page turns the form into a payload for its table and loads a
  stored record back into the form.
- **Reports.** The reports page has a dashboard summary and a generic
  report table.
- **Navigation and uploads.** This covers the application shell (its menu
  table, routes, dropdown and mobile-menu state), the navbar (the `#slug`
  link it builds from a menu label, dropdown and mobile-menu state) and the
  image picker.

The layout:

- **Shared modules.**
  - `Js`: JavaScript truthiness, `null` and NaN.
  - `Strings`: `slice(-n)`, `split(c)[0]`, `includes`, `toLowerCase` and
    `replace` on ASCII text.
  - `Numbers`: `toString`, `parseInt` and `parseFloat` on decimal text. It
    proves that reading a number's text gives back the number.
  - `Fields`: the `|| null` and `|| ''` conversions between a text field and
    a nullable column.
  - `Numbering`: the `PREFIX-<last 8 digits of Date.now()>` document numbers.
  - `Badges` and `Dropdown`.
- **The editor.** `RecordEditor` holds the create/edit/delete cycle shared by
  all record pages. It is the class `Editor`, parameterised by a page's
  `Schema`: its blank form, its load function, its id and its payload
  builder.
- **Page modules.** One module per page defines that page's form, payload,
  load and status colours. Each proves an edit round trip: pressing Edit on
  a record and saving it unchanged writes back exactly what is stored. It
  fails in two cases. A stored empty string comes back as null. A blank
  sales invoice or purchase order number comes back as a generated number.
- **Live and dead pages.** Only the payment and decoration pages still call
  their table. The other six have their gateway calls commented out, so
  their editor is not live: it sends nothing and its list never changes.
- **Parameters.** Every outcome of a table call is a parameter of the
  method that makes the call. So are the `confirm()` answer, the clock
  reading `Date.now()` and today's ISO timestamp.

## Model

| member | source | states |
|---|---|---|
| Js.OrZero | src/pages/SalesInvoice.tsx:77 | `x \|\| 0`: NaN and 0 become 0, any other number is kept |
| Strings.SliceLast | src/pages/SalesInvoice.tsx:65 | `slice(-n)` is the last n characters, or the whole string when it is shorter |
| Strings.SplitFirst | src/pages/SalesInvoice.tsx:27 | `split('T')[0]` is the longest prefix without the separator, and it stops at the first separator |
| Strings.UnderscoresToSpaces | src/pages/Reports.tsx:260 | every underscore becomes a space and every other character is kept |
| Strings.Lower | src/components/Navbar.tsx:70 | `toLowerCase` maps each character to its lower case and keeps the length |
| Numbers.ShowNat | src/pages/SalesInvoice.tsx:65 | `toString` of a clock reading is a non-empty digit string whose value is the reading |
| Numbers.Truncate | src/pages/BasketMaster.tsx:49 | the integer part keeps the sign and lies within 1 of the value, on the zero side |
| Numbers.ParseInt | src/pages/BasketMaster.tsx:49 | `parseInt` accepts exactly the text `parseFloat` accepts and gives that value truncated toward zero; '' is NaN |
| Numbers.ParseShowInt | src/pages/BasketMaster.tsx:47-83 | `parseInt(q.toString())` gives back every integer q |
| Numbers.ParseFloat | src/pages/Payment.tsx:59 | `parseFloat('')` is NaN |
| Numbers.ShowDecimal | src/pages/FruitMaster.tsx:84 | `toString` of a stored number is non-empty text that parses to the number with trailing fraction zeros dropped |
| Numbers.ParseShowDecimal | src/pages/FruitMaster.tsx:81-90 | `parseFloat(x.toString())` gives back the value of every stored number x |
| Numbers.Normalize | src/pages/FruitMaster.tsx:84 | `toString` drops trailing fraction zeros without changing the value |
| Fields.OrNull | src/pages/Payment.tsx:58 | `s \|\| null` is null exactly for the empty string, otherwise s |
| Fields.OrEmpty | src/pages/Payment.tsx:86 | `v \|\| ''` is empty exactly for null or the empty string, otherwise v |
| Fields.ColumnRoundTrip | src/pages/Payment.tsx:55-90 | loading a nullable column and storing it back keeps it, except exactly when it was a stored empty string |
| Fields.TextRoundTrip | src/pages/Payment.tsx:55-90 | storing a text field and loading it back keeps the text |
| Fields.AmountPayload | src/pages/Payment.tsx:59 | an empty amount is stored as null and never as 0; typed text is parsed |
| Fields.AmountText | src/pages/Payment.tsx:87 | `amount?.toString() \|\| ''` is empty exactly for a null amount, 0 included |
| Fields.AmountRoundTrip | src/pages/Refund.tsx:54-89 | loading an amount and storing it back gives the stored number, null included |
| Fields.AmountCell | src/pages/Payment.tsx:255 | the table shows "N/A" exactly for a null or zero amount, otherwise the amount |
| Numbering.GenerateNumber | src/pages/SalesInvoice.tsx:63-67 | a generated number starts with the prefix and a dash, followed by 1 to 8 characters |
| Numbering.GeneratedFormat | src/pages/PurchaseOrder.tsx:66-70 | from clock 10^7 on, the number is the prefix, a dash and exactly 8 digits: the clock modulo 10^8 |
| Numbering.GeneratedDistinct | src/pages/SalesInvoice.tsx:63-67 | two readings less than 10^8 ms apart give different numbers |
| Numbering.GeneratedWraps | src/pages/SalesInvoice.tsx:63-67 | readings exactly 10^8 ms apart give the same number, so numbers are not unique |
| Numbering.ModDistinct | src/pages/SalesInvoice.tsx:65 | two clocks less than one period apart have different residues |
| Badges.ActiveBadge | src/pages/FruitMaster.tsx:276-284 | the pill is green "Active" exactly for an active row, gray "Inactive" otherwise |
| Dropdown.Toggle | src/App.tsx:65-67 | a click closes the clicked menu exactly when it was the open one, otherwise opens only it |
| Dropdown.ToggleTwice | src/components/Navbar.tsx:36-38 | two clicks on one menu restore the state exactly when that menu or none was open |
| Dropdown.ToggleOpensOnlyClicked | src/App.tsx:65-67 | a click never opens a menu other than the clicked one |
| FileUpload.TooLarge | src/components/common/FileUpload.tsx:40 | a file is too large exactly when maxSize is not 0 and the size exceeds it; a file of exactly maxSize passes |
| FileUpload.MegabytesFixed1 | src/components/common/FileUpload.tsx:41 | `(maxSize / 1048576).toFixed(1)` is digits, a point and one digit, and reads as the megabytes rounded to the nearest tenth, a tie rounding up |
| FileUpload.SizeError | src/components/common/FileUpload.tsx:41 | the oversize message is never empty |
| FileUpload.DefaultSizeError | src/components/common/FileUpload.tsx:24-41 | with the default limit the message is "File size must be less than 2.0MB" |
| FileUpload.Upload.constructor | src/components/common/FileUpload.tsx:27-28 | the preview starts as `preview \|\| null` and the error starts empty |
| FileUpload.Upload.HandleFileChange | src/components/common/FileUpload.tsx:30-52 | no file reports null and clears the preview; an oversized file reports null with the size error; any other file is reported with no error |
| FileUpload.Upload.ReaderLoaded | src/components/common/FileUpload.tsx:47-49 | the data URL becomes the preview |
| FileUpload.Upload.HandleRemove | src/components/common/FileUpload.tsx:54-58 | no preview, no error, and null is reported |
| RecordEditor.Refreshed | src/pages/Payment.tsx:46-48 | rows are replaced only by a successful select with data |
| RecordEditor.SubmitRequest | src/pages/Payment.tsx:62-79 | an update keyed by the id exactly when `editingId` is truthy, otherwise an insert of the payload |
| RecordEditor.Editor.constructor | src/pages/Payment.tsx:25-33 | blank form, create mode, no rows, not loading |
| RecordEditor.Editor.Fetch | src/pages/Payment.tsx:39-50 | a live page takes the refreshed rows and a dead page keeps its rows; loading ends false; form and mode are untouched |
| RecordEditor.Editor.Edit | src/pages/Payment.tsx:82-90 | the form holds the record's load and the mode is edit for its id; nothing else changes |
| RecordEditor.Editor.Reset | src/pages/FruitMaster.tsx:101-111 | blank form for today, create mode, no image; rows untouched |
| RecordEditor.Editor.Submit | src/pages/Payment.tsx:52-80 | a live page sends exactly one request built from the form: an update or an insert. Success resets and refetches; failure changes nothing. A dead page sends nothing and changes nothing |
| RecordEditor.Editor.Delete | src/pages/Payment.tsx:92-99 | sends one delete only when live and confirmed, and refetches only when it succeeded; form and mode are untouched |
| RecordEditor.Editor.AttachImage | src/pages/FruitMaster.tsx:145-157 | the picked file is kept, and only a real file writes its data URL into the form |
| SalesInvoice.Mount | src/pages/SalesInvoice.tsx:20-32 | an editor whose gateway calls are off: blank form, create mode, no rows, not loading |
| SalesInvoice.Blank | src/pages/SalesInvoice.tsx:122-132 | empty fields, active, and the date is exactly the part of the ISO timestamp before the first 'T' |
| SalesInvoice.Load | src/pages/SalesInvoice.tsx:101-111 | text copied; price and GST text parse back to the stored values |
| SalesInvoice.Build | src/pages/SalesInvoice.tsx:72-79 | the number is never blank: the typed one, or a generated one when blank. GST that is NaN or 0 becomes 0 |
| SalesInvoice.EditRoundTrip | src/pages/SalesInvoice.tsx:72-111 | edit then save writes back the stored invoice exactly when its number is not blank |
| SalesInvoice.CalculateTotal | src/pages/SalesInvoice.tsx:134-136 | GST 0 gives the price, and GST in [0,100] keeps the total between the price and twice it |
| SalesInvoice.TaxBounds | src/pages/SalesInvoice.tsx:134-136 | the tax amount lies between 0 and the price times 100 |
| SalesInvoice.Preview | src/pages/SalesInvoice.tsx:210-218 | the total preview is shown exactly while a price is typed |
| SalesInvoice.PreviewMatchesRow | src/pages/SalesInvoice.tsx:210-218 | after Edit, the form's preview equals the row's Total column |
| PurchaseOrder.Mount | src/pages/PurchaseOrder.tsx:22-35 | an editor whose gateway calls are off: blank form, create mode, no rows, not loading |
| PurchaseOrder.Blank | src/pages/PurchaseOrder.tsx:127-138 | empty fields, active, and the date is exactly the part of the ISO timestamp before the first 'T' |
| PurchaseOrder.Load | src/pages/PurchaseOrder.tsx:105-116 | a null supplier becomes ''; the numbers parse back to the stored values |
| PurchaseOrder.Build | src/pages/PurchaseOrder.tsx:75-83 | the number is never blank; GST that is NaN or 0 becomes 0; an empty supplier is stored as null |
| PurchaseOrder.EditRoundTrip | src/pages/PurchaseOrder.tsx:75-116 | edit then save writes back the stored order exactly when the number is not blank and the supplier is not a stored '' |
| FruitMaster.Mount | src/pages/FruitMaster.tsx:19-30 | an editor whose gateway calls are off: blank form, create mode, no rows, not loading |
| FruitMaster.Blank | src/pages/FruitMaster.tsx:101-111 | empty fields, active |
| FruitMaster.Load | src/pages/FruitMaster.tsx:81-90 | nulls become ''; the price parses back to the stored value |
| FruitMaster.Build | src/pages/FruitMaster.tsx:52-58 | an empty description or image is stored as null; the price is parsed |
| FruitMaster.EditRoundTrip | src/pages/FruitMaster.tsx:52-90 | edit then save writes back the stored fruit exactly when neither description nor image is a stored '' |
| FruitMaster.WithImage | src/pages/FruitMaster.tsx:149-154 | only the image field changes |
| Delivery.Mount | src/pages/Delivery.tsx:23-32 | an editor whose gateway calls are off: blank form, create mode, no rows, not loading |
| Delivery.Blank | src/pages/Delivery.tsx:100-108 | all four fields empty |
| Delivery.Load | src/pages/Delivery.tsx:81-89 | a remark or address is empty in the form exactly when it is null or '' |
| Delivery.Build | src/pages/Delivery.tsx:54-59 | an empty remark or address is stored as null, otherwise as typed |
| Delivery.EditRoundTrip | src/pages/Delivery.tsx:54-89 | edit then save writes back the stored delivery exactly when neither remark nor address is a stored '' |
| Delivery.StatusColor | src/pages/Delivery.tsx:110-123 | each of the four statuses has its own colour |
| Delivery.StatusColorsCoverOptions | src/pages/Delivery.tsx:16-21 | a status is coloured exactly when it is one of the options, and no two options share a colour |
| Refund.Mount | src/pages/Refund.tsx:23-32 | an editor whose gateway calls are off: blank form, create mode, no rows, not loading |
| Refund.Blank | src/pages/Refund.tsx:100-108 | all fields empty |
| Refund.Load | src/pages/Refund.tsx:81-89 | a null remark or amount becomes ''; a non-empty remark is copied |
| Refund.Build | src/pages/Refund.tsx:54-59 | an empty remark or amount is stored as null; a typed amount is parsed |
| Refund.EditRoundTrip | src/pages/Refund.tsx:54-89 | edit then save writes back the stored refund exactly when its remark is not a stored '' |
| Refund.StatusColor | src/pages/Refund.tsx:110-121 | Completed is green, Failed red, Initiated blue, and nothing is yellow |
| Refund.StatusColorsCoverOptions | src/pages/Refund.tsx:17-21 | a status is coloured exactly when it is one of the options, and no two options share a colour |
| Payment.Mount | src/pages/Payment.tsx:24-33 | an editor with live gateway calls: blank form, create mode, no rows, not loading |
| Payment.Blank | src/pages/Payment.tsx:101-109 | all fields empty |
| Payment.Load | src/pages/Payment.tsx:82-90 | a null remark or amount becomes ''; a non-empty remark is copied |
| Payment.Build | src/pages/Payment.tsx:55-60 | an empty remark or amount is stored as null; a typed amount is parsed |
| Payment.EditRoundTrip | src/pages/Payment.tsx:55-90 | edit then save writes back the stored payment exactly when its remark is not a stored '' |
| Payment.StatusColor | src/pages/Payment.tsx:111-122 | Success is green, Failure red, Declined yellow, and nothing is blue |
| Payment.StatusColorsCoverOptions | src/pages/Payment.tsx:18-22 | a status is coloured exactly when it is one of the options, and no two options share a colour |
| Payment.EditThenSave | src/pages/Payment.tsx:52-90 | Edit then Update sends one update of that id carrying the stored payment. Success leaves a blank form and the refetched list; failure stays in edit mode |
| DecorationMaster.Mount | src/pages/DecorationMaster.tsx:24-33 | an editor with live gateway calls: blank form, create mode, no rows, not loading |
| DecorationMaster.Blank | src/pages/DecorationMaster.tsx:101-109 | empty fields, active |
| DecorationMaster.Load | src/pages/DecorationMaster.tsx:82-90 | the price parses back to the stored value |
| DecorationMaster.Build | src/pages/DecorationMaster.tsx:55-60 | fields copied and the price parsed; an empty price gives NaN |
| DecorationMaster.EditRoundTrip | src/pages/DecorationMaster.tsx:55-90 | edit then save always writes back the stored decoration |
| DecorationMaster.EditThenSave | src/pages/DecorationMaster.tsx:52-90 | Edit then Update sends one update of that id carrying the stored decoration. Success leaves a blank form and the refetched list; failure stays in edit mode |
| BasketMaster.Mount | src/pages/BasketMaster.tsx:16-25 | an editor whose gateway calls are off: blank form, create mode, no rows, not loading |
| BasketMaster.Blank | src/pages/BasketMaster.tsx:94-102 | empty fields, active |
| BasketMaster.Load | src/pages/BasketMaster.tsx:75-83 | quantity and weight text parse back to the stored numbers |
| BasketMaster.Build | src/pages/BasketMaster.tsx:47-52 | name and flag copied; the quantity is `parseInt` of its text and the weight `parseFloat` of its text |
| BasketMaster.EditRoundTrip | src/pages/BasketMaster.tsx:47-83 | edit then save always writes back the stored basket |
| BasketMaster.ValidPayload | src/pages/BasketMaster.tsx:124-155 | a form the browser accepts yields a named payload, a whole quantity of at least 1 and a weight of at least 0.01 |
| BasketMaster.LoadValid | src/pages/BasketMaster.tsx:124-155 | a stored basket within the constraints loads into a form the browser accepts |
| Reports.LineTotalIsInvoiceTotal | src/pages/Reports.tsx:39-45 | each invoice adds exactly the Total its sales invoice row shows |
| Reports.Revenue | src/pages/Reports.tsx:41-44 | no rows give 0, and rows with valid prices and GST never give a negative revenue |
| Reports.RevenueAppend | src/pages/Reports.tsx:39-45 | revenue is additive over a split of the rows |
| Reports.RevenueBounds | src/pages/Reports.tsx:39-45 | with valid prices and GST, revenue lies between the price sum and twice it |
| Reports.CountStatus | src/pages/Reports.tsx:47-50 | a count never exceeds the number of rows |
| Reports.CountStatusZero | src/pages/Reports.tsx:47-50 | the count is 0 exactly when no row has the wanted status |
| Reports.CountStatusAll | src/pages/Reports.tsx:47-50 | the count is the row count exactly when every row has the status |
| Reports.CountOrZero | src/pages/Reports.tsx:47-54 | `length \|\| 0` is the length, or 0 without data |
| Reports.ComputeSummary | src/pages/Reports.tsx:32-58 | revenue and orders come from the sales data, and the counts match status exactly; absent data gives 0 |
| Reports.ReportsPage.constructor | src/pages/Reports.tsx:13-18 | the summary starts all zero |
| Reports.ReportsPage.FetchSummary | src/pages/Reports.tsx:32-58 | the summary becomes the computed one |
| Strings.Contains | src/pages/Reports.tsx:251-253 | `includes` holds exactly when the text occurs at some position |
| Reports.ShownEntries | src/pages/Reports.tsx:271-277 | an entry is kept exactly when its key mentions none of "id", "created_at", "updated_at" |
| Reports.ShownEntriesAppend | src/pages/Reports.tsx:271-277 | the filter keeps the entries' order: filtering two parts in turn is filtering their concatenation |
| Reports.ShownEntry | src/pages/Reports.tsx:271-277 | one entry is kept exactly when its key is shown |
| Reports.Keys | src/pages/Reports.tsx:248 | the i-th key is the i-th entry's key |
| Reports.HeaderLabel | src/pages/Reports.tsx:260 | a header keeps the key's length; each underscore becomes a space and every other character is kept in place |
| Reports.FormatCell | src/pages/Reports.tsx:280-286 | objects show JSON, booleans Yes/No, falsy values "-", others their text; non-object cells are never empty |
| Reports.Cells | src/pages/Reports.tsx:271-287 | one cell per shown entry, each formatting that entry's value |
| Reports.SameKeysSameColumns | src/pages/Reports.tsx:248-254 | rows with the same keys show the same columns |
| Reports.CellsAlignWithHeader | src/pages/Reports.tsx:246-287 | each row with the first row's keys has one cell per header column, in the same order; no shown column mentions "id" |
| App.Match | src/App.tsx:179-190 | the route table gives a page exactly when some route has exactly that path, and it is that route's page |
| App.MenuMatchesRoutes | src/App.tsx:27-58 | the menu's paths are exactly the routes other than "/" in order, every menu entry renders a page, and "/" is Home |
| App.Navigation.constructor | src/App.tsx:61-62 | mobile menu closed and no dropdown open |
| App.Navigation.ToggleDropdown | src/App.tsx:65-67 | the dropdown follows the toggle rule; nothing else changes |
| App.Navigation.HandleNavigation | src/App.tsx:69-74 | at the path, mobile menu closed, no dropdown open |
| App.Navigation.ToggleMobileMenu | src/App.tsx:91 | the mobile menu flips; nothing else changes |
| Navbar.DropSpaces | src/components/Navbar.tsx:70 | the suffix left after the whole leading whitespace run: every dropped character is whitespace and the rest does not start with one |
| Navbar.Hyphenate | src/components/Navbar.tsx:70 | `replace(/\s+/g, '-')` leaves no whitespace, adds no capitals, never lengthens and is empty only for empty text |
| Navbar.LeadingRun | src/components/Navbar.tsx:70 | a leading whitespace run becomes one '-' |
| Navbar.HyphenateRun | src/components/Navbar.tsx:70 | a whitespace run after a whitespace-free prefix becomes one '-' and the prefix is kept |
| Navbar.HyphenateIdentity | src/components/Navbar.tsx:70 | text without whitespace is unchanged |
| Navbar.HyphenateAppend | src/components/Navbar.tsx:70 | a whitespace-free prefix passes through unchanged |
| Navbar.Slug | src/components/Navbar.tsx:107 | a link is '#' followed by text without whitespace or capitals |
| Navbar.SlugOneWord | src/components/Navbar.tsx:70 | a label without whitespace links to '#' and the lower-cased label |
| Navbar.SlugRun | src/components/Navbar.tsx:70 | a label with a whitespace run after its first word links to the lower-cased word, one '-' and the slug of the rest |
| Navbar.SlugIdempotent | src/components/Navbar.tsx:70 | slugging a slug's text gives the same slug |
| Navbar.SlugOfTwoWords | src/components/Navbar.tsx:70 | "Purchase Order" style labels become the lower-cased words joined by '-' |
| Navbar.NavbarState.constructor | src/components/Navbar.tsx:33-34 | mobile menu closed and no dropdown open |
| Navbar.NavbarState.ToggleDropdown | src/components/Navbar.tsx:36-38 | the dropdown follows the toggle rule; the mobile menu is untouched |
| Navbar.NavbarState.ToggleMobileMenu | src/components/Navbar.tsx:46 | the mobile menu flips |
| Navbar.NavbarState.MobileLinkClicked | src/components/Navbar.tsx:109 | following a mobile link closes the mobile menu |

## Left out

- Supabase is not modelled. Each select, insert, update and delete is a
  parameter (its success, or the rows it returns).
- The un-awaited `fetchX()` after a write is modelled as completing before
  the next event.
- `loading` is observed only between events, and React's batching of
  state updates is not modelled.
- `FileReader` is asynchronous. `ReaderLoaded` and the `dataUrl` argument of
  `AttachImage` stand for its `onloadend`.
- RecordEditor.Editor.AttachImage: the fruit page's `onloadend` spreads the
  `formData` captured when the file was picked. Edits typed between picking
  and loading are lost in the source; the model applies the image to the
  current form.
- RecordEditor.Editor.Reset: only the fruit page has an `imageFile`. The
  shared `Reset` clears the editor's image slot on every page, and that slot
  is `None` on every other page.
- Numbers are not IEEE doubles. A stored number is an exact decimal, and
  `price + price * gst / 100` is exact real arithmetic.
- Numbers.ParseFloat: `parseFloat` accepts only well-formed
  `-?digits(.digits)?`; anything else is NaN. The source's partial parses
  ("12abc" reads as 12) are not modelled, and neither are exponent notation,
  Infinity or leading whitespace.
- Numbers.ParseInt: `parseInt` is modelled on the same well-formed text and
  keeps the digits before the point ("1.5" reads as 1). Its partial parses
  ("12abc", "1e3" reading as 12 and 1) are not modelled.
- Numbers.ShowDecimal: `toString` is rendered in plain notation. Exponent
  notation for very large or very small values is not modelled.
- `toFixed(2)` on money columns and `toLocaleDateString` are not modelled.
  The shown values are the numbers before formatting. `toFixed(1)` in the
  upload size message is modelled.
- Text is ASCII. `toLowerCase` and `\s` cover ASCII only, with no Unicode
  case mapping or Unicode whitespace.
- The `step` attribute and the browser's other constraint checks are not
  modelled. Only `required` and `min` on the basket form are covered.
- Per-field `onChange` setters (`setFormData({...formData, x: value})`)
  are plain field updates and are not modelled one by one.
- Navigation is recorded as the current path. `useNavigate`,
  `window.scrollTo` and the router's rendering are outside the model.
- App.Match: an exact, case-sensitive lookup in the route table. The
  router's own matching also accepts other spellings of a path (letter case,
  a trailing slash), and that is not modelled.
- Reports.tsx does not parse as written. `fetchReportData` closes early,
  followed by a stray `};`, and the file never imports `supabase`. The model
  covers the evident intent of `fetchSummary` and of the table rendering.
  `fetchReportData` and `handleExport` (CSV/Excel download) are left out.
- Presentation-only components are outside the core: Home, Header, Footer,
  HeroSection, Services, Contact and the form input wrappers other than
  FileUpload. CSS classes such as `capitalize` are left out too; colour
  classes are kept as a `Tone`.
- The navbar's menu table (src/components/Navbar.tsx:9-30) is data only and
  is not modelled. Its link rule is proved for any label: `Slug`, `SlugRun`
  and `SlugOfTwoWords`.
- `accept` filtering of file types is left to the browser and is not
  modelled.
