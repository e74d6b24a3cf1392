# Invoice editor: the invoice record and its handlers

This project models the record logic of a single-page invoice editor (`src/InvoiceTemplate.jsx`).
The editor holds one invoice record: an issue date, a recipient, sender, bank and account
sub-records, and an ordered list of line items. It also holds two visibility flags: one for the
registration number and tax-rate column, one for the email row. Every event handler builds a new
record from the old one with object spread. This model states each handler as a pure Dafny
function from the old record to the new one.

The invoice total is never stored. It is recomputed on every render as
`reduce((acc, item) => acc + (Number(item.price) || 0) * (Number(item.quantity) || 0), 0)`.

Modules, one per concern of the component:

- `Coercion` (`coercion.dfy`): a quantity or price as stored in the record, `Num(n)` or the raw
  input text `Text(s)`, and `Coerce`, the model of `Number(x) || 0`.
- `InvoiceRecord` (`record.dfy`): the record datatypes, `DEFAULT_DATA`, and the single-field
  updates `{ ...sub, [field]: value }`. Each update has a getter, so "exactly one field changes" is
  stated field by field.
- `Totals` (`totals.dfy`): the left fold that mirrors `reduce` (`Reduce`), a reference sum (`Sum`),
  and how the sum behaves under concatenation and replacement.
- `LineItems` (`items.dfy`): `addItem`, `removeItem` and `handleItemChange` on the item list,
  with id freshness, order, frame and total lemmas.
- `InvoiceEditor` (`editor.dfy`): the handlers on the whole record, the editor state with its two
  flags, `handleReset`, and an event fold. The fold comes with the invariant that every reachable
  record has at least one row and pairwise distinct ids.

Three facts about the code shape the model:

- A confirmed reset sets both visibility flags to `true` (`src/InvoiceTemplate.jsx:76-77`).
- Saved data is read with an unguarded `JSON.parse` (`src/InvoiceTemplate.jsx:46, 51, 56`), so
  the code has no recovery for unreadable saved data. Loading saved data is not part of this model.
- `removeItem` filters out every row with the id (`src/InvoiceTemplate.jsx:113`), so it can empty a
  list whose ids repeat. The model proves that ids stay distinct in every state reachable from
  the default record (`RunKeepsWellFormed`), so in those states the list never empties.

Amounts are integers (yen). JavaScript numbers are doubles; the model's unbounded integers agree
with them while every coerced price and quantity is finite and every product and partial sum is
less than 2^53 in magnitude.

## Model

| member | source | states |
|---|---|---|
| `Coercion.Coerce` | src/InvoiceTemplate.jsx:86-87 | A number counts as itself. Empty or non-numeric text counts as 0. Integer text counts as a value of its sign; the value itself is given by the lemmas below. |
| `Coercion.CoerceDigits` | src/InvoiceTemplate.jsx:86-87 | Unsigned digit text counts as its positional decimal value. |
| `Coercion.CoerceSigned` | src/InvoiceTemplate.jsx:86-87 | A leading `+` leaves the value of digit text unchanged and a leading `-` negates it, so "-0" counts as 0. |
| `Coercion.DigitsLeadingZero` | src/InvoiceTemplate.jsx:86-87 | A leading zero digit does not change the value of a digit string. |
| `Coercion.CoerceLeadingZeros` | src/InvoiceTemplate.jsx:86-87 | Any number of leading zeros ("007") leaves the coerced value unchanged. With `CoerceDecimalText` and `CoerceSigned` this covers every integer text. |
| `Coercion.CoerceDecimalText` | src/InvoiceTemplate.jsx:86-87 | Round trip: the decimal text of any integer, stored raw by the quantity or price input, coerces back to that integer. |
| `Coercion.CoerceBlank` | src/InvoiceTemplate.jsx:86-87 | A cleared input (`""`) and the numeric default 0 both count as 0. |
| `Coercion.NatTextValue` | src/InvoiceTemplate.jsx:86-87 | Parsing the digits of a natural number gives that number back. |
| `InvoiceRecord.DefaultData` | src/InvoiceTemplate.jsx:12-38 | The default record has four rows with ids 1 to 4, which are distinct, so the record is well formed. |
| `InvoiceRecord.ItemSet` | src/InvoiceTemplate.jsx:103 | `{ ...item, [field]: value }` keeps the id. The named field becomes the raw text. Every other field is unchanged. |
| `InvoiceRecord.ItemExtensional` | src/InvoiceTemplate.jsx:103 | A row is determined by its id and its five fields, so `ItemSet`'s contract fixes its result. |
| `InvoiceRecord.SenderSet` | src/InvoiceTemplate.jsx:93 | `{ ...sender, [field]: value }` sets the named field and keeps the other sender fields. |
| `InvoiceRecord.BankSet` | src/InvoiceTemplate.jsx:96 | `{ ...bankInfo, [field]: value }` sets the named field and keeps the other bank fields. |
| `InvoiceRecord.AccountSet` | src/InvoiceTemplate.jsx:99 | `{ ...accountInfo, [field]: value }` sets the named field and keeps the other account fields. |
| `Totals.Amount` | src/InvoiceTemplate.jsx:86-88 | Carries no contract of its own: one row's contribution, coerced price × coerced quantity. `SumReplace`, `AddRowKeepsTotal` and `ChangeTextKeepsTotal` state how it moves the total. |
| `Totals.Reduce` | src/InvoiceTemplate.jsx:85-89 | Carries no contract of its own: the `reduce` callback applied left to right from an accumulator. `ReduceIsSum` gives its value. |
| `Totals.CalculatedTotal` | src/InvoiceTemplate.jsx:85-89 | The left-to-right `reduce` from 0 equals the reference sum of coerced price × quantity over all rows. |
| `Totals.ReduceIsSum` | src/InvoiceTemplate.jsx:85-89 | The fold started from any accumulator equals that accumulator plus the reference sum. |
| `Totals.SumAppend` | src/InvoiceTemplate.jsx:85-89 | The total of two concatenated row lists is the sum of their totals. |
| `Totals.SumReplace` | src/InvoiceTemplate.jsx:85-89 | Replacing one row changes the total by the new row's amount minus the old row's. |
| `Totals.SumPointwise` | src/InvoiceTemplate.jsx:85-89 | Lists whose rows have the same amounts, row by row, have the same total. |
| `Totals.DefaultTotal` | src/InvoiceTemplate.jsx:27-32 | The default rows (1 × 3000 and three empty rows) total 3000. |
| `Totals.ExampleTotal` | src/InvoiceTemplate.jsx:85-89 | Rows 2 × 1000 and "3" × "500" plus an empty row total 3500. |
| `LineItems.MaxId` | src/InvoiceTemplate.jsx:108 | `Math.max(...ids, 0)` is at least 0 and at least every id. It is 0 or one of the ids. |
| `LineItems.NextId` | src/InvoiceTemplate.jsx:108 | The new id is exactly `MaxId + 1`, that is `Math.max(...ids, 0) + 1`. It is at least 1, is 1 for an empty list, and is strictly greater than every existing id. |
| `LineItems.AddRow` | src/InvoiceTemplate.jsx:107-110 | Exactly one row is appended at the end. The earlier rows are unchanged. The new row is empty and carries the fresh id. |
| `LineItems.WithoutId` | src/InvoiceTemplate.jsx:113 | After `filter` no remaining row carries the id, and the list is never longer. |
| `LineItems.WithoutIdMembers` | src/InvoiceTemplate.jsx:113 | A row remains after `filter` if and only if it was in the list and its id differs. |
| `LineItems.RemoveRow` | src/InvoiceTemplate.jsx:111-114 | With one row or fewer the list is returned as is. Otherwise the rows with that id are filtered out. |
| `LineItems.ChangeRows` | src/InvoiceTemplate.jsx:101-106 | `map` keeps the length. Each row with the id becomes `ItemSet` of itself. Every other row is unchanged. |
| `LineItems.AddRowKeepsDistinct` | src/InvoiceTemplate.jsx:108 | If the ids are pairwise distinct, they stay pairwise distinct after `addItem`. |
| `LineItems.AddRowKeepsTotal` | src/InvoiceTemplate.jsx:109 | The new row has quantity 0 and price 0, so the total is unchanged. |
| `LineItems.WithoutIdConcat` | src/InvoiceTemplate.jsx:113 | Filtering distributes over concatenation, so the kept rows stay in their original order. |
| `LineItems.WithoutAbsentId` | src/InvoiceTemplate.jsx:113 | Removing an id that no row carries leaves the list equal to itself. |
| `LineItems.WithoutIdAt` | src/InvoiceTemplate.jsx:113 | With distinct ids, removing row k's id yields exactly the list without row k. |
| `LineItems.DropKeepsDistinct` | src/InvoiceTemplate.jsx:113 | Dropping one row keeps the ids distinct. |
| `LineItems.RemoveRowKeepsWellFormed` | src/InvoiceTemplate.jsx:111-114 | With distinct ids, `removeItem` removes at most one row. The list stays non-empty and its ids stay distinct. |
| `LineItems.RemoveRowTotal` | src/InvoiceTemplate.jsx:111-114 | With distinct ids and two or more rows, removing row k lowers the total by exactly that row's amount. |
| `LineItems.ChangeRowsKeepsIds` | src/InvoiceTemplate.jsx:101-106 | Editing keeps the length and every row's id, in order, and so keeps the ids distinct. |
| `LineItems.ChangeTextKeepsTotal` | src/InvoiceTemplate.jsx:101-106 | Editing a date, description or unit leaves the total unchanged. |
| `LineItems.ChangeRowTotal` | src/InvoiceTemplate.jsx:101-106 | With distinct ids, editing the row that carries row k's id replaces row k only. The total moves by the new amount minus the old. |
| `InvoiceEditor.Initial` | src/InvoiceTemplate.jsx:44-57 | With nothing saved, the editor starts with the default record and both flags on. That record is well formed and totals 3000. |
| `InvoiceEditor.SetIssueDate` | src/InvoiceTemplate.jsx:259 | The issue date becomes the input text. Every other field of the record is unchanged. |
| `InvoiceEditor.SetRecipient` | src/InvoiceTemplate.jsx:268 | The recipient becomes the input text. Every other field of the record is unchanged. |
| `InvoiceEditor.HandleSenderChange` | src/InvoiceTemplate.jsx:92-94 | Only the named sender field changes. The other sender fields and the rest of the record, items included, stay equal. |
| `InvoiceEditor.HandleBankChange` | src/InvoiceTemplate.jsx:95-97 | Only the named bank field changes. The rest of the record stays equal. |
| `InvoiceEditor.HandleAccountChange` | src/InvoiceTemplate.jsx:98-100 | Only the named account field changes. The rest of the record stays equal. |
| `InvoiceEditor.HandleItemChange` | src/InvoiceTemplate.jsx:101-106 | Length, order and ids are preserved. Rows with another id are unchanged. In matching rows only the named field changes, and it holds the raw text. The rest of the record stays equal. |
| `InvoiceEditor.AddItem` | src/InvoiceTemplate.jsx:107-110 | One empty row is appended with id `Math.max(...ids, 0) + 1` (`NextId`), which is above every existing id. Earlier rows and the rest of the record are unchanged. |
| `InvoiceEditor.RemoveItem` | src/InvoiceTemplate.jsx:111-114 | With one row or fewer the same record is returned. Otherwise the items are the `filter` result `WithoutId`: exactly the rows with another id, in their original order. The other fields are unchanged. |
| `InvoiceEditor.Reset` | src/InvoiceTemplate.jsx:73-81 | A confirmed reset gives the default record with both flags true. An unconfirmed one returns the state unchanged. |
| `InvoiceEditor.Step` | src/InvoiceTemplate.jsx:92-114 | Carries no contract of its own: dispatches one form event, including the checkbox handlers at lines 218 and 227, to its handler. `StepKeepsWellFormed`, `StepTotal` and `ToggleKeepsRecord` state what it does. |
| `InvoiceEditor.StepKeepsWellFormed` | src/InvoiceTemplate.jsx:101-114 | Every handler keeps at least one row and pairwise distinct ids. |
| `InvoiceEditor.RunKeepsWellFormed` | src/InvoiceTemplate.jsx:107-114 | No sequence of events, from the initial or any well-formed state, can empty the list or duplicate an id. |
| `InvoiceEditor.StepTotal` | src/InvoiceTemplate.jsx:85-89 | The total depends on the rows alone. Only a quantity or price edit, a removal or a reset can change it. |
| `InvoiceEditor.ToggleKeepsRecord` | src/InvoiceTemplate.jsx:216-227 | Toggling the registration or email flag changes only that flag, never the record or its total. |
| `InvoiceEditor.ResetTotal` | src/InvoiceTemplate.jsx:73-81 | After a confirmed reset the record is well formed and totals 3000. |

## Left out

- Persistence: reading and writing the three local-storage entries and `JSON.parse` / `JSON.stringify`
  (`src/InvoiceTemplate.jsx:44-70`, `78-80`) are I/O. The model starts from the default record (`Initial`), as on a first load.
- `window.confirm` is a browser dialog; its answer is the `confirmed` parameter of `Reset`.
- The export pipeline (`handleDownload`, `src/InvoiceTemplate.jsx:117-199`) calls into PDF
  rendering, PDF rasterisation, canvas, sharing and download APIs, none of which is visible here.
- `src/InvoicePDF.jsx` is layout handed to a rendering library. Its only logic is the same
  flag-gated rows and columns as the form. src/InvoicePDF.jsx is not part of this model.
- Display formatting: `toLocaleString()`, the blank shown for a zero quantity or price, and the per-row
  amount cell's truthiness rule (`src/InvoiceTemplate.jsx:303, 344, 346, 348, 357`) depend on locale and
  JavaScript truthiness.
- Float arithmetic: amounts are unbounded integers. Fractional prices or quantities and the rounding
  of double-precision products are not modelled.
- Overflow to `Infinity`: a price or quantity text too large for a double makes `Number` return
  `Infinity`, which `|| 0` keeps. The JavaScript total then becomes `Infinity`, or `NaN` when the
  other factor is 0, while the model multiplies the exact integer value.
- Coercion.Coerce: reads only integer text (an optional sign and decimal digits). `Number` also accepts
  surrounding whitespace, fractions, exponents, the hexadecimal (`0x`), binary (`0b`) and octal (`0o`) prefixes, and `Infinity`; the model counts such text as 0,
  whereas JavaScript would give its value. The number inputs of the form yield only empty or numeric text.
- Handler field keys: the handlers accept any key. The model only allows the keys the form passes,
  plus the bank `type` key that the record holds. An edit of an item's `id`, or of a key the record
  does not have, is not modelled.
- The account email is a plain string. It can be absent only in saved data, which is not modelled.
