/** The editor: the event handlers as transforms from the old record to the
    new one, the two visibility flags, reset, and the invariant that every
    reachable record keeps at least one row with unique ids. */
module InvoiceEditor {
  import opened Coercion
  import opened InvoiceRecord
  import opened Totals
  import opened LineItems

  /** The editor's state: the record, and the flags that show the
      registration number (with the tax-rate column) and the email row. */
  datatype Editor = Editor(data: Invoice, showReg: bool, showEmail: bool)

  /** The state on first load when nothing was saved. */
  function Initial(): (s: Editor)
    ensures s.data == DefaultData()
    ensures s.showReg && s.showEmail && WellFormed(s.data)
    ensures CalculatedTotal(s.data.items) == 3000
  {
    DefaultTotal();
    Editor(DefaultData(), true, true)
  }

  // ---------------------------------------------------------------------------
  // Single-field record edits

  /** The issue-date input. */
  function SetIssueDate(d: Invoice, value: string): (r: Invoice)
    ensures r.issueDate == value
    ensures r.(issueDate := d.issueDate) == d
  {
    d.(issueDate := value)
  }

  /** The recipient input. */
  function SetRecipient(d: Invoice, value: string): (r: Invoice)
    ensures r.recipient == value
    ensures r.(recipient := d.recipient) == d
  {
    d.(recipient := value)
  }

  /** `handleSenderChange`: one sender field takes the value; the others,
      and every other part of the record, stay as they were. */
  function HandleSenderChange(d: Invoice, f: SenderField, value: string): (r: Invoice)
    ensures SenderGet(r.sender, f) == value
    ensures forall g :: g != f ==> SenderGet(r.sender, g) == SenderGet(d.sender, g)
    ensures r.(sender := d.sender) == d
  {
    d.(sender := SenderSet(d.sender, f, value))
  }

  /** `handleBankChange`. */
  function HandleBankChange(d: Invoice, f: BankField, value: string): (r: Invoice)
    ensures BankGet(r.bankInfo, f) == value
    ensures forall g :: g != f ==> BankGet(r.bankInfo, g) == BankGet(d.bankInfo, g)
    ensures r.(bankInfo := d.bankInfo) == d
  {
    d.(bankInfo := BankSet(d.bankInfo, f, value))
  }

  /** `handleAccountChange`. */
  function HandleAccountChange(d: Invoice, f: AccountField, value: string): (r: Invoice)
    ensures AccountGet(r.accountInfo, f) == value
    ensures forall g :: g != f ==> AccountGet(r.accountInfo, g) == AccountGet(d.accountInfo, g)
    ensures r.(accountInfo := d.accountInfo) == d
  {
    d.(accountInfo := AccountSet(d.accountInfo, f, value))
  }

  // ---------------------------------------------------------------------------
  // Line-item handlers

  /** `handleItemChange`: only the named field of the rows with that id
      changes; the raw input text is stored as is. */
  function HandleItemChange(d: Invoice, id: int, f: ItemField, value: string): (r: Invoice)
    ensures |r.items| == |d.items|
    ensures forall i :: 0 <= i < |d.items| ==> r.items[i].id == d.items[i].id
    ensures forall i :: 0 <= i < |d.items| && d.items[i].id != id ==> r.items[i] == d.items[i]
    ensures forall i :: 0 <= i < |d.items| && d.items[i].id == id ==>
      ItemGet(r.items[i], f) == Text(value)
    ensures forall i, g :: 0 <= i < |d.items| && g != f ==> ItemGet(r.items[i], g) == ItemGet(d.items[i], g)
    ensures r.(items := d.items) == d
  {
    d.(items := ChangeRows(d.items, id, f, value))
  }

  /** `addItem`: one empty row with the id `Math.max(...ids, 0) + 1`, which is
      above every existing id, is appended; earlier rows and the rest of the
      record are untouched. */
  function AddItem(d: Invoice): (r: Invoice)
    ensures |r.items| == |d.items| + 1
    ensures r.items[..|d.items|] == d.items
    ensures var n := r.items[|d.items|];
      n == EmptyRow(n.id) && forall i :: 0 <= i < |d.items| ==> d.items[i].id < n.id
    ensures r.items[|d.items|].id == NextId(d.items)
    ensures r.(items := d.items) == d
  {
    d.(items := AddRow(d.items))
  }

  /** `removeItem`: at one row or fewer the record is returned unchanged;
      otherwise the rows are those of `filter`: exactly the rows with a
      different id, in their original order (`WithoutIdConcat`). */
  function RemoveItem(d: Invoice, id: int): (r: Invoice)
    ensures |d.items| <= 1 ==> r == d
    ensures |d.items| > 1 ==> r.items == WithoutId(d.items, id)
    ensures |d.items| > 1 ==> forall x :: x in r.items <==> x in d.items && x.id != id
    ensures r.(items := d.items) == d
  {
    WithoutIdMembers(d.items, id);
    d.(items := RemoveRow(d.items, id))
  }

  /** `handleReset`: a confirmed reset restores the default record and shows
      both optional fields; an unconfirmed one changes nothing. */
  function Reset(s: Editor, confirmed: bool): (r: Editor)
    ensures confirmed ==> r == Editor(DefaultData(), true, true)
    ensures !confirmed ==> r == s
  {
    if confirmed then Editor(DefaultData(), true, true) else s
  }

  // ---------------------------------------------------------------------------
  // Events

  /** Everything the form can do to the editor state. */
  datatype Event =
    | EditIssueDate(value: string)
    | EditRecipient(value: string)
    | EditSender(senderField: SenderField, value: string)
    | EditBank(bankField: BankField, value: string)
    | EditAccount(accountField: AccountField, value: string)
    | EditItem(id: int, itemField: ItemField, value: string)
    | AddRowClicked
    | RemoveRowClicked(id: int)
    | ToggleReg(checked: bool)
    | ToggleEmail(checked: bool)
    | ResetClicked(confirmed: bool)

  function Step(s: Editor, e: Event): Editor {
    match e
    case EditIssueDate(v) => s.(data := SetIssueDate(s.data, v))
    case EditRecipient(v) => s.(data := SetRecipient(s.data, v))
    case EditSender(f, v) => s.(data := HandleSenderChange(s.data, f, v))
    case EditBank(f, v) => s.(data := HandleBankChange(s.data, f, v))
    case EditAccount(f, v) => s.(data := HandleAccountChange(s.data, f, v))
    case EditItem(id, f, v) => s.(data := HandleItemChange(s.data, id, f, v))
    case AddRowClicked => s.(data := AddItem(s.data))
    case RemoveRowClicked(id) => s.(data := RemoveItem(s.data, id))
    case ToggleReg(b) => s.(showReg := b)
    case ToggleEmail(b) => s.(showEmail := b)
    case ResetClicked(c) => Reset(s, c)
  }

  function Run(s: Editor, events: seq<Event>): Editor
    decreases |events|
  {
    if events == [] then s else Run(Step(s, events[0]), events[1..])
  }

  /** Every handler keeps at least one row and unique ids. */
  lemma StepKeepsWellFormed(s: Editor, e: Event)
    requires WellFormed(s.data)
    ensures WellFormed(Step(s, e).data)
  {
    match e
    case EditItem(id, f, v) => ChangeRowsKeepsIds(s.data.items, id, f, v);
    case AddRowClicked => AddRowKeepsDistinct(s.data.items);
    case RemoveRowClicked(id) => RemoveRowKeepsWellFormed(s.data.items, id);
    case _ =>
  }

  /** From a well-formed state, in particular the initial one, no sequence
      of edits can empty the list or produce two rows with the same id. */
  lemma {:induction false} RunKeepsWellFormed(s: Editor, events: seq<Event>)
    requires WellFormed(s.data)
    ensures WellFormed(Run(s, events).data)
    decreases |events|
  {
    if events != [] {
      StepKeepsWellFormed(s, events[0]);
      RunKeepsWellFormed(Step(s, events[0]), events[1..]);
    }
  }

  /** The total depends on the rows alone: only a quantity or price edit, a
      removal or a reset can change it. */
  lemma StepTotal(s: Editor, e: Event)
    requires !(e.EditItem? && (e.itemField == Quantity || e.itemField == Price))
    requires !e.RemoveRowClicked? && !e.ResetClicked?
    ensures CalculatedTotal(Step(s, e).data.items) == CalculatedTotal(s.data.items)
  {
    match e
    case EditItem(id, f, v) => ChangeTextKeepsTotal(s.data.items, id, f, v);
    case AddRowClicked => AddRowKeepsTotal(s.data.items);
    case _ =>
  }

  /** The visibility flags only gate what is shown: toggling them leaves the record alone. */
  lemma ToggleKeepsRecord(s: Editor, b: bool)
    ensures Step(s, ToggleReg(b)) == s.(showReg := b)
    ensures Step(s, ToggleEmail(b)) == s.(showEmail := b)
    ensures Step(s, ToggleReg(b)).data == s.data && Step(s, ToggleEmail(b)).data == s.data
  {
  }

  /** After a confirmed reset the total is that of the default record, 3000. */
  lemma ResetTotal(s: Editor)
    ensures WellFormed(Reset(s, true).data)
    ensures CalculatedTotal(Reset(s, true).data.items) == 3000
  {
    DefaultTotal();
  }
}
