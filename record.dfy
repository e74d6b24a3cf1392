/** The invoice record: its sub-records, its line items, the default record
    used on first load and on reset, and the single-field updates that the
    edit handlers apply with object spread. */
module InvoiceRecord {
  import opened Coercion

  /** One billable row. `quantity` and `price` start as numbers and hold raw
      input text once edited. */
  datatype LineItem = LineItem(
    id: int,
    date: string,
    content: string,
    quantity: Raw,
    unit: string,
    price: Raw)

  datatype Sender = Sender(name: string, zip: string, address: string, regNumber: string)

  datatype BankInfo = BankInfo(bankName: string, accountType: string, number: string, holder: string)

  datatype AccountInfo = AccountInfo(name: string, id: string, email: string)

  datatype Invoice = Invoice(
    issueDate: string,
    recipient: string,
    sender: Sender,
    bankInfo: BankInfo,
    items: seq<LineItem>,
    accountInfo: AccountInfo)

  /** The keys the edit handlers are called with. */
  datatype ItemField = Date | Content | Quantity | Unit | Price
  datatype SenderField = SenderName | Zip | Address | RegNumber
  datatype BankField = BankName | AccountType | AccountNumber | Holder
  datatype AccountField = DisplayName | Handle | Email

  /** Ids are unique within the record. */
  predicate DistinctIds(items: seq<LineItem>) {
    forall i, j :: 0 <= i < j < |items| ==> items[i].id != items[j].id
  }

  /** Every state the editor can reach: at least one row, ids unique. */
  predicate WellFormed(d: Invoice) {
    |d.items| >= 1 && DistinctIds(d.items)
  }

  function EmptyRow(id: int): LineItem {
    LineItem(id, "", "", Num(0), "", Num(0))
  }

  /** The record shown on first load and restored by reset. */
  function DefaultData(): (d: Invoice)
    ensures WellFormed(d) && |d.items| == 4
    ensures forall i :: 0 <= i < |d.items| ==> d.items[i].id == i + 1
  {
    Invoice(
      "2026年 01月01日",
      "株式会社○○ 御中",
      Sender("山田 花子", "000-0000", "東京都中央区銀座0-0-0 銀座ビル 5F", "T1234567890123"),
      BankInfo("三菱UFJ銀行", "普通", "0000000", "ヤマダ ハナコ"),
      [ LineItem(1, "2026.01.01", "SNS PR 交通費", Num(1), "円", Num(3000)),
        EmptyRow(2),
        EmptyRow(3),
        EmptyRow(4) ],
      AccountInfo("インスタアカウント-花子-", "ここにIDを入力", "example@email.com"))
  }

  /** Reading one field of a row, with text fields seen as raw text. */
  function ItemGet(item: LineItem, f: ItemField): Raw {
    match f
    case Date => Text(item.date)
    case Content => Text(item.content)
    case Quantity => item.quantity
    case Unit => Text(item.unit)
    case Price => item.price
  }

  /** `{ ...item, [field]: value }` for one row. */
  function ItemSet(item: LineItem, f: ItemField, value: string): (r: LineItem)
    ensures r.id == item.id
    ensures ItemGet(r, f) == Text(value)
    ensures forall g :: g != f ==> ItemGet(r, g) == ItemGet(item, g)
  {
    match f
    case Date => item.(date := value)
    case Content => item.(content := value)
    case Quantity => item.(quantity := Text(value))
    case Unit => item.(unit := value)
    case Price => item.(price := Text(value))
  }

  /** Two rows with the same id and the same fields are the same row, so the
      contract of `ItemSet` determines its result. */
  lemma ItemExtensional(a: LineItem, b: LineItem)
    requires a.id == b.id
    requires forall g :: ItemGet(a, g) == ItemGet(b, g)
    ensures a == b
  {
    assert ItemGet(a, Date) == ItemGet(b, Date);
    assert ItemGet(a, Content) == ItemGet(b, Content);
    assert ItemGet(a, Quantity) == ItemGet(b, Quantity);
    assert ItemGet(a, Unit) == ItemGet(b, Unit);
    assert ItemGet(a, Price) == ItemGet(b, Price);
  }

  function SenderGet(s: Sender, f: SenderField): string {
    match f
    case SenderName => s.name
    case Zip => s.zip
    case Address => s.address
    case RegNumber => s.regNumber
  }

  /** `{ ...data.sender, [field]: value }`. */
  function SenderSet(s: Sender, f: SenderField, value: string): (r: Sender)
    ensures SenderGet(r, f) == value
    ensures forall g :: g != f ==> SenderGet(r, g) == SenderGet(s, g)
  {
    match f
    case SenderName => s.(name := value)
    case Zip => s.(zip := value)
    case Address => s.(address := value)
    case RegNumber => s.(regNumber := value)
  }

  function BankGet(b: BankInfo, f: BankField): string {
    match f
    case BankName => b.bankName
    case AccountType => b.accountType
    case AccountNumber => b.number
    case Holder => b.holder
  }

  /** `{ ...data.bankInfo, [field]: value }`. */
  function BankSet(b: BankInfo, f: BankField, value: string): (r: BankInfo)
    ensures BankGet(r, f) == value
    ensures forall g :: g != f ==> BankGet(r, g) == BankGet(b, g)
  {
    match f
    case BankName => b.(bankName := value)
    case AccountType => b.(accountType := value)
    case AccountNumber => b.(number := value)
    case Holder => b.(holder := value)
  }

  function AccountGet(a: AccountInfo, f: AccountField): string {
    match f
    case DisplayName => a.name
    case Handle => a.id
    case Email => a.email
  }

  /** `{ ...data.accountInfo, [field]: value }`. */
  function AccountSet(a: AccountInfo, f: AccountField, value: string): (r: AccountInfo)
    ensures AccountGet(r, f) == value
    ensures forall g :: g != f ==> AccountGet(r, g) == AccountGet(a, g)
  {
    match f
    case DisplayName => a.(name := value)
    case Handle => a.(id := value)
    case Email => a.(email := value)
  }
}
