/** The invoice total. It is never stored: it is recomputed from the line
    items on every render as a left fold of coerced price times quantity. */
module Totals {
  import opened Coercion
  import opened InvoiceRecord

  /** What one row contributes: `(Number(price) || 0) * (Number(quantity) || 0)`. */
  function Amount(item: LineItem): int {
    Coerce(item.price) * Coerce(item.quantity)
  }

  /** The reference sum of the amounts over the rows. */
  function Sum(items: seq<LineItem>): int {
    if items == [] then 0 else Amount(items[0]) + Sum(items[1..])
  }

  /** The `reduce((acc, item) => acc + price * qty, acc)` loop, left to right. */
  function Reduce(acc: int, items: seq<LineItem>): int
    decreases items
  {
    if items == [] then acc else Reduce(acc + Amount(items[0]), items[1..])
  }

  lemma {:induction false} ReduceIsSum(acc: int, items: seq<LineItem>)
    ensures Reduce(acc, items) == acc + Sum(items)
    decreases items
  {
    if items != [] {
      ReduceIsSum(acc + Amount(items[0]), items[1..]);
    }
  }

  /** The displayed total, `calculatedTotal`: the sum of every row's amount,
      with missing, empty or non-numeric values counting as 0. */
  function CalculatedTotal(items: seq<LineItem>): (total: int)
    ensures total == Sum(items)
  {
    ReduceIsSum(0, items);
    Reduce(0, items)
  }

  lemma {:induction false} SumAppend(a: seq<LineItem>, b: seq<LineItem>)
    ensures Sum(a + b) == Sum(a) + Sum(b)
  {
    if a == [] {
      assert a + b == b;
    } else {
      assert (a + b)[1..] == a[1..] + b;
      SumAppend(a[1..], b);
    }
  }

  /** A list is the rows before k, row k, and the rows after k. */
  lemma SplitAt(items: seq<LineItem>, k: nat)
    requires k < |items|
    ensures items == items[..k] + ([items[k]] + items[k + 1..])
  {
  }

  /** Replacing the row at index k changes the total by exactly the
      difference of the two rows' amounts. */
  lemma SumReplace(items: seq<LineItem>, k: nat, item: LineItem)
    requires k < |items|
    ensures Sum(items[k := item]) == Sum(items) - Amount(items[k]) + Amount(item)
  {
    SplitAt(items, k);
    assert items[k := item] == items[..k] + ([item] + items[k + 1..]);
    SumAppend(items[..k], [items[k]] + items[k + 1..]);
    SumAppend(items[..k], [item] + items[k + 1..]);
    SumAppend([items[k]], items[k + 1..]);
    SumAppend([item], items[k + 1..]);
  }

  /** Two lists whose rows contribute the same amounts, row by row, have the same total. */
  lemma {:induction false} SumPointwise(a: seq<LineItem>, b: seq<LineItem>)
    requires |a| == |b|
    requires forall i :: 0 <= i < |a| ==> Amount(a[i]) == Amount(b[i])
    ensures Sum(a) == Sum(b)
  {
    if a != [] {
      assert Amount(a[0]) == Amount(b[0]);
      SumPointwise(a[1..], b[1..]);
    }
  }

  /** The default record totals 3000 yen: one row of 1 × 3000 and three empty rows. */
  lemma DefaultTotal()
    ensures CalculatedTotal(DefaultData().items) == 3000
  {
  }

  /** Worked example: rows of 2 × 1000 and 3 × 500 (entered as text) total 3500,
      and an empty row contributes nothing. */
  lemma ExampleTotal()
    ensures CalculatedTotal([LineItem(1, "", "", Num(2), "", Num(1000)),
                             LineItem(2, "", "", Text("3"), "", Text("500")),
                             EmptyRow(3)]) == 3500
  {
    var items := [LineItem(1, "", "", Num(2), "", Num(1000)),
                  LineItem(2, "", "", Text("3"), "", Text("500")),
                  EmptyRow(3)];
    CoerceDecimalText(3);
    CoerceDecimalText(500);
    assert DecimalText(3) == "3";
    assert DecimalText(500) == "500";
    assert Sum(items[2..]) == 0;
    assert Sum(items[1..]) == 1500;
  }
}
