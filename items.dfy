/** The three operations on the list of line items: adding a row, removing
    a row by id, and editing one field of the row with a given id. */
module LineItems {
  import opened InvoiceRecord
  import opened Totals

  /** No row in the list carries the id. */
  predicate NoneHasId(items: seq<LineItem>, id: int) {
    forall i :: 0 <= i < |items| ==> items[i].id != id
  }

  /** `Math.max(...items.map(i => i.id), 0)`. */
  function MaxId(items: seq<LineItem>): (m: int)
    ensures m >= 0
    ensures forall i :: 0 <= i < |items| ==> items[i].id <= m
    ensures m == 0 || exists i :: 0 <= i < |items| && items[i].id == m
  {
    if items == [] then 0
    else
      var rest := MaxId(items[1..]);
      if items[0].id > rest then items[0].id else rest
  }

  /** The id `addItem` allocates: one more than the largest id, and 1 for an empty list. */
  function NextId(items: seq<LineItem>): (id: int)
    ensures id == MaxId(items) + 1
    ensures id >= 1
    ensures items == [] ==> id == 1
    ensures forall i :: 0 <= i < |items| ==> items[i].id < id
  {
    MaxId(items) + 1
  }

  /** `addItem`: append one empty row with a fresh id. */
  function AddRow(items: seq<LineItem>): (r: seq<LineItem>)
    ensures |r| == |items| + 1
    ensures r[..|items|] == items
    ensures r[|items|] == EmptyRow(NextId(items))
  {
    items + [EmptyRow(NextId(items))]
  }

  /** `items.filter(item => item.id !== id)`. */
  function WithoutId(items: seq<LineItem>, id: int): (r: seq<LineItem>)
    ensures |r| <= |items|
    ensures NoneHasId(r, id)
  {
    if items == [] then []
    else if items[0].id == id then WithoutId(items[1..], id)
    else [items[0]] + WithoutId(items[1..], id)
  }

  /** `removeItem`: refuse at one row or fewer, otherwise drop the rows with that id. */
  function RemoveRow(items: seq<LineItem>, id: int): (r: seq<LineItem>)
    ensures |items| <= 1 ==> r == items
    ensures |items| > 1 ==> r == WithoutId(items, id)
  {
    if |items| <= 1 then items else WithoutId(items, id)
  }

  /** `items.map(item => item.id === id ? { ...item, [field]: value } : item)`. */
  function ChangeRows(items: seq<LineItem>, id: int, f: ItemField, value: string): (r: seq<LineItem>)
    ensures |r| == |items|
    ensures forall i :: 0 <= i < |items| ==>
      r[i] == if items[i].id == id then ItemSet(items[i], f, value) else items[i]
  {
    if items == [] then []
    else [if items[0].id == id then ItemSet(items[0], f, value) else items[0]]
         + ChangeRows(items[1..], id, f, value)
  }

  // ---------------------------------------------------------------------------
  // Adding a row

  /** The new id is fresh, so distinct ids stay distinct. */
  lemma AddRowKeepsDistinct(items: seq<LineItem>)
    requires DistinctIds(items)
    ensures DistinctIds(AddRow(items))
  {
    var r := AddRow(items);
    forall i, j | 0 <= i < j < |r| ensures r[i].id != r[j].id {
      if j == |items| {
        assert r[i] == items[i];
      } else {
        assert r[i] == items[i] && r[j] == items[j];
      }
    }
  }

  /** The new row is empty and its amount is 0, so the total does not move. */
  lemma AddRowKeepsTotal(items: seq<LineItem>)
    ensures CalculatedTotal(AddRow(items)) == CalculatedTotal(items)
  {
    SumAppend(items, [EmptyRow(NextId(items))]);
  }

  // ---------------------------------------------------------------------------
  // Removing a row

  /** `filter` keeps exactly the rows whose id differs. */
  lemma {:induction false} WithoutIdMembers(items: seq<LineItem>, id: int)
    ensures forall x :: x in WithoutId(items, id) <==> x in items && x.id != id
  {
    if items != [] {
      WithoutIdMembers(items[1..], id);
      assert items == [items[0]] + items[1..];
    }
  }

  /** Filtering distributes over concatenation: the kept rows stay in their original order. */
  lemma {:induction false} WithoutIdConcat(a: seq<LineItem>, b: seq<LineItem>, id: int)
    ensures WithoutId(a + b, id) == WithoutId(a, id) + WithoutId(b, id)
  {
    if a == [] {
      assert a + b == b;
    } else {
      assert (a + b)[1..] == a[1..] + b;
      WithoutIdConcat(a[1..], b, id);
    }
  }

  /** Removing an id that no row carries leaves the list as it was. */
  lemma {:induction false} WithoutAbsentId(items: seq<LineItem>, id: int)
    requires NoneHasId(items, id)
    ensures WithoutId(items, id) == items
  {
    if items != [] {
      WithoutAbsentId(items[1..], id);
    }
  }

  /** Filtering skips a leading row that carries the id. */
  lemma WithoutIdSkip(x: LineItem, rest: seq<LineItem>, id: int)
    requires x.id == id
    ensures WithoutId([x] + rest, id) == WithoutId(rest, id)
  {
    assert ([x] + rest)[1..] == rest;
  }

  /** With distinct ids, no row before or after row k carries row k's id. */
  lemma OthersLackId(items: seq<LineItem>, k: nat)
    requires DistinctIds(items)
    requires k < |items|
    ensures NoneHasId(items[..k], items[k].id)
    ensures NoneHasId(items[k + 1..], items[k].id)
  {
    var post := items[k + 1..];
    forall i | 0 <= i < |post| ensures post[i].id != items[k].id {
      assert post[i] == items[k + 1 + i];
    }
  }

  /** Removing an id that only the middle row carries leaves the rows around it. */
  lemma WithoutIdSplit(pre: seq<LineItem>, x: LineItem, post: seq<LineItem>)
    requires NoneHasId(pre, x.id) && NoneHasId(post, x.id)
    ensures WithoutId(pre + ([x] + post), x.id) == pre + post
  {
    WithoutAbsentId(pre, x.id);
    WithoutAbsentId(post, x.id);
    WithoutIdSkip(x, post, x.id);
    WithoutIdConcat(pre, [x] + post, x.id);
  }

  /** With distinct ids, removing the id of row k removes exactly row k. */
  lemma WithoutIdAt(items: seq<LineItem>, k: nat)
    requires DistinctIds(items)
    requires k < |items|
    ensures WithoutId(items, items[k].id) == items[..k] + items[k + 1..]
  {
    SplitAt(items, k);
    OthersLackId(items, k);
    WithoutIdSplit(items[..k], items[k], items[k + 1..]);
  }

  /** Keeping a sub-sequence of rows keeps the ids distinct. */
  lemma DropKeepsDistinct(items: seq<LineItem>, k: nat)
    requires DistinctIds(items)
    requires k < |items|
    ensures DistinctIds(items[..k] + items[k + 1..])
  {
    var r := items[..k] + items[k + 1..];
    forall i, j | 0 <= i < j < |r| ensures r[i].id != r[j].id {
      var i' := if i < k then i else i + 1;
      var j' := if j < k then j else j + 1;
      assert r[i] == items[i'] && r[j] == items[j'];
    }
  }

  /** On a list with distinct ids, `removeItem` removes at most one row,
      never empties the list and keeps the ids distinct. */
  lemma RemoveRowKeepsWellFormed(items: seq<LineItem>, id: int)
    requires |items| >= 1 && DistinctIds(items)
    ensures |RemoveRow(items, id)| >= 1 && DistinctIds(RemoveRow(items, id))
    ensures |RemoveRow(items, id)| >= |items| - 1
  {
    if |items| > 1 {
      if k :| 0 <= k < |items| && items[k].id == id {
        WithoutIdAt(items, k);
        DropKeepsDistinct(items, k);
      } else {
        WithoutAbsentId(items, id);
      }
    }
  }

  /** Removing row k of a list of two or more rows with distinct ids lowers
      the total by that row's amount. */
  lemma RemoveRowTotal(items: seq<LineItem>, k: nat)
    requires DistinctIds(items)
    requires 1 < |items| && k < |items|
    ensures CalculatedTotal(RemoveRow(items, items[k].id)) == CalculatedTotal(items) - Amount(items[k])
  {
    WithoutIdAt(items, k);
    SplitAt(items, k);
    SumAppend(items[..k], [items[k]] + items[k + 1..]);
    SumAppend([items[k]], items[k + 1..]);
    SumAppend(items[..k], items[k + 1..]);
  }

  // ---------------------------------------------------------------------------
  // Editing a row

  /** Editing never adds, drops, reorders or renumbers rows. */
  lemma ChangeRowsKeepsIds(items: seq<LineItem>, id: int, f: ItemField, value: string)
    ensures |ChangeRows(items, id, f, value)| == |items|
    ensures forall i :: 0 <= i < |items| ==> ChangeRows(items, id, f, value)[i].id == items[i].id
    ensures DistinctIds(items) ==> DistinctIds(ChangeRows(items, id, f, value))
  {
    var r := ChangeRows(items, id, f, value);
    assert forall i :: 0 <= i < |items| ==> r[i].id == items[i].id;
  }

  /** Editing a date, description or unit leaves every row's amount, hence the total, unchanged. */
  lemma {:induction false} ChangeTextKeepsTotal(items: seq<LineItem>, id: int, f: ItemField, value: string)
    requires f != Quantity && f != Price
    ensures CalculatedTotal(ChangeRows(items, id, f, value)) == CalculatedTotal(items)
  {
    var r := ChangeRows(items, id, f, value);
    forall i | 0 <= i < |items| ensures Amount(r[i]) == Amount(items[i]) {
      if items[i].id == id {
        assert ItemGet(r[i], Quantity) == ItemGet(items[i], Quantity);
        assert ItemGet(r[i], Price) == ItemGet(items[i], Price);
      }
    }
    SumPointwise(r, items);
  }

  /** With distinct ids, editing row k changes only row k, so the total moves
      by the difference between its new and old amounts. */
  lemma ChangeRowTotal(items: seq<LineItem>, k: nat, f: ItemField, value: string)
    requires DistinctIds(items)
    requires k < |items|
    ensures ChangeRows(items, items[k].id, f, value) == items[k := ItemSet(items[k], f, value)]
    ensures CalculatedTotal(ChangeRows(items, items[k].id, f, value))
         == CalculatedTotal(items) - Amount(items[k]) + Amount(ItemSet(items[k], f, value))
  {
    var r := ChangeRows(items, items[k].id, f, value);
    assert r == items[k := ItemSet(items[k], f, value)];
    SumReplace(items, k, ItemSet(items[k], f, value));
  }
}
