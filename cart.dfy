/**
 * The cart rule shared by the order form and the cash desk: lines are keyed by
 * `String(variantId)`; adding a variant that is already in the cart raises
 * that line's quantity, otherwise a new line goes at the end; a line is removed
 * by its position.
 */
module Cart {

  import opened Payloads
  import Stock

  /** The key both screens compare lines by. */
  function Key(l: Line): string {
    IdString(l.variantId)
  }

  /** `items.findIndex(i => String(i.variantId) === key)`. */
  function LineIndex(items: seq<Line>, key: string): (r: int)
    ensures -1 <= r < |items|
    ensures r == -1 <==> forall i :: 0 <= i < |items| ==> Key(items[i]) != key
    ensures r >= 0 ==> Key(items[r]) == key && forall j :: 0 <= j < r ==> Key(items[j]) != key
    decreases |items|
  {
    if items == [] then -1
    else if Key(items[0]) == key then 0
    else
      var k := LineIndex(items[1..], key);
      if k == -1 then -1 else k + 1
  }

  /** At most one line per variant. */
  predicate DistinctVariants(items: seq<Line>) {
    forall i, j :: 0 <= i < j < |items| ==> Key(items[i]) != Key(items[j])
  }

  /** Adds `line` to the cart: into the existing line of its variant, or at the end. */
  function MergeOrAppend(items: seq<Line>, line: Line): (r: seq<Line>)
    ensures LineIndex(items, Key(line)) >= 0 ==> |r| == |items|
    ensures LineIndex(items, Key(line)) >= 0 ==>
      r[LineIndex(items, Key(line))] ==
      items[LineIndex(items, Key(line))].(quantity := items[LineIndex(items, Key(line))].quantity + line.quantity)
    ensures |items| <= |r|
    ensures forall i :: 0 <= i < |items| && i != LineIndex(items, Key(line)) ==> r[i] == items[i]
    ensures LineIndex(items, Key(line)) == -1 ==> |r| == |items| + 1 && r[|items|] == line
    ensures forall i :: 0 <= i < |items| ==> Key(r[i]) == Key(items[i])
    ensures forall i :: 0 <= i < |items| && Key(items[i]) != Key(line) ==> r[i] == items[i]
  {
    var idx := LineIndex(items, Key(line));
    if idx >= 0 then items[idx := items[idx].(quantity := items[idx].quantity + line.quantity)]
    else items + [line]
  }

  /** `items.filter((_, j) => j !== i)`. */
  function RemoveAt(items: seq<Line>, i: int): (r: seq<Line>)
    ensures 0 <= i < |items| ==> |r| == |items| - 1
    ensures !(0 <= i < |items|) ==> r == items
    ensures 0 <= i < |items| ==> forall j :: 0 <= j < |r| ==> r[j] == items[if j < i then j else j + 1]
  {
    if 0 <= i < |items| then items[..i] + items[i + 1..] else items
  }

  /** How many units of the variant with `key` the cart holds, over all its lines. */
  function QuantityOf(items: seq<Line>, key: string): int
    decreases |items|
  {
    if items == [] then 0
    else QuantityOf(items[..|items| - 1], key) + (if Key(items[|items| - 1]) == key then items[|items| - 1].quantity else 0)
  }

  lemma {:induction false} QuantityAppend(a: seq<Line>, b: seq<Line>, key: string)
    ensures QuantityOf(a + b, key) == QuantityOf(a, key) + QuantityOf(b, key)
    decreases |b|
  {
    if b == [] {
      assert a + b == a;
    } else {
      var c := b[..|b| - 1];
      assert (a + b)[..|a + b| - 1] == a + c;
      assert (a + b)[|a + b| - 1] == b[|b| - 1];
      QuantityAppend(a, c, key);
    }
  }

  lemma QuantityOne(l: Line, key: string)
    ensures QuantityOf([l], key) == if Key(l) == key then l.quantity else 0
  {
    assert [l][..0] == [];
  }

  /** Replacing line `i` changes the held quantities by the two lines' contributions. */
  lemma QuantityUpdate(items: seq<Line>, i: int, l: Line, key: string)
    requires 0 <= i < |items|
    ensures QuantityOf(items[i := l], key) ==
      QuantityOf(items, key) - QuantityOf([items[i]], key) + QuantityOf([l], key)
  {
    var pre, post := items[..i], items[i + 1..];
    assert items == pre + [items[i]] + post;
    assert items[i := l] == pre + [l] + post;
    QuantityAppend(pre + [items[i]], post, key);
    QuantityAppend(pre, [items[i]], key);
    QuantityAppend(pre + [l], post, key);
    QuantityAppend(pre, [l], key);
  }

  /** Adding a line raises the held quantity of its variant by the line's quantity
      and leaves every other variant's quantity alone. */
  lemma MergeQuantity(items: seq<Line>, line: Line, key: string)
    ensures QuantityOf(MergeOrAppend(items, line), key) ==
      QuantityOf(items, key) + (if key == Key(line) then line.quantity else 0)
  {
    var idx := LineIndex(items, Key(line));
    QuantityOne(line, key);
    if idx >= 0 {
      var m := items[idx].(quantity := items[idx].quantity + line.quantity);
      assert MergeOrAppend(items, line) == items[idx := m];
      QuantityUpdate(items, idx, m, key);
      QuantityOne(items[idx], key);
      QuantityOne(m, key);
    } else {
      assert MergeOrAppend(items, line) == items + [line];
      QuantityAppend(items, [line], key);
    }
  }

  /** The cart keeps at most one line per variant when lines are added. */
  lemma MergeDistinct(items: seq<Line>, line: Line)
    requires DistinctVariants(items)
    ensures DistinctVariants(MergeOrAppend(items, line))
  {
  }

  /** The unit price the added units are charged at: the kept line's price when
      the variant is already in the cart, the new line's price otherwise. */
  function MergedPrice(items: seq<Line>, line: Line): int {
    var idx := LineIndex(items, Key(line));
    if idx >= 0 then items[idx].price else line.price
  }

  /** Raising a line's quantity by `d` raises its subtotal by `d` units at its price. */
  lemma RaisedSubtotal(o: Line, d: int)
    ensures Stock.Subtotal(o.(quantity := o.quantity + d)) == Stock.Subtotal(o) + d * o.price
  {
    Stock.MulDistributes(o.price, o.quantity, d);
  }

  /** Adding a line raises the total by its quantity at the price of the line it lands in. */
  lemma MergeTotal(items: seq<Line>, line: Line)
    ensures Stock.CalcOrderTotal(MergeOrAppend(items, line)) ==
      Stock.CalcOrderTotal(items) + line.quantity * MergedPrice(items, line)
  {
    var idx := LineIndex(items, Key(line));
    if idx >= 0 {
      var o := items[idx];
      var n := o.(quantity := o.quantity + line.quantity);
      assert MergeOrAppend(items, line) == items[idx := n];
      Stock.TotalUpdate(items, idx, n);
      RaisedSubtotal(o, line.quantity);
    } else {
      assert MergeOrAppend(items, line) == items + [line];
      Stock.TotalAppend(items, [line]);
      assert Stock.CalcOrderTotal([line]) == Stock.Subtotal(line);
    }
  }

  /** Removing a line removes exactly its units from its variant. */
  lemma RemoveQuantity(items: seq<Line>, i: int, key: string)
    requires 0 <= i < |items|
    ensures QuantityOf(RemoveAt(items, i), key) ==
      QuantityOf(items, key) - (if Key(items[i]) == key then items[i].quantity else 0)
  {
    var pre, post := items[..i], items[i + 1..];
    assert items == pre + [items[i]] + post;
    assert RemoveAt(items, i) == pre + post;
    QuantityAppend(pre + [items[i]], post, key);
    QuantityAppend(pre, [items[i]], key);
    QuantityAppend(pre, post, key);
    QuantityOne(items[i], key);
  }

  /** Position `i` splits the cart into the lines before it, it, and the lines after. */
  lemma RemoveSplit(items: seq<Line>, i: int)
    requires 0 <= i < |items|
    ensures items == items[..i] + [items[i]] + items[i + 1..]
    ensures RemoveAt(items, i) == items[..i] + items[i + 1..]
  {
  }

  /** Removing a line lowers the total by that line's subtotal. */
  lemma RemoveTotal(items: seq<Line>, i: int)
    requires 0 <= i < |items|
    ensures Stock.CalcOrderTotal(RemoveAt(items, i)) == Stock.CalcOrderTotal(items) - Stock.Subtotal(items[i])
  {
    var pre, x, post := items[..i], items[i], items[i + 1..];
    RemoveSplit(items, i);
    Stock.TotalAppend(pre + [x], post);
    Stock.TotalAppend(pre, [x]);
    Stock.TotalAppend(pre, post);
    assert Stock.CalcOrderTotal([x]) == Stock.Subtotal(x);
  }

  /** Removing a line keeps at most one line per variant. */
  lemma RemoveDistinct(items: seq<Line>, i: int)
    requires DistinctVariants(items)
    ensures DistinctVariants(RemoveAt(items, i))
  {
    var r := RemoveAt(items, i);
    if 0 <= i < |items| {
      forall a, b | 0 <= a < b < |r| ensures Key(r[a]) != Key(r[b]) {
        assert r[a] == items[if a < i then a else a + 1];
        assert r[b] == items[if b < i then b else b + 1];
      }
    }
  }

  /** Removing a freshly appended line gives the cart back. */
  lemma RemoveUndoesAppend(items: seq<Line>, line: Line)
    requires LineIndex(items, Key(line)) == -1
    ensures RemoveAt(MergeOrAppend(items, line), |items|) == items
  {
    assert (items + [line])[..|items|] == items;
  }
}
