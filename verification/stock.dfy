/** Stock entries of a product: one per colour/size variant, with the units on hand. */
module Stock {
  import opened Wrappers
  import opened Arrays

  datatype Color = Color(persian: string)

  /** A variant of a product. `color` is optional, as `stockItem.color?.persian` allows. */
  datatype StockItem = StockItem(id: nat, color: Option<Color>, size: string, quantity: nat)

  /** Reference definition: the units of every entry, added up. */
  function SumQuantities(s: seq<StockItem>): nat
    decreases |s|
  {
    if |s| == 0 then 0 else s[0].quantity + SumQuantities(s[1..])
  }

  /** `stock.reduce((acc, item) => acc + item.quantity, acc)`, a left fold. */
  function ReduceQuantities(acc: nat, s: seq<StockItem>): nat
    decreases |s|
  {
    if |s| == 0 then acc else ReduceQuantities(acc + s[0].quantity, s[1..])
  }

  lemma {:induction false} ReduceIsSum(acc: nat, s: seq<StockItem>)
    ensures ReduceQuantities(acc, s) == acc + SumQuantities(s)
    decreases |s|
  {
    if |s| > 0 {
      ReduceIsSum(acc + s[0].quantity, s[1..]);
    }
  }

  /** `totalQuantity`: undefined when the product has no stock list, else the sum of its units. */
  function TotalQuantity(stock: Option<seq<StockItem>>): (r: Option<nat>)
    ensures r.None? <==> stock.None?
    ensures stock.Some? ==> r.value == SumQuantities(stock.value)
    ensures stock == Some([]) ==> r == Some(0)
  {
    match stock
    case None => None
    case Some(s) =>
      ReduceIsSum(0, s);
      Some(ReduceQuantities(0, s))
  }

  lemma {:induction false} SumAppend(a: seq<StockItem>, b: seq<StockItem>)
    ensures SumQuantities(a + b) == SumQuantities(a) + SumQuantities(b)
    decreases |a|
  {
    if |a| > 0 {
      assert (a + b)[1..] == a[1..] + b;
      SumAppend(a[1..], b);
    } else {
      assert a + b == b;
    }
  }

  /** Every entry's units are counted in the total. */
  lemma {:induction false} EntryWithinSum(s: seq<StockItem>, i: nat)
    requires i < |s|
    ensures s[i].quantity <= SumQuantities(s)
  {
    assert s == s[..i] + s[i..];
    SumAppend(s[..i], s[i..]);
    assert s[i..][0] == s[i];
  }

  /** The selection predicate of the `find` callbacks: same colour name and same size. */
  predicate Matches(item: StockItem, selectedColor: string, selectedSize: string) {
    item.color == Some(Color(selectedColor)) && item.size == selectedSize
  }

  /** `stock?.find(...)` with the colour/size predicate. */
  function SelectStock(stock: Option<seq<StockItem>>, selectedColor: string, selectedSize: string): (r: Option<StockItem>)
    ensures r.Some? ==> stock.Some? && r.value in stock.value && Matches(r.value, selectedColor, selectedSize)
    ensures r.None? <==> (stock.None? || forall x :: x in stock.value ==> !Matches(x, selectedColor, selectedSize))
  {
    match stock
    case None => None
    case Some(s) => Find(s, (x: StockItem) => Matches(x, selectedColor, selectedSize))
  }

  /** The selection is the FIRST matching entry: no earlier entry matches. */
  lemma SelectStockIsFirst(s: seq<StockItem>, selectedColor: string, selectedSize: string, i: nat)
    requires i < |s| && Matches(s[i], selectedColor, selectedSize)
    ensures SelectStock(Some(s), selectedColor, selectedSize).Some?
    ensures exists k :: 0 <= k <= i && SelectStock(Some(s), selectedColor, selectedSize).value == s[k]
                        && forall j :: 0 <= j < k ==> !Matches(s[j], selectedColor, selectedSize)
  {
  }

  /** `selectedStock?.id`: the id of the selection, undefined without one. */
  function SelectedStockId(stock: Option<seq<StockItem>>, selectedColor: string, selectedSize: string): (r: Option<nat>)
    ensures r.Some? <==> SelectStock(stock, selectedColor, selectedSize).Some?
    ensures r.Some? ==> exists x :: x in stock.value && Matches(x, selectedColor, selectedSize) && x.id == r.value
    ensures r.Some? ==> r.value == SelectStock(stock, selectedColor, selectedSize).value.id
  {
    match SelectStock(stock, selectedColor, selectedSize)
    case None => None
    case Some(item) => Some(item.id)
  }

  /** The selected variant never holds more units than the product as a whole. */
  lemma SelectedWithinTotal(stock: Option<seq<StockItem>>, selectedColor: string, selectedSize: string)
    requires SelectStock(stock, selectedColor, selectedSize).Some?
    ensures SelectStock(stock, selectedColor, selectedSize).value.quantity <= TotalQuantity(stock).value
  {
    var s := stock.value;
    var item := SelectStock(stock, selectedColor, selectedSize).value;
    var i :| 0 <= i < |s| && s[i] == item;
    EntryWithinSum(s, i);
  }
}
