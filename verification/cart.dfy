/** Lines of the signed-in user's cart, as the cart store hands them to the product page. */
module Cart {
  import opened Wrappers
  import opened Arrays

  datatype CartLine = CartLine(id: nat, productId: nat, stockId: nat, quantity: nat)

  /** The lookup predicate: same product and the same stock entry as the selection.
      With no selection (`selectedStockId` undefined) strict equality never holds. */
  predicate LineMatches(line: CartLine, productId: nat, selectedStockId: Option<nat>) {
    line.productId == productId && selectedStockId == Some(line.stockId)
  }

  /** `cartItems.find(item => item.productId === id && item.stockId === selectedStockId)`. */
  function FindCartLine(lines: seq<CartLine>, productId: nat, selectedStockId: Option<nat>): (r: Option<CartLine>)
    ensures r.Some? ==> r.value in lines && r.value.productId == productId
                        && selectedStockId == Some(r.value.stockId)
    ensures r.None? <==> forall l :: l in lines ==> !LineMatches(l, productId, selectedStockId)
    ensures selectedStockId.None? ==> r.None?
    ensures r.Some? ==> exists k :: 0 <= k < |lines| && lines[k] == r.value
                                    && forall j :: 0 <= j < k ==> !LineMatches(lines[j], productId, selectedStockId)
  {
    var p := (l: CartLine) => LineMatches(l, productId, selectedStockId);
    match FindIndex(lines, p)
    case None => None
    case Some(k) => Some(lines[k])
  }
}
