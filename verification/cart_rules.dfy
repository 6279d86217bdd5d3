/** Properties of the panel's cart controls that hold across handlers and across
    every settled page state. */
module CartRules {
  import opened Wrappers
  import opened Stock
  import opened Cart
  import opened ProductInformation

  /** No handler ever updates or removes a line other than the panel's current one. */
  lemma OnlyCurrentLine(h: Handler, v: View)
    ensures Handle(h, v).Update? ==> v.cartLine.Some? && Handle(h, v).lineId == v.cartLine.value.id
    ensures Handle(h, v).Remove? ==> v.cartLine.Some? && Handle(h, v).lineId == v.cartLine.value.id
  {
  }

  /** No handler ever sets a line to zero units: removal is a separate action. */
  lemma UpdateNeverZero(h: Handler, v: View)
    ensures Handle(h, v).Update? ==> Handle(h, v).quantity >= 1
    ensures Handle(h, v).Add? ==> Handle(h, v).quantity == 1
  {
  }

  /** On a settled page, an update from the plus control never asks for more units
      than the selected variant has; for a signed-in shopper it also targets the line
      of this product and of that variant. */
  lemma IncreaseWithinSelectedStock(page: Page)
    ensures var v := Derive(page);
            var r := HandleIncrease(v);
            r.Update? ==>
              && SelectStock(page.product.stock, page.selectedColor, page.selectedSize).Some?
              && var item := SelectStock(page.product.stock, page.selectedColor, page.selectedSize).value;
                 && r.quantity <= item.quantity
                 && r.quantity <= TotalQuantity(page.product.stock).value
                 && (SignedIn(page.session) ==>
                       v.cartLine.value.stockId == item.id && v.cartLine.value.productId == page.product.id)
  {
  }

  /** The add handler's stock check: on a settled page with a cart line for the
      selection, it reports the stock limit exactly when the line already holds at
      least the variant's units, and in that case it does not remove the line. */
  lemma AddLimitWithLine(page: Page)
    requires SignedIn(page.session)
    requires IdTruthy(Derive(page).selectedStockId)
    requires Derive(page).cartLine.Some?
    ensures var v := Derive(page);
            var item := SelectStock(page.product.stock, page.selectedColor, page.selectedSize).value;
            && (HandleAdd(v).Error? <==> v.cartLine.value.quantity >= item.quantity)
            && (HandleAdd(v).Error? ==> HandleAdd(v) == Error(StockLimit(Some(item.quantity))))
            && (HandleAdd(v).Remove? <==> v.cartLine.value.quantity < item.quantity)
  {
  }

  /** As the panel is wired, the add handler's stock-limit branch is never reached:
      while a line exists the primary button calls the remove handler instead. */
  lemma PrimaryButtonNeverHitsAddLimit(page: Page)
    ensures var v := Derive(page);
            var r := Press(PrimaryButton, v);
            && !(r.Error? && r.kind.StockLimit?)
            && (r.Remove? <==> SignedIn(page.session) && v.cartLine.Some?)
  {
  }

  /** For a signed-in shopper every control the panel shows does something when
      pressed. Signed out, a held line keeps plus, minus and remove on screen, but
      minus and remove then do nothing and the primary button at most redirects. */
  lemma EveryRenderedControlActs(page: Page, c: Control)
    requires Rendered(c, Derive(page))
    ensures SignedIn(page.session) ==> Press(c, Derive(page)) != NoOp
    ensures !SignedIn(page.session) && c != Plus ==>
              Press(c, Derive(page)) == NoOp || Press(c, Derive(page)) == Redirect(LoginPath)
  {
  }

  /** Without a colour/size match nothing is dispatched to the cart: only a
      redirect, an error toast, or nothing. */
  lemma NoSelectionDispatchesNothing(page: Page, h: Handler)
    requires Derive(page).selectedStockId.None?
    ensures var r := Handle(h, Derive(page));
            r.Redirect? || r.Error? || r == NoOp
    ensures SignedIn(page.session) && h == AddToCart ==> Handle(h, Derive(page)) == Error(NoSelection)
  {
  }

  /** A visitor who is not signed in never adds or removes, and adding sends them to
      log in. The only cart action left is the plus control's update, which needs a
      session object (without a user id) and a line the panel still holds. With no
      held line nothing at all is dispatched. */
  lemma SignedOutDispatchesNothing(page: Page, h: Handler)
    requires !SignedIn(page.session)
    ensures var r := Handle(h, Derive(page));
            && !r.Add? && !r.Remove?
            && (r.Update? ==> h == IncreaseQuantity && page.session.Some? && page.heldLine.Some?
                              && r.lineId == page.heldLine.value.id)
    ensures page.heldLine.None? ==>
              var r := Handle(h, Derive(page));
              r.Redirect? || r.Error? || r == NoOp
    ensures Handle(AddToCart, Derive(page)) == Redirect(LoginPath)
  {
  }

  /** The held line after a sign-out: with a session object but no user id, and room
      left in the selected variant, the plus control still updates the line the panel
      kept from an earlier render. */
  lemma HeldLineStillIncreases(page: Page)
    requires !SignedIn(page.session) && page.session.Some?
    requires page.heldLine.Some?
    requires page.heldLine.value.quantity + 1 <= Available(Derive(page))
    ensures HandleIncrease(Derive(page)) == Update(page.heldLine.value.id, page.heldLine.value.quantity + 1)
  {
  }

  /** Without a cart line the add handler does not consult the stock: a signed-in
      shopper can add one unit of a variant that has none left. */
  lemma AddIgnoresEmptyVariant(page: Page)
    requires SignedIn(page.session)
    requires IdTruthy(Derive(page).selectedStockId)
    requires Derive(page).cartLine.None?
    requires Available(Derive(page)) == 0
    ensures SelectStock(page.product.stock, page.selectedColor, page.selectedSize).value.quantity == 0
    ensures HandleAdd(Derive(page)) ==
              Add(UserId(page.session), page.product.id, Derive(page).selectedStockId.value, 1)
  {
  }
}
