/** The cart and variant decision logic of the product page's information panel:
    what the panel derives from the product, the selection, the session and the
    cart, and which single action each cart control emits. */
module ProductInformation {
  import opened Wrappers
  import opened Stock
  import opened Cart

  // ---------------------------------------------------------------------------
  // Inputs
  // ---------------------------------------------------------------------------

  datatype User = User(id: string)

  /** A session as the session hook reports it; the user part may be missing. */
  datatype Session = Session(user: Option<User>)

  datatype Product = Product(id: nat, stock: Option<seq<StockItem>>)

  /** Everything the panel reads: its props, the session, the cart store's lines, and
      the cart line the panel already holds from earlier renders (`None` on the first
      render, where the state starts out null). */
  datatype Page = Page(
    product: Product,
    selectedColor: string,
    selectedSize: string,
    session: Option<Session>,
    cartItems: seq<CartLine>,
    heldLine: Option<CartLine>)

  /** `session?.user?.id`, with `undefined` written as the (equally falsy) empty string. */
  function UserId(session: Option<Session>): string {
    match session
    case None => ""
    case Some(s) =>
      match s.user
      case None => ""
      case Some(u) => u.id
  }

  /** `session && session.user && userId` is truthy. A truthy `userId` already implies
      the session and its user, so this is also what `session && userId` tests. */
  predicate SignedIn(session: Option<Session>) {
    UserId(session) != ""
  }

  /** JavaScript truthiness of a stock id: `undefined` and `0` are falsy. */
  predicate IdTruthy(id: Option<nat>) {
    id.Some? && id.value != 0
  }

  // ---------------------------------------------------------------------------
  // Derived state
  // ---------------------------------------------------------------------------

  /** The panel's state once its effects have settled. */
  datatype View = View(
    session: Option<Session>,
    productId: nat,
    selectedStockId: Option<nat>,
    cartLine: Option<CartLine>,
    quantityOfStock: Option<nat>,
    quantity: nat)

  datatype Synced = Synced(quantityOfStock: Option<nat>, quantity: nat)

  /** The quantity-sync effect: units of the matching variant (none without a match),
      and the shown quantity, taken from the cart line when there is one, else 1. */
  function Sync(stock: Option<seq<StockItem>>, selectedColor: string, selectedSize: string,
                cartLine: Option<CartLine>): (r: Synced)
    ensures r.quantityOfStock.Some? <==> exists x :: x in stock.GetOr([]) && Matches(x, selectedColor, selectedSize)
    ensures r.quantityOfStock.Some? ==>
              r.quantityOfStock.value == SelectStock(stock, selectedColor, selectedSize).value.quantity
    ensures r.quantityOfStock.Some? ==> r.quantityOfStock.value <= TotalQuantity(stock).value
    ensures r.quantityOfStock.Some? && cartLine.Some? ==> r.quantity == cartLine.value.quantity
    ensures r.quantityOfStock.None? || cartLine.None? ==> r.quantity == 1
  {
    match SelectStock(stock, selectedColor, selectedSize)
    case Some(item) =>
      SelectedWithinTotal(stock, selectedColor, selectedSize);
      Synced(Some(item.quantity), if cartLine.Some? then cartLine.value.quantity else 1)
    case None =>
      Synced(None, 1)
  }

  /** The settled state of the panel: selection, cart line, and the synced quantities.
      The cart-line effect looks the line up only for a signed-in user and has no other
      branch, so a signed-out render keeps whatever line the panel already held. */
  function Derive(page: Page): (v: View)
    ensures v.session == page.session && v.productId == page.product.id
    ensures v.selectedStockId == SelectedStockId(page.product.stock, page.selectedColor, page.selectedSize)
    ensures v.selectedStockId.Some? <==>
              exists x :: x in page.product.stock.GetOr([]) && Matches(x, page.selectedColor, page.selectedSize)
    ensures SignedIn(page.session) ==> v.cartLine == FindCartLine(page.cartItems, page.product.id, v.selectedStockId)
    ensures !SignedIn(page.session) ==> v.cartLine == page.heldLine
    ensures SignedIn(page.session) && v.cartLine.Some? ==>
              && v.cartLine.value in page.cartItems
              && v.cartLine.value.productId == page.product.id
              && v.selectedStockId == Some(v.cartLine.value.stockId)
              && v.quantityOfStock.Some?
    ensures SignedIn(page.session) && v.selectedStockId.Some? ==>
              (v.cartLine.None? <==> forall l :: l in page.cartItems ==> !LineMatches(l, page.product.id, v.selectedStockId))
    ensures v.cartLine.Some? && v.quantityOfStock.Some? ==> v.quantity == v.cartLine.value.quantity
    ensures v.quantityOfStock.Some? <==> v.selectedStockId.Some?
    ensures v.quantityOfStock.Some? ==>
              v.quantityOfStock.value == SelectStock(page.product.stock, page.selectedColor, page.selectedSize).value.quantity
    ensures v.quantityOfStock.Some? ==> v.quantityOfStock.value <= TotalQuantity(page.product.stock).value
    ensures v.cartLine.None? || v.quantityOfStock.None? ==> v.quantity == 1
  {
    var stock := page.product.stock;
    var selectedStockId := SelectedStockId(stock, page.selectedColor, page.selectedSize);
    var cartLine :=
      if SignedIn(page.session) then FindCartLine(page.cartItems, page.product.id, selectedStockId) else page.heldLine;
    var synced := Sync(stock, page.selectedColor, page.selectedSize, cartLine);
    View(page.session, page.product.id, selectedStockId, cartLine, synced.quantityOfStock, synced.quantity)
  }

  // ---------------------------------------------------------------------------
  // Outcomes of the cart controls
  // ---------------------------------------------------------------------------

  datatype ErrorKind =
    | NoSelection                          // no colour and size chosen
    | StockLimit(available: Option<nat>)   // the variant's units, as shown in the toast

  /** The one thing a handler does: navigate, toast, dispatch one cart action, or nothing. */
  datatype Outcome =
    | Redirect(path: string)
    | Error(kind: ErrorKind)
    | Add(userId: string, productId: nat, stockId: nat, quantity: nat)
    | Update(lineId: nat, quantity: nat)
    | Remove(userId: string, lineId: nat)
    | NoOp

  const LoginPath: string := "/auth/login"

  /** `quantityOfStock!` in a relational comparison: `null` compares as 0. */
  function Available(v: View): nat {
    v.quantityOfStock.GetOr(0)
  }

  /** `cartItem?.quantity || 0`: the line's quantity, 0 without a line. */
  function CartQuantity(v: View): nat {
    if v.cartLine.Some? then v.cartLine.value.quantity else 0
  }

  /** `handleRemoveCartItem`. */
  function HandleRemove(v: View): (r: Outcome)
    ensures r.Remove? <==> SignedIn(v.session) && v.cartLine.Some?
    ensures r.Remove? ==> r.lineId == v.cartLine.value.id && r.userId == UserId(v.session)
    ensures !r.Remove? ==> r == NoOp
  {
    if SignedIn(v.session) && v.cartLine.Some? then
      Remove(UserId(v.session), v.cartLine.value.id)
    else
      NoOp
  }

  /** `handleAddToCart`. */
  function HandleAdd(v: View): (r: Outcome)
    ensures !SignedIn(v.session) <==> r == Redirect(LoginPath)
    ensures r == Error(NoSelection) <==> SignedIn(v.session) && !IdTruthy(v.selectedStockId)
    ensures r.Error? && r.kind.StockLimit? <==>
              SignedIn(v.session) && IdTruthy(v.selectedStockId) && v.cartLine.Some? && v.quantity >= Available(v)
    ensures r.Remove? <==>
              SignedIn(v.session) && IdTruthy(v.selectedStockId) && v.cartLine.Some? && v.quantity < Available(v)
    ensures r.Add? <==> SignedIn(v.session) && IdTruthy(v.selectedStockId) && v.cartLine.None?
    ensures r.Add? ==> r.quantity == 1 && r.stockId == v.selectedStockId.value
                       && r.productId == v.productId && r.userId == UserId(v.session)
    ensures r.Remove? ==> r.lineId == v.cartLine.value.id && r.userId == UserId(v.session)
    ensures r.Error? && r.kind.StockLimit? ==> r.kind.available == v.quantityOfStock
    ensures !r.Update? && !r.NoOp?
  {
    if !SignedIn(v.session) then
      Redirect(LoginPath)
    else if !IdTruthy(v.selectedStockId) then
      Error(NoSelection)
    else if v.cartLine.Some? && v.quantity >= Available(v) then
      Error(StockLimit(v.quantityOfStock))
    else if v.cartLine.Some? then
      HandleRemove(v)
    else
      Add(UserId(v.session), v.productId, v.selectedStockId.value, 1)
  }

  /** `handleIncreaseQuantity`. It tests only that a session exists. */
  function HandleIncrease(v: View): (r: Outcome)
    ensures r == Error(StockLimit(v.quantityOfStock)) <==> v.session.Some? && CartQuantity(v) + 1 > Available(v)
    ensures r.Update? <==> v.session.Some? && v.cartLine.Some? && v.cartLine.value.quantity + 1 <= Available(v)
    ensures r.Update? ==> r.lineId == v.cartLine.value.id && r.quantity == v.cartLine.value.quantity + 1
    ensures r.Update? ==> 1 <= r.quantity <= Available(v)
    ensures r.Error? ==> r == Error(StockLimit(v.quantityOfStock))
    ensures r.Update? || r.Error? || r == NoOp
  {
    if v.session.Some? then
      var newQuantity := CartQuantity(v) + 1;
      if newQuantity > Available(v) then
        Error(StockLimit(v.quantityOfStock))
      else if v.cartLine.Some? then
        Update(v.cartLine.value.id, newQuantity)
      else
        NoOp
    else
      NoOp
  }

  /** `handleDecreaseQuantity`. */
  function HandleDecrease(v: View): (r: Outcome)
    ensures r.Update? <==> SignedIn(v.session) && v.cartLine.Some? && v.cartLine.value.quantity > 1
    ensures r.Update? ==> r.lineId == v.cartLine.value.id && r.quantity + 1 == v.cartLine.value.quantity
    ensures r.Update? ==> r.quantity >= 1
    ensures r.Remove? <==> SignedIn(v.session) && v.cartLine.Some? && v.cartLine.value.quantity <= 1
    ensures r.Remove? ==> r.lineId == v.cartLine.value.id && r.userId == UserId(v.session)
    ensures r.Update? || r.Remove? || r == NoOp
  {
    if SignedIn(v.session) && v.cartLine.Some? then
      var line := v.cartLine.value;
      if line.quantity > 1 then
        Update(line.id, line.quantity - 1)
      else
        Remove(UserId(v.session), line.id)
    else
      NoOp
  }

  datatype Handler = AddToCart | IncreaseQuantity | DecreaseQuantity | RemoveCartItem

  function Handle(h: Handler, v: View): Outcome {
    match h
    case AddToCart => HandleAdd(v)
    case IncreaseQuantity => HandleIncrease(v)
    case DecreaseQuantity => HandleDecrease(v)
    case RemoveCartItem => HandleRemove(v)
  }

  // ---------------------------------------------------------------------------
  // Controls as the panel wires them
  // ---------------------------------------------------------------------------

  /** The plus and minus controls, and the primary button (add or remove). */
  datatype Control = Plus | Minus | PrimaryButton

  /** Plus and minus are shown only while a cart line exists; the primary button always. */
  predicate Rendered(c: Control, v: View) {
    c == PrimaryButton || v.cartLine.Some?
  }

  /** The handler a control calls: the primary button removes when a line exists,
      and adds otherwise. */
  function HandlerOf(c: Control, v: View): Handler {
    match c
    case Plus => IncreaseQuantity
    case Minus => DecreaseQuantity
    case PrimaryButton => if v.cartLine.Some? then RemoveCartItem else AddToCart
  }

  function Press(c: Control, v: View): Outcome {
    Handle(HandlerOf(c, v), v)
  }
}
