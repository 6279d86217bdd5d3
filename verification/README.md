# Product page cart logic — a Dafny model

This project models the decision logic in the storefront's product information panel (`ProductPageContentInformation`). The panel derives several things from the product's stock list, the selected colour and size, the shopper's session and the cart store's lines:

- the total number of units;
- the selected stock entry and its id;
- the cart line for that entry;
- the units available and the quantity to show.

It has four cart handlers: add (which toggles), increase, decrease and remove. Each one emits exactly one thing:

- a redirect to the login page;
- an error toast;
- one cart action (`addToCart`, `updateCartItem` or `removeFromCart`);
- nothing.

The model is functional. Stock entries, cart lines and sessions are immutable datatypes. The effects are modelled by the state they settle to (`ProductInformation.Derive`). Each handler is a pure function from that state to an `Outcome`.

Modules:

- `Wrappers` holds `Option`, which stands for `undefined`/`null`.
- `Arrays` models `Array.prototype.find` and proves it returns the first match.
- `Stock` covers stock entries, the `reduce` total, and the selection by colour name and size.
- `Cart` covers cart lines and the lookup by product and stock id.
- `ProductInformation` covers the session, the settled panel state, the quantity sync, the four handlers, and which handler each control calls.
- `CartRules` holds the properties that span handlers and settled states.

JavaScript coercions are written out:

- `quantityOfStock!` is `null` when no entry matches. In `>` and `>=` it compares as 0 (`Available`).
- `!selectedStockId` is true for `undefined` and for the id 0 (`IdTruthy`).
- A missing or empty user id is falsy (`SignedIn`). A truthy `userId` implies a session with a user, so `session && session.user && userId` and `session && userId` are the same test.
- `cartItem?.quantity || 0` is the line's quantity, or 0 without a line (`CartQuantity`).
- The increase handler tests only that a session exists. The model keeps that difference.

## Model

| member | source | states |
|---|---|---|
| Arrays.FindIndex | src/app/components/product-page-content/product-page-content-information/product-page-content-information.tsx:65-70 | `find`: a returned position holds a match and no earlier element matches; with no result, no element matches |
| Arrays.Find | src/app/components/product-page-content/product-page-content-information/product-page-content-information.tsx:65-70 | the found element is in the list and matches; there is no result exactly when no element matches |
| Arrays.FindIsFirst | src/app/components/product-page-content/product-page-content-information/product-page-content-information.tsx:65-70 | if any position matches, `find` returns the element at the first matching position, which is at or before it |
| Stock.ReduceIsSum | src/app/components/product-page-content/product-page-content-information/product-page-content-information.tsx:60-63 | the `reduce` left fold from an accumulator equals the accumulator plus the sum of all entry quantities |
| Stock.TotalQuantity | src/app/components/product-page-content/product-page-content-information/product-page-content-information.tsx:60-63 | the total is undefined exactly when the stock list is; otherwise it is the sum of every entry's quantity, and an empty list gives 0 |
| Stock.SumAppend | src/app/components/product-page-content/product-page-content-information/product-page-content-information.tsx:60-63 | the total of two stock lists joined is the sum of their totals |
| Stock.EntryWithinSum | src/app/components/product-page-content/product-page-content-information/product-page-content-information.tsx:60-63 | each entry's quantity is at most the total, because the total splits at the entry into the parts before and from it |
| Stock.SelectStock | src/app/components/product-page-content/product-page-content-information/product-page-content-information.tsx:65-70 | the selection is an entry of the stock list with the selected colour name and size; there is none exactly when the list is missing or no entry matches both |
| Stock.SelectStockIsFirst | src/app/components/product-page-content/product-page-content-information/product-page-content-information.tsx:65-70 | when some entry matches, the selection is the first matching entry |
| Stock.SelectedStockId | src/app/components/product-page-content/product-page-content-information/product-page-content-information.tsx:72 | there is a selected id exactly when there is a selection, and it is the id of the first matching entry |
| Stock.SelectedWithinTotal | src/app/components/product-page-content/product-page-content-information/product-page-content-information.tsx:60-72 | the selected variant's units never exceed the product's total |
| Cart.FindCartLine | src/app/components/product-page-content/product-page-content-information/product-page-content-information.tsx:78-80 | the line found is the first line in the cart for this product and the selected stock id; there is none exactly when no line matches, and always none without a selection |
| ProductInformation.Sync | src/app/components/product-page-content/product-page-content-information/product-page-content-information.tsx:98-114 | units are available exactly when some entry matches, and equal the first match's units (at most the total); the quantity is the cart line's when both a match and a line exist, otherwise 1 |
| ProductInformation.Derive | src/app/components/product-page-content/product-page-content-information/product-page-content-information.tsx:57-114 | settled state: the selected id and units are those of the first matching entry (units at most the total), present exactly when a variant matches; signed in, the line is the first cart line for this product and the selected id, and then units are known; signed out, the panel keeps the line it already held; with a line and known units the quantity is the line's, otherwise 1 |
| ProductInformation.HandleRemove | src/app/components/product-page-content/product-page-content-information/product-page-content-information.tsx:185-191 | removes the current line, for the current user, exactly when the shopper is signed in and a line exists; otherwise does nothing |
| ProductInformation.HandleAdd | src/app/components/product-page-content/product-page-content-information/product-page-content-information.tsx:116-148 | signed out redirects to login; with no truthy stock id, reports the missing selection; with a line and quantity at or above the units, reports the stock limit carrying those units; with a line below it, removes that line for the current user; with no line, adds exactly 1 unit of the selected stock id for the current user and product; never updates and never does nothing |
| ProductInformation.HandleIncrease | src/app/components/product-page-content/product-page-content-information/product-page-content-information.tsx:150-167 | with a session, reports the stock limit exactly when the line's quantity (0 if none) plus 1 exceeds the units; updates only when a line exists, to its quantity plus 1, which is between 1 and the units; in every other case (no session, or no line with room left) does nothing |
| ProductInformation.HandleDecrease | src/app/components/product-page-content/product-page-content-information/product-page-content-information.tsx:169-183 | for a signed-in shopper with a line: above 1 it updates to one less, so the result is at least 1; at 1 or below it removes the line; otherwise does nothing |
| CartRules.OnlyCurrentLine | src/app/components/product-page-content/product-page-content-information/product-page-content-information.tsx:116-191 | every update or remove any handler emits names the panel's current cart line |
| CartRules.UpdateNeverZero | src/app/components/product-page-content/product-page-content-information/product-page-content-information.tsx:150-183 | no handler updates a line to fewer than 1 unit, and an add is always for exactly 1 unit |
| CartRules.IncreaseWithinSelectedStock | src/app/components/product-page-content/product-page-content-information/product-page-content-information.tsx:150-167 | on a settled page an increase update never exceeds the selected variant's units or the total; for a signed-in shopper it targets this product's line for that variant |
| CartRules.AddLimitWithLine | src/app/components/product-page-content/product-page-content-information/product-page-content-information.tsx:125-136 | on a settled page with a line, add reports the stock limit (with the variant's units) exactly when the line holds at least those units and then does not remove; below them it removes |
| CartRules.PrimaryButtonNeverHitsAddLimit | src/app/components/product-page-content/product-page-content-information/product-page-content-information.tsx:294-319 | the primary button calls remove while a line exists, so it never reaches add's stock-limit error; it removes exactly when a signed-in shopper has a line |
| CartRules.EveryRenderedControlActs | src/app/components/product-page-content/product-page-content-information/product-page-content-information.tsx:263-320 | plus and minus are shown only with a line; for a signed-in shopper every shown control emits something; signed out with a held line, minus and remove do nothing and the primary button at most redirects |
| CartRules.NoSelectionDispatchesNothing | src/app/components/product-page-content/product-page-content-information/product-page-content-information.tsx:116-123 | without a matching variant no handler dispatches a cart action; a signed-in add reports the missing selection |
| CartRules.SignedOutDispatchesNothing | src/app/components/product-page-content/product-page-content-information/product-page-content-information.tsx:116-191 | a signed-out visitor never adds or removes and add redirects to login; the only action left is an increase update of a held line, which needs a session object without a user id; with no held line nothing is dispatched |
| CartRules.HeldLineStillIncreases | src/app/components/product-page-content/product-page-content-information/product-page-content-information.tsx:150-167 | for every settled page with a session object but no user id, a held line and room left in the selected variant, the plus control updates that held line to its quantity plus 1 |
| CartRules.AddIgnoresEmptyVariant | src/app/components/product-page-content/product-page-content-information/product-page-content-information.tsx:138-146 | for every settled page with a signed-in shopper, a truthy selection, no line and 0 available units, add still requests 1 unit of the selected variant |

## Left out

- JSX rendering, CSS classes, spinners, the rating, price and description display, and toast wording. The model keeps only which handler each control calls (`ProductInformation.HandlerOf`, `ProductInformation.Rendered`). An error toast is `Error(kind)`, and the stock-limit toast carries the units it shows.
- The cart store, `fetchCart` (lines 92-96) and the effect of `addToCart`, `updateCartItem` and `removeFromCart` on the cart. The model stops at the emitted action. The cart lines are an input.
- React hook and effect scheduling, and the session fetch. The model uses the state once the effects have settled. The session, the cart lines and the line the panel already holds are inputs. The line state starts out null (line 58). The cart-line effect (lines 76-90) updates it only for a signed-in user and has no other branch. So after a sign-out in place, the panel keeps its last line, and the model keeps it too.
- `getUniqueColors`, `getSizesForColor` and the `Price` discount calculation. Their source is not part of this model.
- Redirect is modelled as an outcome carrying the login path. The framework's navigation, which throws to stop rendering, is not modelled.
- Ids and quantities are modelled as natural numbers. Negative or fractional quantities from the backend are not modelled.
- The profile page and the icon components. They have no decision logic.
