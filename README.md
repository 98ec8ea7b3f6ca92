# Storefront core, modelled in Dafny

A client-side stationery storefront: a fixed catalog shown in a grid with a
category filter, product cards with discount and rating display, a product
detail view with a quantity selector, a cart kept by the application shell,
and a three-step checkout form (Shipping, Payment, Review) that simulates
placing an order. This project models the logic of those pieces and proves
what they promise.

Modules, one per file:

- `Options` (`options.dfy`): an `Option` type for optional product fields and
  "nothing selected".
- `Sequences` (`sequences.dfy`): `Filter` (JavaScript's `Array.filter`) and
  the subsequence relation, with their laws proved once.
- `ProductCard` (`product_card.dfy`): the `Product` record, the rounded
  discount, the sale and "New" badges, the filled stars, the quick "Add".
- `ProductGrid` (`product_grid.dfy`): the category list, the twelve-item
  catalog and the category filter, with concrete facts about the catalog.
- `App` (`app.dfy`): the cart as a sequence of `CartItem`s keyed by product
  id (add / update quantity / remove / total count) and the `Shell` class
  holding the cart, the selected product and the cart panel flag.
- `Checkout` (`checkout.dfy`): the two form records, field-change handlers,
  step validity, step navigation, the subtotal / shipping / tax / total rule
  and the `CheckoutPage` class with the order-placement transitions.
- `ProductDetail` (`product_detail.dfy`): the `ProductDetailView` class with
  the quantity floored at 1, the gallery selection and the add-to-cart
  hand-off, plus the "Save" amount.

Modelling choices:

- Money is exact `real` arithmetic. `Math.round(x)` is `(x + 0.5).Floor`.
- JavaScript truthiness is written out. A string is truthy when non-empty.
  `originalPrice` counts only when present and non-zero. An optional flag
  counts only as `Some(true)`.
- State that a component updates in place is a class. A button that is
  hidden or disabled becomes a method that leaves the state unchanged
  unless its enabling condition holds. Each of the two `setTimeout`
  delays of Place Order is a separate method. Its `requires` says that the
  delay is pending, because an event loop only fires a timer that was
  scheduled.
- The checkout page is modelled on its own, with the cart passed to its
  constructor. `src/App.tsx` neither imports nor renders it.
- Three behaviours of the code are kept as written. The initial customer record is not all empty: `country`
  starts as "United States". Previous stays available while the order is
  processing, because nothing hides it. Cart quantities are unconstrained
  integers, not positive ones, because update-quantity applies no bound.

## Model

| member | source | states |
|---|---|---|
| `ProductCard.Discount` | src/components/ProductCard.tsx:24-26 | 0 when `originalPrice` is absent or 0 (no division by zero); otherwise the nearest integer to the markdown percentage |
| `ProductCard.DiscountInRange` | src/components/ProductCard.tsx:24-25 | for 0 ≤ price ≤ originalPrice and originalPrice > 0, the discount lies in 0..100 |
| `ProductCard.DiscountPositive` | src/components/ProductCard.tsx:24-26 | the discount is positive iff there is a truthy original price and the markdown is at least half a percent |
| `ProductCard.PositiveDiscountMeansMarkdown` | src/components/ProductDetail.tsx:161-163 | a positive discount implies `originalPrice` is present (the `!` in the "Save" amount is safe) and, if it is positive, the price is below it |
| `ProductCard.SaleBadgeShown` | src/components/ProductCard.tsx:44-48 | the sale badge shows iff `isSale` is true and the markdown rounds to at least 1 percent |
| `ProductCard.Round` | src/components/ProductCard.tsx:25 | `Math.round`: the result is the integer within half a unit of its argument, ties going up |
| `ProductCard.SaleBadge` | src/components/ProductCard.tsx:44-48 | the sale badge shows only for a product flagged on sale that has a truthy original price |
| `ProductCard.NewBadge` | src/components/ProductCard.tsx:39-43 | the "New" badge shows exactly when `isNew` is true |
| `ProductCard.Stars` | src/components/ProductCard.tsx:89-97 | five stars; star i is filled iff i < floor(rating) |
| `ProductCard.FilledStars` | src/components/ProductCard.tsx:89-97 | the number of filled stars is min(5, max(0, floor(rating))) |
| `ProductCard.QuickAdd` | src/components/ProductCard.tsx:62 | the quick "Add" passes the product unchanged and no quantity |
| `Sequences.Filter` | src/components/ProductGrid.tsx:162 | `Array.filter`: the result is never longer than the input; membership, multiplicity and order are `Sequences.FilterMembers`, `Sequences.FilterCounts` and `Sequences.FilterIsSubsequence` |
| `ProductGrid.FilteredProducts` | src/components/ProductGrid.tsx:159-162 | "All Products" returns the list unchanged; the result is never longer than the list |
| `ProductGrid.FilteredMembers` | src/components/ProductGrid.tsx:162 | for a real category, a product is shown iff it is in the list with that category, with its full multiplicity |
| `ProductGrid.FilteredInOrder` | src/components/ProductGrid.tsx:159-162 | the shown products are a subsequence of the list (catalog order kept) |
| `ProductGrid.DisplayedCount` | src/components/ProductGrid.tsx:199 | the displayed count is at most 12 and is 12 for "All Products" |
| `ProductGrid.InitialShowsAll` | src/components/ProductGrid.tsx:14 | the initial selection shows the whole catalog, 12 products |
| `ProductGrid.CatalogIds` | src/components/ProductGrid.tsx:26-157 | catalog ids are 1..12 in order, hence pairwise distinct |
| `ProductGrid.CatalogCategories` | src/components/ProductGrid.tsx:17-157 | every product's category is one of the five non-"All" categories |
| `ProductGrid.CategoriesPartitionCatalog` | src/components/ProductGrid.tsx:17-162 | each catalog product is shown by exactly the filter of its own category among the five |
| `ProductGrid.CatalogMarkdowns` | src/components/ProductGrid.tsx:26-157 | every product with an original price has originalPrice > price |
| `ProductGrid.CatalogDiscounts` | src/components/ProductGrid.tsx:26-157 | products 1, 3, 7, 11 show discounts 20, 29, 28, 12 and carry the sale badge |
| `ProductGrid.PensAndPencils` | src/components/ProductGrid.tsx:26-162 | "Pens & Pencils" shows exactly products 1, 3, 7, 11 in that order |
| `App.QuantityOrDefault` | src/App.tsx:15 | a missing quantity means 1; a supplied one is used as is |
| `App.NewItem` | src/App.tsx:25-31 | a new line carries the product's id, name, price and image and the given quantity |
| `App.AddQuantity` | src/App.tsx:19-23 | same length; lines with the id gain exactly the quantity, all others unchanged |
| `App.AddItem` | src/App.tsx:15-33 | the id is present afterwards; length unchanged when it was present, else one more; earlier lines kept in order except the matching one's quantity; a new line is appended last |
| `App.SetQuantity` | src/App.tsx:45-51 | same length, ids, order and other fields; the matching line's quantity becomes exactly the given value, with no bound |
| `App.RemoveItem` | src/App.tsx:54 | removal never lengthens the cart; what it keeps is `App.RemoveItemSpec` |
| `App.TotalCount` | src/App.tsx:57 | the cart badge, the sum of all quantities; how each cart operation moves it is `App.TotalAddQuantity`, `App.TotalSetQuantity` and `App.TotalRemoveItem` |
| `App.TotalCountNonNegative` | src/App.tsx:57 | with non-negative quantities the badge count is non-negative |
| `App.RemoveItemSpec` | src/App.tsx:53-55 | no line with the id remains; every other line keeps its multiplicity and relative order; an absent id leaves the cart identical |
| `App.TotalAddQuantity` | src/App.tsx:57 | adding q to the lines of an id raises the total by q per such line |
| `App.TotalSetQuantity` | src/App.tsx:57 | setting an id's lines to q changes the total by q per line minus their old summed quantity |
| `App.TotalRemoveItem` | src/App.tsx:57 | removing an id lowers the total by exactly its summed quantity |
| `App.AddItemTotal` | src/App.tsx:17-33 | with one line per id, Add(p, q) raises the total count by exactly q |
| `App.AddItemQuantity` | src/App.tsx:17-32 | with one line per id, Add(p, q) leaves exactly one line for p with q more; two adds of q1, q2 give one line with q1 + q2 more |
| `App.SetQuantityTotal` | src/App.tsx:45-57 | update-quantity changes the total by new minus old quantity of that line |
| `App.RemoveItemTotal` | src/App.tsx:53-57 | remove lowers the total by the removed line's quantity, and not at all for an absent id |
| `App.AddItemKeepsUnique` | src/App.tsx:17-32 | Add keeps at most one line per id |
| `App.SetQuantityKeepsUnique` | src/App.tsx:45-51 | update-quantity keeps at most one line per id |
| `App.RemoveItemKeepsUnique` | src/App.tsx:53-55 | remove keeps at most one line per id |
| `App.QuickAddAddsOne` | src/App.tsx:15 | a quick "Add" from a card (no quantity) raises the total by exactly 1 |
| `App.Shell.constructor` | src/App.tsx:11-13 | empty cart, no selected product, cart panel closed |
| `App.Shell.TotalCartItems` | src/App.tsx:57 | the badge of the shell's cart: 0 for an empty cart, non-negative when every quantity is |
| `App.Shell.AddToCart` | src/App.tsx:15-39 | the cart becomes AddItem of the old cart with the default-1 quantity; the total rises by it; the detail view is closed; ids stay unique |
| `App.Shell.ViewDetails` | src/App.tsx:41-43 | the given product becomes selected; nothing else changes |
| `App.Shell.CloseDetails` | src/App.tsx:76 | the selection is reset to none; nothing else changes |
| `App.Shell.UpdateCartQuantity` | src/App.tsx:45-51 | the cart becomes SetQuantity of the old cart; the total changes by new minus old quantity; ids stay unique |
| `App.Shell.RemoveFromCart` | src/App.tsx:53-55 | the cart becomes RemoveItem of the old cart; the id is gone; an absent id changes nothing |
| `App.Shell.OpenCart` | src/App.tsx:59-61 | the cart panel opens; cart and selection unchanged |
| `App.Shell.CloseCart` | src/App.tsx:84 | the cart panel closes; cart and selection unchanged |
| `Checkout.WithCustomerValue` | src/components/CheckoutPage.tsx:76-81 | the named customer field reads back the new value; every other field is unchanged |
| `Checkout.WithPaymentValue` | src/components/CheckoutPage.tsx:83-85 | the named payment field reads back the new value; every other field is unchanged |
| `Checkout.StepValidity` | src/components/CheckoutPage.tsx:98-119 | step 1 valid iff the seven required customer fields are non-empty; step 2 iff all four payment fields are; any other step always valid |
| `Checkout.IrrelevantFields` | src/components/CheckoutPage.tsx:98-118 | phone and country never affect validity; a customer edit affects only step 1, a payment edit only step 2 |
| `Checkout.InitialStepInvalid` | src/components/CheckoutPage.tsx:45-66 | the fresh form is invalid for steps 1 and 2 |
| `Checkout.StepAfterContinue` | src/components/CheckoutPage.tsx:491-498 | the step advances by one iff it is below 3 and valid, else stays; steps stay within 1..3 |
| `Checkout.StepAfterPrevious` | src/components/CheckoutPage.tsx:481-488 | the step goes back by one iff it is above 1, else stays; steps stay within 1..3 |
| `Checkout.IsStepValid` | src/components/CheckoutPage.tsx:98-119 | the step check: step 1 needs the seven shipping strings non-empty, step 2 the four payment strings, any other step passes; its field-set form is `Checkout.StepValidity` |
| `Checkout.Subtotal` | src/components/CheckoutPage.tsx:68-71 | the sum of price × quantity over the cart; additivity and sign are `Checkout.SubtotalAppend` and `Checkout.SubtotalNonNegative` |
| `Checkout.Shipping` | src/components/CheckoutPage.tsx:72 | shipping is 0 exactly when the subtotal is above 50, and 9.99 otherwise |
| `Checkout.Summary` | src/components/CheckoutPage.tsx:68-74 | the summary's subtotal is the cart's sum of price × quantity; shipping follows the threshold; tax = subtotal × 0.08; total = subtotal + shipping + tax (= subtotal × 1.08 + shipping) |
| `Checkout.SubtotalAppend` | src/components/CheckoutPage.tsx:68-71 | the subtotal of concatenated carts is the sum of their subtotals |
| `Checkout.SubtotalNonNegative` | src/components/CheckoutPage.tsx:68-71 | non-negative prices and quantities give a non-negative subtotal |
| `Checkout.EmptyCartSummary` | src/components/CheckoutPage.tsx:68-74 | an empty cart has subtotal 0, pays 9.99 shipping, tax 0, total 9.99 |
| `Checkout.ThresholdIsStrict` | src/components/CheckoutPage.tsx:72 | a subtotal of exactly 50 still pays 9.99; anything above 50 ships free |
| `Checkout.SummaryBelowThreshold` | src/components/CheckoutPage.tsx:68-74 | 10 × 2 plus 25 × 1 gives 45 / 9.99 / 3.60 / 58.59 |
| `Checkout.SummaryAboveThreshold` | src/components/CheckoutPage.tsx:68-74 | 40 × 2 gives 80 / 0 / 6.40 / 86.40 |
| `Checkout.CheckoutPage.constructor` | src/components/CheckoutPage.tsx:45-66 | step 1, initial records (country "United States"), not processing, not placed; Continue is disabled |
| `Checkout.CheckoutPage.ChangeCustomerInfo` | src/components/CheckoutPage.tsx:76-81 | only at step 1 of the shown form and never for country (which has no input), the named customer field changes; otherwise nothing does; the payment record, step and flags are unchanged; every step before the current one is valid in every state before the order is placed |
| `Checkout.CheckoutPage.ChangePaymentInfo` | src/components/CheckoutPage.tsx:83-85 | only at step 2 of the shown form, the named payment field changes; otherwise nothing does; the customer record, step and flags are unchanged; every step before the current one is valid in every state before the order is placed |
| `Checkout.CheckoutPage.CustomerInputShown` | src/components/CheckoutPage.tsx:214-346 | a customer input is rendered only on step 1 of the shown form, and there is none for country |
| `Checkout.CheckoutPage.PaymentInputsShown` | src/components/CheckoutPage.tsx:349-430 | the payment inputs are rendered only on step 2 of the shown form |
| `Checkout.CheckoutPage.Continue` | src/components/CheckoutPage.tsx:491-498 | the step rises by one exactly when Continue is enabled (form shown, step < 3, step valid); nothing else changes |
| `Checkout.CheckoutPage.Previous` | src/components/CheckoutPage.tsx:481-488 | the step falls by one exactly when Previous is shown (form shown, step > 1); nothing else changes |
| `Checkout.CheckoutPage.PlaceOrder` | src/components/CheckoutPage.tsx:499-506 | processing starts only at step 3, while not processing and not placed; when it starts, both the shipping and the payment step are valid; nothing else changes |
| `Checkout.CheckoutPage.FormShown` | src/components/CheckoutPage.tsx:121-147 | the step form, with all its inputs and buttons, is shown until the order is placed; the confirmation then replaces it |
| `Checkout.CheckoutPage.OrderSummaryShown` | src/components/CheckoutPage.tsx:513-561 | the summary panel (and the confirmation's total at line 137): the cart's subtotal; shipping 0 ("Free") exactly when the subtotal is above 50, else 9.99; tax = subtotal × 0.08; total = subtotal + shipping + tax |
| `Checkout.CheckoutPage.ContinueEnabled` | src/components/CheckoutPage.tsx:491-498 | Continue is offered below step 3 of the shown form and enabled only when the current step is valid |
| `Checkout.CheckoutPage.PreviousShown` | src/components/CheckoutPage.tsx:481-488 | Previous is rendered above step 1 of the shown form, with no disabled state |
| `Checkout.CheckoutPage.PlaceOrderEnabled` | src/components/CheckoutPage.tsx:499-506 | Place Order is offered at step 3 of the shown form and disabled while processing |
| `Checkout.CheckoutPage.ProcessingDelayElapsed` | src/components/CheckoutPage.tsx:88-92 | after the first delay processing stops and the order is placed; the confirmation replaces the form |
| `Checkout.CheckoutPage.ConfirmationDelayElapsed` | src/components/CheckoutPage.tsx:93-95 | after the second delay the completion callback is signalled, once |
| `ProductDetail.ProductImages` | src/components/ProductDetail.tsx:31-36 | four gallery images, the product's own first |
| `ProductDetail.NextQuantity` | src/components/ProductDetail.tsx:44-46 | the new quantity is max(1, prev + change): never below 1, and exactly prev + change when that is at least 1 |
| `ProductDetail.QuantityButtons` | src/components/ProductDetail.tsx:189-204 | minus at 1 stays 1; plus adds exactly 1; minus above 1 subtracts 1 |
| `ProductDetail.SaveAmount` | src/components/ProductDetail.tsx:161-165 | the "Save" amount shows iff the discount is positive; it is originalPrice − price, and positive for a positive original price |
| `ProductDetail.ProductDetailView.ShownImage` | src/components/ProductDetail.tsx:75 | the large picture is always an entry of the gallery |
| `ProductDetail.ProductDetailView.constructor` | src/components/ProductDetail.tsx:27-28 | a fresh view has quantity 1 and shows the product's own image |
| `ProductDetail.ProductDetailView.ChangeQuantity` | src/components/ProductDetail.tsx:44-46 | quantity becomes NextQuantity(old, change); the gallery selection is unchanged |
| `ProductDetail.ProductDetailView.MinusEnabled` | src/components/ProductDetail.tsx:189-193 | minus is enabled only above 1 (`disabled={quantity <= 1}`); where enabled a decrement subtracts exactly 1, and where disabled the clamp would keep the quantity anyway |
| `ProductDetail.ProductDetailView.Decrement` | src/components/ProductDetail.tsx:189-195 | minus subtracts 1 above 1 and is a no-op (disabled) at 1 |
| `ProductDetail.ProductDetailView.Increment` | src/components/ProductDetail.tsx:199-203 | plus adds exactly 1, with no upper bound |
| `ProductDetail.ProductDetailView.SelectImage` | src/components/ProductDetail.tsx:83-86 | a thumbnail click selects that gallery index; the quantity is unchanged |
| `ProductDetail.ProductDetailView.AddToCart` | src/components/ProductDetail.tsx:48-50 | the call carries exactly the shown product and the current quantity, which is at least 1 |

## Left out

- `src/components/Header.tsx`, `src/components/Footer.tsx` and `src/components/HeroSection.tsx` are static markup. The search inputs filter nothing, and the mobile-menu toggle is a single boolean flip.
- `CartSidebar` is not part of this model. Only the `CartItem` shape is taken, from its construction in `src/App.tsx`. Any rule the sidebar applies before calling update or remove is not modelled.
- Timer durations (3000 ms and 2000 ms) and scheduling are not modelled. The two delays are two discrete transitions. What `onOrderComplete` and `onClose` do in the host is outside this component.
- JavaScript double arithmetic and `toFixed(2)` formatting are not modelled. Money is exact; no bit-equality with floats is claimed.
- NaN is not modelled as a truthiness case of `originalPrice`.
- Rendering is not modelled: CSS classes, icons, the grid/list view-mode toggle and the React hook machinery. Only the state the hooks hold is modelled.
- `ProductDetail.ProductImages` keeps the three extra gallery pictures as short identifiers, not their full URLs. Only the gallery's length and first entry matter to the model.
- The detail view's own `discount` (`src/components/ProductDetail.tsx:38-42`), its sale badge (`src/components/ProductDetail.tsx:112`), its "New Arrival" badge and its star row use the same rules as the card. They are covered by `ProductCard.Discount`, `ProductCard.SaleBadge`, `ProductCard.NewBadge` and `ProductCard.Stars`, and the detail view's "Save" amount uses `ProductCard.Discount` through `ProductDetail.SaveAmount`.
- Events are processed one at a time, with the state updated between them. React's batching of several updates in one tick is not modelled.
- `App.AddItemTotal`, `App.SetQuantityTotal` and `App.RemoveItemTotal` assume at most one line per id. The shell keeps that as its invariant. The general forms without this assumption are `App.TotalAddQuantity`, `App.TotalSetQuantity` and `App.TotalRemoveItem`.
