# Storefront client state, modelled in Dafny

This project models the client-side logic of a React/Redux fashion storefront. That logic is:

- the local cart reducer and its provider, which persists every saved state;
- the four Redux slices: the legacy `orebi` cart and order history, the server-backed `cart`, `orders` and `products`;
- the TTL cache over browser storage;
- the shop pagination arithmetic;
- the data rules inside the checkout pages, the preorder button, the product page and the caps carousel.

Network services, the payment gateway, the clock and the random source are passed in as arguments. Browser storage is a `map` field.

Each source file becomes one module:

- Code that updates state in place (Immer reducers, React state setters, the cache) is a `class`. Its fields are reassigned by methods whose contracts give the whole new state.
- Pure helpers (validation, order payloads, the email pattern, price parsing, de-duplication) are functions. Lemmas state what the source promises about them.

Supporting modules:

- `Wrappers`: `Option` and `Result`.
- `Text`: decimal rendering, `replace(/c/g, '')`, `join`, `includes`, ASCII `toLowerCase`, the `\s` class and `||` defaults on strings.
- `Prices`: a JavaScript number as `Finite(int) | NaN`, and the `parseFloat` reading of digit strings.
- `Sequences`: `filter`, first-match search and order preservation.
- `OrderData`: the order payload, the shipping-fee lookup, the shipping address and the `PREFIX-<time>-<random>` payment references shared by the checkout paths.

## Model

| member | source | states |
|---|---|---|
| CartContext.FindLine | src/context/CartContext.js:31-36 | the index found is the first line equal on id, colour, colour-variant id and size-variant id; none exactly when no line is |
| CartContext.FindMatch | src/context/CartContext.js:94-99 | the first line matching id and colour, a falsy variant id in the request matching any value; none exactly when no line matches |
| CartContext.KeepUnmatched | src/context/CartContext.js:82-87 | keeps exactly the lines that do not match, in their original order |
| CartContext.PrepareAdd | src/context/CartContext.js:157-166 | a falsy quantity becomes 1; the variant ids are nulled when falsy; the result is already normalised; id, colour and price are kept |
| CartContext.CartProvider.Dispatch | src/context/CartContext.js:25-132 | the new state is the reducer's; storage is written under the cart key only when the reducer produced a new state; an unknown action reports its error and changes nothing |
| CartContext.CartProvider.constructor | src/context/CartContext.js:14-22 | the state is the stored cart, or the empty cart when none is stored |
| CartContext.CartProvider.AddToCart | src/context/CartContext.js:157-172 | the state is ADD_TO_CART applied to the prepared item, and it is saved |
| CartContext.CartProvider.RemoveFromCart | src/context/CartContext.js:174-179 | the state is REMOVE_FROM_CART's; with no matching line neither state nor storage changes |
| CartContext.CartProvider.UpdateQuantity | src/context/CartContext.js:181-186 | the state is UPDATE_QUANTITY's; with no matching line neither state nor storage changes |
| CartContext.CartProvider.ClearCart | src/context/CartContext.js:188-190 | the state becomes the empty cart, and it is saved |
| CartProperties.AddToExistingLine | src/context/CartContext.js:38-51 | adding onto the first exact match raises only that line's quantity by the incoming quantity; the line count and the other lines stay; the totals grow by quantity and price × quantity |
| CartProperties.AddAppendsNewLine | src/context/CartContext.js:52-66 | with no exact match the normalised payload is appended last; missing variant ids and size become null |
| CartProperties.AddKeepsTotals | src/context/CartContext.js:46-66 | ADD_TO_CART keeps totalItems = Σ quantity and totalPrice = Σ price × quantity, when a merged line's stored price equals the payload's |
| CartProperties.AddWithChangedPriceDrifts | src/context/CartContext.js:41-50 | a merge with a different payload price breaks the totals invariant: the line keeps its old price while the total adds the new one |
| CartProperties.AddSameLineTwice | src/context/CartContext.js:31-66 | adding the same fresh line twice gives one line holding both quantities, with totals to match |
| CartProperties.RemoveUnchangedIffNoMatch | src/context/CartContext.js:71-78 | REMOVE_FROM_CART returns the state untouched exactly when no line matches, and never throws |
| CartProperties.RemoveDropsEveryMatch | src/context/CartContext.js:80-87 | a removal keeps exactly the non-matching lines, in order |
| CartProperties.RemoveKeepsTotalsWhenUnique | src/context/CartContext.js:80-90 | removal keeps the totals invariant when at most one line matches |
| CartProperties.RemoveWithTwoMatchesDrifts | src/context/CartContext.js:82-89 | with two sizes matched by a request without a size id, both lines go but only the first one's quantity and amount leave the totals |
| CartProperties.AddThenRemoveRoundTrip | src/context/CartContext.js:52-90 | adding a fresh normalised line and removing it by its own key gives back the previous state |
| CartProperties.UpdateUnchangedIffNoMatch | src/context/CartContext.js:94-101 | UPDATE_QUANTITY returns the state untouched exactly when no line matches, and never throws |
| CartProperties.UpdateFirstMatch | src/context/CartContext.js:103-117 | only the first matching line takes the new quantity; the totals shift by (new − old) and price × (new − old) |
| CartProperties.UpdateKeepsTotals | src/context/CartContext.js:103-117 | UPDATE_QUANTITY keeps the totals invariant |
| CartProperties.UpdateToSameQuantity | src/context/CartContext.js:103-117 | setting a line to its current quantity leaves items and totals as they were |
| CartProperties.ClearAndUnknown | src/context/CartContext.js:120-125 | CLEAR_CART yields the empty cart, which satisfies the invariant; any other type throws "Unhandled action type: …" and the state stays |
| Sequences.FindFirst | src/redux/orebiSlice.js:16-18 | the first element passing the test (the product lookup by `_id` here, the fee lookup by state in src/components/payment/PaymentForm.js:49); none exactly when no element passes |
| OrebiSlice.CleanInvalid | src/redux/orebiSlice.js:70-77 | cleaning keeps exactly the present orders with a positive total and a customer name or email, in their order, and is idempotent |
| OrebiSlice.CleanKeepsValid | src/redux/orebiSlice.js:70-77 | a history of valid orders is left unchanged |
| OrebiSlice.Store.constructor | src/redux/orebiSlice.js:5-9 | products, orders and preorders start empty |
| OrebiSlice.Store.AddToCart | src/redux/orebiSlice.js:15-24 | a known `_id` gains exactly one unit, whatever the payload's quantity; a new one is appended with quantity 1; every quantity stays ≥ 1 |
| OrebiSlice.Store.DeleteItem | src/redux/orebiSlice.js:26-30 | every product with that `_id` is removed; the rest stay in order |
| OrebiSlice.Store.IncreaseQuantity | src/redux/orebiSlice.js:32-39 | the first product with that `_id` gains one unit; with no match nothing changes |
| OrebiSlice.Store.DecreaseQuantity | src/redux/orebiSlice.js:41-48 | one unit off only while the quantity is above 1, so no quantity drops below 1 |
| OrebiSlice.Store.ResetCart | src/redux/orebiSlice.js:50-52 | products empties; orders and preorders are untouched |
| OrebiSlice.Store.AddOrder | src/redux/orebiSlice.js:54-56 | the order is appended; earlier orders are unchanged |
| OrebiSlice.Store.AddPreorder | src/redux/orebiSlice.js:58-60 | the preorder is appended; earlier preorders are unchanged |
| OrebiSlice.Store.SetOrders | src/redux/orebiSlice.js:62-64 | orders is replaced by the payload; nothing else changes |
| OrebiSlice.Store.SetPreorders | src/redux/orebiSlice.js:66-68 | preorders is replaced by the payload; nothing else changes |
| OrebiSlice.Store.CleanInvalidOrders | src/redux/orebiSlice.js:70-77 | orders becomes its valid entries, in order; products and preorders are untouched |
| Text.OrDefault | src/redux/cartSlice.js:116-119 | `message || fallback`: a non-empty message wins, a missing or empty one gives the fallback; a non-empty fallback gives a non-empty result |
| CartSlice.TotalFiniteIffPricesRead | src/redux/cartSlice.js:83-91 | the folded total is a number exactly when every line's price reads as one |
| CartSlice.TotalIsSum | src/redux/cartSlice.js:83-91 | with every price readable, the fold equals Σ price × quantity over the lines |
| CartSlice.SumAppend | src/redux/cartSlice.js:83-91 | the sum over lines plus one more line is the old sum plus that line's amount |
| CartSlice.ShippingTiers | src/redux/cartSlice.js:95-101 | the charge is 30, 25 or 20; it never increases as the total increases; NaN falls in the 20 tier |
| CartSlice.Slice.constructor | src/redux/cartSlice.js:69-75 | no items, not loading, no error, totals 0 |
| CartSlice.Slice.CalculateTotals | src/redux/cartSlice.js:81-102 | totalAmount is the left fold of price × quantity (commas stripped from string prices); shippingCharge is the tier for it; nothing else changes |
| CartSlice.Slice.Pending | src/redux/cartSlice.js:107-110 | loading with no error; items and totals untouched |
| CartSlice.Slice.ItemsFulfilled | src/redux/cartSlice.js:111-115 | items replaced wholesale by the payload; loading ends; error cleared |
| CartSlice.Slice.RemoveFulfilled | src/redux/cartSlice.js:158-163 | every item with that id leaves, the rest stay in order; totals are not recomputed |
| CartSlice.Slice.ClearFulfilled | src/redux/cartSlice.js:174-180 | items empty, totalAmount and shippingCharge 0 |
| CartSlice.Slice.Rejected | src/redux/cartSlice.js:116-119 | loading ends and error is the message or the thunk's fallback, never empty; items and totals untouched |
| OrderSlice.SettledAfterPending | src/redux/orderSlice.js:48-59 | a pending case leads to loading; a settle leads to succeeded exactly when fulfilled, otherwise failed |
| OrderSlice.NeverIdleAgain | src/redux/orderSlice.js:45-72 | once any request case has fired, no later sequence of cases returns the status to idle |
| OrderSlice.LeavesIdle | src/redux/orderSlice.js:40-72 | from any non-idle status, no sequence of cases reaches idle |
| OrderSlice.Slice.constructor | src/redux/orderSlice.js:30-34 | idle, with no current order and no error |
| OrderSlice.Slice.ClearCurrentOrder | src/redux/orderSlice.js:40-43 | current order and error cleared; status unchanged |
| OrderSlice.Slice.Pending | src/redux/orderSlice.js:48-51 | status loading, error cleared, current order kept |
| OrderSlice.Slice.Fulfilled | src/redux/orderSlice.js:52-55 | status succeeded and current order the payload |
| OrderSlice.Slice.Rejected | src/redux/orderSlice.js:56-59 | status failed and error the payload; current order kept |
| ProductSlice.Slice.constructor | src/redux/productSlice.js:43-51 | empty lists, no product, no error, total 0, page 1 |
| ProductSlice.Slice.SetCurrentPage | src/redux/productSlice.js:57-59 | only currentPage changes |
| ProductSlice.Slice.Pending | src/redux/productSlice.js:64-67 | loading with no error; data untouched |
| ProductSlice.Slice.ProductsFulfilled | src/redux/productSlice.js:68-73 | products, total and current page from the payload; loading ends; error untouched |
| ProductSlice.Slice.ProductFulfilled | src/redux/productSlice.js:84-87 | only `product` is written, and loading ends |
| ProductSlice.Slice.FeaturedFulfilled | src/redux/productSlice.js:98-101 | only `featuredProducts` is written, and loading ends |
| ProductSlice.Slice.Rejected | src/redux/productSlice.js:74-77 | loading ends and error is the message or the thunk's fallback, never empty |
| Cache.SetThenGet | src/utils/cache.js:3-15 | a read at the instant of a write returns the data written and removes nothing |
| Cache.InclusiveBoundary | src/utils/cache.js:11-15 | data is still returned exactly ttl milliseconds after the write, and not one millisecond later |
| Cache.FreshEarlier | src/utils/cache.js:11-15 | a record live at some time is live at every earlier time since its write |
| Cache.ExpiredStaysGone | src/utils/cache.js:10-14 | an expired record reads as null and is deleted, so every later read is null too |
| Cache.ReadIsolated | src/utils/cache.js:11-12 | reading one key never changes what another key holds or returns |
| Cache.Cache.SetCache | src/utils/cache.js:3-6 | the key holds {data, now, ttl}, the ttl defaulting to 600000; other keys unchanged |
| Cache.Cache.GetCache | src/utils/cache.js:8-16 | returns null for an absent or expired key, else the data; an expired key is removed |
| Pagination.CurrentItems | src/components/pageProps/shopPage/Pagination.js:38-40 | the page holds at most itemsPerPage products, exactly `min(end, len) − offset` of them when the offset is inside the list, each the product at offset + k |
| Pagination.PageCountIsCeiling | src/components/pageProps/shopPage/Pagination.js:41 | the page count is the least number of full pages holding every product; zero only for an empty list |
| Pagination.OffsetAfterClick | src/components/pageProps/shopPage/Pagination.js:44-48 | the new offset is below the list length |
| Pagination.ClickOnOfferedPage | src/components/pageProps/shopPage/Pagination.js:41-45 | for a page the pager offers, the offset is exactly selected × itemsPerPage |
| Pagination.LabelStartOffByOne | src/components/pageProps/shopPage/Pagination.js:96 | with 24 products, page 2 starts at offset 12; the label as written says 12 but the first product shown is the 13th |
| Pagination.FirstShown | src/components/pageProps/shopPage/Pagination.js:96 | the 1-based position of the first product on the page, at least 1 |
| Pagination.LabelMatchesPage | src/components/pageProps/shopPage/Pagination.js:38-40 | with the corrected start, the label's first number names the page's first product and the label's range has the page's length |
| Pagination.Pager.constructor | src/components/pageProps/shopPage/Pagination.js:32-33 | offset 0 and start 1 |
| Pagination.Pager.HandlePageClick | src/components/pageProps/shopPage/Pagination.js:44-48 | both pieces of state take the new offset, which is below the length |
| OrderData.ShippingAddressParts | src/components/payment/PaymentForm.js:77 | the address comes first; ", city", ", state" and " zip" follow only when filled in; the length adds up accordingly |
| OrderData.ShippingLookupRule | src/components/payment/PaymentForm.js:47-52 | an empty or unknown state keeps the previous cost; otherwise the first matching row's fee; re-running the lookup changes nothing |
| OrderData.RandomSuffix | src/pages/payment/Payment.js:152 | `Math.floor(Math.random() * 1000000)` lies in [0, 1000000) |
| OrderData.ReferenceInjective | src/pages/payment/Payment.js:152 | two references with one prefix are equal only when their timestamps and suffixes are |
| OrderData.ReferencePrefix | src/pages/payment/Payment.js:152 | a reference starts with its prefix |
| PaymentForm.ValidateFormRule | src/components/payment/PaymentForm.js:59-68 | passes exactly when full name, email, phone, address and state are filled; otherwise the message lists the empty ones in that order |
| PaymentForm.MissingEmailAndState | src/components/payment/PaymentForm.js:59-68 | with only email and state empty, the message is "Please fill in all required fields: email, state" |
| PaymentForm.CanPayIffValid | src/components/payment/PaymentForm.js:241 | the pay button is offered exactly when not loading and validation passes |
| PaymentForm.PaidItems | src/components/payment/PaymentForm.js:78-87 | one order line per cart line, in cart order |
| PaymentForm.PriceReadsBack | src/components/payment/PaymentForm.js:82 | reading a rendered whole price back with comma stripping gives that price |
| PaymentForm.PaidSubtotalsSum | src/components/payment/PaymentForm.js:78-93 | the lines' subtotals add up to Σ price × quantity over the cart |
| PaymentForm.PaidOrderConsistent | src/components/payment/PaymentForm.js:73-114 | total = payment amount = cart total + shipping; the gateway amount is that total × 100; with consistent cart totals the subtotal is the lines' sum |
| PaymentForm.Checkout.constructor | src/components/payment/PaymentForm.js:17-30 | every field empty, not loading, no error, no fees, shipping cost 0 |
| PaymentForm.Checkout.HandleInputChange | src/components/payment/PaymentForm.js:54-57 | the named field takes the value; every other field is kept |
| PaymentForm.Checkout.LoadShippingFees | src/components/payment/PaymentForm.js:32-45 | the fetched table is stored, or on failure the error message is set |
| PaymentForm.Checkout.UpdateShippingCost | src/components/payment/PaymentForm.js:47-52 | the cost is the shipping lookup applied to the previous cost |
| PaymentForm.Checkout.Validate | src/components/payment/PaymentForm.js:59-68 | ok exactly when validation passes; on failure the error is the validation message |
| PaymentForm.Checkout.HandlePaymentSuccess | src/components/payment/PaymentForm.js:70-110 | sends the paid order; the cart is cleared only when creation succeeds, otherwise the error is set and the cart is untouched; loading ends |
| PaymentForm.Checkout.OnClose | src/components/payment/PaymentForm.js:122-125 | the cancellation error is set |
| Payment.ValidateFormRule | src/pages/payment/Payment.js:182-188 | passes exactly when name, email, phone and address are filled; the state never matters |
| Payment.PendingItems | src/pages/payment/Payment.js:195-204 | one order line per cart line, in cart order |
| Payment.PendingSubtotalsSum | src/pages/payment/Payment.js:195-204 | the lines' subtotals add up to Σ price × quantity over the cart |
| Payment.CreateOrderDataRule | src/pages/payment/Payment.js:194-223 | payment data is present exactly for "paystack", carrying the reference and the total; total = cart total + shipping; reference and status as given |
| Payment.OrderKeyRule | src/pages/payment/Payment.js:156 | the order key is the response id when truthy, else its reference when truthy, else the generated reference |
| Payment.PaidOrFailed | src/pages/payment/Payment.js:80-93 | the status sent is "paid" exactly when the callback or the verification says "success", otherwise "failed"; a failure message is never empty |
| Payment.PaymentPage.constructor | src/pages/payment/Payment.js:16-31 | every field empty, payment method "paystack", nothing placed, no fees, shipping cost 0 |
| Payment.PaymentPage.HandleInputChange | src/pages/payment/Payment.js:132-138 | the named input, a form field or the payment method, takes the value; every other field is kept |
| Payment.PaymentPage.LoadShippingFees | src/pages/payment/Payment.js:34-49 | the fetched table is stored, or on failure the error message is set |
| Payment.PaymentPage.LoadGatewayScript | src/pages/payment/Payment.js:124-130 | a failed script load sets the gateway-unavailable message; a successful one changes nothing |
| Payment.PaymentPage.UpdateShippingCost | src/pages/payment/Payment.js:52-59 | the cost is the shipping lookup applied to the previous cost |
| Payment.PaymentPage.HandleSubmit | src/pages/payment/Payment.js:140-180 | an invalid form sets its message and sends nothing; otherwise the pending order under "ORD-<time>-<n>" and then the payment request; a failure sets the message or the fallback; loading ends |
| Payment.PaymentPage.HandlePaystackCallback | src/pages/payment/Payment.js:66-99 | no reference sets an error and calls nothing; otherwise the status update is sent; only a success records the order id, clears the cart and appends the order to the history |
| PreorderPaymentButton.PreorderFlagIsStrict | src/components/PreorderPaymentButton.jsx:153 | false, 0, "0", "true" and a missing flag do not make a preorder product |
| PreorderPaymentButton.IndexOf | src/components/PreorderPaymentButton.jsx:43 | the first position of the character; none exactly when it does not occur |
| PreorderPaymentButton.EmailCheckMatchesPattern | src/components/PreorderPaymentButton.jsx:43-44 | the split-at-first-@ check accepts exactly the strings matching `^[^\s@]+@[^\s@]+\.[^\s@]+$` |
| PreorderPaymentButton.EmailExamples | src/components/PreorderPaymentButton.jsx:43 | "a@b.co" matches; "a@b" and "@b.co" do not |
| PreorderPaymentButton.ValidateFormRule | src/components/PreorderPaymentButton.jsx:37-50 | passes exactly when the four customer fields are filled and the email matches the pattern |
| PreorderPaymentButton.PreorderOrderRule | src/components/PreorderPaymentButton.jsx:88-112 | one line; subtotal = total = line subtotal = price × quantity; shipping 0; "Default" colour and null ids without a selection; flagged as a preorder of its id |
| PreorderPaymentButton.Button.constructor | src/components/PreorderPaymentButton.jsx:8-16 | not processing, form hidden, every field empty |
| PreorderPaymentButton.Button.HandleInputChange | src/components/PreorderPaymentButton.jsx:29-35 | the named field takes the value |
| PreorderPaymentButton.Button.HandlePreorderClick | src/components/PreorderPaymentButton.jsx:19-27 | the form opens unless the product has colour variants and none is selected, in which case the message is shown |
| PreorderPaymentButton.Button.HandlePaymentSubmit | src/components/PreorderPaymentButton.jsx:52-150 | an invalid form shows its message and sends nothing; otherwise preorder, order, link and payment in sequence, the payment not depending on the link's outcome; any other failure shows its message or the fallback; isProcessing ends false |
| ProductDetails.TransformRule | src/pages/ProductDetails/ProductDetails.js:27-33 | `color_variants` wins over `colorVariants`, and absence gives []; each variant keeps id and name and gets its sizes the same way; the rest of the record is unchanged |
| ProductDetails.TransformIdempotent | src/pages/ProductDetails/ProductDetails.js:74-88 | transforming a product that was already transformed, as a cached one is, changes nothing |
| ProductDetails.GetImageUrlRule | src/pages/ProductDetails/ProductDetails.js:170-177 | empty in gives "" out; anything else gives a URL starting "http"; absolute URLs are kept; applying the rule twice is applying it once |
| ProductDetails.ActiveSizesRule | src/pages/ProductDetails/ProductDetails.js:234 | exactly the active size variants, in order |
| ProductDetails.QuantityClamp | src/pages/ProductDetails/ProductDetails.js:257-270 | minus and typed input never go below 1 and leave values ≥ 1 (minus: above 1) as the source computes them; plus then minus is the identity |
| ProductDetails.AddGuardRule | src/pages/ProductDetails/ProductDetails.js:104-112 | adding is allowed exactly when a colour is selected or there are no variants, and a size is selected or the colour has no sizes |
| ProductDetails.LinePriceReadOnce | src/pages/ProductDetails/ProductDetails.js:118-121 | stripping commas here and again in the cart reads the same number as the cart alone |
| ProductDetails.CartItemRule | src/pages/ProductDetails/ProductDetails.js:123-134 | id and quantity are kept; colour defaults to "Default"; ids and size are null without a selection; `image_url` is used when set; the cart's own normalisation leaves the line unchanged |
| ProductDetails.ProductPage.constructor | src/pages/ProductDetails/ProductDetails.js:18-24 | no product, loading, no selection, quantity 1, not adding |
| ProductDetails.ProductPage.ShowPassedItem | src/pages/ProductDetails/ProductDetails.js:36-41 | a linked product is shown with `colorVariants` taken before `color_variants` |
| ProductDetails.ProductPage.FetchProductDetails | src/pages/ProductDetails/ProductDetails.js:68-100 | a live cache entry is used, otherwise the fetched product is cached for ten minutes; the first variant becomes the selected colour; a failure keeps the product and sets the message or "Failed to load product"; loading ends |
| ProductDetails.ProductPage.SelectColorVariant | src/pages/ProductDetails/ProductDetails.js:49-52 | choosing a different colour clears the selected size; clicking the colour already selected keeps it |
| ProductDetails.ProductPage.SelectSizeVariant | src/pages/ProductDetails/ProductDetails.js:237 | the size becomes the chosen one; the colour is kept |
| ProductDetails.ProductPage.DecreaseQuantity | src/pages/ProductDetails/ProductDetails.js:257 | the quantity becomes max(1, q − 1) and stays ≥ 1 |
| ProductDetails.ProductPage.TypeQuantity | src/pages/ProductDetails/ProductDetails.js:266 | the quantity becomes max(1, v) and stays ≥ 1 |
| ProductDetails.ProductPage.IncreaseQuantity | src/pages/ProductDetails/ProductDetails.js:270 | the quantity grows by one |
| ProductDetails.ProductPage.HandleAddToCart | src/pages/ProductDetails/ProductDetails.js:102-151 | a failed guard shows its message and leaves the cart alone; otherwise the built line is added to the cart and saved |
| ProductDetails.ProductPage.AddingTimeout | src/pages/ProductDetails/ProductDetails.js:143-145 | the busy flag is cleared; nothing else changes |
| Caps.FindCapsCategory | src/components/home/BestSellers/Caps.js:28-30 | the first category whose lower-cased name contains "cap"; none exactly when no category qualifies |
| Caps.CapsCategoryExample | src/components/home/BestSellers/Caps.js:28-30 | "Snapback CAPS" is picked after "Hoodies"; case does not matter |
| Caps.UniqueRule | src/components/home/BestSellers/Caps.js:56-63 | the result has pairwise distinct ids and keeps every id of the input; each element is its id's first occurrence; the input's order is kept |
| Caps.UniqueOfDistinct | src/components/home/BestSellers/Caps.js:56-63 | a list whose ids are already distinct comes back unchanged |
| Caps.Dedup | src/components/home/BestSellers/Caps.js:56-63 | the Set-based loop computes exactly the de-duplicated list |
| Caps.ShownCapsRule | src/components/home/BestSellers/Caps.js:42-63 | every product shown is valid and from the response; ids are distinct; order is kept; each is the first valid product with its id; a non-array response shows nothing |
| Caps.SliderRule | src/components/home/BestSellers/Caps.js:79-101 | slides shown ≤ 4 and ≤ n; infinite scrolling exactly when there are more products than slides shown |
| Caps.CapsCarousel.constructor | src/components/home/BestSellers/Caps.js:10-12 | no caps, loading, no error |
| Caps.CapsCarousel.FetchCaps | src/components/home/BestSellers/Caps.js:15-73 | a bad category list or a missing caps category gives its message and an empty list; otherwise the unique valid products of the normalised response; a failure gives the message or "Failed to fetch caps"; loading ends |
| Prices.ParseRendered | src/redux/cartSlice.js:86 | `parseFloat` of a rendered whole number gives that number |
| Prices.CommaInsensitive | src/context/CartContext.js:50 | commas anywhere in a price string do not change what the cart reads |
| Prices.PreorderSymbolInsensitive | src/components/PreorderPaymentButton.jsx:63-67 | naira signs and commas anywhere in a price string do not change the preorder price |
| Prices.TwelveThousand | src/components/PreorderPaymentButton.jsx:63-67 | "₦12,000" reads as 12000 on the preorder path |
| Sequences.FilterIdempotent | src/redux/orebiSlice.js:72-76 | filtering twice with one test is filtering once |

In the shipped pages some handlers are attached to nothing. The payment page renders the `PaymentForm` component (src/pages/payment/Payment.js:242), so its own `handleSubmit`, `handleInputChange`, `validateForm` and `createOrderData` (src/pages/payment/Payment.js:132-223) never run. In src/components/payment/PaymentForm.js, `validateForm` (lines 59-68) is never called: the pay button repeats the required-field test inline (line 241). The model states these handlers as written.

## Left out

- Network services, the payment gateway and the preorder link call are not modelled as code. Each await is an argument carrying its outcome: success with the fields read, or failure with an optional message.
- Browser storage and JSON are an abstract map. The stored cart is the state itself, so a corrupt stored value is not modelled.
- The cart provider's recompute effect (src/context/CartContext.js:139-154) writes storage and never updates state. It is not modelled.
- `Date.now()` and `Math.random()` are arguments. The ISO `created_at` timestamp of the paid order is not part of the payload model.
- Prices are exact whole numbers. Fractional prices and quantities, and the float rounding of `parseFloat`, are not modelled. `parseFloat` is modelled on a leading run of digits after leading whitespace.
- Display formatting (`toLocaleString`, `formatPrice`) is not modelled.
- CartContext.CartItem: the local cart holds prices that read as integers, so NaN in the local cart is not modelled. The server cart and the preorder total do model NaN.
- ProductDetails.ProductPage.HandleAddToCart: requires the product price to read as a number, because the local cart model holds integer prices. The source would put NaN into the cart.
- ProductDetails.ProductPage.TypeQuantity: takes the typed value as an integer. A non-numeric entry, for which `Math.max(1, NaN)` is NaN, is not modelled.
- ProductDetails.ProductPage.SelectColorVariant: React skips the effect when the new selection is the same object as the old one. The model compares variants by value instead. Two distinct variants with identical fields are not modelled.
- ProductDetails.ProductPage.FetchProductDetails: the size reset is applied whenever a default colour is chosen. React runs the effect only when the colour object changes, which a freshly transformed variant always does.
- PaymentForm.Checkout.LoadShippingFees: takes the fee table with fees already read as numbers. `parseFloat` of fee strings is not modelled.
- Payment.PaymentPage.LoadShippingFees: takes the fee table with fees already read as numbers, as above.
- Payment.PaymentPage.HandlePaystackCallback: takes the transaction id from `transaction` only. The `trans` fallback of redirect callbacks is not modelled.
- The cart item's `description` field is not modelled. Nothing in the core reads it.
- `undefined` and `null` are both `None`.
- `toLowerCase` is ASCII-only.
- The payment page's URL-parameter effect (src/pages/payment/Payment.js:102-114) and its redirect to the cart (src/pages/payment/Payment.js:116-121) are not modelled. `HandlePaystackCallback` is the callback that effect calls.
- The product page registers its `[location]` fetch effect twice (src/pages/ProductDetails/ProductDetails.js:35-46 and 55-66), so each navigation fetches twice. The model runs one fetch per navigation; the duplicate request and the order of the two responses are not modelled.
- The product page's loading spinner, toasts, the `setTimeout` delay (modelled as a separate `AddingTimeout` step), navigation and rendering are not modelled.
- The `Invalid products data format` throw in src/components/home/BestSellers/Caps.js:45-48 is unreachable after normalisation, and it is not modelled.
- A null product in the caps response is represented by a product with no fields. The validity test rejects both alike.
- Call sites in src/pages/Cart/ItemCard.js, thin duplicates such as src/components/PreorderButton.jsx, and presentational components are not part of this model.

## Findings

| source | as written | input that shows it | evidently intended | confidence | as-written member | corrected member |
|---|---|---|---|---|---|---|
| src/components/pageProps/shopPage/Pagination.js:96 | the label starts at `itemStart === 0 ? 1 : itemStart`, where `itemStart` is the 0-based offset | 24 products, 12 per page, second page: the offset is 12, so the label says "Products from 12 to 24" while the first product shown is the 13th | the first number is offset + 1 on every page | not executed | Pagination.LabelStartOffByOne | Pagination.LabelMatchesPage |
