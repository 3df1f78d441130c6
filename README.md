# joanie-store cart and wishlist core, in Dafny

A model of the bookkeeping at the heart of the joanie-store storefront. It
covers:

- the server routes that keep each user's cart and wishlist;
- the two client hooks that mirror them in the browser;
- the price, discount, shipping and rating rules the product, cart and wishlist
  views apply;
- the small state machines behind the toasts, the sign-in / sign-up modals, the
  header and the user menu.

The model uses these representations:

- **Money** is integer cents, so the seed's 160 dollars is `16000`.
- **Timestamps** are integer milliseconds.
- **A rating** is a `real`.
- **The database** is the class `Database.Db`. It holds three maps: products by
  id, and cart rows and wishlist rows by their (user, product) pair. Keying by
  the pair makes "at most one row per pair" a property of the key.
- **The session** is an optional value. The routes, `fetchCart`, `addToCart` and
  `toggleWishlist` accept it only when `session?.user?.id` is truthy
  (`Store.SignedIn`). `removeFromCart`, `updateQuantity` and the wishlist id
  reload make no session check of their own.
- **An awaited call that throws** is a `Store.Fault` parameter naming the first
  such call. A handler answers 500 only if it reaches that call.
- **Server replies** are `Store.Response` values holding a status and a body.
- **Client hooks** are classes whose fields are the React state. `fetch` is
  replaced by the reply it would yield, passed in as a parameter, and each hook
  method returns the requests it sends.

Files:

- `store.dfy`: records and shared vocabulary.
- `database.dfy`: the tables, the two `findMany` listings and the set sums used
  to state totals.
- `pricing.dfy`: the three display-price rules and the rounded discount.
- `cart_route.dfy`, `cart_count_route.dfy`, `wishlist_route.dfy`,
  `wishlist_ids_route.dfy`: the API routes.
- `use_cart.dfy`, `use_wishlist.dfy`: the hooks.
- `cart_summary.dfy`, `cart_item_view.dfy`, `product_card.dfy`,
  `wishlist_item_view.dfy`, `star_rating.dfy`: the views.
- `toast.dfy`, `auth_modal.dfy`, `header_with_auth.dfy`, `user_menu.dfy`: the UI
  state.

Three cross-layer results tie the layers together:

- `UseCart.AddThroughServer`: after a successful `addToCart`, the browser shows
  exactly the server's cart and totals.
- `UseWishlist.ToggleThroughServer`: the optimistic wishlist flip and its revert
  keep the browser's list in step with the server's rows.
- `CartCountRoute.CountMatchesCartTotal`: the badge count equals the cart
  listing's `totalItems`.

Three behaviours of the code worth knowing:

- The server totals the cart with `salePrice || price`, while the cart row
  shows `salePrice ?? price`. So a sale price of exactly 0 is charged at the
  list price in the total but shown as 0 in the row
  (`CartItemView.ZeroSalePriceRowDisagrees`).
- POST `/api/cart` adds any integer quantity, including zero and negative ones.
- Nothing keeps a sale price below the list price, so the model allows any
  sale price.

The wishlist hook's error path is modelled as written. When a non-ok reply's
body does not parse, the hook reverts the optimistic flip once before parsing
and once more in the `catch`. A previously wishlisted id therefore ends up
listed twice (`UseWishlist.DoubleRevert`).

The cart and wishlist routes each have their own join, listing predicate and
newest-first lemma, and the wishlist hook and the toast list each have their
own filter-by-id with the same three lemmas. The duplication is deliberate:
each mirrors a separate source file.

## Model

| member | source | states |
|---|---|---|
| Store.UserIdOf | joanie-store/src/app/api/cart/route.ts:9-14 | a caller who passes the `session?.user?.id` guard has a non-empty user id |
| Store.SignedIn | joanie-store/src/app/api/cart/route.ts:9 | the `session?.user?.id` guard: a caller who passes it has a session, a user and an id |
| Database.ListOwned | joanie-store/src/app/api/wishlist/ids/route.ts:13-18 | the listing holds each product the user has a row for exactly once, and nothing else |
| Database.ListNewestFirst | joanie-store/src/app/api/cart/route.ts:13-17 | the listing holds each of the user's products exactly once, ordered by non-increasing `createdAt` |
| Pricing.ServerUnitPrice | joanie-store/src/app/api/cart/route.ts:21 | `salePrice \|\| price` is the list price or the sale price, and is 0 only when the list price is 0 |
| Pricing.NullishPrice | joanie-store/src/components/cart/CartItem.tsx:15 | `salePrice ?? price` is the list price or the sale price, and a sale price of 0 is kept |
| Pricing.CardPrice | joanie-store/src/components/home/ProductCard.tsx:26-28 | the card's price is the list price or the sale price, always the list price off sale, and 0 only when the list price is 0 |
| Pricing.PercentOff | joanie-store/src/components/home/ProductCard.tsx:30-32 | the result is `Math.round` of the percentage off: the integer within one half of `(price - sale) / price * 100`, for either sign of price |
| Pricing.PercentOffBounds | joanie-store/src/components/home/ProductCard.tsx:30-32 | a sale price in (0, price] gives a discount in [0, 100], and an unreduced price gives 0 |
| Pricing.Discount | joanie-store/src/components/home/ProductCard.tsx:30-32 | the discount is a whole number exactly when the list price is non-zero; a zero list price gives NaN for a zero sale price, and an infinity of the opposite sign to the sale price otherwise |
| Pricing.SeedSaleDiscount | joanie-store/prisma/seed.ts:15-16 | 1160 dollars on sale for 960 rounds to 17 percent |
| Pricing.ServerAndNullishAgree | joanie-store/src/app/api/cart/route.ts:21 | `salePrice \|\| price` and `salePrice ?? price` differ exactly when the sale price is 0 and the list price is not |
| Pricing.CardIsGatedServerRule | joanie-store/src/components/home/ProductCard.tsx:26-28 | the card's price is the server's rule when on sale and the list price otherwise; off sale, a sale price other than 0 and the list price puts the card at odds with both the cart row and the server |
| CartRoute.RequestedQuantity | joanie-store/src/app/api/cart/route.ts:45 | a POST body without a quantity asks for 1, and one with a quantity asks for exactly that |
| CartRoute.Fold | joanie-store/src/app/api/cart/route.ts:19-28 | the `reduce` starts from zero totals, and one row contributes its quantity and its quantity times `salePrice \|\| price` |
| CartRoute.FoldSnoc | joanie-store/src/app/api/cart/route.ts:20-26 | one more row adds its quantity to `totalItems` and its quantity times `salePrice \|\| price` to `totalPrice` |
| CartRoute.FoldAppend | joanie-store/src/app/api/cart/route.ts:19-28 | the `reduce` of a concatenation is the sum of the two reductions |
| CartRoute.FoldNonNegative | joanie-store/src/app/api/cart/route.ts:19-28 | rows of non-negative quantity and unit price never total below zero |
| CartRoute.FoldPermutation | joanie-store/src/app/api/cart/route.ts:19-28 | any rearrangement of the rows folds to the same totals, so the listing order does not change them |
| CartRoute.Joined | joanie-store/src/app/api/cart/route.ts:15 | a joined row carries the row's owner, product, quantity and creation time and the catalog's product |
| CartRoute.JoinAll | joanie-store/src/app/api/cart/route.ts:13-17 | the joined listing has one entry per listed product, in the listing's order |
| CartRoute.FoldJoinAll | joanie-store/src/app/api/cart/route.ts:19-28 | the `reduce` over the listing equals the sum of quantities and of `(salePrice \|\| price) * quantity` over the user's rows |
| CartRoute.FoldJoinAllQuantity | joanie-store/src/app/api/cart/route.ts:19-28 | the `totalItems` of the joined listing is the sum of quantities over its products |
| CartRoute.FoldJoinAllValue | joanie-store/src/app/api/cart/route.ts:19-28 | the `totalPrice` of the joined listing is the sum of `(salePrice \|\| price) * quantity` over its products |
| CartRoute.ListingIsUserCart | joanie-store/src/app/api/cart/route.ts:13-28 | the listing is exactly the user's rows, without duplicates, newest first, and its totals are the user's unit count and value |
| CartRoute.JoinAllIsUserCart | joanie-store/src/app/api/cart/route.ts:13-17 | joining a duplicate-free listing of exactly the user's products gives one entry per row the user owns and nothing else |
| CartRoute.JoinAllNewestFirst | joanie-store/src/app/api/cart/route.ts:13-17 | the join keeps each row's creation time, so a newest-first listing stays newest first |
| CartRoute.Get | joanie-store/src/app/api/cart/route.ts:5-35 | 401 `Unauthorized` without a user id; 500 `Failed to fetch cart` when a call throws; otherwise 200 with the user's rows newest first and totals equal to their sums |
| CartRoute.Upsert | joanie-store/src/app/api/cart/route.ts:59-69 | the pair's row gains the requested quantity, or is created with it, and every other row is untouched |
| CartRoute.UpsertAddsQuantity | joanie-store/src/app/api/cart/route.ts:59-69 | an add raises the user's unit count by exactly the requested quantity |
| CartRoute.UpsertAddsValue | joanie-store/src/app/api/cart/route.ts:21-24 | an add raises the user's cart value by the quantity times the product's `salePrice \|\| price` |
| CartRoute.UpsertLeavesOtherUsers | joanie-store/src/app/api/cart/route.ts:59-69 | an add leaves every other user's unit count and value unchanged |
| CartRoute.Post | joanie-store/src/app/api/cart/route.ts:37-76 | 401, 400 `Product ID required`, 404 `Product not found` and 500 `Failed to add to cart` change nothing; 200 exactly for a signed-in caller, a truthy known product and no fault, after the upsert, answering the joined row |
| CartRoute.RepeatedAddIncrements | joanie-store/src/app/api/cart/route.ts:59-69 | adding the 160-dollar product once and then twice leaves one row of quantity 3, and the cart totals 3 units and 480 dollars |
| CartRoute.SaleUnitCountsAtSalePrice | joanie-store/src/app/api/cart/route.ts:21-24 | one unit of the seeded sale product adds 960 dollars, not 1160 |
| CartCountRoute.Quantities | joanie-store/src/app/api/cart/count/route.ts:13-16 | the selected quantities are those of the listed rows, in order |
| CartCountRoute.Sum | joanie-store/src/app/api/cart/count/route.ts:18 | the `reduce` of non-negative quantities is non-negative, and a single row counts its own quantity |
| CartCountRoute.SumQuantities | joanie-store/src/app/api/cart/count/route.ts:18 | the `reduce` of the quantities is the sum of quantities over the user's rows |
| CartCountRoute.Get | joanie-store/src/app/api/cart/count/route.ts:5-24 | always 200; the count is 0 for a caller without a user id or when a call throws, and otherwise the user's unit count |
| CartCountRoute.CountMatchesCartTotal | joanie-store/src/app/api/cart/count/route.ts:18 | for the same caller and store, the count equals the cart listing's `totalItems`; 0 and 401 for an anonymous caller |
| WishlistRoute.Joined | joanie-store/src/app/api/wishlist/route.ts:15 | a joined row carries the row's owner, product, id and creation time and the catalog's product |
| WishlistRoute.JoinAll | joanie-store/src/app/api/wishlist/route.ts:13-17 | the joined listing has one entry per listed product, in the listing's order |
| WishlistRoute.ListingIsUserWishlist | joanie-store/src/app/api/wishlist/route.ts:13-19 | the listing is exactly the user's wishlist rows, without duplicates, newest first |
| WishlistRoute.Get | joanie-store/src/app/api/wishlist/route.ts:5-24 | 401 without a user id; 500 `Failed to fetch wishlist` when a call throws; otherwise 200 with the user's rows newest first |
| WishlistRoute.Toggle | joanie-store/src/app/api/wishlist/route.ts:48-64 | the pair's membership flips, a created row gets the new id and time, and every other pair is untouched |
| WishlistRoute.ToggleTwice | joanie-store/src/app/api/wishlist/route.ts:48-64 | two toggles restore the set of pairs; an absent pair is restored exactly |
| WishlistRoute.Post | joanie-store/src/app/api/wishlist/route.ts:26-69 | 401, 400, 404 (before any membership lookup) and 500 `Failed to update wishlist` change nothing; 200 exactly for a signed-in caller, a truthy known product and no fault, after the toggle, answering `removed`/false or `added`/true with the row, `isWishlisted` matching the new membership |
| WishlistIdsRoute.Get | joanie-store/src/app/api/wishlist/ids/route.ts:5-24 | always 200; an empty list for a caller without a user id or when a call throws; otherwise each product the user has a row for, exactly once |
| UseCart.AfterFetch | joanie-store/src/hooks/useCart.ts:21-27 | an ok reply replaces the items and both totals, a failed one keeps the view, and a listing whose totals match its items keeps the view's totals matching its items |
| UseCart.SentQuantity | joanie-store/src/hooks/useCart.ts:34-43 | the hook sends 1 when the caller gives no quantity, the same default the server applies, so the server adds what the hook sends |
| UseCart.CartReplyOf | joanie-store/src/hooks/useCart.ts:21-27 | the hook sees an ok listing exactly for a 2xx listing reply, with its items and totals |
| UseCart.MutationReplyOf | joanie-store/src/hooks/useCart.ts:46-47 | the hook sees success exactly for a 2xx reply, with the body's `item`, and otherwise the body's `error` |
| UseCart.CartHook.constructor | joanie-store/src/hooks/useCart.ts:9-11 | the hook starts with no items and zero totals |
| UseCart.CartHook.FetchCart | joanie-store/src/hooks/useCart.ts:13-28 | without a user id it clears the state and sends nothing; otherwise it sends one GET and copies an ok listing verbatim, keeping the state otherwise |
| UseCart.CartHook.AddToCart | joanie-store/src/hooks/useCart.ts:34-54 | refused with "Please sign in to add items to cart" and no request without a user id; a non-ok reply returns the server's error with no re-fetch; an ok reply re-fetches and returns the item; a throw gives "Failed to add to cart" |
| UseCart.CartHook.RemoveFromCart | joanie-store/src/hooks/useCart.ts:56-68 | sends the DELETE with no session check; re-fetches only on an ok reply; failures return the server's error or "Failed to remove from cart" |
| UseCart.CartHook.UpdateQuantity | joanie-store/src/hooks/useCart.ts:70-88 | sends the PATCH with no session or range check; re-fetches only on an ok reply; failures return the server's error or "Failed to update quantity" |
| UseCart.AddThroughServer | joanie-store/src/hooks/useCart.ts:34-54 | with the cart route as server, the add succeeds exactly for a known product, and the hook then shows the user's cart newest first with the server's totals |
| UseWishlist.Without | joanie-store/src/hooks/useWishlist.ts:29 | the filter keeps exactly the other ids |
| UseWishlist.WithoutAppend | joanie-store/src/hooks/useWishlist.ts:29 | the filter works part by part, so the kept ids keep their order |
| UseWishlist.WithoutAbsent | joanie-store/src/hooks/useWishlist.ts:29 | filtering out an absent id changes nothing |
| UseWishlist.WithoutIdempotent | joanie-store/src/hooks/useWishlist.ts:29 | filtering twice is filtering once |
| UseWishlist.Flip | joanie-store/src/hooks/useWishlist.ts:27-30 | the optimistic step inverts the id's membership and keeps every other id's |
| UseWishlist.Revert | joanie-store/src/hooks/useWishlist.ts:41-43 | the revert makes the id's membership what it was before the call and keeps every other id's |
| UseWishlist.RevertUndoesFlip | joanie-store/src/hooks/useWishlist.ts:28-43 | one revert after the flip restores every id's membership; an unlisted id restores the list exactly; a listed id returns once, at the end |
| UseWishlist.DoubleRevert | joanie-store/src/hooks/useWishlist.ts:41-53 | reverting twice lists a previously listed id twice at the end, and leaves a previously unlisted id out |
| UseWishlist.FlipTwice | joanie-store/src/hooks/useWishlist.ts:27-30 | two accepted toggles restore every id's membership |
| UseWishlist.FlipMatchesToggle | joanie-store/src/hooks/useWishlist.ts:27-30 | the optimistic flip and the server's toggle keep a list and a row set that agreed in agreement |
| UseWishlist.ToggleReplyOf | joanie-store/src/hooks/useWishlist.ts:39-45 | the hook sees success exactly for a 2xx reply, and otherwise the body's `error` |
| UseWishlist.WishlistHook.constructor | joanie-store/src/hooks/useWishlist.ts:8 | the list starts empty |
| UseWishlist.WishlistHook.IsWishlisted | joanie-store/src/hooks/useWishlist.ts:61 | `includes` on the id list: an id is wishlisted exactly when it occurs at some position of the list; `ToggleWishlist` proves this flips exactly on an ok reply |
| UseWishlist.WishlistHook.Reload | joanie-store/src/hooks/useWishlist.ts:10-19 | one request for the ids, taken verbatim when ok, and the list otherwise kept |
| UseWishlist.WishlistHook.ToggleWishlist | joanie-store/src/hooks/useWishlist.ts:21-56 | refused with "Please sign in to save items" and no change without a user id; otherwise one POST, the flip kept on ok, reverted with the server's error on non-ok, reverted twice or once with "Failed to update wishlist" on an unparsable body or a throw; the id ends up listed iff it was listed and the call failed, or was not and succeeded |
| UseWishlist.ToggleThroughServer | joanie-store/src/hooks/useWishlist.ts:21-56 | with the wishlist route as server, a list in step with the server stays in step, and the toggle succeeds exactly for a known product with no fault |
| CartSummary.Summarize | joanie-store/src/components/cart/CartSummary.tsx:11-44 | shipping is 0 iff the subtotal reaches 100 dollars, else 9.99; the total is subtotal plus shipping; "Free" iff shipping is 0; the hint iff 0 < subtotal < 100, with a positive amount |
| CartSummary.HintIsLeastTopUp | joanie-store/src/components/cart/CartSummary.tsx:40-44 | adding the hinted amount makes shipping free, and every subtotal short of it is charged |
| CartSummary.HintOnlyWhileCharged | joanie-store/src/components/cart/CartSummary.tsx:33-44 | the hint never appears next to "Free" |
| CartSummary.EmptySubtotalIsCharged | joanie-store/src/components/cart/CartSummary.tsx:11-12 | a zero subtotal is charged 9.99 and shows no hint |
| CartItemView.Render | joanie-store/src/components/cart/CartItem.tsx:15-58 | the row shows `salePrice ?? price`, a line total of that times the quantity, the struck-through price iff on sale with a truthy sale price, and a disabled minus iff the quantity is at most 1 |
| CartItemView.Decrement | joanie-store/src/components/cart/CartItem.tsx:57 | minus asks for one fewer of the row, never below 1 |
| CartItemView.Increment | joanie-store/src/components/cart/CartItem.tsx:68 | plus asks for one more of the row, without bound |
| CartItemView.EnabledDecrementLowersByOne | joanie-store/src/components/cart/CartItem.tsx:57-58 | an enabled minus asks for exactly one fewer, at least 1 |
| CartItemView.DecrementThenIncrement | joanie-store/src/components/cart/CartItem.tsx:57-68 | an enabled minus followed by plus asks for the starting quantity |
| CartItemView.LineTotalsMatchServerTotal | joanie-store/src/components/cart/CartItem.tsx:15-16 | the rows' line totals add up to the server's `totalPrice` when no sale price is 0 |
| CartItemView.ZeroSalePriceRowDisagrees | joanie-store/src/components/cart/CartItem.tsx:15-16 | with a zero sale price the row charges 0 while the server charges the list price |
| ProductCard.Render | joanie-store/src/components/home/ProductCard.tsx:20-97 | the card shows the gated sale price, the discount only when on sale with a truthy sale price, the badge iff on sale, the struck-through price iff on sale with a truthy sale price, a filled heart iff wishlisted (default false), and passes the product id to both callbacks |
| ProductCard.DiscountWithinBounds | joanie-store/src/components/home/ProductCard.tsx:30-32 | a sale price in (0, price] puts a whole percentage in [0, 100] on the badge |
| ProductCard.BadgeWithoutSalePrice | joanie-store/src/components/home/ProductCard.tsx:51-55 | a product on sale with no sale price still shows the badge, reading 0 percent |
| ProductCard.SeedSaleCard | joanie-store/src/components/home/ProductCard.tsx:26-32 | the seeded sale product shows 960 dollars, 17 percent off and the struck-through price, with an empty heart |
| WishlistItemView.Render | joanie-store/src/components/wishlist/WishlistItem.tsx:21-83 | the tile shows `salePrice ?? price`, computes the discount whenever the sale price is truthy, shows the badge iff on sale with a positive discount and the struck-through price iff on sale with a truthy sale price, and removes by product id |
| WishlistItemView.TileAndCardDisagreeOffSale | joanie-store/src/components/wishlist/WishlistItem.tsx:21-24 | off sale with a real sale price, the tile shows the sale price and the card the list price, and neither shows a badge |
| WishlistItemView.NoBadgeForZeroDiscount | joanie-store/src/components/wishlist/WishlistItem.tsx:54 | on sale at full price, the tile hides its badge while the card shows 0 percent |
| WishlistItemView.BadgesAgreeWhenBothShown | joanie-store/src/components/wishlist/WishlistItem.tsx:54 | whenever the tile shows a badge, the card shows one with the same number |
| WishlistItemView.AddButton.constructor | joanie-store/src/components/wishlist/WishlistItem.tsx:18-19 | both flags start false |
| WishlistItemView.AddButton.Label | joanie-store/src/components/wishlist/WishlistItem.tsx:103-105 | "Added" exactly while `addedToCart` holds; "Adding..." exactly while adding and not yet added; "Add to Cart" otherwise |
| WishlistItemView.AddButton.Press | joanie-store/src/components/wishlist/WishlistItem.tsx:26-30 | an enabled press calls back once with the product id; when the callback settles the button reads "Added" whatever the add reported; if it rejects the button stays disabled |
| WishlistItemView.AddButton.TimerFires | joanie-store/src/components/wishlist/WishlistItem.tsx:31 | the timer clears "Added" and nothing else |
| StarRating.FullStars | joanie-store/src/components/ui/StarRating.tsx:9 | `Math.floor(rating)`: the greatest whole number not above the rating |
| StarRating.HasHalfStar | joanie-store/src/components/ui/StarRating.tsx:10 | a half star needs a rating of at least 1/2 |
| StarRating.Fraction | joanie-store/src/components/ui/StarRating.tsx:10 | `rating % 1` removes a whole number and lies in [0, 1) for a non-negative rating and in (-1, 0] for a negative one |
| StarRating.Stars | joanie-store/src/components/ui/StarRating.tsx:15-18 | five stars; star i is full iff i < floor(rating), half iff i = floor(rating) with a remainder of at least one half |
| StarRating.NoHalfStarBelowZero | joanie-store/src/components/ui/StarRating.tsx:10 | a negative rating never shows a half star |
| StarRating.HalfStarFromHalfway | joanie-store/src/components/ui/StarRating.tsx:10 | a non-negative rating shows a half star iff it is at least half-way past its whole part |
| StarRating.CountsPartition | joanie-store/src/components/ui/StarRating.tsx:16-18 | every star is full, half or empty |
| StarRating.CountPrefix | joanie-store/src/components/ui/StarRating.tsx:15-18 | among the first n stars, the full count is floor(rating) clamped to [0, n] and at most one is half |
| StarRating.StarCounts | joanie-store/src/components/ui/StarRating.tsx:15-18 | floor(rating) clamped to [0, 5] full stars, at most one half star, the rest empty, five in all |
| StarRating.SeedRatings | joanie-store/prisma/seed.ts:8-17 | the seeded 5.0 and 4.0 give five and four full stars, and 4.5 adds a half star |
| StarRating.NatToDecimal | joanie-store/src/components/ui/StarRating.tsx:23 | the numeral is digits only, with no leading zero |
| StarRating.DecimalRoundTrip | joanie-store/src/components/ui/StarRating.tsx:23 | reading back the numeral gives the number |
| StarRating.ReviewLabel | joanie-store/src/components/ui/StarRating.tsx:23 | the label is the count's numeral in parentheses |
| StarRating.ReviewLabelRoundTrip | joanie-store/src/components/ui/StarRating.tsx:23 | the count can be read back from between the parentheses |
| Toasts.Dismissed | joanie-store/src/components/ui/Toast.tsx:56 | the filter keeps exactly the toasts with another id |
| Toasts.DismissedAppend | joanie-store/src/components/ui/Toast.tsx:56 | the filter works part by part, so the kept toasts keep their order |
| Toasts.DismissedAbsent | joanie-store/src/components/ui/Toast.tsx:56 | removing an id no toast carries changes nothing |
| Toasts.DismissedIdempotent | joanie-store/src/components/ui/Toast.tsx:56 | removing twice is removing once |
| Toasts.DismissedCommutes | joanie-store/src/components/ui/Toast.tsx:56 | two removals commute |
| Toasts.ShowThenDismissRestores | joanie-store/src/components/ui/Toast.tsx:48-57 | showing a toast under a fresh id and removing that id restores the list |
| Toasts.ToastList.constructor | joanie-store/src/components/ui/Toast.tsx:44 | the list starts empty |
| Toasts.ToastList.ShowToast | joanie-store/src/components/ui/Toast.tsx:46-48 | appends one toast, of type success unless another is given, and keeps the earlier ones in order |
| Toasts.ToastList.RemoveToast | joanie-store/src/components/ui/Toast.tsx:55-57 | drops every toast with the id and keeps the rest in order |
| Toasts.ToastList.Expire | joanie-store/src/components/ui/Toast.tsx:50-52 | the timer applies the same filter as `removeToast` |
| AuthModal.Step | joanie-store/src/components/auth/AuthModalContext.tsx:27-40 | after a callback, sign-in is open iff it was `openSignIn` and sign-up iff it was `openSignUp` |
| AuthModal.StepIdempotent | joanie-store/src/components/auth/AuthModalContext.tsx:27-40 | every callback is idempotent |
| AuthModal.RunKeepsAtMostOneOpen | joanie-store/src/components/auth/AuthModalContext.tsx:24-40 | from the closed start, any sequence of callbacks leaves at most one modal open, fixed by the last callback |
| AuthModal.Wiring | joanie-store/src/components/auth/AuthModalContext.tsx:45-54 | each modal's close calls `closeModals` and its switch opens the other modal |
| AuthModal.SwitchHandsOver | joanie-store/src/components/auth/AuthModalContext.tsx:45-54 | a switch leaves only the other modal open; a close leaves both closed |
| AuthModal.AuthModalProvider.constructor | joanie-store/src/components/auth/AuthModalContext.tsx:24-25 | both modals start closed |
| AuthModal.AuthModalProvider.OpenSignIn | joanie-store/src/components/auth/AuthModalContext.tsx:27-30 | sign-in open, sign-up closed |
| AuthModal.AuthModalProvider.OpenSignUp | joanie-store/src/components/auth/AuthModalContext.tsx:32-35 | sign-up open, sign-in closed |
| AuthModal.AuthModalProvider.CloseModals | joanie-store/src/components/auth/AuthModalContext.tsx:37-40 | both closed |
| AuthModal.AuthModalProvider.Handle | joanie-store/src/components/auth/AuthModalContext.tsx:45-54 | a wired handler performs its callback and leaves at most one modal open |
| HeaderWithAuth.Step | joanie-store/src/components/layout/HeaderWithAuth.tsx:16-40 | the account click opens sign-in only without a session and keeps sign-up; each switch opens one modal and closes the other; each close clears only its own flag |
| HeaderWithAuth.BothCanBeOpen | joanie-store/src/components/layout/HeaderWithAuth.tsx:16-30 | switching to sign-up and then clicking the account icon leaves both modals open |
| HeaderWithAuth.SignedInClicksOpenNothing | joanie-store/src/components/layout/HeaderWithAuth.tsx:30 | with a session, account clicks open nothing |
| HeaderWithAuth.Props | joanie-store/src/components/layout/HeaderWithAuth.tsx:29-31 | `isLoggedIn` and the user menu both follow session presence |
| HeaderWithAuth.LoggedInIsWeakerThanSignedIn | joanie-store/src/components/layout/HeaderWithAuth.tsx:29-31 | every signed-in caller is logged in for the header, but a session without a user id is logged in yet refused by the routes |
| HeaderWithAuth.Header.constructor | joanie-store/src/components/layout/HeaderWithAuth.tsx:13-14 | both flags start false |
| HeaderWithAuth.Header.AccountClick | joanie-store/src/components/layout/HeaderWithAuth.tsx:30 | the account click as `Step` describes |
| HeaderWithAuth.Header.SwitchToSignUp | joanie-store/src/components/layout/HeaderWithAuth.tsx:16-19 | sign-in closed, sign-up open |
| HeaderWithAuth.Header.SwitchToSignIn | joanie-store/src/components/layout/HeaderWithAuth.tsx:21-24 | sign-up closed, sign-in open |
| HeaderWithAuth.Header.CloseSignIn | joanie-store/src/components/layout/HeaderWithAuth.tsx:35 | clears only the sign-in flag |
| HeaderWithAuth.Header.CloseSignUp | joanie-store/src/components/layout/HeaderWithAuth.tsx:40 | clears only the sign-up flag |
| UserMenu.UserInitial | joanie-store/src/components/auth/UserMenu.tsx:8-12 | one character: the name's first if the name is non-empty, else the email's first if non-empty, else "U" |
| UserMenu.NameWinsOverEmail | joanie-store/src/components/auth/UserMenu.tsx:9 | a non-empty name decides the initial whatever the email |
| UserMenu.Render | joanie-store/src/components/auth/UserMenu.tsx:18-60 | nothing without a session; otherwise the profile picture if truthy, else the initial `getUserInitial(name, email)` of the session's user, the name or "User", and the open state |
| UserMenu.MenuState.constructor | joanie-store/src/components/auth/UserMenu.tsx:16 | the menu starts closed |
| UserMenu.MenuState.AvatarClick | joanie-store/src/components/auth/UserMenu.tsx:23 | the avatar toggles the menu |
| UserMenu.MenuState.BackdropClick | joanie-store/src/components/auth/UserMenu.tsx:48 | the backdrop closes the menu |
| UserMenu.ClickTwice | joanie-store/src/components/auth/UserMenu.tsx:23 | two avatar clicks leave the menu as it was |

## Left out

- The Prisma client and `getAuthSession` are not modelled.
  - The tables are maps in `Database.Db`.
  - The session is a parameter.
  - Row ids and `now()` timestamps generated by the database are parameters.
  - A thrown call is a `Fault` parameter.
- A deleted product's rows are not modelled. `Db.Valid` makes every row refer to a
  catalog product. So the case of removing a wishlisted product that has since
  been deleted cannot arise in the model. `WishlistRoute.Post` still answers 404
  for an unknown product whatever the membership.
- Malformed POST bodies are not modelled: a body that is not JSON is a `BodyThrows`
  fault, and a `quantity` of `null` or a non-number in POST `/api/cart` is not
  modelled.
- The `/api/cart/{id}` PATCH and DELETE route is not part of this model. The hooks
  take its reply as an opaque parameter, and none of its validation is modelled.
- `fetch`, `res.json()` and `NextResponse` are replaced by reply datatypes. The
  rejection that `fetchCart` lets escape is not modelled beyond leaving the state
  unchanged.
- The effects that run on a change of user are not modelled. These are `fetchCart`
  in useCart and the id reload in useWishlist; the caller invokes `FetchCart` and
  `Reload`.
- Concurrency is not modelled: interleaved hook calls and the stale-closure read
  of `wishlistedIds` are out of scope. Each call is one atomic step.
- Timers are modelled only by the state change they cause (`Toasts.ToastList.Expire`,
  `WishlistItemView.AddButton.TimerFires`). When they fire is not modelled.
- Floating-point arithmetic and `toFixed(2)` are not modelled. Money is integer
  cents, so the dollar strings are not modelled.
- Toasts.ToastList.ShowToast: takes the toast id as a parameter. The source draws it
  from `Math.random()`, so two toasts can share an id; then `removeToast` and the
  timer drop both. Such collisions are not modelled, and
  `Toasts.ShowThenDismissRestores` assumes a fresh id.
- Pricing.PercentOff: rounds the exact rational percentage. JavaScript rounds a
  double, which can differ at an exact half.
- UserMenu.UserInitial: takes the first `char`. `charAt(0)` takes the first UTF-16
  code unit.
- Animation, styling and markup are not modelled (GSAP, framer-motion, three.js,
  the hover flag in ProductCard). Neither is `signOut` in the user menu.
- Page and glue components are not modelled: CartPage, WishlistPage, ProductInfo,
  ProductDetail, the sign-in and sign-up modals, the products route and the seed
  script. The seed's prices and ratings appear only as fixtures.
