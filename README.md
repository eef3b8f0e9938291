# Marketplace order processing, modelled in Dafny

This project models the order-processing core of a small marketplace backend, nurof3n/java-unit-tests, written in Java with Spring.

The model has four layers:

- **Entities** (module `Model`, file `model.dfy`).
  - A product keeps its stock and the entries that reference it.
  - A cart entry has a quantity, and references its product and its cart.
  - A cart keeps its entries, a checked-out flag and its user.
  - A wishlist keeps products.
  - A user keeps an order history and a wishlist.
  - Entities are Dafny classes; the lists they change in place are `seq` fields.
  - The carts of an order history move through the states "no cart", "pending" and "checked out".
  - The documented invariant is `User.Valid`: every cart of the history but the last is checked out.
- **Services** (module `Services`, file `services.dfy`).
  - A generic `Repository` holds the stored records under generated ids, and the ids in creation order; `findAll` is taken to list the records in that order.
  - The cart-entry, cart and user services look records up by id, or fail with `IllegalArgument`.
  - `addToCart` and `addToWishlist` create the missing cart or wishlist lazily.
  - Two sorts list the stored carts and users in descending order.
- **Sorting** (module `Sorting`, file `sorting.dfy`).
  - The stable descending sort that `List.sort` with a reversed comparator performs.
  - It is written as an insertion sort on (key, item) pairs.
  - Proved properties include: the output is non-increasing, it is a permutation, and the items with equal keys keep their input order.
- **Tokens** (module `Jwt`, file `jwt.dfy`).
  - A token is modelled as its decoded claims: subject, issued-at and expiry.
  - Validation is the ordered chain of six guards.

Support modules:

- `Int32` (`int32.dfy`): Java's 32-bit `int` and its wrap-around.
- `Seqs` (`seqs.dfy`): `List.remove(Object)`.
- `Auth` (`auth.dfy`): the `UserDetails` view of a user.

Decisions that shape the model:

- **Equality.** Entity equality in the source is database-id equality. One object stands for one stored row, so here it is object identity.
- **Wrap-around.** Stock and quantity are Java `Integer`s, modelled as `int32`.
  - A stock decrement wraps at each step; `StockAfter` describes it.
  - `getTotalQuantity` is a left-to-right 32-bit sum.
- **Errors as results.** Exceptions are returned as `Outcome` or `Result` values.
  - `IllegalState`: no pending cart.
  - `IllegalArgument`: unknown id.
  - `NullPointer`: the user has no wishlist.
  - `UsernameNotFound`: no user has the given email.
- **Checkout follows the code.** Checkout keeps the checked-out cart in the history.
  - `User.checkout` sets the cart's flag before it calls `removeCurrentCart`, which then finds no pending cart.
  - The history length is therefore unchanged, as the application test asserts after checkout.
  - `User.checkout`'s own documentation (User.java:123) says it adds the cart to the order history, and the application test expects one cart in the history after checkout (JavaUnitTestsApplicationTests.java:122-127).
  - The flag is set even when validation failed and no stock was taken.
- **The clock.** Clocks are parameters: `issueClock`, `expiryClock` and `now`.

## Model

| member | source | states |
|---|---|---|
| Int32.Wrap | src/main/java/com/db/javaunittests/model/CartEntry.java:48 | the 32-bit result of an int subtraction: equal to the exact result when it is in range, and congruent to it modulo 2^32 always |
| Int32.WrapAdd | src/main/java/com/db/javaunittests/model/Cart.java:84 | wrapping an intermediate 32-bit result does not change the final wrapped result, so step-wise overflow equals one overflow of the exact total |
| Seqs.FirstIndex | src/main/java/com/db/javaunittests/model/Cart.java:48 | the index `List.remove(Object)` removes at: the first occurrence of the element, with no occurrence before it |
| Seqs.RemoveFirstAbsent | src/main/java/com/db/javaunittests/model/Cart.java:48 | removing an element the list does not hold leaves the list unchanged |
| Seqs.RemoveFirstPresent | src/main/java/com/db/javaunittests/model/Cart.java:48 | removing a held element cuts out exactly its first occurrence, keeps the rest in order, and shortens the list by one |
| Seqs.RemoveFirst | src/main/java/com/db/javaunittests/model/Product.java:50 | `List.remove(Object)`: the list is one shorter exactly when it held the element, and holds nothing new |
| Model.Product.AddCartEntry | src/main/java/com/db/javaunittests/model/Product.java:39-42 | the entry list becomes the old list plus the entry at the end, and the entry's product is this product; the frame leaves stock and name untouched |
| Model.Product.RemoveCartEntry | src/main/java/com/db/javaunittests/model/Product.java:49-52 | the list loses the first occurrence of the entry, or nothing when it is absent; the entry's product is null either way; stock and name are untouched |
| Model.CartEntry.ValidateCheckout | src/main/java/com/db/javaunittests/model/CartEntry.java:38-40 | holds exactly when the quantity is at most the product's stock (equality allowed); an entry that validates with a quantity that is not negative is taken without overflow and leaves a stock that is not negative |
| Model.CartEntry.Checkout | src/main/java/com/db/javaunittests/model/CartEntry.java:47-50 | the product's stock becomes old stock minus quantity, with 32-bit wrap-around and exact when in range; only the stock field can change, so quantity and cart stay as they were |
| Model.UncheckedCheckoutGoesNegative | src/main/java/com/db/javaunittests/model/CartEntry.java:47-50 | an entry's checkout has no check of its own: an entry for 1 taken from a stock of 0 leaves -1 |
| Model.Cart.AddCartEntry | src/main/java/com/db/javaunittests/model/Cart.java:37-40 | the entries become the old entries plus the entry at the end, and the entry's cart is this cart |
| Model.Cart.RemoveCartEntry | src/main/java/com/db/javaunittests/model/Cart.java:47-50 | the entries lose the first occurrence of the entry, or nothing when it is absent; the entry's cart is null either way |
| Model.Cart.Clear | src/main/java/com/db/javaunittests/model/Cart.java:55-58 | afterwards the entry list is empty and every former entry's cart is null |
| Model.Cart.ValidateCheckout | src/main/java/com/db/javaunittests/model/Cart.java:64-66 | holds exactly when every entry asks for at most its product's stock, each checked on its own; an empty cart validates |
| Model.Cart.GetTotalQuantity | src/main/java/com/db/javaunittests/model/Cart.java:83-85 | 0 for an empty cart; the exact sum of the quantities wrapped to 32 bits; the exact sum whenever it fits in an int |
| Model.StreamSumIsWrappedSum | src/main/java/com/db/javaunittests/model/Cart.java:84 | summing the quantities left to right in 32 bits equals wrapping the exact sum once |
| Model.Cart.Checkout | src/main/java/com/db/javaunittests/model/Cart.java:74-78 | when every entry validates, each referenced product ends at its stock after the entries were taken in order; when validation fails no stock changes; entries and flag are outside the frame |
| Model.CheckoutEntries | src/main/java/com/db/javaunittests/model/Cart.java:76 | the per-entry loop: after taking every entry in order, each product's stock is `StockAfter` its old stock and the entries' lines |
| Model.StockAfterIsWrappedDifference | src/main/java/com/db/javaunittests/model/Cart.java:74-78 | step-by-step 32-bit decrements leave each product at its old stock minus the summed quantity of the entries that reference it, wrapped once |
| Model.DistinctProductsBoundWithdrawal | src/main/java/com/db/javaunittests/model/Cart.java:64-78 | when the entries reference distinct products, the checkout takes from an entry's product exactly that entry's quantity |
| Model.DistinctValidatedLineLeavesDifference | src/main/java/com/db/javaunittests/model/CartEntry.java:38-40 | with distinct products, an entry that passes validation (quantity at most stock, equality allowed) and is not negative leaves its product at exactly stock minus quantity, which is not negative |
| Model.SharedProductOverdraws | src/main/java/com/db/javaunittests/model/Cart.java:64-78 | validation checks each entry on its own against the stock before checkout: two entries for 2 of one product with stock 3 both pass, and checkout leaves -1 |
| Model.User.Valid | src/main/java/com/db/javaunittests/model/User.java:46-49 | the documented history invariant, that every cart but the last is checked out; a history of at most one cart always satisfies it, and under it the first of two or more carts is checked out |
| Model.User.GetUncheckedOutCart | src/main/java/com/db/javaunittests/model/User.java:58-64 | null exactly when the history is empty or its last cart is checked out; otherwise the last cart, which is not checked out |
| Model.User.Archived | src/main/java/com/db/javaunittests/model/User.java:46-51 | the history without its pending cart: a prefix, one shorter exactly when a pending cart exists |
| Model.User.CurrentCartIsTheOnlyPending | src/main/java/com/db/javaunittests/model/User.java:46-51 | under the invariant, any cart that is not checked out is the last one and is the current cart; there is no current cart iff every cart is checked out; every archived cart is checked out |
| Model.User.Details | src/main/java/com/db/javaunittests/model/User.java:201-223 | the username that token checks compare with is the email; the four flags are the user's own |
| Model.User.AssignCart | src/main/java/com/db/javaunittests/model/User.java:71-81 | appends when there is no pending cart (one longer), overwrites the pending cart otherwise (same length); the history before the new last slot is the old archived history, as a sequence; the cart is pending and this user's; the invariant is preserved when the cart is not already in the archived history |
| Model.ReassignArchivedCart | src/main/java/com/db/javaunittests/model/User.java:71-81 | `assignCart` accepts a cart already archived in the history: assigning, checking out and assigning the same cart again yields the history [c, c] with c reopened, which breaks the invariant |
| Model.User.AddToCart | src/main/java/com/db/javaunittests/model/User.java:88-95 | throws IllegalState without a pending cart and changes nothing; otherwise appends the entry to the pending cart only; the invariant is preserved |
| Model.User.RemoveFromCart | src/main/java/com/db/javaunittests/model/User.java:102-109 | throws IllegalState without a pending cart; otherwise removes the entry's first occurrence from the pending cart and nulls the entry's cart; the invariant is preserved |
| Model.User.RemoveCurrentCart | src/main/java/com/db/javaunittests/model/User.java:114-120 | the history becomes its archived part: the pending cart is dropped and detached, and nothing changes without one; under the invariant, no cart is pending afterwards, so a second call does nothing, and the invariant is preserved |
| Model.User.Checkout | src/main/java/com/db/javaunittests/model/User.java:129-138 | throws IllegalState without a pending cart; otherwise the history is unchanged, its last cart is the former pending cart, now checked out, stock is taken only if the cart validated, and no cart is pending; the invariant is preserved |
| Model.User.AssignWishlist | src/main/java/com/db/javaunittests/model/User.java:145-148 | the user's wishlist is the given one and its user is this user |
| Model.User.AddToWishlist | src/main/java/com/db/javaunittests/model/User.java:155-157 | a user without a wishlist throws NullPointer; otherwise the product is appended to the wishlist |
| Model.User.RemoveFromWishlist | src/main/java/com/db/javaunittests/model/User.java:164-166 | a user without a wishlist throws NullPointer; otherwise the product's first occurrence is removed from the wishlist |
| Model.User.RemoveWishlist | src/main/java/com/db/javaunittests/model/User.java:171-176 | afterwards the user has no wishlist and the old one's user is null; with no wishlist nothing changes, so the call is idempotent |
| Model.Wishlist.AddProduct | src/main/java/com/db/javaunittests/model/User.java:155-157 | the product is appended to the wishlist's products; duplicates are allowed |
| Model.Wishlist.RemoveProduct | src/main/java/com/db/javaunittests/model/User.java:164-166 | the wishlist loses the first occurrence of the product, or nothing when it is absent |
| Services.Repository.FindById | src/main/java/com/db/javaunittests/service/UserService.java:32-34 | a record is found exactly when the id is stored, and it is the record stored under that id |
| Services.Repository.FindAll | src/main/java/com/db/javaunittests/service/CartService.java:28-30 | one record per stored id, in the order of the stored ids (taken to be creation order) |
| Services.Repository.FindAllComplete | src/main/java/com/db/javaunittests/service/UserService.java:40-42 | `findAll` lists every stored record, and as many records as are stored |
| Services.Repository.Save | src/main/java/com/db/javaunittests/service/UserService.java:28-30 | the record is stored under the next generated id, appended to the stored ids, and the next id is one higher; the repository invariant is preserved |
| Services.CartEntryService.CreateCartEntry | src/main/java/com/db/javaunittests/service/CartEntryService.java:26-31 | a new entry with the given quantity, referencing the product and no cart, added as the last of the product's entries and stored under the next id; the stock is outside the frame |
| Services.CartService.CreateCart | src/main/java/com/db/javaunittests/service/CartService.java:20-22 | the cart is stored under the next id, and the same cart is returned |
| Services.CartService.AddCartEntry | src/main/java/com/db/javaunittests/service/CartService.java:53-61 | fails with IllegalArgument for an unknown id and changes nothing; otherwise appends the entry to that cart only and returns the cart |
| Services.CartService.RemoveCartEntry | src/main/java/com/db/javaunittests/service/CartService.java:69-77 | fails with IllegalArgument for an unknown id and changes nothing; otherwise removes the entry's first occurrence from that cart only and nulls its cart |
| Services.CartService.ClearCart | src/main/java/com/db/javaunittests/service/CartService.java:84-92 | fails with IllegalArgument for an unknown id; otherwise empties that cart and detaches every former entry |
| Services.CartService.GetCartsSortedByQuantity | src/main/java/com/db/javaunittests/service/CartService.java:97-101 | a permutation of all stored carts, with non-increasing total quantity; carts with equal totals keep the order findAll lists them in |
| Services.UserService.AssignCart | src/main/java/com/db/javaunittests/service/UserService.java:65-73 | fails with IllegalArgument for an unknown id and changes nothing; otherwise the user's entity-level assignCart, on that user only |
| Services.UserService.GetCart | src/main/java/com/db/javaunittests/service/UserService.java:81-87 | fails with IllegalArgument for an unknown id; otherwise the user's pending cart, null exactly when the history is empty or its last cart is checked out |
| Services.UserService.ProvideCart | src/main/java/com/db/javaunittests/service/UserService.java:100-104 | the lazy step of addToCart: without a pending cart, a fresh empty cart is stored under the next id (appended to the stored ids, next id one higher) and appended to the history; otherwise nothing changes; the cart store stays valid; the pending cart is returned |
| Services.UserService.AddToCart | src/main/java/com/db/javaunittests/service/UserService.java:96-111 | fails with IllegalArgument for an unknown id and leaves the cart store unchanged; otherwise a pending cart exists and holds the entry; without one before, it is a fresh cart holding only the entry, stored under the next id (appended to the stored ids, next id one higher), and the history is one longer; with one, the entry is appended and the history length is unchanged; the user invariant and the cart store's validity are preserved, so the store can be listed and sorted afterwards |
| Services.UserService.RemoveFromCart | src/main/java/com/db/javaunittests/service/UserService.java:120-128 | IllegalArgument for an unknown id, IllegalState without a pending cart; otherwise that user's pending cart loses the entry's first occurrence |
| Services.UserService.RemoveCart | src/main/java/com/db/javaunittests/service/UserService.java:136-144 | IllegalArgument for an unknown id; otherwise the user's history becomes its archived part and the invariant is preserved |
| Services.UserService.Checkout | src/main/java/com/db/javaunittests/service/UserService.java:154-162 | IllegalArgument for an unknown id, IllegalState without a pending cart; otherwise the entity checkout on that user: the history is unchanged, its last cart is checked out, stock is taken only on validation, and no cart is pending |
| Services.UserService.AssignWishlist | src/main/java/com/db/javaunittests/service/UserService.java:171-179 | IllegalArgument for an unknown id; otherwise the user has the wishlist and the wishlist's user is that user |
| Services.UserService.GetWishlist | src/main/java/com/db/javaunittests/service/UserService.java:187-193 | IllegalArgument for an unknown id; otherwise the user's wishlist, possibly null |
| Services.UserService.ProvideWishlist | src/main/java/com/db/javaunittests/service/UserService.java:206-210 | the lazy step of addToWishlist: without a wishlist, a fresh empty one is stored under the next id (appended to the stored ids, next id one higher) and assigned; otherwise nothing changes; the wishlist store stays valid |
| Services.UserService.AddToWishlist | src/main/java/com/db/javaunittests/service/UserService.java:202-217 | IllegalArgument for an unknown id, with the wishlist store unchanged; otherwise the user has a wishlist holding the product; a lazily created one holds only the product and is stored under the next id (appended to the stored ids, next id one higher); the wishlist store stays valid |
| Services.UserService.RemoveFromWishlist | src/main/java/com/db/javaunittests/service/UserService.java:226-234 | IllegalArgument for an unknown id, NullPointer without a wishlist; otherwise the product's first occurrence leaves the user's wishlist |
| Services.UserService.RemoveWishlist | src/main/java/com/db/javaunittests/service/UserService.java:242-250 | IllegalArgument for an unknown id; otherwise the user has no wishlist and the old one is detached |
| Services.UserService.GetOrderHistory | src/main/java/com/db/javaunittests/service/UserService.java:268-274 | IllegalArgument for an unknown id; otherwise the user's history |
| Services.UserService.GetUsersSortedByNumberOfOrders | src/main/java/com/db/javaunittests/service/UserService.java:255-259 | a permutation of all stored users, with non-increasing history length; users with equally long histories keep the order findAll lists them in |
| Services.UserService.LoadUserByUsername | src/main/java/com/db/javaunittests/service/UserService.java:277-283 | fails with UsernameNotFound exactly when no stored user has the email; otherwise the details of the first stored user, in the order findAll lists them in, whose email is the username |
| Services.DistinctCardinality | src/main/java/com/db/javaunittests/service/UserService.java:40-42 | generated ids are distinct, so the stored records are as many as the ids |
| Sorting.Items | src/main/java/com/db/javaunittests/service/CartService.java:99 | dropping the sort keys keeps the length and the items in place |
| Sorting.WithKeyAppend | src/main/java/com/db/javaunittests/service/CartService.java:99 | the items with a given key in a concatenation are those of the first part followed by those of the second |
| Sorting.WithKeyNone | src/main/java/com/db/javaunittests/service/CartService.java:99 | a list whose keys are all below k has no item with key k |
| Sorting.InsertPermutes | src/main/java/com/db/javaunittests/service/CartService.java:99 | inserting adds exactly the inserted element |
| Sorting.InsertSorted | src/main/java/com/db/javaunittests/service/CartService.java:99 | inserting into a non-increasing list keeps it non-increasing |
| Sorting.InsertBelow | src/main/java/com/db/javaunittests/service/CartService.java:99 | inserting keys at most a bound into a list bounded by it keeps every key at most the bound |
| Sorting.InsertWithKey | src/main/java/com/db/javaunittests/service/CartService.java:99 | in a non-increasing list the inserted element goes after all elements with its key, so it is stable |
| Sorting.SortDescending | src/main/java/com/db/javaunittests/service/UserService.java:257 | the reference stable descending sort; its keys never increase (its permutation and stability are the two lemmas below) |
| Sorting.SortDescendingPermutes | src/main/java/com/db/javaunittests/service/UserService.java:257 | the sorted list is a permutation of the input |
| Sorting.SortDescendingStable | src/main/java/com/db/javaunittests/service/UserService.java:257 | for every key, the elements with that key appear in the same order as in the input |
| Sorting.SortDescendingMembers | src/main/java/com/db/javaunittests/service/UserService.java:257 | every element of the sorted list comes from the input |
| Sorting.InsertItems | src/main/java/com/db/javaunittests/service/UserService.java:257 | inserting adds exactly the inserted item to the items |
| Sorting.SortDescendingPermutesItems | src/main/java/com/db/javaunittests/service/UserService.java:257 | the sorted items are a permutation of the input items |
| Jwt.CreateTokenFromClaimsAndSubject | src/main/java/com/db/javaunittests/service/JWTService.java:65-69 | the token's subject is the given subject, its issue time the first clock reading and its expiry the second reading plus the timeout; when the clock does not run backwards, the token lives at least the timeout |
| Jwt.CreateTokenFromUserDetails | src/main/java/com/db/javaunittests/service/JWTService.java:53-56 | the token's subject is the user's username, which is the email |
| Jwt.ValidateTokenIsFirstFailure | src/main/java/com/db/javaunittests/service/JWTService.java:79-99 | validation is the ordered guard chain: subject, then expiry, then enabled, account not expired, credentials not expired, not locked; the first failing guard decides the error |
| Jwt.ValidateToken | src/main/java/com/db/javaunittests/service/JWTService.java:79-102 | never returns false; returns true exactly when the subject is the username, the token has not expired and all four account flags are set, and otherwise reports an error |
| Jwt.IsTokenExpired | src/main/java/com/db/javaunittests/service/JWTService.java:43-45 | a token is live (not expired) exactly up to and including its expiry instant, since `Date.before` is strict |
| Jwt.SubjectMismatchWins | src/main/java/com/db/javaunittests/service/JWTService.java:82-84 | in the guard chain on decoded claims, a subject mismatch is reported whatever the expiry and the account flags |
| Jwt.FreshTokenValidates | src/main/java/com/db/javaunittests/service/JWTService.java:43-102 | in the guard chain on decoded claims, a new token for an account with all four flags set, as registration sets them, validates at every time up to and including its expiry (expiry is strict), and is rejected as expired after |
| Jwt.TokenRejectedForOtherUser | src/main/java/com/db/javaunittests/service/JWTService.java:80-84 | in the guard chain on decoded claims, a token made for one account is rejected as invalid against an account with another username |

## Left out

- Controllers, the JWT request filter and the HTTP layer are not part of this model. They only route and marshal requests.
- Signing, encoding and parsing a token with jjwt are left out. A token is its decoded claims, and jjwt's truncation of dates to whole seconds is not modelled.
- BCrypt password hashing at registration is left out. The password is an opaque string.
- `Product.price` is a `Double` that no operation reads, so it is left out.
- Persistence is not modelled.
  - The Hibernate `equals`/`hashCode` become object identity.
  - The model assumes that saving an already stored record writes back the same object, so `update*` has no effect of its own. JPA's `save` of a detached entity instead returns a merged copy; the model does not track that copy.
  - The repositories' delete operations, which no modelled operation calls, are left out.
  - So are JPA cascades and orphan removal.
- `ProductService.updateProduct` is not part of this model. As shipped, `ProductService.java` declares it `void` (line 28), yet `CartEntry.java:49` assigns its result to the entry's product, so the two files come from different revisions. The model treats the call as the in-place stock write alone and leaves the entry's product reference unchanged.
- `UserRepository` as written declares no `findByEmail`. `loadUserByUsername` is modelled as a scan of the stored users that returns the first one, in the order findAll lists them in, whose email is the username.
- `Wishlist.java` as written has only an id and a `productList`.
  - It lacks the `addProduct`, `removeProduct` and `setUser` that `User.java` calls.
  - The model gives a wishlist a product sequence and a user back-reference: adding appends, and removing is `List.remove(Object)`.
- `WishlistService` is modelled only as the store that `createWishlist` saves to. Its own find-or-throw wrappers and `clearWishlist` are not part of this model.
- A null product in a cart entry is excluded by a precondition.
  - This affects `Model.CartEntry.ValidateCheckout`, `Model.CartEntry.Checkout`, `Model.Cart.ValidateCheckout`, `Model.Cart.Checkout`, `Model.User.Checkout` and `Services.UserService.Checkout`.
  - In the source such an entry would throw a NullPointerException once validation reaches it; `allMatch` stops at the first failing entry, so one after it is never read.
  - Only `Product.removeCartEntry` nulls the reference, and no service calls it.
- Null values of the boxed `Boolean` flags and of a boxed `Integer` quantity are not modelled. Each is a plain value.
- Jwt.ValidateToken: models the guard chain on decoded claims, not `validateToken` on an encoded token.
  - In the source, `extractEmail` parses the token first (JWTService.java:80, 40). jjwt's parser rejects an expired token there with its own `ExpiredJwtException`, before the subject guard is reached.
  - That exception is not a `JWTException`, so the request filter's `catch` (JWTRequestFilter.java:62) does not handle it. The filter also extracts the email outside that `try` (JWTRequestFilter.java:41).
  - So on an encoded token, the expiry guard fires only if the clock moves on between the parse and the comparison. "A subject mismatch wins whatever the expiry" holds of the guard chain, not of an expired encoded token.
- `findAll` is taken to list the records in creation order. The repositories' `findAll` query names no order, so the source promises none.
  - The stability statements of both sorts are relative to that order, and so is the first match of `loadUserByUsername`.
- The model is sequential: no concurrent requests. The source has no locking between a checkout's validation and its stock decrements, so two concurrent checkouts of one product could both pass validation and together overdraw it. This is not modelled.
- `List.sort` sorts the list in place, but the list that `findAll` returns is a fresh copy. The in-place sort is therefore modelled by its result: a pure, stable insertion sort.
- Clock readings are parameters, and so is the configured `jwtTimeout`. Times are unbounded integers, so the 64-bit `long` overflow of `currentTimeMillis() + jwtTimeout` (JWTService.java:68) is not modelled.
- `assignCart` on a cart already archived in the history reopens it and breaks the history invariant; see `Model.ReassignArchivedCart`. Among the modelled files, the only caller is `UserService.assignCart` (UserService.java:68), which only `UserService.addToCart` calls (UserService.java:103), with a fresh cart, and `Services.UserService.AddToCart` keeps the invariant.
