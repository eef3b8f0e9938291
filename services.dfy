/**
 * The service layer: repositories of persisted entities and the services that look
 * records up by id, apply the entity operations, and sort the stored records.
 * Saving an entity that is already stored writes back the same object, so in this model
 * `update*` has no effect of its own and is not a step.
 */
module Services {
  import opened Int32
  import opened Seqs
  import opened Model
  import opened Sorting
  import opened Wrappers
  import Auth

  /** What a service call returns, or the exception it throws. */
  datatype Result<T> = Success(value: T) | Failure(error: Exception)

  /**
   * A Spring Data repository: records under generated ids, and the ids in the order the
   * records were created. `findAll` is taken to list the records in that order; the
   * repositories' query names no order.
   */
  class Repository<T(==)> {
    var records: map<int, T>
    var ids: seq<int>
    var nextId: int

    ghost predicate Valid()
      reads this
    {
      (forall i :: 0 <= i < |ids| ==> ids[i] in records && ids[i] < nextId) &&
      (forall id :: id in records ==> id in ids) &&
      (forall i, j :: 0 <= i < j < |ids| ==> ids[i] != ids[j])
    }

    constructor ()
      ensures Valid() && records == map[] && ids == []
    {
      records := map[];
      ids := [];
      nextId := 1;
    }

    /** `findById`. */
    function FindById(id: int): (r: Option<T>)
      reads this
      ensures r.Some? <==> id in records
      ensures r.Some? ==> r.value == records[id]
    {
      if id in records then Some(records[id]) else None
    }

    /** `findAll`: one record per stored id, in the order of `ids` (taken to be the order findAll lists). */
    function FindAll(): (r: seq<T>)
      requires Valid()
      reads this
      ensures |r| == |ids| && forall i :: 0 <= i < |ids| ==> r[i] == records[ids[i]]
    {
      var ids, records := this.ids, this.records;
      seq(|ids|, i requires 0 <= i < |ids| && ids[i] in records => records[ids[i]])
    }

    /** `findAll` lists every record, once per id. */
    lemma FindAllComplete()
      requires Valid()
      ensures |FindAll()| == |records|
      ensures forall id :: id in records ==> records[id] in FindAll()
    {
      var keys := set i | 0 <= i < |ids| :: ids[i];
      forall id | id in records
        ensures id in keys && records[id] in FindAll()
      {
        var i :| 0 <= i < |ids| && ids[i] == id;
        assert FindAll()[i] == records[id];
      }
      assert records.Keys == keys;
      DistinctCardinality(ids);
    }

    /** `save` of a new record: it is stored under the next generated id. */
    method Save(x: T) returns (id: int)
      modifies this
      ensures id == old(nextId) && nextId == id + 1
      ensures records == old(records)[id := x] && ids == old(ids) + [id]
      ensures old(Valid()) ==> Valid()
    {
      id := nextId;
      records := records[id := x];
      ids := ids + [id];
      nextId := nextId + 1;
    }
  }

  /** A sequence without repetitions has as many distinct elements as it is long. */
  lemma {:induction false} DistinctCardinality(s: seq<int>)
    requires forall i, j :: 0 <= i < j < |s| ==> s[i] != s[j]
    ensures |set i | 0 <= i < |s| :: s[i]| == |s|
  {
    if s != [] {
      var init := s[..|s| - 1];
      DistinctCardinality(init);
      var a := set i | 0 <= i < |init| :: init[i];
      var b := set i | 0 <= i < |s| :: s[i];
      assert b == a + {s[|s| - 1]};
      assert s[|s| - 1] !in a;
    }
  }

  class CartEntryService {
    const entries: Repository<CartEntry>

    constructor (entries: Repository<CartEntry>)
      ensures this.entries == entries
    {
      this.entries := entries;
    }

    /**
     * `createCartEntry`: a new entry with the quantity, attached to the product (appended
     * to its entries) and to no cart, stored under the next id; the stock is not touched.
     */
    method CreateCartEntry(quantity: int32, product: Product) returns (entry: CartEntry)
      modifies entries, product`cartEntries
      ensures fresh(entry)
      ensures entry.quantity == quantity && entry.product == product && entry.cart == null
      ensures product.cartEntries == old(product.cartEntries) + [entry]
      ensures entries.records == old(entries.records)[old(entries.nextId) := entry]
      ensures entries.ids == old(entries.ids) + [old(entries.nextId)] && entries.nextId == old(entries.nextId) + 1
      ensures old(entries.Valid()) ==> entries.Valid()
    {
      entry := new CartEntry(quantity);
      product.AddCartEntry(entry);
      var _ := entries.Save(entry);
    }
  }

  class CartService {
    const carts: Repository<Cart>

    constructor (carts: Repository<Cart>)
      ensures this.carts == carts
    {
      this.carts := carts;
    }

    /** The stored cart with the id, as a frame. */
    function CartAt(id: int): set<Cart>
      reads carts
    {
      if id in carts.records then {carts.records[id]} else {}
    }

    /** `createCart`: the cart is stored under the next id. */
    method CreateCart(cart: Cart) returns (r: Cart)
      modifies carts
      ensures r == cart
      ensures carts.records == old(carts.records)[old(carts.nextId) := cart]
      ensures carts.ids == old(carts.ids) + [old(carts.nextId)] && carts.nextId == old(carts.nextId) + 1
      ensures old(carts.Valid()) ==> carts.Valid()
    {
      var _ := carts.Save(cart);
      r := cart;
    }

    /** `addCartEntry`: appends the entry to the stored cart, or throws for an unknown id. */
    method AddCartEntry(id: int, entry: CartEntry) returns (r: Result<Cart>)
      modifies CartAt(id)`cartEntries, entry`cart
      ensures id !in carts.records ==> r == Failure(IllegalArgument) && unchanged(entry)
      ensures id in carts.records ==> (
        var c := carts.records[id];
        r == Success(c) && c.cartEntries == old(c.cartEntries) + [entry] && entry.cart == c)
    {
      match carts.FindById(id)
      case None => return Failure(IllegalArgument);
      case Some(c) =>
        c.AddCartEntry(entry);
        return Success(c);
    }

    /** `removeCartEntry`: removes the entry from the stored cart, or throws for an unknown id. */
    method RemoveCartEntry(id: int, entry: CartEntry) returns (o: Outcome)
      modifies CartAt(id)`cartEntries, entry`cart
      ensures id !in carts.records ==> o == Thrown(IllegalArgument) && unchanged(entry)
      ensures id in carts.records ==> (
        var c := carts.records[id];
        o == Done && c.cartEntries == RemoveFirst(old(c.cartEntries), entry) && entry.cart == null)
    {
      match carts.FindById(id)
      case None => return Thrown(IllegalArgument);
      case Some(c) =>
        c.RemoveCartEntry(entry);
        return Done;
    }

    /** The entries of the stored cart with the id, as a frame. */
    function EntriesAt(id: int): seq<CartEntry>
      reads carts, CartAt(id)
    {
      if id in carts.records then carts.records[id].cartEntries else []
    }

    /** `clearCart`: detaches and drops every entry of the stored cart, or throws for an unknown id. */
    method ClearCart(id: int) returns (o: Outcome)
      modifies CartAt(id)`cartEntries, EntriesAt(id)`cart
      ensures id !in carts.records ==> o == Thrown(IllegalArgument)
      ensures id in carts.records ==> (
        var c := carts.records[id];
        o == Done && c.cartEntries == [] &&
        forall i :: 0 <= i < |old(c.cartEntries)| ==> old(c.cartEntries)[i].cart == null)
    {
      match carts.FindById(id)
      case None => return Thrown(IllegalArgument);
      case Some(c) =>
        c.Clear();
        return Done;
    }

    /**
     * `getCartsSortedByQuantity`: every stored cart, largest total quantity first; carts
     * with the same total keep the order findAll lists them in.
     */
    method GetCartsSortedByQuantity() returns (r: seq<Cart>)
      requires carts.Valid()
      ensures multiset(r) == multiset(carts.FindAll())
      ensures forall i, j :: 0 <= i < j < |r| ==> r[i].GetTotalQuantity() >= r[j].GetTotalQuantity()
      ensures forall q :: WithKey(ByQuantity(r), q) == WithKey(ByQuantity(carts.FindAll()), q)
    {
      var all := carts.FindAll();
      var keyed := ByQuantity(all);
      var sorted := SortDescending(keyed);
      r := Items(sorted);
      SortDescendingPermutesItems(keyed);
      assert Items(keyed) == all;
      SortDescendingMembers(keyed);
      forall i | 0 <= i < |sorted| ensures ByQuantity(r)[i] == sorted[i] {
        assert sorted[i] in keyed;
      }
      assert ByQuantity(r) == sorted;
      forall q ensures WithKey(ByQuantity(r), q) == WithKey(keyed, q) {
        SortDescendingStable(keyed, q);
      }
    }
  }

  /** The entries of the carts: what their total quantities read. */
  function EntriesOf(carts: seq<Cart>): (r: set<CartEntry>)
    reads carts
    ensures forall i, e :: 0 <= i < |carts| && e in carts[i].cartEntries ==> e in r
  {
    set i, e | 0 <= i < |carts| && e in carts[i].cartEntries :: e
  }

  /** The carts keyed by `getTotalQuantity`, the key the cart sort compares. */
  function ByQuantity(carts: seq<Cart>): (r: seq<Keyed<Cart>>)
    reads carts, EntriesOf(carts)
    ensures |r| == |carts|
    ensures forall i :: 0 <= i < |carts| ==> r[i] == Keyed(carts[i].GetTotalQuantity() as int, carts[i])
  {
    seq(|carts|, i reads carts, EntriesOf(carts) requires 0 <= i < |carts| => Keyed(carts[i].GetTotalQuantity() as int, carts[i]))
  }

  class UserService {
    const users: Repository<User>
    const cartService: CartService
    /** The repository that `WishlistService.createWishlist` saves to. */
    const wishlists: Repository<Wishlist>

    constructor (users: Repository<User>, cartService: CartService, wishlists: Repository<Wishlist>)
      ensures this.users == users && this.cartService == cartService && this.wishlists == wishlists
    {
      this.users, this.cartService, this.wishlists := users, cartService, wishlists;
    }

    /** The stored user with the id, as a frame. */
    function UserAt(id: int): set<User>
      reads users
    {
      if id in users.records then {users.records[id]} else {}
    }

    function HistoryAt(id: int): seq<Cart>
      reads users, UserAt(id)
    {
      if id in users.records then users.records[id].orderHistory else []
    }

    /** The stored user's current cart, as a frame. */
    function CurrentCartAt(id: int): set<Cart>
      reads users, UserAt(id), HistoryAt(id)
    {
      if id in users.records then users.records[id].CurrentCartFrame() else {}
    }

    /** The stored user's wishlist, as a frame. */
    function WishlistAt(id: int): set<Wishlist>
      reads users, UserAt(id)
    {
      if id in users.records && users.records[id].wishlist != null then {users.records[id].wishlist} else {}
    }

    /** `assignCart`: assigns the cart to the stored user, or throws for an unknown id. */
    method AssignCart(id: int, cart: Cart) returns (r: Result<User>)
      modifies UserAt(id)`orderHistory, cart`checkedOut, cart`user
      ensures id !in users.records ==> r == Failure(IllegalArgument) && unchanged(cart)
      ensures id in users.records ==> (
        var u := users.records[id];
        r == Success(u) && u.orderHistory == old(u.Archived()) + [cart] &&
        !cart.checkedOut && cart.user == u && u.GetUncheckedOutCart() == cart &&
        (old(u.Valid()) && cart !in old(u.Archived()) ==> u.Valid()))
    {
      match users.FindById(id)
      case None => return Failure(IllegalArgument);
      case Some(u) =>
        u.AssignCart(cart);
        return Success(u);
    }

    /** `getCart`: the stored user's pending cart (null without one), or throws for an unknown id. */
    method GetCart(id: int) returns (r: Result<Cart?>)
      ensures id !in users.records ==> r == Failure(IllegalArgument)
      ensures id in users.records ==> (r.Success? &&
        var u, c := users.records[id], r.value;
        (c == null <==> u.orderHistory == [] || u.orderHistory[|u.orderHistory| - 1].checkedOut) &&
        (c != null ==> c == u.orderHistory[|u.orderHistory| - 1] && !c.checkedOut))
    {
      match users.FindById(id)
      case None => return Failure(IllegalArgument);
      case Some(u) => return Success(u.GetUncheckedOutCart());
    }

    /**
     * The first step of `addToCart`: a stored user without a pending cart gets a new cart,
     * which is stored and assigned; the pending cart is returned.
     */
    method ProvideCart(id: int) returns (c: Cart)
      requires id in users.records
      modifies UserAt(id)`orderHistory, cartService.carts
      ensures
        var u := users.records[id];
        c == u.GetUncheckedOutCart() &&
        (old(u.GetUncheckedOutCart()) == null ==>
          fresh(c) && c.user == u && c.cartEntries == [] &&
          u.orderHistory == old(u.orderHistory) + [c] &&
          cartService.carts.records == old(cartService.carts.records)[old(cartService.carts.nextId) := c] &&
          cartService.carts.ids == old(cartService.carts.ids) + [old(cartService.carts.nextId)] &&
          cartService.carts.nextId == old(cartService.carts.nextId) + 1) &&
        (old(u.GetUncheckedOutCart()) != null ==>
          c == old(u.GetUncheckedOutCart()) && u.orderHistory == old(u.orderHistory) && unchanged(cartService.carts)) &&
        (old(u.Valid()) ==> u.Valid()) &&
        (old(cartService.carts.Valid()) ==> cartService.carts.Valid())
    {
      var pending := GetCart(id);
      if pending == Success(null) {
        var cart := new Cart();
        cart := cartService.CreateCart(cart);
        var _ := AssignCart(id, cart);
        c := cart;
      } else {
        c := pending.value;
      }
    }

    /**
     * `addToCart`: when the stored user has no pending cart, creates one, stores it and
     * assigns it; then adds the entry to the pending cart. Throws for an unknown id.
     */
    method AddToCart(id: int, entry: CartEntry) returns (r: Result<User>)
      modifies UserAt(id)`orderHistory, CurrentCartAt(id)`cartEntries, entry`cart, cartService.carts
      ensures id !in users.records ==>
        r == Failure(IllegalArgument) && unchanged(entry) && unchanged(cartService.carts)
      ensures id in users.records ==> (
        var u := users.records[id];
        var c := u.GetUncheckedOutCart();
        r == Success(u) && c != null && entry.cart == c &&
        (old(u.GetUncheckedOutCart()) == null ==>
          fresh(c) && c.user == u && c.cartEntries == [entry] &&
          u.orderHistory == old(u.orderHistory) + [c] &&
          cartService.carts.records == old(cartService.carts.records)[old(cartService.carts.nextId) := c] &&
          cartService.carts.ids == old(cartService.carts.ids) + [old(cartService.carts.nextId)] &&
          cartService.carts.nextId == old(cartService.carts.nextId) + 1) &&
        (old(u.GetUncheckedOutCart()) != null ==>
          c == old(u.GetUncheckedOutCart()) && c.cartEntries == old(c.cartEntries) + [entry] &&
          u.orderHistory == old(u.orderHistory) && unchanged(cartService.carts)) &&
        (old(u.Valid()) ==> u.Valid()) &&
        (old(cartService.carts.Valid()) ==> cartService.carts.Valid()))
    {
      match users.FindById(id)
      case None => return Failure(IllegalArgument);
      case Some(u) =>
        var _ := ProvideCart(id);
        var o := u.AddToCart(entry);
        assert o == Done;  // a pending cart exists now, so the entity operation does not throw
        return Success(u);
    }

    /** `removeFromCart`: removes the entry from the stored user's pending cart; throws without one or for an unknown id. */
    method RemoveFromCart(id: int, entry: CartEntry) returns (r: Result<User>)
      modifies CurrentCartAt(id)`cartEntries, entry`cart
      ensures id !in users.records ==> r == Failure(IllegalArgument) && unchanged(entry)
      ensures id in users.records ==> (
        var u := users.records[id];
        var c := old(u.GetUncheckedOutCart());
        (c == null ==> r == Failure(IllegalState) && unchanged(entry)) &&
        (c != null ==> r == Success(u) && c.cartEntries == RemoveFirst(old(c.cartEntries), entry) && entry.cart == null))
    {
      match users.FindById(id)
      case None => return Failure(IllegalArgument);
      case Some(u) =>
        var o := u.RemoveFromCart(entry);
        if o.Thrown? {
          return Failure(o.exception);
        }
        return Success(u);
    }

    /** `removeCart`: drops the stored user's pending cart, if any; throws for an unknown id. */
    method RemoveCart(id: int) returns (r: Result<User>)
      modifies UserAt(id)`orderHistory, CurrentCartAt(id)`user
      ensures id !in users.records ==> r == Failure(IllegalArgument)
      ensures id in users.records ==> (
        var u := users.records[id];
        r == Success(u) && u.orderHistory == old(u.Archived()) &&
        (old(u.GetUncheckedOutCart()) != null ==> old(u.GetUncheckedOutCart()).user == null) &&
        (old(u.Valid()) ==> u.Valid() && u.GetUncheckedOutCart() == null))
    {
      match users.FindById(id)
      case None => return Failure(IllegalArgument);
      case Some(u) =>
        u.RemoveCurrentCart();
        return Success(u);
    }

    /**
     * `checkout`: checks out the stored user's pending cart (stock changes only when it
     * validates) and archives it; throws without a pending cart or for an unknown id.
     */
    method Checkout(id: int) returns (r: Result<User>)
      requires id in users.records ==> users.records[id].CurrentEntriesHaveProducts()
      modifies UserAt(id)`orderHistory, CurrentCartAt(id)`checkedOut
      modifies (if id in users.records then users.records[id].CheckoutFrame() else {})`stock
      ensures id !in users.records ==> r == Failure(IllegalArgument)
      ensures id in users.records ==> (
        var u := users.records[id];
        var c := old(u.GetUncheckedOutCart());
        u.orderHistory == old(u.orderHistory) && u.GetUncheckedOutCart() == null &&
        (c == null ==> r == Failure(IllegalState)) &&
        (c != null ==> (r == Success(u) &&
          u.orderHistory[|u.orderHistory| - 1] == c && c.checkedOut &&
          (old(c.ValidateCheckout()) ==>
            forall p: Product :: p in old(c.Products()) ==> p.stock == StockAfter(old(p.stock), old(Lines(c.cartEntries)), p)) &&
          (!old(c.ValidateCheckout()) ==>
            forall p: Product :: p in old(c.Products()) ==> p.stock == old(p.stock)))) &&
        (old(u.Valid()) ==> u.Valid()))
    {
      match users.FindById(id)
      case None => return Failure(IllegalArgument);
      case Some(u) =>
        var o := u.Checkout();
        if o.Thrown? {
          return Failure(o.exception);
        }
        return Success(u);
    }

    /** `assignWishlist`: gives the stored user the wishlist; throws for an unknown id. */
    method AssignWishlist(id: int, w: Wishlist) returns (r: Result<User>)
      modifies UserAt(id)`wishlist, w`user
      ensures id !in users.records ==> r == Failure(IllegalArgument) && unchanged(w)
      ensures id in users.records ==> (
        var u := users.records[id];
        r == Success(u) && u.wishlist == w && w.user == u)
    {
      match users.FindById(id)
      case None => return Failure(IllegalArgument);
      case Some(u) =>
        u.AssignWishlist(w);
        return Success(u);
    }

    /** `getWishlist`: the stored user's wishlist (null without one); throws for an unknown id. */
    method GetWishlist(id: int) returns (r: Result<Wishlist?>)
      ensures id !in users.records ==> r == Failure(IllegalArgument)
      ensures id in users.records ==> r == Success(users.records[id].wishlist)
    {
      match users.FindById(id)
      case None => return Failure(IllegalArgument);
      case Some(u) => return Success(u.wishlist);
    }

    /**
     * The first step of `addToWishlist`: a stored user without a wishlist gets a new one,
     * which is stored and assigned; the user's wishlist is returned.
     */
    method ProvideWishlist(id: int) returns (w: Wishlist)
      requires id in users.records
      modifies UserAt(id)`wishlist, wishlists
      ensures
        var u := users.records[id];
        w == u.wishlist &&
        (old(u.wishlist) == null ==>
          fresh(w) && w.products == [] && w.user == u &&
          wishlists.records == old(wishlists.records)[old(wishlists.nextId) := w] &&
          wishlists.ids == old(wishlists.ids) + [old(wishlists.nextId)] &&
          wishlists.nextId == old(wishlists.nextId) + 1) &&
        (old(u.wishlist) != null ==> w == old(u.wishlist) && unchanged(wishlists)) &&
        (old(wishlists.Valid()) ==> wishlists.Valid())
    {
      var current := GetWishlist(id);
      if current == Success(null) {
        var wishlist := new Wishlist();
        var _ := wishlists.Save(wishlist);
        var _ := AssignWishlist(id, wishlist);
        w := wishlist;
      } else {
        w := current.value;
      }
    }

    /**
     * `addToWishlist`: when the stored user has no wishlist, creates, stores and assigns
     * one; then adds the product to it. Throws for an unknown id.
     */
    method AddToWishlist(id: int, product: Product) returns (r: Result<User>)
      modifies UserAt(id)`wishlist, WishlistAt(id)`products, wishlists
      ensures id !in users.records ==> r == Failure(IllegalArgument) && unchanged(wishlists)
      ensures id in users.records ==> (
        var u := users.records[id];
        var w := u.wishlist;
        r == Success(u) && w != null &&
        (old(u.wishlist) == null ==>
          fresh(w) && w.products == [product] && w.user == u &&
          wishlists.records == old(wishlists.records)[old(wishlists.nextId) := w] &&
          wishlists.ids == old(wishlists.ids) + [old(wishlists.nextId)] &&
          wishlists.nextId == old(wishlists.nextId) + 1) &&
        (old(u.wishlist) != null ==>
          w == old(u.wishlist) && w.products == old(w.products) + [product] && unchanged(wishlists)) &&
        (old(wishlists.Valid()) ==> wishlists.Valid()))
    {
      match users.FindById(id)
      case None => return Failure(IllegalArgument);
      case Some(u) =>
        var _ := ProvideWishlist(id);
        var o := u.AddToWishlist(product);
        assert o == Done;  // the user has a wishlist now, so the entity operation does not throw
        return Success(u);
    }

    /** `removeFromWishlist`: removes the product from the stored user's wishlist; a user without one gets a NullPointerException. */
    method RemoveFromWishlist(id: int, product: Product) returns (r: Result<User>)
      modifies WishlistAt(id)`products
      ensures id !in users.records ==> r == Failure(IllegalArgument)
      ensures id in users.records ==> (
        var u := users.records[id];
        (old(u.wishlist) == null ==> r == Failure(NullPointer)) &&
        (old(u.wishlist) != null ==>
          r == Success(u) && u.wishlist.products == RemoveFirst(old(u.wishlist.products), product)))
    {
      match users.FindById(id)
      case None => return Failure(IllegalArgument);
      case Some(u) =>
        var o := u.RemoveFromWishlist(product);
        if o.Thrown? {
          return Failure(o.exception);
        }
        return Success(u);
    }

    /** `removeWishlist`: detaches and drops the stored user's wishlist, if any; throws for an unknown id. */
    method RemoveWishlist(id: int) returns (r: Result<User>)
      modifies UserAt(id)`wishlist, WishlistAt(id)`user
      ensures id !in users.records ==> r == Failure(IllegalArgument)
      ensures id in users.records ==> (
        var u := users.records[id];
        r == Success(u) && u.wishlist == null &&
        (old(u.wishlist) != null ==> old(u.wishlist).user == null))
    {
      match users.FindById(id)
      case None => return Failure(IllegalArgument);
      case Some(u) =>
        u.RemoveWishlist();
        return Success(u);
    }

    /** `getOrderHistory`: the stored user's history; throws for an unknown id. */
    method GetOrderHistory(id: int) returns (r: Result<seq<Cart>>)
      ensures id !in users.records ==> r == Failure(IllegalArgument)
      ensures id in users.records ==> r == Success(users.records[id].orderHistory)
    {
      match users.FindById(id)
      case None => return Failure(IllegalArgument);
      case Some(u) => return Success(u.orderHistory);
    }

    /**
     * `getUsersSortedByNumberOfOrders`: every stored user, longest history first; users
     * with histories of the same length keep the order findAll lists them in.
     */
    method GetUsersSortedByNumberOfOrders() returns (r: seq<User>)
      requires users.Valid()
      ensures multiset(r) == multiset(users.FindAll())
      ensures forall i, j :: 0 <= i < j < |r| ==> |r[i].orderHistory| >= |r[j].orderHistory|
      ensures forall n :: WithKey(ByOrders(r), n) == WithKey(ByOrders(users.FindAll()), n)
    {
      var all := users.FindAll();
      var keyed := ByOrders(all);
      var sorted := SortDescending(keyed);
      r := Items(sorted);
      SortDescendingPermutesItems(keyed);
      assert Items(keyed) == all;
      SortDescendingMembers(keyed);
      forall i | 0 <= i < |sorted| ensures ByOrders(r)[i] == sorted[i] {
        assert sorted[i] in keyed;
      }
      assert ByOrders(r) == sorted;
      forall n ensures WithKey(ByOrders(r), n) == WithKey(keyed, n) {
        SortDescendingStable(keyed, n);
      }
    }

    /**
     * `loadUserByUsername`: the details of the stored user whose email is the username,
     * the first in the order findAll lists them in; throws when no stored user has that email.
     */
    method LoadUserByUsername(username: string) returns (r: Result<Auth.UserDetails>)
      requires users.Valid()
      ensures r.Failure? ==> r.error == UsernameNotFound
      ensures r.Failure? <==> forall id :: id in users.records ==> users.records[id].email != username
      ensures r.Success? ==> exists k :: (0 <= k < |users.ids| &&
        users.FindAll()[k].email == username && r.value == users.FindAll()[k].Details() &&
        forall j :: 0 <= j < k ==> users.FindAll()[j].email != username)
    {
      var all := users.FindAll();
      users.FindAllComplete();
      for k := 0 to |all|
        invariant forall j :: 0 <= j < k ==> all[j].email != username
      {
        if all[k].email == username {
          return Success(all[k].Details());
        }
      }
      return Failure(UsernameNotFound);
    }
  }

  /** The users keyed by the length of their history, the key the user sort compares. */
  function ByOrders(users: seq<User>): (r: seq<Keyed<User>>)
    reads users
    ensures |r| == |users|
    ensures forall i :: 0 <= i < |users| ==> r[i] == Keyed(|users[i].orderHistory|, users[i])
  {
    seq(|users|, i reads users requires 0 <= i < |users| => Keyed(|users[i].orderHistory|, users[i]))
  }
}
