/**
 * The entity layer of the marketplace: products, cart entries, carts, wishlists and users,
 * with the back-references the entities keep to each other. Entities are objects; one
 * object stands for one persisted row, so entity equality (by database id) is object identity
 * and `List.remove(Object)` removes the first identical element.
 */
module Model {
  import opened Int32
  import opened Seqs
  import Auth

  /** The exceptions the operations throw, as results. */
  datatype Exception =
    | IllegalState      // the operation needs a pending cart and there is none
    | IllegalArgument   // no record with the given id
    | NullPointer       // the operation dereferences a wishlist the user does not have
    | UsernameNotFound  // no user has the given email

  datatype Outcome = Done | Thrown(exception: Exception)

  // ---------------------------------------------------------------------------------------
  // Quantities of a list of entries

  /** The exact sum of the entries' quantities. */
  function QuantitySum(entries: seq<CartEntry>): int
    reads entries
  {
    if entries == [] then 0
    else QuantitySum(entries[..|entries| - 1]) + entries[|entries| - 1].quantity as int
  }

  /** `mapToInt(CartEntry::getQuantity).sum()`: left-to-right 32-bit additions. */
  function StreamSum(entries: seq<CartEntry>): int32
    reads entries
  {
    if entries == [] then 0
    else Wrap(StreamSum(entries[..|entries| - 1]) as int + entries[|entries| - 1].quantity as int)
  }

  /** What an entry contributes to a checkout: the product it references and its quantity. */
  datatype Line = Line(product: Product?, quantity: int32)

  function Lines(entries: seq<CartEntry>): (r: seq<Line>)
    reads entries
    ensures |r| == |entries|
    ensures forall i :: 0 <= i < |entries| ==> r[i] == Line(entries[i].product, entries[i].quantity)
  {
    seq(|entries|, i reads entries requires 0 <= i < |entries| => Line(entries[i].product, entries[i].quantity))
  }

  /** The summed quantities of the lines that reference `p`: what a checkout takes from p's stock. */
  function QuantityFor(lines: seq<Line>, p: Product): int
  {
    if lines == [] then 0
    else
      var last := lines[|lines| - 1];
      QuantityFor(lines[..|lines| - 1], p) + (if last.product == p then last.quantity as int else 0)
  }

  /** The 32-bit stream sum is the exact sum wrapped once. */
  lemma {:induction false} StreamSumIsWrappedSum(entries: seq<CartEntry>)
    ensures StreamSum(entries) == Wrap(QuantitySum(entries))
  {
    if entries != [] {
      var init := entries[..|entries| - 1];
      StreamSumIsWrappedSum(init);
      WrapAdd(QuantitySum(init), entries[|entries| - 1].quantity as int);
    }
  }

  /**
   * When every entry references a different product, an entry that passes validation by
   * itself bounds everything the checkout takes from its product.
   */
  lemma {:induction false} DistinctProductsBoundWithdrawal(lines: seq<Line>, k: nat)
    requires k < |lines| && lines[k].product != null
    requires forall i, j :: 0 <= i < j < |lines| ==> lines[i].product != lines[j].product
    ensures QuantityFor(lines, lines[k].product) == lines[k].quantity as int
  {
    var init := lines[..|lines| - 1];
    if k < |lines| - 1 {
      DistinctProductsBoundWithdrawal(init, k);
    } else {
      QuantityForAbsent(init, lines[k].product);
    }
  }

  /**
   * The stock `p` is left with when the lines are checked out in order, starting from
   * `initial`: each line that references `p` takes its quantity with a 32-bit subtraction.
   */
  function StockAfter(initial: int32, lines: seq<Line>, p: Product): int32
  {
    if lines == [] then initial
    else
      var before := StockAfter(initial, lines[..|lines| - 1], p);
      var last := lines[|lines| - 1];
      if last.product == p then Wrap(before as int - last.quantity as int) else before
  }

  lemma StockAfterStep(initial: int32, lines: seq<Line>, i: nat, p: Product)
    requires i < |lines|
    ensures StockAfter(initial, lines[..i + 1], p) ==
      var before := StockAfter(initial, lines[..i], p);
      if lines[i].product == p then Wrap(before as int - lines[i].quantity as int) else before
  {
    assert lines[..i + 1][..i] == lines[..i];
  }

  /** Step-by-step 32-bit subtraction ends where one subtraction of the summed quantity ends. */
  lemma {:induction false} StockAfterIsWrappedDifference(initial: int32, lines: seq<Line>, p: Product)
    ensures StockAfter(initial, lines, p) == Wrap(initial as int - QuantityFor(lines, p))
  {
    if lines != [] {
      var init := lines[..|lines| - 1];
      var last := lines[|lines| - 1];
      StockAfterIsWrappedDifference(initial, init, p);
      if last.product == p {
        WrapAdd(initial as int - QuantityFor(init, p), -(last.quantity as int));
      }
    }
  }

  /**
   * When every line references a different product, a line whose quantity lies between 0
   * and its product's starting stock leaves that product with exactly the difference,
   * which is not negative.
   */
  lemma DistinctValidatedLineLeavesDifference(initial: int32, lines: seq<Line>, k: nat)
    requires k < |lines| && lines[k].product != null
    requires forall i, j :: 0 <= i < j < |lines| ==> lines[i].product != lines[j].product
    requires 0 <= lines[k].quantity <= initial
    ensures StockAfter(initial, lines, lines[k].product) as int == initial as int - lines[k].quantity as int >= 0
  {
    StockAfterIsWrappedDifference(initial, lines, lines[k].product);
    DistinctProductsBoundWithdrawal(lines, k);
  }

  /** An entry's checkout has no check of its own: from a stock of 0, an entry for 1 leaves -1. */
  lemma UncheckedCheckoutGoesNegative(p: Product)
    ensures StockAfter(0, [Line(p, 1)], p) == -1
  {
    assert [Line(p, 1)][..0] == [];
    assert StockAfter(0, [Line(p, 1)], p) == Wrap(0 - 1);
  }

  /**
   * Validation compares each entry with the stock before any is taken, so two entries for
   * the same product can both pass and together overdraw it: stock 3, two entries for 2.
   */
  lemma SharedProductOverdraws(p: Product)
    ensures var lines := [Line(p, 2), Line(p, 2)];
      (forall i :: 0 <= i < |lines| ==> lines[i].quantity <= 3) && StockAfter(3, lines, p) == -1
  {
    var lines := [Line(p, 2), Line(p, 2)];
    assert lines[..1] == [Line(p, 2)] && lines[..1][..0] == [];
    assert StockAfter(3, lines[..1], p) == Wrap(3 - 2) == 1;
    assert StockAfter(3, lines, p) == Wrap(1 - 2);
  }

  /** No entry of the list references `p`, so nothing is taken from it. */
  lemma {:induction false} QuantityForAbsent(lines: seq<Line>, p: Product)
    requires forall i :: 0 <= i < |lines| ==> lines[i].product != p
    ensures QuantityFor(lines, p) == 0
  {
    if lines != [] {
      QuantityForAbsent(lines[..|lines| - 1], p);
    }
  }

  // ---------------------------------------------------------------------------------------

  class Product {
    var name: string
    var stock: int32
    /** The entries that reference this product. */
    var cartEntries: seq<CartEntry>

    constructor (name: string, stock: int32)
      ensures this.name == name && this.stock == stock && cartEntries == []
    {
      this.name := name;
      this.stock := stock;
      cartEntries := [];
    }

    /** Appends the entry and makes this product the entry's product. */
    method AddCartEntry(entry: CartEntry)
      modifies this`cartEntries, entry`product
      ensures cartEntries == old(cartEntries) + [entry]
      ensures entry.product == this
    {
      cartEntries := cartEntries + [entry];
      entry.product := this;
    }

    /** Removes the first occurrence of the entry, if any, and always clears its product. */
    method RemoveCartEntry(entry: CartEntry)
      modifies this`cartEntries, entry`product
      ensures cartEntries == RemoveFirst(old(cartEntries), entry)
      ensures entry.product == null
    {
      cartEntries := RemoveFirst(cartEntries, entry);
      entry.product := null;
    }
  }

  class CartEntry {
    var quantity: int32
    var product: Product?
    var cart: Cart?

    constructor (quantity: int32)
      ensures this.quantity == quantity && product == null && cart == null
    {
      this.quantity := quantity;
      product := null;
      cart := null;
    }

    /**
     * The ordered quantity is at most the product's stock (equality allowed). A validated
     * entry with a quantity that is not negative can be taken without overflow and leaves
     * a stock that is not negative.
     */
    predicate ValidateCheckout(): (r: bool)
      requires product != null
      reads this, product
      ensures r <==> quantity as int <= product.stock as int
      ensures r && 0 <= quantity ==>
        0 <= Wrap(product.stock as int - quantity as int) as int == product.stock as int - quantity as int
    {
      quantity <= product.stock
    }

    /** Takes the quantity from the product's stock with a 32-bit subtraction; no check of its own. */
    method Checkout()
      requires product != null
      modifies product`stock
      ensures product.stock == Wrap(old(product.stock) as int - quantity as int)
      ensures MIN <= old(product.stock) as int - quantity as int <= MAX ==>
        product.stock as int == old(product.stock) as int - quantity as int
    {
      product.stock := Wrap(product.stock as int - quantity as int);
    }
  }

  class Cart {
    var checkedOut: bool
    var cartEntries: seq<CartEntry>
    var user: User?

    constructor ()
      ensures !checkedOut && cartEntries == [] && user == null
    {
      checkedOut := false;
      cartEntries := [];
      user := null;
    }

    /** Every entry references a product (the entry-level operations dereference it). */
    predicate EntriesHaveProducts()
      reads this, cartEntries
    {
      forall i :: 0 <= i < |cartEntries| ==> cartEntries[i].product != null
    }

    /** The products the entries reference. */
    function Products(): set<Product?>
      reads this, cartEntries
    {
      set i | 0 <= i < |cartEntries| :: cartEntries[i].product
    }

    /** Appends the entry and makes this cart the entry's cart. */
    method AddCartEntry(entry: CartEntry)
      modifies this`cartEntries, entry`cart
      ensures cartEntries == old(cartEntries) + [entry]
      ensures entry.cart == this
    {
      cartEntries := cartEntries + [entry];
      entry.cart := this;
    }

    /** Removes the first occurrence of the entry, if any, and always clears its cart. */
    method RemoveCartEntry(entry: CartEntry)
      modifies this`cartEntries, entry`cart
      ensures cartEntries == RemoveFirst(old(cartEntries), entry)
      ensures entry.cart == null
    {
      cartEntries := RemoveFirst(cartEntries, entry);
      entry.cart := null;
    }

    /** Detaches every entry, then empties the list. */
    method Clear()
      modifies this`cartEntries, cartEntries`cart
      ensures cartEntries == []
      ensures forall i :: 0 <= i < |old(cartEntries)| ==> old(cartEntries)[i].cart == null
    {
      var entries := cartEntries;
      for i := 0 to |entries|
        invariant cartEntries == entries
        invariant forall j :: 0 <= j < i ==> entries[j].cart == null
      {
        entries[i].cart := null;
      }
      cartEntries := [];
    }

    /** Every entry, on its own, asks for at most its product's current stock; an empty cart validates. */
    predicate ValidateCheckout(): (r: bool)
      requires EntriesHaveProducts()
      reads this, cartEntries, Products()
      ensures cartEntries == [] ==> r
      ensures r <==> forall i :: 0 <= i < |cartEntries| ==> cartEntries[i].quantity <= cartEntries[i].product.stock
    {
      forall i :: 0 <= i < |cartEntries| ==> cartEntries[i].ValidateCheckout()
    }

    /** The 32-bit sum of the entries' quantities. */
    function GetTotalQuantity(): (r: int32)
      reads this, cartEntries
      ensures cartEntries == [] ==> r == 0
      ensures r == Wrap(QuantitySum(cartEntries))
      ensures MIN <= QuantitySum(cartEntries) <= MAX ==> r as int == QuantitySum(cartEntries)
    {
      StreamSumIsWrappedSum(cartEntries);
      StreamSum(cartEntries)
    }

    /**
     * When validation holds, checks out every entry in order, so each product loses the
     * summed quantity of the entries that reference it; otherwise changes nothing.
     */
    method Checkout()
      requires EntriesHaveProducts()
      modifies Products()`stock
      ensures old(ValidateCheckout()) ==>
        forall p: Product :: p in old(Products()) ==> p.stock == StockAfter(old(p.stock), old(Lines(cartEntries)), p)
      ensures !old(ValidateCheckout()) ==>
        forall p: Product :: p in old(Products()) ==> p.stock == old(p.stock)
    {
      if ValidateCheckout() {
        CheckoutEntries(cartEntries, Products());
      }
    }
  }

  /** The loop of a validated checkout: every entry, in order, takes its quantity from its product. */
  method CheckoutEntries(entries: seq<CartEntry>, ghost products: set<Product?>)
    requires forall i :: 0 <= i < |entries| ==> entries[i].product != null && entries[i].product in products
    modifies products`stock
    ensures forall p: Product :: p in products ==> p.stock == StockAfter(old(p.stock), old(Lines(entries)), p)
  {
    ghost var lines := Lines(entries);
    for i := 0 to |entries|
      invariant forall p: Product :: p in products ==> p.stock == StockAfter(old(p.stock), lines[..i], p)
    {
      var e := entries[i];
      assert lines[i] == Line(e.product, e.quantity);
      e.Checkout();
      forall p: Product | p in products
        ensures p.stock == StockAfter(old(p.stock), lines[..i + 1], p)
      {
        StockAfterStep(old(p.stock), lines, i, p);
      }
    }
    assert lines[..|entries|] == lines;
  }

  /** A wishlist keeps the products a user wants; duplicates are not prevented. */
  class Wishlist {
    var products: seq<Product>
    var user: User?

    constructor ()
      ensures products == [] && user == null
    {
      products := [];
      user := null;
    }

    method AddProduct(product: Product)
      modifies this`products
      ensures products == old(products) + [product]
    {
      products := products + [product];
    }

    method RemoveProduct(product: Product)
      modifies this`products
      ensures products == RemoveFirst(old(products), product)
    {
      products := RemoveFirst(products, product);
    }
  }

  class User {
    var name: string
    var email: string
    var password: string
    var wishlist: Wishlist?
    var enabled: bool
    var accountNonExpired: bool
    var accountNonLocked: bool
    var credentialsNonExpired: bool
    /** The purchased carts, possibly followed by the current (not yet checked out) cart. */
    var orderHistory: seq<Cart>

    constructor (name: string, email: string, password: string,
                 enabled: bool, accountNonExpired: bool, accountNonLocked: bool, credentialsNonExpired: bool)
      ensures this.name == name && this.email == email && this.password == password
      ensures this.enabled == enabled && this.accountNonExpired == accountNonExpired
      ensures this.accountNonLocked == accountNonLocked && this.credentialsNonExpired == credentialsNonExpired
      ensures wishlist == null && orderHistory == []
    {
      this.name, this.email, this.password := name, email, password;
      this.enabled, this.accountNonExpired := enabled, accountNonExpired;
      this.accountNonLocked, this.credentialsNonExpired := accountNonLocked, credentialsNonExpired;
      wishlist := null;
      orderHistory := [];
    }

    /** The documented invariant: every cart but the last is checked out. */
    ghost predicate Valid(): (r: bool)
      reads this, orderHistory
      ensures |orderHistory| <= 1 ==> r
      ensures r && 2 <= |orderHistory| ==> orderHistory[0].checkedOut
    {
      forall i :: 0 <= i < |orderHistory| - 1 ==> orderHistory[i].checkedOut
    }

    /** The last cart of the history when it is not checked out, otherwise null. */
    function GetUncheckedOutCart(): (c: Cart?)
      reads this, orderHistory
      ensures c != null ==> orderHistory != [] && c == orderHistory[|orderHistory| - 1] && !c.checkedOut
      ensures c == null ==> orderHistory == [] || orderHistory[|orderHistory| - 1].checkedOut
    {
      if orderHistory == [] || orderHistory[|orderHistory| - 1].checkedOut then null
      else orderHistory[|orderHistory| - 1]
    }

    /** The history without its current cart. */
    function Archived(): (r: seq<Cart>)
      reads this, orderHistory
      ensures |r| == |orderHistory| - (if GetUncheckedOutCart() == null then 0 else 1)
      ensures r == orderHistory[..|r|]
    {
      if GetUncheckedOutCart() == null then orderHistory else orderHistory[..|orderHistory| - 1]
    }

    /** The current cart as a frame: what the cart operations may change. */
    function CurrentCartFrame(): set<Cart>
      reads this, orderHistory
    {
      if GetUncheckedOutCart() == null then {} else {GetUncheckedOutCart()}
    }

    /** Under the invariant, a pending cart is the current cart, and there is at most one. */
    lemma CurrentCartIsTheOnlyPending()
      requires Valid()
      ensures forall i :: 0 <= i < |orderHistory| && !orderHistory[i].checkedOut ==>
        i == |orderHistory| - 1 && orderHistory[i] == GetUncheckedOutCart()
      ensures GetUncheckedOutCart() == null <==> forall i :: 0 <= i < |orderHistory| ==> orderHistory[i].checkedOut
      ensures forall i :: 0 <= i < |Archived()| ==> Archived()[i].checkedOut
    {
    }

    /** `getUsername` and the four flag getters, as the token check sees them. */
    function Details(): (d: Auth.UserDetails)
      reads this
      ensures d.username == email
      ensures d.enabled == enabled && d.accountNonExpired == accountNonExpired
      ensures d.credentialsNonExpired == credentialsNonExpired && d.accountNonLocked == accountNonLocked
    {
      Auth.UserDetails(email, enabled, accountNonExpired, credentialsNonExpired, accountNonLocked)
    }

    /** Appends the cart, or overwrites the current cart with it; the cart becomes pending and this user's. */
    method AssignCart(cart: Cart)
      modifies this`orderHistory, cart`checkedOut, cart`user
      ensures orderHistory == old(Archived()) + [cart]
      ensures |orderHistory| == |old(orderHistory)| + (if old(GetUncheckedOutCart()) == null then 1 else 0)
      ensures !cart.checkedOut && cart.user == this
      ensures GetUncheckedOutCart() == cart
      ensures old(Valid()) && cart !in old(Archived()) ==> Valid()
    {
      var current := GetUncheckedOutCart();
      if current == null {
        orderHistory := orderHistory + [cart];
      } else {
        orderHistory := orderHistory[..|orderHistory| - 1] + [cart];
      }
      cart.checkedOut := false;
      cart.user := this;
      assert orderHistory[..|orderHistory| - 1] == old(Archived());
    }

    /** Adds the entry to the current cart; throws when there is none. */
    method AddToCart(entry: CartEntry) returns (o: Outcome)
      modifies entry`cart, CurrentCartFrame()`cartEntries
      ensures old(GetUncheckedOutCart()) == null ==> o == Thrown(IllegalState) && entry.cart == old(entry.cart)
      ensures old(GetUncheckedOutCart()) != null ==> (o == Done &&
        var c := old(GetUncheckedOutCart());
        c.cartEntries == old(c.cartEntries) + [entry] && entry.cart == c)
      ensures GetUncheckedOutCart() == old(GetUncheckedOutCart())
      ensures old(Valid()) ==> Valid()
    {
      var current := GetUncheckedOutCart();
      if current == null {
        return Thrown(IllegalState);
      }
      current.AddCartEntry(entry);
      o := Done;
    }

    /** Removes the entry from the current cart; throws when there is none. */
    method RemoveFromCart(entry: CartEntry) returns (o: Outcome)
      modifies entry`cart, CurrentCartFrame()`cartEntries
      ensures old(GetUncheckedOutCart()) == null ==> o == Thrown(IllegalState) && entry.cart == old(entry.cart)
      ensures old(GetUncheckedOutCart()) != null ==> (o == Done &&
        var c := old(GetUncheckedOutCart());
        c.cartEntries == RemoveFirst(old(c.cartEntries), entry) && entry.cart == null)
      ensures GetUncheckedOutCart() == old(GetUncheckedOutCart())
      ensures old(Valid()) ==> Valid()
    {
      var current := GetUncheckedOutCart();
      if current == null {
        return Thrown(IllegalState);
      }
      current.RemoveCartEntry(entry);
      o := Done;
    }

    /** Drops the current cart from the history and detaches it; no change without one. */
    method RemoveCurrentCart()
      modifies this`orderHistory, CurrentCartFrame()`user
      ensures orderHistory == old(Archived())
      ensures old(GetUncheckedOutCart()) != null ==> old(GetUncheckedOutCart()).user == null
      ensures old(Valid()) ==> Valid() && GetUncheckedOutCart() == null
    {
      var current := GetUncheckedOutCart();
      if current != null {
        current.user := null;
        orderHistory := orderHistory[..|orderHistory| - 1];
      }
    }

    /** Every entry of the current cart references a product (checkout dereferences them). */
    predicate CurrentEntriesHaveProducts()
      reads this, orderHistory, if GetUncheckedOutCart() == null then [] else GetUncheckedOutCart().cartEntries
    {
      GetUncheckedOutCart() != null ==> GetUncheckedOutCart().EntriesHaveProducts()
    }

    /** The products the current cart's entries reference: what a checkout may change. */
    function CheckoutFrame(): set<Product?>
      requires CurrentEntriesHaveProducts()
      reads this, orderHistory, if GetUncheckedOutCart() == null then [] else GetUncheckedOutCart().cartEntries
    {
      if GetUncheckedOutCart() == null then {} else GetUncheckedOutCart().Products()
    }

    /**
     * Checks out the current cart (which changes stock only when it validates), marks it
     * checked out whether or not it validated, then calls removeCurrentCart, which finds no
     * pending cart any more: the cart stays in the history as its last, archived element.
     */
    method Checkout() returns (o: Outcome)
      requires CurrentEntriesHaveProducts()
      modifies this`orderHistory, CurrentCartFrame()`checkedOut, CheckoutFrame()`stock
      ensures orderHistory == old(orderHistory)
      ensures old(GetUncheckedOutCart()) == null ==> o == Thrown(IllegalState)
      ensures old(GetUncheckedOutCart()) != null ==> (o == Done &&
        var c := old(GetUncheckedOutCart());
        orderHistory[|orderHistory| - 1] == c && c.checkedOut &&
        c.cartEntries == old(c.cartEntries) && c.user == old(c.user) &&
        (old(c.ValidateCheckout()) ==>
          forall p: Product :: p in old(c.Products()) ==> p.stock == StockAfter(old(p.stock), old(Lines(c.cartEntries)), p)) &&
        (!old(c.ValidateCheckout()) ==>
          forall p: Product :: p in old(c.Products()) ==> p.stock == old(p.stock)))
      ensures GetUncheckedOutCart() == null
      ensures old(Valid()) ==> Valid()
    {
      var current := GetUncheckedOutCart();
      if current == null {
        return Thrown(IllegalState);
      }
      current.Checkout();
      current.checkedOut := true;
      assert GetUncheckedOutCart() == null;
      RemoveCurrentCart();
      o := Done;
    }

    /** Makes the wishlist this user's and points its back-reference here. */
    method AssignWishlist(w: Wishlist)
      modifies this`wishlist, w`user
      ensures wishlist == w && w.user == this
    {
      wishlist := w;
      wishlist.user := this;
    }

    /** Adds the product to the wishlist; a user without one gets a NullPointerException. */
    method AddToWishlist(product: Product) returns (o: Outcome)
      modifies (if wishlist == null then {} else {wishlist})`products
      ensures wishlist == old(wishlist)
      ensures old(wishlist) == null ==> o == Thrown(NullPointer)
      ensures old(wishlist) != null ==> (o == Done &&
        wishlist.products == old(wishlist.products) + [product])
    {
      if wishlist == null {
        return Thrown(NullPointer);
      }
      wishlist.AddProduct(product);
      o := Done;
    }

    /** Removes the product from the wishlist; a user without one gets a NullPointerException. */
    method RemoveFromWishlist(product: Product) returns (o: Outcome)
      modifies (if wishlist == null then {} else {wishlist})`products
      ensures wishlist == old(wishlist)
      ensures old(wishlist) == null ==> o == Thrown(NullPointer)
      ensures old(wishlist) != null ==> (o == Done &&
        wishlist.products == RemoveFirst(old(wishlist.products), product))
    {
      if wishlist == null {
        return Thrown(NullPointer);
      }
      wishlist.RemoveProduct(product);
      o := Done;
    }

    /** Detaches and drops the wishlist; no change when there is none, so it is idempotent. */
    method RemoveWishlist()
      modifies this`wishlist, (if wishlist == null then {} else {wishlist})`user
      ensures wishlist == null
      ensures old(wishlist) != null ==> old(wishlist).user == null
    {
      if wishlist != null {
        wishlist.user := null;
        wishlist := null;
      }
    }
  }

  /**
   * `assignCart` accepts any cart, also one already archived in the history: assigning a
   * checked-out cart again reopens it, and the history invariant no longer holds.
   */
  method ReassignArchivedCart() returns (u: User, c: Cart)
    ensures u.orderHistory == [c, c] && !c.checkedOut
    ensures !u.Valid()
  {
    u := new User("name", "email", "password", true, true, true, true);
    c := new Cart();
    u.AssignCart(c);
    var _ := u.Checkout();
    u.AssignCart(c);
    assert 0 < |u.orderHistory| - 1 && !u.orderHistory[0].checkedOut;
  }
}
