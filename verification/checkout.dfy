/** The two checkout pages: who gets redirected where, in which order the
    gates are checked, the cart total in integer cents and what each page is
    rendered with once every gate has passed. */
module Checkout {
  import opened Wrappers
  import opened Sums
  import opened CheckoutSteps
  import opened AddressStore

  /** A cart line with its product variant: price in cents and quantity. */
  datatype CartItem = CartItem(
    variantId: string,
    productName: string,
    variantName: string,
    priceInCents: int,
    quantity: int,
    imageUrl: string)

  /** A cart row with its items and the id of the bound shipping address. */
  datatype Cart = Cart(owner: UserId, items: seq<CartItem>, shippingAddress: Option<AddressId>)

  /** `findFirst` on the cart table by owner. */
  function FindCart(carts: seq<Cart>, user: UserId): (r: Option<Cart>)
    ensures r.Some? ==> r.value in carts && r.value.owner == user
    ensures r.None? <==> forall i :: 0 <= i < |carts| ==> carts[i].owner != user
  {
    if |carts| == 0 then None
    else if carts[0].owner == user then Some(carts[0])
    else FindCart(carts[1..], user)
  }

  /** `price * quantity`, line by line. */
  function LineTotals(items: seq<CartItem>): (r: seq<int>)
    ensures |r| == |items|
    ensures forall i :: 0 <= i < |items| ==> r[i] == items[i].priceInCents * items[i].quantity
  {
    seq(|items|, i requires 0 <= i < |items| => items[i].priceInCents * items[i].quantity)
  }

  /** `cart.items.reduce((acc, item) => acc + price * quantity, 0)`. */
  function CartTotal(items: seq<CartItem>): (r: int)
    ensures r == SumRight(LineTotals(items))
  {
    SumLeftIsSumRight(LineTotals(items));
    SumLeft(LineTotals(items))
  }

  predicate NonNegativeItems(items: seq<CartItem>) {
    forall i :: 0 <= i < |items| ==> items[i].priceInCents >= 0 && items[i].quantity >= 0
  }

  /** With non-negative prices and quantities the total is non-negative and
      at least every single line's amount. */
  lemma CartTotalBounds(items: seq<CartItem>)
    requires NonNegativeItems(items)
    ensures CartTotal(items) >= 0
    ensures forall i :: 0 <= i < |items| ==> items[i].priceInCents * items[i].quantity <= CartTotal(items)
  {
    var ls := LineTotals(items);
    forall i | 0 <= i < |ls| ensures ls[i] >= 0 {
      assert items[i].priceInCents >= 0 && items[i].quantity >= 0;
    }
    forall i | 0 <= i < |items| ensures ls[i] <= SumLeft(ls) {
      SumLeftBoundsTerms(ls, i);
    }
  }

  /** The total of two item lists put together is the sum of their totals. */
  lemma CartTotalAppend(a: seq<CartItem>, b: seq<CartItem>)
    ensures CartTotal(a + b) == CartTotal(a) + CartTotal(b)
  {
    assert LineTotals(a + b) == LineTotals(a) + LineTotals(b);
    SumLeftAppend(LineTotals(a), LineTotals(b));
  }

  /** Two units at R$ 50,00 and one at R$ 30,00 come to 13000 cents. */
  lemma CartTotalExample()
    ensures CartTotal([CartItem("v1", "Camiseta", "Azul", 5000, 2, ""),
                       CartItem("v2", "Meia", "Preta", 3000, 1, "")]) == 13000
  {
    var items := [CartItem("v1", "Camiseta", "Azul", 5000, 2, ""),
                  CartItem("v2", "Meia", "Preta", 3000, 1, "")];
    var ls := LineTotals(items);
    assert ls == [10000, 3000];
    assert ls[..1] == [10000] && ls[..1][..0] == [];
    assert SumLeft(ls[..1]) == 10000;
  }

  /** `!session?.user.id`: the pages need a signed-in user with a non-empty id. */
  predicate SignedIn(session: Option<UserId>) {
    session.Some? && session.value != ""
  }

  /** `!cart || cart.items.length === 0`. */
  predicate NoItems(cart: Option<Cart>) {
    cart.None? || |cart.value.items| == 0
  }

  /** What a page does: redirect elsewhere, or render its view. */
  datatype Page<V> = Redirect(to: string) | Show(view: V)

  /** The identification page's view: the stepper step, the user's addresses,
      the preselected address, the summary amounts and the products. */
  datatype IdentificationView = IdentificationView(
    step: StepKey,
    addresses: Store,
    defaultAddressId: Option<AddressId>,
    subtotalInCents: int,
    totalInCents: int,
    products: seq<CartItem>)

  /** `findMany` on the address table by owner. */
  function AddressesOf(store: Store, user: UserId): (r: Store)
    ensures forall k :: k in r <==> k in store && store[k].owner == user
    ensures forall k :: k in r ==> r[k] == store[k]
  {
    map k | k in store && store[k].owner == user :: store[k]
  }

  function IdentificationPage(session: Option<UserId>, carts: seq<Cart>, store: Store): (p: Page<IdentificationView>)
    ensures p.Redirect? ==> p.to == "/"
  {
    if !SignedIn(session) then Redirect("/")
    else
      var cart := FindCart(carts, session.value);
      if NoItems(cart) then Redirect("/")
      else
        var total := CartTotal(cart.value.items);
        Show(IdentificationView(
          step := Identification,
          addresses := AddressesOf(store, session.value),
          defaultAddressId := OrNull(cart.value.shippingAddress),
          subtotalInCents := total,
          totalInCents := total,
          products := cart.value.items))
  }

  /** The identification page renders exactly for a signed-in user whose cart
      has items; everyone else goes back home. */
  lemma IdentificationGate(session: Option<UserId>, carts: seq<Cart>, store: Store)
    ensures IdentificationPage(session, carts, store).Show? <==>
      SignedIn(session) && !NoItems(FindCart(carts, session.value))
  {
  }

  /** Once rendered, the identification page lists only the user's own
      addresses, preselects the cart's bound address (or none), shows
      subtotal = total = the cart total, and marks the identification step. */
  lemma IdentificationContents(session: Option<UserId>, carts: seq<Cart>, store: Store)
    requires IdentificationPage(session, carts, store).Show?
    ensures var v := IdentificationPage(session, carts, store).view;
      var cart := FindCart(carts, session.value).value;
      && v.step == Identification
      && (forall k :: k in v.addresses ==> k in store && v.addresses[k].owner == session.value)
      && (forall k :: k in store && store[k].owner == session.value ==> k in v.addresses)
      && (v.defaultAddressId.Some? <==> cart.shippingAddress.Some? && cart.shippingAddress.value != "")
      && (v.defaultAddressId.Some? ==> v.defaultAddressId == cart.shippingAddress)
      && v.subtotalInCents == v.totalInCents == CartTotal(cart.items)
      && v.products == cart.items
  {
  }

  /** The confirmation page's view: the stepper step, the bound address, the
      summary amounts and the products. */
  datatype ConfirmationView = ConfirmationView(
    step: StepKey,
    addressId: AddressId,
    subtotalInCents: int,
    totalInCents: int,
    products: seq<CartItem>)

  function ConfirmationPage(session: Option<UserId>, carts: seq<Cart>): (p: Page<ConfirmationView>)
    ensures p.Redirect? ==> p.to == "/" || p.to == "/cart/identification"
  {
    if !SignedIn(session) then Redirect("/")
    else
      var cart := FindCart(carts, session.value);
      if NoItems(cart) then Redirect("/")
      else
        var total := CartTotal(cart.value.items);
        if cart.value.shippingAddress.None? then Redirect("/cart/identification")
        else
          Show(ConfirmationView(
            step := Payment,
            addressId := cart.value.shippingAddress.value,
            subtotalInCents := total,
            totalInCents := total,
            products := cart.value.items))
  }

  /** The gates in their order: no user goes home; then a missing or empty
      cart goes home, whether or not an address is bound; only then does a
      missing address send the user back to identification. */
  lemma ConfirmationGates(session: Option<UserId>, carts: seq<Cart>)
    ensures !SignedIn(session) ==> ConfirmationPage(session, carts) == Redirect("/")
    ensures SignedIn(session) && NoItems(FindCart(carts, session.value)) ==>
      ConfirmationPage(session, carts) == Redirect("/")
    ensures ConfirmationPage(session, carts) == Redirect("/cart/identification") <==>
      && SignedIn(session)
      && !NoItems(FindCart(carts, session.value))
      && FindCart(carts, session.value).value.shippingAddress.None?
  {
  }

  /** The payment step is shown only after all three gates pass, with the
      bound address and subtotal = total = the cart total. */
  lemma ConfirmationContents(session: Option<UserId>, carts: seq<Cart>)
    ensures ConfirmationPage(session, carts).Show? <==>
      && SignedIn(session)
      && !NoItems(FindCart(carts, session.value))
      && FindCart(carts, session.value).value.shippingAddress.Some?
    ensures ConfirmationPage(session, carts).Show? ==>
      var v := ConfirmationPage(session, carts).view;
      var cart := FindCart(carts, session.value).value;
      && v.step == Payment
      && cart.shippingAddress == Some(v.addressId)
      && v.subtotalInCents == v.totalInCents == CartTotal(cart.items)
  {
  }
}
