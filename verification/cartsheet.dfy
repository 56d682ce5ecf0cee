/** The cart sheet in the header: when the cart counts as empty, the item
    count on the basket button and its "9+" cap, what the sheet body shows,
    and when the totals block with the checkout button appears. */
module CartSheet {
  import opened Wrappers
  import opened Text
  import opened Sums

  /** A cart line as the sheet sees it. */
  datatype SheetItem = SheetItem(id: string, variantId: string, quantity: int, priceInCents: int)

  /** The cart query's data: the items array may be missing, and so may the
      server-computed total. */
  datatype SheetCart = SheetCart(items: Option<seq<SheetItem>>, totalPriceInCents: Option<int>)

  /** `isEmpty`: no cart, no items array, or an empty one. */
  predicate IsEmpty(cart: Option<SheetCart>)
    ensures IsEmpty(cart) ==> TotalCount(cart) == 0
  {
    cart.None? || cart.value.items.None? || |cart.value.items.value| == 0
  }

  function Quantities(items: seq<SheetItem>): (r: seq<int>)
    ensures |r| == |items|
    ensures forall i :: 0 <= i < |items| ==> r[i] == items[i].quantity
  {
    seq(|items|, i requires 0 <= i < |items| => items[i].quantity)
  }

  /** `totalCount`: the quantities summed left to right, 0 without an items array. */
  function TotalCount(cart: Option<SheetCart>): (n: int)
    ensures cart.None? || cart.value.items.None? ==> n == 0
    ensures cart.Some? && cart.value.items.Some? ==> n == SumLeft(Quantities(cart.value.items.value))
  {
    if cart.Some? && cart.value.items.Some? then SumLeft(Quantities(cart.value.items.value)) else 0
  }

  /** The badge on the basket button, if any: "9+" above nine, else the count. */
  function Badge(count: int): (b: Option<string>)
    ensures b.Some? <==> count > 0
    ensures b == Some("9+") <==> count > 9
    ensures 0 < count <= 9 ==> b == Some(DecimalString(count))
  {
    if count > 0 then Some(if count > 9 then "9+" else DecimalString(count)) else None
  }

  /** Every text the badge can show is one character, or "9+": it fits the
      fixed-size dot, and a shown digit reads back as the count. */
  lemma BadgeText(count: int)
    requires Badge(count).Some?
    ensures |Badge(count).value| == 1 || Badge(count).value == "9+"
    ensures count <= 9 ==> DecimalValue(Badge(count).value) == count
  {
    if count <= 9 {
      DecimalRoundTrip(count);
    }
  }

  /** With non-negative quantities an empty cart has count 0 and no badge;
      a badge shows only for a cart with at least one line. */
  lemma EmptyCartHasNoBadge(cart: Option<SheetCart>)
    requires cart.Some? && cart.value.items.Some? ==>
      forall i :: 0 <= i < |cart.value.items.value| ==> cart.value.items.value[i].quantity >= 0
    ensures IsEmpty(cart) ==> TotalCount(cart) == 0 && Badge(TotalCount(cart)).None?
    ensures Badge(TotalCount(cart)).Some? ==> !IsEmpty(cart)
    ensures TotalCount(cart) >= 0
  {
    if cart.Some? && cart.value.items.Some? {
      var qs := Quantities(cart.value.items.value);
      assert forall i :: 0 <= i < |qs| ==> qs[i] >= 0;
    }
  }

  /** Adding a line adds its quantity to the count. */
  lemma {:induction false} TotalCountAppend(items: seq<SheetItem>, item: SheetItem, total: Option<int>)
    ensures TotalCount(Some(SheetCart(Some(items + [item]), total)))
         == TotalCount(Some(SheetCart(Some(items), total))) + item.quantity
  {
    assert Quantities(items + [item]) == Quantities(items) + [item.quantity];
    SumLeftAppend(Quantities(items), [item.quantity]);
    assert SumLeft([item.quantity]) == item.quantity by {
      assert [item.quantity][..0] == [];
    }
  }

  /** What the scrolling body shows: the skeleton while loading, the empty
      alert, or one row per cart line. */
  datatype Body = Skeleton | EmptyAlert | Rows(items: seq<SheetItem>)

  /** The block under the list: subtotal, free delivery, total, checkout link. */
  datatype Footer = Footer(subtotalInCents: int, totalInCents: int, checkoutHref: string)

  datatype SheetView = SheetView(badge: Option<string>, body: Body, footer: Option<Footer>)

  function Sheet(cart: Option<SheetCart>, isLoading: bool): (v: SheetView)
    ensures v.footer.Some? <==> v.body.Rows?
    ensures v.body.Rows? ==> |v.body.items| > 0
    ensures v.footer.Some? ==> v.footer.value.subtotalInCents == v.footer.value.totalInCents
  {
    var total := if cart.Some? then cart.value.totalPriceInCents.GetOr(0) else 0;
    SheetView(
      badge := Badge(TotalCount(cart)),
      body := if isLoading then Skeleton
              else if IsEmpty(cart) then EmptyAlert
              else Rows(cart.value.items.value),
      footer := if !isLoading && !IsEmpty(cart)
                then Some(Footer(total, total, "/cart/identification"))
                else None)
  }

  /** The footer is shown exactly when the cart is neither loading nor empty,
      which is exactly when the body lists the cart's rows; then subtotal and
      total both show the server total, 0 when it is missing, and the button
      leads to identification. The badge does not wait for loading. */
  lemma SheetShape(cart: Option<SheetCart>, isLoading: bool)
    ensures var v := Sheet(cart, isLoading);
      && (v.footer.Some? <==> !isLoading && !IsEmpty(cart))
      && (v.footer.Some? <==> v.body.Rows?)
      && (v.body == Skeleton <==> isLoading)
      && (v.body == EmptyAlert <==> !isLoading && IsEmpty(cart))
      && (v.body.Rows? ==> |v.body.items| > 0 && Some(v.body.items) == cart.value.items)
      && (v.footer.Some? ==>
            && v.footer.value.subtotalInCents == v.footer.value.totalInCents
            && (cart.value.totalPriceInCents.Some? ==> v.footer.value.totalInCents == cart.value.totalPriceInCents.value)
            && (cart.value.totalPriceInCents.None? ==> v.footer.value.totalInCents == 0)
            && v.footer.value.checkoutHref == "/cart/identification")
      && v.badge == Badge(TotalCount(cart))
  {
  }

  lemma BadgeExamples()
    ensures Badge(0) == None && Badge(3) == Some("3") && Badge(9) == Some("9")
    ensures Badge(10) == Some("9+") && Badge(42) == Some("9+")
  {
  }
}
