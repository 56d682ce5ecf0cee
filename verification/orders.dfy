/** The "my orders" list: the empty state, the 1-based zero-padded order
    number, the status badge, the amounts and which card starts expanded. */
module Orders {
  import opened Wrappers
  import opened Text

  datatype OrderItem = OrderItem(id: string, productName: string, variantName: string, quantity: int, priceInCents: int)

  /** An order as the list receives it; `status` is the stored column value. */
  datatype OrderUI = OrderUI(id: string, totalPriceInCents: int, status: string, items: seq<OrderItem>)

  /** `formatOrderNumber(index)`: "#" and the decimal of `index + 1`, padded
      with zeros to at least three digits. */
  function FormatOrderNumber(index: nat): (r: string)
    ensures |r| >= 4 && r[0] == '#' && AllDigits(r[1..])
    ensures |r| == 1 + (if |DecimalString(index + 1)| >= 3 then |DecimalString(index + 1)| else 3)
  {
    var s := "#" + PadStart(DecimalString(index + 1), 3, '0');
    assert s[1..] == PadStart(DecimalString(index + 1), 3, '0');
    s
  }

  /** Numerals of numbers below 10, 100 and 1000 have at most one, two and
      three digits. */
  lemma {:induction false} DecimalStringShort(n: nat)
    ensures n < 10 ==> |DecimalString(n)| == 1
    ensures n < 100 ==> |DecimalString(n)| <= 2
    ensures n < 1000 ==> |DecimalString(n)| <= 3
  {
    if n >= 10 {
      DecimalStringShort(n / 10);
    }
  }

  /** The first 999 order numbers all have exactly three digits. */
  lemma OrderNumberWidth(index: nat)
    requires index + 1 < 1000
    ensures |FormatOrderNumber(index)| == 4
  {
    DecimalStringShort(index + 1);
  }

  /** The number shown, read back from its digits. */
  function OrderNumberValue(shown: string): nat
    requires |shown| >= 1 && AllDigits(shown[1..])
  {
    DecimalValue(shown[1..])
  }

  /** The padding never loses a digit: the digits after "#" read back as the
      1-based position. */
  lemma OrderNumberRoundTrip(index: nat)
    ensures OrderNumberValue(FormatOrderNumber(index)) == index + 1
  {
    var d := DecimalString(index + 1);
    var p := PadStart(d, 3, '0');
    assert FormatOrderNumber(index)[1..] == p;
    DecimalRoundTrip(index + 1);
    if |d| < 3 {
      assert p == Repeat('0', 3 - |d|) + d;
      LeadingZerosIgnored(3 - |d|, d);
    } else {
      assert p == d;
    }
  }

  /** Distinct positions get distinct order numbers. */
  lemma OrderNumberInjective(i: nat, j: nat)
    requires FormatOrderNumber(i) == FormatOrderNumber(j)
    ensures i == j
  {
    OrderNumberRoundTrip(i);
    OrderNumberRoundTrip(j);
  }

  lemma OrderNumberExamples()
    ensures FormatOrderNumber(0) == "#001"
    ensures FormatOrderNumber(41) == "#042"
  {
    assert DecimalString(42) == "42";
    assert PadStart("1", 3, '0') == "001";
    assert PadStart("42", 3, '0') == "042";
  }

  /** The badge under the order number for each stored status; any other
      value shows none. */
  function StatusBadge(status: string): (b: Option<string>)
    ensures b == Some("Pago") <==> status == "paid"
    ensures b == Some("Pagamento pendente") <==> status == "pending"
    ensures b == Some("Cancelado") <==> status == "canceled"
    ensures b.None? <==> status != "paid" && status != "pending" && status != "canceled"
  {
    if status == "paid" then Some("Pago")
    else if status == "pending" then Some("Pagamento pendente")
    else if status == "canceled" then Some("Cancelado")
    else None
  }

  /** One accordion card: number, badge, lines, the two amounts, and whether
      it is open by default. */
  datatype OrderCard = OrderCard(
    key: string,
    number: string,
    badge: Option<string>,
    items: seq<OrderItem>,
    subtotalInCents: int,
    totalInCents: int,
    expandedByDefault: bool)

  datatype OrdersView = EmptyState | OrderList(cards: seq<OrderCard>)

  /** The card for the order at position `idx`: its number reads back as the
      1-based position, both amounts are the order total, and only the second
      card starts open. */
  function CardOf(order: OrderUI, idx: nat): (c: OrderCard)
    ensures |c.number| >= 4 && AllDigits(c.number[1..]) && OrderNumberValue(c.number) == idx + 1
    ensures c.subtotalInCents == c.totalInCents == order.totalPriceInCents
    ensures c.expandedByDefault <==> idx == 1
    ensures c.key == order.id && c.items == order.items
  {
    OrderNumberRoundTrip(idx);
    OrderCard(
      key := order.id,
      number := FormatOrderNumber(idx),
      badge := StatusBadge(order.status),
      items := order.items,
      subtotalInCents := order.totalPriceInCents,
      totalInCents := order.totalPriceInCents,
      expandedByDefault := idx == 1)
  }

  /** `Orders({ orders })`: the empty state for a missing or empty list,
      otherwise one card per order, in order. */
  function OrdersPage(orders: Option<seq<OrderUI>>): (v: OrdersView)
    ensures v == EmptyState <==> orders.None? || |orders.value| == 0
    ensures v.OrderList? ==> |v.cards| == |orders.value|
    ensures v.OrderList? ==> forall i :: 0 <= i < |v.cards| ==> v.cards[i] == CardOf(orders.value[i], i)
  {
    if orders.None? || |orders.value| == 0 then EmptyState
    else
      var os := orders.value;
      OrderList(seq(|os|, i requires 0 <= i < |os| => CardOf(os[i], i)))
  }

  /** Every card shows its order's total twice, as subtotal and total; the
      card numbers are pairwise distinct; only the second card is open. */
  lemma OrderListShape(orders: Option<seq<OrderUI>>)
    requires OrdersPage(orders).OrderList?
    ensures var cs := OrdersPage(orders).cards;
      && (forall i :: 0 <= i < |cs| ==>
            cs[i].subtotalInCents == cs[i].totalInCents == orders.value[i].totalPriceInCents)
      && (forall i :: 0 <= i < |cs| ==> (cs[i].expandedByDefault <==> i == 1))
      && (forall i, j :: 0 <= i < |cs| && 0 <= j < |cs| && i != j ==> cs[i].number != cs[j].number)
      && (forall i :: 0 <= i < |cs| ==> OrderNumberValue(cs[i].number) == i + 1)
  {
  }
}
