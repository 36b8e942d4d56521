/** The order records: the status choices, the order's public identifier "LB-0042", and the
    line item with its subtotal. Money is held in cents. */
module OrderModels {
  import opened Options
  import opened Text
  import opened ProductModels

  // ---------------------------------------------------------------------------------------
  // Status
  // ---------------------------------------------------------------------------------------

  datatype Status = Pending | Processing | Shipped | Delivered | Cancelled

  /** The value stored for a status. */
  function StatusValue(s: Status): string {
    match s
    case Pending => "pending"
    case Processing => "processing"
    case Shipped => "shipped"
    case Delivered => "delivered"
    case Cancelled => "cancelled"
  }

  /** The human-readable name shown for a status. */
  function StatusLabel(s: Status): string {
    match s
    case Pending => "Pending"
    case Processing => "Processing"
    case Shipped => "Shipped"
    case Delivered => "Delivered"
    case Cancelled => "Cancelled"
  }

  /** The status a stored value names; values outside the five choices name none. */
  function ParseStatus(v: string): Option<Status> {
    if v == "pending" then Some(Pending)
    else if v == "processing" then Some(Processing)
    else if v == "shipped" then Some(Shipped)
    else if v == "delivered" then Some(Delivered)
    else if v == "cancelled" then Some(Cancelled)
    else None
  }

  const DefaultStatus: Status := Pending

  /** Stored values and statuses correspond one to one: every status's value parses back to it,
      and only the five values parse. */
  lemma StatusRoundTrip(s: Status, v: string)
    ensures ParseStatus(StatusValue(s)) == Some(s)
    ensures ParseStatus(v) == Some(s) <==> v == StatusValue(s)
  {
  }

  // ---------------------------------------------------------------------------------------
  // Order and order item
  // ---------------------------------------------------------------------------------------

  /** The aggregated nutrition of an order; protein and fibre in tenths of a gram. */
  datatype NutritionSummary = NutritionSummary(calories: int, proteinTenths: int, fiberTenths: int, sodium: int)

  const ZeroSummary := NutritionSummary(0, 0, 0, 0)

  /** An order row. An absent `nutritionSummary` is the empty mapping the row starts with. */
  datatype Order = Order(pk: nat, status: Status, totalCents: int, nutritionSummary: Option<NutritionSummary>)

  /** A freshly created order row carries the field defaults: pending, total zero, empty summary. */
  function NewOrder(pk: nat): (o: Order)
    ensures o.pk == pk && o.status == DefaultStatus && StatusValue(o.status) == "pending"
    ensures o.totalCents == 0 && o.nutritionSummary == None
  {
    Order(pk, DefaultStatus, 0, None)
  }

  const DefaultItemQuantity := 1

  /** One line of an order: the product, how many, and the price per unit when ordered. */
  datatype OrderItem = OrderItem(product: Product, quantity: int, unitPriceCents: int)

  function Subtotal(item: OrderItem): int {
    item.unitPriceCents * item.quantity
  }

  /** The subtotal scales with the quantity: one more unit costs one more unit price. */
  lemma SubtotalPerUnit(item: OrderItem)
    ensures Subtotal(item.(quantity := item.quantity + 1)) == Subtotal(item) + item.unitPriceCents
    ensures Subtotal(item.(quantity := DefaultItemQuantity)) == item.unitPriceCents
    ensures Subtotal(item.(quantity := 0)) == 0
  {
  }

  // ---------------------------------------------------------------------------------------
  // Public order identifier
  // ---------------------------------------------------------------------------------------

  const OrderIdPrefix := "LB-"

  /** `f"LB-{pk:04d}"`: the primary key in decimal, zero-padded to at least four digits. */
  function OrderId(pk: nat): (id: string)
    ensures |OrderIdPrefix| <= |id| && id[..|OrderIdPrefix|] == OrderIdPrefix
    ensures AllDigits(id[|OrderIdPrefix|..]) && |id| >= |OrderIdPrefix| + 4
    ensures |id| >= |OrderIdPrefix| + |Digits(pk)|
    ensures id[|id| - |Digits(pk)|..] == Digits(pk)
  {
    OrderIdPrefix + ZeroPadded(pk, 4)
  }

  /** Reads a primary key back from an identifier: the prefix followed by at least one digit. */
  function ParseOrderId(id: string): Option<nat> {
    if |id| > |OrderIdPrefix| && id[..|OrderIdPrefix|] == OrderIdPrefix && AllDigits(id[|OrderIdPrefix|..])
    then Some(DigitsValue(id[|OrderIdPrefix|..]))
    else None
  }

  /** Stripping the prefix and reading the digits recovers the primary key, so distinct orders
      have distinct identifiers. */
  lemma OrderIdRoundTrip(pk: nat)
    ensures ParseOrderId(OrderId(pk)) == Some(pk)
  {
    var id := OrderId(pk);
    assert id[|OrderIdPrefix|..] == ZeroPadded(pk, 4);
    ZeroPaddedRoundTrip(pk, 4);
  }

  lemma OrderIdInjective(a: nat, b: nat)
    ensures OrderId(a) == OrderId(b) <==> a == b
  {
    if OrderId(a) == OrderId(b) {
      OrderIdRoundTrip(a);
      OrderIdRoundTrip(b);
    }
  }

  /** Keys below 10000 give identifiers of exactly seven characters; larger keys are written out
      in full, never truncated. */
  lemma OrderIdLength(pk: nat)
    ensures |OrderId(pk)| == 7 <==> pk < 10000
    ensures pk >= 10000 ==> OrderId(pk) == OrderIdPrefix + Digits(pk)
  {
    DigitsLength(pk, 4);
    Pow10Four();
  }

  lemma Pow10Four()
    ensures Pow10(4) == 10000
  {
    assert Pow10(1) == 10;
    assert Pow10(2) == 100;
    assert Pow10(3) == 1000;
  }
}
