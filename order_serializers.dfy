/** Order creation: one order item per submitted entry, priced at the product's current price,
    with the order total and the four-field nutrition summary accumulated along the way. The
    product table is a map from id to product; the database rows written are the returned order
    and the log of created items. */
module OrderSerializers {
  import opened Options
  import opened ProductModels
  import opened OrderModels

  /** One submitted entry: `product_id` and `quantity`, either of which may be missing. */
  datatype ItemData = ItemData(productId: Option<int>, quantity: Option<int>)

  /** Why creation stops: an entry without a product id, or an id with no product. */
  datatype CreateError = MissingProductId | ProductNotFound(id: int)

  function ResolveProduct(catalog: map<int, Product>, d: ItemData): (r: Result<Product, CreateError>)
    ensures r.Ok? <==> d.productId.Some? && d.productId.value in catalog
    ensures r.Ok? ==> r.value == catalog[d.productId.value]
    ensures d.productId.None? ==> r == Err(MissingProductId)
  {
    match d.productId
    case None => Err(MissingProductId)
    case Some(id) => if id in catalog then Ok(catalog[id]) else Err(ProductNotFound(id))
  }

  /** `entry.get("quantity", 1)`. */
  function ItemQuantity(d: ItemData): int {
    match d.quantity
    case Some(q) => q
    case None => DefaultItemQuantity
  }

  function ItemFor(p: Product, d: ItemData): OrderItem {
    OrderItem(p, ItemQuantity(d), p.priceCents)
  }

  /** The items created for the entries in order, up to the first entry that fails, and that
      entry's error. */
  datatype Outcome = Outcome(created: seq<OrderItem>, failure: Option<CreateError>)

  function Build(catalog: map<int, Product>, data: seq<ItemData>): (o: Outcome)
    ensures |o.created| <= |data|
    ensures o.failure.None? ==> |o.created| == |data|
    ensures o.failure.Some? ==> |o.created| < |data|
  {
    if data == [] then Outcome([], None)
    else match ResolveProduct(catalog, data[0])
      case Err(e) => Outcome([], Some(e))
      case Ok(p) =>
        var rest := Build(catalog, data[1..]);
        Outcome([ItemFor(p, data[0])] + rest.created, rest.failure)
  }

  /** No item has a negative unit price or quantity. */
  predicate NonNegativeItems(items: seq<OrderItem>) {
    forall i :: 0 <= i < |items| ==> items[i].unitPriceCents >= 0 && items[i].quantity >= 0
  }

  /** Σ unit price × quantity. */
  function TotalOf(items: seq<OrderItem>): (t: int)
    ensures NonNegativeItems(items) ==> t >= 0
  {
    if items == [] then 0 else TotalOf(items[..|items| - 1]) + Subtotal(items[|items| - 1])
  }

  /** Adds an item's quantity-scaled calories, protein, fibre and sodium; an item whose product has
      no nutrition facts adds nothing. */
  function Accumulate(s: NutritionSummary, item: OrderItem): NutritionSummary {
    match item.product.nutrition
    case None => s
    case Some(n) =>
      var q := item.quantity;
      NutritionSummary(s.calories + n.calories * q, s.proteinTenths + n.proteinTenths * q,
        s.fiberTenths + n.fiberTenths * q, s.sodium + n.sodium * q)
  }

  function SummaryOf(items: seq<OrderItem>): (s: NutritionSummary)
    ensures (forall i :: 0 <= i < |items| ==> items[i].product.nutrition.None?) ==> s == ZeroSummary
  {
    if items == [] then ZeroSummary else Accumulate(SummaryOf(items[..|items| - 1]), items[|items| - 1])
  }

  /** `OrderCreateSerializer.create`: the order row is created first; the entries are then read in
      order, each creating an item and adding to the total and the summary. The total and summary
      are stored only once every entry has gone through: when an entry fails, the row keeps its
      defaults and the items created before it remain. */
  method Create(pk: nat, catalog: map<int, Product>, data: seq<ItemData>)
    returns (order: Order, created: seq<OrderItem>, failure: Option<CreateError>)
    ensures Outcome(created, failure) == Build(catalog, data)
    ensures failure.None? ==> order == Order(pk, Pending, TotalOf(created), Some(SummaryOf(created)))
    ensures failure.Some? ==> order == NewOrder(pk)
  {
    order := NewOrder(pk);
    var total := 0;
    var summary := ZeroSummary;
    created := [];
    var i := 0;
    while i < |data|
      invariant 0 <= i <= |data|
      invariant total == TotalOf(created) && summary == SummaryOf(created)
      invariant Build(catalog, data) == Outcome(created + Build(catalog, data[i..]).created, Build(catalog, data[i..]).failure)
    {
      var entry := data[i];
      if entry.productId.None? {
        return order, created, Some(MissingProductId);
      }
      var id := entry.productId.value;
      if id !in catalog {
        return order, created, Some(ProductNotFound(id));
      }
      var product := catalog[id];
      var qty := ItemQuantity(entry);
      var unitPrice := product.priceCents;
      var item := OrderItem(product, qty, unitPrice);
      assert data[i..][1..] == data[i + 1..];
      assert (created + [item])[..|created|] == created;
      created := created + [item];
      total := total + unitPrice * qty;
      summary := Accumulate(summary, item);
      i := i + 1;
    }
    assert data[i..] == [];
    order := order.(totalCents := total, nutritionSummary := Some(summary));
    failure := None;
  }

  // ---------------------------------------------------------------------------------------
  // Properties of order creation
  // ---------------------------------------------------------------------------------------

  /** When every entry goes through there is exactly one item per entry, in entry order and with
      no merging of repeated products, each with the entry's quantity (1 when none was given) and
      the product's current price. */
  lemma {:induction false} BuildSucceeds(catalog: map<int, Product>, data: seq<ItemData>)
    requires Build(catalog, data).failure.None?
    ensures var items := Build(catalog, data).created;
      && |items| == |data|
      && forall i :: 0 <= i < |data| ==>
           data[i].productId.Some? && data[i].productId.value in catalog
           && items[i] == OrderItem(catalog[data[i].productId.value], ItemQuantity(data[i]),
                                    catalog[data[i].productId.value].priceCents)
    decreases |data|
  {
    if data != [] {
      BuildSucceeds(catalog, data[1..]);
    }
  }

  /** Creation fails exactly when some entry lacks a product id or names an unknown product; the
      error is that of the first such entry, and the items created are those of the entries before
      it. */
  lemma {:induction false} BuildFails(catalog: map<int, Product>, data: seq<ItemData>)
    ensures var o := Build(catalog, data);
      o.failure.Some? <==> exists i :: 0 <= i < |data| && ResolveProduct(catalog, data[i]).Err?
    ensures var o := Build(catalog, data);
      o.failure.Some? ==>
        && |o.created| < |data|
        && ResolveProduct(catalog, data[|o.created|]) == Err(o.failure.value)
        && (forall i :: 0 <= i < |o.created| ==> ResolveProduct(catalog, data[i]).Ok?)
        && o.created == Build(catalog, data[..|o.created|]).created
    decreases |data|
  {
    if data != [] {
      BuildFails(catalog, data[1..]);
      var o := Build(catalog, data);
      if ResolveProduct(catalog, data[0]).Ok? {
        var rest := Build(catalog, data[1..]);
        if rest.failure.Some? {
          var k := |rest.created|;
          assert data[..k + 1][1..] == data[1..][..k];
        }
        if exists i :: 0 <= i < |data| && ResolveProduct(catalog, data[i]).Err? {
          var i :| 0 <= i < |data| && ResolveProduct(catalog, data[i]).Err?;
          assert data[1..][i - 1] == data[i];
        }
        forall i | 0 <= i < |data[1..]| && ResolveProduct(catalog, data[1..][i]).Err?
          ensures exists j :: 0 <= j < |data| && ResolveProduct(catalog, data[j]).Err?
        {
          assert data[i + 1] == data[1..][i];
        }
      }
    }
  }

  lemma {:induction false} TotalOfConcat(a: seq<OrderItem>, b: seq<OrderItem>)
    ensures TotalOf(a + b) == TotalOf(a) + TotalOf(b)
    decreases |b|
  {
    if b == [] {
      assert a + b == a;
    } else {
      TotalOfConcat(a, b[..|b| - 1]);
      assert (a + b)[..|a + b| - 1] == a + b[..|b| - 1];
    }
  }

  /** Every item counts toward the total, whether or not its product has nutrition facts; only
      the summary skips the latter. */
  lemma AppendItem(items: seq<OrderItem>, item: OrderItem)
    ensures TotalOf(items + [item]) == TotalOf(items) + item.unitPriceCents * item.quantity
    ensures item.product.nutrition.None? ==> SummaryOf(items + [item]) == SummaryOf(items)
    ensures item.product.nutrition.Some? ==>
      var n := item.product.nutrition.value;
      var q := item.quantity;
      var s := SummaryOf(items);
      SummaryOf(items + [item]) == NutritionSummary(s.calories + n.calories * q, s.proteinTenths + n.proteinTenths * q,
        s.fiberTenths + n.fiberTenths * q, s.sodium + n.sodium * q)
  {
    assert (items + [item])[..|items|] == items;
  }

  /** Swapping two neighbouring items leaves the total unchanged. */
  lemma TotalOfSwap(a: seq<OrderItem>, x: OrderItem, y: OrderItem, b: seq<OrderItem>)
    ensures TotalOf(a + [x, y] + b) == TotalOf(a + [y, x] + b)
  {
    TotalOfConcat(a + [x, y], b);
    TotalOfConcat(a + [y, x], b);
    TotalOfConcat(a, [x, y]);
    TotalOfConcat(a, [y, x]);
    assert [x, y][..1] == [x] && [y, x][..1] == [y];
    assert [x][..0] == [] && [y][..0] == [];
  }

  lemma SplitAt<T>(b: seq<T>, k: nat)
    requires k < |b|
    ensures b == (b[..k] + [b[k]]) + b[k + 1..]
  {
  }

  lemma MultisetRemoveAt<T>(b: seq<T>, k: nat)
    requires k < |b|
    ensures multiset(b[..k] + b[k + 1..]) == multiset(b) - multiset{b[k]}
  {
    SplitAt(b, k);
  }

  /** Removing the item at index `k` takes its subtotal off the total. */
  lemma TotalOfRemove(b: seq<OrderItem>, k: nat)
    requires k < |b|
    ensures TotalOf(b) == TotalOf(b[..k] + b[k + 1..]) + Subtotal(b[k])
  {
    var pre, post := b[..k], b[k + 1..];
    SplitAt(b, k);
    TotalOfConcat(pre + [b[k]], post);
    TotalOfConcat(pre, [b[k]]);
    TotalOfConcat(pre, post);
    assert TotalOf([b[k]]) == Subtotal(b[k]) by {
      assert [b[k]][..0] == [];
    }
  }

  /** The total does not depend on the order in which the entries were submitted: any
      rearrangement of the items has the same total. */
  lemma {:induction false} TotalOfPermutation(a: seq<OrderItem>, b: seq<OrderItem>)
    requires multiset(a) == multiset(b)
    ensures TotalOf(a) == TotalOf(b)
    decreases |a|
  {
    if a == [] {
      assert |b| == |multiset(b)| == 0;
    } else {
      var x := a[|a| - 1];
      var init := a[..|a| - 1];
      assert a == init + [x];
      assert x in multiset(b);
      var k :| 0 <= k < |b| && b[k] == x;
      MultisetRemoveAt(b, k);
      TotalOfPermutation(init, b[..k] + b[k + 1..]);
      TotalOfRemove(b, k);
    }
  }

  /** Entries without a quantity count once; an order of two products each submitted without a
      quantity costs the sum of their prices. */
  lemma DefaultQuantityExample(catalog: map<int, Product>, a: int, b: int)
    requires a in catalog && b in catalog
    ensures var o := Build(catalog, [ItemData(Some(a), None), ItemData(Some(b), None)]);
      o.failure.None? && TotalOf(o.created) == catalog[a].priceCents + catalog[b].priceCents
  {
    var data := [ItemData(Some(a), None), ItemData(Some(b), None)];
    var last := [ItemData(Some(b), None)];
    assert data[1..] == last && last[1..] == [];
    assert Build(catalog, last) == Outcome([ItemFor(catalog[b], last[0])], None);
    assert Build(catalog, data) == Outcome([ItemFor(catalog[a], data[0])] + [ItemFor(catalog[b], last[0])], None);
    var items := Build(catalog, data).created;
    assert items[..1] == [items[0]] && items[..1][..0] == [];
    assert Subtotal(items[0]) == catalog[a].priceCents && Subtotal(items[1]) == catalog[b].priceCents;
    assert TotalOf(items[..1]) == Subtotal(items[0]);
    assert TotalOf(items) == TotalOf(items[..1]) + Subtotal(items[1]);
  }
}
