/** The browser-side cart: an insertion-ordered list of lines, the updaters that the cart's
    four mutators hand to the state setter, the three folds recomputed on every render, and
    the provider object that holds the state and runs the load-once / save-after-hydration
    protocol against the browser's storage slot. */
module CartContext {
  import opened Options
  import opened Storefront

  /** A cart line, `{ ...product, quantity }`: the product as it was when first added, and a
      quantity. */
  datatype Line = Line(product: Product, quantity: int)

  /** The quantity `addToCart` uses when none is given. */
  const DefaultQuantity: int := 1

  predicate HasId(lines: seq<Line>, id: int) {
    exists i :: 0 <= i < |lines| && lines[i].product.id == id
  }

  predicate UniqueIds(lines: seq<Line>) {
    forall i, j :: 0 <= i < j < |lines| ==> lines[i].product.id != lines[j].product.id
  }

  predicate PositiveQuantities(lines: seq<Line>) {
    forall i :: 0 <= i < |lines| ==> lines[i].quantity >= 1
  }

  /** The ledger invariant: at most one line per product, and no line with a quantity below 1. */
  predicate WellFormed(lines: seq<Line>) {
    UniqueIds(lines) && PositiveQuantities(lines)
  }

  // ---------------------------------------------------------------------------------------
  // The updaters
  // ---------------------------------------------------------------------------------------

  /** Adds `qty` to the quantity of every line carrying `id`, keeping each line's snapshot. */
  function Bump(lines: seq<Line>, id: int, qty: int): (r: seq<Line>)
    ensures |r| == |lines|
    ensures forall i :: 0 <= i < |r| ==> r[i].product == lines[i].product
  {
    seq(|lines|, i requires 0 <= i < |lines| =>
      if lines[i].product.id == id then lines[i].(quantity := lines[i].quantity + qty) else lines[i])
  }

  /** `addToCart(product, qty)`: merge into the existing line, otherwise append a new one. */
  function AddLine(lines: seq<Line>, product: Product, qty: int): (r: seq<Line>)
    ensures HasId(r, product.id)
    ensures |r| == if HasId(lines, product.id) then |lines| else |lines| + 1
  {
    if HasId(lines, product.id) then Bump(lines, product.id, qty)
    else
      var r := lines + [Line(product, qty)];
      assert r[|lines|].product.id == product.id;
      r
  }

  /** `removeFromCart(id)`: the lines whose id differs from `id`, in their order. */
  function WithoutId(lines: seq<Line>, id: int): (r: seq<Line>)
    ensures |r| <= |lines|
    ensures !HasId(r, id)
  {
    if lines == [] then []
    else (if lines[0].product.id != id then [lines[0]] else []) + WithoutId(lines[1..], id)
  }

  /** Sets the quantity of every line carrying `id` to `quantity`. */
  function SetQuantity(lines: seq<Line>, id: int, quantity: int): (r: seq<Line>)
    ensures |r| == |lines|
  {
    seq(|lines|, i requires 0 <= i < |lines| =>
      if lines[i].product.id == id then lines[i].(quantity := quantity) else lines[i])
  }

  /** `updateQuantity(id, quantity)`: a quantity of 0 or less removes the line. */
  function UpdateQuantity(lines: seq<Line>, id: int, quantity: int): (r: seq<Line>)
    ensures quantity <= 0 ==> !HasId(r, id)
    ensures 0 < quantity ==> |r| == |lines|
    ensures 0 < quantity ==> forall i :: 0 <= i < |r| && r[i].product.id == id ==> r[i].quantity == quantity
  {
    if quantity <= 0 then WithoutId(lines, id) else SetQuantity(lines, id, quantity)
  }

  // ---------------------------------------------------------------------------------------
  // The folds, as `reduce` computes them (left to right from an initial accumulator), and
  // the sums they are meant to be
  // ---------------------------------------------------------------------------------------

  function Subtotal(l: Line): int {
    l.product.price * l.quantity
  }

  function Quantity(l: Line): int {
    l.quantity
  }

  function Sum(lines: seq<Line>, f: Line -> int): int {
    if lines == [] then 0 else f(lines[0]) + Sum(lines[1..], f)
  }

  function SumReal(lines: seq<Line>, f: Line -> real): real {
    if lines == [] then 0.0 else f(lines[0]) + SumReal(lines[1..], f)
  }

  function TotalFrom(sum: int, lines: seq<Line>): int
    decreases |lines|
  {
    if lines == [] then sum else TotalFrom(sum + lines[0].product.price * lines[0].quantity, lines[1..])
  }

  function CountFrom(sum: int, lines: seq<Line>): int
    decreases |lines|
  {
    if lines == [] then sum else CountFrom(sum + lines[0].quantity, lines[1..])
  }

  /** `cartTotal`, in cents: the sum of price times quantity over the lines. */
  function CartTotal(lines: seq<Line>): (total: int)
    ensures total == Sum(lines, Subtotal)
  {
    TotalFromIsSum(0, lines);
    TotalFrom(0, lines)
  }

  /** `cartCount`: the sum of the quantities. */
  function CartCount(lines: seq<Line>): (count: int)
    ensures count == Sum(lines, Quantity)
  {
    CountFromIsSum(0, lines);
    CountFrom(0, lines)
  }

  lemma {:induction false} TotalFromIsSum(sum: int, lines: seq<Line>)
    ensures TotalFrom(sum, lines) == sum + Sum(lines, Subtotal)
    decreases |lines|
  {
    if lines != [] {
      TotalFromIsSum(sum + Subtotal(lines[0]), lines[1..]);
    }
  }

  lemma {:induction false} CountFromIsSum(sum: int, lines: seq<Line>)
    ensures CountFrom(sum, lines) == sum + Sum(lines, Quantity)
    decreases |lines|
  {
    if lines != [] {
      CountFromIsSum(sum + lines[0].quantity, lines[1..]);
    }
  }

  /** The four running totals of `cartNutritionSummary`. */
  datatype NutritionTotals = NutritionTotals(calories: real, protein: real, fiber: real, sodium: real)

  const ZeroTotals := NutritionTotals(0.0, 0.0, 0.0, 0.0)

  /** `(item.nutrition?.<field> || 0) * item.quantity`: a line without nutrition data counts 0. */
  function Scaled(l: Line, amount: Nutrition -> real): real {
    if l.product.nutrition.Some? then amount(l.product.nutrition.value) * (l.quantity as real) else 0.0
  }

  function LineCalories(l: Line): real { Scaled(l, (n: Nutrition) => n.calories) }
  function LineProtein(l: Line): real { Scaled(l, (n: Nutrition) => n.protein) }
  function LineFiber(l: Line): real { Scaled(l, (n: Nutrition) => n.fiber) }
  function LineSodium(l: Line): real { Scaled(l, (n: Nutrition) => n.sodium) }

  function NutritionFrom(totals: NutritionTotals, lines: seq<Line>): NutritionTotals
    decreases |lines|
  {
    if lines == [] then totals
    else
      var item := lines[0];
      NutritionFrom(
        NutritionTotals(
          totals.calories + LineCalories(item),
          totals.protein + LineProtein(item),
          totals.fiber + LineFiber(item),
          totals.sodium + LineSodium(item)),
        lines[1..])
  }

  /** `cartNutritionSummary`: each field is the quantity-weighted sum of that nutrient. */
  function CartNutritionSummary(lines: seq<Line>): (s: NutritionTotals)
    ensures s.calories == SumReal(lines, LineCalories)
    ensures s.protein == SumReal(lines, LineProtein)
    ensures s.fiber == SumReal(lines, LineFiber)
    ensures s.sodium == SumReal(lines, LineSodium)
  {
    NutritionFromIsSum(ZeroTotals, lines);
    NutritionFrom(ZeroTotals, lines)
  }

  lemma {:induction false} NutritionFromIsSum(totals: NutritionTotals, lines: seq<Line>)
    ensures NutritionFrom(totals, lines) == NutritionTotals(
      totals.calories + SumReal(lines, LineCalories),
      totals.protein + SumReal(lines, LineProtein),
      totals.fiber + SumReal(lines, LineFiber),
      totals.sodium + SumReal(lines, LineSodium))
    decreases |lines|
  {
    if lines != [] {
      var item := lines[0];
      NutritionFromIsSum(
        NutritionTotals(
          totals.calories + LineCalories(item),
          totals.protein + LineProtein(item),
          totals.fiber + LineFiber(item),
          totals.sodium + LineSodium(item)),
        lines[1..]);
    }
  }

  // ---------------------------------------------------------------------------------------
  // What the updaters do
  // ---------------------------------------------------------------------------------------

  /** Adding a product already in the cart raises the quantity of its line by `qty`; the number
      of lines, their order, their snapshots and every other line stay as they were. */
  lemma AddToExistingLine(lines: seq<Line>, product: Product, qty: int)
    requires HasId(lines, product.id)
    ensures |AddLine(lines, product, qty)| == |lines|
    ensures forall i :: 0 <= i < |lines| ==>
      AddLine(lines, product, qty)[i].product == lines[i].product &&
      AddLine(lines, product, qty)[i].quantity ==
        lines[i].quantity + (if lines[i].product.id == product.id then qty else 0)
  {
  }

  /** Adding a product not yet in the cart appends exactly one line, a snapshot of the product
      with quantity `qty`. */
  lemma AddNewLine(lines: seq<Line>, product: Product, qty: int)
    requires !HasId(lines, product.id)
    ensures AddLine(lines, product, qty) == lines + [Line(product, qty)]
  {
  }

  /** Adding the same new product twice yields one line carrying both quantities. */
  lemma AddTwiceMerges(lines: seq<Line>, product: Product, a: int, b: int)
    requires !HasId(lines, product.id)
    ensures AddLine(AddLine(lines, product, a), product, b) == lines + [Line(product, a + b)]
  {
    var once := lines + [Line(product, a)];
    assert once[|lines|].product.id == product.id;
    assert AddLine(AddLine(lines, product, a), product, b) == Bump(once, product.id, b);
    assert Bump(once, product.id, b) == lines + [Line(product, a + b)];
  }

  /** Removing an id that is not in the cart changes nothing. */
  lemma {:induction false} RemoveAbsent(lines: seq<Line>, id: int)
    requires !HasId(lines, id)
    ensures WithoutId(lines, id) == lines
    decreases |lines|
  {
    if lines != [] {
      assert !HasId(lines[1..], id) by {
        forall i | 0 <= i < |lines[1..]| ensures lines[1..][i].product.id != id {
          assert lines[1..][i] == lines[i + 1];
        }
      }
      RemoveAbsent(lines[1..], id);
      assert lines == [lines[0]] + lines[1..];
    }
  }

  /** `removeFromCart(id)` keeps exactly the lines whose id differs from `id`. */
  lemma {:induction false} RemoveMembers(lines: seq<Line>, id: int)
    ensures forall l :: l in WithoutId(lines, id) <==> l in lines && l.product.id != id
    decreases |lines|
  {
    if lines != [] {
      RemoveMembers(lines[1..], id);
      assert lines == [lines[0]] + lines[1..];
    }
  }

  /** Removing twice is removing once. */
  lemma RemoveIdempotent(lines: seq<Line>, id: int)
    ensures WithoutId(WithoutId(lines, id), id) == WithoutId(lines, id)
  {
    var once := WithoutId(lines, id);
    RemoveMembers(lines, id);
    assert !HasId(once, id) by {
      forall i | 0 <= i < |once| ensures once[i].product.id != id {
        assert once[i] in once;
      }
    }
    RemoveAbsent(once, id);
  }

  /** In a well-formed cart, removing the product of line `k` leaves exactly the other lines, in
      their order. */
  lemma RemoveLine(lines: seq<Line>, k: nat)
    requires UniqueIds(lines) && k < |lines|
    ensures WithoutId(lines, lines[k].product.id) == lines[..k] + lines[k + 1..]
  {
    var id, x := lines[k].product.id, lines[k];
    var a, b := lines[..k], lines[k + 1..];
    OthersLackId(lines, k);
    RemoveAbsent(a, id);
    RemoveAbsent(b, id);
    SplitAround(lines, k);
    WithoutIdConcat(a + [x], b, id);
    WithoutIdConcat(a, [x], id);
    assert WithoutId([x], id) == [] by {
      assert WithoutId([x], id) == [] + WithoutId([], id);
    }
    calc {
      WithoutId(lines, id);
      WithoutId(a + [x], id) + WithoutId(b, id);
      (WithoutId(a, id) + WithoutId([x], id)) + b;
      (a + []) + b;
      { assert a + [] == a; }
      a + b;
    }
  }

  /** With unique ids, no line before or after line `k` carries its id. */
  lemma OthersLackId(lines: seq<Line>, k: nat)
    requires UniqueIds(lines) && k < |lines|
    ensures !HasId(lines[..k], lines[k].product.id) && !HasId(lines[k + 1..], lines[k].product.id)
  {
    var a, b := lines[..k], lines[k + 1..];
    forall i | 0 <= i < |a| ensures a[i].product.id != lines[k].product.id {
      assert a[i] == lines[i];
    }
    forall i | 0 <= i < |b| ensures b[i].product.id != lines[k].product.id {
      assert b[i] == lines[k + 1 + i];
    }
  }

  lemma SplitAround(lines: seq<Line>, k: nat)
    requires k < |lines|
    ensures lines == (lines[..k] + [lines[k]]) + lines[k + 1..]
  {
  }

  lemma {:induction false} WithoutIdConcat(a: seq<Line>, b: seq<Line>, id: int)
    ensures WithoutId(a + b, id) == WithoutId(a, id) + WithoutId(b, id)
    decreases |a|
  {
    if a == [] {
      assert a + b == b;
    } else {
      var head := if a[0].product.id != id then [a[0]] else [];
      WithoutIdConcat(a[1..], b, id);
      assert (a + b)[0] == a[0];
      assert (a + b)[1..] == a[1..] + b;
      assert WithoutId(a + b, id) == head + (WithoutId(a[1..], id) + WithoutId(b, id));
      assert WithoutId(a, id) == head + WithoutId(a[1..], id);
    }
  }

  /** Dropping the first line keeps the ids unique, and no later line shares the first one's id. */
  lemma UniqueIdsTail(lines: seq<Line>)
    requires UniqueIds(lines) && lines != []
    ensures UniqueIds(lines[1..])
    ensures forall l :: l in lines[1..] ==> l.product.id != lines[0].product.id
  {
    var rest := lines[1..];
    forall i, j | 0 <= i < j < |rest|
      ensures rest[i].product.id != rest[j].product.id
    {
      assert rest[i] == lines[i + 1] && rest[j] == lines[j + 1];
    }
    forall l | l in rest
      ensures l.product.id != lines[0].product.id
    {
      var m :| 0 <= m < |rest| && rest[m] == l;
      assert lines[m + 1] == l;
    }
  }

  /** A quantity of 0 or less is removal; a positive quantity replaces the quantity of the
      matching lines and changes nothing else. */
  lemma UpdateQuantityCases(lines: seq<Line>, id: int, quantity: int)
    ensures quantity <= 0 ==> UpdateQuantity(lines, id, quantity) == WithoutId(lines, id)
    ensures quantity > 0 ==>
      |UpdateQuantity(lines, id, quantity)| == |lines| &&
      forall i :: 0 <= i < |lines| ==>
        UpdateQuantity(lines, id, quantity)[i].product == lines[i].product &&
        UpdateQuantity(lines, id, quantity)[i].quantity ==
          if lines[i].product.id == id then quantity else lines[i].quantity
  {
  }

  // ---------------------------------------------------------------------------------------
  // The ledger invariant is kept by every mutator
  // ---------------------------------------------------------------------------------------

  lemma AddKeepsWellFormed(lines: seq<Line>, product: Product, qty: int)
    requires WellFormed(lines) && qty >= 1
    ensures WellFormed(AddLine(lines, product, qty))
  {
  }

  lemma {:induction false} RemoveKeepsWellFormed(lines: seq<Line>, id: int)
    requires WellFormed(lines)
    ensures WellFormed(WithoutId(lines, id))
    decreases |lines|
  {
    if lines != [] {
      var rest := lines[1..];
      WellFormedTail(lines);
      RemoveKeepsWellFormed(rest, id);
      if lines[0].product.id != id {
        var tail := WithoutId(rest, id);
        RemoveMembers(rest, id);
        assert WithoutId(lines, id) == [lines[0]] + tail;
        WellFormedCons(lines[0], tail);
      }
    }
  }

  /** Dropping the first line keeps the invariant, and no later line shares the first one's id. */
  lemma WellFormedTail(lines: seq<Line>)
    requires WellFormed(lines) && lines != []
    ensures WellFormed(lines[1..])
    ensures forall l :: l in lines[1..] ==> l.product.id != lines[0].product.id
  {
    UniqueIdsTail(lines);
    forall i | 0 <= i < |lines[1..]|
      ensures lines[1..][i].quantity >= 1
    {
      assert lines[1..][i] == lines[i + 1];
    }
  }

  /** A line with a positive quantity and a new id can be put in front of a well-formed list. */
  lemma WellFormedCons(x: Line, t: seq<Line>)
    requires WellFormed(t) && x.quantity >= 1
    requires forall l :: l in t ==> l.product.id != x.product.id
    ensures WellFormed([x] + t)
  {
    var r := [x] + t;
    forall i, j | 0 <= i < j < |r|
      ensures r[i].product.id != r[j].product.id
    {
      assert r[j] == t[j - 1];
      if i > 0 {
        assert r[i] == t[i - 1];
      } else {
        assert t[j - 1] in t;
      }
    }
    forall i | 0 <= i < |r|
      ensures r[i].quantity >= 1
    {
      if i > 0 {
        assert r[i] == t[i - 1];
      }
    }
  }


  lemma UpdateKeepsWellFormed(lines: seq<Line>, id: int, quantity: int)
    requires WellFormed(lines)
    ensures WellFormed(UpdateQuantity(lines, id, quantity))
  {
    if quantity <= 0 {
      RemoveKeepsWellFormed(lines, id);
    }
  }

  // ---------------------------------------------------------------------------------------
  // The derived figures follow the mutators
  // ---------------------------------------------------------------------------------------

  lemma {:induction false} SumConcat(a: seq<Line>, b: seq<Line>, f: Line -> int)
    ensures Sum(a + b, f) == Sum(a, f) + Sum(b, f)
    decreases |a|
  {
    if a == [] {
      assert a + b == b;
    } else {
      SumConcat(a[1..], b, f);
      assert (a + b)[1..] == a[1..] + b;
    }
  }

  /** In a cart with unique ids, merging touches exactly the one line that carries the id. */
  lemma BumpOneLine(lines: seq<Line>, k: nat, qty: int)
    requires UniqueIds(lines) && k < |lines|
    ensures Bump(lines, lines[k].product.id, qty)
         == lines[..k] + [lines[k].(quantity := lines[k].quantity + qty)] + lines[k + 1..]
  {
  }

  /** Replacing one line changes a sum by the difference of that line's terms. */
  lemma SumReplaceOne(lines: seq<Line>, k: nat, l: Line, f: Line -> int)
    requires k < |lines|
    ensures Sum(lines[..k] + [l] + lines[k + 1..], f) == Sum(lines, f) - f(lines[k]) + f(l)
  {
    var a, b := lines[..k], lines[k + 1..];
    SplitAround(lines, k);
    SumAround(a, lines[k], b, f);
    SumAround(a, l, b, f);
  }

  lemma SumAround(a: seq<Line>, x: Line, b: seq<Line>, f: Line -> int)
    ensures Sum(a + [x] + b, f) == Sum(a, f) + f(x) + Sum(b, f)
  {
    SumConcat(a + [x], b, f);
    SumConcat(a, [x], f);
    assert Sum([x], f) == f(x) + Sum([], f);
  }

  /** Adding `qty` of a product raises `cartCount` by `qty`. */
  lemma AddRaisesCount(lines: seq<Line>, product: Product, qty: int)
    requires UniqueIds(lines)
    ensures CartCount(AddLine(lines, product, qty)) == CartCount(lines) + qty
  {
    if HasId(lines, product.id) {
      var k :| 0 <= k < |lines| && lines[k].product.id == product.id;
      BumpOneLine(lines, k, qty);
      SumReplaceOne(lines, k, lines[k].(quantity := lines[k].quantity + qty), Quantity);
    } else {
      SumConcat(lines, [Line(product, qty)], Quantity);
      assert Sum([Line(product, qty)], Quantity) == qty + Sum([], Quantity);
    }
  }

  /** Adding `qty` of a product raises `cartTotal` by `qty` times the price on the line that
      receives it: the snapshot already in the cart if there is one, else the product's. */
  lemma AddRaisesTotal(lines: seq<Line>, product: Product, qty: int)
    requires UniqueIds(lines)
    ensures !HasId(lines, product.id) ==>
      CartTotal(AddLine(lines, product, qty)) == CartTotal(lines) + product.price * qty
    ensures forall k :: 0 <= k < |lines| && lines[k].product.id == product.id ==>
      CartTotal(AddLine(lines, product, qty)) == CartTotal(lines) + lines[k].product.price * qty
  {
    if HasId(lines, product.id) {
      var k :| 0 <= k < |lines| && lines[k].product.id == product.id;
      var line := lines[k];
      BumpOneLine(lines, k, qty);
      SumReplaceOne(lines, k, line.(quantity := line.quantity + qty), Subtotal);
      assert line.product.price * (line.quantity + qty) == line.product.price * line.quantity + line.product.price * qty;
    } else {
      SumConcat(lines, [Line(product, qty)], Subtotal);
      assert Sum([Line(product, qty)], Subtotal) == Subtotal(Line(product, qty)) + Sum([], Subtotal);
    }
  }

  /** The nutrition example: 2 x 500 kcal and 1 x 300 kcal make 1300 kcal. */
  lemma NutritionExample(p: Product, q: Product, np: Nutrition, nq: Nutrition)
    requires p.nutrition == Some(np) && np.calories == 500.0
    requires q.nutrition == Some(nq) && nq.calories == 300.0
    ensures CartNutritionSummary([Line(p, 2), Line(q, 1)]).calories == 1300.0
  {
    var lines := [Line(p, 2), Line(q, 1)];
    assert lines[1..] == [Line(q, 1)];
    assert lines[1..][1..] == [];
    assert LineCalories(Line(p, 2)) == 1000.0;
    assert LineCalories(Line(q, 1)) == 300.0;
    assert SumReal(lines[1..], LineCalories) == 300.0;
  }

  // ---------------------------------------------------------------------------------------
  // The provider: state cells, the two effects and the four mutators
  // ---------------------------------------------------------------------------------------

  /** The cart state of one browser session. `saves` records every snapshot written to the
      storage slot, oldest first; how a snapshot is serialised is not modelled. */
  class CartProvider {
    var cartItems: seq<Line>
    var isHydrated: bool
    ghost var saves: seq<seq<Line>>

    /** Nothing is written before hydration; after it, the slot holds the current cart. */
    ghost predicate Valid()
      reads this
    {
      && (isHydrated <==> saves != [])
      && (isHydrated ==> saves[|saves| - 1] == cartItems)
    }

    /** First render: an empty cart, not yet hydrated, nothing written. */
    constructor ()
      ensures Valid()
      ensures cartItems == [] && !isHydrated && saves == []
    {
      cartItems := [];
      isHydrated := false;
      saves := [];
    }

    /** The save effect: writes the cart to the slot, but only once hydrated. */
    method Persist()
      modifies this`saves
      ensures saves == if isHydrated then old(saves) + [cartItems] else old(saves)
    {
      if isHydrated {
        saves := saves + [cartItems];
      }
    }

    /** The mount effect, run once: read the slot (`saved`, absent when `getItem` gives null),
        parse it with `parse` (None when parsing throws), adopt the parsed cart, and mark the
        provider hydrated in every case. The save effect then writes the hydrated cart back. */
    method Hydrate(saved: Option<string>, parse: string -> Option<seq<Line>>)
      requires Valid() && !isHydrated
      modifies this
      ensures Valid() && isHydrated
      ensures cartItems ==
        if saved.Some? && saved.value != "" && parse(saved.value).Some?
        then parse(saved.value).value
        else old(cartItems)
      ensures saves == old(saves) + [cartItems]
    {
      if saved.Some? && saved.value != "" {
        var parsed := parse(saved.value);
        if parsed.Some? {
          cartItems := parsed.value;
        }
      }
      isHydrated := true;
      Persist();
    }

    method AddToCart(product: Product, qty: int := DefaultQuantity)
      requires Valid()
      modifies this
      ensures Valid() && isHydrated == old(isHydrated)
      ensures cartItems == AddLine(old(cartItems), product, qty)
      ensures saves == if isHydrated then old(saves) + [cartItems] else old(saves)
    {
      cartItems := AddLine(cartItems, product, qty);
      Persist();
    }

    method RemoveFromCart(id: int)
      requires Valid()
      modifies this
      ensures Valid() && isHydrated == old(isHydrated)
      ensures cartItems == WithoutId(old(cartItems), id)
      ensures saves == if isHydrated then old(saves) + [cartItems] else old(saves)
    {
      cartItems := WithoutId(cartItems, id);
      Persist();
    }

    method UpdateQuantityOf(id: int, quantity: int)
      requires Valid()
      modifies this
      ensures Valid() && isHydrated == old(isHydrated)
      ensures cartItems == UpdateQuantity(old(cartItems), id, quantity)
      ensures saves == if isHydrated then old(saves) + [cartItems] else old(saves)
    {
      if quantity <= 0 {
        RemoveFromCart(id);
        return;
      }
      cartItems := SetQuantity(cartItems, id, quantity);
      Persist();
    }

    method ClearCart()
      requires Valid()
      modifies this
      ensures Valid() && isHydrated == old(isHydrated)
      ensures cartItems == []
      ensures saves == if isHydrated then old(saves) + [[]] else old(saves)
    {
      cartItems := [];
      Persist();
    }
  }

  /** A session as the pages drive it: hydrate from a corrupt slot, add a product twice, step
      its quantity down to zero on the cart page, and check out. */
  method SessionExample(p: Product, corrupt: string, parse: string -> Option<seq<Line>>)
    requires corrupt != "" && parse(corrupt).None?
  {
    var cart := new CartProvider();
    cart.Hydrate(Some(corrupt), parse);
    assert cart.cartItems == [] && cart.saves == [[]];
    cart.AddToCart(p);
    cart.AddToCart(p, 2);
    AddTwiceMerges([], p, 1, 2);
    assert cart.cartItems == [Line(p, 3)];
    assert Sum([Line(p, 3)], Quantity) == 3 + Sum([], Quantity);
    cart.UpdateQuantityOf(p.id, 0);
    assert cart.cartItems == [];
    cart.AddToCart(p);
    cart.ClearCart();
    assert cart.saves[|cart.saves| - 1] == [] && CartTotal(cart.cartItems) == 0;
  }
}
