/** The product card: the match badge taken from the product's best suitability score, the
    first three health badges, the warnings strip, and the Add button wired to the cart. */
module ProductCard {
  import opened Options
  import opened Storefront
  import opened Ranking
  import HealthBadge
  import IngredientWarning
  import opened CartContext

  /** How many health badges the card shows. */
  const BadgeLimit: nat := 3

  function EntryScore(e: (string, int)): real {
    e.1 as real
  }

  /** `Object.entries(suitability).sort(([, a], [, b]) => b - a)[0]`: the first entry of a stable
      descending sort of the entries; absent (a render error) when there are no entries. */
  function TopCondition(suitability: seq<(string, int)>): (r: Option<(string, int)>)
    ensures r.Some? <==> suitability != []
    ensures r.Some? ==> r.value in suitability
  {
    if suitability == [] then None
    else
      var sorted := SortDesc(suitability, EntryScore);
      assert sorted[0] in multiset(sorted);
      Some(sorted[0])
  }

  /** The card's match score is the largest suitability score, and among entries sharing it the
      earliest one is chosen. There is a top condition exactly when there is an entry. */
  lemma TopConditionIsFirstMaximum(suitability: seq<(string, int)>)
    ensures TopCondition(suitability).Some? <==> suitability != []
    ensures TopCondition(suitability).Some? ==>
      exists k :: 0 <= k < |suitability| && TopCondition(suitability).value == suitability[k]
        && (forall i :: 0 <= i < |suitability| ==> suitability[i].1 <= suitability[k].1)
        && (forall i :: 0 <= i < k ==> suitability[i].1 < suitability[k].1)
  {
    if suitability != [] {
      var k := TopConditionIndex(suitability);
      assert TopCondition(suitability).value == suitability[k];
    }
  }

  lemma TopConditionIndex(suitability: seq<(string, int)>) returns (k: nat)
    requires suitability != []
    ensures k < |suitability| && SortDesc(suitability, EntryScore)[0] == suitability[k]
    ensures forall i :: 0 <= i < |suitability| ==> suitability[i].1 <= suitability[k].1
    ensures forall i :: 0 <= i < k ==> suitability[i].1 < suitability[k].1
  {
    var sorted := SortDesc(suitability, EntryScore);
    var top := sorted[0];
    var m := EntryScore(top);
    SortDescHeadIsMax(suitability, EntryScore);
    assert top in multiset(sorted);
    assert top in multiset(suitability);
    var k0 :| 0 <= k0 < |suitability| && suitability[k0] == top;
    k := FirstWithScore(suitability, m, k0);
    SortDescStable(suitability, EntryScore, m);
    WithKeyHead(suitability, EntryScore, m, k);
    WithKeyHead(sorted, EntryScore, m, 0);
    assert forall i :: 0 <= i < |suitability| ==> EntryScore(suitability[i]) <= m;
  }

  /** The leftmost index whose score is `m`, given that index `j` has it. */
  lemma FirstWithScore(s: seq<(string, int)>, m: real, j: nat) returns (k: nat)
    requires j < |s| && EntryScore(s[j]) == m
    ensures k <= j && EntryScore(s[k]) == m
    ensures forall i :: 0 <= i < k ==> EntryScore(s[i]) != m
  {
    k := 0;
    while EntryScore(s[k]) != m
      invariant k <= j
      invariant forall i :: 0 <= i < k ==> EntryScore(s[i]) != m
      decreases j - k
    {
      k := k + 1;
    }
  }

  /** What the card shows besides the product's own fields. */
  datatype CardView = CardView(
    matchScore: int,
    badges: seq<HealthBadge.BadgeStyle>,
    warnings: Option<seq<IngredientWarning.Chip>>)

  function Badges(slugs: seq<string>): (r: seq<HealthBadge.BadgeStyle>)
    ensures |r| == |slugs|
    ensures forall i :: 0 <= i < |slugs| ==> r[i] == HealthBadge.Badge(slugs[i])
  {
    if slugs == [] then [] else [HealthBadge.Badge(slugs[0])] + Badges(slugs[1..])
  }

  function Chips(warnings: seq<Warning>): (r: seq<IngredientWarning.Chip>)
    ensures |r| == |warnings|
    ensures forall i :: 0 <= i < |warnings| ==> r[i] == IngredientWarning.WarningChip(warnings[i])
  {
    if warnings == [] then [] else [IngredientWarning.WarningChip(warnings[0])] + Chips(warnings[1..])
  }

  /** The card; absent when the product has no suitability scores (the source then fails to
      render). */
  function RenderCard(p: Product): (r: Option<CardView>)
    ensures r.Some? <==> p.suitability != []
    ensures r.Some? ==> exists e :: e in p.suitability && r.value.matchScore == e.1
    ensures r.Some? ==> |r.value.badges| <= BadgeLimit
  {
    match TopCondition(p.suitability)
    case None => None
    case Some(top) =>
      var shown := if |p.healthBadges| <= BadgeLimit then p.healthBadges else p.healthBadges[..BadgeLimit];
      Some(CardView(
        top.1,
        Badges(shown),
        if |p.warnings| > 0 then Some(Chips(p.warnings)) else None))
  }

  /** At most the first three badges are shown, in order; the warnings strip appears exactly when
      there are warnings and then shows every one of them, in order. */
  lemma CardContents(p: Product)
    requires p.suitability != []
    ensures RenderCard(p).Some?
    ensures var v := RenderCard(p).value;
      && |v.badges| == (if |p.healthBadges| < 3 then |p.healthBadges| else 3)
      && (forall i :: 0 <= i < |v.badges| ==> v.badges[i] == HealthBadge.Badge(p.healthBadges[i]))
      && (v.warnings.Some? <==> p.warnings != [])
      && (v.warnings.Some? ==> |v.warnings.value| == |p.warnings|)
      && (v.warnings.Some? ==> forall i :: 0 <= i < |p.warnings| ==>
            v.warnings.value[i] == IngredientWarning.WarningChip(p.warnings[i]))
  {
  }

  /** The Add button adds one unit of the product as it is shown on the card. */
  method OnAddClick(cart: CartProvider, p: Product)
    requires cart.Valid()
    modifies cart
    ensures cart.Valid() && cart.isHydrated == old(cart.isHydrated)
    ensures cart.cartItems == AddLine(old(cart.cartItems), p, 1)
    ensures cart.saves == if cart.isHydrated then old(cart.saves) + [cart.cartItems] else old(cart.saves)
  {
    cart.AddToCart(p);
  }
}
