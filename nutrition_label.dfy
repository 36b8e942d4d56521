/** The nutrition-facts label: nine nutrient rows and a potassium row, each with a percentage of
    a fixed daily reference value, and warning flags on the sodium and sugars rows. */
module NutritionLabel {
  import opened Options
  import opened Text
  import opened Storefront

  /** Daily reference amounts, in grams or milligrams as the nutrient is measured. */
  const DailyValues: map<string, int> := map[
    "totalFat" := 78,
    "saturatedFat" := 20,
    "cholesterol" := 300,
    "sodium" := 2300,
    "totalCarbs" := 275,
    "fiber" := 28,
    "sugars" := 50,
    "protein" := 50,
    "potassium" := 4700
  ]

  /** `Math.round`: the nearest integer, a half rounding up. */
  function Round(x: real): (r: int)
    ensures (r as real) - 0.5 <= x < (r as real) + 0.5
  {
    (x + 0.5).Floor
  }

  /** The whole percentage of the daily value, absent when the nutrient has no (or a zero)
      reference amount. */
  function DvPercent(value: real, key: string): (pct: Option<int>)
    ensures pct.Some? <==> key in DailyValues && DailyValues[key] != 0
    ensures pct.Some? ==>
      (pct.value as real) - 0.5 <= value * 100.0 / (DailyValues[key] as real) < (pct.value as real) + 0.5
  {
    if key in DailyValues && DailyValues[key] != 0
    then Some(Round(value / (DailyValues[key] as real) * 100.0))
    else None
  }

  /** `dv(value, key)`: the percentage followed by "%", or the empty string. */
  function Dv(value: real, key: string): (s: string)
    ensures s == "" <==> DvPercent(value, key).None?
  {
    match DvPercent(value, key)
    case None => ""
    case Some(pct) => IntToString(pct) + "%"
  }

  /** The `dv` text is empty exactly when there is no reference amount; for a non-negative amount
      it is the digits of the rounded percentage followed by "%", and reading the digits back
      gives that percentage. */
  lemma DvText(value: real, key: string)
    ensures Dv(value, key) == "" <==> DvPercent(value, key).None?
    ensures DvPercent(value, key).Some? && value >= 0.0 ==>
      var s := Dv(value, key);
      |s| >= 2 && s[|s| - 1] == '%' && AllDigits(s[..|s| - 1]) &&
      DigitsValue(s[..|s| - 1]) == DvPercent(value, key).value
  {
    var p := DvPercent(value, key);
    if p.Some? && value >= 0.0 {
      var s := Dv(value, key);
      assert p.value >= 0;
      DigitsRoundTrip(p.value);
      assert s[..|s| - 1] == Digits(p.value);
    }
  }

  datatype Row = Row(caption: string, amount: real, unit: string, dv: string, bold: bool, indent: bool, warn: bool)

  datatype Label = Label(servingSize: string, calories: real, rows: seq<Row>, potassium: Row)

  /** Percentages used for the warning flags. */
  function SodiumPct(n: Nutrition): int {
    Round(n.sodium / 2300.0 * 100.0)
  }

  function SugarPct(n: Nutrition): int {
    Round(n.sugars / 50.0 * 100.0)
  }

  /** The label; nothing at all when the product has no nutrition data. */
  function RenderLabel(nutrition: Option<Nutrition>): (view: Option<Label>)
    ensures view.Some? <==> nutrition.Some?
  {
    match nutrition
    case None => None
    case Some(n) =>
      Some(Label(
        n.servingSize,
        n.calories,
        [
          Row("Total Fat", n.totalFat, "g", Dv(n.totalFat, "totalFat"), true, false, false),
          Row("  Saturated Fat", n.saturatedFat, "g", Dv(n.saturatedFat, "saturatedFat"), false, true, false),
          Row("  Trans Fat", n.transFat, "g", "", false, true, false),
          Row("Cholesterol", n.cholesterol, "mg", Dv(n.cholesterol, "cholesterol"), true, false, false),
          Row("Sodium", n.sodium, "mg", Dv(n.sodium, "sodium"), true, false, SodiumPct(n) > 15),
          Row("Total Carbohydrate", n.totalCarbs, "g", Dv(n.totalCarbs, "totalCarbs"), true, false, false),
          Row("  Dietary Fiber", n.fiber, "g", Dv(n.fiber, "fiber"), false, true, false),
          Row("  Total Sugars", n.sugars, "g", "", false, true, SugarPct(n) > 20),
          Row("Protein", n.protein, "g", Dv(n.protein, "protein"), true, false, false)
        ],
        Row("Potassium", n.potassium, "mg", Dv(n.potassium, "potassium"), false, false, false)))
  }

  /** The sodium row is flagged exactly when the serving holds at least 356.5 mg of sodium: the
      rounded percentage of 2300 mg exceeds 15 from 15.5 % upwards. */
  lemma SodiumWarningThreshold(n: Nutrition)
    ensures RenderLabel(Some(n)).value.rows[4].warn <==> n.sodium >= 356.5
  {
    var x := n.sodium / 2300.0 * 100.0;
    assert x == n.sodium / 23.0;
    RoundAbove(x, 15);
    WarningFlags(n);
  }

  /** The sugars row is flagged exactly when the serving holds at least 10.25 g of sugars: the
      rounded percentage of 50 g exceeds 20 from 20.5 % upwards. */
  lemma SugarsWarningThreshold(n: Nutrition)
    ensures RenderLabel(Some(n)).value.rows[7].warn <==> n.sugars >= 10.25
  {
    var x := n.sugars / 50.0 * 100.0;
    assert x == n.sugars * 2.0;
    RoundAbove(x, 20);
    WarningFlags(n);
  }

  /** Only the sodium and sugars rows carry a flag, each set from its own percentage. */
  lemma WarningFlags(n: Nutrition)
    ensures var rows := RenderLabel(Some(n)).value.rows;
      |rows| == 9 && rows[4].warn == (SodiumPct(n) > 15) && rows[7].warn == (SugarPct(n) > 20)
  {
  }

  /** A rounded value exceeds the integer `k` exactly when the value is at least `k + 0.5`. */
  lemma RoundAbove(x: real, k: int)
    ensures Round(x) > k <==> x >= (k as real) + 0.5
  {
  }

  /** The trans fat and sugars rows carry no percentage; sodium uses the 2300 mg reference and
      potassium the 4700 mg one. */
  lemma LabelBlankPercentages(n: Nutrition)
    ensures var l := RenderLabel(Some(n)).value;
      && |l.rows| == 9
      && l.rows[2].caption == "  Trans Fat" && l.rows[2].dv == ""
      && l.rows[7].caption == "  Total Sugars" && l.rows[7].dv == ""
      && l.rows[4].dv == Dv(n.sodium, "sodium") && DailyValues["sodium"] == 2300
      && l.potassium.dv == Dv(n.potassium, "potassium") && DailyValues["potassium"] == 4700
  {
  }

  /** Every other row shows a percentage. */
  lemma LabelShownPercentages(n: Nutrition)
    ensures var l := RenderLabel(Some(n)).value;
      forall i :: 0 <= i < |l.rows| && i != 2 && i != 7 ==> l.rows[i].dv != ""
  {
    DvShown(n.totalFat, "totalFat");
    DvShown(n.saturatedFat, "saturatedFat");
    DvShown(n.cholesterol, "cholesterol");
    DvShown(n.sodium, "sodium");
    DvShown(n.totalCarbs, "totalCarbs");
    DvShown(n.fiber, "fiber");
    DvShown(n.protein, "protein");
  }

  lemma DvShown(value: real, key: string)
    requires key in DailyValues
    ensures Dv(value, key) != ""
  {
    assert DailyValues[key] != 0;
  }
}
