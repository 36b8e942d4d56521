/** The backend's product records, as far as order creation and the compliance checker read
    them. Decimal fields with one decimal place are held exactly, in tenths; prices with two
    decimal places are held in cents; the milligram and calorie counts are whole numbers. */
module ProductModels {
  import opened Options

  /** The per-serving nutrition facts of a product. */
  datatype NutritionFacts = NutritionFacts(
    servingSize: string,
    calories: nat,
    totalFatTenths: int,
    saturatedFatTenths: int,
    transFatTenths: int,
    cholesterol: nat,
    sodium: nat,
    totalCarbsTenths: int,
    fiberTenths: int,
    sugarsTenths: int,
    proteinTenths: int,
    potassium: nat)

  /** A catalogue product; `nutrition` is absent when no nutrition record is attached. */
  datatype Product = Product(
    id: int,
    name: string,
    priceCents: int,
    ratingTenths: int,
    nutrition: Option<NutritionFacts>)
}
