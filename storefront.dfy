/** The product records of the storefront's catalog as the pages and the cart see them.
    Prices are whole cents; nutrient amounts, ratings and the like are exact rationals (the
    catalog's numbers are short decimals, read here without binary floating point). */
module Storefront {
  import opened Options

  datatype Nutrition = Nutrition(
    servingSize: string,
    calories: real,
    totalFat: real,
    saturatedFat: real,
    transFat: real,
    cholesterol: real,
    sodium: real,
    totalCarbs: real,
    fiber: real,
    sugars: real,
    protein: real,
    potassium: real)

  /** An ingredient warning is either free text or an object with a `type` and a `message`. */
  datatype Warning = PlainWarning(text: string) | TypedWarning(kind: string, message: string)

  /** `suitability` keeps the entries of the condition-to-score object in insertion order. */
  datatype Product = Product(
    id: int,
    name: string,
    price: int,
    image: string,
    description: string,
    healthBadges: seq<string>,
    warnings: seq<Warning>,
    suitability: seq<(string, int)>,
    nutrition: Option<Nutrition>,
    rating: real,
    reviews: nat,
    categories: seq<string>)

  /** `suitability[slug] || 0`: the score stored under `slug` (the first entry with that key),
      or 0 when there is none. */
  function SuitabilityFor(p: Product, slug: string): int {
    Lookup(p.suitability, slug)
  }

  function Lookup(entries: seq<(string, int)>, key: string): (value: int)
    ensures (forall i :: 0 <= i < |entries| ==> entries[i].0 != key) ==> value == 0
    ensures forall i ::
              (0 <= i < |entries| && entries[i].0 == key && forall j :: 0 <= j < i ==> entries[j].0 != key)
              ==> value == entries[i].1
  {
    if entries == [] then 0
    else if entries[0].0 == key then entries[0].1
    else Lookup(entries[1..], key)
  }
}
