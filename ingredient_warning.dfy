/** The ingredient-warning chip: a plain-text warning shows on an amber chip; a typed warning
    picks its icon and colour by type, unknown types falling back to the allergen style. */
module IngredientWarning {
  import opened Storefront

  datatype ChipStyle = ChipStyle(icon: string, color: string)

  /** A rendered chip: its icon, its colour classes and the text after the icon. */
  datatype Chip = Chip(icon: string, color: string, text: string)

  const PlainStyle: ChipStyle := ChipStyle("⚠️", "bg-amber-50 text-amber-700 border border-amber-200")

  const TypeConfig: map<string, ChipStyle> := map[
    "sodium" := ChipStyle("🧂", "bg-orange-50 text-orange-700 border-orange-200"),
    "sugar" := ChipStyle("🍬", "bg-pink-50 text-pink-700 border-pink-200"),
    "allergen" := ChipStyle("⚠️", "bg-red-50 text-red-700 border-red-200")
  ]

  /** The chip for one warning. Plain text shows verbatim on the amber chip; a typed warning
      shows its message after the icon of its type, or of the allergen type when its type is
      not in the table. */
  function WarningChip(w: Warning): (c: Chip)
    ensures w.PlainWarning? ==> c == Chip(PlainStyle.icon, PlainStyle.color, w.text)
    ensures w.TypedWarning? ==> c.text == w.message
    ensures w.TypedWarning? && w.kind in TypeConfig ==>
      c.icon == TypeConfig[w.kind].icon && c.color == TypeConfig[w.kind].color
    ensures w.TypedWarning? && w.kind !in TypeConfig ==>
      c.icon == TypeConfig["allergen"].icon && c.color == TypeConfig["allergen"].color
  {
    match w
    case PlainWarning(text) => Chip(PlainStyle.icon, PlainStyle.color, text)
    case TypedWarning(kind, message) =>
      var style := if kind in TypeConfig then TypeConfig[kind] else TypeConfig["allergen"];
      Chip(style.icon, style.color, message)
  }
}
