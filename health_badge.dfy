/** The health badge: a fixed table from badge slug to label and colour classes, with a
    fallback that shows the slug itself with its hyphens turned into spaces. */
module HealthBadge {
  import opened Text

  datatype BadgeStyle = BadgeStyle(caption: string, color: string)

  const BadgeConfig: map<string, BadgeStyle> := map[
    "heart-healthy" := BadgeStyle("Heart Healthy", "bg-rose-100 text-rose-700"),
    "omega-3-rich" := BadgeStyle("Omega-3", "bg-sky-100 text-sky-700"),
    "low-sodium" := BadgeStyle("Low Sodium", "bg-teal-100 text-teal-700"),
    "low-gi" := BadgeStyle("Low GI", "bg-blue-100 text-blue-700"),
    "whole-grain" := BadgeStyle("Whole Grain", "bg-amber-100 text-amber-700"),
    "low-calorie" := BadgeStyle("Low Cal", "bg-green-100 text-green-700"),
    "high-fiber" := BadgeStyle("High Fiber", "bg-lime-100 text-lime-700"),
    "antioxidant-rich" := BadgeStyle("Antioxidants", "bg-purple-100 text-purple-700"),
    "high-protein" := BadgeStyle("High Protein", "bg-orange-100 text-orange-700"),
    "low-fat" := BadgeStyle("Low Fat", "bg-cyan-100 text-cyan-700"),
    "plant-protein" := BadgeStyle("Plant Protein", "bg-emerald-100 text-emerald-700"),
    "lean-meat" := BadgeStyle("Lean Meat", "bg-red-100 text-red-700"),
    "potassium-rich" := BadgeStyle("Potassium+", "bg-indigo-100 text-indigo-700"),
    "iron-rich" := BadgeStyle("Iron Rich", "bg-orange-100 text-orange-700"),
    "vitamin-c" := BadgeStyle("Vitamin C", "bg-yellow-100 text-yellow-700"),
    "vitamin-d" := BadgeStyle("Vitamin D", "bg-amber-100 text-amber-700"),
    "probiotic" := BadgeStyle("Probiotic", "bg-violet-100 text-violet-700"),
    "complete-protein" := BadgeStyle("Complete Protein", "bg-fuchsia-100 text-fuchsia-700"),
    "gluten-free" := BadgeStyle("Gluten Free", "bg-stone-100 text-stone-700"),
    "calcium-rich" := BadgeStyle("Calcium+", "bg-sky-100 text-sky-700"),
    "energy-boost" := BadgeStyle("Energy", "bg-yellow-100 text-yellow-700")
  ]

  const FallbackColor: string := "bg-slate-100 text-slate-700"

  /** The style a badge is drawn with. A known slug gets its table entry. An unknown slug is
      shown as itself, of the same length, with every hyphen (and nothing else) turned into a
      space, on the neutral slate colour. */
  function Badge(slug: string): (b: BadgeStyle)
    ensures slug in BadgeConfig ==> b == BadgeConfig[slug]
    ensures slug !in BadgeConfig ==> b.color == FallbackColor
    ensures slug !in BadgeConfig ==> |b.caption| == |slug| && '-' !in b.caption
    ensures slug !in BadgeConfig ==>
      forall i :: 0 <= i < |slug| && slug[i] != '-' ==> b.caption[i] == slug[i]
    ensures slug !in BadgeConfig ==>
      forall i :: 0 <= i < |slug| && slug[i] == '-' ==> b.caption[i] == ' '
  {
    if slug in BadgeConfig then BadgeConfig[slug]
    else BadgeStyle(ReplaceChar(slug, '-', ' '), FallbackColor)
  }
}
