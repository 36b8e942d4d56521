/** The backend's rule-based compliance checker and the selection and ordering around the
    recommendation score. The score itself (a normalised, weighted dot product blended with the
    stored suitability, in floating point) is a parameter of the model. */
module Recommender {
  import opened Options
  import opened Text
  import opened ProductModels
  import opened Ranking

  const Cardiovascular := "cardiovascular"
  const Diabetes := "diabetes"
  const Hypertension := "hypertension"

  /** The conditions that have a weight profile. */
  const Conditions: set<string> := {Cardiovascular, Diabetes, Hypertension}

  /** The default number of recommendations. */
  const DefaultLimit := 4

  const NoNutritionIssue := "No nutrition data available"

  // ---------------------------------------------------------------------------------------
  // Compliance checklist
  // ---------------------------------------------------------------------------------------

  /** The outcome of a compliance check; `score` is a whole percentage. */
  datatype Compliance = Compliance(compliant: bool, score: int, issues: seq<string>, passes: seq<string>)

  /** The dietary rules the checker knows. */
  datatype Rule =
    | LowSaturatedFat | LowSodium | HighFiber | NoTransFat
    | LowSugars | ModerateCarbs | VeryLowSodium | RichInPotassium

  /** The message recorded when a rule passes. */
  function PassText(r: Rule): string {
    match r
    case LowSaturatedFat => "Low saturated fat ✓"
    case LowSodium => "Low sodium ✓"
    case HighFiber => "High fiber ✓"
    case NoTransFat => "No trans fats ✓"
    case LowSugars => "Low added sugars ✓"
    case ModerateCarbs => "Moderate carbohydrates ✓"
    case VeryLowSodium => "Very low sodium ✓"
    case RichInPotassium => "Rich in potassium ✓"
  }

  /** The message recorded when a rule fails, quoting the amount (grams in tenths, milligrams
      whole). */
  function IssueText(r: Rule, amount: int): string {
    match r
    case LowSaturatedFat => "Saturated fat too high (" + TenthsToString(amount) + "g, max 2g)"
    case LowSodium => "Sodium too high (" + IntToString(amount) + "mg, max 400mg)"
    case HighFiber => "Fiber too low (" + TenthsToString(amount) + "g, min 3g)"
    case NoTransFat => "Contains trans fats (" + TenthsToString(amount) + "g)"
    case LowSugars => "Sugar too high (" + TenthsToString(amount) + "g, max 5g)"
    case ModerateCarbs => "Carbs too high (" + TenthsToString(amount) + "g, max 45g)"
    case VeryLowSodium => "Sodium too high (" + IntToString(amount) + "mg, max 200mg)"
    case RichInPotassium => "Low potassium (" + IntToString(amount) + "mg, min 300mg)"
  }

  /** One rule applied to a product: whether it passed, and the amount it looked at. */
  datatype Check = Check(passed: bool, rule: Rule, amount: int)

  function SaturatedFatCheck(n: NutritionFacts): Check {
    Check(n.saturatedFatTenths < 20, LowSaturatedFat, n.saturatedFatTenths)
  }

  function CardioSodiumCheck(n: NutritionFacts): Check {
    Check(n.sodium < 400, LowSodium, n.sodium)
  }

  function FiberCheck(n: NutritionFacts): Check {
    Check(n.fiberTenths >= 30, HighFiber, n.fiberTenths)
  }

  function TransFatCheck(n: NutritionFacts): Check {
    Check(n.transFatTenths == 0, NoTransFat, n.transFatTenths)
  }

  function SugarsCheck(n: NutritionFacts): Check {
    Check(n.sugarsTenths < 50, LowSugars, n.sugarsTenths)
  }

  function CarbsCheck(n: NutritionFacts): Check {
    Check(n.totalCarbsTenths <= 450, ModerateCarbs, n.totalCarbsTenths)
  }

  function VeryLowSodiumCheck(n: NutritionFacts): Check {
    Check(n.sodium < 200, VeryLowSodium, n.sodium)
  }

  function PotassiumCheck(n: NutritionFacts): Check {
    Check(n.potassium >= 300, RichInPotassium, n.potassium)
  }

  /** The checklist of a condition, in the order the rules are applied; empty for a condition
      without a checklist. */
  function Checklist(n: NutritionFacts, condition: string): (cs: seq<Check>)
    ensures condition == Cardiovascular ==> |cs| == 4
    ensures condition == Diabetes || condition == Hypertension ==> |cs| == 3
    ensures condition !in Conditions ==> cs == []
  {
    if condition == Cardiovascular then CardiovascularChecks(n)
    else if condition == Diabetes then DiabetesChecks(n)
    else if condition == Hypertension then HypertensionChecks(n)
    else []
  }

  function CardiovascularChecks(n: NutritionFacts): seq<Check> {
    [SaturatedFatCheck(n), CardioSodiumCheck(n), FiberCheck(n), TransFatCheck(n)]
  }

  function DiabetesChecks(n: NutritionFacts): seq<Check> {
    [SugarsCheck(n), FiberCheck(n), CarbsCheck(n)]
  }

  function HypertensionChecks(n: NutritionFacts): seq<Check> {
    [VeryLowSodiumCheck(n), PotassiumCheck(n), SaturatedFatCheck(n)]
  }

  function PassOf(c: Check): seq<string> {
    if c.passed then [PassText(c.rule)] else []
  }

  function IssueOf(c: Check): seq<string> {
    if c.passed then [] else [IssueText(c.rule, c.amount)]
  }

  /** The pass messages of the rules that passed, in rule order. */
  function Passes(cs: seq<Check>): (ps: seq<string>)
    ensures |ps| <= |cs|
  {
    if cs == [] then [] else Passes(cs[..|cs| - 1]) + PassOf(cs[|cs| - 1])
  }

  /** The issue messages of the rules that failed, in rule order. */
  function Issues(cs: seq<Check>): (found: seq<string>)
    ensures |found| <= |cs|
  {
    if cs == [] then [] else Issues(cs[..|cs| - 1]) + IssueOf(cs[|cs| - 1])
  }

  /** `int(passes / total * 100)`, or 0 when nothing was checked. */
  function Percentage(passed: nat, total: nat): (p: int)
    ensures total == 0 ==> p == 0
    ensures total > 0 ==> p * total <= 100 * passed < (p + 1) * total
  {
    if total > 0 then 100 * passed / total else 0
  }

  /** What the checker reports for a product's nutrition record under a condition. */
  function ComplianceOf(nutrition: Option<NutritionFacts>, condition: string): (c: Compliance)
    ensures c.compliant <==> c.issues == []
    ensures nutrition.None? ==> !c.compliant && c.passes == []
  {
    match nutrition
    case None => Compliance(false, 0, [NoNutritionIssue], [])
    case Some(n) => Report(Checklist(n, condition))
  }

  /** The report on a checklist: compliant when nothing failed, scored by the share that passed. */
  function Report(cs: seq<Check>): Compliance {
    var issues := Issues(cs);
    var passes := Passes(cs);
    Compliance(|issues| == 0, Percentage(|passes|, |issues| + |passes|), issues, passes)
  }

  /** Records the outcome of one rule: its pass message on `passes` or its issue message on
      `issues`. */
  method Apply(c: Check, issues: seq<string>, passes: seq<string>)
    returns (issues': seq<string>, passes': seq<string>)
    ensures issues' == issues + IssueOf(c) && passes' == passes + PassOf(c)
  {
    if c.passed {
      issues', passes' := issues, passes + [PassText(c.rule)];
    } else {
      issues', passes' := issues + [IssueText(c.rule, c.amount)], passes;
    }
  }

  /** The messages of a checklist are those of its rules, one after another. */
  lemma MessagesOfThree(a: Check, b: Check, c: Check)
    ensures Issues([a, b, c]) == (([] + IssueOf(a)) + IssueOf(b)) + IssueOf(c)
    ensures Passes([a, b, c]) == (([] + PassOf(a)) + PassOf(b)) + PassOf(c)
  {
    assert [a, b, c][..2] == [a, b] && [a, b][..1] == [a] && [a][..0] == [];
    assert Issues([a]) == [] + IssueOf(a) && Passes([a]) == [] + PassOf(a);
    assert Issues([a, b]) == Issues([a]) + IssueOf(b) && Passes([a, b]) == Passes([a]) + PassOf(b);
  }

  lemma MessagesOfFour(a: Check, b: Check, c: Check, d: Check)
    ensures Issues([a, b, c, d]) == ((([] + IssueOf(a)) + IssueOf(b)) + IssueOf(c)) + IssueOf(d)
    ensures Passes([a, b, c, d]) == ((([] + PassOf(a)) + PassOf(b)) + PassOf(c)) + PassOf(d)
  {
    assert [a, b, c, d][..3] == [a, b, c];
    MessagesOfThree(a, b, c);
  }

  /** `check_compliance`: a product without nutrition facts is reported at once; otherwise the
      condition's rules run and the report is scored. */
  method CheckCompliance(product: Product, condition: string) returns (r: Compliance)
    ensures r == ComplianceOf(product.nutrition, condition)
  {
    if product.nutrition.None? {
      return Compliance(false, 0, [NoNutritionIssue], []);
    }
    var issues, passes := RunRules(product.nutrition.value, condition);
    var total := |issues| + |passes|;
    var score := if total > 0 then 100 * |passes| / total else 0;
    r := Compliance(|issues| == 0, score, issues, passes);
  }

  /** The rules of the condition run one after another, each appending to the pass or the issue
      list; a condition without rules appends nothing. */
  method RunRules(n: NutritionFacts, condition: string) returns (issues: seq<string>, passes: seq<string>)
    ensures issues == Issues(Checklist(n, condition)) && passes == Passes(Checklist(n, condition))
  {
    if condition == Cardiovascular {
      issues, passes := RunCardiovascular(n);
    } else if condition == Diabetes {
      issues, passes := RunDiabetes(n);
    } else if condition == Hypertension {
      issues, passes := RunHypertension(n);
    } else {
      issues, passes := [], [];
    }
  }

  method RunCardiovascular(n: NutritionFacts) returns (issues: seq<string>, passes: seq<string>)
    ensures issues == Issues(CardiovascularChecks(n)) && passes == Passes(CardiovascularChecks(n))
  {
    issues, passes := Apply(SaturatedFatCheck(n), [], []);
    issues, passes := Apply(CardioSodiumCheck(n), issues, passes);
    issues, passes := Apply(FiberCheck(n), issues, passes);
    issues, passes := Apply(TransFatCheck(n), issues, passes);
    MessagesOfFour(SaturatedFatCheck(n), CardioSodiumCheck(n), FiberCheck(n), TransFatCheck(n));
  }

  method RunDiabetes(n: NutritionFacts) returns (issues: seq<string>, passes: seq<string>)
    ensures issues == Issues(DiabetesChecks(n)) && passes == Passes(DiabetesChecks(n))
  {
    issues, passes := Apply(SugarsCheck(n), [], []);
    issues, passes := Apply(FiberCheck(n), issues, passes);
    issues, passes := Apply(CarbsCheck(n), issues, passes);
    MessagesOfThree(SugarsCheck(n), FiberCheck(n), CarbsCheck(n));
  }

  method RunHypertension(n: NutritionFacts) returns (issues: seq<string>, passes: seq<string>)
    ensures issues == Issues(HypertensionChecks(n)) && passes == Passes(HypertensionChecks(n))
  {
    issues, passes := Apply(VeryLowSodiumCheck(n), [], []);
    issues, passes := Apply(PotassiumCheck(n), issues, passes);
    issues, passes := Apply(SaturatedFatCheck(n), issues, passes);
    MessagesOfThree(VeryLowSodiumCheck(n), PotassiumCheck(n), SaturatedFatCheck(n));
  }

  predicate AllPassed(cs: seq<Check>) {
    forall i :: 0 <= i < |cs| ==> cs[i].passed
  }

  /** Every rule lands in exactly one of the two lists, and none of the issues arise when every
      rule passes. */
  lemma {:induction false} EachCheckLandsOnce(cs: seq<Check>)
    ensures |Passes(cs)| + |Issues(cs)| == |cs|
    ensures Issues(cs) == [] <==> AllPassed(cs)
    ensures |Passes(cs)| == |cs| <==> AllPassed(cs)
    decreases |cs|
  {
    if cs != [] {
      var init := cs[..|cs| - 1];
      EachCheckLandsOnce(init);
      assert AllPassed(cs) <==> AllPassed(init) && cs[|cs| - 1].passed;
    }
  }

  /** A product without nutrition facts is reported non-compliant, with a zero score, the single
      issue "No nutrition data available" and no passes. */
  lemma NoNutritionReport(condition: string)
    ensures var r := ComplianceOf(None, condition);
      !r.compliant && r.score == 0 && r.issues == ["No nutrition data available"] && r.passes == []
  {
  }

  /** With nutrition facts present: the product is compliant exactly when every rule passes; the
      score lies between 0 and 100, is 100 exactly when there is a rule and all pass, and is the
      truncated percentage of passed rules. */
  lemma ComplianceScore(n: NutritionFacts, condition: string)
    ensures var r := ComplianceOf(Some(n), condition);
      var cs := Checklist(n, condition);
      && (r.compliant <==> AllPassed(cs))
      && 0 <= r.score <= 100
      && (r.score == 100 <==> cs != [] && r.compliant)
      && r.score == Percentage(|r.passes|, |cs|)
      && |r.passes| + |r.issues| == |cs|
  {
    var cs := Checklist(n, condition);
    EachCheckLandsOnce(cs);
    PercentageBounds(|Passes(cs)|, |cs|);
  }

  /** A percentage of passed rules lies between 0 and 100 and is 100 only when all passed. */
  lemma PercentageBounds(passed: nat, total: nat)
    requires passed <= total
    ensures 0 <= Percentage(passed, total) <= 100
    ensures Percentage(passed, total) == 100 <==> total > 0 && passed == total
  {
    if total > 0 {
      if passed < total {
        QuotientBelow(100 * passed, total);
      } else {
        QuotientExact(total);
      }
    }
  }

  /** Fewer than all rules passing gives less than 100 percent. */
  lemma QuotientBelow(a: nat, total: nat)
    requires total > 0 && a <= 100 * total - 100
    ensures a / total < 100
  {
    var q, r := a / total, a % total;
    assert a == q * total + r;
    if q >= 100 {
      MulAtLeast(100, q, total);
      assert false;
    }
  }

  lemma QuotientExact(total: nat)
    requires total > 0
    ensures 100 * total / total == 100
  {
    var q, r := 100 * total / total, 100 * total % total;
    assert 100 * total == q * total + r && 0 <= r < total;
    if q > 100 {
      MulAtLeast(101, q, total);
      assert false;
    } else if q < 100 {
      MulAtLeast(q, 99, total);
      assert false;
    }
  }

  lemma MulAtLeast(x: int, y: int, z: nat)
    requires x <= y
    ensures x * z <= y * z
  {
  }

  /** A condition without a checklist runs no rule: the product is reported compliant with a
      zero score. */
  lemma UnknownConditionCompliant(n: NutritionFacts, condition: string)
    requires condition !in Conditions
    ensures ComplianceOf(Some(n), condition) == Compliance(true, 0, [], [])
  {
  }

  /** The cardiovascular rules: saturated fat under 2 g, sodium under 400 mg, fibre at least 3 g
      and no trans fat. */
  lemma CardiovascularRules(n: NutritionFacts)
    ensures ComplianceOf(Some(n), Cardiovascular).compliant <==>
      n.saturatedFatTenths < 20 && n.sodium < 400 && n.fiberTenths >= 30 && n.transFatTenths == 0
  {
    var cs := Checklist(n, Cardiovascular);
    EachCheckLandsOnce(cs);
    assert AllPassed(cs) <==> cs[0].passed && cs[1].passed && cs[2].passed && cs[3].passed;
  }

  /** The diabetes rules: sugars under 5 g, fibre at least 3 g, carbohydrates at most 45 g. */
  lemma DiabetesRules(n: NutritionFacts)
    ensures ComplianceOf(Some(n), Diabetes).compliant <==>
      n.sugarsTenths < 50 && n.fiberTenths >= 30 && n.totalCarbsTenths <= 450
  {
    var cs := Checklist(n, Diabetes);
    EachCheckLandsOnce(cs);
    assert AllPassed(cs) <==> cs[0].passed && cs[1].passed && cs[2].passed;
  }

  /** The hypertension rules: sodium under 200 mg, potassium at least 300 mg, saturated fat
      under 2 g. */
  lemma HypertensionRules(n: NutritionFacts)
    ensures ComplianceOf(Some(n), Hypertension).compliant <==>
      n.sodium < 200 && n.potassium >= 300 && n.saturatedFatTenths < 20
  {
    var cs := Checklist(n, Hypertension);
    EachCheckLandsOnce(cs);
    assert AllPassed(cs) <==> cs[0].passed && cs[1].passed && cs[2].passed;
  }

  /** The message of a failed saturated-fat rule quotes the amount with its one decimal place. */
  lemma SaturatedFatMessage(n: NutritionFacts)
    requires n.saturatedFatTenths == 25 && n.sodium < 200 && n.potassium >= 300
    ensures ComplianceOf(Some(n), Hypertension).issues == ["Saturated fat too high (" + "2.5" + "g, max 2g)"]
  {
    var cs := Checklist(n, Hypertension);
    assert cs[..2] == [cs[0], cs[1]] && cs[..2][..1] == [cs[0]] && [cs[0]][..0] == [];
    assert Issues(cs[..2]) == [];
    assert TenthsToString(25) == "2.5" by {
      assert Digits(2) == "2";
      assert DigitChar(5) == '5';
    }
    assert Issues(cs) == Issues(cs[..2]) + IssueOf(cs[2]);
    assert Report(cs).issues == Issues(cs);
  }

  // ---------------------------------------------------------------------------------------
  // Recommendation selection
  // ---------------------------------------------------------------------------------------

  /** A product paired with its recommendation score. */
  datatype Scored = Scored(product: Product, score: real)

  function ScoreKey(s: Scored): real {
    s.score
  }

  /** A product is a candidate unless it is the excluded one or has no nutrition facts. */
  predicate Qualifies(p: Product, excludeId: Option<int>) {
    excludeId != Some(p.id) && p.nutrition.Some?
  }

  /** The scored candidates, in the order of the input. */
  function Candidates(ps: seq<Product>, excludeId: Option<int>, condition: string, score: (Product, string) -> real): (cs: seq<Scored>)
    ensures |cs| <= |ps|
    ensures forall i :: 0 <= i < |cs| ==>
      Qualifies(cs[i].product, excludeId) && cs[i].score == score(cs[i].product, condition)
  {
    if ps == [] then []
    else
      var p := ps[|ps| - 1];
      Candidates(ps[..|ps| - 1], excludeId, condition, score)
        + (if Qualifies(p, excludeId) then [Scored(p, score(p, condition))] else [])
  }

  /** Python's `s[:limit]`: a negative limit drops that many elements from the end. */
  function Prefix<T>(s: seq<T>, limit: int): (r: seq<T>)
    ensures 0 <= limit ==> |r| == if limit < |s| then limit else |s|
    ensures limit < 0 ==> |r| == if |s| + limit > 0 then |s| + limit else 0
    ensures r == s[..|r|]
  {
    if limit >= 0 then s[..if limit < |s| then limit else |s|]
    else s[..if |s| + limit > 0 then |s| + limit else 0]
  }

  /** `get_recommendations`: the qualifying products are scored in input order, sorted by
      non-increasing score (stably) and cut at `limit`. */
  method GetRecommendations(condition: string, products: seq<Product>, score: (Product, string) -> real,
                            excludeId: Option<int> := None, limit: int := DefaultLimit)
    returns (result: seq<Scored>)
    ensures condition !in Conditions ==> result == []
    ensures condition in Conditions ==>
      result == Prefix(SortDesc(Candidates(products, excludeId, condition, score), ScoreKey), limit)
  {
    if condition !in Conditions {
      return [];
    }
    var scored: seq<Scored> := [];
    for i := 0 to |products|
      invariant scored == Candidates(products[..i], excludeId, condition, score)
    {
      var p := products[i];
      assert products[..i + 1][..i] == products[..i];
      if excludeId == Some(p.id) {
        continue;
      }
      if p.nutrition.None? {
        continue;
      }
      scored := scored + [Scored(p, score(p, condition))];
    }
    assert products[..|products|] == products;
    result := Prefix(SortDesc(scored, ScoreKey), limit);
  }

  /** The candidates are exactly the qualifying input products, each with its own score. */
  lemma {:induction false} CandidatesMembership(ps: seq<Product>, excludeId: Option<int>, condition: string,
                                                score: (Product, string) -> real)
    ensures forall s :: s in Candidates(ps, excludeId, condition, score) <==>
      s.product in ps && Qualifies(s.product, excludeId) && s.score == score(s.product, condition)
    decreases |ps|
  {
    if ps != [] {
      CandidatesMembership(ps[..|ps| - 1], excludeId, condition, score);
      assert ps == ps[..|ps| - 1] + [ps[|ps| - 1]];
      assert forall p :: p in ps <==> p in ps[..|ps| - 1] || p == ps[|ps| - 1];
    }
  }

  /** What a recommendation list is: no excluded product and no product without nutrition facts,
      only input products with their own scores, by non-increasing score, of length
      `min(limit, number of candidates)` for a non-negative limit, and no candidate left out
      scores above one that is kept. */
  lemma RecommendationsSelected(condition: string, products: seq<Product>, excludeId: Option<int>, limit: int,
                                score: (Product, string) -> real)
    ensures var cs := Candidates(products, excludeId, condition, score);
      var result := Prefix(SortDesc(cs, ScoreKey), limit);
      && (forall s :: s in result ==>
            s.product in products && Qualifies(s.product, excludeId) && s.score == score(s.product, condition))
      && SortedDesc(result, ScoreKey)
      && (0 <= limit ==> |result| == if limit < |cs| then limit else |cs|)
      && (forall s, t :: s in result && t in cs && t !in result ==> t.score <= s.score)
  {
    var cs := Candidates(products, excludeId, condition, score);
    var sorted := SortDesc(cs, ScoreKey);
    var result := Prefix(sorted, limit);
    CandidatesMembership(products, excludeId, condition, score);
    SortDescSorted(cs, ScoreKey);
    SortedPrefix(sorted, ScoreKey, |result|);
    assert sorted[..|result|] == result;
    forall s, t | s in result && t in cs && t !in result
      ensures t.score <= s.score
    {
      assert t in multiset(cs);
      assert t in multiset(sorted);
      var j :| 0 <= j < |sorted| && sorted[j] == t;
      var i :| 0 <= i < |result| && result[i] == s;
      assert |result| <= j;
    }
    forall s | s in result
      ensures s in cs
    {
      assert s in sorted;
      assert s in multiset(sorted);
    }
  }

  /** Equal scores keep the input order: for every score value, the recommended products with
      that score are the first qualifying products with that score, in input order. */
  lemma RecommendationsStable(condition: string, products: seq<Product>, excludeId: Option<int>, limit: int,
                              score: (Product, string) -> real, v: real)
    ensures var cs := Candidates(products, excludeId, condition, score);
      var result := Prefix(SortDesc(cs, ScoreKey), limit);
      var ranked := WithKey(result, ScoreKey, v);
      ranked <= WithKey(cs, ScoreKey, v)
  {
    var cs := Candidates(products, excludeId, condition, score);
    var sorted := SortDesc(cs, ScoreKey);
    var result := Prefix(sorted, limit);
    SortDescStable(cs, ScoreKey, v);
    WithKeyOfPrefix(sorted, |result|, ScoreKey, v);
    assert sorted[..|result|] == result;
  }
  function RatingOf(s: Scored): real {
    s.product.ratingTenths as real
  }

  /** Products ordered by non-increasing rating. */
  predicate ByRating(ps: seq<Product>) {
    forall i, j :: 0 <= i < j < |ps| ==> ps[i].ratingTenths >= ps[j].ratingTenths
  }

  /** The candidates keep the order of the input, so they keep its rating order. */
  lemma {:induction false} CandidatesKeepRatingOrder(ps: seq<Product>, excludeId: Option<int>, condition: string,
                                                     score: (Product, string) -> real)
    requires ByRating(ps)
    ensures SortedDesc(Candidates(ps, excludeId, condition, score), RatingOf)
    decreases |ps|
  {
    if ps != [] {
      var init := ps[..|ps| - 1];
      var last := ps[|ps| - 1];
      assert ByRating(init);
      CandidatesKeepRatingOrder(init, excludeId, condition, score);
      CandidatesMembership(init, excludeId, condition, score);
      var cs := Candidates(init, excludeId, condition, score);
      forall i | 0 <= i < |cs|
        ensures RatingOf(cs[i]) >= last.ratingTenths as real
      {
        assert cs[i] in cs;
        var k :| 0 <= k < |init| && init[k] == cs[i].product;
      }
    }
  }

  /** The products come from a query without `order_by`, so the product table's default ordering
      (by non-increasing rating) applies. Given that order, recommendations with equal score come
      out by non-increasing rating. */
  lemma RecommendationsTieBreakByRating(condition: string, products: seq<Product>, excludeId: Option<int>,
                                        limit: int, score: (Product, string) -> real)
    requires ByRating(products)
    ensures var result := Prefix(SortDesc(Candidates(products, excludeId, condition, score), ScoreKey), limit);
      forall i, j :: 0 <= i < j < |result| && result[i].score == result[j].score ==>
        result[i].product.ratingTenths >= result[j].product.ratingTenths
  {
    var cs := Candidates(products, excludeId, condition, score);
    var sorted := SortDesc(cs, ScoreKey);
    var result := Prefix(sorted, limit);
    CandidatesKeepRatingOrder(products, excludeId, condition, score);
    SortDescBreaksTies(cs, ScoreKey, RatingOf);
    assert forall i, j ::
      0 <= i < j < |SortDesc(cs, ScoreKey)| && ScoreKey(SortDesc(cs, ScoreKey)[i]) == ScoreKey(SortDesc(cs, ScoreKey)[j])
      ==> RatingOf(SortDesc(cs, ScoreKey)[i]) >= RatingOf(SortDesc(cs, ScoreKey)[j]);
    forall i, j | 0 <= i < j < |result| && result[i].score == result[j].score
      ensures result[i].product.ratingTenths >= result[j].product.ratingTenths
    {
      assert j < |sorted| && result[i] == sorted[i] && result[j] == sorted[j];
    }
  }
}
