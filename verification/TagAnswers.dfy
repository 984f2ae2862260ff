/**
 * From the raw answer of the model to the written row, in the numbers and codes of that answer: what is accepted, what
 * each threshold means, and what each cell holds (scripts/enrich_recipe_tags_nutrition_qwen.py).
 */
module TagAnswers {
  import opened Options
  import opened Sequences
  import opened Languages
  import opened TagMetadata
  import opened TagDisplay

  // ---- the first codes of a list ----

  /** `c` is read before `d` is seen at all. */
  predicate ReadBefore<T(==)>(raw: seq<Option<T>>, c: T, d: T) {
    exists i :: 0 <= i < |raw| && raw[i] == Some(c) && Some(d) !in raw[..i]
  }

  /** The first `n` different codes of the list, in the order in which they are first read. */
  ghost predicate FirstCodes<T(!new)>(raw: seq<Option<T>>, n: nat, codes: seq<T>) {
    && |codes| <= n && Distinct(codes) && (forall c :: c in codes ==> Some(c) in raw)
    && (forall i, j :: 0 <= i < j < |codes| ==> ReadBefore(raw, codes[i], codes[j]))
    && (forall d :: Some(d) in raw && d !in codes ==> |codes| == n && forall c :: c in codes ==> ReadBefore(raw, c, d))
  }

  lemma StillReadBefore<T>(raw: seq<Option<T>>, last: Option<T>, c: T, d: T)
    requires ReadBefore(raw, c, d)
    ensures ReadBefore(raw + [last], c, d)
  {
    var i :| 0 <= i < |raw| && raw[i] == Some(c) && Some(d) !in raw[..i];
    assert (raw + [last])[i] == Some(c) && (raw + [last])[..i] == raw[..i];
  }

  lemma ReadBeforeNew<T>(raw: seq<Option<T>>, c: T, d: T)
    requires Some(c) in raw && Some(d) !in raw
    ensures ReadBefore(raw + [Some(d)], c, d)
  {
    var i :| 0 <= i < |raw| && raw[i] == Some(c);
    assert (raw + [Some(d)])[i] == Some(c) && (raw + [Some(d)])[..i] == raw[..i];
  }

  lemma {:induction false} RecognisedInOrder<T(!new)>(raw: seq<Option<T>>, i: nat, j: nat)
    requires i < j < |Recognised(raw)|
    ensures ReadBefore(raw, Recognised(raw)[i], Recognised(raw)[j])
  {
    var init, last := raw[..|raw| - 1], raw[|raw| - 1];
    var before := Recognised(init);
    assert raw == init + [last];
    if j < |before| {
      RecognisedInOrder(init, i, j);
      StillReadBefore(init, last, before[i], before[j]);
    } else {
      assert Recognised(raw)[i] == before[i] && before[i] in before;
      ReadBeforeNew(init, before[i], last.value);
    }
  }

  lemma TakenAreFirst<T(!new)>(raw: seq<Option<T>>, n: nat)
    ensures FirstCodes(raw, n, Take(Recognised(raw), n))
  {
    var all, codes := Recognised(raw), Take(Recognised(raw), n);
    forall c | c in codes ensures c in all {
    }
    forall i, j | 0 <= i < j < |codes| ensures ReadBefore(raw, codes[i], codes[j]) {
      RecognisedInOrder(raw, i, j);
    }
    forall d, c | Some(d) in raw && d !in codes && c in codes ensures ReadBefore(raw, c, d) {
      var j :| 0 <= j < |all| && all[j] == d;
      var i :| 0 <= i < |codes| && codes[i] == c;
      assert forall k :: 0 <= k < |codes| ==> codes[k] == all[k] != d;
      assert all[i] == c && i < |codes| <= j;
      RecognisedInOrder(raw, i, j);
    }
    forall d | Some(d) in raw && d !in codes ensures |codes| == n {
      assert d in all;
    }
  }

  // ---- what is accepted ----

  predicate InRange(value: Option<int>, high: int) {
    value.Some? && 0 <= value.value <= high
  }

  ghost predicate HasCode<T(!new)>(raw: seq<Option<T>>) {
    exists c :: c in raw && c.Some?
  }

  lemma NoCodeIff<T(!new)>(raw: seq<Option<T>>, n: nat)
    requires n > 0
    ensures Take(Recognised(raw), n) == [] <==> !HasCode(raw)
  {
    if Recognised(raw) != [] {
      assert Recognised(raw)[0] in Recognised(raw);
    }
    if c :| c in raw && c.Some? {
      assert c.value in Recognised(raw);
    }
  }

  /** An answer is accepted exactly if it is about this recipe, names each required dimension and each nutrient fits. */
  lemma AcceptedIff(raw: RawItem)
    ensures ValidateModelItem(raw).Some? <==>
              && raw.uidMatches
              && HasCode(raw.flavor) && HasCode(raw.cooking) && HasCode(raw.ingredient) && HasCode(raw.meal)
              && InRange(raw.calorie, 9000) && InRange(raw.protein, 1000) && InRange(raw.fat, 1000)
              && InRange(raw.carbs, 1000) && InRange(raw.fiber, 1000)
  {
    NoCodeIff(raw.flavor, 2);
    NoCodeIff(raw.cooking, 2);
    NoCodeIff(raw.ingredient, 2);
    NoCodeIff(raw.meal, 1);
  }

  /** Each nutrient of the answer, under its own name. */
  predicate Carries(e: Estimate, raw: RawItem) {
    && raw.calorie == Some(e.calorie) && raw.protein == Some(e.protein) && raw.fat == Some(e.fat)
    && raw.carbs == Some(e.carbs) && raw.fiber == Some(e.fiber)
  }

  lemma NutrientsCarry(raw: RawItem)
    requires ValidateModelItem(raw).Some?
    ensures Carries(ValidateModelItem(raw).value.estimate, raw)
  {
  }

  /** An accepted answer holds each nutrient as given and, in each dimension, the first codes of its own list. */
  lemma AcceptedCarries(raw: RawItem)
    requires ValidateModelItem(raw).Some?
    ensures var m := ValidateModelItem(raw).value;
      && Carries(m.estimate, raw) && m.cuisine == (if raw.cuisine.Some? then [raw.cuisine.value] else [])
      && FirstCodes(raw.flavor, 2, m.flavor) && FirstCodes(raw.cooking, 2, m.cooking)
      && FirstCodes(raw.ingredient, 2, m.ingredient) && FirstCodes(raw.meal, 1, m.meal)
      && FirstCodes(raw.scene, 2, m.scene) && FirstCodes(raw.diet, 2, m.diet)
  {
    TakenAreFirst(raw.flavor, 2);
    TakenAreFirst(raw.cooking, 2);
    TakenAreFirst(raw.ingredient, 2);
    TakenAreFirst(raw.meal, 1);
    TakenAreFirst(raw.scene, 2);
    TakenAreFirst(raw.diet, 2);
  }

  // ---- what is derived, in the numbers of the answer ----

  /** Cuisine, flavor, method, ingredient, meal and nutrients are taken over, the difficulty comes from the record. */
  lemma DerivedTakesOver(source: Source, m: ModelData)
    ensures var r := Derive(source, m);
      && !r.device && r.cuisine == m.cuisine && r.flavor == m.flavor && r.cooking == m.cooking
      && r.ingredient == m.ingredient && r.meal == m.meal && r.estimate == Some(m.estimate)
      && r.difficulty == source.difficulty
  {
  }

  predicate IsFried(cooking: seq<Method>) {
    DeepFried in cooking || Fried in cooking
  }

  // nutrients are in tenths: 100 stands for 10 g, 1200 for 120 kcal

  /** At least 10 g of protein, or a fifth of the energy from protein, of which a gram has 4 kcal. */
  predicate RichInProtein(protein: int, calorie: int) {
    protein >= 100 || (calorie > 0 && 4.0 * (protein as real) / (calorie as real) >= 0.2)
  }

  lemma RichIsRule(e: Estimate)
    ensures RichInProtein(e.protein, e.calorie) <==> HighProteinRule(e)
  {
    if e.calorie > 0 { ShareOfProtein(e.protein, e.calorie); }
  }

  predicate AtMost(value: Option<int>, n: int) {
    value.Some? && value.value <= n
  }

  /** The threshold of each code, in the numbers of the raw answer. */
  predicate Reaches(raw: RawItem, cooking: seq<Method>, c: Nutrition) {
    match c
    case HighProtein => raw.protein.Some? && raw.calorie.Some? && RichInProtein(raw.protein.value, raw.calorie.value)
    case LowFat => AtMost(raw.fat, 30) && !IsFried(cooking)
    case LowCalorie => AtMost(raw.calorie, 1200)
    case HighFiber => raw.fiber.Some? && raw.fiber.value >= 30
    case LowCarb => AtMost(raw.carbs, 100)
  }

  lemma ReachesIsRule(raw: RawItem, e: Estimate, cooking: seq<Method>, c: Nutrition)
    requires Carries(e, raw)
    ensures Reaches(raw, cooking, c) <==> NutritionRule(c, e, cooking)
  {
    RichIsRule(e);
  }

  /** A recipe has each code exactly if the raw answer reaches its threshold: no nutrient is taken for another. */
  lemma NutritionByNumbers(source: Source, raw: RawItem, m: ModelData, c: Nutrition)
    requires ValidateModelItem(raw) == Some(m)
    ensures c in Derive(source, m).nutrition <==> Reaches(raw, m.cooking, c)
  {
    NutrientsCarry(raw);
    ReachesIsRule(raw, m.estimate, m.cooking, c);
    NutritionIsExact(source, m, c);
  }

  lemma ShareOfProtein(protein: int, calorie: int)
    requires calorie > 0
    ensures 4.0 * (protein as real) / (calorie as real) >= 0.2 <==> 20 * protein >= calorie
  {
    var share := 4.0 * (protein as real) / (calorie as real);
    assert share * (calorie as real) == 4.0 * (protein as real);
    if share >= 0.2 {
      assert share * (calorie as real) >= 0.2 * (calorie as real);
    } else {
      assert share * (calorie as real) < 0.2 * (calorie as real);
    }
  }

  function NutritionRank(c: Nutrition): nat {
    match c
    case HighProtein => 0
    case LowFat => 1
    case LowCalorie => 2
    case HighFiber => 3
    case LowCarb => 4
  }

  predicate Ranked(codes: seq<Nutrition>, n: nat) {
    && (forall k :: 0 <= k < |codes| ==> NutritionRank(codes[k]) < n)
    && forall j, k :: 0 <= j < k < |codes| ==> NutritionRank(codes[j]) < NutritionRank(codes[k])
  }

  lemma PushRanked(codes: seq<Nutrition>, condition: bool, c: Nutrition)
    requires Ranked(codes, NutritionRank(c))
    ensures Ranked(Push(codes, condition, c), NutritionRank(c) + 1)
  {
  }

  lemma FivePushes(protein: bool, fat: bool, calorie: bool, fiber: bool, carbs: bool)
    ensures Ranked(Push(Push(Push(Push(Push([], protein, HighProtein), fat, LowFat), calorie, LowCalorie),
                             fiber, HighFiber), carbs, LowCarb), 5)
  {
    var s1 := Push([], protein, HighProtein);
    var s2 := Push(s1, fat, LowFat);
    var s3 := Push(s2, calorie, LowCalorie);
    PushRanked([], protein, HighProtein);
    PushRanked(s1, fat, LowFat);
    PushRanked(s2, calorie, LowCalorie);
    PushRanked(s3, fiber, HighFiber);
    PushRanked(Push(s3, fiber, HighFiber), carbs, LowCarb);
  }

  /** The codes come in this order, each at most once. */
  lemma NutritionInOrder(source: Source, m: ModelData)
    ensures Ranked(Derive(source, m).nutrition, 5)
  {
    var e, cooking := m.estimate, m.cooking;
    FivePushes(NutritionRule(HighProtein, e, cooking), NutritionRule(LowFat, e, cooking),
               NutritionRule(LowCalorie, e, cooking), NutritionRule(HighFiber, e, cooking),
               NutritionRule(LowCarb, e, cooking));
  }

  /** Two scenes follow from the numbers alone. */
  lemma QuickAndFatLoss(source: Source, m: ModelData)
    requires |m.scene| <= 2
    ensures var scenes := Derive(source, m).scene;
      && (Quick in scenes <==> source.minutes.Some? && source.minutes.value <= 20.0 && source.steps <= 6)
      && (FatLoss in scenes <==>
            m.estimate.calorie <= 1200
            && ((m.estimate.fat <= 30 && !IsFried(m.cooking)) || HighProteinRule(m.estimate) || m.estimate.fiber >= 30))
  {
    KeptScenesAreExact(source, m, Quick);
    KeptScenesAreExact(source, m, FatLoss);
  }

  /** So does fitness, if there is a place left. */
  lemma FitnessByNumbers(source: Source, m: ModelData)
    requires |m.scene| <= 2
    ensures var scenes := Derive(source, m).scene;
            var sugary := Sweet in m.flavor && m.estimate.carbs > 200;
            var fit := HighProteinRule(m.estimate) && !IsFried(m.cooking) && !sugary;
      && (Fitness in scenes ==> fit) && (fit ==> Fitness in scenes || |scenes| == 4)
  {
    KeptScenesAreExact(source, m, Fitness);
  }

  /** A safety scene stands only if given and safe. */
  lemma SafetyScenes(source: Source, m: ModelData)
    requires |m.scene| <= 2
    ensures var scenes := Derive(source, m).scene;
            var spicy := Spicy in m.flavor || NumbingSpicy in m.flavor || SourSpicy in m.flavor;
      && (ChildFriendly in scenes <==> ChildFriendly in m.scene && !spicy && !source.unsafeForChildren)
      && (ElderlyFriendly in scenes <==>
            && ElderlyFriendly in m.scene && !spicy
            && (Steamed in m.cooking || Stewed in m.cooking || Boiled in m.cooking || Simmered in m.cooking
                || Braised in m.cooking))
  {
    KeptScenesAreExact(source, m, ChildFriendly);
    KeptScenesAreExact(source, m, ElderlyFriendly);
  }

  /** The other scenes an answer gives are kept, whatever the numbers. */
  lemma OtherScenesStay(source: Source, m: ModelData, c: Scene)
    requires |m.scene| <= 2 && c !in {Quick, FatLoss, Fitness, ChildFriendly, ElderlyFriendly}
    ensures c in Derive(source, m).scene <==> c in m.scene
  {
    KeptScenesAreExact(source, m, c);
  }

  function SceneRank(c: Scene): nat {
    match c
    case Quick => 1
    case FatLoss => 2
    case Fitness => 3
    case _ => 0
  }

  predicate RankedScenes(scenes: seq<Scene>, n: nat) {
    && (forall k :: 0 <= k < |scenes| ==> SceneRank(scenes[k]) < n)
    && forall j, k :: 0 <= j < k < |scenes| ==> SceneRank(scenes[j]) <= SceneRank(scenes[k])
  }

  lemma PushRankedScene(scenes: seq<Scene>, condition: bool, c: Scene)
    requires RankedScenes(scenes, SceneRank(c))
    ensures RankedScenes(Push(scenes, condition, c), SceneRank(c) + 1)
  {
  }

  lemma ThreePushes(given: seq<Scene>, quick: bool, fatLoss: bool, fitness: bool)
    requires forall c :: c in given ==> SceneRank(c) == 0
    ensures RankedScenes(Push(Push(Push(given, quick, Quick), fatLoss, FatLoss), fitness, Fitness), 4)
  {
    forall k | 0 <= k < |given| ensures SceneRank(given[k]) == 0 {
      assert given[k] in given;
    }
    PushRankedScene(given, quick, Quick);
    PushRankedScene(Push(given, quick, Quick), fatLoss, FatLoss);
    PushRankedScene(Push(Push(given, quick, Quick), fatLoss, FatLoss), fitness, Fitness);
  }

  lemma TakeRankedScenes(scenes: seq<Scene>, n: nat)
    requires RankedScenes(scenes, 4)
    ensures RankedScenes(Take(scenes, n), 4)
  {
  }

  /** The given scenes come first, then quick, fat-loss and fitness. */
  lemma ScenesInOrder(source: Source, m: ModelData)
    ensures RankedScenes(Derive(source, m).scene, 4)
  {
    ThreePushes(GivenScenes(m, source), SceneRule(Quick, m, source), SceneRule(FatLoss, m, source),
                SceneRule(Fitness, m, source));
    TakeRankedScenes(AllScenes(m, source), 4);
  }

  /** What a filter keeps stands in the order of the list. */
  lemma {:induction false} FilterInOrder<T(!new)>(s: seq<T>, keep: T -> bool) returns (at: seq<nat>)
    ensures |at| == |Filter(s, keep)|
    ensures forall k :: 0 <= k < |at| ==> at[k] < |s| && Filter(s, keep)[k] == s[at[k]]
    ensures forall j, k :: 0 <= j < k < |at| ==> at[j] < at[k]
  {
    if s == [] {
      at := [];
    } else {
      var n := |s| - 1;
      at := FilterInOrder(s[..n], keep);
      if keep(s[n]) { at := at + [n]; }
    }
  }

  /** Nothing with meat or fish is vegetarian, nothing from an animal vegan; gluten-free only if the text says so. */
  lemma DietsByText(source: Source, m: ModelData)
    requires Distinct(m.diet)
    ensures var diets := Derive(source, m).diet;
      && (Vegan in diets <==> Vegan in m.diet && !source.animalFlesh && !source.animalProduct)
      && (Vegetarian in diets <==> Vegetarian in m.diet && !source.animalFlesh && Vegan !in diets)
      && (GlutenFree in diets <==> GlutenFree in m.diet && source.saysGlutenFree)
  {
    DietsAreExact(source, m, Vegan);
    DietsAreExact(source, m, Vegetarian);
    DietsAreExact(source, m, GlutenFree);
  }

  // ---- what is written ----

  /** The row of a derived recipe spells the nutrients of the raw answer, each under its own name. */
  lemma NutrientsAreWritten(raw: RawItem, source: Source, d: Difficulty, lang: Lang, words: Labels)
    requires ValidateModelItem(raw).Some?
    requires WriteRow(Derive(source, ValidateModelItem(raw).value).(difficulty := d), lang, words).Some?
    ensures var m := Derive(source, ValidateModelItem(raw).value).(difficulty := d);
            var row := WriteRow(m, lang, words).value;
      && row.lang == lang && row.canonical == Some(m) && row.difficulty == words(DifficultyTag(d), lang)
      && row.nutrition.Some? && row.nutrition.value.basis == "per_100g_estimated"
      && row.nutrition.value.values == map[CalorieKcal := raw.calorie.value, ProteinG := raw.protein.value,
                                           FatG := raw.fat.value, CarbohydrateG := raw.carbs.value,
                                           FiberG := raw.fiber.value]
  {
    NutrientsCarry(raw);
  }

  /** A device program is written without nutrients. */
  lemma DeviceHasNoNutrients(m: Metadata, lang: Lang, words: Labels)
    requires m.estimate.None? && WriteRow(m, lang, words).Some?
    ensures WriteRow(m, lang, words).value.nutrition == Some(NutritionCell("not_applicable", map[]))
  {
  }
}
