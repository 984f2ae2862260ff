/**
 * Tags and nutrition of a recipe (scripts/enrich_recipe_tags_nutrition_qwen.py): accepting the answer of
 * the model and deriving the final metadata. Nutrients are integers in tenths, as the script
 * rounds them; what a keyword search in the recipe text finds is an input.
 */
module TagMetadata {
  import opened Options
  import opened Sequences

  datatype Cuisine =
    | Hunan | Sichuan | Cantonese | Shandong | Jiangsu | Zhejiang | Fujian | Anhui | NortheasternChinese
    | NorthwesternChinese | HomeStyle | Western | Japanese | Korean | Thai | Vietnamese | Italian | French
    | Mediterranean | Mexican | Indian | MiddleEastern | Moroccan | American
  datatype Flavor =
    | Spicy | NumbingSpicy | Savory | Light | Sweet | SweetSour | SourSpicy | Sour | Salty | Umami | Aromatic | Creamy
  datatype Method =
    | StirFried | DeepFried | Fried | Steamed | Stewed | Braised | Boiled | Simmered | Roasted | Baked | Grilled
    | ColdTossed | Blended | Juiced | Pickled | Whipping | Fermenting | Pureeing | Stirring | SousVide | Reheating
    | Warming | Peeling | Slicing | Grinding | Kneading | Cleaning
  datatype Ingredient =
    | Beef | Chicken | Pork | Lamb | Duck | Fish | Shrimp | Seafood | Egg | Tofu | Vegetable | Mushroom | Potato
    | Rice | Noodle | Dairy | Fruit | Grain | Legume | NutsSeeds | HerbSpice | Water | PreparedFood | PreparedIngredient
  datatype Meal =
    | Breakfast | MainCourse | Soup | Dessert | Beverage | Snack | Staple | SideDish | Sauce | KitchenProgram
  datatype Nutrition = HighProtein | LowFat | LowCalorie | HighFiber | LowCarb
  datatype Scene =
    | Quick | RiceCompanion | FatLoss | Fitness | ChildFriendly | ElderlyFriendly | Banquet | Bento
    | FoodPreparation | DeviceMaintenance
  datatype Diet = Vegetarian | Vegan | GlutenFree
  datatype Difficulty = Easy | Moderate | Advanced

  /** Per 100 g, in tenths. */
  datatype Estimate = Estimate(calorie: int, protein: int, fat: int, carbs: int, fiber: int)

  /** Canonical metadata; `estimate` is `None` for a device program, whose nutrition is not applicable. */
  datatype Metadata = Metadata(
    device: bool, cuisine: seq<Cuisine>, flavor: seq<Flavor>, cooking: seq<Method>, ingredient: seq<Ingredient>,
    meal: seq<Meal>, nutrition: seq<Nutrition>, scene: seq<Scene>, diet: seq<Diet>, difficulty: Difficulty,
    estimate: Option<Estimate>)

  // ---- reading the answer of the model ----

  /** The recognised codes of a raw list, each once, in order of first appearance. */
  function Recognised<T(==,!new)>(raw: seq<Option<T>>): (r: seq<T>)
    ensures Distinct(r)
    ensures forall c :: c in r <==> Some(c) in raw
  {
    if raw == [] then []
    else
      var before := Recognised(raw[..|raw| - 1]);
      var last := raw[|raw| - 1];
      assert raw == raw[..|raw| - 1] + [last];
      if last.Some? && last.value !in before then before + [last.value] else before
  }

  /**
   * `codes`: an entry is `None` when it is no code of the dimension. The loop stops once it has enough,
   * which gives the first `maxCount` recognised codes.
   */
  method Codes<T(==,!new)>(raw: seq<Option<T>>, maxCount: nat) returns (result: seq<T>)
    requires maxCount >= 1
    ensures result == Take(Recognised(raw), maxCount)
  {
    result := [];
    for n := 0 to |raw|
      invariant result == Recognised(raw[..n]) && |result| < maxCount
    {
      RecognisedNext(raw, n);
      if raw[n].Some? && raw[n].value !in result {
        result := result + [raw[n].value];
      }
      if |result| >= maxCount {
        RecognisedGrows(raw, n + 1);
        TakeOfPrefix(result, Recognised(raw));
        return;
      }
    }
    assert raw[..|raw|] == raw;
  }

  lemma TakeOfPrefix<T>(a: seq<T>, b: seq<T>)
    requires a <= b
    ensures Take(b, |a|) == a
  {
  }

  lemma RecognisedNext<T(!new)>(raw: seq<Option<T>>, n: nat)
    requires n < |raw|
    ensures var before := Recognised(raw[..n]);
            Recognised(raw[..n + 1]) ==
            if raw[n].Some? && raw[n].value !in before then before + [raw[n].value] else before
  {
    assert raw[..n + 1][..n] == raw[..n];
  }

  lemma {:induction false} RecognisedGrows<T(!new)>(raw: seq<Option<T>>, n: nat)
    requires n <= |raw|
    ensures Recognised(raw[..n]) <= Recognised(raw)
    decreases |raw|
  {
    if n == |raw| {
      assert raw[..n] == raw;
    } else {
      var init := raw[..|raw| - 1];
      assert init[..n] == raw[..n];
      RecognisedGrows(init, n);
    }
  }

  /** A nutrient after `float` and rounding, in tenths; `None` when it is no number. */
  function SafeTenths(value: Option<int>, high: int): Option<int> {
    if value.Some? && 0 <= value.value <= high then value else None
  }

  datatype RawItem = RawItem(
    uidMatches: bool, cuisine: Option<Cuisine>, flavor: seq<Option<Flavor>>, cooking: seq<Option<Method>>,
    ingredient: seq<Option<Ingredient>>, meal: seq<Option<Meal>>, scene: seq<Option<Scene>>, diet: seq<Option<Diet>>,
    calorie: Option<int>, protein: Option<int>, fat: Option<int>, carbs: Option<int>, fiber: Option<int>)

  /** An accepted answer, before derivation. */
  datatype ModelData = ModelData(
    cuisine: seq<Cuisine>, flavor: seq<Flavor>, cooking: seq<Method>, ingredient: seq<Ingredient>, meal: seq<Meal>,
    scene: seq<Scene>, diet: seq<Diet>, estimate: Estimate)

  function ValidateModelItem(raw: RawItem): Option<ModelData> {
    var flavor, cooking := Take(Recognised(raw.flavor), 2), Take(Recognised(raw.cooking), 2);
    var ingredient, meal := Take(Recognised(raw.ingredient), 2), Take(Recognised(raw.meal), 1);
    var calorie := SafeTenths(raw.calorie, 9000);
    var protein, fat := SafeTenths(raw.protein, 1000), SafeTenths(raw.fat, 1000);
    var carbs, fiber := SafeTenths(raw.carbs, 1000), SafeTenths(raw.fiber, 1000);
    if !raw.uidMatches || flavor == [] || cooking == [] || ingredient == [] || meal == [] then None
    else if calorie.None? || protein.None? || fat.None? || carbs.None? || fiber.None? then None
    else
      Some(ModelData(
        if raw.cuisine.Some? then [raw.cuisine.value] else [], flavor, cooking, ingredient, meal,
        Take(Recognised(raw.scene), 2), Take(Recognised(raw.diet), 2),
        Estimate(calorie.value, protein.value, fat.value, carbs.value, fiber.value)))
  }

  method ValidateItem(raw: RawItem) returns (r: Option<ModelData>)
    ensures r == ValidateModelItem(raw)
  {
    if !raw.uidMatches { return None; }
    var cuisine := if raw.cuisine.Some? then [raw.cuisine.value] else [];
    var flavor := Codes(raw.flavor, 2);
    var cooking := Codes(raw.cooking, 2);
    var ingredient := Codes(raw.ingredient, 2);
    var meal := Codes(raw.meal, 1);
    var scene := Codes(raw.scene, 2);
    var diet := Codes(raw.diet, 2);
    if |flavor| < 1 || |cooking| < 1 || |ingredient| < 1 || |meal| < 1 { return None; }
    var calorie := SafeTenths(raw.calorie, 9000);
    var protein, fat := SafeTenths(raw.protein, 1000), SafeTenths(raw.fat, 1000);
    var carbs, fiber := SafeTenths(raw.carbs, 1000), SafeTenths(raw.fiber, 1000);
    if calorie.None? || protein.None? || fat.None? || carbs.None? || fiber.None? { return None; }
    return Some(ModelData(cuisine, flavor, cooking, ingredient, meal, scene, diet,
                          Estimate(calorie.value, protein.value, fat.value, carbs.value, fiber.value)));
  }

  /** What an accepted answer guarantees. */
  predicate Accepted(m: ModelData) {
    && |m.cuisine| <= 1 && 1 <= |m.flavor| <= 2 && 1 <= |m.cooking| <= 2 && 1 <= |m.ingredient| <= 2 && |m.meal| == 1
    && |m.scene| <= 2 && |m.diet| <= 2
    && Distinct(m.flavor) && Distinct(m.cooking) && Distinct(m.ingredient) && Distinct(m.scene) && Distinct(m.diet)
    && 0 <= m.estimate.calorie <= 9000 && 0 <= m.estimate.protein <= 1000 && 0 <= m.estimate.fat <= 1000
    && 0 <= m.estimate.carbs <= 1000 && 0 <= m.estimate.fiber <= 1000
  }

  lemma AcceptedItems(raw: RawItem)
    ensures var r := ValidateModelItem(raw); r.Some? ==> Accepted(r.value)
  {
  }

  // ---- deriving ----

  /** What the script finds in name, ingredients, seasonings and steps, and the two numbers it reads. */
  datatype Source = Source(
    animalFlesh: bool, animalProduct: bool, saysGlutenFree: bool, unsafeForChildren: bool,
    minutes: Option<real>, steps: nat, difficulty: Difficulty)

  function Filter<T(!new)>(s: seq<T>, keep: T -> bool): (r: seq<T>)
    ensures forall c :: c in r <==> c in s && keep(c)
    ensures |r| <= |s|
  {
    if s == [] then []
    else
      var before := Filter(s[..|s| - 1], keep);
      assert s == s[..|s| - 1] + [s[|s| - 1]];
      if keep(s[|s| - 1]) then before + [s[|s| - 1]] else before
  }

  predicate UsesFrying(cooking: seq<Method>) {
    DeepFried in cooking || Fried in cooking
  }

  predicate Hot(flavor: seq<Flavor>) {
    Spicy in flavor || NumbingSpicy in flavor || SourSpicy in flavor
  }

  predicate Soft(cooking: seq<Method>) {
    Steamed in cooking || Stewed in cooking || Boiled in cooking || Simmered in cooking || Braised in cooking
  }

  predicate HighProteinRule(e: Estimate) {
    e.protein >= 100 || (e.calorie > 0 && 20 * e.protein >= e.calorie)
  }

  /** The rule behind each nutrition code. */
  predicate NutritionRule(c: Nutrition, e: Estimate, cooking: seq<Method>) {
    match c
    case HighProtein => HighProteinRule(e)
    case LowFat => e.fat <= 30 && !UsesFrying(cooking)
    case LowCalorie => e.calorie <= 1200
    case HighFiber => e.fiber >= 30
    case LowCarb => e.carbs <= 100
  }

  /** `s`, with `c` appended if the condition holds. */
  function Push<T(!new)>(s: seq<T>, condition: bool, c: T): (r: seq<T>)
    ensures forall x :: x in r <==> x in s || (condition && x == c)
    ensures |r| == |s| + if condition then 1 else 0
  {
    if condition then s + [c] else s
  }

  function NutritionCodes(e: Estimate, cooking: seq<Method>): seq<Nutrition> {
    var s1 := Push([], NutritionRule(HighProtein, e, cooking), HighProtein);
    var s2 := Push(s1, NutritionRule(LowFat, e, cooking), LowFat);
    var s3 := Push(s2, NutritionRule(LowCalorie, e, cooking), LowCalorie);
    var s4 := Push(s3, NutritionRule(HighFiber, e, cooking), HighFiber);
    Push(s4, NutritionRule(LowCarb, e, cooking), LowCarb)
  }

  predicate QuickRule(source: Source) {
    source.minutes.Some? && source.minutes.value <= 20.0 && source.steps <= 6
  }

  predicate FatLossRule(e: Estimate, cooking: seq<Method>) {
    NutritionRule(LowCalorie, e, cooking)
    && (|| NutritionRule(LowFat, e, cooking) || NutritionRule(HighProtein, e, cooking)
        || NutritionRule(HighFiber, e, cooking))
  }

  predicate FitnessRule(e: Estimate, cooking: seq<Method>, flavor: seq<Flavor>) {
    NutritionRule(HighProtein, e, cooking) && !UsesFrying(cooking) && !(Sweet in flavor && e.carbs > 200)
  }

  /** When a scene may stand in the result: derived scenes by their rule, safety scenes by their test. */
  predicate SceneRule(c: Scene, m: ModelData, source: Source) {
    match c
    case Quick => QuickRule(source)
    case FatLoss => FatLossRule(m.estimate, m.cooking)
    case Fitness => FitnessRule(m.estimate, m.cooking, m.flavor)
    case ChildFriendly => !Hot(m.flavor) && !source.unsafeForChildren
    case ElderlyFriendly => Soft(m.cooking) && !Hot(m.flavor)
    case _ => true
  }

  predicate DerivedScene(c: Scene) {
    c.Quick? || c.FatLoss? || c.Fitness?
  }

  predicate KeptScene(c: Scene, m: ModelData, source: Source) {
    !DerivedScene(c) && SceneRule(c, m, source)
  }

  function WithDerived(scenes: seq<Scene>, m: ModelData, source: Source): seq<Scene> {
    var s1 := Push(scenes, SceneRule(Quick, m, source), Quick);
    var s2 := Push(s1, SceneRule(FatLoss, m, source), FatLoss);
    Push(s2, SceneRule(Fitness, m, source), Fitness)
  }

  function GivenScenes(m: ModelData, source: Source): seq<Scene> {
    Filter(m.scene, c => KeptScene(c, m, source))
  }

  /** The scenes by rule: those given and kept, then those derived. */
  function AllScenes(m: ModelData, source: Source): seq<Scene> {
    WithDerived(GivenScenes(m, source), m, source)
  }

  predicate NoAnimal(source: Source) {
    !source.animalFlesh && !source.animalProduct
  }

  predicate DietRule(c: Diet, given: seq<Diet>, source: Source) {
    match c
    case Vegan => NoAnimal(source)
    case GlutenFree => source.saysGlutenFree
    case Vegetarian => !source.animalFlesh && !(Vegan in given && NoAnimal(source))
  }

  function Diets(given: seq<Diet>, source: Source): seq<Diet> {
    Filter(given, c => DietRule(c, given, source))
  }

  function Derive(source: Source, m: ModelData): Metadata {
    Metadata(
      false, m.cuisine, m.flavor, m.cooking, m.ingredient, m.meal, NutritionCodes(m.estimate, m.cooking),
      Take(AllScenes(m, source), 4), Take(Diets(m.diet, source), 2), source.difficulty, Some(m.estimate))
  }

  // ---- filtering ----

  lemma {:induction false} FilterAll<T(!new)>(s: seq<T>, p: T -> bool)
    requires forall c :: c in s ==> p(c)
    ensures Filter(s, p) == s
  {
    if s != [] {
      FilterAll(s[..|s| - 1], p);
      assert s == s[..|s| - 1] + [s[|s| - 1]];
    }
  }

  lemma FilterLast<T(!new)>(s: seq<T>, c: T, p: T -> bool)
    ensures Filter(s + [c], p) == Filter(s, p) + if p(c) then [c] else []
  {
    assert (s + [c])[..|s|] == s;
  }

  lemma {:induction false} FilterFuse<T(!new)>(s: seq<T>, p: T -> bool, q: T -> bool, r: T -> bool)
    requires forall c :: c in s ==> (r(c) <==> p(c) && q(c))
    ensures Filter(Filter(s, p), q) == Filter(s, r)
  {
    if s != [] {
      var n := |s| - 1;
      assert s == s[..n] + [s[n]] && s[n] in s;
      FilterFuse(s[..n], p, q, r);
      FilterLast(s[..n], s[n], p);
      FilterLast(s[..n], s[n], r);
      FilterLast(Filter(s[..n], p), s[n], q);
    }
  }

  lemma {:induction false} FilterConcat<T(!new)>(a: seq<T>, b: seq<T>, p: T -> bool)
    ensures Filter(a + b, p) == Filter(a, p) + Filter(b, p)
  {
    if b == [] {
      assert a + b == a;
    } else {
      var n := |b| - 1;
      assert (a + b)[..|a + b| - 1] == a + b[..n];
      FilterConcat(a, b[..n], p);
    }
  }

  lemma {:induction false} FilterDistinct<T(!new)>(s: seq<T>, p: T -> bool)
    requires Distinct(s)
    ensures Distinct(Filter(s, p))
  {
    if s != [] {
      var n := |s| - 1;
      FilterDistinct(s[..n], p);
      forall c | c in Filter(s[..n], p) ensures c != s[n] {
        var k :| 0 <= k < n && s[k] == c;
      }
    }
  }

  /** `list.remove`: the first occurrence only. */
  function RemoveFirst<T(==)>(s: seq<T>, c: T): seq<T> {
    if s == [] then [] else if s[0] == c then s[1..] else [s[0]] + RemoveFirst(s[1..], c)
  }

  lemma TailDistinct<T>(s: seq<T>)
    requires s != [] && Distinct(s)
    ensures Distinct(s[1..]) && s[0] !in s[1..]
  {
    var rest := s[1..];
    forall i | 0 <= i < |rest| ensures rest[i] == s[i + 1] && rest[i] != s[0] {
    }
  }

  lemma FilterHead<T(!new)>(s: seq<T>, keep: T -> bool)
    requires s != []
    ensures Filter(s, keep) == (if keep(s[0]) then [s[0]] else []) + Filter(s[1..], keep)
  {
    assert s == [s[0]] + s[1..] && [s[0]][..0] == [];
    FilterConcat([s[0]], s[1..], keep);
  }

  lemma {:induction false} RemoveFirstIsFilter<T(!new)>(s: seq<T>, c: T, keep: T -> bool)
    requires Distinct(s) && forall x :: keep(x) <==> x != c
    ensures RemoveFirst(s, c) == Filter(s, keep)
  {
    if s != [] {
      TailDistinct(s);
      FilterHead(s, keep);
      if s[0] == c {
        FilterAll(s[1..], keep);
      } else {
        RemoveFirstIsFilter(s[1..], c, keep);
      }
    }
  }

  lemma FilterPush<T(!new)>(s: seq<T>, condition: bool, c: T, p: T -> bool)
    ensures Filter(Push(s, condition, c), p) == Push(Filter(s, p), condition && p(c), c)
  {
    assert (s + [c])[..|s|] == s;
  }

  lemma PushDistinct<T(!new)>(s: seq<T>, condition: bool, c: T)
    requires Distinct(s) && c !in s
    ensures Distinct(Push(s, condition, c))
  {
  }

  lemma DerivedDistinct(scenes: seq<Scene>, m: ModelData, source: Source)
    requires Distinct(scenes) && forall c :: c in scenes ==> !DerivedScene(c)
    ensures Distinct(WithDerived(scenes, m, source))
  {
    var s1 := Push(scenes, SceneRule(Quick, m, source), Quick);
    var s2 := Push(s1, SceneRule(FatLoss, m, source), FatLoss);
    PushDistinct(scenes, SceneRule(Quick, m, source), Quick);
    PushDistinct(s1, SceneRule(FatLoss, m, source), FatLoss);
    PushDistinct(s2, SceneRule(Fitness, m, source), Fitness);
  }

  lemma FilterDerived(scenes: seq<Scene>, m: ModelData, source: Source, p: Scene -> bool)
    requires forall c :: DerivedScene(c) && SceneRule(c, m, source) ==> p(c)
    ensures Filter(WithDerived(scenes, m, source), p) == WithDerived(Filter(scenes, p), m, source)
  {
    var s1 := Push(scenes, SceneRule(Quick, m, source), Quick);
    var s2 := Push(s1, SceneRule(FatLoss, m, source), FatLoss);
    FilterPush(scenes, SceneRule(Quick, m, source), Quick, p);
    FilterPush(s1, SceneRule(FatLoss, m, source), FatLoss, p);
    FilterPush(s2, SceneRule(Fitness, m, source), Fitness, p);
  }

  predicate NotMeatless(c: Diet) { c != Vegetarian && c != Vegan }
  predicate NotVegan(c: Diet) { c != Vegan }
  predicate NotVegetarian(c: Diet) { c != Vegetarian }
  predicate NotGlutenFree(c: Diet) { c != GlutenFree }
  predicate NotDerived(c: Scene) { !DerivedScene(c) }
  predicate NotForChildren(c: Scene) { c != ChildFriendly }

  lemma DietSteps(given: seq<Diet>, source: Source, d1: seq<Diet>, d2: seq<Diet>, d3: seq<Diet>)
    requires d1 == if source.animalFlesh then Filter(given, NotMeatless)
                   else if source.animalProduct then Filter(given, NotVegan) else given
    requires d2 == if source.saysGlutenFree then d1 else Filter(d1, NotGlutenFree)
    requires d3 == if Vegan in d2 then Filter(d2, NotVegetarian) else d2
    ensures d3 == Diets(given, source)
  {
    var first := (c: Diet) => (source.animalFlesh ==> NotMeatless(c)) && (source.animalProduct ==> NotVegan(c));
    var second := (c: Diet) => first(c) && (source.saysGlutenFree || NotGlutenFree(c));
    var third := (c: Diet) => DietRule(c, given, source);
    assert d1 == Filter(given, first) by {
      if source.animalFlesh {
        FilterFuse(given, NotMeatless, first, first);
        FilterAll(Filter(given, NotMeatless), first);
      } else if source.animalProduct {
        FilterFuse(given, NotVegan, first, first);
        FilterAll(Filter(given, NotVegan), first);
      } else {
        FilterAll(given, first);
      }
    }
    assert d2 == Filter(given, second) by {
      if source.saysGlutenFree {
        FilterFuse(given, first, second, second);
        FilterAll(d1, second);
      } else {
        FilterFuse(given, first, NotGlutenFree, second);
      }
    }
    assert Vegan in d2 <==> Vegan in given && DietRule(Vegan, given, source);
    if Vegan in d2 {
      FilterFuse(given, second, NotVegetarian, third);
    } else {
      FilterFuse(given, second, third, third);
      FilterAll(d2, third);
    }
  }

  lemma ChildStep(m: ModelData, source: Source, s1: seq<Scene>, child: Scene -> bool)
    requires forall c :: child(c) <==> (c == ChildFriendly ==> SceneRule(c, m, source))
    ensures (if Hot(m.flavor) || source.unsafeForChildren then Filter(s1, NotForChildren) else s1) == Filter(s1, child)
  {
    if Hot(m.flavor) || source.unsafeForChildren {
      FilterFuse(s1, NotForChildren, child, child);
      FilterAll(Filter(s1, NotForChildren), child);
    } else {
      FilterAll(s1, child);
    }
  }

  lemma ElderlyStep(m: ModelData, source: Source, s2: seq<Scene>, elderly: Scene -> bool)
    requires Distinct(s2)
    requires forall c :: elderly(c) <==> (c == ElderlyFriendly ==> SceneRule(c, m, source))
    ensures (if ElderlyFriendly in s2 && (!Soft(m.cooking) || Hot(m.flavor)) then RemoveFirst(s2, ElderlyFriendly)
             else s2)
         == Filter(s2, elderly)
  {
    if ElderlyFriendly in s2 && (!Soft(m.cooking) || Hot(m.flavor)) {
      RemoveFirstIsFilter(s2, ElderlyFriendly, elderly);
    } else {
      FilterAll(s2, elderly);
    }
  }

  lemma SceneSteps(m: ModelData, source: Source, s1: seq<Scene>, s2: seq<Scene>, s3: seq<Scene>)
    requires Distinct(m.scene)
    requires s1 == WithDerived(Filter(m.scene, NotDerived), m, source)
    requires s2 == if Hot(m.flavor) || source.unsafeForChildren then Filter(s1, NotForChildren) else s1
    requires s3 == if ElderlyFriendly in s2 && (!Soft(m.cooking) || Hot(m.flavor)) then RemoveFirst(s2, ElderlyFriendly)
                   else s2
    ensures s3 == AllScenes(m, source) && Distinct(s3)
  {
    var rule := (c: Scene) => SceneRule(c, m, source);
    var safe := (c: Scene) => (c == ChildFriendly ==> rule(c)) && (c == ElderlyFriendly ==> rule(c));
    var child := (c: Scene) => c == ChildFriendly ==> rule(c);
    var elderly := (c: Scene) => c == ElderlyFriendly ==> rule(c);
    var given := Filter(m.scene, NotDerived);
    FilterDistinct(m.scene, NotDerived);
    DerivedDistinct(given, m, source);
    ChildStep(m, source, s1, child);
    FilterDistinct(s1, child);
    ElderlyStep(m, source, s2, elderly);
    FilterDistinct(s2, elderly);
    FilterFuse(s1, child, elderly, safe);
    FilterDerived(given, m, source, safe);
    FilterFuse(m.scene, NotDerived, safe, c => KeptScene(c, m, source));
  }

  // ---- the program: appends and removals as `derive_metadata` makes them, in its order ----

  method DeriveDiet(given: seq<Diet>, source: Source) returns (diet: seq<Diet>)
    ensures diet == Diets(given, source)
  {
    diet := given;
    if source.animalFlesh {
      diet := Filter(diet, NotMeatless);
    } else if source.animalProduct {
      diet := Filter(diet, NotVegan);
    }
    ghost var d1 := diet;
    if !source.saysGlutenFree {
      diet := Filter(diet, NotGlutenFree);
    }
    ghost var d2 := diet;
    if Vegan in diet {
      diet := Filter(diet, NotVegetarian);
    }
    DietSteps(given, source, d1, d2, diet);
  }

  method DeriveNutrition(e: Estimate, fried: bool, ghost cooking: seq<Method>) returns (codes: seq<Nutrition>)
    requires fried <==> UsesFrying(cooking)
    ensures codes == NutritionCodes(e, cooking)
  {
    codes := [];
    if e.protein >= 100 || (e.calorie > 0 && 20 * e.protein >= e.calorie) { codes := codes + [HighProtein]; }
    if e.fat <= 30 && !fried { codes := codes + [LowFat]; }
    if e.calorie <= 1200 { codes := codes + [LowCalorie]; }
    if e.fiber >= 30 { codes := codes + [HighFiber]; }
    if e.carbs <= 100 { codes := codes + [LowCarb]; }
  }

  lemma CodesMeanRules(c: Nutrition, e: Estimate, cooking: seq<Method>)
    ensures c in NutritionCodes(e, cooking) <==> NutritionRule(c, e, cooking)
  {
  }

  /** The scenes the thresholds add. */
  method AddDerived(given: seq<Scene>, m: ModelData, source: Source, nutrition: seq<Nutrition>, fried: bool)
    returns (scenes: seq<Scene>)
    requires nutrition == NutritionCodes(m.estimate, m.cooking) && (fried <==> UsesFrying(m.cooking))
    ensures scenes == WithDerived(given, m, source)
  {
    forall c ensures c in nutrition <==> NutritionRule(c, m.estimate, m.cooking) {
      CodesMeanRules(c, m.estimate, m.cooking);
    }
    scenes := given;
    if source.minutes.Some? && source.minutes.value <= 20.0 && source.steps <= 6 { scenes := scenes + [Quick]; }
    if LowCalorie in nutrition && (LowFat in nutrition || HighProtein in nutrition || HighFiber in nutrition) {
      scenes := scenes + [FatLoss];
    }
    var highSugarStyle := Sweet in m.flavor && m.estimate.carbs > 200;
    if HighProtein in nutrition && !fried && !highSugarStyle { scenes := scenes + [Fitness]; }
  }

  method DeriveScenes(m: ModelData, source: Source, nutrition: seq<Nutrition>, fried: bool) returns (scenes: seq<Scene>)
    requires Distinct(m.scene) && nutrition == NutritionCodes(m.estimate, m.cooking)
    requires fried <==> UsesFrying(m.cooking)
    ensures scenes == AllScenes(m, source) && Distinct(scenes)
  {
    scenes := AddDerived(Filter(m.scene, NotDerived), m, source, nutrition, fried);
    ghost var s1 := scenes;
    var unsafeChild :=
      Spicy in m.flavor || NumbingSpicy in m.flavor || SourSpicy in m.flavor || source.unsafeForChildren;
    if unsafeChild {
      scenes := Filter(scenes, NotForChildren);
    }
    ghost var s2 := scenes;
    if ElderlyFriendly in scenes && (!Soft(m.cooking) || Hot(m.flavor)) {
      scenes := RemoveFirst(scenes, ElderlyFriendly);
    }
    SceneSteps(m, source, s1, s2, scenes);
  }

  method DeriveMetadata(source: Source, m: ModelData) returns (r: Metadata)
    requires Distinct(m.scene) && Distinct(m.diet)
    ensures r == Derive(source, m)
  {
    var fried := DeepFried in m.cooking || Fried in m.cooking;
    var diet := DeriveDiet(m.diet, source);
    var nutrition := DeriveNutrition(m.estimate, fried, m.cooking);
    var scenes := DeriveScenes(m, source, nutrition, fried);
    r := Metadata(false, m.cuisine, m.flavor, m.cooking, m.ingredient, m.meal, nutrition,
                  Take(scenes, 4), Take(diet, 2), source.difficulty, Some(m.estimate));
  }

  // ---- soundness ----

  lemma NutritionIsExact(source: Source, m: ModelData, c: Nutrition)
    ensures c in Derive(source, m).nutrition <==> NutritionRule(c, m.estimate, m.cooking)
  {
    CodesMeanRules(c, m.estimate, m.cooking);
  }

  /** Every scene that survives meets its rule and was given, unless it is a derived one. */
  lemma ScenesAreSound(source: Source, m: ModelData, c: Scene)
    requires c in Derive(source, m).scene
    ensures SceneRule(c, m, source) && (DerivedScene(c) || c in m.scene)
  {
    assert c in AllScenes(m, source);
  }

  lemma ThreeDiets(d: seq<Diet>)
    requires Distinct(d)
    ensures |d| > 2 ==> Vegan in d && Vegetarian in d
  {
    if |d| > 2 {
      assert d[0] != d[1] && d[1] != d[2] && d[0] != d[2];
    }
  }

  lemma AtMostTwoDiets(given: seq<Diet>, source: Source)
    requires Distinct(given)
    ensures |Diets(given, source)| <= 2 && Distinct(Diets(given, source))
  {
    FilterDistinct(given, c => DietRule(c, given, source));
    ThreeDiets(Diets(given, source));
  }

  /** Exactly the given diets that meet their rule; vegan and vegetarian never stand together. */
  lemma DietsAreExact(source: Source, m: ModelData, c: Diet)
    requires Distinct(m.diet)
    ensures c in Derive(source, m).diet <==> c in m.diet && DietRule(c, m.diet, source)
    ensures !(Vegan in Derive(source, m).diet && Vegetarian in Derive(source, m).diet)
  {
    AtMostTwoDiets(m.diet, source);
  }

  lemma FirstFourOfPush(s: seq<Scene>, condition: bool, last: Scene, c: Scene)
    requires |s| <= 4
    ensures c in Take(Push(s, condition, last), 4) <==> c in s || (c == last && condition && |s| < 4)
  {
    assert |s| == 4 ==> Take(Push(s, condition, last), 4) == s;
  }

  /** Of up to two scenes and up to three more, the first four. */
  lemma FirstFour(given: seq<Scene>, quick: bool, fatLoss: bool, fitness: bool, c: Scene)
    requires |given| <= 2
    ensures c in Take(Push(Push(Push(given, quick, Quick), fatLoss, FatLoss), fitness, Fitness), 4)
       <==> c in given || (c == Quick && quick) || (c == FatLoss && fatLoss)
            || (c == Fitness && fitness && !(|given| == 2 && quick && fatLoss))
  {
    FirstFourOfPush(Push(Push(given, quick, Quick), fatLoss, FatLoss), fitness, Fitness, c);
  }

  /**
   * Which scenes are kept, exactly: every given scene that meets its rule, quick and fat-loss whenever their rule
   * holds, and fitness too unless two given scenes, quick and fat-loss already fill the four places.
   */
  lemma KeptScenesAreExact(source: Source, m: ModelData, c: Scene)
    requires |m.scene| <= 2
    ensures c in Derive(source, m).scene <==>
              if c == Quick then QuickRule(source)
              else if c == FatLoss then FatLossRule(m.estimate, m.cooking)
              else if c == Fitness then
                FitnessRule(m.estimate, m.cooking, m.flavor)
                && !(|GivenScenes(m, source)| == 2 && QuickRule(source) && FatLossRule(m.estimate, m.cooking))
              else c in m.scene && SceneRule(c, m, source)
  {
    var given := GivenScenes(m, source);
    assert c in given <==> c in m.scene && KeptScene(c, m, source);
    var fatLoss, fitness := FatLossRule(m.estimate, m.cooking), FitnessRule(m.estimate, m.cooking, m.flavor);
    FirstFour(given, QuickRule(source), fatLoss, fitness, c);
  }

  // ---- deriving again ----

  /** The metadata read back as input. */
  function AsInput(r: Metadata): ModelData
    requires r.estimate.Some?
  {
    ModelData(r.cuisine, r.flavor, r.cooking, r.ingredient, r.meal, r.scene, r.diet, r.estimate.value)
  }

  lemma DietsAgain(given: seq<Diet>, source: Source)
    requires Distinct(given)
    ensures var d := Take(Diets(given, source), 2); Take(Diets(d, source), 2) == d
  {
    AtMostTwoDiets(given, source);
    var d := Diets(given, source);
    FilterAll(d, c => DietRule(c, d, source));
  }

  lemma PushPrefix<T(!new)>(a: seq<T>, b: seq<T>, n: nat, condition: bool, c: T)
    requires Take(a, n) == Take(b, n) && (|a| < n || |b| < n ==> a == b)
    ensures Take(Push(a, condition, c), n) == Take(Push(b, condition, c), n)
    ensures |Push(a, condition, c)| < n || |Push(b, condition, c)| < n ==>
              Push(a, condition, c) == Push(b, condition, c)
  {
    if |a| >= n && |b| >= n {
      assert Take(Push(a, condition, c), n) == Take(a, n) && Take(Push(b, condition, c), n) == Take(b, n);
    }
  }

  lemma {:induction false} FilterNone<T(!new)>(s: seq<T>, p: T -> bool)
    requires forall c :: c in s ==> !p(c)
    ensures Filter(s, p) == []
  {
    if s != [] {
      FilterNone(s[..|s| - 1], p);
      assert s == s[..|s| - 1] + [s[|s| - 1]];
    }
  }

  lemma FilterFront<T(!new)>(front: seq<T>, back: seq<T>, p: T -> bool)
    requires (forall c :: c in front ==> p(c)) && forall c :: c in back ==> !p(c)
    ensures Filter(front + back, p) == front
  {
    FilterConcat(front, back, p);
    FilterAll(front, p);
    FilterNone(back, p);
  }

  /** Filtering a prefix of the scenes gives back the given ones in it. */
  lemma KeptPrefix(given: seq<Scene>, derived: seq<Scene>, kept: Scene -> bool)
    requires (forall c :: c in given ==> kept(c)) && forall c :: c in derived ==> !kept(c)
    ensures Filter(Take(given + derived, 4), kept) == Take(given, 4)
  {
    if |given| >= 4 {
      assert Take(given + derived, 4) == given[..4] + [];
      FilterFront(given[..4], [], kept);
      assert Take(given, 4) == given[..4];
    } else {
      var some := Take(derived, 4 - |given|);
      assert Take(given + derived, 4) == given + some;
      FilterFront(given, some, kept);
    }
  }

  lemma DerivedComeLast(scenes: seq<Scene>, m: ModelData, source: Source) returns (derived: seq<Scene>)
    ensures WithDerived(scenes, m, source) == scenes + derived
    ensures forall c :: c in derived ==> DerivedScene(c)
  {
    derived := WithDerived(scenes, m, source)[|scenes|..];
    assert forall k :: 0 <= k < |derived| ==> DerivedScene(derived[k]);
  }

  lemma GivenAreKept(source: Source, m: ModelData, again: ModelData, short: seq<Scene>)
    requires forall c :: c in short ==> c in GivenScenes(m, source)
    requires short == Filter(again.scene, NotDerived)
    requires again.estimate == m.estimate && again.cooking == m.cooking && again.flavor == m.flavor
    ensures GivenScenes(again, source) == short
  {
    var rule := (c: Scene) => KeptScene(c, again, source);
    FilterFuse(again.scene, NotDerived, rule, rule);
    FilterAll(short, rule);
  }

  lemma GivenAgain(source: Source, m: ModelData, again: ModelData)
    requires again.scene == Take(AllScenes(m, source), 4)
    requires again.estimate == m.estimate && again.cooking == m.cooking && again.flavor == m.flavor
    ensures GivenScenes(again, source) == Take(GivenScenes(m, source), 4)
  {
    var given := GivenScenes(m, source);
    var derived := DerivedComeLast(given, m, source);
    KeptPrefix(given, derived, NotDerived);
    GivenAreKept(source, m, again, Take(given, 4));
  }

  lemma DerivedPrefix(short: seq<Scene>, given: seq<Scene>, m: ModelData, source: Source)
    requires short == Take(given, 4)
    ensures Take(WithDerived(short, m, source), 4) == Take(WithDerived(given, m, source), 4)
  {
    var s1, t1 := Push(short, SceneRule(Quick, m, source), Quick), Push(given, SceneRule(Quick, m, source), Quick);
    var s2, t2 := Push(s1, SceneRule(FatLoss, m, source), FatLoss), Push(t1, SceneRule(FatLoss, m, source), FatLoss);
    PushPrefix(short, given, 4, SceneRule(Quick, m, source), Quick);
    PushPrefix(s1, t1, 4, SceneRule(FatLoss, m, source), FatLoss);
    PushPrefix(s2, t2, 4, SceneRule(Fitness, m, source), Fitness);
  }

  lemma ScenesAgain(source: Source, m: ModelData)
    ensures var again := AsInput(Derive(source, m));
            Take(AllScenes(again, source), 4) == Take(AllScenes(m, source), 4)
  {
    var again := AsInput(Derive(source, m));
    GivenAgain(source, m, again);
    var short := GivenScenes(again, source);
    DerivedPrefix(short, GivenScenes(m, source), m, source);
    assert WithDerived(short, again, source) == WithDerived(short, m, source);
  }

  /** Deriving from derived metadata changes nothing. */
  lemma DerivingAgainChangesNothing(source: Source, m: ModelData)
    requires Distinct(m.diet)
    ensures Derive(source, AsInput(Derive(source, m))) == Derive(source, m)
  {
    DietsAgain(m.diet, source);
    ScenesAgain(source, m);
  }
}
