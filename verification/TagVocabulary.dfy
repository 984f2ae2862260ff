/** Label texts that meet `Vocabulary` exist, so the results that assume it speak of something. */
module TagVocabulary {
  import opened Languages
  import opened TagMetadata
  import opened TagDisplay

  function CuisineNumber(c: Cuisine): nat {
    match c
    case Hunan => 0 case Sichuan => 1 case Cantonese => 2 case Shandong => 3 case Jiangsu => 4 case Zhejiang => 5
    case Fujian => 6 case Anhui => 7 case NortheasternChinese => 8 case NorthwesternChinese => 9
    case HomeStyle => 10 case Western => 11 case Japanese => 12 case Korean => 13 case Thai => 14
    case Vietnamese => 15 case Italian => 16 case French => 17 case Mediterranean => 18 case Mexican => 19
    case Indian => 20 case MiddleEastern => 21 case Moroccan => 22 case American => 23
  }

  function FlavorNumber(c: Flavor): nat {
    match c
    case Spicy => 0 case NumbingSpicy => 1 case Savory => 2 case Light => 3 case Sweet => 4 case SweetSour => 5
    case SourSpicy => 6 case Sour => 7 case Salty => 8 case Umami => 9 case Aromatic => 10 case Creamy => 11
  }

  function MethodNumber(c: Method): nat {
    match c
    case StirFried => 0 case DeepFried => 1 case Fried => 2 case Steamed => 3 case Stewed => 4 case Braised => 5
    case Boiled => 6 case Simmered => 7 case Roasted => 8 case Baked => 9 case Grilled => 10 case ColdTossed => 11
    case Blended => 12 case Juiced => 13 case Pickled => 14 case Whipping => 15 case Fermenting => 16
    case Pureeing => 17 case Stirring => 18 case SousVide => 19 case Reheating => 20 case Warming => 21
    case Peeling => 22 case Slicing => 23 case Grinding => 24 case Kneading => 25 case Cleaning => 26
  }

  function IngredientNumber(c: Ingredient): nat {
    match c
    case Beef => 0 case Chicken => 1 case Pork => 2 case Lamb => 3 case Duck => 4 case Fish => 5 case Shrimp => 6
    case Seafood => 7 case Egg => 8 case Tofu => 9 case Vegetable => 10 case Mushroom => 11 case Potato => 12
    case Rice => 13 case Noodle => 14 case Dairy => 15 case Fruit => 16 case Grain => 17 case Legume => 18
    case NutsSeeds => 19 case HerbSpice => 20 case Water => 21 case PreparedFood => 22
    case PreparedIngredient => 23
  }

  function MealNumber(c: Meal): nat {
    match c
    case Breakfast => 0 case MainCourse => 1 case Soup => 2 case Dessert => 3 case Beverage => 4 case Snack => 5
    case Staple => 6 case SideDish => 7 case Sauce => 8 case KitchenProgram => 9
  }

  function NutritionNumber(c: Nutrition): nat {
    match c
    case HighProtein => 0 case LowFat => 1 case LowCalorie => 2 case HighFiber => 3 case LowCarb => 4
  }

  function SceneNumber(c: Scene): nat {
    match c
    case Quick => 0 case RiceCompanion => 1 case FatLoss => 2 case Fitness => 3 case ChildFriendly => 4
    case ElderlyFriendly => 5 case Banquet => 6 case Bento => 7 case FoodPreparation => 8
    case DeviceMaintenance => 9
  }

  function DietNumber(c: Diet): nat {
    match c
    case Vegetarian => 0 case Vegan => 1 case GlutenFree => 2
  }

  function DifficultyNumber(c: Difficulty): nat {
    match c
    case Easy => 0 case Moderate => 1 case Advanced => 2
  }

  function Dimension(t: Tag): nat {
    match t
    case DeviceTag => 0
    case CuisineTag(_) => 1
    case FlavorTag(_) => 2
    case MethodTag(_) => 3
    case IngredientTag(_) => 4
    case MealTag(_) => 5
    case NutritionTag(_) => 6
    case SceneTag(_) => 7
    case DietTag(_) => 8
    case DifficultyTag(_) => 9
  }

  function Place(t: Tag): nat {
    match t
    case DeviceTag => 0
    case CuisineTag(c) => CuisineNumber(c)
    case FlavorTag(c) => FlavorNumber(c)
    case MethodTag(c) => MethodNumber(c)
    case IngredientTag(c) => IngredientNumber(c)
    case MealTag(c) => MealNumber(c)
    case NutritionTag(c) => NutritionNumber(c)
    case SceneTag(c) => SceneNumber(c)
    case DietTag(c) => DietNumber(c)
    case DifficultyTag(c) => DifficultyNumber(c)
  }

  function Number(t: Tag): nat {
    10 * Place(t) + Dimension(t)
  }

  lemma CuisineNumbersDiffer(a: Cuisine, b: Cuisine)
    requires CuisineNumber(a) == CuisineNumber(b)
    ensures a == b
  {
  }

  lemma FlavorNumbersDiffer(a: Flavor, b: Flavor)
    requires FlavorNumber(a) == FlavorNumber(b)
    ensures a == b
  {
  }

  lemma MethodNumbersDiffer(a: Method, b: Method)
    requires MethodNumber(a) == MethodNumber(b)
    ensures a == b
  {
  }

  lemma IngredientNumbersDiffer(a: Ingredient, b: Ingredient)
    requires IngredientNumber(a) == IngredientNumber(b)
    ensures a == b
  {
  }

  lemma MealNumbersDiffer(a: Meal, b: Meal)
    requires MealNumber(a) == MealNumber(b)
    ensures a == b
  {
  }

  lemma NutritionNumbersDiffer(a: Nutrition, b: Nutrition)
    requires NutritionNumber(a) == NutritionNumber(b)
    ensures a == b
  {
  }

  lemma SceneNumbersDiffer(a: Scene, b: Scene)
    requires SceneNumber(a) == SceneNumber(b)
    ensures a == b
  {
  }

  lemma DietNumbersDiffer(a: Diet, b: Diet)
    requires DietNumber(a) == DietNumber(b)
    ensures a == b
  {
  }

  lemma DifficultyNumbersDiffer(a: Difficulty, b: Difficulty)
    requires DifficultyNumber(a) == DifficultyNumber(b)
    ensures a == b
  {
  }

  lemma PlacesDiffer(t: Tag, u: Tag)
    requires Dimension(t) == Dimension(u) && Place(t) == Place(u)
    ensures t == u
  {
    match t
    case DeviceTag =>
    case CuisineTag(c) => CuisineNumbersDiffer(c, u.cuisine);
    case FlavorTag(c) => FlavorNumbersDiffer(c, u.flavor);
    case MethodTag(c) => MethodNumbersDiffer(c, u.cooking);
    case IngredientTag(c) => IngredientNumbersDiffer(c, u.ingredient);
    case MealTag(c) => MealNumbersDiffer(c, u.meal);
    case NutritionTag(c) => NutritionNumbersDiffer(c, u.nutrition);
    case SceneTag(c) => SceneNumbersDiffer(c, u.scene);
    case DietTag(c) => DietNumbersDiffer(c, u.diet);
    case DifficultyTag(c) => DifficultyNumbersDiffer(c, u.difficulty);
  }

  lemma NumbersDiffer(t: Tag, u: Tag)
    requires Number(t) == Number(u)
    ensures t == u
  {
    assert Dimension(t) < 10 && Dimension(u) < 10;
    PlacesDiffer(t, u);
  }

  /** A label of digits, good in both languages: as many as the number of the tag says. */
  function Digits(t: Tag, lang: Lang): string {
    seq(Number(t) + 1, _ => '1')
  }

  lemma VocabularyExists()
    ensures Vocabulary(Digits)
  {
    forall t, lang ensures GoodLabel(Digits(t, lang), lang) {
      var s := Digits(t, lang);
      assert forall c :: c in s ==> c == '1';
      assert s[0] == '1' && s[|s| - 1] == '1';
    }
    forall t, u, lang | Digits(t, lang) == Digits(u, lang) ensures t == u {
      assert |Digits(t, lang)| == |Digits(u, lang)|;
      NumbersDiffer(t, u);
    }
  }
}
