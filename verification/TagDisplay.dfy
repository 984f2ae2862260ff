/**
 * Showing the tags of a recipe and checking the finished sheet (scripts/enrich_recipe_tags_nutrition_qwen.py).
 * The label texts are a parameter; `Vocabulary` says what the proofs need of them.
 */
module TagDisplay {
  import opened Languages
  import opened Options
  import opened Sequences
  import opened TagMetadata
  import opened TextCells

  /** A code together with its dimension. */
  datatype Tag =
    | DeviceTag
    | CuisineTag(cuisine: Cuisine)
    | FlavorTag(flavor: Flavor)
    | MethodTag(cooking: Method)
    | IngredientTag(ingredient: Ingredient)
    | MealTag(meal: Meal)
    | NutritionTag(nutrition: Nutrition)
    | SceneTag(scene: Scene)
    | DietTag(diet: Diet)
    | DifficultyTag(difficulty: Difficulty)

  type Labels = (Tag, Lang) -> string

  const SEPARATOR := '、'

  predicate Latin(c: char) { 'A' <= c <= 'Z' || 'a' <= c <= 'z' }

  predicate Cjk(c: char) { 0x4E00 <= c as int <= 0x9FFF }

  predicate GoodLabel(s: string, lang: Lang) {
    && s != [] && Neat(s) && SEPARATOR !in s
    && (lang.Zh? ==> forall c :: c in s ==> !Latin(c))
    && (lang.En? ==> forall c :: c in s ==> !Cjk(c))
  }

  /** Labels of one language differ, and each is a plain text in that language. */
  ghost predicate Vocabulary(words: Labels) {
    && (forall t, lang :: GoodLabel(words(t, lang), lang))
    && forall t, u, lang :: words(t, lang) == words(u, lang) ==> t == u
  }

  // ---- device programs ----

  datatype Program = Program(cooking: Method, ingredient: seq<Ingredient>, scene: seq<Scene>)

  /** The preset programs of the kitchen machine, by recipe id. */
  function DeviceProgramOf(id: string): Option<Program> {
    if FirstProgramOf(id).Some? then FirstProgramOf(id) else SecondProgramOf(id)
  }

  // the table in two halves, which keeps reasoning about it cheap

  function FirstProgramOf(id: string): Option<Program> {
    if id == "2029024142275284994" then Some(Program(Whipping, [Dairy, Egg], [FoodPreparation]))
    else if id == "2029025688148815873" then Some(Program(Boiled, [Egg], [FoodPreparation]))
    else if id == "2029028070895169538" then Some(Program(Fermenting, [PreparedIngredient], [FoodPreparation]))
    else if id == "2029029600243265537" then Some(Program(Pureeing, [Fruit, Vegetable], [FoodPreparation]))
    else if id == "2029034475823869954" then Some(Program(Steamed, [PreparedIngredient], [FoodPreparation]))
    else if id == "2029040618382200834" then Some(Program(Stirring, [PreparedIngredient], [FoodPreparation]))
    else if id == "2029042618943574018" then Some(Program(Fermenting, [Dairy], [FoodPreparation]))
    else if id == "2029044699465158657" then Some(Program(SousVide, [PreparedIngredient], [FoodPreparation]))
    else if id == "2029046117722796034" then Some(Program(Reheating, [PreparedFood], [FoodPreparation]))
    else None
  }

  function SecondProgramOf(id: string): Option<Program> {
    if id == "2029047161131413506" then Some(Program(Cleaning, [PreparedIngredient], [FoodPreparation]))
    else if id == "2029048131127250945" then Some(Program(Warming, [PreparedFood], [FoodPreparation]))
    else if id == "2029049320556367873" then Some(Program(Blended, [Fruit, Vegetable], [FoodPreparation]))
    else if id == "2029050406528782337" then Some(Program(Stewed, [PreparedIngredient], [FoodPreparation]))
    else if id == "2029051876472827906" then Some(Program(Cleaning, [Water], [DeviceMaintenance]))
    else if id == "2029060329878753282" then Some(Program(Peeling, [Potato, Vegetable], [FoodPreparation]))
    else if id == "2029061542842109954" then Some(Program(Slicing, [PreparedIngredient], [FoodPreparation]))
    else if id == "2029062687241056258" then Some(Program(Grinding, [HerbSpice], [FoodPreparation]))
    else if id == "2029064459615637505" then Some(Program(Cleaning, [Water], [DeviceMaintenance]))
    else if id == "2029095979239649281" then Some(Program(Kneading, [Grain], [FoodPreparation]))
    else None
  }

  function DeviceMetadata(id: string, source: Source): Option<Metadata> {
    var program := DeviceProgramOf(id);
    if program.None? then None
    else
      var scenes := Push(program.value.scene, QuickRule(source), Quick);
      Some(Metadata(
        true, [], [], [program.value.cooking], Take(program.value.ingredient, 2), [KitchenProgram], [],
        Take(Recognised(Map(scenes, s => Some(s))), 2), [], source.difficulty, None))
  }

  // ---- the tags of a recipe ----

  /** Every tag `display_tags` looks at, in its order of dimensions. */
  function Listed(m: Metadata): seq<Tag> {
    if m.device then
      [DeviceTag] + Map(m.cooking, c => MethodTag(c)) + Map(m.ingredient, c => IngredientTag(c))
      + Map(m.meal, c => MealTag(c)) + Map(m.scene, c => SceneTag(c)) + [DifficultyTag(m.difficulty)]
    else
      Core(m) + Map(m.nutrition, c => NutritionTag(c)) + Map(m.scene, c => SceneTag(c)) + Map(m.diet, c => DietTag(c))
  }

  /** Cuisine, flavor, method, ingredient and meal. */
  function Core(m: Metadata): seq<Tag> {
    Map(m.cuisine, c => CuisineTag(c)) + Map(m.flavor, c => FlavorTag(c)) + Map(m.cooking, c => MethodTag(c))
    + Map(m.ingredient, c => IngredientTag(c)) + Map(m.meal, c => MealTag(c))
  }

  /** The tags of a recipe are those of its dimensions, and nothing else. */
  lemma ListedIsExact(m: Metadata, t: Tag)
    requires !m.device
    ensures t in Listed(m) <==>
      match t
      case CuisineTag(c) => c in m.cuisine
      case FlavorTag(c) => c in m.flavor
      case MethodTag(c) => c in m.cooking
      case IngredientTag(c) => c in m.ingredient
      case MealTag(c) => c in m.meal
      case NutritionTag(c) => c in m.nutrition
      case SceneTag(c) => c in m.scene
      case DietTag(c) => c in m.diet
      case _ => false
  {
    MapHas(m.cuisine, c => CuisineTag(c), t);
    MapHas(m.flavor, c => FlavorTag(c), t);
    MapHas(m.cooking, c => MethodTag(c), t);
    MapHas(m.ingredient, c => IngredientTag(c), t);
    MapHas(m.meal, c => MealTag(c), t);
    MapHas(m.nutrition, c => NutritionTag(c), t);
    MapHas(m.scene, c => SceneTag(c), t);
    MapHas(m.diet, c => DietTag(c), t);
  }

  /** The tags of a device program: that it is one, how and with what it works, when and how hard it is. */
  lemma ListedOfDevice(m: Metadata, t: Tag)
    requires m.device
    ensures t in Listed(m) <==>
      match t
      case DeviceTag => true
      case MethodTag(c) => c in m.cooking
      case IngredientTag(c) => c in m.ingredient
      case MealTag(c) => c in m.meal
      case SceneTag(c) => c in m.scene
      case DifficultyTag(d) => d == m.difficulty
      case _ => false
  {
    MapHas(m.cooking, c => MethodTag(c), t);
    MapHas(m.ingredient, c => IngredientTag(c), t);
    MapHas(m.meal, c => MealTag(c), t);
    MapHas(m.scene, c => SceneTag(c), t);
  }

  lemma MapHas<S(!new)>(s: seq<S>, f: S -> Tag, t: Tag)
    ensures t in Map(s, f) <==> exists c :: c in s && f(c) == t
  {
    if t in Map(s, f) {
      var k :| 0 <= k < |s| && Map(s, f)[k] == t;
      assert s[k] in s && f(s[k]) == t;
    }
    if c :| c in s && f(c) == t {
      var k :| 0 <= k < |s| && s[k] == c;
      assert Map(s, f)[k] == t;
    }
  }

  function Texts(tags: seq<Tag>, lang: Lang, words: Labels): seq<string> {
    Map(tags, t => words(t, lang))
  }

  /** Each text once, in order of first appearance. */
  function Unique(texts: seq<string>): seq<string> {
    if texts == [] then []
    else
      var before, last := Unique(texts[..|texts| - 1]), texts[|texts| - 1];
      if last in before then before else before + [last]
  }

  /** The labels of the tags, each text once. */
  function Shown(tags: seq<Tag>, lang: Lang, words: Labels): seq<string> {
    Unique(Texts(tags, lang, words))
  }

  /** The listed tags, and the difficulty of a recipe that has fewer than five, cut at twelve. */
  function FirstTwelve(listed: seq<Tag>, device: bool, d: Difficulty, lang: Lang, words: Labels): seq<string> {
    var few := !device && |Shown(listed, lang, words)| < 5;
    Take(Shown(listed + if few then [DifficultyTag(d)] else [], lang, words), 12)
  }

  function Display(m: Metadata, lang: Lang, words: Labels): seq<string> {
    FirstTwelve(Listed(m), m.device, m.difficulty, lang, words)
  }

  lemma TextsOfMore(tags: seq<Tag>, t: Tag, lang: Lang, words: Labels)
    ensures Texts(tags + [t], lang, words) == Texts(tags, lang, words) + [words(t, lang)]
  {
  }

  lemma UniqueOfMore(texts: seq<string>, text: string)
    ensures Unique(texts + [text]) == if text in Unique(texts) then Unique(texts) else Unique(texts) + [text]
  {
    assert (texts + [text])[..|texts|] == texts;
  }

  lemma UniqueNext(before: seq<string>, texts: seq<string>, n: nat)
    requires n < |texts|
    ensures Unique(before + texts[..n + 1])
         == if texts[n] in Unique(before + texts[..n]) then Unique(before + texts[..n])
            else Unique(before + texts[..n]) + [texts[n]]
  {
    UniqueOfMore(before + texts[..n], texts[n]);
    assert texts[..n + 1] == texts[..n] + [texts[n]];
    assert before + texts[..n] + [texts[n]] == before + (texts[..n] + [texts[n]]);
  }

  method AddLabels(given: seq<string>, ghost before: seq<string>, codes: seq<Tag>, lang: Lang, words: Labels)
    returns (tags: seq<string>)
    requires given == Unique(before)
    ensures tags == Unique(before + Texts(codes, lang, words))
  {
    ghost var texts := Texts(codes, lang, words);
    tags := given;
    assert before + texts[..0] == before;
    for n := 0 to |codes|
      invariant tags == Unique(before + texts[..n])
    {
      UniqueNext(before, texts, n);
      var text := words(codes[n], lang);
      if text !in tags { tags := tags + [text]; }
    }
    assert texts[..|codes|] == texts;
  }

  method DisplayListed(listed: seq<Tag>, device: bool, d: Difficulty, lang: Lang, words: Labels)
    returns (tags: seq<string>)
    ensures tags == FirstTwelve(listed, device, d, lang, words)
  {
    tags := AddLabels([], [], listed, lang, words);
    assert [] + Texts(listed, lang, words) == Texts(listed, lang, words) && listed + [] == listed;
    if !device && |tags| < 5 {
      tags := AddLabels(tags, Texts(listed, lang, words), [DifficultyTag(d)], lang, words);
      TextsOfMore(listed, DifficultyTag(d), lang, words);
      assert Texts([DifficultyTag(d)], lang, words) == [words(DifficultyTag(d), lang)];
    }
    tags := Take(tags, 12);
  }

  method DisplayTags(m: Metadata, lang: Lang, words: Labels) returns (tags: seq<string>)
    ensures tags == Display(m, lang, words)
  {
    tags := DisplayListed(Listed(m), m.device, m.difficulty, lang, words);
  }

  // ---- no tag is listed twice ----

  /** What metadata looks like once it is derived or taken from a device program. */
  predicate Shaped(m: Metadata) {
    && Distinct(m.flavor) && Distinct(m.cooking) && Distinct(m.ingredient) && Distinct(m.nutrition)
    && Distinct(m.scene) && Distinct(m.diet) && |m.meal| == 1 && |m.cuisine| <= 1
    && 1 <= |m.cooking| <= 2 && 1 <= |m.ingredient| <= 2 && |m.scene| <= 4 && |m.nutrition| <= 5
    && (m.device ==> m.scene != [] && m.estimate.None?)
    && (!m.device ==> 1 <= |m.flavor| <= 2 && m.estimate.Some?)
  }

  function Rank(t: Tag): nat {
    match t
    case DeviceTag => 0
    case CuisineTag(_) => 1
    case FlavorTag(_) => 2
    case MethodTag(_) => 3
    case IngredientTag(_) => 4
    case MealTag(_) => 5
    case NutritionTag(_) => 6
    case SceneTag(_) => 7
    case DietTag(_) => 8
    case DifficultyTag(_) => 9
  }

  predicate Below(s: seq<Tag>, rank: nat) {
    Distinct(s) && forall t :: t in s ==> Rank(t) < rank
  }

  /** Adding one more dimension keeps the tags distinct. */
  lemma AddDimension<T(!new)>(s: seq<Tag>, codes: seq<T>, f: T -> Tag, rank: nat)
    requires Below(s, rank) && Distinct(codes)
    requires forall c :: Rank(f(c)) == rank
    requires forall c, d :: f(c) == f(d) ==> c == d
    ensures Below(s + Map(codes, f), rank + 1)
  {
    var all := s + Map(codes, f);
    forall i, j | 0 <= i < j < |all| ensures all[i] != all[j] {
      if j < |s| {
      } else if i < |s| {
        assert s[i] in s && all[j] == f(codes[j - |s|]);
      } else {
        assert all[i] == f(codes[i - |s|]) && all[j] == f(codes[j - |s|]);
      }
    }
  }

  predicate Rising(s: seq<Tag>) {
    forall j, k :: 0 <= j < k < |s| ==> Rank(s[j]) <= Rank(s[k])
  }

  lemma AddRising<T>(s: seq<Tag>, codes: seq<T>, f: T -> Tag, rank: nat)
    requires RisesTo(s, rank) && forall c :: Rank(f(c)) == rank
    ensures RisesTo(s + Map(codes, f), rank + 1)
  {
    var all := s + Map(codes, f);
    forall k | 0 <= k < |all| ensures Rank(all[k]) <= rank && (k >= |s| ==> Rank(all[k]) == rank) {
      if k >= |s| { assert all[k] == f(codes[k - |s|]); } else { assert s[k] in s; }
    }
  }

  function CoreFront(m: Metadata): seq<Tag> {
    Map(m.cuisine, c => CuisineTag(c)) + Map(m.flavor, c => FlavorTag(c)) + Map(m.cooking, c => MethodTag(c))
  }

  predicate RisesTo(s: seq<Tag>, rank: nat) {
    Rising(s) && forall t :: t in s ==> Rank(t) < rank
  }

  lemma FlavorsInOrder(m: Metadata)
    ensures RisesTo(Map(m.cuisine, c => CuisineTag(c)) + Map(m.flavor, c => FlavorTag(c)), 3)
  {
    var s1 := Map(m.cuisine, c => CuisineTag(c));
    forall k | 0 <= k < |s1| ensures s1[k].CuisineTag? {
    }
    AddRising(s1, m.flavor, c => FlavorTag(c), 2);
  }

  lemma FrontInOrder(m: Metadata)
    ensures RisesTo(CoreFront(m), 4)
  {
    FlavorsInOrder(m);
    AddRising(Map(m.cuisine, c => CuisineTag(c)) + Map(m.flavor, c => FlavorTag(c)), m.cooking, c => MethodTag(c), 3);
  }

  lemma CoreInOrder(m: Metadata)
    ensures RisesTo(Core(m), 6)
  {
    var s3 := CoreFront(m);
    FrontInOrder(m);
    AddRising(s3, m.ingredient, c => IngredientTag(c), 4);
    AddRising(s3 + Map(m.ingredient, c => IngredientTag(c)), m.meal, c => MealTag(c), 5);
  }

  /** The dimensions come in this order: cuisine, flavor, method, ingredient, meal, nutrition, scene, diet. */
  lemma ListedInOrder(m: Metadata)
    requires !m.device
    ensures Rising(Listed(m))
  {
    var s6 := Core(m) + Map(m.nutrition, c => NutritionTag(c));
    CoreInOrder(m);
    AddRising(Core(m), m.nutrition, c => NutritionTag(c), 6);
    AddRising(s6, m.scene, c => SceneTag(c), 7);
    AddRising(s6 + Map(m.scene, c => SceneTag(c)), m.diet, c => DietTag(c), 8);
  }

  lemma CoreDistinct(m: Metadata)
    requires Shaped(m)
    ensures Below(Core(m), 6)
  {
    var s1 := Map(m.cuisine, c => CuisineTag(c));
    var s2 := s1 + Map(m.flavor, c => FlavorTag(c));
    var s3 := s2 + Map(m.cooking, c => MethodTag(c));
    var s4 := s3 + Map(m.ingredient, c => IngredientTag(c));
    AddDimension([], m.cuisine, c => CuisineTag(c), 1);
    assert [] + s1 == s1;
    AddDimension(s1, m.flavor, c => FlavorTag(c), 2);
    AddDimension(s2, m.cooking, c => MethodTag(c), 3);
    AddDimension(s3, m.ingredient, c => IngredientTag(c), 4);
    AddDimension(s4, m.meal, c => MealTag(c), 5);
  }

  lemma ListedDistinct(m: Metadata)
    requires Shaped(m) && !m.device
    ensures Below(Listed(m), 9)
  {
    var s6 := Core(m) + Map(m.nutrition, c => NutritionTag(c));
    var s7 := s6 + Map(m.scene, c => SceneTag(c));
    CoreDistinct(m);
    AddDimension(Core(m), m.nutrition, c => NutritionTag(c), 6);
    AddDimension(s6, m.scene, c => SceneTag(c), 7);
    AddDimension(s7, m.diet, c => DietTag(c), 8);
  }

  lemma ListedDeviceDistinct(m: Metadata)
    requires Shaped(m) && m.device
    ensures Below(Listed(m), 10)
  {
    var s3 := [DeviceTag] + Map(m.cooking, c => MethodTag(c));
    var s4 := s3 + Map(m.ingredient, c => IngredientTag(c));
    var s5 := s4 + Map(m.meal, c => MealTag(c));
    var s7 := s5 + Map(m.scene, c => SceneTag(c));
    AddDimension([DeviceTag], m.cooking, c => MethodTag(c), 3);
    AddDimension(s3, m.ingredient, c => IngredientTag(c), 4);
    AddDimension(s4, m.meal, c => MealTag(c), 5);
    AddDimension(s5, m.scene, c => SceneTag(c), 7);
    AddDimension(s7, [m.difficulty], c => DifficultyTag(c), 9);
    assert Map([m.difficulty], c => DifficultyTag(c)) == [DifficultyTag(m.difficulty)];
  }

  lemma {:induction false} UniqueKeepsDistinct(texts: seq<string>)
    requires Distinct(texts)
    ensures Unique(texts) == texts
  {
    if texts != [] {
      var init := texts[..|texts| - 1];
      UniqueKeepsDistinct(init);
      assert forall k :: 0 <= k < |init| ==> init[k] != texts[|texts| - 1];
      assert texts == init + [texts[|texts| - 1]];
    }
  }

  /** Distinct tags all show, in order. */
  lemma ShownIsTexts(tags: seq<Tag>, lang: Lang, words: Labels)
    requires Vocabulary(words) && Distinct(tags)
    ensures Shown(tags, lang, words) == Texts(tags, lang, words) && Distinct(Texts(tags, lang, words))
  {
    var texts := Texts(tags, lang, words);
    forall i, j | 0 <= i < j < |texts| ensures texts[i] != texts[j] {
      assert tags[i] != tags[j];
    }
    UniqueKeepsDistinct(texts);
  }

  // ---- which tags are shown ----

  /** All candidate tags: the listed ones, and the difficulty of a recipe that has fewer than five. */
  function Candidates(m: Metadata): seq<Tag> {
    Listed(m) + if !m.device && |Listed(m)| < 5 then [DifficultyTag(m.difficulty)] else []
  }

  lemma CandidatesDistinct(m: Metadata)
    requires Shaped(m)
    ensures Distinct(Listed(m)) && Distinct(Candidates(m))
  {
    if m.device {
      ListedDeviceDistinct(m);
    } else {
      ListedDistinct(m);
      AddDimension(Listed(m), [m.difficulty], c => DifficultyTag(c), 9);
      assert Map([m.difficulty], c => DifficultyTag(c)) == [DifficultyTag(m.difficulty)];
    }
    assert Listed(m) + [] == Listed(m);
  }

  lemma DisplayIsPrefix(m: Metadata, lang: Lang, words: Labels)
    requires Vocabulary(words) && Shaped(m)
    ensures Display(m, lang, words) == Take(Texts(Candidates(m), lang, words), 12)
  {
    CandidatesDistinct(m);
    ShownIsTexts(Listed(m), lang, words);
    ShownIsTexts(Candidates(m), lang, words);
  }

  lemma PlaceInPrefix(texts: seq<string>, n: nat, k: nat)
    requires Distinct(texts) && k < |texts|
    ensures texts[k] in Take(texts, n) <==> k < n
  {
    var shown := Take(texts, n);
    if k < n {
      assert shown[k] == texts[k];
    }
    if texts[k] in shown {
      var j :| 0 <= j < |shown| && shown[j] == texts[k];
      assert texts[j] == texts[k];
    }
  }

  /** A candidate is shown exactly when it is among the first twelve. */
  lemma ShownIff(m: Metadata, lang: Lang, words: Labels, k: nat)
    requires Vocabulary(words) && Shaped(m) && k < |Candidates(m)|
    ensures words(Candidates(m)[k], lang) in Display(m, lang, words) <==> k < 12
  {
    DisplayIsPrefix(m, lang, words);
    CandidatesDistinct(m);
    ShownIsTexts(Candidates(m), lang, words);
    PlaceInPrefix(Texts(Candidates(m), lang, words), 12, k);
  }

  lemma CandidatesFit(m: Metadata)
    requires Shaped(m)
    ensures 5 <= |Candidates(m)|
  {
  }

  /** Between five and twelve tags, all different. */
  lemma TagsFit(m: Metadata, lang: Lang, words: Labels)
    requires Vocabulary(words) && Shaped(m)
    ensures 5 <= |Display(m, lang, words)| <= 12 && Distinct(Display(m, lang, words))
  {
    DisplayIsPrefix(m, lang, words);
    CandidatesDistinct(m);
    CandidatesFit(m);
    ShownIsTexts(Candidates(m), lang, words);
    TakeDistinct(Texts(Candidates(m), lang, words), 12);
  }

  lemma FirstTextsAreGood(tags: seq<Tag>, n: nat, lang: Lang, words: Labels)
    requires Vocabulary(words)
    ensures forall s :: s in Take(Texts(tags, lang, words), n) ==> GoodLabel(s, lang)
  {
    var texts := Texts(tags, lang, words);
    forall s | s in Take(texts, n) ensures GoodLabel(s, lang) {
      var k :| 0 <= k < |texts| && texts[k] == s;
      assert GoodLabel(words(tags[k], lang), lang);
    }
  }

  /** Every tag shown is a good label of its language. */
  lemma TagsAreGoodLabels(m: Metadata, lang: Lang, words: Labels)
    requires Vocabulary(words) && Shaped(m)
    ensures forall s :: s in Display(m, lang, words) ==> GoodLabel(s, lang)
  {
    DisplayIsPrefix(m, lang, words);
    FirstTextsAreGood(Candidates(m), 12, lang, words);
  }

  /** Cuisine, flavor, method, ingredient and meal of a recipe always show. */
  lemma CoreSurvives(m: Metadata, lang: Lang, words: Labels, t: Tag)
    requires Vocabulary(words) && Shaped(m) && !m.device && t in Core(m)
    ensures words(t, lang) in Display(m, lang, words)
  {
    var k :| 0 <= k < |Core(m)| && Core(m)[k] == t;
    assert Candidates(m)[k] == t;
    ShownIff(m, lang, words, k);
  }

  lemma CoreIsSmall(m: Metadata)
    requires Shaped(m) && !m.device
    ensures |Core(m)| <= 8
  {
  }

  lemma NutritionPlace(m: Metadata, k: nat)
    requires Shaped(m) && !m.device && k < |m.nutrition|
    ensures |Core(m)| + k < |Candidates(m)| && Candidates(m)[|Core(m)| + k] == NutritionTag(m.nutrition[k])
  {
  }

  /** Of the nutrition labels only the fifth can be cut, and only behind eight core tags. */
  lemma NutritionSurvivesIff(m: Metadata, lang: Lang, words: Labels, k: nat)
    requires Vocabulary(words) && Shaped(m) && !m.device && k < |m.nutrition|
    ensures words(NutritionTag(m.nutrition[k]), lang) in Display(m, lang, words) <==> !(k == 4 && |Core(m)| == 8)
  {
    CoreIsSmall(m);
    NutritionPlace(m, k);
    ShownIff(m, lang, words, |Core(m)| + k);
    assert |Core(m)| + k < 12 <==> !(k == 4 && |Core(m)| == 8);
  }

  /** Every tag of a device program shows. */
  lemma DeviceTagsSurvive(m: Metadata, lang: Lang, words: Labels, t: Tag)
    requires Vocabulary(words) && Shaped(m) && m.device && t in Listed(m)
    ensures words(t, lang) in Display(m, lang, words)
  {
    var k :| 0 <= k < |Listed(m)| && Listed(m)[k] == t;
    assert Candidates(m)[k] == t;
    ShownIff(m, lang, words, k);
  }

  // ---- what the pipeline produces is well shaped ----

  lemma TakeDistinct<T>(s: seq<T>, n: nat)
    requires Distinct(s)
    ensures Distinct(Take(s, n))
  {
  }

  lemma NutritionDistinct(e: Estimate, cooking: seq<Method>)
    ensures Distinct(NutritionCodes(e, cooking)) && |NutritionCodes(e, cooking)| <= 5
  {
    var s1 := Push([], NutritionRule(HighProtein, e, cooking), HighProtein);
    var s2 := Push(s1, NutritionRule(LowFat, e, cooking), LowFat);
    var s3 := Push(s2, NutritionRule(LowCalorie, e, cooking), LowCalorie);
    var s4 := Push(s3, NutritionRule(HighFiber, e, cooking), HighFiber);
    PushDistinct(s1, NutritionRule(LowFat, e, cooking), LowFat);
    PushDistinct(s2, NutritionRule(LowCalorie, e, cooking), LowCalorie);
    PushDistinct(s3, NutritionRule(HighFiber, e, cooking), HighFiber);
    PushDistinct(s4, NutritionRule(LowCarb, e, cooking), LowCarb);
  }

  lemma DerivedIsShaped(source: Source, m: ModelData)
    requires Accepted(m)
    ensures Shaped(Derive(source, m))
  {
    NutritionDistinct(m.estimate, m.cooking);
    FilterDistinct(m.scene, c => KeptScene(c, m, source));
    DerivedDistinct(GivenScenes(m, source), m, source);
    TakeDistinct(AllScenes(m, source), 4);
    AtMostTwoDiets(m.diet, source);
  }

  /** All eight places before the nutrition codes are taken. */
  predicate FullCore(m: ModelData) {
    |m.cuisine| == 1 && |m.flavor| == 2 && |m.cooking| == 2 && |m.ingredient| == 2
  }

  predicate AllNutritionRules(m: ModelData) {
    forall c: Nutrition :: NutritionRule(c, m.estimate, m.cooking)
  }

  lemma NutritionPlaces(e: Estimate, cooking: seq<Method>)
    ensures var codes := NutritionCodes(e, cooking);
            && (|codes| == 5 <==> forall c: Nutrition :: NutritionRule(c, e, cooking))
            && (|codes| == 5 ==> codes == [HighProtein, LowFat, LowCalorie, HighFiber, LowCarb])
  {
  }

  lemma LastOfFive(m: ModelData, source: Source, k: nat)
    requires k < |Derive(source, m).nutrition|
    ensures k == 4 <==> Derive(source, m).nutrition[k] == LowCarb && AllNutritionRules(m)
  {
    NutritionPlaces(m.estimate, m.cooking);
    NutritionDistinct(m.estimate, m.cooking);
  }

  /** The label of a nutrition code shows exactly when its rule holds, but low-carb gives way to twelve earlier tags. */
  lemma NutritionLabels(source: Source, m: ModelData, lang: Lang, words: Labels, c: Nutrition)
    requires Vocabulary(words) && Accepted(m) && NutritionRule(c, m.estimate, m.cooking)
    ensures words(NutritionTag(c), lang) in Display(Derive(source, m), lang, words)
       <==> !(c == LowCarb && FullCore(m) && AllNutritionRules(m))
  {
    var shown := Derive(source, m);
    DerivedIsShaped(source, m);
    NutritionIsExact(source, m, c);
    var k :| 0 <= k < |shown.nutrition| && shown.nutrition[k] == c;
    NutritionSurvivesIff(shown, lang, words, k);
    LastOfFive(m, source, k);
    CoreSize(m, source);
  }

  lemma CoreSize(m: ModelData, source: Source)
    requires Accepted(m)
    ensures |Core(Derive(source, m))| == 8 <==> FullCore(m)
  {
    assert |Core(Derive(source, m))| == |m.cuisine| + |m.flavor| + |m.cooking| + |m.ingredient| + |m.meal|;
  }

  predicate SmallProgram(p: Option<Program>) {
    p.Some? ==> 1 <= |p.value.ingredient| <= 2 && Distinct(p.value.ingredient) && |p.value.scene| == 1
  }

  lemma FirstProgramsAreSmall(id: string)
    ensures SmallProgram(FirstProgramOf(id))
  {
  }

  lemma SecondProgramsAreSmall(id: string)
    ensures SmallProgram(SecondProgramOf(id))
  {
  }

  lemma DeviceIsShaped(id: string, source: Source)
    ensures var m := DeviceMetadata(id, source); m.Some? ==> m.value.device && Shaped(m.value)
  {
    FirstProgramsAreSmall(id);
    SecondProgramsAreSmall(id);
    var program := DeviceProgramOf(id);
    if program.Some? {
      var scenes := Push(program.value.scene, QuickRule(source), Quick);
      var raw: seq<Option<Scene>> := Map(scenes, s => Some(s));
      assert raw[0] == Some(scenes[0]);
      assert scenes[0] in Recognised(raw);
    }
  }

  /** The metadata of a device program is its own, and quick exactly by the numbers of the record. */
  lemma DeviceTakesProgram(id: string, source: Source)
    ensures var m, program := DeviceMetadata(id, source), DeviceProgramOf(id);
      && (m.Some? <==> program.Some?)
      && (m.Some? ==>
            && m.value.device && m.value.cooking == [program.value.cooking]
            && m.value.ingredient == program.value.ingredient
            && m.value.meal == [KitchenProgram] && m.value.difficulty == source.difficulty && m.value.estimate.None?
            && m.value.cuisine == [] && m.value.flavor == [] && m.value.nutrition == [] && m.value.diet == [])
  {
    FirstProgramsAreSmall(id);
    SecondProgramsAreSmall(id);
  }

  lemma DeviceScenes(id: string, source: Source)
    requires DeviceProgramOf(id).Some?
    ensures var scenes, own := DeviceMetadata(id, source).value.scene, DeviceProgramOf(id).value.scene;
            |own| == 1 && scenes == if own[0] != Quick && QuickRule(source) then own + [Quick] else own
  {
    FirstProgramsAreSmall(id);
    SecondProgramsAreSmall(id);
    OwnAndQuick(DeviceProgramOf(id).value.scene, QuickRule(source));
  }

  lemma OwnAndQuick(own: seq<Scene>, quick: bool)
    requires |own| == 1
    ensures Take(Recognised(Map(Push(own, quick, Quick), (s: Scene) => Some(s))), 2)
         == if own[0] != Quick && quick then own + [Quick] else own
  {
    var scenes := if quick then [own[0], Quick] else [own[0]];
    assert Push(own, quick, Quick) == scenes;
    SomeOfEach(scenes);
    OneRecognised(own[0]);
    TwoRecognised(own[0], Quick);
  }

  lemma SomeOfEach(scenes: seq<Scene>)
    ensures |scenes| == 1 ==> Map(scenes, (s: Scene) => Some(s)) == [Some(scenes[0])]
    ensures |scenes| == 2 ==> Map(scenes, (s: Scene) => Some(s)) == [Some(scenes[0]), Some(scenes[1])]
  {
  }

  lemma OneRecognised(a: Scene)
    ensures Recognised([Some(a)]) == [a]
  {
    assert [Some(a)][..0] == [];
  }

  lemma TwoRecognised(a: Scene, b: Scene)
    ensures Recognised([Some(a), Some(b)]) == if a == b then [a] else [a, b]
  {
    OneRecognised(a);
    assert [Some(a), Some(b)][..1] == [Some(a)];
  }

  // ---- writing the sheet and checking it ----

  datatype Entry = Entry(id: string, lang: Lang)

  datatype Nutrient = CalorieKcal | ProteinG | FatG | CarbohydrateG | FiberG

  /** What the nutrition cell spells: a basis and some of the nutrients. */
  datatype NutritionCell = NutritionCell(basis: string, values: map<Nutrient, int>)

  /** The cells of one row; of the two JSON cells what they spell, or `None` for text that is no JSON. */
  datatype Row = Row(
    lang: Lang, tags: string, canonical: Option<Metadata>, nutrition: Option<NutritionCell>, difficulty: string)

  datatype RowError =
    | TagCount | ZhHasLatin | EnHasCjk | InvalidJson | NutritionBasis | NutritionFields | CanonicalRequired
    | DifficultyLanguage

  function NutritionOf(estimate: Option<Estimate>): NutritionCell {
    match estimate
    case None => NutritionCell("not_applicable", map[])
    case Some(e) =>
      NutritionCell("per_100g_estimated",
                    map[CalorieKcal := e.calorie, ProteinG := e.protein, FatG := e.fat, CarbohydrateG := e.carbs,
                        FiberG := e.fiber])
  }

  /** The cells written for a recipe that shows these tags. */
  function RowWith(tags: seq<string>, m: Metadata, lang: Lang, words: Labels): Row {
    Row(lang, Join(tags, [SEPARATOR]), Some(m), Some(NutritionOf(m.estimate)), words(DifficultyTag(m.difficulty), lang))
  }

  function WriteRow(m: Metadata, lang: Lang, words: Labels): Option<Row> {
    var tags := Display(m, lang, words);
    if 5 <= |tags| <= 12 then Some(RowWith(tags, m, lang, words)) else None
  }

  /** The row of an entry; `None` without metadata or with a wrong number of tags. */
  function RowFor(e: Entry, generated: map<Entry, Metadata>, words: Labels): Option<Row> {
    if e in generated then WriteRow(generated[e], e.lang, words) else None
  }

  method WriteEntry(e: Entry, generated: map<Entry, Metadata>, words: Labels) returns (row: Option<Row>)
    ensures row == RowFor(e, generated, words)
  {
    if e !in generated { return None; }
    var m := generated[e];
    var tags := DisplayTags(m, e.lang, words);
    if !(5 <= |tags| <= 12) { return None; }
    return Some(RowWith(tags, m, e.lang, words));
  }

  function Writer(generated: map<Entry, Metadata>, words: Labels): Entry -> Option<Row> {
    e => RowFor(e, generated, words)
  }

  /** `write_workbook`: fails as soon as one entry has no row. */
  method WriteSheet(entries: seq<Entry>, generated: map<Entry, Metadata>, words: Labels)
    returns (sheet: Option<seq<Row>>)
    ensures sheet == Collect(entries, Writer(generated, words))
  {
    ghost var rowFor := Writer(generated, words);
    var rows: seq<Row> := [];
    for n := 0 to |entries|
      invariant Collect(entries[..n], rowFor) == Some(rows)
    {
      var row := WriteEntry(entries[n], generated, words);
      CollectNext(entries, n, rowFor);
      if row.None? {
        CollectStops(entries, n + 1, rowFor);
        return None;
      }
      rows := rows + [row.value];
    }
    assert entries[..|entries|] == entries;
    return Some(rows);
  }

  function TagsOfCell(cell: string): seq<string> {
    NonEmpty(Split(Clean(cell), SEPARATOR))
  }

  function TagErrors(row: Row): set<RowError> {
    var tags := TagsOfCell(row.tags);
    (if 5 <= |tags| <= 12 then {} else {TagCount})
    + (if row.lang.Zh? && (exists t, c :: t in tags && c in t && Latin(c)) then {ZhHasLatin} else {})
    + (if row.lang.En? && (exists t, c :: t in tags && c in t && Cjk(c)) then {EnHasCjk} else {})
  }

  function ValueErrors(canonical: Metadata, nutrition: NutritionCell): set<RowError> {
    (if nutrition.basis == (if canonical.device then "not_applicable" else "per_100g_estimated") then {}
     else {NutritionBasis})
    + (if !canonical.device && (exists key: Nutrient :: key !in nutrition.values) then {NutritionFields} else {})
    + (if canonical.cooking == [] || (!canonical.device && canonical.flavor == []) then {CanonicalRequired} else {})
  }

  /** What is found in one row; after a JSON cell that does not parse its other cells are not looked at. */
  function RowErrors(row: Row, words: Labels): set<RowError> {
    TagErrors(row)
    + if row.canonical.None? || row.nutrition.None? then {InvalidJson}
      else
        ValueErrors(row.canonical.value, row.nutrition.value)
        + if exists d: Difficulty :: Clean(row.difficulty) == words(DifficultyTag(d), row.lang) then {}
          else {DifficultyLanguage}
  }

  /** What each finding means. */
  lemma TagFindingsAreExact(row: Row)
    ensures var found, tags := TagErrors(row), TagsOfCell(row.tags);
      && (TagCount in found <==> |tags| < 5 || |tags| > 12)
      && (ZhHasLatin in found <==>
            row.lang.Zh? && exists t, c :: t in tags && c in t && ('A' <= c <= 'Z' || 'a' <= c <= 'z'))
      && (EnHasCjk in found <==> row.lang.En? && exists t, c :: t in tags && c in t && 0x4E00 <= c as int <= 0x9FFF)
      && found <= {TagCount, ZhHasLatin, EnHasCjk}
  {
  }

  lemma ValueFindingsAreExact(m: Metadata, cell: NutritionCell)
    ensures var found := ValueErrors(m, cell);
      && (NutritionBasis in found <==>
            if m.device then cell.basis != "not_applicable" else cell.basis != "per_100g_estimated")
      && (NutritionFields in found <==>
            !m.device && !({CalorieKcal, ProteinG, FatG, CarbohydrateG, FiberG} <= cell.values.Keys))
      && (CanonicalRequired in found <==> m.cooking == [] || (!m.device && m.flavor == []))
      && found <= {NutritionBasis, NutritionFields, CanonicalRequired}
  {
    if {CalorieKcal, ProteinG, FatG, CarbohydrateG, FiberG} <= cell.values.Keys {
      forall key: Nutrient ensures key in cell.values {
        match key
        case CalorieKcal =>
        case ProteinG =>
        case FatG =>
        case CarbohydrateG =>
        case FiberG =>
      }
    }
  }

  lemma ThreeDifficulties(d: Difficulty)
    ensures d == Easy || d == Moderate || d == Advanced
  {
  }

  /** The difficulty cell is one of the three labels of its language. */
  lemma DifficultyFindingIsExact(row: Row, words: Labels)
    ensures (exists d: Difficulty :: Clean(row.difficulty) == words(DifficultyTag(d), row.lang)) <==>
            Clean(row.difficulty) in {words(DifficultyTag(Easy), row.lang), words(DifficultyTag(Moderate), row.lang),
                                      words(DifficultyTag(Advanced), row.lang)}
  {
    if d: Difficulty :| Clean(row.difficulty) == words(DifficultyTag(d), row.lang) {
      ThreeDifficulties(d);
    }
  }

  /** All findings of a row: on its tags always, on the rest only if both JSON cells can be read. */
  lemma FindingsAreExact(row: Row, words: Labels)
    requires row.canonical.Some? && row.nutrition.Some?
    ensures RowErrors(row, words) == TagErrors(row) + ValueErrors(row.canonical.value, row.nutrition.value)
              + if exists d: Difficulty :: Clean(row.difficulty) == words(DifficultyTag(d), row.lang) then {}
                else {DifficultyLanguage}
  {
  }

  lemma UnreadableIsFound(row: Row, words: Labels)
    requires row.canonical.None? || row.nutrition.None?
    ensures RowErrors(row, words) == TagErrors(row) + {InvalidJson}
  {
  }

  /** `validate_output`: gives up after a hundred findings, which cannot hide that there are any. */
  method ValidateSheet(rows: seq<Row>, errorsOf: Row -> set<RowError>) returns (ok: bool)
    ensures ok <==> forall k :: 0 <= k < |rows| ==> errorsOf(rows[k]) == {}
  {
    var found: nat := 0;
    for n := 0 to |rows|
      invariant found == 0 ==> forall k :: 0 <= k < n ==> errorsOf(rows[k]) == {}
      invariant found > 0 ==> exists k :: 0 <= k < n && errorsOf(rows[k]) != {}
    {
      var errors := errorsOf(rows[n]);
      assert errors == {} || |errors| >= 1;
      found := found + |errors|;
      if found >= 100 { return false; }
    }
    return found == 0;
  }

  /** Writing a sheet and checking it, as `run` does last. */
  method Finish(entries: seq<Entry>, generated: map<Entry, Metadata>, words: Labels) returns (ok: bool)
    ensures ok <==> forall k :: 0 <= k < |entries| ==> EntryIsClean(entries[k], generated, words)
  {
    var sheet := WriteSheet(entries, generated, words);
    CollectIs(entries, Writer(generated, words));
    if sheet.None? {
      return false;
    }
    ok := ValidateSheet(sheet.value, row => RowErrors(row, words));
  }

  predicate EntryIsClean(e: Entry, generated: map<Entry, Metadata>, words: Labels) {
    var row := RowFor(e, generated, words);
    row.Some? && RowErrors(row.value, words) == {}
  }

  predicate RowIsClean(m: Metadata, lang: Lang, words: Labels) {
    var row := WriteRow(m, lang, words);
    row.Some? && RowErrors(row.value, words) == {}
  }

  /** The checks of a row whose tag cell reads as good labels. */
  lemma GoodTagsPass(row: Row, tags: seq<string>)
    requires TagsOfCell(row.tags) == tags && 5 <= |tags| <= 12 && forall s :: s in tags ==> GoodLabel(s, row.lang)
    ensures TagErrors(row) == {}
  {
  }

  lemma GoodValuesPass(m: Metadata)
    requires (m.device <==> m.estimate.None?) && m.cooking != [] && (!m.device ==> m.flavor != [])
    ensures ValueErrors(m, NutritionOf(m.estimate)) == {}
  {
    if !m.device {
      forall key: Nutrient ensures key in NutritionOf(m.estimate).values {
        match key
        case CalorieKcal =>
        case ProteinG =>
        case FatG =>
        case CarbohydrateG =>
        case FiberG =>
      }
    }
  }

  lemma RowWithPasses(tags: seq<string>, m: Metadata, lang: Lang, words: Labels)
    requires Vocabulary(words) && Shaped(m) && 5 <= |tags| <= 12 && forall s :: s in tags ==> GoodLabel(s, lang)
    ensures TagsOfCell(RowWith(tags, m, lang, words).tags) == tags
    ensures RowErrors(RowWith(tags, m, lang, words), words) == {}
  {
    CellRoundTrip(tags, SEPARATOR);
    CleanKeepsExactlyNeat(words(DifficultyTag(m.difficulty), lang));
    GoodTagsPass(RowWith(tags, m, lang, words), tags);
    GoodValuesPass(m);
  }

  lemma WrittenRow(m: Metadata, lang: Lang, words: Labels)
    requires 5 <= |Display(m, lang, words)| <= 12
    ensures WriteRow(m, lang, words) == Some(RowWith(Display(m, lang, words), m, lang, words))
  {
  }

  /** A row of shaped metadata is written, reads back as the tags it shows and passes every check. */
  lemma WrittenRowsAreValid(m: Metadata, lang: Lang, words: Labels)
    requires Vocabulary(words) && Shaped(m)
    ensures RowIsClean(m, lang, words)
    ensures TagsOfCell(WriteRow(m, lang, words).value.tags) == Display(m, lang, words)
  {
    TagsFit(m, lang, words);
    WrittenRow(m, lang, words);
    TagsAreGoodLabels(m, lang, words);
    RowWithPasses(Display(m, lang, words), m, lang, words);
  }

  /** Where the metadata in the cache comes from. */
  predicate FromPipeline(e: Entry, m: Metadata, source: Source, item: ModelData) {
    Some(m) == DeviceMetadata(e.id, source)
    || (Accepted(item) && exists d :: m == Derive(source, item).(difficulty := d))
  }

  /** The finished sheet of a complete cache is written and passes its own check. */
  lemma PipelineIsClean(
    entries: seq<Entry>, generated: map<Entry, Metadata>, words: Labels,
    source: map<Entry, Source>, item: map<Entry, ModelData>)
    requires Vocabulary(words)
    requires forall e :: e in entries ==>
               e in generated && e in source && e in item && FromPipeline(e, generated[e], source[e], item[e])
    ensures forall e :: e in entries ==> RowIsClean(generated[e], e.lang, words)
  {
    forall e | e in entries ensures RowIsClean(generated[e], e.lang, words) {
      DeviceIsShaped(e.id, source[e]);
      if Accepted(item[e]) { DerivedIsShaped(source[e], item[e]); }
      WrittenRowsAreValid(generated[e], e.lang, words);
    }
  }
}
