/**
 * Repairing the ingredient lists of stored recipes (scripts/repair_milvus_recipe_ingredients.py):
 * plan, quantity fallbacks of the model, merge with deduplication, validation.
 *
 * `Text` carries the two string operations of the standard library the code leans on; every
 * result holds for any case folding and any trimming.
 */
module IngredientRepair {
  import opened Options

  datatype Text = Text(fold: string -> string, strip: string -> string)

  /** `amount`: missing or empty or the number 0, the text "0", or anything else as its text. */
  datatype Amount = NoAmount | ZeroText | Amount(text: string)

  datatype Item =
    | NotAnObject
    | Item(name: string, amount: Amount, unit: string, fallbackFor: Option<string>,
           quantitySource: string, sourceText: string)

  /** What `parse_grounded_ingredient` makes of one source line. */
  datatype Parsed = Grounded(item: Item) | Missing(name: string) | Nothing

  datatype Entry = Source(item: Item) | Fallback(name: string, sourceText: string)

  datatype Key = Key(name: string, amount: string, unit: string)

  function AmountText(a: Amount): string {
    match a
    case NoAmount => ""
    case ZeroText => "0"
    case Amount(text) => text
  }

  function KeyOf(t: Text, item: Item): Key
    requires item.Item?
  {
    Key(t.fold(item.name), AmountText(item.amount), t.fold(item.unit))
  }

  /** Two items are taken for the same exactly if name and unit agree up to case and the amounts as text. */
  lemma KeysAgreeIff(t: Text, a: Item, b: Item)
    requires a.Item? && b.Item?
    ensures KeyOf(t, a) == KeyOf(t, b) <==>
              && t.fold(a.name) == t.fold(b.name) && t.fold(a.unit) == t.fold(b.unit)
              && (a.amount == b.amount
                  || (a.amount == NoAmount && b.amount == Amount(""))
                  || (a.amount == Amount("") && b.amount == NoAmount)
                  || (a.amount == ZeroText && b.amount == Amount("0"))
                  || (a.amount == Amount("0") && b.amount == ZeroText))
  {
    assert "" != "0" by { assert |""| != |"0"|; }
  }

  /** An item with a name, a unit and a usable amount. */
  predicate WellFormed(t: Text, item: Item) {
    item.Item? && t.strip(item.name) != "" && item.amount.Amount? && t.strip(item.unit) != ""
  }

  // ---- the plan ----

  function PlanEntry(parse: string -> Parsed, raw: string): seq<Entry> {
    match parse(raw)
    case Grounded(item) => [Source(item)]
    case Missing(name) => if name != "" then [Fallback(name, raw)] else []
    case Nothing => []
  }

  function Plan(parse: string -> Parsed, parts: seq<string>): seq<Entry> {
    if parts == [] then [] else Plan(parse, parts[..|parts| - 1]) + PlanEntry(parse, parts[|parts| - 1])
  }

  function MissingNames(plan: seq<Entry>): set<string> {
    set e | e in plan && e.Fallback? :: e.name
  }

  predicate FoldedIn(t: Text, name: string, names: seq<string>) {
    exists other :: other in names && t.fold(other) == t.fold(name)
  }

  /** The names to ask the model for: the first spelling of each folded missing name. */
  function Unresolved(t: Text, parse: string -> Parsed, parts: seq<string>): seq<string> {
    if parts == [] then []
    else
      var before := Unresolved(t, parse, parts[..|parts| - 1]);
      match parse(parts[|parts| - 1])
      case Missing(name) => if name != "" && !FoldedIn(t, name, before) then before + [name] else before
      case _ => before
  }

  /** `_ingredient_plan`; nothing parsed is an error. */
  method IngredientPlan(t: Text, parse: string -> Parsed, parts: seq<string>)
    returns (r: Option<(seq<Entry>, seq<string>)>)
    ensures r.None? <==> Plan(parse, parts) == []
    ensures r.Some? ==> r.value == (Plan(parse, parts), Unresolved(t, parse, parts))
  {
    var ordered, unresolved := [], [];
    var seenMissing := {};
    for n := 0 to |parts|
      invariant ordered == Plan(parse, parts[..n])
      invariant unresolved == Unresolved(t, parse, parts[..n])
      invariant seenMissing == set name | name in unresolved :: t.fold(name)
    {
      assert parts[..n + 1][..n] == parts[..n];
      match parse(parts[n])
      case Grounded(item) => ordered := ordered + [Source(item)];
      case Missing(name) =>
        if name != "" {
          if t.fold(name) !in seenMissing {
            seenMissing := seenMissing + {t.fold(name)};
            unresolved := unresolved + [name];
          }
          ordered := ordered + [Fallback(name, parts[n])];
        }
      case Nothing =>
    }
    assert parts[..|parts|] == parts;
    return if ordered == [] then None else Some((ordered, unresolved));
  }

  /** The missing name of one source line, if it has one. */
  function MissingOf(parse: string -> Parsed, raw: string): set<string> {
    match parse(raw)
    case Missing(name) => if name != "" then {name} else {}
    case _ => {}
  }

  lemma MissingStep(parse: string -> Parsed, parts: seq<string>)
    requires parts != []
    ensures MissingNames(Plan(parse, parts))
         == MissingNames(Plan(parse, parts[..|parts| - 1])) + MissingOf(parse, parts[|parts| - 1])
  {
    var init, raw := parts[..|parts| - 1], parts[|parts| - 1];
    assert forall e :: e in Plan(parse, parts) <==> e in Plan(parse, init) || e in PlanEntry(parse, raw);
    forall name | name in MissingOf(parse, raw) ensures name in MissingNames(Plan(parse, parts)) {
      assert Fallback(name, raw) in Plan(parse, parts);
    }
    forall name | name in MissingNames(Plan(parse, init)) ensures name in MissingNames(Plan(parse, parts)) {
      var e :| e in Plan(parse, init) && e.Fallback? && e.name == name;
      assert e in Plan(parse, parts);
    }
  }

  lemma UnresolvedNext(t: Text, parse: string -> Parsed, parts: seq<string>)
    requires parts != []
    ensures var before, names := Unresolved(t, parse, parts[..|parts| - 1]), Unresolved(t, parse, parts);
            && (forall name :: FoldedIn(t, name, before) ==> FoldedIn(t, name, names))
            && (forall name :: name in MissingOf(parse, parts[|parts| - 1]) ==> FoldedIn(t, name, names))
            && (forall name :: name in names ==> name in before || name in MissingOf(parse, parts[|parts| - 1]))
  {
    var before, names := Unresolved(t, parse, parts[..|parts| - 1]), Unresolved(t, parse, parts);
    assert before <= names;
    forall name | FoldedIn(t, name, before) ensures FoldedIn(t, name, names) {
      var other :| other in before && t.fold(other) == t.fold(name);
      assert other in names;
    }
    forall name | name in MissingOf(parse, parts[|parts| - 1]) ensures FoldedIn(t, name, names) {
      if !FoldedIn(t, name, before) {
        assert names[|before|] == name && name in names;
      }
    }
  }

  /** The plan has, in order, what each line gives: its parsed item, or the name that has no quantity with the line. */
  lemma {:induction false} PlanIsExact(parse: string -> Parsed, parts: seq<string>, e: Entry)
    ensures e in Plan(parse, parts) <==> exists k :: 0 <= k < |parts| && Gives(parse, parts[k], e)
    ensures forall n :: 0 <= n <= |parts| ==> Plan(parse, parts[..n]) <= Plan(parse, parts)
  {
    if parts != [] {
      var n := |parts| - 1;
      PlanIsExact(parse, parts[..n], e);
      if k :| 0 <= k < |parts| && Gives(parse, parts[k], e) {
        assert k < n ==> parts[..n][k] == parts[k];
      }
      if k :| 0 <= k < n && Gives(parse, parts[..n][k], e) {
        assert parts[k] == parts[..n][k];
      }
      forall m | 0 <= m <= |parts| ensures Plan(parse, parts[..m]) <= Plan(parse, parts) {
        if m <= n { assert parts[..m] == parts[..n][..m]; } else { assert parts[..m] == parts; }
      }
    }
  }

  predicate Gives(parse: string -> Parsed, raw: string, e: Entry) {
    match e
    case Source(item) => parse(raw) == Grounded(item)
    case Fallback(name, sourceText) => parse(raw) == Missing(name) && name != "" && sourceText == raw
  }

  /** The list for the model covers every missing name up to case, asks for nothing else, and not twice. */
  lemma {:induction false} UnresolvedCoversThePlan(t: Text, parse: string -> Parsed, parts: seq<string>)
    ensures var names := Unresolved(t, parse, parts);
            && (forall name :: name in names ==> name in MissingNames(Plan(parse, parts)))
            && (forall name :: name in MissingNames(Plan(parse, parts)) ==> FoldedIn(t, name, names))
  {
    if parts != [] {
      var init, raw := parts[..|parts| - 1], parts[|parts| - 1];
      UnresolvedCoversThePlan(t, parse, init);
      MissingStep(parse, parts);
      UnresolvedNext(t, parse, parts);
    }
  }

  lemma {:induction false} UnresolvedAsksOnce(t: Text, parse: string -> Parsed, parts: seq<string>, i: nat, j: nat)
    requires i < j < |Unresolved(t, parse, parts)|
    ensures t.fold(Unresolved(t, parse, parts)[i]) != t.fold(Unresolved(t, parse, parts)[j])
  {
    var before, names := Unresolved(t, parse, parts[..|parts| - 1]), Unresolved(t, parse, parts);
    if j < |before| {
      UnresolvedAsksOnce(t, parse, parts[..|parts| - 1], i, j);
    } else {
      assert before[i] == names[i] && names[i] in before;
    }
  }

  // ---- the answers of the model ----

  /** The name an item answers for, as `_valid_fallback_items` reads it. */
  function AnsweredName(t: Text, item: Item): string
    requires item.Item?
  {
    var name := t.strip(item.name);
    t.strip(if item.fallbackFor.Some? && item.fallbackFor.value != "" then item.fallbackFor.value else name)
  }

  /** The name the merge files it under: the same field, not trimmed. */
  function FiledUnder(item: Item): string
    requires item.Item?
  {
    if item.fallbackFor.Some? && item.fallbackFor.value != "" then item.fallbackFor.value else item.name
  }

  predicate GoodAnswer(t: Text, item: Item, names: seq<string>) {
    WellFormed(t, item) && AnsweredName(t, item) in names
  }

  /** `_valid_fallback_items`. */
  predicate ValidFallbacks(t: Text, items: seq<Item>, names: seq<string>) {
    && items != []
    && (forall item :: item in items ==> GoodAnswer(t, item, names))
    && (forall name :: name in names ==> exists item :: item in items && item.Item? && AnsweredName(t, item) == name)
  }

  /** `fallback_items` of `main`: the answers filed under one name, in order. */
  function Filed(items: seq<Item>, name: string): seq<Item> {
    if items == [] then []
    else
      var before := Filed(items[..|items| - 1], name);
      var last := items[|items| - 1];
      if last.Item? && FiledUnder(last) == name then before + [last] else before
  }

  lemma {:induction false} FiledExactly(items: seq<Item>, name: string)
    ensures forall item :: item in Filed(items, name) <==> item in items && item.Item? && FiledUnder(item) == name
  {
    if items != [] {
      FiledExactly(items[..|items| - 1], name);
      assert items == items[..|items| - 1] + [items[|items| - 1]];
    }
  }

  /** Position `i` holds an answer filed under the name. */
  predicate IsFiledAt(items: seq<Item>, name: string, i: nat) {
    i < |items| && items[i].Item? && FiledUnder(items[i]) == name
  }

  function FiledAt(items: seq<Item>, name: string): (r: seq<nat>)
    ensures forall k :: 0 <= k < |r| ==> r[k] < |items|
    ensures forall j, k :: 0 <= j < k < |r| ==> r[j] < r[k]
  {
    if items == [] then []
    else
      var n := |items| - 1;
      FiledAt(items[..n], name) + if IsFiledAt(items, name, n) then [n] else []
  }

  lemma {:induction false} FiledAtExactly(items: seq<Item>, name: string, i: nat)
    ensures i in FiledAt(items, name) <==> IsFiledAt(items, name, i)
  {
    if items != [] { FiledAtExactly(items[..|items| - 1], name, i); }
  }

  /** All answers under the name, and only those, in their order. */
  lemma {:induction false} FiledInOrder(items: seq<Item>, name: string)
    ensures |Filed(items, name)| == |FiledAt(items, name)|
    ensures forall k :: 0 <= k < |FiledAt(items, name)| ==> Filed(items, name)[k] == items[FiledAt(items, name)[k]]
  {
    if items != [] { FiledInOrder(items[..|items| - 1], name); }
  }

  /** An answer says what it is for; without saying so it is for its own name. */
  lemma AnswersAreFor(t: Text, item: Item)
    requires item.Item?
    ensures item.fallbackFor.Some? && item.fallbackFor.value != "" ==>
              FiledUnder(item) == item.fallbackFor.value && AnsweredName(t, item) == t.strip(item.fallbackFor.value)
    ensures item.fallbackFor.None? || item.fallbackFor.value == "" ==>
              FiledUnder(item) == item.name && AnsweredName(t, item) == t.strip(t.strip(item.name))
  {
  }

  // ---- the merge ----

  function Answer(item: Item, sourceText: string): Item
    requires item.Item?
  {
    item.(fallbackFor := None, sourceText := sourceText)
  }

  function Answers(items: seq<Item>, sourceText: string): (r: seq<Item>)
    requires forall item :: item in items ==> item.Item?
    ensures |r| == |items| && forall i :: 0 <= i < |items| ==> r[i] == Answer(items[i], sourceText)
  {
    seq(|items|, i requires 0 <= i < |items| => assert items[i] in items; Answer(items[i], sourceText))
  }

  /** What an entry contributes; no answers for a missing name is the error of `_merge_plan`. */
  function Expand(items: seq<Item>, e: Entry): (r: Option<seq<Item>>)
    ensures r.Some? ==> forall item :: item in r.value ==> item.Item? || e == Source(item)
  {
    match e
    case Source(item) => Some([item])
    case Fallback(name, sourceText) =>
      FiledExactly(items, name);
      var filed := Filed(items, name);
      if filed == [] then None else Some(Answers(filed, sourceText))
  }

  predicate Mergeable(plan: seq<Entry>, items: seq<Item>) {
    && (forall e :: e in plan && e.Source? ==> e.item.Item?)
    && (forall e :: e in plan ==> Expand(items, e).Some?)
  }

  /** All contributions in plan order, before deduplication. */
  function Flatten(plan: seq<Entry>, items: seq<Item>): (r: seq<Item>)
    requires Mergeable(plan, items)
    ensures forall item :: item in r ==> item.Item?
  {
    if plan == [] then []
    else
      assert plan[|plan| - 1] in plan;
      Flatten(plan[..|plan| - 1], items) + Expand(items, plan[|plan| - 1]).value
  }

  predicate AllItems(items: seq<Item>) {
    forall item :: item in items ==> item.Item?
  }

  predicate HasKey(t: Text, items: seq<Item>, key: Key) {
    exists item :: item in items && item.Item? && KeyOf(t, item) == key
  }

  /** Keeps the first item of every key, in order. */
  function Dedup(t: Text, items: seq<Item>): (r: seq<Item>)
    requires AllItems(items)
    ensures AllItems(r)
  {
    if items == [] then []
    else
      var before := Dedup(t, items[..|items| - 1]);
      assert items[|items| - 1] in items;
      if HasKey(t, before, KeyOf(t, items[|items| - 1])) then before else before + [items[|items| - 1]]
  }

  function SeenKeys(t: Text, items: seq<Item>): set<Key>
    requires AllItems(items)
  {
    set item | item in items :: KeyOf(t, item)
  }

  /** One step of the merge loops. */
  method AddItem(t: Text, final: seq<Item>, seen: set<Key>, item: Item, ghost flat: seq<Item>)
    returns (final': seq<Item>, seen': set<Key>)
    requires AllItems(flat) && item.Item?
    requires final == Dedup(t, flat) && seen == SeenKeys(t, final)
    ensures AllItems(flat + [item])
    ensures final' == Dedup(t, flat + [item]) && seen' == SeenKeys(t, final')
  {
    final', seen' := final, seen;
    assert (flat + [item])[..|flat|] == flat;
    var key := KeyOf(t, item);
    if key !in seen {
      seen', final' := seen + {key}, final + [item];
    }
  }

  lemma OneMoreAnswer(flat: seq<Item>, filed: seq<Item>, sourceText: string, k: nat)
    requires AllItems(filed) && k < |filed| && AllItems(flat + Answers(filed, sourceText)[..k])
    ensures var answers := Answers(filed, sourceText);
            && filed[k].Item?
            && flat + answers[..k] + [Answer(filed[k], sourceText)] == flat + answers[..k + 1]
            && AllItems(flat + answers[..k + 1])
  {
    assert filed[k] in filed;
    assert flat + Answers(filed, sourceText)[..k] + [Answer(filed[k], sourceText)]
        == flat + Answers(filed, sourceText)[..k + 1];
  }

  /** The inner loop: the answers filed under one missing name. */
  method AddAnswers(
    t: Text, final: seq<Item>, seen: set<Key>, filed: seq<Item>, sourceText: string, ghost flat: seq<Item>)
    returns (final': seq<Item>, seen': set<Key>)
    requires AllItems(flat) && AllItems(filed)
    requires final == Dedup(t, flat) && seen == SeenKeys(t, final)
    ensures AllItems(flat + Answers(filed, sourceText))
    ensures final' == Dedup(t, flat + Answers(filed, sourceText)) && seen' == SeenKeys(t, final')
  {
    ghost var answers := Answers(filed, sourceText);
    final', seen' := final, seen;
    assert flat + answers[..0] == flat;
    for k := 0 to |filed|
      invariant AllItems(flat + answers[..k])
      invariant final' == Dedup(t, flat + answers[..k]) && seen' == SeenKeys(t, final')
    {
      OneMoreAnswer(flat, filed, sourceText, k);
      var item := filed[k].(fallbackFor := None, sourceText := sourceText);
      final', seen' := AddItem(t, final', seen', item, flat + answers[..k]);
    }
    assert answers[..|filed|] == answers;
  }

  lemma FlattenStep(plan: seq<Entry>, items: seq<Item>, n: nat)
    requires n < |plan| && Mergeable(plan[..n], items)
    requires Expand(items, plan[n]).Some? && (plan[n].Source? ==> plan[n].item.Item?)
    ensures Mergeable(plan[..n + 1], items)
    ensures Flatten(plan[..n + 1], items) == Flatten(plan[..n], items) + Expand(items, plan[n]).value
  {
    assert plan[..n + 1][..n] == plan[..n];
    assert plan[..n + 1] == plan[..n] + [plan[n]];
  }

  /** `_merge_plan`, as the two nested loops of the program. */
  method MergePlan(t: Text, plan: seq<Entry>, items: seq<Item>) returns (r: Option<seq<Item>>)
    requires forall e :: e in plan && e.Source? ==> e.item.Item?
    ensures r.None? <==> !Mergeable(plan, items)
    ensures r.Some? ==> r.value == Dedup(t, Flatten(plan, items))
  {
    var final, seen := [], {};
    for n := 0 to |plan|
      invariant Mergeable(plan[..n], items)
      invariant final == Dedup(t, Flatten(plan[..n], items)) && seen == SeenKeys(t, final)
    {
      ghost var flat := Flatten(plan[..n], items);
      assert plan[n] in plan;
      match plan[n]
      case Source(item) =>
        FlattenStep(plan, items, n);
        final, seen := AddItem(t, final, seen, item, flat);
      case Fallback(name, sourceText) =>
        FiledExactly(items, name);
        var filed := Filed(items, name);
        if filed == [] {
          assert Expand(items, plan[n]).None?;
          return None;
        }
        FlattenStep(plan, items, n);
        final, seen := AddAnswers(t, final, seen, filed, sourceText, flat);
    }
    assert plan[..|plan|] == plan;
    return Some(final);
  }

  /** Position `i` holds the first item with its key. */
  predicate FirstOfKey(t: Text, items: seq<Item>, i: nat)
    requires AllItems(items)
  {
    i < |items| && forall j :: 0 <= j < i ==> KeyOf(t, items[j]) != KeyOf(t, items[i])
  }

  /** Every item that went in is represented by one with its key. */
  lemma {:induction false} DedupKeepsKeys(t: Text, items: seq<Item>)
    requires AllItems(items)
    ensures forall item :: item in items ==> HasKey(t, Dedup(t, items), KeyOf(t, item))
    ensures forall item :: item in Dedup(t, items) ==> item in items
  {
    if items != [] {
      var n := |items| - 1;
      var init := items[..n];
      var before, after := Dedup(t, init), Dedup(t, items);
      DedupKeepsKeys(t, init);
      assert items == init + [items[n]];
      assert before <= after;
      forall item | item in items ensures HasKey(t, after, KeyOf(t, item)) {
        if HasKey(t, before, KeyOf(t, item)) {
          var kept :| kept in before && kept.Item? && KeyOf(t, kept) == KeyOf(t, item);
          assert kept in after;
        } else {
          assert item == items[n] && after[|before|] == item;
        }
      }
    }
  }

  /** The positions of the first occurrences of each key, rising. */
  function Firsts(t: Text, items: seq<Item>): (r: seq<nat>)
    requires AllItems(items)
    ensures forall k :: 0 <= k < |r| ==> r[k] < |items|
    ensures forall j, k :: 0 <= j < k < |r| ==> r[j] < r[k]
  {
    if items == [] then []
    else
      var n := |items| - 1;
      Firsts(t, items[..n]) + if FirstOfKey(t, items, n) then [n] else []
  }

  lemma {:induction false} FirstsExactly(t: Text, items: seq<Item>, i: nat)
    requires AllItems(items)
    ensures i in Firsts(t, items) <==> FirstOfKey(t, items, i)
  {
    if items != [] {
      var n := |items| - 1;
      var init := items[..n];
      FirstsExactly(t, init, i);
      if i < n {
        forall j | 0 <= j <= i ensures items[j] == init[j] {
        }
      }
    }
  }

  lemma NewKeyIsFirst(t: Text, items: seq<Item>)
    requires AllItems(items) && items != []
    ensures var n := |items| - 1;
            items[n] in items && AllItems(items[..n])
            && (HasKey(t, Dedup(t, items[..n]), KeyOf(t, items[n])) <==> !FirstOfKey(t, items, n))
  {
    var n := |items| - 1;
    var init := items[..n];
    assert items[n] in items;
    DedupKeepsKeys(t, init);
    if HasKey(t, Dedup(t, init), KeyOf(t, items[n])) {
      var kept :| kept in Dedup(t, init) && KeyOf(t, kept) == KeyOf(t, items[n]);
      var j :| 0 <= j < |init| && init[j] == kept;
      assert items[j] == kept;
    } else {
      forall j | 0 <= j < n ensures KeyOf(t, items[j]) != KeyOf(t, items[n]) {
        assert items[j] == init[j] && init[j] in init;
      }
    }
  }

  /** What deduplication means: the result is the items at the first occurrences of the keys, in order. */
  lemma {:induction false} DedupKeepsFirsts(t: Text, items: seq<Item>)
    requires AllItems(items)
    ensures |Dedup(t, items)| == |Firsts(t, items)|
    ensures forall k :: 0 <= k < |Firsts(t, items)| ==> Dedup(t, items)[k] == items[Firsts(t, items)[k]]
  {
    if items != [] {
      DedupKeepsFirsts(t, items[..|items| - 1]);
      NewKeyIsFirst(t, items);
    }
  }

  /** No two items of a merged list share a key. */
  lemma MergedKeysDistinct(t: Text, items: seq<Item>, j: nat, k: nat)
    requires AllItems(items) && j < k < |Dedup(t, items)|
    ensures Dedup(t, items)[j] in Dedup(t, items) && Dedup(t, items)[k] in Dedup(t, items)
    ensures var a, b := Dedup(t, items)[j], Dedup(t, items)[k];
            KeyOf(t, a) != KeyOf(t, b)
            && !(t.fold(a.name) == t.fold(b.name) && t.fold(a.unit) == t.fold(b.unit) && a.amount == b.amount)
  {
    DedupKeepsFirsts(t, items);
    var at := Firsts(t, items);
    FirstsExactly(t, items, at[k]);
  }

  /** Every line's contribution is represented in the merged list, and nothing else is in it. */
  lemma MergeRepresentsThePlan(t: Text, plan: seq<Entry>, items: seq<Item>)
    requires Mergeable(plan, items)
    ensures var merged := Dedup(t, Flatten(plan, items));
            && (forall e, item :: e in plan && item in Expand(items, e).value ==>
                  item.Item? && HasKey(t, merged, KeyOf(t, item)))
            && (forall item :: item in merged ==> exists e :: e in plan && item in Expand(items, e).value)
            && (forall item :: item in merged ==>
                  item.fallbackFor.None? || exists e :: e in plan && e == Source(item))
  {
    FlattenExactly(plan, items);
    DedupKeepsKeys(t, Flatten(plan, items));
    forall item | item in Dedup(t, Flatten(plan, items))
      ensures item.fallbackFor.None? || exists e :: e in plan && e == Source(item)
    {
      var e :| e in plan && item in Expand(items, e).value;
    }
  }

  lemma {:induction false} FlattenExactly(plan: seq<Entry>, items: seq<Item>)
    requires Mergeable(plan, items)
    ensures forall item :: item in Flatten(plan, items) <==> exists e :: e in plan && item in Expand(items, e).value
  {
    if plan != [] {
      var init, last := plan[..|plan| - 1], plan[|plan| - 1];
      assert plan == init + [last] && last in plan;
      FlattenExactly(init, items);
      forall item ensures item in Flatten(plan, items) <==> exists e :: e in plan && item in Expand(items, e).value {
        if item in Flatten(init, items) {
          var e :| e in init && item in Expand(items, e).value;
          assert e in plan;
        }
        if item in Expand(items, last).value {
          assert last in plan;
        }
      }
    }
  }

  /** An entry gives its own item, or all answers filed under its name, each with the line it is for. */
  lemma ExpandIsExact(items: seq<Item>, e: Entry)
    ensures e.Source? ==> Expand(items, e) == Some([e.item])
    ensures e.Fallback? ==> (Expand(items, e).None? <==> Filed(items, e.name) == [])
    ensures e.Fallback? && Expand(items, e).Some? ==>
              && |Expand(items, e).value| == |Filed(items, e.name)|
              && forall k :: 0 <= k < |Filed(items, e.name)| ==>
                   Filed(items, e.name)[k].Item?
                   && Expand(items, e).value[k]
                      == Filed(items, e.name)[k].(fallbackFor := None, sourceText := e.sourceText)
  {
    if e.Fallback? {
      FiledExactly(items, e.name);
      forall k | 0 <= k < |Filed(items, e.name)| ensures Filed(items, e.name)[k].Item? {
        assert Filed(items, e.name)[k] in Filed(items, e.name);
      }
    }
  }

  /** What earlier entries give stands before what later ones give. */
  lemma {:induction false} FlattenInOrder(plan: seq<Entry>, items: seq<Item>, n: nat)
    requires Mergeable(plan, items) && n < |plan|
    ensures Mergeable(plan[..n], items) && Mergeable(plan[..n + 1], items)
    ensures Flatten(plan[..n + 1], items) == Flatten(plan[..n], items) + Expand(items, plan[n]).value
    ensures Flatten(plan[..n + 1], items) <= Flatten(plan, items)
    decreases |plan| - n
  {
    assert plan[n] in plan;
    FlattenStep(plan, items, n);
    if n + 1 < |plan| {
      FlattenInOrder(plan, items, n + 1);
    } else {
      assert plan[..n + 1] == plan;
    }
  }

  // ---- when the merge goes through ----

  /** What the parser guarantees of every missing name it returns. */
  predicate TrimmedNames(t: Text, plan: seq<Entry>) {
    forall name :: name in MissingNames(plan) ==> t.strip(name) == name
  }

  /** Some answer is filed under the name. */
  predicate IsFiled(items: seq<Item>, name: string) {
    exists item :: item in items && item.Item? && FiledUnder(item) == name
  }

  lemma FiledIff(items: seq<Item>, name: string)
    ensures Filed(items, name) != [] <==> IsFiled(items, name)
  {
    FiledExactly(items, name);
    if Filed(items, name) != [] {
      assert Filed(items, name)[0] in Filed(items, name);
    }
  }

  lemma MergeableIff(plan: seq<Entry>, items: seq<Item>)
    requires forall e :: e in plan && e.Source? ==> e.item.Item?
    ensures Mergeable(plan, items) <==> forall name :: name in MissingNames(plan) ==> IsFiled(items, name)
  {
    forall name | name in MissingNames(plan) && Mergeable(plan, items) ensures IsFiled(items, name) {
      var e :| e in plan && e.Fallback? && e.name == name;
      assert Expand(items, e).Some?;
      FiledIff(items, name);
    }
    if forall name :: name in MissingNames(plan) ==> IsFiled(items, name) {
      forall e | e in plan ensures Expand(items, e).Some? {
        if e.Fallback? {
          assert e.name in MissingNames(plan);
          FiledIff(items, e.name);
        }
      }
    }
  }

  lemma FiledNamesWereAsked(t: Text, items: seq<Item>, names: seq<string>, name: string)
    requires ValidFallbacks(t, items, names) && IsFiled(items, name) && t.strip(name) == name
    ensures name in names
  {
    var item :| item in items && item.Item? && FiledUnder(item) == name;
    assert GoodAnswer(t, item, names);
    assert AnsweredName(t, item) == name;
  }

  /**
   * Exactly when the merge of validated answers does not raise: every missing name is spelled as in the
   * request (no second spelling that differs only by case), and every requested name has an answer
   * that carries it exactly as written, since the merge files answers under untrimmed names.
   */
  lemma MergeSucceedsIff(t: Text, parse: string -> Parsed, parts: seq<string>, items: seq<Item>)
    requires var plan := Plan(parse, parts);
             && TrimmedNames(t, plan)
             && (forall e :: e in plan && e.Source? ==> e.item.Item?)
    requires ValidFallbacks(t, items, Unresolved(t, parse, parts))
    ensures var plan, names := Plan(parse, parts), Unresolved(t, parse, parts);
            Mergeable(plan, items) <==>
              && (forall name :: name in MissingNames(plan) ==> name in names)
              && (forall name :: name in names ==> IsFiled(items, name))
  {
    var plan, names := Plan(parse, parts), Unresolved(t, parse, parts);
    UnresolvedCoversThePlan(t, parse, parts);
    MergeableIff(plan, items);
    forall name | name in MissingNames(plan) && IsFiled(items, name) ensures name in names {
      FiledNamesWereAsked(t, items, names, name);
    }
  }

  /** No two missing names of the recipe differ only by case. */
  predicate OneSpelling(t: Text, plan: seq<Entry>) {
    forall a, b :: a in MissingNames(plan) && b in MissingNames(plan) && t.fold(a) == t.fold(b) ==> a == b
  }

  /** No answer's name needs trimming. */
  predicate CleanAnswers(t: Text, items: seq<Item>) {
    forall item :: item in items && item.Item? ==> FiledUnder(item) == AnsweredName(t, item)
  }

  lemma CleanRepairsMerge(t: Text, parse: string -> Parsed, parts: seq<string>, items: seq<Item>)
    requires var plan := Plan(parse, parts);
             && TrimmedNames(t, plan) && OneSpelling(t, plan)
             && (forall e :: e in plan && e.Source? ==> e.item.Item?)
    requires var names := Unresolved(t, parse, parts);
             names != [] ==> ValidFallbacks(t, items, names) && CleanAnswers(t, items)
    ensures Mergeable(Plan(parse, parts), items)
  {
    var plan, names := Plan(parse, parts), Unresolved(t, parse, parts);
    UnresolvedCoversThePlan(t, parse, parts);
    if names == [] {
      assert forall name :: !FoldedIn(t, name, names);
      forall e | e in plan ensures e.Fallback? ==> e.name in MissingNames(plan) {
      }
    } else {
      forall name | name in MissingNames(plan) ensures name in names {
        var other :| other in names && t.fold(other) == t.fold(name);
      }
      forall name | name in names
        ensures IsFiled(items, name)
      {
        var item :| item in items && item.Item? && AnsweredName(t, item) == name;
        assert FiledUnder(item) == name;
      }
      MergeSucceedsIff(t, parse, parts, items);
    }
  }

  lemma AskedOnce(t: Text, parse: string -> Parsed, parts: seq<string>, a: string, b: string)
    requires a in Unresolved(t, parse, parts) && b in Unresolved(t, parse, parts) && t.fold(a) == t.fold(b)
    ensures a == b
  {
    var names := Unresolved(t, parse, parts);
    var i :| 0 <= i < |names| && names[i] == a;
    var j :| 0 <= j < |names| && names[j] == b;
    if i < j { UnresolvedAsksOnce(t, parse, parts, i, j); }
    if j < i { UnresolvedAsksOnce(t, parse, parts, j, i); }
  }

  /** With nothing to trim, a repair merges exactly when no two missing names of the recipe differ only by case. */
  lemma MergesIffOneSpelling(t: Text, parse: string -> Parsed, parts: seq<string>, items: seq<Item>)
    requires TrimmedNames(t, Plan(parse, parts))
    requires forall e :: e in Plan(parse, parts) && e.Source? ==> e.item.Item?
    requires ValidFallbacks(t, items, Unresolved(t, parse, parts)) && CleanAnswers(t, items)
    ensures Mergeable(Plan(parse, parts), items) <==> OneSpelling(t, Plan(parse, parts))
  {
    var plan, names := Plan(parse, parts), Unresolved(t, parse, parts);
    if OneSpelling(t, plan) {
      CleanRepairsMerge(t, parse, parts, items);
    }
    if Mergeable(plan, items) {
      MergeSucceedsIff(t, parse, parts, items);
      forall a, b | a in names && b in names && t.fold(a) == t.fold(b) ensures a == b {
        AskedOnce(t, parse, parts, a, b);
      }
    }
  }

  function Lower(s: string): string {
    seq(|s|, i requires 0 <= i < |s| => if 'A' <= s[i] <= 'Z' then s[i] - 'A' + 'a' else s[i])
  }

  const SALTS := ["Salt", "salt"]
  const SALT := Item("Salt", Amount("1"), "g", None, "llm_fallback", "")

  /**
   * A recipe for which the merge raises although the answers pass their validation: it lists salt twice, once
   * with a capital letter, and neither line has a quantity.
   */
  lemma TwoSpellingsDoNotMerge()
    ensures var t, parse: string -> Parsed := Text(Lower, s => s), raw => Missing(raw);
            var plan, names := Plan(parse, SALTS), Unresolved(t, parse, SALTS);
            && TrimmedNames(t, plan) && CleanAnswers(t, [SALT])
            && names == ["Salt"] && ValidFallbacks(t, [SALT], names)
            && !Mergeable(plan, [SALT])
  {
    var t, parse: string -> Parsed := Text(Lower, s => s), raw => Missing(raw);
    assert SALTS[..1] == ["Salt"] && SALTS[..1][..0] == [];
    assert Lower("Salt") == Lower("salt");
    var names := Unresolved(t, parse, SALTS);
    assert Unresolved(t, parse, SALTS[..1]) == ["Salt"] && "Salt" in ["Salt"];
    assert FoldedIn(t, "salt", ["Salt"]);
    assert SALT in [SALT];
    var plan := Plan(parse, SALTS);
    assert Plan(parse, SALTS[..1]) == [Fallback("Salt", "Salt")];
    assert plan == [Fallback("Salt", "Salt"), Fallback("salt", "salt")];
    assert plan[1] in plan;
    FiledIff([SALT], "salt");
    assert Expand([SALT], plan[1]).None?;
  }

  // ---- validation of the whole repair ----

  datatype Value = Ingredients(items: seq<Item>) | Other(json: string)
  datatype Row = Row(key: string, detail: map<string, Value>)
  datatype Report = Report(missing: seq<string>, invalid: seq<string>, changed: seq<string>)

  function WithoutIngredients(detail: map<string, Value>): map<string, Value> {
    detail - {"ingredients"}
  }

  predicate GoodList(t: Text, items: seq<Item>) {
    items != [] && forall item :: item in items ==> WellFormed(t, item)
  }

  function ReportOf(t: Text, rows: seq<Row>, repaired: map<string, seq<Item>>): Report {
    if rows == [] then Report([], [], [])
    else
      var before := ReportOf(t, rows[..|rows| - 1], repaired);
      var row := rows[|rows| - 1];
      if row.key !in repaired then before.(missing := before.missing + [row.key])
      else if !GoodList(t, repaired[row.key]) then before.(invalid := before.invalid + [row.key])
      else before
  }

  /** Counting where the quantities come from raises at an item that is no object. */
  predicate Countable(row: Row, repaired: map<string, seq<Item>>) {
    row.key in repaired ==> AllItems(repaired[row.key])
  }

  /** `_validate_repair`: the loop over the rows; the repair is refused unless all three lists stay empty. */
  method ValidateRepair(t: Text, rows: seq<Row>, repaired: map<string, seq<Item>>) returns (report: Option<Report>)
    ensures report.None? <==> exists row :: row in rows && !Countable(row, repaired)
    ensures report.Some? ==> report.value == ReportOf(t, rows, repaired) && report.value.changed == []
  {
    var r := Report([], [], []);
    for n := 0 to |rows|
      invariant r == ReportOf(t, rows[..n], repaired) && r.changed == []
      invariant forall row :: row in rows[..n] ==> Countable(row, repaired)
    {
      assert rows[..n + 1][..n] == rows[..n];
      var key := rows[n].key;
      if key !in repaired {
        r := r.(missing := r.missing + [key]);
      } else {
        var ingredients := repaired[key];
        var bad := ingredients == [];
        for i := 0 to |ingredients|
          invariant bad <==> ingredients == [] || exists j :: 0 <= j < i && !WellFormed(t, ingredients[j])
        {
          var item := ingredients[i];
          if item.NotAnObject? || t.strip(item.name) == "" || !item.amount.Amount? || t.strip(item.unit) == "" {
            bad := true;
          }
        }
        assert bad <==> !GoodList(t, ingredients);
        if bad {
          r := r.(invalid := r.invalid + [key]);
        }
        for i := 0 to |ingredients|
          invariant forall j :: 0 <= j < i ==> ingredients[j].Item?
        {
          if ingredients[i].NotAnObject? {
            assert ingredients[i] in ingredients && rows[n] in rows;
            return None;
          }
        }
        var candidate := rows[n].detail["ingredients" := Ingredients(ingredients)];
        assert WithoutIngredients(candidate) == WithoutIngredients(rows[n].detail);
        if candidate - {"ingredients"} != rows[n].detail - {"ingredients"} {
          r := r.(changed := r.changed + [key]);
        }
      }
    }
    assert rows[..|rows|] == rows;
    return Some(r);
  }

  /** Which rows are reported, exactly. */
  lemma {:induction false} ReportIsExact(t: Text, rows: seq<Row>, repaired: map<string, seq<Item>>, key: string)
    ensures var r := ReportOf(t, rows, repaired);
      && (key in r.missing <==> key !in repaired && exists row :: row in rows && row.key == key)
      && (key in r.invalid <==>
            && (exists row :: row in rows && row.key == key) && key in repaired
            && (repaired[key] == []
                || exists item :: item in repaired[key]
                     && (item.NotAnObject? || t.strip(item.name) == "" || !item.amount.Amount?
                         || t.strip(item.unit) == "")))
      && r.changed == []
  {
    if rows != [] {
      var n := |rows| - 1;
      ReportIsExact(t, rows[..n], repaired, key);
      assert rows == rows[..n] + [rows[n]];
    }
  }

  lemma ExpandedItemsAreGood(t: Text, items: seq<Item>, e: Entry, item: Item)
    requires Expand(items, e).Some? && item in Expand(items, e).value
    requires e.Source? ==> WellFormed(t, e.item)
    requires e.Fallback? ==> forall answer :: answer in items ==> WellFormed(t, answer)
    ensures WellFormed(t, item)
  {
    if e.Fallback? {
      FiledExactly(items, e.name);
      var filed := Filed(items, e.name);
      var i :| 0 <= i < |Answers(filed, e.sourceText)| && Answers(filed, e.sourceText)[i] == item;
      assert filed[i] in filed;
    }
  }

  lemma MergedListIsGood(t: Text, plan: seq<Entry>, items: seq<Item>)
    requires plan != [] && Mergeable(plan, items)
    requires forall e :: e in plan && e.Source? ==> WellFormed(t, e.item)
    requires MissingNames(plan) != {} ==> forall item :: item in items ==> WellFormed(t, item)
    ensures GoodList(t, Dedup(t, Flatten(plan, items)))
  {
    MergeRepresentsThePlan(t, plan, items);
    var merged := Dedup(t, Flatten(plan, items));
    var e0 := plan[0];
    assert e0 in plan;
    var first := Expand(items, e0).value[0];
    assert first in Expand(items, e0).value;
    assert HasKey(t, merged, KeyOf(t, first));
    forall item | item in merged ensures WellFormed(t, item) {
      var e :| e in plan && item in Expand(items, e).value;
      assert e.Fallback? ==> e.name in MissingNames(plan);
      ExpandedItemsAreGood(t, items, e, item);
    }
  }

  /** The inputs of one recipe's repair: its source lines and the validated answers of the model. */
  datatype Target = Target(parts: seq<string>, answers: seq<Item>)

  predicate Repairable(t: Text, parse: string -> Parsed, target: Target) {
    var plan, names := Plan(parse, target.parts), Unresolved(t, parse, target.parts);
    && plan != [] && TrimmedNames(t, plan) && OneSpelling(t, plan)
    && (forall e :: e in plan && e.Source? ==> WellFormed(t, e.item))
    && (names != [] ==> ValidFallbacks(t, target.answers, names) && CleanAnswers(t, target.answers))
  }

  /** The repaired list of one recipe. */
  function Repaired(t: Text, parse: string -> Parsed, target: Target): seq<Item>
    requires Repairable(t, parse, target)
  {
    CleanRepairsMerge(t, parse, target.parts, target.answers);
    Dedup(t, Flatten(Plan(parse, target.parts), target.answers))
  }

  /**
   * End to end: when the parsed source items are well formed, the answers passed validation, no name needs
   * trimming and no two differ only by case, planning and merging succeed for every recipe and
   * the validation of the whole repair reports nothing missing, invalid or changed.
   */
  lemma {:induction false} RepairEndToEnd(
    t: Text, parse: string -> Parsed, rows: seq<Row>, targets: map<string, Target>)
    requires forall row :: row in rows ==> row.key in targets
    requires forall key :: key in targets ==> Repairable(t, parse, targets[key])
    ensures var repaired := map key | key in targets :: Repaired(t, parse, targets[key]);
            && (forall row :: row in rows ==> Countable(row, repaired))
            && ReportOf(t, rows, repaired) == Report([], [], [])
  {
    var repaired := map key | key in targets :: Repaired(t, parse, targets[key]);
    if rows != [] {
      RepairEndToEnd(t, parse, rows[..|rows| - 1], targets);
      var key := rows[|rows| - 1].key;
      assert rows[|rows| - 1] in rows;
      var target := targets[key];
      var plan, names := Plan(parse, target.parts), Unresolved(t, parse, target.parts);
      CleanRepairsMerge(t, parse, target.parts, target.answers);
      UnresolvedCoversThePlan(t, parse, target.parts);
      if name :| name in MissingNames(plan) {
        assert FoldedIn(t, name, names);
        assert forall item :: item in target.answers ==> GoodAnswer(t, item, names);
      }
      MergedListIsGood(t, plan, target.answers);
    }
  }
}
