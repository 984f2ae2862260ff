/**
 * "Change the batch" (app/agent/participle_agent.py) and the search history it relies on
 * (app/conversation/service.py). Selecting among fresh candidates is a parameter that returns some of them.
 */
module FreshBatches {
  import opened Options
  import opened Sequences
  import opened TextCells

  /** A search result; its recipe id as the search or the snapshot gives it. */
  datatype Result = Result(id: string, name: string)

  datatype Snapshot = Snapshot(recipes: seq<Result>, pool: seq<Result>, createdAt: int)

  datatype Memory = Memory(history: seq<Snapshot>, latest: Option<Snapshot>)

  /** What the world contributes to a turn; `search` is `None` when the search service fails. */
  datatype Input = Input(
    requestChanged: bool, hasQuery: bool, select: seq<Result> -> seq<Result>, search: Option<seq<Result>>, now: int)

  function RecipeId(r: Result): string { Strip(r.id) }

  /** The history, or the single old snapshot of a memory that has none yet. */
  function View(m: Memory): seq<Snapshot> {
    if m.history != [] || m.latest.None? then m.history else [m.latest.value]
  }

  // ---- saving and going back ----

  function NewSnapshot(results: seq<Result>, pool: seq<Result>, now: int): Snapshot {
    Snapshot(Take(results, 10), Take(if pool != [] then pool else results, 20), now)
  }

  function SaveSearch(m: Memory, results: seq<Result>, pool: seq<Result>, now: int): Memory {
    var snapshot := NewSnapshot(results, pool, now);
    Memory(Last(View(m) + [snapshot], 6), Some(snapshot))
  }

  /** The first snapshot saved at that time, or the last one. */
  function CursorOf(history: seq<Snapshot>, at: Option<int>): nat
    requires history != []
    ensures CursorOf(history, at) < |history|
  {
    if at == Some(history[0].createdAt) || |history| == 1 then 0 else 1 + CursorOf(history[1..], at)
  }

  lemma CursorNext(history: seq<Snapshot>, index: nat, at: Option<int>)
    requires index < |history| - 1 && at != Some(history[index].createdAt)
    ensures CursorOf(history[index..], at) == 1 + CursorOf(history[index + 1..], at)
  {
    assert history[index..][1..] == history[index + 1..];
  }

  function Previous(m: Memory): (Memory, Option<Snapshot>) {
    var history := View(m);
    var kept := Memory(history, m.latest);
    if |history| < 2 then (kept, None)
    else
      var index := CursorOf(history, if m.latest.Some? then Some(m.latest.value.createdAt) else None);
      if index == 0 then (kept, None) else (Memory(history, Some(history[index - 1])), Some(history[index - 1]))
  }

  // ---- another batch ----

  /** The ids of the last three batches. */
  function Excluded(m: Memory): set<string> {
    var recent := Last(View(m), 3);
    set k, j | 0 <= k < |recent| && 0 <= j < |recent[k].recipes| && recent[k].recipes[j].id != ""
          :: recent[k].recipes[j].id
  }

  function Unseen(results: seq<Result>, excluded: set<string>): (r: seq<Result>)
    ensures forall x :: x in r <==> x in results && RecipeId(x) !in excluded
  {
    if results == [] then []
    else
      var n := |results| - 1;
      assert results == results[..n] + [results[n]];
      var before := Unseen(results[..n], excluded);
      if RecipeId(results[n]) !in excluded then before + [results[n]] else before
  }

  /** The fresh results and the pool they come from; `None` when the search fails. */
  function Choose(m: Memory, input: Input): Option<(seq<Result>, seq<Result>)> {
    var pool := if m.latest.Some? then m.latest.value.pool else [];
    var local := Unseen(pool, Excluded(m));
    if !input.requestChanged && |local| >= 3 then Some((input.select(local), pool))
    else if input.search.None? then None
    else Some((Take(Unseen(input.search.value, Excluded(m)), 3), input.search.value))
  }

  /** The new memory and the batch shown, if one is. */
  function ChangeBatch(m: Memory, input: Input): (Memory, Option<seq<Result>>) {
    if m.latest.None? || m.latest.value.recipes == [] || !input.hasQuery then (m, None)
    else
      var chosen := Choose(m, input);
      if chosen.None? || chosen.value.0 == [] then (m, None)
      else (SaveSearch(m, chosen.value.0, chosen.value.1, input.now), Some(chosen.value.0))
  }

  /** What is saved last, and what of it: at most ten results and twenty of their pool, all results if there is none. */
  lemma SavedIsExact(m: Memory, results: seq<Result>, pool: seq<Result>, now: int)
    ensures var t := SaveSearch(m, results, pool, now);
      && t.latest.Some? && t.latest.value.createdAt == now
      && t.latest.value.recipes == (if |results| <= 10 then results else results[..10])
      && t.latest.value.pool == (if pool == [] then (if |results| <= 20 then results else results[..20])
                                 else if |pool| <= 20 then pool else pool[..20])
      && t.history != [] && t.history[|t.history| - 1] == t.latest.value && |t.history| <= 6
      && (|View(m)| <= 5 ==> t.history == View(m) + [t.latest.value])
      && (|View(m)| > 5 ==> t.history == View(m)[|View(m)| - 5..] + [t.latest.value])
  {
    var all := View(m) + [NewSnapshot(results, pool, now)];
    if |View(m)| > 5 {
      assert all[|all| - 6..] == View(m)[|View(m)| - 5..] + [all[|all| - 1]];
    }
  }

  /** The snapshot the cursor stands at: the first of that time, or the last if there is none. */
  lemma {:induction false} CursorIsExact(history: seq<Snapshot>, at: Option<int>)
    requires history != []
    ensures var k := CursorOf(history, at);
      && (forall j :: 0 <= j < k ==> at != Some(history[j].createdAt))
      && (at == Some(history[k].createdAt) || k == |history| - 1)
  {
    if at != Some(history[0].createdAt) && |history| > 1 { CursorIsExact(history[1..], at); }
  }

  /** Stepping back shows the batch before that one and makes it the latest; the history stays. */
  lemma BackIsExact(m: Memory)
    ensures var (t, shown) := Previous(m);
      && t.history == View(m) && (shown.None? ==> t.latest == m.latest) && (shown.Some? ==> t.latest == shown)
      && (shown.Some? <==>
            |View(m)| >= 2
            && CursorOf(View(m), if m.latest.Some? then Some(m.latest.value.createdAt) else None) > 0)
      && (shown.Some? ==>
            var k := CursorOf(View(m), if m.latest.Some? then Some(m.latest.value.createdAt) else None);
            shown == Some(View(m)[k - 1]))
  {
  }

  /** The unseen results, in their order. */
  lemma UnseenInOrder(results: seq<Result>, r: Result, excluded: set<string>)
    ensures Unseen(results + [r], excluded) == Unseen(results, excluded) + if RecipeId(r) in excluded then [] else [r]
    ensures Unseen([], excluded) == []
  {
    assert (results + [r])[..|results|] == results;
  }

  /** The ids shown in the last three batches of the history, as they came. */
  lemma ExcludedIsExact(m: Memory, id: string)
    ensures id in Excluded(m) <==>
              id != "" && exists k, j :: |View(m)| - 3 <= k < |View(m)| && 0 <= k && 0 <= j < |View(m)[k].recipes|
                                         && View(m)[k].recipes[j].id == id
  {
    var recent, n := Last(View(m), 3), |View(m)|;
    var off := if n <= 3 then 0 else n - 3;
    assert forall k :: 0 <= k < |recent| ==> recent[k] == View(m)[k + off];
    if id in Excluded(m) {
      var k, j :| 0 <= k < |recent| && 0 <= j < |recent[k].recipes| && recent[k].recipes[j].id == id;
      assert View(m)[k + off].recipes[j].id == id;
    }
    if k, j :| n - 3 <= k < n && 0 <= k && 0 <= j < |View(m)[k].recipes| && View(m)[k].recipes[j].id == id {
      assert recent[k - off].recipes[j].id == id;
    }
  }

  /**
   * Another batch comes from the pool if the request is the same and three of it are unseen; else from a new search,
   * the first three unseen. Nothing is shown or saved without an earlier batch, a query, an answer and something new.
   */
  lemma ChangeIsExact(m: Memory, input: Input)
    ensures var (t, shown) := ChangeBatch(m, input);
            var asked := m.latest.Some? && m.latest.value.recipes != [] && input.hasQuery;
            var local := if m.latest.Some? then Unseen(m.latest.value.pool, Excluded(m)) else [];
            var again := !input.requestChanged && |local| >= 3;
      && (shown.None? ==> t == m)
      && (shown.Some? ==> asked && shown.value != [])
      && (asked && again ==>
            (if input.select(local) == [] then shown.None?
             else shown == Some(input.select(local))
                  && t == SaveSearch(m, input.select(local), m.latest.value.pool, input.now)))
      && (asked && !again && input.search.None? ==> shown.None?)
      && (asked && !again && input.search.Some? ==>
            var unseen := Unseen(input.search.value, Excluded(m));
            if unseen == [] then shown.None?
            else shown == Some(if |unseen| <= 3 then unseen else unseen[..3])
                 && t == SaveSearch(m, shown.value, input.search.value, input.now))
  {
  }

  class ConversationMemory {
    var history: seq<Snapshot>
    var latest: Option<Snapshot>

    function Value(): Memory
      reads this
    {
      Memory(history, latest)
    }

    constructor (m: Memory)
      ensures Value() == m
    {
      history, latest := m.history, m.latest;
    }

    method Save(results: seq<Result>, pool: seq<Result>, now: int)
      modifies this
      ensures Value() == SaveSearch(old(Value()), results, pool, now)
    {
      var snapshot := NewSnapshot(results, pool, now);
      if history == [] && latest.Some? { history := history + [latest.value]; }
      history := history + [snapshot];
      history := Last(history, 6);
      latest := Some(snapshot);
    }

    /** The cursor moves back; nothing is searched. A memory without history first gets its one snapshot as history. */
    method ActivatePrevious() returns (shown: Option<Snapshot>)
      modifies this
      ensures (Value(), shown) == Previous(old(Value()))
    {
      if history == [] && latest.Some? { history := [latest.value]; }
      if |history| < 2 { return None; }
      ghost var at := if latest.Some? then Some(latest.value.createdAt) else None;
      var index := 0;
      while index < |history| - 1 && !(latest.Some? && history[index].createdAt == latest.value.createdAt)
        invariant index < |history| && history == old(View(Value())) && latest == old(latest)
        invariant CursorOf(history, at) == index + CursorOf(history[index..], at)
      {
        CursorNext(history, index, at);
        index := index + 1;
      }
      assert CursorOf(history, at) == index;
      if index == 0 { return None; }
      latest := Some(history[index - 1]);
      return latest;
    }

    method Another(input: Input) returns (shown: Option<seq<Result>>)
      modifies this
      ensures (Value(), shown) == ChangeBatch(old(Value()), input)
    {
      if latest.None? || latest.value.recipes == [] || !input.hasQuery { return None; }
      var excluded := Excluded(Value());
      var local := Unseen(latest.value.pool, excluded);
      var results, pool;
      if !input.requestChanged && |local| >= 3 {
        results, pool := input.select(local), latest.value.pool;
      } else {
        if input.search.None? { return None; }
        results, pool := Take(Unseen(input.search.value, excluded), 3), input.search.value;
      }
      if results == [] { return None; }
      Save(results, pool, input.now);
      return Some(results);
    }
  }

  // ---- runs ----

  datatype Event =
    | Search(results: seq<Result>, pool: seq<Result>, now: int)
    | Change(input: Input)
    | Back

  /** A saved batch; `changed` tells whether a change of batch chose it. */
  datatype Batch = Batch(recipes: seq<Result>, changed: bool)

  function Next(m: Memory, e: Event): Memory {
    match e
    case Search(results, pool, now) => SaveSearch(m, results, pool, now)
    case Change(input) => ChangeBatch(m, input).0
    case Back => Previous(m).0
  }

  /** The batch an event saves. */
  function Saved(m: Memory, e: Event): seq<Batch> {
    match e
    case Search(results, _, _) => [Batch(Take(results, 10), false)]
    case Change(input) =>
      var shown := ChangeBatch(m, input).1;
      if shown.Some? then [Batch(Take(shown.value, 10), true)] else []
    case Back => []
  }

  function Run(m: Memory, events: seq<Event>): Memory {
    if events == [] then m else Next(Run(m, events[..|events| - 1]), events[|events| - 1])
  }

  function Log(m: Memory, events: seq<Event>): seq<Batch> {
    if events == [] then []
    else Log(m, events[..|events| - 1]) + Saved(Run(m, events[..|events| - 1]), events[|events| - 1])
  }

  /** A selection returns some of what it is given. */
  ghost predicate Selects(select: seq<Result> -> seq<Result>) {
    forall s, r :: r in select(s) ==> r in s
  }

  ghost predicate Fair(events: seq<Event>) {
    forall k :: 0 <= k < |events| && events[k].Change? ==> Selects(events[k].input.select)
  }

  /** No recipe with a proper id stands in both batches. */
  predicate Fresh(earlier: seq<Result>, later: seq<Result>) {
    forall i, j :: 0 <= i < |earlier| && 0 <= j < |later| && later[j].id != "" && RecipeId(later[j]) == later[j].id
      ==> earlier[i].id != later[j].id
  }

  /** A batch that a change of batch shows repeats nothing of the last three. */
  lemma ChangeIsFresh(m: Memory, input: Input, k: nat)
    requires Selects(input.select) && ChangeBatch(m, input).1.Some? && k < |Last(View(m), 3)|
    ensures Fresh(Last(View(m), 3)[k].recipes, ChangeBatch(m, input).1.value)
  {
    var recent, shown := Last(View(m), 3), ChangeBatch(m, input).1.value;
    forall i, j | 0 <= i < |recent[k].recipes| && 0 <= j < |shown|
                  && shown[j].id != "" && RecipeId(shown[j]) == shown[j].id
      ensures recent[k].recipes[i].id != shown[j].id
    {
      assert shown[j] in shown;
      assert RecipeId(shown[j]) !in Excluded(m);
    }
  }

  function Recipes(s: seq<Snapshot>): seq<seq<Result>> {
    seq(|s|, i requires 0 <= i < |s| => s[i].recipes)
  }

  function Batches(s: seq<Batch>): seq<seq<Result>> {
    seq(|s|, i requires 0 <= i < |s| => s[i].recipes)
  }

  lemma LastTwice<T>(s: seq<T>, x: T)
    ensures Last(Last(s, 3) + [x], 3) == Last(s + [x], 3)
    ensures Last(Last(s, 6), 3) == Last(s, 3)
  {
  }

  lemma RecipesOfLast(s: seq<Snapshot>, n: nat)
    ensures Recipes(Last(s, n)) == Last(Recipes(s), n)
  {
  }

  lemma SavedIsView(m: Memory, results: seq<Result>, pool: seq<Result>, now: int)
    ensures View(SaveSearch(m, results, pool, now)) == Last(View(m) + [NewSnapshot(results, pool, now)], 6)
  {
    var all := View(m) + [NewSnapshot(results, pool, now)];
    assert |all| >= 1 && |Last(all, 6)| >= 1;
  }

  lemma SavedIsLast(m: Memory, e: Event) returns (last: Snapshot)
    requires Saved(m, e) != []
    ensures View(Next(m, e)) == Last(View(m) + [last], 6) && last.recipes == Saved(m, e)[0].recipes
  {
    if e.Search? {
      last := NewSnapshot(e.results, e.pool, e.now);
      SavedIsView(m, e.results, e.pool, e.now);
    } else {
      var chosen := Choose(m, e.input).value;
      last := NewSnapshot(chosen.0, chosen.1, e.input.now);
      SavedIsView(m, chosen.0, chosen.1, e.input.now);
    }
  }

  lemma SavedAtTheEnd(m: Memory, e: Event)
    requires Saved(m, e) != []
    ensures Last(Recipes(View(Next(m, e))), 3) == Last(Recipes(View(m)) + [Saved(m, e)[0].recipes], 3)
  {
    var last := SavedIsLast(m, e);
    var all := View(m) + [last];
    RecipesOfLast(all, 6);
    LastTwice(Recipes(all), []);
    assert Recipes(all) == Recipes(View(m)) + [last.recipes];
  }

  lemma NothingSaved(m: Memory, e: Event)
    requires Saved(m, e) == []
    ensures View(Next(m, e)) == View(m)
  {
  }

  /** The end of `view` is the end of all batches so far. */
  predicate KeepsUp(view: seq<Snapshot>, first: seq<seq<Result>>, log: seq<Batch>) {
    Last(Recipes(view), 3) == Last(first + Batches(log), 3)
  }

  lemma OneMoreBatch(view: seq<Snapshot>, next: seq<Snapshot>, first: seq<seq<Result>>, log: seq<Batch>, batch: Batch)
    requires KeepsUp(view, first, log) && Last(Recipes(next), 3) == Last(Recipes(view) + [batch.recipes], 3)
    ensures KeepsUp(next, first, log + [batch])
  {
    assert first + Batches(log + [batch]) == first + Batches(log) + [batch.recipes];
    LastTwice(Recipes(view), batch.recipes);
    LastTwice(first + Batches(log), batch.recipes);
  }

  lemma StepKeepsUp(m: Memory, e: Event, first: seq<seq<Result>>, log: seq<Batch>)
    requires KeepsUp(View(m), first, log)
    ensures KeepsUp(View(Next(m, e)), first, log + Saved(m, e))
  {
    var saved := Saved(m, e);
    if saved == [] {
      NothingSaved(m, e);
      assert log + saved == log;
    } else {
      SavedAtTheEnd(m, e);
      OneMoreBatch(View(m), View(Next(m, e)), first, log, saved[0]);
      assert saved == [saved[0]];
    }
  }

  /** Whatever happens, the end of the history holds the last batches saved. */
  lemma {:induction false} HistoryKeepsUp(m: Memory, events: seq<Event>)
    ensures KeepsUp(View(Run(m, events)), Recipes(View(m)), Log(m, events))
  {
    if events == [] {
      assert Recipes(View(m)) + Batches([]) == Recipes(View(m));
    } else {
      var n := |events| - 1;
      HistoryKeepsUp(m, events[..n]);
      StepKeepsUp(Run(m, events[..n]), events[n], Recipes(View(m)), Log(m, events[..n]));
    }
  }

  lemma LastOfAll<T>(s: seq<T>, k: nat)
    requires |s| - 3 <= k < |s|
    ensures |Last(s, 3)| >= |s| - k && Last(s, 3)[|Last(s, 3)| - (|s| - k)] == s[k]
  {
  }

  /** Where one of the last three batches stands among the last three snapshots. */
  lemma RecentHas(view: seq<Snapshot>, first: seq<seq<Result>>, log: seq<Batch>, i: nat) returns (k: nat)
    requires KeepsUp(view, first, log) && |log| - 3 <= i < |log|
    ensures k < |Last(view, 3)| && Last(view, 3)[k].recipes == log[i].recipes
  {
    var all, recent := first + Batches(log), Last(view, 3);
    LastOfAll(all, |first| + i);
    assert Last(Recipes(view), 3) == Recipes(recent);
    k := |recent| - (|log| - i);
    assert recent[k].recipes == Recipes(recent)[k] == all[|first| + i];
  }

  lemma NewestIsFresh(m: Memory, e: Event, first: seq<seq<Result>>, log: seq<Batch>, i: nat)
    requires KeepsUp(View(m), first, log) && |log| - 3 <= i < |log|
    requires e.Change? && Selects(e.input.select) && ChangeBatch(m, e.input).1.Some?
    ensures Fresh(log[i].recipes, ChangeBatch(m, e.input).1.value)
  {
    var k := RecentHas(View(m), first, log, i);
    ChangeIsFresh(m, e.input, k);
  }

  /** Every batch a change of batch shows is fresh against the three batches before it. */
  lemma {:induction false} ChangesAreFresh(m: Memory, events: seq<Event>, i: nat, j: nat)
    requires Fair(events) && i < j < |Log(m, events)| && j - i <= 3 && Log(m, events)[j].changed
    ensures Fresh(Log(m, events)[i].recipes, Log(m, events)[j].recipes)
  {
    var n := |events| - 1;
    var before, e := Run(m, events[..n]), events[n];
    var log := Log(m, events[..n]);
    assert Log(m, events) == log + Saved(before, e);
    if j < |log| {
      assert Fair(events[..n]) by {
        assert forall k :: 0 <= k < n ==> events[..n][k] == events[k];
      }
      ChangesAreFresh(m, events[..n], i, j);
    } else {
      HistoryKeepsUp(m, events[..n]);
      NewestIsFresh(before, e, Recipes(View(m)), log, i);
    }
  }

  /** A run of changes of batch only: any four batches in a row are disjoint from each other. */
  lemma FourInARowAreDisjoint(m: Memory, events: seq<Event>, i: nat, j: nat)
    requires Fair(events) && forall k :: 0 <= k < |events| ==> events[k].Change?
    requires i < j < |Log(m, events)| && j - i <= 3
    ensures Fresh(Log(m, events)[i].recipes, Log(m, events)[j].recipes)
  {
    AllChanged(m, events, j);
    ChangesAreFresh(m, events, i, j);
  }

  lemma {:induction false} AllChanged(m: Memory, events: seq<Event>, j: nat)
    requires (forall k :: 0 <= k < |events| ==> events[k].Change?) && j < |Log(m, events)|
    ensures Log(m, events)[j].changed
  {
    var n := |events| - 1;
    if j < |Log(m, events[..n])| { AllChanged(m, events[..n], j); }
  }

  // ---- ids with blanks around them ----

  /** `id` is shown in two batches in a row. */
  ghost predicate Returns(m: Memory, input: Input, id: string) {
    && Selects(input.select) && View(m) != [] && ChangeBatch(m, input).1.Some?
    && Shows(Last(View(m), 3)[|Last(View(m), 3)| - 1].recipes, id) && Shows(ChangeBatch(m, input).1.value, id)
  }

  predicate Shows(batch: seq<Result>, id: string) {
    exists i :: 0 <= i < |batch| && batch[i].id == id
  }

  lemma ProperIdsStayAway(m: Memory, input: Input, id: string)
    requires Returns(m, input, id) && id != ""
    ensures Strip(id) != id
  {
    var recent, batch := Last(View(m), 3), ChangeBatch(m, input).1.value;
    ChangeIsFresh(m, input, |recent| - 1);
    var i :| 0 <= i < |recent[|recent| - 1].recipes| && recent[|recent| - 1].recipes[i].id == id;
    var j :| 0 <= j < |batch| && batch[j].id == id;
    assert !(batch[j].id != "" && RecipeId(batch[j]) == batch[j].id);
  }

  lemma PaddedIdsReturn(id: string) returns (m: Memory, input: Input)
    requires id != "" && Strip(id) != id
    ensures Returns(m, input, id)
  {
    var r := Result(id, "");
    var shown := Snapshot([r], [r], 0);
    m, input := Memory([shown], Some(shown)), Input(true, true, (s: seq<Result>) => s, Some([r]), 1);
    assert Last(View(m), 3) == [shown];
    forall x | x in Excluded(m) ensures x == id {
    }
    assert Unseen([r], Excluded(m)) == [r] by {
      assert [r][..0] == [] && RecipeId(r) !in Excluded(m);
    }
    assert ChangeBatch(m, input).1 == Some([r]);
    assert [r][0].id == id;
  }

  /**
   * Results are compared by their stripped id but remembered by the id as it came: an id can be shown again right
   * after it was shown exactly when the two differ.
   */
  lemma CanReturnIff(id: string)
    requires id != ""
    ensures (exists m, input :: Returns(m, input, id)) <==> Strip(id) != id
  {
    if Strip(id) != id {
      var m, input := PaddedIdsReturn(id);
    }
    forall m, input | Returns(m, input, id) ensures Strip(id) != id {
      ProperIdsStayAway(m, input, id);
    }
  }
}
