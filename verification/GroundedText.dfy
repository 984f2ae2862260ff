/**
 * The recommendation text of a search (app/agent/fast_path.py): a draft written by a model is accepted only if every
 * bracketed name in it is the name of a current result, and it is completed from the results themselves.
 */
module GroundedText {
  import opened Options
  import opened Sequences
  import opened TextCells

  const OPEN := '【'
  const CLOSE := '】'

  // ---- finding bracketed names ----

  /** Where the first closing bracket stands, or the length of the text. */
  function CloseAt(s: string): (k: nat)
    ensures k <= |s| && CLOSE !in s[..k] && (k < |s| ==> s[k] == CLOSE)
  {
    if s == [] || s[0] == CLOSE then 0
    else
      var k := CloseAt(s[1..]);
      assert s[..k + 1] == [s[0]] + s[1..][..k];
      k + 1
  }

  /** A name starts at the head of `s`: an opening bracket, at least one character, and a closing bracket. */
  predicate StartsName(s: string) {
    s != [] && s[0] == OPEN && 0 < CloseAt(s[1..]) < |s| - 1
  }

  /** `re.findall` for an opening bracket, one or more characters that do not close it, and a closing bracket. */
  function Names(s: string): seq<string> {
    if s == [] then []
    else if StartsName(s) then
      var k := CloseAt(s[1..]);
      [s[1..k + 1]] + Names(s[k + 2..])
    else Names(s[1..])
  }

  /** Every bracketed name is an allowed one. */
  predicate Allowed(s: string, allowed: set<string>) {
    forall n :: n in Names(s) ==> n in allowed
  }

  lemma CloseAtUnique(s: string, k: nat)
    requires k <= |s| && CLOSE !in s[..k] && (k < |s| ==> s[k] == CLOSE)
    ensures CloseAt(s) == k
  {
    var c := CloseAt(s);
    forall i | 0 <= i < k ensures s[i] != CLOSE { assert s[i] == s[..k][i]; }
    forall i | 0 <= i < c ensures s[i] != CLOSE { assert s[i] == s[..c][i]; }
  }

  lemma {:induction false} NoCloseNoNames(s: string)
    requires CLOSE !in s
    ensures Names(s) == []
  {
    if s != [] {
      assert s[1..][..|s| - 1] == s[1..];
      CloseAtUnique(s[1..], |s| - 1);
      NoCloseNoNames(s[1..]);
    }
  }

  lemma {:induction false} NoOpenNoNames(p: string, s: string)
    requires OPEN !in p
    ensures Names(p + s) == Names(s)
  {
    if p == [] {
      assert p + s == s;
    } else {
      assert (p + s)[1..] == p[1..] + s;
      NoOpenNoNames(p[1..], s);
    }
  }

  lemma CleanNext(s: string, allowed: set<string>)
    requires StartsName(s)
    ensures var k := CloseAt(s[1..]);
            Allowed(s, allowed) <==> s[1..k + 1] in allowed && Allowed(s[k + 2..], allowed)
  {
    var k := CloseAt(s[1..]);
    assert Names(s) == [s[1..k + 1]] + Names(s[k + 2..]);
    assert forall n :: n in Names(s) <==> n == s[1..k + 1] || n in Names(s[k + 2..]);
  }

  lemma FirstName(m: string, rest: string)
    requires m != [] && CLOSE !in m
    ensures Names([OPEN] + m + [CLOSE] + rest) == [m] + Names(rest)
  {
    var s := [OPEN] + m + [CLOSE] + rest;
    assert s[1..] == m + [CLOSE] + rest && s[1..][..|m|] == m;
    CloseAtUnique(s[1..], |m|);
    assert s[|m| + 2..] == rest && s[1..|m| + 1] == m;
  }

  /** With its closing bracket in `a`, a name at the head is the same with and without `b`. */
  lemma NameInside(a: string, b: string)
    requires a != [] && CLOSE in a[1..]
    ensures CloseAt((a + b)[1..]) == CloseAt(a[1..]) < |a| - 1
    ensures StartsName(a + b) <==> StartsName(a)
  {
    var k := CloseAt(a[1..]);
    assert k < |a| - 1 by {
      assert a[1..][..|a| - 1] == a[1..];
    }
    assert (a + b)[1..] == a[1..] + b && (a[1..] + b)[..k] == a[1..][..k];
    CloseAtUnique((a + b)[1..], k);
  }

  lemma NoNameInside(a: string)
    requires a != [] && CLOSE !in a[1..]
    ensures Names(a) == []
  {
    assert a[1..][..|a| - 1] == a[1..];
    CloseAtUnique(a[1..], |a| - 1);
    NoCloseNoNames(a[1..]);
  }

  /** A name inside `a` comes first in `a + b` too; the rest of both follows it. */
  lemma NameInsideIsFirst(a: string, b: string, allowed: set<string>)
    requires a != [] && CLOSE in a[1..] && StartsName(a)
    ensures var k := CloseAt(a[1..]);
      && k + 2 <= |a|
      && (Allowed(a + b, allowed) <==> a[1..k + 1] in allowed && Allowed(a[k + 2..] + b, allowed))
      && (Allowed(a, allowed) <==> a[1..k + 1] in allowed && Allowed(a[k + 2..], allowed))
  {
    NameInside(a, b);
    var k := CloseAt(a[1..]);
    assert (a + b)[k + 2..] == a[k + 2..] + b && (a + b)[1..k + 1] == a[1..k + 1];
    CleanNext(a + b, allowed);
    CleanNext(a, allowed);
  }

  // ---- names across the blanks that join the fields ----

  /** A name that two cleaned fields can spell together: across one blank, or the two around an empty field. */
  predicate Spelled(m: string, x: string, y: string) {
    CLOSE !in m && (m == x + " " + y || m == x + "  " + y) && Neat([OPEN] + x) && Neat(y + [CLOSE])
  }

  /** What the second field then holds by itself names only what is allowed. */
  ghost predicate BlankClosed(allowed: set<string>) {
    forall m, x, y :: m in allowed && Spelled(m, x, y) ==> Allowed(y + [CLOSE], allowed)
  }

  /** Where the first name ends when the first closing bracket stands behind `tail`. */
  lemma CloseBehind(tail: string, rest: string)
    requires tail != [] && CLOSE !in tail
    ensures var s := tail + [CLOSE] + rest;
            s[1..] == tail[1..] + [CLOSE] + rest && CloseAt(s[1..]) == |tail| - 1
            && s[1..|tail|] == tail[1..] && s[|tail| + 1..] == rest
            && (StartsName(s) <==> tail[0] == OPEN && |tail| > 1)
  {
    var s := tail + [CLOSE] + rest;
    assert s[1..] == tail[1..] + [CLOSE] + rest && s[1..][..|tail| - 1] == tail[1..];
    CloseAtUnique(s[1..], |tail| - 1);
  }

  lemma NamesBehind(tail: string, rest: string)
    requires tail != [] && CLOSE !in tail
    ensures Names(tail + [CLOSE] + rest)
         == if tail[0] == OPEN && |tail| > 1 then [tail[1..]] + Names(rest) else Names(tail[1..] + [CLOSE] + rest)
  {
    CloseBehind(tail, rest);
  }

  lemma NoNameAtClose(rest: string)
    ensures Names([] + [CLOSE] + rest) == Names(rest)
  {
    assert [] + [CLOSE] + rest == [CLOSE] + rest && ([CLOSE] + rest)[1..] == rest;
  }

  /** Nothing reaches over a closing bracket. */
  lemma {:induction false} NamesAfterClose(tail: string, rest: string)
    requires CLOSE !in tail
    ensures Names(tail + [CLOSE] + rest) == Names(tail + [CLOSE] + []) + Names(rest)
  {
    if tail == [] {
      NoNameAtClose(rest);
      NoNameAtClose([]);
    } else {
      NamesBehind(tail, rest);
      NamesBehind(tail, []);
      if !(tail[0] == OPEN && |tail| > 1) {
        NamesAfterClose(tail[1..], rest);
      }
    }
  }

  lemma SeamAt(a: string, sep: string, b: string) returns (tail: string, rest: string)
    requires a != [] && CLOSE !in a[1..] && CLOSE !in sep && StartsName(a + sep + b)
    ensures b == tail + [CLOSE] + rest && CLOSE !in a[1..] + sep + tail && a[1..] + sep + tail != []
    ensures a + sep + b == [OPEN] + (a[1..] + sep + tail) + [CLOSE] + rest
  {
    var head := a[1..] + sep;
    var all := head + b;
    assert (a + sep + b)[1..] == all;
    var k := CloseAt(all);
    forall i | 0 <= i < |head| ensures all[i] != CLOSE { assert all[i] == head[i]; }
    var j := k - |head|;
    tail, rest := b[..j], b[j + 1..];
    assert b[j] == all[k];
    assert head + tail == all[..k];
  }

  /** Single blanks inside, none at the end. */
  predicate Ends(a: string) {
    Single(a) && (a != [] ==> !IsSpace(a[|a| - 1]))
  }

  /** Single blanks inside, none at the beginning. */
  predicate Begins(b: string) {
    Single(b) && (b != [] ==> !IsSpace(b[0]))
  }

  lemma SplitNeat(b: string, tail: string, rest: string)
    requires b == tail + [CLOSE] + rest && Begins(b)
    ensures Neat(tail + [CLOSE])
  {
    var t := tail + [CLOSE];
    assert b[..|t|] == t;
    forall i | 0 <= i < |t| ensures t[i] == b[i] {
    }
  }

  lemma SeamName(a: string, sep: string, b: string, allowed: set<string>)
    requires BlankClosed(allowed) && (sep == " " || sep == "  ")
    requires a != [] && CLOSE !in a[1..] && Ends(a) && Begins(b)
    requires StartsName(a + sep + b) && Allowed(a + sep + b, allowed)
    ensures Allowed(b, allowed)
  {
    var tail, rest := SeamAt(a, sep, b);
    var m := a[1..] + sep + tail;
    FirstName(m, rest);
    assert m in [m] + Names(rest);
    forall n | n in Names(rest) ensures n in allowed { assert n in [m] + Names(rest); }
    assert [OPEN] + a[1..] == a;
    SplitNeat(b, tail, rest);
    assert Spelled(m, a[1..], tail);
    NamesAfterClose(tail, rest);
    assert tail + [CLOSE] + [] == tail + [CLOSE];
  }

  /** A first name that lies in `a` is the first with and without `b`. */
  lemma NameBeforeTheSeam(a: string, sep: string, b: string, allowed: set<string>) returns (k: nat)
    requires a != [] && CLOSE in a[1..] && StartsName(a) && Ends(a) && Allowed(a + sep + b, allowed)
    ensures 0 < k <= |a| && Ends(a[k..]) && Allowed(a[k..] + sep + b, allowed)
    ensures Allowed(a[k..], allowed) ==> Allowed(a, allowed)
  {
    k := CloseAt(a[1..]) + 2;
    assert a + sep + b == a + (sep + b);
    NameInsideIsFirst(a, sep + b, allowed);
    assert a[k..] + (sep + b) == a[k..] + sep + b;
    SuffixEnds(a, k);
  }

  /** Without a name at its head, `a` can lose its first character. */
  lemma NoNameAtTheHead(a: string, sep: string, b: string, allowed: set<string>)
    requires a != [] && Ends(a) && Allowed(a + sep + b, allowed)
    requires if CLOSE in a[1..] then !StartsName(a) else !StartsName(a + sep + b)
    ensures Ends(a[1..]) && Allowed(a[1..] + sep + b, allowed)
    ensures Allowed(a[1..], allowed) ==> Allowed(a, allowed)
  {
    assert a + sep + b == a + (sep + b) && (a + sep + b)[1..] == a[1..] + sep + b;
    if CLOSE in a[1..] {
      NameInside(a, sep + b);
    } else {
      NoNameInside(a);
    }
    SuffixEnds(a, 1);
  }

  /** Scanning two cleaned texts with blanks between them then finds no less than scanning each. */
  lemma {:induction false} PartsAreClean(a: string, sep: string, b: string, allowed: set<string>)
    requires BlankClosed(allowed) && (sep == " " || sep == "  ") && Ends(a) && Begins(b)
    requires Allowed(a + sep + b, allowed)
    ensures Allowed(a, allowed) && Allowed(b, allowed)
    decreases |a|
  {
    if a == [] {
      NoOpenNoNames(sep, b);
      assert a + sep + b == sep + b;
    } else if CLOSE in a[1..] && StartsName(a) {
      var k := NameBeforeTheSeam(a, sep, b, allowed);
      PartsAreClean(a[k..], sep, b, allowed);
    } else if CLOSE !in a[1..] && StartsName(a + sep + b) {
      NoNameInside(a);
      SeamName(a, sep, b, allowed);
    } else {
      NoNameAtTheHead(a, sep, b, allowed);
      PartsAreClean(a[1..], sep, b, allowed);
    }
  }

  lemma SuffixEnds(s: string, k: nat)
    requires Ends(s) && k <= |s|
    ensures Ends(s[k..])
  {
    forall i | 0 <= i < |s| - k ensures s[k..][i] == s[i + k] {
    }
  }

  lemma OneName(m: string)
    requires m != [] && CLOSE !in m
    ensures Names([OPEN] + m + [CLOSE]) == [m]
  {
    FirstName(m, []);
    assert [OPEN] + m + [CLOSE] + [] == [OPEN] + m + [CLOSE];
  }

  // ---- recommendations ----

  /** A search result: stripped name and id, parsed tags and ingredients, and the cooking reference text. */
  datatype Item = Item(name: string, id: string, tags: seq<string>, ingredients: seq<string>, reference: string)

  datatype Recommendation = Recommendation(
    opening: string, strategy: string, reasons: map<string, string>, closing: string)

  /** A model draft, its texts as they come. */
  datatype Draft = Draft(opening: string, strategy: string, closing: string, reasons: seq<(string, string)>)

  /** The fixed words of one language; `quoted` says whether the closing question puts the name in brackets. */
  datatype Wording = Wording(
    tagged: string, leans: string, uses: string, main: string, reference: string, stop: string, option: string,
    near: string, comma: string, openMany: string, openOne: string, compare: string, quoted: bool,
    closer: string, closerEnd: string, which: string, whichEnd: string, choice: string, choiceEnd: string)

  /** No fixed text holds an opening bracket, and no reason frame is empty. */
  predicate Sober(w: Wording) {
    && OPEN !in w.tagged && OPEN !in w.leans && OPEN !in w.uses && OPEN !in w.main && OPEN !in w.reference
    && OPEN !in w.stop && OPEN !in w.option && OPEN !in w.near && OPEN !in w.comma && OPEN !in w.openMany
    && OPEN !in w.openOne && OPEN !in w.compare && OPEN !in w.closer && OPEN !in w.closerEnd && OPEN !in w.which
    && OPEN !in w.whichEnd && OPEN !in w.choice && OPEN !in w.choiceEnd && w.near != "" && w.stop != "" && w.leans != ""
  }

  function ReasonText(w: Wording, tags: string, ingredients: string, reference: string): string {
    if tags != "" && reference != "" then w.tagged + tags + w.reference + reference + w.stop
    else if tags != "" then w.leans + tags + w.option
    else if ingredients != "" && reference != "" then w.uses + ingredients + w.reference + reference + w.stop
    else if ingredients != "" then w.main + ingredients + w.stop
    else w.near
  }

  /** `_grounded_recipe_reason`: what a result says about itself. */
  function GroundedReason(item: Item, w: Wording): string {
    ReasonText(w, Join(Take(item.tags, 2), w.comma), Join(Take(item.ingredients, 3), w.comma), item.reference)
  }

  function Choices(n: nat, w: Wording): seq<string>
    requires n <= 6
  {
    if n == 0 then [] else Choices(n - 1, w) + [w.choice + ["0123456"[n]] + w.choiceEnd]
  }

  function NamesOf(results: seq<Item>): seq<string> {
    if results == [] then []
    else if results[0].name == "" then NamesOf(results[1..])
    else [results[0].name] + NamesOf(results[1..])
  }

  /** `build_device_cta`. */
  function DeviceCta(results: seq<Item>, w: Wording): string {
    var names := NamesOf(results);
    if names == [] then ""
    else if |names| == 1 then
      w.closer + (if w.quoted then [OPEN] + names[0] + [CLOSE] else names[0]) + w.closerEnd
    else w.which + Join(Choices(if |names| <= 6 then |names| else 6, w), w.comma) + w.whichEnd
  }

  predicate HasFacts(item: Item) {
    item.tags != [] || item.ingredients != [] || item.reference != ""
  }

  function WithFacts(results: seq<Item>): nat {
    if results == [] then 0 else (if HasFacts(results[0]) then 1 else 0) + WithFacts(results[1..])
  }

  function Strategy(results: seq<Item>, w: Wording): string {
    if WithFacts(results) >= 2 then w.compare else ""
  }

  /** Reasons of all results, a later one replacing an earlier one with its id. */
  function OwnReasons(results: seq<Item>, w: Wording): map<string, string> {
    if results == [] then map[]
    else
      var n := |results| - 1;
      var before, item := OwnReasons(results[..n], w), results[n];
      if item.id != "" then before[item.id := GroundedReason(item, w)] else before
  }

  function Fallback(results: seq<Item>, w: Wording): Recommendation {
    Recommendation(if |results| > 1 then w.openMany else w.openOne, Strategy(results, w), OwnReasons(results, w),
                   DeviceCta(results, w))
  }

  function AllowedNames(results: seq<Item>): set<string> { set k | 0 <= k < |results| :: results[k].name }

  function AllowedIds(results: seq<Item>): set<string> { set k | 0 <= k < |results| :: results[k].id }

  /** The reasons of the draft that are kept: about a current result and naming only current results. */
  function Kept(given: seq<(string, string)>, results: seq<Item>): map<string, string> {
    if given == [] then map[]
    else
      var n := |given| - 1;
      var before, key, text := Kept(given[..n], results), Strip(given[n].0), Clean(given[n].1);
      if key in AllowedIds(results) && Allowed(text, AllowedNames(results)) then before[key := text] else before
  }

  /** Reasons of the results that have none yet, from their own fields. */
  function Completed(reasons: map<string, string>, results: seq<Item>, own: map<string, string>): map<string, string> {
    if results == [] then reasons
    else
      var n := |results| - 1;
      var before, id := Completed(reasons, results[..n], own), results[n].id;
      if id != "" && id !in before && id in own then before[id := own[id]] else before
  }

  function Joined(opening: string, strategy: string, closing: string): string {
    opening + " " + strategy + " " + closing
  }

  function Or(text: string, other: string): string { if text != "" then text else other }

  /** `_current_result_recommendation`; `None` is a draft from an unknown source or of a wrong shape. */
  function Recommend(draft: Option<Draft>, results: seq<Item>, w: Wording): Recommendation {
    var fallback := Fallback(results, w);
    if draft.None? then fallback
    else
      var d := draft.value;
      var opening, strategy, closing := Clean(d.opening), Clean(d.strategy), Clean(d.closing);
      if !Allowed(Joined(opening, strategy, closing), AllowedNames(results)) then fallback
      else
        Recommendation(
          Or(opening, fallback.opening), Or(strategy, fallback.strategy),
          Completed(Kept(d.reasons, results), results, fallback.reasons), Or(closing, DeviceCta(results, w)))
  }

  method FallbackReasons(results: seq<Item>, w: Wording) returns (reasons: map<string, string>)
    ensures reasons == OwnReasons(results, w)
  {
    reasons := map[];
    for n := 0 to |results|
      invariant reasons == OwnReasons(results[..n], w)
    {
      assert results[..n + 1][..n] == results[..n];
      if results[n].id != "" { reasons := reasons[results[n].id := GroundedReason(results[n], w)]; }
    }
    assert results[..|results|] == results;
  }

  method KeepReasons(given: seq<(string, string)>, results: seq<Item>) returns (reasons: map<string, string>)
    ensures reasons == Kept(given, results)
  {
    reasons := map[];
    for n := 0 to |given|
      invariant reasons == Kept(given[..n], results)
    {
      assert given[..n + 1][..n] == given[..n];
      var key, text := Strip(given[n].0), Clean(given[n].1);
      if key in AllowedIds(results) && forall m :: m in Names(text) ==> m in AllowedNames(results) {
        reasons := reasons[key := text];
      }
    }
    assert given[..|given|] == given;
  }

  method CompleteReasons(kept: map<string, string>, results: seq<Item>, own: map<string, string>)
    returns (reasons: map<string, string>)
    ensures reasons == Completed(kept, results, own)
  {
    reasons := kept;
    for n := 0 to |results|
      invariant reasons == Completed(kept, results[..n], own)
    {
      assert results[..n + 1][..n] == results[..n];
      var id := results[n].id;
      if id != "" && id !in reasons && id in own { reasons := reasons[id := own[id]]; }
    }
    assert results[..|results|] == results;
  }

  method CurrentRecommendation(draft: Option<Draft>, results: seq<Item>, w: Wording) returns (r: Recommendation)
    ensures r == Recommend(draft, results, w)
  {
    var own := FallbackReasons(results, w);
    var opener := if |results| > 1 then w.openMany else w.openOne;
    var fallback := Recommendation(opener, Strategy(results, w), own, DeviceCta(results, w));
    if draft.None? { return fallback; }
    var d := draft.value;
    var opening, strategy, closing := Clean(d.opening), Clean(d.strategy), Clean(d.closing);
    var joined := opening + " " + strategy + " " + closing;
    if exists m :: m in Names(joined) && m !in AllowedNames(results) { return fallback; }
    var reasons := KeepReasons(d.reasons, results);
    reasons := CompleteReasons(reasons, results, own);
    if opening == "" { opening := fallback.opening; }
    if strategy == "" { strategy := fallback.strategy; }
    r := Recommendation(opening, strategy, reasons, if closing != "" then closing else DeviceCta(results, w));
  }

  // ---- every name shown is a current result ----

  /** Results whose own texts hold no brackets. */
  predicate Plain(item: Item) {
    OPEN !in item.name && CLOSE !in item.name && OPEN !in item.reference
    && (forall t :: t in item.tags ==> OPEN !in t) && forall t :: t in item.ingredients ==> OPEN !in t
  }

  predicate AllPlain(results: seq<Item>) {
    forall item :: item in results ==> Plain(item)
  }

  predicate Grounded(r: Recommendation, allowed: set<string>) {
    Allowed(r.opening, allowed) && Allowed(r.strategy, allowed) && Allowed(r.closing, allowed)
    && forall id :: id in r.reasons ==> Allowed(r.reasons[id], allowed)
  }

  lemma NoOpenIsClean(s: string, allowed: set<string>)
    requires OPEN !in s
    ensures Allowed(s, allowed)
  {
    NoOpenNoNames(s, "");
    assert s + "" == s;
  }

  lemma {:induction false} JoinNoOpen(parts: seq<string>, sep: string)
    requires OPEN !in sep && forall p :: p in parts ==> OPEN !in p
    ensures OPEN !in Join(parts, sep)
  {
    if |parts| >= 1 { assert parts[0] in parts; }
    if |parts| > 1 {
      JoinNoOpen(parts[1..], sep);
    }
  }

  lemma ReasonTextNoOpen(w: Wording, tags: string, ingredients: string, reference: string)
    requires Sober(w) && OPEN !in tags && OPEN !in ingredients && OPEN !in reference
    ensures OPEN !in ReasonText(w, tags, ingredients, reference) && ReasonText(w, tags, ingredients, reference) != ""
  {
  }

  lemma GroundedReasonNoOpen(item: Item, w: Wording)
    requires Plain(item) && Sober(w)
    ensures OPEN !in GroundedReason(item, w)
  {
    JoinNoOpen(Take(item.tags, 2), w.comma);
    JoinNoOpen(Take(item.ingredients, 3), w.comma);
    ReasonTextNoOpen(w, Join(Take(item.tags, 2), w.comma), Join(Take(item.ingredients, 3), w.comma),
                     item.reference);
  }

  lemma {:induction false} ChoicesNoOpen(n: nat, w: Wording)
    requires n <= 6 && Sober(w)
    ensures forall c :: c in Choices(n, w) ==> OPEN !in c
  {
    if n > 0 { ChoicesNoOpen(n - 1, w); }
  }

  lemma {:induction false} NamesOfAreNames(results: seq<Item>, n: string)
    requires n in NamesOf(results)
    ensures n != "" && exists k :: 0 <= k < |results| && results[k].name == n
  {
    if results[0].name == "" || results[0].name != n {
      NamesOfAreNames(results[1..], n);
      var k :| 0 <= k < |results| - 1 && results[1..][k].name == n;
      assert results[k + 1].name == n;
    }
  }

  /** The one name the closing question shows: in brackets it must not hold the closing one, else no opening one. */
  predicate ShowableName(results: seq<Item>, w: Wording) {
    var names := NamesOf(results);
    |names| == 1 ==> (if w.quoted then CLOSE else OPEN) !in names[0]
  }

  /** The closing question names at most the one current result. */
  lemma CtaIsClean(results: seq<Item>, w: Wording)
    requires ShowableName(results, w) && Sober(w)
    ensures Allowed(DeviceCta(results, w), AllowedNames(results))
  {
    var names, allowed := NamesOf(results), AllowedNames(results);
    if |names| == 1 {
      NamesOfAreNames(results, names[0]);
      if w.quoted {
        QuotedIsClean(w.closer, names[0], w.closerEnd, allowed);
      } else {
        NoOpenIsClean(DeviceCta(results, w), allowed);
      }
    } else if names != [] {
      var choices := Choices(if |names| <= 6 then |names| else 6, w);
      ChoicesNoOpen(if |names| <= 6 then |names| else 6, w);
      JoinNoOpen(choices, w.comma);
      NoOpenIsClean(DeviceCta(results, w), allowed);
    }
  }

  lemma QuotedIsClean(before: string, name: string, after: string, allowed: set<string>)
    requires OPEN !in before && OPEN !in after && name in allowed && name != "" && CLOSE !in name
    ensures Allowed(before + ([OPEN] + name + [CLOSE]) + after, allowed)
  {
    NoOpenNoNames(after, "");
    assert after + "" == after;
    FirstName(name, after);
    NoOpenNoNames(before, [OPEN] + name + [CLOSE] + after);
    assert before + ([OPEN] + name + [CLOSE]) + after == before + ([OPEN] + name + [CLOSE] + after);
  }

  lemma {:induction false} OwnReasonsClean(results: seq<Item>, w: Wording, allowed: set<string>)
    requires AllPlain(results) && Sober(w)
    ensures forall id :: id in OwnReasons(results, w) ==> Allowed(OwnReasons(results, w)[id], allowed)
  {
    if results != [] {
      var n := |results| - 1;
      assert forall item :: item in results[..n] ==> item in results;
      OwnReasonsClean(results[..n], w, allowed);
      assert results[n] in results;
      GroundedReasonNoOpen(results[n], w);
      NoOpenIsClean(GroundedReason(results[n], w), allowed);
    }
  }

  /** What the results say about themselves, and the closing question, name only current results. */
  predicate ResultsSpeakForThemselves(results: seq<Item>, w: Wording) {
    var allowed := AllowedNames(results);
    && Allowed(DeviceCta(results, w), allowed)
    && forall id :: id in OwnReasons(results, w) ==> Allowed(OwnReasons(results, w)[id], allowed)
  }

  /** The fixed sentences never name a dish. */
  lemma FallbackIsGrounded(results: seq<Item>, w: Wording)
    requires Sober(w)
    ensures Grounded(Fallback(results, w), AllowedNames(results)) <==> ResultsSpeakForThemselves(results, w)
  {
    NoOpenIsClean(w.openMany, AllowedNames(results));
    NoOpenIsClean(w.openOne, AllowedNames(results));
    NoOpenIsClean("", AllowedNames(results));
    NoOpenIsClean(w.compare, AllowedNames(results));
  }

  lemma {:induction false} KeptClean(given: seq<(string, string)>, results: seq<Item>)
    ensures forall id :: id in Kept(given, results) ==>
              id in AllowedIds(results) && Allowed(Kept(given, results)[id], AllowedNames(results))
  {
    if given != [] { KeptClean(given[..|given| - 1], results); }
  }

  lemma {:induction false} CompletedIs(
    reasons: map<string, string>, results: seq<Item>, own: map<string, string>, id: string)
    ensures id in reasons ==>
              id in Completed(reasons, results, own) && Completed(reasons, results, own)[id] == reasons[id]
    ensures id !in reasons ==>
              (id in Completed(reasons, results, own) <==> id != "" && id in own && id in AllowedIds(results))
    ensures id !in reasons && id in Completed(reasons, results, own) ==> Completed(reasons, results, own)[id] == own[id]
  {
    if results != [] {
      var n := |results| - 1;
      CompletedIs(reasons, results[..n], own, id);
      assert forall k :: 0 <= k < n ==> results[..n][k] == results[k];
      assert AllowedIds(results) == AllowedIds(results[..n]) + {results[n].id};
    }
  }

  lemma {:induction false} OwnReasonsOf(results: seq<Item>, w: Wording, id: string)
    ensures id in OwnReasons(results, w) <==> id != "" && id in AllowedIds(results)
    ensures id in OwnReasons(results, w) ==>
              exists item :: item in results && item.id == id && OwnReasons(results, w)[id] == GroundedReason(item, w)
  {
    if results != [] {
      var n := |results| - 1;
      OwnReasonsOf(results[..n], w, id);
      assert AllowedIds(results) == AllowedIds(results[..n]) + {results[n].id};
      assert results[n] in results && forall item :: item in results[..n] ==> item in results;
    }
  }

  lemma NamesWithoutOpenAreClosed(allowed: set<string>)
    requires forall m :: m in allowed ==> OPEN !in m
    ensures BlankClosed(allowed)
  {
    forall m, x, y | m in allowed && Spelled(m, x, y) ensures Allowed(y + [CLOSE], allowed) {
      assert forall c :: c in y ==> c in m;
      NoOpenIsClean(y + [CLOSE], allowed);
    }
  }

  lemma NamesWithoutBlanksAreClosed(allowed: set<string>)
    requires forall m :: m in allowed ==> ' ' !in m
    ensures BlankClosed(allowed)
  {
    forall m, x, y | Spelled(m, x, y) ensures ' ' in m {
      assert m[|x|] == ' ';
    }
  }

  predicate FieldsAllowed(opening: string, strategy: string, closing: string, allowed: set<string>) {
    Allowed(opening, allowed) && Allowed(strategy, allowed) && Allowed(closing, allowed)
  }

  lemma StrategyAndClosing(strategy: string, closing: string)
    requires Neat(strategy) && Neat(closing) && strategy != []
    ensures Begins(strategy + " " + closing)
  {
    var s, n := strategy + " " + closing, |strategy|;
    forall i | 0 <= i < |s|
      ensures i < n ==> s[i] == strategy[i]
      ensures i == n ==> s[i] == ' '
      ensures i > n ==> s[i] == closing[i - n - 1]
    {
    }
    forall i | 0 <= i < |s| - 1 ensures !(IsSpace(s[i]) && IsSpace(s[i + 1])) {
      if i + 1 < n {
        assert s[i] == strategy[i] && s[i + 1] == strategy[i + 1];
      } else if i + 1 == n {
        assert s[i] == strategy[n - 1];
      } else if i == n {
        assert s[i + 1] == closing[0];
      } else {
        assert s[i] == closing[i - n - 1] && s[i + 1] == closing[i - n - 1 + 1];
      }
    }
  }

  lemma CleanFieldsAreAllowed(opening: string, strategy: string, closing: string, allowed: set<string>)
    requires BlankClosed(allowed) && Neat(opening) && Neat(strategy) && Neat(closing)
    requires Allowed(Joined(opening, strategy, closing), allowed)
    ensures FieldsAllowed(opening, strategy, closing, allowed)
  {
    if strategy == "" {
      assert Joined(opening, strategy, closing) == opening + "  " + closing;
      PartsAreClean(opening, "  ", closing, allowed);
      NoOpenIsClean("", allowed);
    } else {
      assert Joined(opening, strategy, closing) == opening + " " + (strategy + " " + closing);
      StrategyAndClosing(strategy, closing);
      PartsAreClean(opening, " ", strategy + " " + closing, allowed);
      PartsAreClean(strategy, " ", closing, allowed);
    }
  }

  /** Two neat fields that hide a name which is not allowed: accepted together, not allowed by themselves. */
  lemma SeamHidesAName(m: string, x: string, y: string, allowed: set<string>)
    returns (opening: string, strategy: string, closing: string)
    requires m in allowed && Spelled(m, x, y) && !Allowed(y + [CLOSE], allowed)
    ensures Neat(opening) && Neat(strategy) && Neat(closing) && opening != ""
    ensures Allowed(Joined(opening, strategy, closing), allowed)
    ensures (strategy != "" && !Allowed(strategy, allowed)) || (closing != "" && !Allowed(closing, allowed))
  {
    opening := [OPEN] + x;
    if m == x + " " + y {
      strategy, closing := y + [CLOSE], "";
      assert Joined(opening, strategy, closing) == [OPEN] + m + [CLOSE] + " ";
      FirstName(m, " ");
      NoOpenIsClean(" ", allowed);
    } else {
      strategy, closing := "", y + [CLOSE];
      assert Joined(opening, strategy, closing) == [OPEN] + m + [CLOSE];
      OneName(m);
    }
  }

  /** Accepting a draft by scanning its cleaned fields in one go is safe for exactly these sets of names. */
  lemma PartsAreCleanIff(allowed: set<string>)
    ensures BlankClosed(allowed) <==>
            forall o, s, c :: Allowed(Joined(Clean(o), Clean(s), Clean(c)), allowed) ==>
                FieldsAllowed(Clean(o), Clean(s), Clean(c), allowed)
  {
    if BlankClosed(allowed) {
      forall o, s, c | Allowed(Joined(Clean(o), Clean(s), Clean(c)), allowed)
        ensures FieldsAllowed(Clean(o), Clean(s), Clean(c), allowed)
      {
        CleanIsNeat(o);
        CleanIsNeat(s);
        CleanIsNeat(c);
        CleanFieldsAreAllowed(Clean(o), Clean(s), Clean(c), allowed);
      }
    } else {
      var m, x, y :| m in allowed && Spelled(m, x, y) && !Allowed(y + [CLOSE], allowed);
      var o, s, c := SeamHidesAName(m, x, y, allowed);
      CleanKeepsExactlyNeat(o);
      CleanKeepsExactlyNeat(s);
      CleanKeepsExactlyNeat(c);
      assert !FieldsAllowed(Clean(o), Clean(s), Clean(c), allowed);
    }
  }

  lemma AnswerIsGrounded(draft: Option<Draft>, results: seq<Item>, w: Wording)
    requires BlankClosed(AllowedNames(results)) && Sober(w) && ResultsSpeakForThemselves(results, w)
    ensures Grounded(Recommend(draft, results, w), AllowedNames(results))
  {
    var allowed, r := AllowedNames(results), Recommend(draft, results, w);
    FallbackIsGrounded(results, w);
    if draft.Some? {
      var d := draft.value;
      if Allowed(Joined(Clean(d.opening), Clean(d.strategy), Clean(d.closing)), allowed) {
        PartsAreCleanIff(allowed);
        KeptClean(d.reasons, results);
        var own := Fallback(results, w).reasons;
        forall id | id in r.reasons ensures Allowed(r.reasons[id], allowed) {
          CompletedIs(Kept(d.reasons, results), results, own, id);
        }
      }
    }
  }

  /** A draft whose answer names what is no current result. */
  lemma SomeDraftIsNot(results: seq<Item>, w: Wording) returns (d: Draft)
    requires !BlankClosed(AllowedNames(results))
    ensures !Grounded(Recommend(Some(d), results, w), AllowedNames(results))
  {
    var allowed := AllowedNames(results);
    var m, x, y :| m in allowed && Spelled(m, x, y) && !Allowed(y + [CLOSE], allowed);
    var o, s, c := SeamHidesAName(m, x, y, allowed);
    CleanKeepsExactlyNeat(o);
    CleanKeepsExactlyNeat(s);
    CleanKeepsExactlyNeat(c);
    d := Draft(o, s, c, []);
  }

  /**
   * Every bracketed name in the answer is a current result's, whatever the draft, exactly if the results' own texts
   * name only current results and no name can be spelled across two fields to hide another.
   */
  lemma EveryNameIsCurrent(results: seq<Item>, w: Wording)
    requires Sober(w)
    ensures (forall draft :: Grounded(Recommend(draft, results, w), AllowedNames(results)))
       <==> BlankClosed(AllowedNames(results)) && ResultsSpeakForThemselves(results, w)
  {
    if !BlankClosed(AllowedNames(results)) {
      var d := SomeDraftIsNot(results, w);
    } else if ResultsSpeakForThemselves(results, w) {
      forall draft ensures Grounded(Recommend(draft, results, w), AllowedNames(results)) {
        AnswerIsGrounded(draft, results, w);
      }
    } else {
      FallbackIsGrounded(results, w);
      assert !Grounded(Recommend(None, results, w), AllowedNames(results));
    }
  }

  const SOUP := [Item("s 【n", "1", [], [], "")]
  const SPLIT := Draft("【s", "【n】", "", [])

  lemma SplitIsClean()
    ensures Clean("【s") == "【s" && Clean("【n】") == "【n】" && Clean("") == ""
  {
    CleanKeepsExactlyNeat("【s");
    CleanKeepsExactlyNeat("【n】");
    CleanKeepsExactlyNeat("");
  }

  lemma SplitIsAccepted(allowed: set<string>)
    requires "s 【n" in allowed
    ensures Allowed(Joined("【s", "【n】", ""), allowed)
  {
    assert Joined("【s", "【n】", "") == [OPEN] + "s 【n" + [CLOSE] + " ";
    FirstName("s 【n", " ");
    NoOpenIsClean(" ", allowed);
  }

  /** One result, named `s 【n`, and a draft that shows the name `n`, which is no result's. */
  lemma ADraftThatSlipsThrough(w: Wording)
    ensures Recommend(Some(SPLIT), SOUP, w).strategy == "【n】" && Names("【n】") == ["n"]
    ensures AllowedNames(SOUP) == {"s 【n"} && "n" !in AllowedNames(SOUP)
  {
    assert SOUP[0].name == "s 【n" && AllowedNames(SOUP) == {"s 【n"};
    SplitIsClean();
    SplitIsAccepted(AllowedNames(SOUP));
    OneName("n");
    assert [OPEN] + "n" + [CLOSE] == "【n】";
    assert |"s 【n"| != |"n"|;
  }

  /** Results whose texts hold no brackets are safe with every draft. */
  lemma PlainResultsAreSafe(results: seq<Item>, w: Wording, draft: Option<Draft>)
    requires AllPlain(results) && Sober(w)
    ensures Grounded(Recommend(draft, results, w), AllowedNames(results))
  {
    forall m | m in AllowedNames(results) ensures OPEN !in m {
      var k :| 0 <= k < |results| && results[k].name == m;
      assert results[k] in results;
    }
    NamesWithoutOpenAreClosed(AllowedNames(results));
    if |NamesOf(results)| == 1 {
      NamesOfAreNames(results, NamesOf(results)[0]);
      var k :| 0 <= k < |results| && results[k].name == NamesOf(results)[0];
      assert results[k] in results;
    }
    CtaIsClean(results, w);
    OwnReasonsClean(results, w, AllowedNames(results));
    AnswerIsGrounded(draft, results, w);
  }

  /** The reason a draft gives for a result, if the draft as a whole and that reason are accepted. */
  function DraftReason(draft: Option<Draft>, results: seq<Item>, id: string): Option<string> {
    if draft.None? then None
    else
      var d := draft.value;
      if !Allowed(Joined(Clean(d.opening), Clean(d.strategy), Clean(d.closing)), AllowedNames(results)) then None
      else Get(Kept(d.reasons, results), id)
  }

  /**
   * Every result with an id has an entry, and entries are only about current results. A reason the draft gives
   * stands; the others say what a result with that id says about itself.
   */
  lemma EveryResultHasAReason(draft: Option<Draft>, results: seq<Item>, w: Wording, id: string)
    ensures var r := Recommend(draft, results, w);
      && (id != "" && id in AllowedIds(results) ==> id in r.reasons)
      && (id in r.reasons ==>
            && id in AllowedIds(results)
            && if DraftReason(draft, results, id).Some? then r.reasons[id] == DraftReason(draft, results, id).value
               else exists item :: item in results && item.id == id && r.reasons[id] == GroundedReason(item, w))
  {
    OwnReasonsOf(results, w, id);
    if draft.Some? {
      KeptClean(draft.value.reasons, results);
      CompletedIs(Kept(draft.value.reasons, results), results, Fallback(results, w).reasons, id);
    }
  }

  /** A result is shown without any reason text exactly when an accepted draft gives it an empty one. */
  lemma BlankReasonIff(draft: Option<Draft>, results: seq<Item>, w: Wording, id: string)
    requires id != "" && id in AllowedIds(results) && Sober(w)
    ensures var r := Recommend(draft, results, w);
            id in r.reasons && (r.reasons[id] == "" <==> DraftReason(draft, results, id) == Some(""))
  {
    EveryResultHasAReason(draft, results, w, id);
    forall item: Item ensures GroundedReason(item, w) != "" {
    }
  }

  /** A draft that is accepted and leaves its one result without a word. */
  lemma ADraftWithoutAReason(w: Wording)
    ensures var r := Recommend(Some(Draft("", "", "", [("1", "")])), SOUP, w);
            "1" in r.reasons && r.reasons["1"] == ""
  {
    var d := Draft("", "", "", [("1", "")]);
    assert SOUP[0].id == "1" && "1" in AllowedIds(SOUP);
    CleanKeepsExactlyNeat("");
    assert Joined("", "", "") == "  ";
    NoOpenIsClean("  ", AllowedNames(SOUP));
    NoOpenIsClean("", AllowedNames(SOUP));
    assert d.reasons[..0] == [] && Kept(d.reasons, SOUP) == map["1" := ""];
    EveryResultHasAReason(Some(d), SOUP, w, "1");
  }

  // ---- which text is shown where ----

  /** The draft is accepted as a whole: its fields, joined, name only current results. */
  predicate AcceptedDraft(draft: Option<Draft>, results: seq<Item>) {
    draft.Some?
    && Allowed(Clean(draft.value.opening) + " " + Clean(draft.value.strategy) + " " + Clean(draft.value.closing),
               AllowedNames(results))
  }

  /** At least two results have something to compare. */
  predicate Comparable(results: seq<Item>) {
    exists i, j :: 0 <= i < j < |results| && HasFacts(results[i]) && HasFacts(results[j])
  }

  lemma FactsAreExact(item: Item)
    ensures HasFacts(item) <==> |item.tags| > 0 || |item.ingredients| > 0 || |item.reference| > 0
  {
  }

  lemma {:induction false} FactsAreCounted(results: seq<Item>)
    ensures WithFacts(results) >= 1 <==> exists i :: 0 <= i < |results| && HasFacts(results[i])
    ensures WithFacts(results) >= 2 <==> Comparable(results)
  {
    if results != [] {
      var rest := results[1..];
      FactsAreCounted(rest);
      if i, j :| 0 <= i < j < |results| && HasFacts(results[i]) && HasFacts(results[j]) {
        assert rest[j - 1] == results[j] && (i > 0 ==> rest[i - 1] == results[i]);
      }
      if i, j :| 0 <= i < j < |rest| && HasFacts(rest[i]) && HasFacts(rest[j]) {
        assert results[i + 1] == rest[i] && results[j + 1] == rest[j];
      }
      if i :| 0 <= i < |rest| && HasFacts(rest[i]) {
        assert results[i + 1] == rest[i];
      }
      if i :| 0 <= i < |results| && HasFacts(results[i]) {
        assert i > 0 ==> rest[i - 1] == results[i];
      }
    }
  }

  /** Each field of an accepted draft is shown in its own place unless it is empty; else the words of the results. */
  lemma FieldsAreShown(draft: Option<Draft>, results: seq<Item>, w: Wording)
    ensures var r, accepted := Recommend(draft, results, w), AcceptedDraft(draft, results);
      && r.opening == (if accepted && Clean(draft.value.opening) != "" then Clean(draft.value.opening)
                       else if |results| > 1 then w.openMany else w.openOne)
      && r.strategy == (if accepted && Clean(draft.value.strategy) != "" then Clean(draft.value.strategy)
                        else if Comparable(results) then w.compare else "")
      && r.closing == (if accepted && Clean(draft.value.closing) != "" then Clean(draft.value.closing)
                       else DeviceCta(results, w))
  {
    FactsAreCounted(results);
  }

  /** The names of the results in order, those without one left out. */
  lemma {:induction false} NamesInOrder(front: seq<Item>, item: Item, back: seq<Item>)
    ensures NamesOf(front + [item] + back)
         == NamesOf(front) + (if item.name != "" then [item.name] else []) + NamesOf(back)
  {
    var all := front + [item] + back;
    if front == [] {
      assert all[1..] == back;
    } else {
      assert all[1..] == front[1..] + [item] + back;
      NamesInOrder(front[1..], item, back);
    }
  }

  lemma {:induction false} ChoiceAt(n: nat, w: Wording, k: nat)
    requires k < n <= 6
    ensures |Choices(n, w)| == n && Choices(n, w)[k] == w.choice + ["123456"[k]] + w.choiceEnd
  {
    if k < n - 1 { ChoiceAt(n - 1, w, k); } else if n > 1 { ChoiceAt(n - 1, w, 0); }
  }

  /** The closing question: none without names, about the one by name, else which of the first six by number. */
  lemma QuestionIsExact(results: seq<Item>, w: Wording)
    ensures var names, q := NamesOf(results), DeviceCta(results, w);
      && (|names| == 0 ==> q == "")
      && (|names| == 1 && w.quoted ==> q == w.closer + ([OPEN] + names[0] + [CLOSE]) + w.closerEnd)
      && (|names| == 1 && !w.quoted ==> q == w.closer + names[0] + w.closerEnd)
      && (1 < |names| <= 6 ==> q == w.which + Join(Choices(|names|, w), w.comma) + w.whichEnd)
      && (|names| > 6 ==> q == w.which + Join(Choices(6, w), w.comma) + w.whichEnd)
  {
  }

  /** What a result says of itself: by its first two tags, or first three ingredients, with the effort if known. */
  lemma ReasonIsExact(item: Item, w: Wording)
    ensures var r := GroundedReason(item, w);
            var tags := Join(if |item.tags| > 2 then item.tags[..2] else item.tags, w.comma);
            var ingredients :=
              Join(if |item.ingredients| > 3 then item.ingredients[..3] else item.ingredients, w.comma);
      && (tags != "" && item.reference != "" ==> r == w.tagged + tags + w.reference + item.reference + w.stop)
      && (tags != "" && item.reference == "" ==> r == w.leans + tags + w.option)
      && (tags == "" && ingredients != "" && item.reference != "" ==>
            r == w.uses + ingredients + w.reference + item.reference + w.stop)
      && (tags == "" && ingredients != "" && item.reference == "" ==> r == w.main + ingredients + w.stop)
      && (tags == "" && ingredients == "" ==> r == w.near)
  {
  }

  /** The reason at `k` is about this current result and names only current results. */
  predicate Keeps(given: seq<(string, string)>, results: seq<Item>, id: string, k: nat) {
    k < |given| && Strip(given[k].0) == id && id in AllowedIds(results)
    && Allowed(Clean(given[k].1), AllowedNames(results))
  }

  /** Of those reasons the last one is kept. */
  lemma {:induction false} KeptIsLast(given: seq<(string, string)>, results: seq<Item>, id: string, k: nat)
    requires Keeps(given, results, id, k) && forall j: nat :: k < j < |given| ==> !Keeps(given, results, id, j)
    ensures id in Kept(given, results) && Kept(given, results)[id] == Clean(given[k].1)
  {
    var n := |given| - 1;
    if k < n {
      assert !Keeps(given, results, id, n);
      forall j: nat | k < j < n ensures !Keeps(given[..n], results, id, j) {
        assert !Keeps(given, results, id, j);
      }
      KeptIsLast(given[..n], results, id, k);
    }
  }

  lemma {:induction false} KeptIsGiven(given: seq<(string, string)>, results: seq<Item>, id: string)
    requires id in Kept(given, results)
    ensures exists k: nat :: Keeps(given, results, id, k)
  {
    var n := |given| - 1;
    if id in Kept(given[..n], results) {
      KeptIsGiven(given[..n], results, id);
      var k: nat :| Keeps(given[..n], results, id, k);
      assert Keeps(given, results, id, k);
    } else {
      assert Keeps(given, results, id, n);
    }
  }
}
