/**
 * The append-only log of generated recipe details and what a restart reads back from it
 * (scripts/enrich_milvus_recipe_details.py).
 */
module DetailCache {
  import opened Options

  /** One element of `steps`; `described` is false for a missing or blank description. */
  datatype Step = NotAnObject | Step(kind: string, parameters: bool, described: bool)

  /**
   * A generated detail as `_valid_detail` sees it. `steps`, `seconds` and `servings` are `None` when
   * they are not a list or not a number; `executable` is `None` when it is no boolean.
   */
  datatype Detail = Detail(
    schema: string, aiGenerated: bool, steps: Option<seq<Step>>, seconds: Option<real>, servings: Option<real>,
    executable: Option<bool>, recipeId: string, language: string, body: string)

  datatype Metadata = Metadata(recipeId: string, lang: string, name: string)

  function Lang(md: Metadata): string {
    if md.lang == "en" then "en" else "zh"
  }

  function BusinessKey(md: Metadata): string {
    if md.recipeId == "" then "" else md.recipeId + ":" + Lang(md)
  }

  /** Two records share a business key only if they are the same recipe in the same language. */
  lemma BusinessKeyInjective(a: Metadata, b: Metadata)
    requires a.recipeId != "" && BusinessKey(a) == BusinessKey(b)
    ensures a.recipeId == b.recipeId && Lang(a) == Lang(b)
  {
    var s := BusinessKey(a);
    assert a.recipeId == s[..|s| - 3] && Lang(a) == s[|s| - 2..];
    assert b.recipeId == s[..|s| - 3] && Lang(b) == s[|s| - 2..];
  }

  predicate ValidStep(step: Step) {
    step.Step? && step.kind == "ai_generated_manual" && !step.parameters && step.described
  }

  /** `_valid_detail(detail)`. */
  predicate Valid(d: Detail) {
    && d.schema == "recipe_detail_v1" && d.aiGenerated
    && d.steps.Some? && 2 <= |d.steps.value| <= 12
    && d.seconds.Some? && 60.0 <= d.seconds.value <= 604_800.0
    && d.servings.Some? && 1.0 <= d.servings.value <= 100.0
    && d.executable == Some(false)
    && forall step :: step in d.steps.value ==> ValidStep(step)
  }

  /** `_valid_detail(detail, metadata)`. */
  predicate ValidFor(d: Detail, md: Metadata) {
    Valid(d) && d.recipeId == md.recipeId && d.language == Lang(md)
  }

  /** A line of the log: no JSON, JSON but no object, or an object with its key and its detail, if that is an object. */
  datatype Line = Malformed | OtherJson | Entry(key: string, detail: Option<Detail>)

  predicate Usable(line: Line) {
    line.Entry? && line.key != "" && line.detail.Some? && Valid(line.detail.value)
  }

  /** The map a restart reads: for every key the last usable entry. */
  function Replay(lines: seq<Line>): map<string, Detail> {
    if lines == [] then map[]
    else
      var before := Replay(lines[..|lines| - 1]);
      var last := lines[|lines| - 1];
      if Usable(last) then before[last.key := last.detail.value] else before
  }

  function CountMalformed(lines: seq<Line>): nat {
    if lines == [] then 0
    else CountMalformed(lines[..|lines| - 1]) + if lines[|lines| - 1].Malformed? then 1 else 0
  }

  /** `_read_cache`; it raises at a line that is JSON but no object. */
  method ReadCache(lines: seq<Line>) returns (r: Option<(map<string, Detail>, nat)>)
    ensures r == if OtherJson in lines then None else Some((Replay(lines), CountMalformed(lines)))
  {
    var records, malformed: nat := map[], 0;
    for n := 0 to |lines|
      invariant records == Replay(lines[..n]) && malformed == CountMalformed(lines[..n])
      invariant OtherJson !in lines[..n]
    {
      assert lines[..n + 1][..n] == lines[..n];
      match lines[n]
      case Malformed => malformed := malformed + 1;
      case OtherJson => return None;
      case Entry(key, detail) =>
        if key != "" && detail.Some? && Valid(detail.value) {
          records := records[key := detail.value];
        }
    }
    assert lines[..|lines|] == lines;
    return Some((records, malformed));
  }

  predicate Supports(line: Line, key: string) {
    Usable(line) && line.key == key
  }

  /** Line `n` is the last usable entry of the key. */
  predicate LastFor(lines: seq<Line>, n: nat, key: string) {
    n < |lines| && Supports(lines[n], key) && forall m :: n < m < |lines| ==> !Supports(lines[m], key)
  }

  /** What replaying means, without running it: a key is present with the detail of its last usable entry. */
  lemma {:induction false} ReplayIsLastValid(lines: seq<Line>, key: string)
    ensures key in Replay(lines) <==> exists n: nat :: LastFor(lines, n, key)
    ensures forall n: nat :: LastFor(lines, n, key) ==> Replay(lines)[key] == lines[n].detail.value
  {
    if lines != [] {
      var k := |lines| - 1;
      var init := lines[..k];
      ReplayIsLastValid(init, key);
      if Supports(lines[k], key) {
        assert LastFor(lines, k, key);
      } else {
        forall n: nat ensures LastFor(lines, n, key) <==> LastFor(init, n, key) {
          if LastFor(init, n, key) {
            forall m | n < m < |lines| ensures !Supports(lines[m], key) {
              assert m < k ==> lines[m] == init[m];
            }
          }
          if LastFor(lines, n, key) {
            assert n < k && lines[n] == init[n];
          }
        }
      }
    }
  }

  function Restrict<V>(m: map<string, V>, keys: set<string>): map<string, V> {
    map key | key in m && key in keys :: m[key]
  }

  lemma ReplayAppend(lines: seq<Line>, line: Line, keys: set<string>)
    requires Usable(line) && line.key in keys
    ensures Restrict(Replay(lines + [line]), keys) == Restrict(Replay(lines), keys)[line.key := line.detail.value]
  {
    assert (lines + [line])[..|lines|] == lines;
  }

  // ---- the file, and a line torn by a crash ----

  /** The finished lines of a file and what stands behind the last of them. */
  datatype File = File(lines: seq<string>, open: string)

  function FileOf(content: string): File {
    if content == "" then File([], "")
    else
      var before, last := FileOf(content[..|content| - 1]), content[|content| - 1];
      if last == '\n' then File(before.lines + [before.open], "") else before.(open := before.open + [last])
  }

  /** The lines a reader sees; the last one may lack its end. */
  function LinesOf(content: string): seq<string> {
    var f := FileOf(content);
    f.lines + if f.open == "" then [] else [f.open]
  }

  predicate Whole(content: string) {
    content != "" ==> content[|content| - 1] == '\n'
  }

  predicate OneLine(text: string) {
    '\n' !in text
  }

  lemma {:induction false} TextStaysOpen(content: string, text: string)
    requires OneLine(text)
    ensures FileOf(content + text) == FileOf(content).(open := FileOf(content).open + text)
  {
    if text == "" {
      assert content + text == content;
    } else {
      var n := |text| - 1;
      assert (content + text)[..|content| + n] == content + text[..n];
      TextStaysOpen(content, text[..n]);
      assert FileOf(content).open + text[..n] + [text[n]] == FileOf(content).open + text;
    }
  }

  /** Each entry is appended with its end of line. */
  function Append(content: string, texts: seq<string>): string {
    if texts == [] then content else Append(content, texts[..|texts| - 1]) + texts[|texts| - 1] + "\n"
  }

  lemma OneAppend(content: string, text: string)
    requires OneLine(text)
    ensures FileOf(content + text + "\n") == File(FileOf(content).lines + [FileOf(content).open + text], "")
  {
    TextStaysOpen(content, text);
    assert (content + text + "\n")[..|content + text|] == content + text;
  }

  lemma WholeIff(content: string)
    ensures Whole(content) <==> FileOf(content).open == ""
  {
  }

  lemma OneMoreText(lines: seq<string>, texts: seq<string>)
    requires texts != []
    ensures var n := |texts| - 1;
            n > 0 ==> texts[..n][0] == texts[0] && lines + texts[..n][1..] + ["" + texts[n]] == lines + texts[1..]
  {
    var n := |texts| - 1;
    assert "" + texts[n] == texts[n];
    if n > 0 {
      assert texts[1..] == texts[..n][1..] + [texts[n]];
    }
  }

  /** Of entries appended to a file that a crash left torn, exactly the first is spoilt; on a whole file none is. */
  lemma {:induction false} AppendedLines(content: string, texts: seq<string>)
    requires forall text :: text in texts ==> OneLine(text)
    ensures FileOf(Append(content, texts))
         == if texts == [] then FileOf(content)
            else File(FileOf(content).lines + [FileOf(content).open + texts[0]] + texts[1..], "")
  {
    if texts != [] {
      var n := |texts| - 1;
      AppendedLines(content, texts[..n]);
      OneAppend(Append(content, texts[..n]), texts[n]);
      OneMoreText(FileOf(content).lines + [FileOf(content).open + texts[0]], texts);
      if n == 0 {
        assert texts[..n] == [] && texts[1..] == [];
      }
    }
  }

  lemma AppendsReadAs(content: string, texts: seq<string>)
    requires texts != [] && forall text :: text in texts ==> OneLine(text)
    ensures LinesOf(Append(content, texts))
         == FileOf(content).lines + ([FileOf(content).open + texts[0]] + texts[1..])
  {
    AppendedLines(content, texts);
  }

  /** What is appended reads as lines of its own exactly if the file ended with the end of a line. */
  lemma AppendsAreLinesIff(content: string, texts: seq<string>)
    requires texts != [] && forall text :: text in texts ==> OneLine(text)
    ensures LinesOf(Append(content, texts)) == LinesOf(content) + texts <==> Whole(content)
  {
    var f, after := FileOf(content), LinesOf(Append(content, texts));
    AppendsReadAs(content, texts);
    WholeIff(content);
    if f.open == "" {
      assert LinesOf(content) == f.lines && f.open + texts[0] == texts[0];
      assert [texts[0]] + texts[1..] == texts;
    } else {
      assert |LinesOf(content) + texts| == |after| + 1;
    }
  }

  function Parsed(lines: seq<string>, parse: string -> Line): seq<Line> {
    seq(|lines|, k requires 0 <= k < |lines| => parse(lines[k]))
  }

  /** Then a restart replays the file as the log it stood for, with the appended entries behind it. */
  lemma WholeFilesAreLogs(content: string, texts: seq<string>, parse: string -> Line)
    requires Whole(content) && texts != [] && forall text :: text in texts ==> OneLine(text)
    ensures Parsed(LinesOf(Append(content, texts)), parse) == Parsed(LinesOf(content), parse) + Parsed(texts, parse)
    ensures Whole(Append(content, texts))
  {
    AppendsAreLinesIff(content, texts);
    AppendedLines(content, texts);
    WholeIff(Append(content, texts));
  }
}
