/**
 * Reading recipe rows from a worksheet and checking their image addresses
 * (scripts/check_recipe_image_urls.py). Whether an address answers is an input.
 */
module ImageAudit {
  import opened Options
  import opened Sequences
  import opened TextCells

  // ---- column letters ----

  predicate Letter(c: char) { 'A' <= c <= 'Z' }

  predicate AllLetters(s: string) { forall k :: 0 <= k < |s| ==> Letter(s[k]) }

  /** The letters a cell reference begins with. */
  function Letters(reference: string): (r: string)
    ensures AllLetters(r) && r <= reference
    ensures |r| < |reference| ==> !Letter(reference[|r|])
  {
    if reference == "" || !Letter(reference[0]) then "" else [reference[0]] + Letters(reference[1..])
  }

  /** Bijective base 26: A is 1, Z is 26, AA is 27. */
  function Value(letters: string): nat
    requires AllLetters(letters)
  {
    if letters == "" then 0 else Value(letters[..|letters| - 1]) * 26 + (letters[|letters| - 1] as int - 64)
  }

  function ColumnIndex(reference: string): int { Value(Letters(reference)) - 1 }

  method ReadColumnIndex(reference: string) returns (index: int)
    ensures index == ColumnIndex(reference)
    ensures index == -1 <==> Letters(reference) == ""
  {
    var letters := Letters(reference);
    if letters == "" { return -1; }
    var value: nat := 0;
    for n := 0 to |letters|
      invariant value == Value(letters[..n]) && (n > 0 ==> value > 0)
    {
      assert letters[..n + 1][..n] == letters[..n];
      value := value * 26 + (letters[n] as int - 64);
    }
    assert letters[..|letters|] == letters;
    return value - 1;
  }

  /** The letters of a column, counted from 1. */
  function ColumnName(n: nat): string {
    if n == 0 then "" else ColumnName((n - 1) / 26) + [(65 + (n - 1) % 26) as char]
  }

  lemma {:induction false} NameOfValue(letters: string)
    requires AllLetters(letters)
    ensures ColumnName(Value(letters)) == letters
  {
    if letters != "" {
      var init, digit := letters[..|letters| - 1], letters[|letters| - 1] as int - 64;
      NameOfValue(init);
      assert Value(letters) - 1 == Value(init) * 26 + (digit - 1) && 0 <= digit - 1 < 26;
      assert (Value(letters) - 1) / 26 == Value(init) && (Value(letters) - 1) % 26 == digit - 1;
    }
  }

  lemma {:induction false} ValueOfName(n: nat)
    ensures AllLetters(ColumnName(n)) && Value(ColumnName(n)) == n
    ensures n > 0 ==> ColumnName(n) != ""
  {
    if n > 0 {
      ValueOfName((n - 1) / 26);
      var name := ColumnName(n);
      assert name[..|name| - 1] == ColumnName((n - 1) / 26);
    }
  }

  lemma {:induction false} LettersOfLetters(s: string)
    requires AllLetters(s)
    ensures Letters(s) == s
  {
    if s != "" { LettersOfLetters(s[1..]); }
  }

  /** The index is a bijection between non-empty letter texts and the naturals: `ColumnName` undoes it one way ... */
  lemma NameUndoesIndex(letters: string)
    requires AllLetters(letters) && letters != ""
    ensures ColumnIndex(letters) >= 0 && ColumnName(ColumnIndex(letters) + 1) == letters
  {
    LettersOfLetters(letters);
    NameOfValue(letters);
    assert ColumnIndex(letters) + 1 == Value(letters);
    assert ColumnName(0) == "";
  }

  /** ... and the other. */
  lemma IndexUndoesName(n: nat)
    ensures AllLetters(ColumnName(n + 1)) && ColumnName(n + 1) != "" && ColumnIndex(ColumnName(n + 1)) == n
  {
    var name := ColumnName(n + 1);
    ValueOfName(n + 1);
    LettersOfLetters(name);
  }

  /** Columns come as in a worksheet: by length, then letter by letter. */
  predicate Earlier(s: string, t: string) {
    |s| < |t| || (|s| == |t| && exists k :: 0 <= k < |s| && s[..k] == t[..k] && s[k] < t[k])
  }

  /** 26 to the power of `n`. */
  function Power(n: nat): nat {
    if n == 0 then 1 else 26 * Power(n - 1)
  }

  /** The number of names shorter than `n` letters, that without letters included. */
  function Shorter(n: nat): nat {
    if n == 0 then 0 else Shorter(n - 1) + Power(n - 1)
  }

  lemma {:induction false} ShorterNext(n: nat)
    ensures Shorter(n + 1) == 26 * Shorter(n) + 1
  {
    if n > 0 { ShorterNext(n - 1); }
  }

  /** The value of a name lies behind those of all shorter ones. */
  lemma {:induction false} ValueOfLength(s: string)
    requires AllLetters(s)
    ensures Shorter(|s|) <= Value(s) < Shorter(|s| + 1)
  {
    if s != "" {
      var n := |s| - 1;
      ValueOfLength(s[..n]);
      assert Letter(s[n]);
      ShorterNext(n);
      ShorterNext(n + 1);
    }
  }

  lemma {:induction false} ShorterRises(m: nat, n: nat)
    requires m <= n
    ensures Shorter(m) <= Shorter(n)
    decreases n
  {
    if m < n { ShorterRises(m, n - 1); }
  }

  lemma {:induction false} EarlierOfSameLength(s: string, t: string, k: nat)
    requires AllLetters(s) && AllLetters(t) && |s| == |t| && k < |s| && s[..k] == t[..k] && s[k] < t[k]
    ensures Value(s) < Value(t)
  {
    var n := |s| - 1;
    assert Letter(s[n]) && Letter(t[n]);
    if k == n {
      assert s[..n] == t[..n];
    } else {
      assert s[..n][..k] == s[..k] && t[..n][..k] == t[..k];
      EarlierOfSameLength(s[..n], t[..n], k);
    }
  }

  lemma {:induction false} FirstDifference(s: string, t: string) returns (k: nat)
    requires |s| == |t| && s != t
    ensures k < |s| && s[..k] == t[..k] && s[k] != t[k]
  {
    if s[0] != t[0] {
      k := 0;
    } else {
      assert s == [s[0]] + s[1..] && t == [t[0]] + t[1..];
      var j := FirstDifference(s[1..], t[1..]);
      k := j + 1;
      assert s[..k] == [s[0]] + s[1..][..j] && t[..k] == [t[0]] + t[1..][..j];
    }
  }

  /** The index counts the columns in this order: an earlier name has the smaller index. */
  lemma IndexFollowsOrder(s: string, t: string)
    requires AllLetters(s) && AllLetters(t) && s != "" && t != ""
    ensures ColumnIndex(s) < ColumnIndex(t) <==> Earlier(s, t)
    ensures ColumnIndex("A") == 0
  {
    LettersOfLetters(s);
    LettersOfLetters(t);
    LettersOfLetters("A");
    assert "A"[..0] == "";
    if Earlier(s, t) {
      EarlierIsLess(s, t);
    } else if s != t {
      if |s| == |t| {
        var k := FirstDifference(s, t);
        assert t[..k] == s[..k] && t[k] < s[k];
      }
      assert Earlier(t, s);
      EarlierIsLess(t, s);
    }
  }

  lemma EarlierIsLess(s: string, t: string)
    requires AllLetters(s) && AllLetters(t) && Earlier(s, t)
    ensures Value(s) < Value(t)
  {
    if |s| < |t| {
      ValueOfLength(s);
      ValueOfLength(t);
      ShorterRises(|s| + 1, |t|);
    } else {
      var k :| 0 <= k < |s| && s[..k] == t[..k] && s[k] < t[k];
      EarlierOfSameLength(s, t, k);
    }
  }

  // ---- rows ----

  datatype Cell = Cell(reference: string, value: string)

  datatype Ref = Ref(id: string, name: string, lang: string)

  /** The text of the last cell in column `index`. */
  function LastAt(cells: seq<Cell>, index: nat): Option<string> {
    if cells == [] then None
    else
      var last := cells[|cells| - 1];
      if ColumnIndex(last.reference) == index then Some(Strip(last.value)) else LastAt(cells[..|cells| - 1], index)
  }

  /** `headers` with a text at `index`, padded with empty texts up to there. */
  function Placed(headers: seq<string>, index: nat, text: string): (r: seq<string>)
    ensures |r| == if index < |headers| then |headers| else index + 1
    ensures forall k :: 0 <= k < |r| ==> r[k] == if k == index then text else if k < |headers| then headers[k] else ""
  {
    if index < |headers| then headers[index := text]
    else headers + seq(index - |headers|, i => "") + [text]
  }

  function Headers(cells: seq<Cell>): seq<string> {
    if cells == [] then []
    else
      var before, last := Headers(cells[..|cells| - 1]), cells[|cells| - 1];
      if ColumnIndex(last.reference) < 0 then before else Placed(before, ColumnIndex(last.reference), Strip(last.value))
  }

  method ReadHeaders(cells: seq<Cell>) returns (headers: seq<string>)
    ensures headers == Headers(cells)
  {
    headers := [];
    for n := 0 to |cells|
      invariant headers == Headers(cells[..n])
    {
      assert cells[..n + 1][..n] == cells[..n];
      var index := ReadColumnIndex(cells[n].reference);
      if index >= 0 {
        var before := headers;
        headers := headers + seq(if index < |headers| then 0 else index - |headers| + 1, i => "");
        headers := headers[index := Strip(cells[n].value)];
        assert headers == Placed(before, index, Strip(cells[n].value));
      }
    }
    assert cells[..|cells|] == cells;
  }

  /** A header is the text of its own column, whatever the order and gaps of the cells. */
  lemma {:induction false} HeaderIsItsCell(cells: seq<Cell>, index: nat)
    ensures index < |Headers(cells)| ==> Headers(cells)[index] == LastAt(cells, index).GetOr("")
    ensures LastAt(cells, index).Some? ==> index < |Headers(cells)|
    ensures index + 1 == |Headers(cells)| ==> LastAt(cells, index).Some?
  {
    if cells != [] { HeaderIsItsCell(cells[..|cells| - 1], index); }
  }

  /** A data row by header: every header empty, then each cell of a headed column in turn. */
  function Record(headers: seq<string>, cells: seq<Cell>): map<string, string> {
    if cells == [] then map h | h in headers :: ""
    else
      var before, last := Record(headers, cells[..|cells| - 1]), cells[|cells| - 1];
      var index := ColumnIndex(last.reference);
      if 0 <= index < |headers| then before[headers[index] := Strip(last.value)] else before
  }

  method ReadRecord(headers: seq<string>, cells: seq<Cell>) returns (record: map<string, string>)
    ensures record == Record(headers, cells)
  {
    record := map h | h in headers :: "";
    for n := 0 to |cells|
      invariant record == Record(headers, cells[..n])
    {
      assert cells[..n + 1][..n] == cells[..n];
      var index := ReadColumnIndex(cells[n].reference);
      if 0 <= index < |headers| { record := record[headers[index] := Strip(cells[n].value)]; }
    }
    assert cells[..|cells|] == cells;
  }

  /** A column whose header stands nowhere else is read as its own last cell, or as empty. */
  lemma {:induction false} ColumnIsItsCell(headers: seq<string>, cells: seq<Cell>, index: nat)
    requires index < |headers| && forall k :: 0 <= k < |headers| && k != index ==> headers[k] != headers[index]
    ensures headers[index] in Record(headers, cells)
    ensures Record(headers, cells)[headers[index]] == LastAt(cells, index).GetOr("")
  {
    if cells != [] { ColumnIsItsCell(headers, cells[..|cells| - 1], index); }
  }

  // ---- grouping by address ----

  /** One data row: its address and who it is about. */
  datatype Line = Line(url: string, who: Ref)

  /** `record.get(header, "")`. */
  function Field(record: map<string, string>, header: string): string {
    Get(record, header).GetOr("")
  }

  function LineOf(headers: seq<string>, cells: seq<Cell>): Line {
    var r := Record(headers, cells);
    Line(Field(r, "图片地址"), Ref(Field(r, "id"), Field(r, "名称"), Field(r, "lang")))
  }

  /** The column of a header that stands only there, as its row has it. */
  predicate HeaderAt(headers: seq<string>, header: string, index: nat) {
    index < |headers| && headers[index] == header
    && forall k :: 0 <= k < |headers| && k != index ==> headers[k] != header
  }

  /** A line has its address and its recipe from the columns of that name. */
  lemma LineIsItsColumns(headers: seq<string>, cells: seq<Cell>, url: nat, id: nat, name: nat, lang: nat)
    requires HeaderAt(headers, "图片地址", url) && HeaderAt(headers, "id", id)
    requires HeaderAt(headers, "名称", name) && HeaderAt(headers, "lang", lang)
    ensures LineOf(headers, cells)
         == Line(LastAt(cells, url).GetOr(""),
                 Ref(LastAt(cells, id).GetOr(""), LastAt(cells, name).GetOr(""), LastAt(cells, lang).GetOr("")))
  {
    ColumnIsItsCell(headers, cells, url);
    ColumnIsItsCell(headers, cells, id);
    ColumnIsItsCell(headers, cells, name);
    ColumnIsItsCell(headers, cells, lang);
  }

  /** One line for each data row, in order. */
  lemma LinesInOrder(headers: seq<string>, rows: seq<seq<Cell>>, k: nat)
    requires k < |rows|
    ensures Lines(headers, rows[..k + 1]) == Lines(headers, rows[..k]) + [LineOf(headers, rows[k])]
    ensures Lines(headers, []) == []
  {
    assert rows[..k + 1][..k] == rows[..k];
  }

  /** The text of a column is that of the last cell whose reference names it. */
  lemma {:induction false} LastAtIsLast(cells: seq<Cell>, index: nat, k: nat)
    requires k < |cells| && ColumnIndex(cells[k].reference) == index
    requires forall j :: k < j < |cells| ==> ColumnIndex(cells[j].reference) != index
    ensures LastAt(cells, index) == Some(Strip(cells[k].value))
  {
    if k < |cells| - 1 { LastAtIsLast(cells[..|cells| - 1], index, k); }
  }

  function Lines(headers: seq<string>, rows: seq<seq<Cell>>): seq<Line> {
    if rows == [] then [] else Lines(headers, rows[..|rows| - 1]) + [LineOf(headers, rows[|rows| - 1])]
  }

  /** Who the lines with this address are about, in order. */
  function About(lines: seq<Line>, url: string): seq<Ref> {
    if lines == [] then []
    else
      var before, last := About(lines[..|lines| - 1], url), lines[|lines| - 1];
      if last.url == url then before + [last.who] else before
  }

  lemma AboutNext(lines: seq<Line>, line: Line)
    ensures forall u ::
              About(lines + [line], u) == if u == line.url then About(lines, u) + [line.who] else About(lines, u)
  {
    assert (lines + [line])[..|lines|] == lines;
  }

  method ReadLine(headers: seq<string>, cells: seq<Cell>) returns (line: Line)
    ensures line == LineOf(headers, cells)
  {
    var r := ReadRecord(headers, cells);
    line := Line(Field(r, "图片地址"), Ref(Field(r, "id"), Field(r, "名称"), Field(r, "lang")));
  }

  /** The lines under their addresses, each in order, and those without one. */
  ghost predicate Grouped(byUrl: map<string, seq<Ref>>, missing: seq<Ref>, lines: seq<Line>) {
    && missing == About(lines, "")
    && forall u :: Get(byUrl, u) == if u != "" && About(lines, u) != [] then Some(About(lines, u)) else None
  }

  /** One line more: appended under its address, or to the lines without one. */
  lemma GroupedNext(byUrl: map<string, seq<Ref>>, missing: seq<Ref>, lines: seq<Line>, line: Line)
    requires Grouped(byUrl, missing, lines)
    ensures line.url != "" ==>
              Grouped(byUrl[line.url := Get(byUrl, line.url).GetOr([]) + [line.who]], missing, lines + [line])
    ensures line.url == "" ==> Grouped(byUrl, missing + [line.who], lines + [line])
  {
    AboutNext(lines, line);
    assert [] + [line.who] == [line.who];
  }

  method ReadRecipeRefs(headerCells: seq<Cell>, rows: seq<seq<Cell>>)
    returns (byUrl: map<string, seq<Ref>>, missing: seq<Ref>)
    ensures Grouped(byUrl, missing, Lines(Headers(headerCells), rows))
  {
    var headers := ReadHeaders(headerCells);
    byUrl, missing := map[], [];
    for n := 0 to |rows|
      invariant Grouped(byUrl, missing, Lines(headers, rows[..n]))
    {
      var line := ReadLine(headers, rows[n]);
      assert rows[..n + 1][..n] == rows[..n];
      GroupedNext(byUrl, missing, Lines(headers, rows[..n]), line);
      if line.url != "" {
        byUrl := byUrl[line.url := Get(byUrl, line.url).GetOr([]) + [line.who]];
      } else {
        missing := missing + [line.who];
      }
    }
    assert rows[..|rows|] == rows;
  }

  /** References counted over a list of addresses. */
  function Total(lines: seq<Line>, urls: seq<string>): nat {
    if urls == [] then 0 else Total(lines, urls[..|urls| - 1]) + |About(lines, urls[|urls| - 1])|
  }

  lemma {:induction false} TotalNext(lines: seq<Line>, line: Line, urls: seq<string>)
    requires Distinct(urls)
    ensures Total(lines + [line], urls) == Total(lines, urls) + if line.url in urls then 1 else 0
  {
    AboutNext(lines, line);
    if urls != [] {
      var n := |urls| - 1;
      TotalNext(lines, line, urls[..n]);
      assert urls == urls[..n] + [urls[n]];
      assert urls[n] !in urls[..n];
    }
  }

  lemma {:induction false} TotalOfNone(urls: seq<string>)
    ensures Total([], urls) == 0
  {
    if urls != [] { TotalOfNone(urls[..|urls| - 1]); }
  }

  /** Every data row is counted exactly once, under its address or as one without an address. */
  lemma {:induction false} EveryRowCountsOnce(lines: seq<Line>, urls: seq<string>)
    requires Distinct(urls) && "" !in urls
    requires forall k :: 0 <= k < |lines| && lines[k].url != "" ==> lines[k].url in urls
    ensures Total(lines, urls) + |About(lines, "")| == |lines|
  {
    if lines == [] {
      TotalOfNone(urls);
    } else {
      var n := |lines| - 1;
      var init := lines[..n];
      EveryRowCountsOnce(init, urls);
      assert lines == init + [lines[n]];
      TotalNext(init, lines[n], urls);
      AboutNext(init, lines[n]);
    }
  }

  // ---- checking and retrying ----

  datatype Result = Result(url: string, ok: bool, error: string)

  /** Where an answer of a retry stands in for a result that was not healthy. */
  function Retried(results: seq<Result>, again: string -> Result): (r: seq<Result>)
    ensures |r| == |results|
    ensures forall k :: 0 <= k < |results| ==> r[k] == if results[k].ok then results[k] else again(results[k].url)
  {
    if results == [] then []
    else [if results[0].ok then results[0] else again(results[0].url)] + Retried(results[1..], again)
  }

  /** An answer is about the address that was asked. */
  ghost predicate Answers(again: string -> Result) {
    forall u :: again(u).url == u
  }

  /** One retry round over the failed addresses. */
  method RetryRound(results: seq<Result>, again: string -> Result) returns (next: seq<Result>)
    requires Answers(again)
    ensures next == Retried(results, again)
  {
    var replacements: map<string, Result> := map[];
    for n := 0 to |results|
      invariant forall u :: u in replacements ==> replacements[u] == again(u)
      invariant forall k :: 0 <= k < n && !results[k].ok ==> results[k].url in replacements
    {
      if !results[n].ok { replacements := replacements[again(results[n].url).url := again(results[n].url)]; }
    }
    ghost var retried := Retried(results, again);
    next := [];
    for n := 0 to |results|
      invariant next == retried[..n]
    {
      var item := results[n];
      assert !item.ok ==> item.url in replacements && replacements[item.url] == again(item.url);
      next := next + [if item.ok then item else if item.url in replacements then replacements[item.url] else item];
    }
  }

  /** The first check, then at most two rounds; a round is skipped when nothing failed. */
  method CheckAll(urls: seq<string>, first: string -> Result, second: string -> Result, third: string -> Result)
    returns (results: seq<Result>)
    requires Answers(first) && Answers(second) && Answers(third)
    ensures |results| == |urls|
    ensures forall k :: 0 <= k < |urls| ==> results[k] == Verdict(urls[k], first, second, third)
  {
    results := [];
    for n := 0 to |urls|
      invariant |results| == n && forall k :: 0 <= k < n ==> results[k] == first(urls[k])
    {
      results := results + [first(urls[n])];
    }
    if exists k :: 0 <= k < |results| && !results[k].ok {
      results := RetryRound(results, second);
      if exists k :: 0 <= k < |results| && !results[k].ok {
        results := RetryRound(results, third);
      }
    }
  }

  /** The first healthy answer, or the last one. */
  function Verdict(url: string, first: string -> Result, second: string -> Result, third: string -> Result): Result {
    if first(url).ok then first(url) else if second(url).ok then second(url) else third(url)
  }

  lemma VerdictIsHealthyOnce(url: string, first: string -> Result, second: string -> Result, third: string -> Result)
    requires Answers(first) && Answers(second) && Answers(third)
    ensures var v := Verdict(url, first, second, third);
            && v.url == url && (v.ok <==> first(url).ok || second(url).ok || third(url).ok)
            && (first(url).ok ==> v == first(url)) && (!first(url).ok && second(url).ok ==> v == second(url))
            && (!first(url).ok && !second(url).ok ==> v == third(url))
  {
  }
}
