/**
 * Stopping and restarting `_generate` on its log file (scripts/enrich_milvus_recipe_details.py), also after a crash
 * that tears the entry being appended. `parse` stands for reading one line of the file.
 */
module Resume {
  import opened Options
  import opened DetailCache
  import opened WorkerPool

  /** A log replays the same, for every key a line is not about, without that line. */
  lemma {:induction false} ReplayIgnores(before: seq<Line>, line: Line, behind: seq<Line>, key: string)
    requires !Supports(line, key)
    ensures Get(Replay(before + [line] + behind), key) == Get(Replay(before + behind), key)
    decreases |behind|
  {
    var lines, rest := before + [line] + behind, before + behind;
    if behind == [] {
      assert lines[..|lines| - 1] == before && rest == before;
    } else {
      var n := |behind| - 1;
      assert lines[..|lines| - 1] == before + [line] + behind[..n] && rest[..|rest| - 1] == before + behind[..n];
      ReplayIgnores(before, line, behind[..n], key);
    }
  }

  lemma ParsedInParts(a: seq<string>, b: seq<string>, parse: string -> Line)
    ensures Parsed(a + b, parse) == Parsed(a, parse) + Parsed(b, parse)
  {
  }

  lemma ParsedOne(text: string, parse: string -> Line)
    ensures Parsed([text], parse) == [parse(text)]
  {
  }

  /** What a restart reads of the file. */
  function LogOf(content: string, parse: string -> Line): seq<Line> {
    Parsed(LinesOf(content), parse)
  }

  /** `texts` spell what the job has added to the log it found. */
  predicate Spells(texts: seq<string>, parse: string -> Line, found: seq<Line>, log: seq<Line>) {
    && (forall text :: text in texts ==> OneLine(text))
    && log == found + Parsed(texts, parse)
  }

  lemma WholeLog(content: string, texts: seq<string>, parse: string -> Line, log: seq<Line>)
    requires Whole(content) && Spells(texts, parse, LogOf(content, parse), log)
    ensures LogOf(Append(content, texts), parse) == log && Whole(Append(content, texts))
  {
    if texts == [] {
      assert Append(content, texts) == content && Parsed(texts, parse) == [];
    } else {
      WholeFilesAreLogs(content, texts, parse);
    }
  }

  lemma TornLog(content: string, torn: string, parse: string -> Line)
    requires Whole(content) && OneLine(torn) && torn != ""
    ensures LogOf(content + torn, parse) == LogOf(content, parse) + [parse(torn)]
    ensures FileOf(content + torn).open == torn
  {
    var lines := FileOf(content).lines;
    TextStaysOpen(content, torn);
    WholeIff(content);
    assert "" + torn == torn;
    assert LinesOf(content) == lines && LinesOf(content + torn) == lines + [torn];
    ParsedInParts(lines, [torn], parse);
    ParsedOne(torn, parse);
  }

  lemma TearCostsOne(content: string, torn: string, parse: string -> Line, key: string)
    requires Whole(content) && OneLine(torn) && (torn != "" ==> !Supports(parse(torn), key))
    ensures Get(Replay(LogOf(content + torn, parse)), key) == Get(Replay(LogOf(content, parse)), key)
  {
    var log := LogOf(content, parse);
    if torn == "" {
      assert content + torn == content;
    } else {
      TornLog(content, torn, parse);
      ReplayIgnores(log, parse(torn), [], key);
      assert log + [parse(torn)] + [] == log + [parse(torn)] && log + [] == log;
    }
  }

  /** What a job reuses of a log. */
  lemma ReusedOf(rows: seq<Metadata>, log: seq<Line>, concurrency: nat, attempts: nat, key: string)
    ensures Get(Start(JobOf(rows, log, concurrency, attempts)).reusable, key)
         == if key in Keys(rows) then Get(Replay(log), key) else None
  {
  }

  /** What a stopped job has in memory is what its log replays to. */
  lemma MemoryIsLog(
    rows: seq<Metadata>, log: seq<Line>, concurrency: nat, attempts: nat, events: seq<Event>, p: Pool, key: string)
    requires DistinctKeys(rows)
    requires var job := JobOf(rows, log, concurrency, attempts); Runs(job, Start(job), events, p)
    ensures Get(p.reusable, key) == if key in Keys(rows) then Get(Replay(p.log), key) else None
  {
    RestartAgreesWithMemory(rows, log, concurrency, attempts, events, p, concurrency, attempts);
    ReusedOf(rows, p.log, concurrency, attempts, key);
  }

  /**
   * A job that found a whole file is stopped, perhaps in the middle of an append. A restart finds what memory held,
   * for every key but that of a torn entry that can be read all the same.
   */
  lemma RestartAfterCrash(
    rows: seq<Metadata>, content: string, parse: string -> Line, concurrency: nat, attempts: nat,
    events: seq<Event>, p: Pool, texts: seq<string>, torn: string, concurrency': nat, attempts': nat, key: string)
    requires DistinctKeys(rows) && Whole(content)
    requires var job := JobOf(rows, LogOf(content, parse), concurrency, attempts);
             Runs(job, Start(job), events, p) && Spells(texts, parse, job.found, p.log)
    requires OneLine(torn) && (torn != "" ==> !Supports(parse(torn), key))
    ensures var again := JobOf(rows, LogOf(Append(content, texts) + torn, parse), concurrency', attempts');
            Get(Start(again).reusable, key) == Get(p.reusable, key)
  {
    WholeLog(content, texts, parse, p.log);
    MemoryIsLog(rows, LogOf(content, parse), concurrency, attempts, events, p, key);
    TearCostsOne(Append(content, texts), torn, parse, key);
    ReusedOf(rows, LogOf(Append(content, texts) + torn, parse), concurrency', attempts', key);
  }

  lemma ParsedHead(texts: seq<string>, parse: string -> Line)
    requires texts != []
    ensures Parsed(texts, parse) == [parse(texts[0])] + Parsed(texts[1..], parse)
  {
    assert texts == [texts[0]] + texts[1..];
    ParsedInParts([texts[0]], texts[1..], parse);
    ParsedOne(texts[0], parse);
  }

  lemma TornHead(content: string, parse: string -> Line)
    requires !Whole(content)
    ensures LogOf(content, parse) == Parsed(FileOf(content).lines, parse) + [parse(FileOf(content).open)]
  {
    WholeIff(content);
    ParsedInParts(FileOf(content).lines, [FileOf(content).open], parse);
    ParsedOne(FileOf(content).open, parse);
  }

  /** What is read of a torn file behind which entries were appended. */
  lemma LogBehindATear(content: string, texts: seq<string>, parse: string -> Line) returns (head: seq<Line>)
    requires !Whole(content) && texts != [] && forall text :: text in texts ==> OneLine(text)
    ensures var open, rest := FileOf(content).open, Parsed(texts[1..], parse);
            && LogOf(content, parse) == head + [parse(open)]
            && LogOf(Append(content, texts), parse) == head + ([parse(open + texts[0])] + rest)
    ensures Whole(Append(content, texts))
  {
    var f := FileOf(content);
    head := Parsed(f.lines, parse);
    TornHead(content, parse);
    AppendsReadAs(content, texts);
    ParsedInParts(f.lines, [f.open + texts[0]] + texts[1..], parse);
    ParsedHead([f.open + texts[0]] + texts[1..], parse);
    assert ([f.open + texts[0]] + texts[1..])[1..] == texts[1..];
    AppendedLines(content, texts);
    WholeIff(Append(content, texts));
  }

  lemma OneIgnored(head: seq<Line>, line: Line, rest: seq<Line>, key: string)
    requires !Supports(line, key)
    ensures Get(Replay(head + ([line] + rest)), key) == Get(Replay(head + rest), key)
  {
    assert head + ([line] + rest) == head + [line] + rest;
    ReplayIgnores(head, line, rest, key);
  }

  lemma TwoIgnored(head: seq<Line>, merged: Line, torn: Line, first: Line, rest: seq<Line>, key: string)
    requires !Supports(merged, key) && !Supports(torn, key) && !Supports(first, key)
    ensures Get(Replay(head + ([merged] + rest)), key) == Get(Replay(head + [torn] + ([first] + rest)), key)
  {
    OneIgnored(head, merged, rest, key);
    OneIgnored(head, first, rest, key);
    ReplayIgnores(head, torn, [first] + rest, key);
  }

  lemma TearCostsTwo(content: string, texts: seq<string>, parse: string -> Line, key: string)
    requires !Whole(content) && texts != [] && forall text :: text in texts ==> OneLine(text)
    requires !Supports(parse(FileOf(content).open), key) && !Supports(parse(texts[0]), key)
    requires !Supports(parse(FileOf(content).open + texts[0]), key)
    ensures Get(Replay(LogOf(Append(content, texts), parse)), key)
         == Get(Replay(LogOf(content, parse) + Parsed(texts, parse)), key)
    ensures Whole(Append(content, texts))
  {
    var open, rest := FileOf(content).open, Parsed(texts[1..], parse);
    var head := LogBehindATear(content, texts, parse);
    ParsedHead(texts, parse);
    TwoIgnored(head, parse(open + texts[0]), parse(open), parse(texts[0]), rest, key);
  }

  /**
   * A job that found a torn file: the next restart agrees with memory on every key but that of the torn entry and
   * that of the first entry the job appended, which share a line. The file is whole again.
   */
  lemma RestartBehindATear(
    rows: seq<Metadata>, content: string, parse: string -> Line, concurrency: nat, attempts: nat,
    events: seq<Event>, p: Pool, texts: seq<string>, concurrency': nat, attempts': nat, key: string)
    requires DistinctKeys(rows) && !Whole(content) && texts != []
    requires var job := JobOf(rows, LogOf(content, parse), concurrency, attempts);
             Runs(job, Start(job), events, p) && Spells(texts, parse, job.found, p.log)
    requires !Supports(parse(FileOf(content).open), key) && !Supports(parse(texts[0]), key)
    requires !Supports(parse(FileOf(content).open + texts[0]), key)
    ensures var again := JobOf(rows, LogOf(Append(content, texts), parse), concurrency', attempts');
            Get(Start(again).reusable, key) == Get(p.reusable, key)
    ensures Whole(Append(content, texts))
  {
    MemoryIsLog(rows, LogOf(content, parse), concurrency, attempts, events, p, key);
    TearCostsTwo(content, texts, parse, key);
    ReusedOf(rows, LogOf(Append(content, texts), parse), concurrency', attempts', key);
  }
}
