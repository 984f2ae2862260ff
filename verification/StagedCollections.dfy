/**
 * Building a staging collection and switching it into production (scripts/enrich_milvus_recipe_details.py, and the
 * same steps in scripts/repair_milvus_recipe_ingredients.py). Which server calls fail is an input.
 */
module StagedCollections {
  type Vector = seq<real>

  datatype Row = Row(key: string, text: string, dense: Vector, detail: string)

  type Collections = map<string, seq<Row>>

  const DIM: nat := 1024
  const METADATA_LIMIT: nat := 60000

  // ---- building ----

  datatype BuildOutcome = Built | MissingDetails | StagingExists | BadEmbedding | BadBatchSize | TooLarge

  /** The server: named collections of rows. */
  class Server {
    var collections: Collections

    constructor (existing: Collections)
      ensures collections == existing
    {
      collections := existing;
    }

    method Create(name: string)
      modifies this
      ensures collections == old(collections)[name := []]
    {
      collections := collections[name := []];
    }

    method Insert(name: string, data: seq<Row>)
      requires name in collections
      modifies this
      ensures collections == old(collections)[name := old(collections)[name] + data]
    {
      collections := collections[name := collections[name] + data];
    }

    /** Fails on its own account, if the old name is missing or if the new one is taken. */
    method Rename(oldName: string, newName: string, fault: bool) returns (ok: bool)
      modifies this
      ensures ok <==> !fault && oldName in old(collections) && newName !in old(collections)
      ensures collections == if ok then Renamed(old(collections), oldName, newName) else old(collections)
    {
      ok := !fault && oldName in collections && newName !in collections;
      if ok { collections := (collections - {oldName})[newName := collections[oldName]]; }
    }
  }

  function Renamed(c: Collections, oldName: string, newName: string): Collections
    requires oldName in c
  {
    (c - {oldName})[newName := c[oldName]]
  }

  /** What the staged copy of a row must be: its own new text, the embedding of that text, its own detail. */
  function StagedRow(row: Row, details: map<string, string>, indexText: (string, string) -> string,
                     embed: string -> Vector): Row
    requires row.key in details
  {
    var text := indexText(row.text, details[row.key]);
    Row(row.key, text, embed(text), details[row.key])
  }

  function Staged(rows: seq<Row>, details: map<string, string>, indexText: (string, string) -> string,
                  embed: string -> Vector): (r: seq<Row>)
    requires forall k :: 0 <= k < |rows| ==> rows[k].key in details
    ensures |r| == |rows|
    ensures forall k :: 0 <= k < |rows| ==> r[k] == StagedRow(rows[k], details, indexText, embed)
  {
    seq(|rows|, k requires 0 <= k < |rows| => StagedRow(rows[k], details, indexText, embed))
  }

  /** Each staged row keeps its key and takes its own detail, the text made of both, and the embedding of that text. */
  lemma StagedCarries(rows: seq<Row>, details: map<string, string>, indexText: (string, string) -> string,
                      embed: string -> Vector, k: nat)
    requires Complete(rows, details) && k < |rows|
    ensures var r := Staged(rows, details, indexText, embed)[k];
      && r.key == rows[k].key && r.detail == details[rows[k].key]
      && r.text == indexText(rows[k].text, details[rows[k].key]) && r.dense == embed(r.text)
  {
  }

  predicate Complete(rows: seq<Row>, details: map<string, string>) {
    forall k :: 0 <= k < |rows| ==> rows[k].key in details
  }

  /** Inserts in batches; `false` is a row whose metadata is too large, which ends the work before its batch. */
  method InsertAll(
    server: Server, rows: seq<Row>, details: map<string, string>, texts: seq<string>, embeddings: seq<Vector>,
    staging: string, insertBatch: int, size: Row -> nat, ghost staged: seq<Row>)
    returns (whole: bool)
    requires insertBatch > 0 && Complete(rows, details) && |rows| == |texts| == |embeddings| == |staged|
    requires forall k :: 0 <= k < |rows| ==>
               staged[k] == Row(rows[k].key, texts[k], embeddings[k], details[rows[k].key])
    requires staging in server.collections && server.collections[staging] == []
    modifies server
    ensures exists n :: 0 <= n <= |rows| && server.collections == old(server.collections)[staging := staged[..n]]
                        && (whole ==> n == |rows|)
    ensures whole <==> forall k :: 0 <= k < |rows| ==> size(staged[k]) <= METADATA_LIMIT
  {
    var offset := 0;
    while offset < |rows|
      invariant 0 <= offset <= |rows|
      invariant server.collections == old(server.collections)[staging := staged[..offset]]
      invariant forall k :: 0 <= k < offset ==> size(staged[k]) <= METADATA_LIMIT
    {
      var last := if offset + insertBatch <= |rows| then offset + insertBatch else |rows|;
      var data: seq<Row> := [];
      for index := offset to last
        invariant data == staged[offset..index]
        invariant server.collections == old(server.collections)[staging := staged[..offset]]
        invariant forall k :: 0 <= k < index ==> size(staged[k]) <= METADATA_LIMIT
      {
        var row := Row(rows[index].key, texts[index], embeddings[index], details[rows[index].key]);
        if size(row) > METADATA_LIMIT { return false; }
        data := data + [row];
      }
      server.Insert(staging, data);
      assert staged[..offset] + staged[offset..last] == staged[..last];
      offset := last;
    }
    return true;
  }

  /** The embedding service gave `n` vectors of the right dimension. */
  predicate WellShaped(embeddings: seq<Vector>, n: nat) {
    |embeddings| == n && forall k :: 0 <= k < n ==> |embeddings[k]| == DIM
  }

  /** `range(0, n, step)` goes through its body for a positive step only; a step of zero is an error. */
  method Build(
    server: Server, rows: seq<Row>, details: map<string, string>, staging: string, recreate: bool, insertBatch: int,
    indexText: (string, string) -> string, embed: string -> Vector, embeddings: seq<Vector>, size: Row -> nat)
    returns (outcome: BuildOutcome)
    requires forall k :: 0 <= k < |embeddings| && |embeddings| == |rows| && rows[k].key in details ==>
               embeddings[k] == embed(indexText(rows[k].text, details[rows[k].key]))
    modifies server
    ensures outcome.MissingDetails? <==> !Complete(rows, details)
    ensures outcome.StagingExists? <==> Complete(rows, details) && staging in old(server.collections) && !recreate
    ensures outcome.BadEmbedding? <==>
              && Complete(rows, details) && (staging in old(server.collections) ==> recreate)
              && !WellShaped(embeddings, |rows|)
    ensures outcome in {BadBatchSize, TooLarge, Built} <==>
              && Complete(rows, details) && (staging in old(server.collections) ==> recreate)
              && WellShaped(embeddings, |rows|)
    ensures outcome in {BadBatchSize, TooLarge, Built} ==>
              && (outcome.BadBatchSize? <==> insertBatch == 0)
              && (outcome.TooLarge? <==>
                    insertBatch > 0
                    && exists k :: 0 <= k < |rows|
                         && size(StagedRow(rows[k], details, indexText, embed)) > METADATA_LIMIT)
              && exists n :: 0 <= n <= |rows|
                  && server.collections
                     == old(server.collections)[staging := Staged(rows, details, indexText, embed)[..n]]
                  && (outcome.Built? && insertBatch > 0 ==> n == |rows|)
                  && (insertBatch <= 0 ==> n == 0)
    ensures outcome in {MissingDetails, StagingExists, BadEmbedding} ==> server.collections == old(server.collections)
  {
    if exists k :: 0 <= k < |rows| && rows[k].key !in details { return MissingDetails; }
    if staging in server.collections && !recreate { return StagingExists; }
    var texts := seq(|rows|, k requires 0 <= k < |rows| && rows[k].key in details =>
                       indexText(rows[k].text, details[rows[k].key]));
    if |embeddings| != |rows| || exists k :: 0 <= k < |embeddings| && |embeddings[k]| != DIM { return BadEmbedding; }
    server.Create(staging);
    ghost var staged := Staged(rows, details, indexText, embed);
    assert staged[..0] == [];
    if insertBatch == 0 { return BadBatchSize; }
    if insertBatch < 0 { return Built; }
    var whole := InsertAll(server, rows, details, texts, embeddings, staging, insertBatch, size, staged);
    return if whole then Built else TooLarge;
  }

  // ---- switching into production ----

  datatype Promotion = Promoted | Refused | BackupExists | RolledBack | Stranded

  /** Which of the three renames the server fails on its own account: away, in, back. */
  datatype Faults = Faults(away: bool, into: bool, back: bool)

  /** What becomes of a promotion: `valid` is the verdict on the staging collection, which must exist for it. */
  function OutcomeOf(
    c: Collections, source: string, staging: string, backup: string, valid: bool, faults: Faults): Promotion
  {
    if !valid || staging !in c then Refused
    else if backup in c then BackupExists
    else if source !in c || faults.away then RolledBack
    else if staging != source && !faults.into then Promoted
    else if faults.back then Stranded
    else RolledBack
  }

  method Promote(server: Server, source: string, staging: string, backup: string, valid: bool, faults: Faults)
    returns (outcome: Promotion)
    modifies server
    ensures outcome == OutcomeOf(old(server.collections), source, staging, backup, valid, faults)
    ensures server.collections == AfterPromotion(old(server.collections), source, staging, backup, outcome)
  {
    if !valid || staging !in server.collections { return Refused; }
    if backup in server.collections { return BackupExists; }
    var ok := server.Rename(source, backup, faults.away);
    if !ok { return RolledBack; }
    ok := server.Rename(staging, source, faults.into);
    if !ok {
      ok := server.Rename(backup, source, faults.back);
      if !ok { return Stranded; }
      return RolledBack;
    }
    return Promoted;
  }

  /** The collections after each outcome. */
  function AfterPromotion(c: Collections, source: string, staging: string, backup: string, outcome: Promotion)
    : Collections
  {
    if outcome.Promoted? && staging in c && source in c then (c - {staging})[backup := c[source]][source := c[staging]]
    else if outcome.Stranded? && source in c then (c - {source})[backup := c[source]]
    else c
  }

  /** A promotion that works puts the staged rows into production and the old ones into the backup, nothing else. */
  lemma PromotionIsExact(
    c: Collections, source: string, staging: string, backup: string, valid: bool, faults: Faults, name: string)
    ensures var outcome := OutcomeOf(c, source, staging, backup, valid, faults);
            var after := AfterPromotion(c, source, staging, backup, outcome);
      && (outcome == Promoted <==>
            && valid && staging in c && backup !in c && source in c && staging != source
            && !faults.away && !faults.into)
      && (outcome == Promoted ==>
            && source in after && after[source] == c[staging] && backup in after && staging !in after
            && (backup != source ==> after[backup] == c[source])
            && (name !in {source, staging, backup} ==> (name in after <==> name in c)))
      && (outcome in {Refused, BackupExists, RolledBack} ==> after == c)
      && (outcome == Refused <==> !valid || staging !in c)
      && (outcome == BackupExists <==> valid && staging in c && backup in c)
  {
  }

  /** Whatever becomes of a promotion, every collection's rows are still stored under some name. */
  lemma NothingIsLost(
    c: Collections, source: string, staging: string, backup: string, valid: bool, faults: Faults, name: string)
    requires name in c
    ensures var outcome := OutcomeOf(c, source, staging, backup, valid, faults);
            var after := AfterPromotion(c, source, staging, backup, outcome);
            exists n :: n in after && after[n] == c[name]
  {
    var outcome := OutcomeOf(c, source, staging, backup, valid, faults);
    var after := AfterPromotion(c, source, staging, backup, outcome);
    var now := if outcome.Promoted? && name == staging then source
               else if (outcome.Promoted? || outcome.Stranded?) && name == source then backup
               else name;
    assert now in after && after[now] == c[name];
  }

  /**
   * Production keeps serving a whole collection, the old one or the new one, exactly unless the first rename worked and
   * both the second and the way back failed. Collections other than the two are untouched.
   */
  lemma ProductionIsServed(
    c: Collections, source: string, staging: string, backup: string, valid: bool, faults: Faults)
    requires source in c
    ensures var outcome := OutcomeOf(c, source, staging, backup, valid, faults);
            var after := AfterPromotion(c, source, staging, backup, outcome);
      && (source !in after <==>
            && valid && staging in c && backup !in c
            && !faults.away && (faults.into || staging == source) && faults.back)
      && (source in after ==> after[source] == if outcome.Promoted? then c[staging] else c[source])
      && forall name :: name in c && name != source && name != staging ==> name in after && after[name] == c[name]
  {
  }
}
