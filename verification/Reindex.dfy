/**
 * Rebuilding the memory index from the fact source (scripts/reindex_user_memory.py): every listed profile is
 * emptied and written again. What a row's active facts are is decided by the fact source and is an input here.
 */
module Reindex {
  import opened MemoryIndex
  import opened Options
  import opened Sequences
  import opened TextCells

  /** `facts` are the active facts of the row. */
  datatype Row = Row(channel: string, account: string, user: string, facts: seq<Fact>)

  datatype Settings = Settings(provider: Provider, hash: string -> string, dim: nat)

  const PROFILE := "profile"
  const WEIXIN := "weixin"

  function RowProfileKey(row: Row): string {
    if row.channel == WEIXIN then
      PROFILE + ":" + WEIXIN + ":" + (if row.account == "" then "default" else row.account) + ":" + row.user
    else PROFILE + ":" + row.channel + ":" + row.user
  }

  function Home(row: Row, s: Settings): string {
    s.hash(RowProfileKey(row))
  }

  /** The records that belong to a row, if its facts can be embedded. */
  function Prepared(row: Row, s: Settings): Option<seq<Record>> {
    Prepare(row.facts, Home(row, s), s.provider, s.dim)
  }

  /** One turn of the loop. */
  function Rewrite(c: Collection, row: Row, s: Settings): Collection {
    Put(Without(c, Home(row, s)), Prepared(row, s).GetOr([]))
  }

  function Rebuild(c: Collection, rows: seq<Row>, s: Settings): Collection {
    if rows == [] then c else Rewrite(Rebuild(c, rows[..|rows| - 1], s), rows[|rows| - 1], s)
  }

  datatype Outcome = Failed | Done(profiles: nat, facts: nat)

  function FactCount(rows: seq<Row>): nat {
    if rows == [] then 0 else FactCount(rows[..|rows| - 1]) + |rows[|rows| - 1].facts|
  }

  predicate AllPrepared(rows: seq<Row>, s: Settings) {
    rows == [] || (AllPrepared(rows[..|rows| - 1], s) && Prepared(rows[|rows| - 1], s).Some?)
  }

  lemma {:induction false} EachPrepared(rows: seq<Row>, s: Settings, k: nat)
    requires AllPrepared(rows, s) && k < |rows|
    ensures Prepared(rows[k], s).Some?
  {
    if k < |rows| - 1 { EachPrepared(rows[..|rows| - 1], s, k); }
  }

  function SettingsOf(index: ProfileMemoryIndex): Settings {
    Settings(index.provider, index.hash, index.dim)
  }

  lemma OneMoreRow(c: Collection, rows: seq<Row>, n: nat, s: Settings)
    requires n < |rows|
    ensures Rebuild(c, rows[..n + 1], s) == Rewrite(Rebuild(c, rows[..n], s), rows[n], s)
    ensures FactCount(rows[..n + 1]) == FactCount(rows[..n]) + |rows[n].facts|
  {
    assert rows[..n + 1][..n] == rows[..n] && rows[..n + 1][n] == rows[n];
  }

  lemma OneMorePrepared(rows: seq<Row>, n: nat, s: Settings)
    requires n < |rows| && AllPrepared(rows[..n], s) && Prepared(rows[n], s).Some?
    ensures AllPrepared(rows[..n + 1], s)
  {
    var more := rows[..n + 1];
    assert |more| == n + 1 && more[..n] == rows[..n] && more[n] == rows[n];
    assert AllPrepared(more, s) <==> AllPrepared(more[..n], s) && Prepared(more[n], s).Some?;
  }

  /** One turn of the loop: a failing embedding leaves the profile emptied. */
  method RewriteRow(index: ProfileMemoryIndex, row: Row) returns (ok: bool)
    modifies index
    ensures ok <==> Prepared(row, SettingsOf(index)).Some?
    ensures index.collection == if ok then Rewrite(old(index.collection), row, SettingsOf(index))
                                else Without(old(index.collection), Home(row, SettingsOf(index)))
  {
    index.DeleteProfile(RowProfileKey(row));
    var stored := index.Upsert(RowProfileKey(row), row.facts);
    ok := stored.Some?;
  }

  /** The loop; a failing row ends the run. `done` tells how far it got. */
  method ReindexRows(index: ProfileMemoryIndex, rows: seq<Row>, dryRun: bool) returns (outcome: Outcome, done: nat)
    modifies index
    ensures done <= |rows| && (!dryRun ==> AllPrepared(rows[..done], SettingsOf(index)))
    ensures dryRun ==> outcome.Done? && index.collection == old(index.collection)
    ensures outcome.Done? ==> done == |rows| && outcome == Done(|rows|, FactCount(rows))
    ensures !dryRun && outcome.Done? ==> index.collection == Rebuild(old(index.collection), rows, SettingsOf(index))
    ensures outcome.Failed? ==>
              && done < |rows| && Prepared(rows[done], SettingsOf(index)).None?
              && index.collection == Interrupted(old(index.collection), rows, done, SettingsOf(index))
  {
    var profiles, facts := 0, 0;
    ghost var c, s := index.collection, SettingsOf(index);
    done := 0;
    while done < |rows|
      invariant done <= |rows| && profiles == done && facts == FactCount(rows[..done]) && SettingsOf(index) == s
      invariant !dryRun ==> AllPrepared(rows[..done], s)
      invariant index.collection == if dryRun then c else Rebuild(c, rows[..done], s)
    {
      OneMoreRow(c, rows, done, s);
      profiles, facts := profiles + 1, facts + |rows[done].facts|;
      if !dryRun {
        var ok := RewriteRow(index, rows[done]);
        if !ok {
          return Failed, done;
        }
        OneMorePrepared(rows, done, s);
      }
      done := done + 1;
    }
    assert rows[..|rows|] == rows;
    return Done(profiles, facts), done;
  }

  /** The whole run: a probe of the permissions, then the rows. */
  method Run(index: ProfileMemoryIndex, rows: seq<Row>, dryRun: bool, probeId: string)
    returns (outcome: Outcome, done: nat)
    modifies index
    ensures dryRun ==> outcome == Done(|rows|, FactCount(rows)) && index.collection == old(index.collection)
    ensures !dryRun && outcome.Done? ==>
              && AllPrepared(rows, SettingsOf(index)) && outcome == Done(|rows|, FactCount(rows))
              && index.collection == Rebuild(Probed(old(index.collection), probeId), rows, SettingsOf(index))
    ensures outcome.Failed? ==>
              && done < |rows| && Prepared(rows[done], SettingsOf(index)).None?
              && index.collection == Interrupted(Probed(old(index.collection), probeId), rows, done, SettingsOf(index))
  {
    if !dryRun {
      index.Initialize();
      index.PermissionProbe(probeId);
    }
    outcome, done := ReindexRows(index, rows, dryRun);
    assert rows[..|rows|] == rows;
  }

  /** What the probe leaves. */
  function Probed(c: Collection, probeId: string): Collection {
    Without(c, Probes()) - {probeId}
  }

  /** The collection of a run that failed at row `done`. */
  function Interrupted(c: Collection, rows: seq<Row>, done: nat, s: Settings): Collection
    requires done < |rows|
  {
    Without(Rebuild(c, rows[..done], s), Home(rows[done], s))
  }

  // ---- what upserting does to the partitions ----

  predicate HasId(records: seq<Record>, id: string) {
    exists k :: 0 <= k < |records| && records[k].factId == id
  }

  lemma {:induction false} PutMembers(c: Collection, records: seq<Record>, id: string)
    ensures id in Put(c, records) <==> id in c || HasId(records, id)
    ensures id in c && !HasId(records, id) ==> Put(c, records)[id] == c[id]
    ensures HasId(records, id) ==> id in Put(map[], records) && Put(c, records)[id] == Put(map[], records)[id]
    ensures HasId(records, id) ==> Put(c, records)[id] in records && Put(c, records)[id].factId == id
  {
    if records != [] {
      var n := |records| - 1;
      var init := records[..n];
      PutMembers(c, init, id);
      PutMembers(map[], init, id);
      assert HasId(init, id) ==> HasId(records, id) by {
        if HasId(init, id) {
          var k :| 0 <= k < |init| && init[k].factId == id;
          assert records[k].factId == id;
        }
      }
      assert records == init + [records[n]];
      assert HasId(records, id) <==> HasId(init, id) || records[n].factId == id by {
        if HasId(records, id) && records[n].factId != id {
          var k :| 0 <= k < |records| && records[k].factId == id;
          assert init[k].factId == id;
        }
      }
    }
  }

  lemma {:induction false} RecordsAre(facts: seq<Fact>, vectors: seq<Vector>, partition: string)
    requires |facts| == |vectors|
    ensures forall r :: r in Records(facts, vectors, partition) ==>
              && r.partition == partition
              && exists k :: 0 <= k < |facts| && WellFormed(facts[k]) && r == RecordOf(facts[k], partition, vectors[k])
    ensures forall k :: 0 <= k < |facts| && WellFormed(facts[k]) ==>
              RecordOf(facts[k], partition, vectors[k]) in Records(facts, vectors, partition)
  {
    if facts != [] {
      var n := |facts| - 1;
      RecordsAre(facts[..n], vectors[..n], partition);
      forall r | r in Records(facts, vectors, partition)
        ensures r.partition == partition
        ensures exists k :: 0 <= k < |facts| && WellFormed(facts[k]) && r == RecordOf(facts[k], partition, vectors[k])
      {
        if r in Records(facts[..n], vectors[..n], partition) {
          var k :| 0 <= k < n && WellFormed(facts[..n][k]) && r == RecordOf(facts[..n][k], partition, vectors[..n][k]);
          assert facts[k] == facts[..n][k] && vectors[k] == vectors[..n][k];
        } else {
          assert r == RecordOf(facts[n], partition, vectors[n]) && WellFormed(facts[n]);
        }
      }
      forall k | 0 <= k < |facts| && WellFormed(facts[k])
        ensures RecordOf(facts[k], partition, vectors[k]) in Records(facts, vectors, partition)
      {
        if k < n {
          assert facts[k] == facts[..n][k] && vectors[k] == vectors[..n][k];
        }
      }
    }
  }

  // ---- what a whole run leaves behind ----

  function Writes(row: Row, s: Settings): seq<Record> {
    Prepared(row, s).GetOr([])
  }

  /** A partition that holds the row and nothing else. */
  function Target(row: Row, s: Settings): Collection {
    Put(map[], Writes(row, s))
  }

  predicate Listed(rows: seq<Row>, s: Settings, partition: string) {
    exists k :: 0 <= k < |rows| && Home(rows[k], s) == partition
  }

  /** No fact id is written for two profiles. */
  ghost predicate NoSharedIds(rows: seq<Row>, s: Settings) {
    forall i, j, id :: 0 <= i < |rows| && 0 <= j < |rows|
                       && HasId(Writes(rows[i], s), id) && HasId(Writes(rows[j], s), id)
                       ==> Home(rows[i], s) == Home(rows[j], s)
  }

  /** No fact id written is stored for a profile that is not listed. */
  ghost predicate Apart(c: Collection, rows: seq<Row>, s: Settings) {
    forall id, k :: id in c && 0 <= k < |rows| && HasId(Writes(rows[k], s), id) ==> Listed(rows, s, c[id].partition)
  }

  lemma WritesStayHome(row: Row, s: Settings)
    ensures forall r :: r in Writes(row, s) ==> r.partition == Home(row, s)
  {
    var vectors := Vectors(Map(row.facts, (f: Fact) => f.text), s.provider, s.dim);
    if row.facts != [] && vectors.Some? {
      RecordsAre(row.facts, vectors.value, Home(row, s));
    }
  }

  lemma RewriteHome(c: Collection, row: Row, s: Settings)
    ensures Partition(Rewrite(c, row, s), Home(row, s)) == Target(row, s)
  {
    var p, records := Home(row, s), Writes(row, s);
    var base := Without(c, p);
    WritesStayHome(row, s);
    forall id
      ensures id in Partition(Put(base, records), p) <==> id in Put(map[], records)
      ensures id in Put(map[], records) ==> Put(base, records)[id] == Put(map[], records)[id]
    {
      PutMembers(base, records, id);
      PutMembers(map[], records, id);
    }
  }

  lemma RewriteElsewhere(c: Collection, row: Row, s: Settings, p: string)
    requires p != Home(row, s)
    requires forall id :: id in Partition(c, p) ==> !HasId(Writes(row, s), id)
    ensures Partition(Rewrite(c, row, s), p) == Partition(c, p)
  {
    var records := Writes(row, s);
    var base := Without(c, Home(row, s));
    WritesStayHome(row, s);
    forall id
      ensures id in Partition(Put(base, records), p) <==> id in Partition(c, p)
      ensures id in Partition(c, p) ==> Put(base, records)[id] == c[id]
    {
      PutMembers(base, records, id);
    }
  }

  lemma SplitLast(rows: seq<Row>, s: Settings)
    requires rows != []
    ensures var init := rows[..|rows| - 1];
            && (NoSharedIds(rows, s) ==> NoSharedIds(init, s))
            && forall k :: 0 <= k < |init| ==> init[k] == rows[k]
  {
    var init := rows[..|rows| - 1];
    if NoSharedIds(rows, s) {
      forall i, j, id | 0 <= i < |init| && 0 <= j < |init|
                        && HasId(Writes(init[i], s), id) && HasId(Writes(init[j], s), id)
        ensures Home(init[i], s) == Home(init[j], s)
      {
        assert rows[i] == init[i] && rows[j] == init[j];
      }
    }
  }

  lemma {:induction false} UnlistedUntouched(c: Collection, rows: seq<Row>, s: Settings, p: string)
    requires forall id, k :: id in Partition(c, p) && 0 <= k < |rows| ==> !HasId(Writes(rows[k], s), id)
    requires !Listed(rows, s, p)
    ensures Partition(Rebuild(c, rows, s), p) == Partition(c, p)
  {
    if rows != [] {
      var n := |rows| - 1;
      var init := rows[..n];
      assert forall k :: 0 <= k < n ==> init[k] == rows[k];
      assert Home(rows[n], s) != p;
      UnlistedUntouched(c, init, s, p);
      RewriteElsewhere(Rebuild(c, init, s), rows[n], s, p);
    }
  }

  /** The last row of a profile decides what its partition holds. */
  lemma {:induction false} ListedHoldsLast(c: Collection, rows: seq<Row>, s: Settings, k: nat)
    requires NoSharedIds(rows, s) && k < |rows|
    requires forall j :: k < j < |rows| ==> Home(rows[j], s) != Home(rows[k], s)
    ensures Partition(Rebuild(c, rows, s), Home(rows[k], s)) == Target(rows[k], s)
  {
    var n := |rows| - 1;
    var init, p := rows[..n], Home(rows[k], s);
    SplitLast(rows, s);
    if k == n {
      RewriteHome(Rebuild(c, init, s), rows[n], s);
    } else {
      ListedHoldsLast(c, init, s, k);
      TargetIsElsewhere(rows, s, k, n);
      RewriteElsewhere(Rebuild(c, init, s), rows[n], s, p);
    }
  }

  lemma TargetIsElsewhere(rows: seq<Row>, s: Settings, k: nat, n: nat)
    requires NoSharedIds(rows, s) && k < |rows| && n < |rows| && Home(rows[n], s) != Home(rows[k], s)
    ensures forall id :: id in Target(rows[k], s) ==> !HasId(Writes(rows[n], s), id)
  {
    forall id | id in Target(rows[k], s) ensures !HasId(Writes(rows[n], s), id) {
      PutMembers(map[], Writes(rows[k], s), id);
    }
  }

  lemma LastOf(rows: seq<Row>, s: Settings, p: string) returns (k: nat)
    requires Listed(rows, s, p)
    ensures k < |rows| && Home(rows[k], s) == p && forall j :: k < j < |rows| ==> Home(rows[j], s) != p
  {
    k := |rows| - 1;
    while Home(rows[k], s) != p
      invariant k < |rows| && forall j :: k < j < |rows| ==> Home(rows[j], s) != p
      invariant exists j :: 0 <= j <= k && Home(rows[j], s) == p
      decreases k
    {
      k := k - 1;
    }
  }

  lemma UnlistedSame(c: Collection, rows: seq<Row>, s: Settings, p: string)
    requires Apart(c, rows, s) && !Listed(rows, s, p)
    ensures Partition(Rebuild(c, rows, s), p) == Partition(c, p)
  {
    UnlistedUntouched(c, rows, s, p);
  }

  lemma SameAfterwards(c: Collection, d: Collection, rows: seq<Row>, s: Settings, p: string)
    requires NoSharedIds(rows, s) && Apart(c, rows, s) && Apart(d, rows, s)
    requires !Listed(rows, s, p) ==> Partition(c, p) == Partition(d, p)
    ensures Partition(Rebuild(c, rows, s), p) == Partition(Rebuild(d, rows, s), p)
  {
    if Listed(rows, s, p) {
      var k := LastOf(rows, s, p);
      ListedHoldsLast(c, rows, s, k);
      ListedHoldsLast(d, rows, s, k);
    } else {
      UnlistedSame(c, rows, s, p);
      UnlistedSame(d, rows, s, p);
    }
  }

  /** What a run leaves depends only on the profiles it does not list. */
  lemma RebuildForgets(c: Collection, d: Collection, rows: seq<Row>, s: Settings)
    requires NoSharedIds(rows, s) && Apart(c, rows, s) && Apart(d, rows, s)
    requires forall p :: !Listed(rows, s, p) ==> Partition(c, p) == Partition(d, p)
    ensures Rebuild(c, rows, s) == Rebuild(d, rows, s)
  {
    var x, y := Rebuild(c, rows, s), Rebuild(d, rows, s);
    forall p ensures Partition(x, p) == Partition(y, p) {
      SameAfterwards(c, d, rows, s, p);
    }
    SamePartitions(x, y);
    SamePartitions(y, x);
  }

  lemma SamePartitions(x: Collection, y: Collection)
    requires forall p :: Partition(x, p) == Partition(y, p)
    ensures forall id :: id in x ==> id in y && x[id] == y[id]
  {
    forall id | id in x ensures id in y && x[id] == y[id] {
      assert id in Partition(x, x[id].partition);
      assert id in Partition(y, x[id].partition);
    }
  }

  /** A collection that agrees on the unlisted profiles is as good a start. */
  lemma ApartCarriesOver(c: Collection, d: Collection, rows: seq<Row>, s: Settings)
    requires Apart(c, rows, s) && forall p :: !Listed(rows, s, p) ==> Partition(d, p) == Partition(c, p)
    ensures Apart(d, rows, s)
  {
    forall id, k | id in d && 0 <= k < |rows| && HasId(Writes(rows[k], s), id)
      ensures Listed(rows, s, d[id].partition)
    {
      var p := d[id].partition;
      assert id in Partition(d, p);
      assert !Listed(rows, s, p) ==> id in Partition(c, p);
    }
  }

  /** A second run changes nothing. */
  lemma RebuildTwice(c: Collection, rows: seq<Row>, s: Settings)
    requires NoSharedIds(rows, s) && Apart(c, rows, s)
    ensures Rebuild(Rebuild(c, rows, s), rows, s) == Rebuild(c, rows, s)
  {
    var d := Rebuild(c, rows, s);
    forall p | !Listed(rows, s, p) ensures Partition(d, p) == Partition(c, p) {
      UnlistedSame(c, rows, s, p);
    }
    ApartCarriesOver(c, d, rows, s);
    RebuildForgets(d, c, rows, s);
  }

  /** After a run that failed anywhere, a full run gives what it would have given without the failure. */
  lemma RerunRepairs(c: Collection, rows: seq<Row>, done: nat, s: Settings)
    requires NoSharedIds(rows, s) && Apart(c, rows, s) && done < |rows|
    ensures Rebuild(Interrupted(c, rows, done, s), rows, s) == Rebuild(c, rows, s)
  {
    var d := Interrupted(c, rows, done, s);
    var some := Rebuild(c, rows[..done], s);
    forall p | !Listed(rows, s, p) ensures Partition(d, p) == Partition(c, p) {
      forall k | 0 <= k < done ensures rows[..done][k] == rows[k] && Home(rows[k], s) != p {
      }
      UnlistedUntouched(c, rows[..done], s, p);
      assert Home(rows[done], s) != p;
      assert Partition(d, p) == Partition(some, p);
    }
    ApartCarriesOver(c, d, rows, s);
    RebuildForgets(d, c, rows, s);
  }

  // ---- the index agrees with the fact source ----

  ghost predicate Injective(hash: string -> string) {
    forall a, b :: hash(a) == hash(b) ==> a == b
  }

  predicate DistinctKeys(rows: seq<Row>) {
    forall i, j :: 0 <= i < j < |rows| ==> RowProfileKey(rows[i]) != RowProfileKey(rows[j])
  }

  /** The record `r` is what fact `f` of the row should be stored as. */
  predicate StoredAs(f: Fact, r: Record, row: Row, s: Settings, embed: string -> Vector) {
    f in row.facts && WellFormed(f) && r == RecordOf(f, Home(row, s), embed(Strip(f.text)))
  }

  lemma WritesOfFacts(row: Row, s: Settings, embed: string -> Vector) returns (vectors: seq<Vector>)
    requires Faithful(s.provider, embed) && Prepared(row, s).Some? && row.facts != []
    ensures |vectors| == |row.facts| && Writes(row, s) == Records(row.facts, vectors, Home(row, s))
    ensures forall k :: 0 <= k < |row.facts| ==> vectors[k] == embed(Strip(row.facts[k].text))
  {
    var texts := Map(row.facts, (f: Fact) => f.text);
    vectors := Vectors(texts, s.provider, s.dim).value;
    VectorsAreOwn(texts, s.provider, s.dim, embed);
  }

  /** A record is written exactly for the well-formed facts, with the embedding of its own text. */
  lemma WritesAreFacts(row: Row, s: Settings, embed: string -> Vector)
    requires Faithful(s.provider, embed) && Prepared(row, s).Some?
    ensures forall r :: r in Writes(row, s) ==> exists f: Fact :: StoredAs(f, r, row, s, embed)
    ensures forall f: Fact :: f in row.facts && WellFormed(f) ==> HasId(Writes(row, s), f.id)
  {
    if row.facts != [] {
      var vectors := WritesOfFacts(row, s, embed);
      RecordsAre(row.facts, vectors, Home(row, s));
      forall r | r in Writes(row, s) ensures exists f: Fact :: StoredAs(f, r, row, s, embed) {
        var k :| 0 <= k < |row.facts| && WellFormed(row.facts[k])
                 && r == RecordOf(row.facts[k], Home(row, s), vectors[k]);
        assert StoredAs(row.facts[k], r, row, s, embed);
      }
      forall f | f in row.facts && WellFormed(f) ensures HasId(Writes(row, s), f.id) {
        var k :| 0 <= k < |row.facts| && row.facts[k] == f;
        WrittenHasId(row, s, vectors, k);
      }
    }
  }

  lemma WrittenHasId(row: Row, s: Settings, vectors: seq<Vector>, k: nat)
    requires k < |row.facts| == |vectors| && WellFormed(row.facts[k])
    requires Writes(row, s) == Records(row.facts, vectors, Home(row, s))
    ensures HasId(Writes(row, s), row.facts[k].id)
  {
    RecordsAre(row.facts, vectors, Home(row, s));
    var r := RecordOf(row.facts[k], Home(row, s), vectors[k]);
    assert r in Writes(row, s);
    var j :| 0 <= j < |Writes(row, s)| && Writes(row, s)[j] == r;
  }

  lemma TargetIsFacts(row: Row, s: Settings, embed: string -> Vector)
    requires Faithful(s.provider, embed) && Prepared(row, s).Some?
    ensures forall id :: id in Target(row, s) ==>
              exists f: Fact :: f.id == id && StoredAs(f, Target(row, s)[id], row, s, embed)
    ensures forall f: Fact :: f in row.facts && WellFormed(f) ==> f.id in Target(row, s)
  {
    var records := Writes(row, s);
    WritesAreFacts(row, s, embed);
    forall id | id in Target(row, s)
      ensures exists f: Fact :: f.id == id && StoredAs(f, Target(row, s)[id], row, s, embed)
    {
      PutMembers(map[], records, id);
      var r := Target(row, s)[id];
      assert r in records && r.factId == id;
      var f :| StoredAs(f, r, row, s, embed);
    }
    forall f | f in row.facts && WellFormed(f) ensures f.id in Target(row, s) {
      PutMembers(map[], records, f.id);
    }
  }

  /**
   * After a complete run the partition of every listed profile holds its well-formed active facts and nothing else,
   * each with the embedding of its own text; the other partitions are as before.
   */
  lemma IndexAgreesWithSource(c: Collection, rows: seq<Row>, s: Settings, embed: string -> Vector)
    requires Faithful(s.provider, embed) && Injective(s.hash) && DistinctKeys(rows) && AllPrepared(rows, s)
    requires NoSharedIds(rows, s) && Apart(c, rows, s)
    ensures forall k :: 0 <= k < |rows| ==>
              var p := Partition(Rebuild(c, rows, s), Home(rows[k], s));
              && (forall id :: id in p ==> exists f: Fact :: f.id == id && StoredAs(f, p[id], rows[k], s, embed))
              && (forall f: Fact :: f in rows[k].facts && WellFormed(f) ==> f.id in p)
    ensures forall p :: !Listed(rows, s, p) ==> Partition(Rebuild(c, rows, s), p) == Partition(c, p)
  {
    forall k | 0 <= k < |rows|
      ensures var p := Partition(Rebuild(c, rows, s), Home(rows[k], s));
              && (forall id :: id in p ==> exists f: Fact :: f.id == id && StoredAs(f, p[id], rows[k], s, embed))
              && (forall f: Fact :: f in rows[k].facts && WellFormed(f) ==> f.id in p)
    {
      ListedHoldsLast(c, rows, s, k);
      EachPrepared(rows, s, k);
      TargetIsFacts(rows[k], s, embed);
    }
    forall p | !Listed(rows, s, p) ensures Partition(Rebuild(c, rows, s), p) == Partition(c, p) {
      UnlistedSame(c, rows, s, p);
    }
  }

  // ---- profile keys name one user ----

  datatype Owner = Owner(channel: string, account: string, user: string)

  /** `parse_profile_key`. */
  function ParseProfileKey(key: string): Option<Owner> {
    var parts := Split(key, ':');
    if |parts| < 3 || parts[0] != "profile" then None
    else if parts[1] != "weixin" then Some(Owner(parts[1], "default", Join(parts[2..], ":")))
    else if |parts| == 3 then Some(Owner("weixin", "default", parts[2]))
    else Some(Owner("weixin", if parts[2] == "" then "default" else parts[2], Join(parts[3..], ":")))
  }

  function OwnerOf(row: Row): Owner {
    Owner(row.channel, if row.account == "" then "default" else row.account, row.user)
  }

  /** Whose rows share the key of this one: outside weixin the account is no part of it. */
  function KeyOwner(row: Row): Owner {
    if row.channel == WEIXIN then OwnerOf(row) else OwnerOf(row).(account := "default")
  }

  /** Colons occur only in user ids. */
  predicate ColonFree(row: Row) {
    ':' !in row.channel && ':' !in row.account
  }

  lemma SplitKey(a: string, b: string, rest: string)
    requires ':' !in a && ':' !in b
    ensures Split(a + ":" + b + ":" + rest, ':') == [a, b] + Split(rest, ':')
  {
    assert a + ":" + b + ":" + rest == a + [':'] + (b + [':'] + rest);
    SplitAfter(a, b + [':'] + rest, ':');
    SplitAfter(b, rest, ':');
  }

  lemma PlainKey(channel: string, user: string)
    requires ':' !in channel && channel != "weixin"
    ensures ParseProfileKey(PROFILE + ":" + channel + ":" + user) == Some(Owner(channel, "default", user))
  {
    SplitKey(PROFILE, channel, user);
    JoinSplit(user, ':');
    var users := Split(user, ':');
    assert ([PROFILE, channel] + users)[2..] == users;
  }

  lemma SplitLongKey(a: string, b: string, c: string, rest: string)
    requires ':' !in a && ':' !in b && ':' !in c
    ensures var parts := Split(a + ":" + b + ":" + (c + [':'] + rest), ':');
            |parts| >= 4 && parts[0] == a && parts[1] == b && parts[2] == c && parts[3..] == Split(rest, ':')
  {
    SplitKey(a, b, c + [':'] + rest);
    SplitAfter(c, rest, ':');
    assert [a, b] + ([c] + Split(rest, ':')) == [a, b, c] + Split(rest, ':');
  }

  lemma WeixinKey(account: string, user: string)
    requires ':' !in account && account != ""
    ensures ParseProfileKey(PROFILE + ":" + WEIXIN + ":" + (account + [':'] + user))
         == Some(Owner(WEIXIN, account, user))
  {
    SplitLongKey(PROFILE, WEIXIN, account, user);
    JoinSplit(user, ':');
  }

  lemma KeyNamesOwner(row: Row)
    requires ColonFree(row)
    ensures ParseProfileKey(RowProfileKey(row)) == Some(KeyOwner(row))
  {
    var account := OwnerOf(row).account;
    if row.channel == WEIXIN {
      WeixinKey(account, row.user);
      assert PROFILE + ":" + WEIXIN + ":" + (account + [':'] + row.user)
          == PROFILE + ":" + WEIXIN + ":" + account + ":" + row.user;
    } else {
      PlainKey(row.channel, row.user);
    }
  }

  /** Reading the key of a row back gives its columns, exactly if an account is named only for weixin. */
  lemma KeyRoundTrip(row: Row)
    requires ColonFree(row)
    ensures ParseProfileKey(RowProfileKey(row)) == Some(OwnerOf(row))
       <==> row.channel == WEIXIN || OwnerOf(row).account == "default"
  {
    KeyNamesOwner(row);
  }

  /** Two rows share a profile exactly if channel and user agree, and for weixin also the account. */
  lemma KeysCollideIff(a: Row, b: Row)
    requires ColonFree(a) && ColonFree(b)
    ensures RowProfileKey(a) == RowProfileKey(b)
       <==> a.channel == b.channel && a.user == b.user
            && (a.channel == WEIXIN ==> OwnerOf(a).account == OwnerOf(b).account)
  {
    KeyNamesOwner(a);
    KeyNamesOwner(b);
    if KeyOwner(a) == KeyOwner(b) && a.channel == WEIXIN {
      assert RowProfileKey(a) == PROFILE + ":" + WEIXIN + ":" + OwnerOf(a).account + ":" + a.user;
      assert RowProfileKey(b) == PROFILE + ":" + WEIXIN + ":" + OwnerOf(b).account + ":" + b.user;
    }
  }

  /** Rows have keys of their own exactly if no two have the same owner in this sense. */
  lemma UsersHaveOwnKeys(rows: seq<Row>)
    requires forall row :: row in rows ==> ColonFree(row)
    ensures DistinctKeys(rows) <==> forall i, j :: 0 <= i < j < |rows| ==> KeyOwner(rows[i]) != KeyOwner(rows[j])
  {
    forall i, j | 0 <= i < j < |rows|
      ensures RowProfileKey(rows[i]) != RowProfileKey(rows[j]) <==> KeyOwner(rows[i]) != KeyOwner(rows[j])
    {
      KeysCollideIff(rows[i], rows[j]);
    }
  }

  /**
   * Of all rows of one owner, two accounts of one user outside weixin for instance, only the last one's facts
   * survive a run.
   */
  lemma LaterAccountWins(c: Collection, rows: seq<Row>, s: Settings, embed: string -> Vector, i: nat, k: nat)
    requires Faithful(s.provider, embed) && Injective(s.hash) && AllPrepared(rows, s) && NoSharedIds(rows, s)
    requires forall row :: row in rows ==> ColonFree(row)
    requires i < k < |rows| && KeyOwner(rows[i]) == KeyOwner(rows[k])
    requires forall j :: k < j < |rows| ==> KeyOwner(rows[j]) != KeyOwner(rows[k])
    ensures var p := Partition(Rebuild(c, rows, s), Home(rows[i], s));
            && p == Target(rows[k], s)
            && forall id :: id in p ==> exists f: Fact :: f in rows[k].facts && f.id == id
  {
    KeysCollideIff(rows[i], rows[k]);
    forall j | k < j < |rows| ensures Home(rows[j], s) != Home(rows[k], s) {
      KeysCollideIff(rows[j], rows[k]);
    }
    ListedHoldsLast(c, rows, s, k);
    EachPrepared(rows, s, k);
    TargetIsFacts(rows[k], s, embed);
  }

  // ---- a fact that is lost ----

  const TEA := Fact("mem_000000000000000000000000", "food", "drink", "tea", 0.0)
  const EARLIER := Row("web", "a", "u", [TEA])
  const LATER := Row("web", "b", "u", [])

  function One(text: string): Vector { [1.0] }

  function Ones(texts: seq<string>): Option<seq<Vector>> { Some(Map(texts, One)) }

  function Same(key: string): string { key }

  const SETTINGS := Settings(Ones, Same, 1)

  lemma TeaIsWellFormed()
    ensures WellFormed(TEA) && Strip("tea") == "tea"
  {
    assert |TEA.id| == 28 && TEA.id[..4] == "mem_";
    assert StripLeft("tea") == "tea" && StripRight("tea") == "tea";
  }

  lemma TeaIsSent()
    ensures Sent(["tea"]) == ["tea"]
  {
    TeaIsWellFormed();
    assert Map(["tea"], s => Strip(s)) == ["tea"];
    assert ["tea"][1..] == [] && NonEmpty(["tea"][1..]) == [];
  }

  lemma TeaIsEmbedded()
    ensures Vectors(["tea"], Ones, 1) == Some([[1.0]])
  {
    TeaIsSent();
    var all := Take(["tea"], BATCH);
    assert all == ["tea"] && ["tea"][|all|..] == [];
    assert Map(["tea"], One) == [[1.0]];
    assert Batched(["tea"][|all|..], Ones) == Some([]);
    assert [[1.0]] + [] == [[1.0]];
  }

  lemma TeaIsRecorded(partition: string)
    ensures Records([TEA], [[1.0]], partition) == [RecordOf(TEA, partition, [1.0])]
  {
    TeaIsWellFormed();
    assert [TEA][..0] == [] && [[1.0]][..0] == [];
  }

  lemma TeaIsPrepared()
    ensures Prepared(EARLIER, SETTINGS) == Some([RecordOf(TEA, Home(EARLIER, SETTINGS), [1.0])])
  {
    TeaIsEmbedded();
    TeaIsRecorded(Home(EARLIER, SETTINGS));
    assert Map([TEA], (f: Fact) => f.text) == ["tea"];
  }

  lemma BothArePrepared()
    ensures AllPrepared([EARLIER], SETTINGS) && AllPrepared([EARLIER, LATER], SETTINGS)
    ensures Writes(LATER, SETTINGS) == []
  {
    TeaIsPrepared();
    assert [EARLIER, LATER][..1] == [EARLIER] && [EARLIER][..0] == [];
  }

  lemma BothShareAKey()
    ensures ColonFree(EARLIER) && ColonFree(LATER)
    ensures OwnerOf(EARLIER) != OwnerOf(LATER) && KeyOwner(EARLIER) == KeyOwner(LATER)
    ensures Home(EARLIER, SETTINGS) == Home(LATER, SETTINGS)
  {
    assert "a"[0] != "b"[0] && |"web"| != |WEIXIN|;
    KeysCollideIff(EARLIER, LATER);
  }

  lemma NoneIsShared()
    ensures NoSharedIds([EARLIER, LATER], SETTINGS)
  {
    BothShareAKey();
  }

  lemma BothQualify()
    ensures var rows := [EARLIER, LATER];
            && Faithful(SETTINGS.provider, One) && Injective(SETTINGS.hash) && AllPrepared(rows, SETTINGS)
            && NoSharedIds(rows, SETTINGS) && forall row :: row in rows ==> ColonFree(row)
  {
    BothArePrepared();
    BothShareAKey();
    NoneIsShared();
  }

  lemma AloneItIsIndexed()
    ensures TEA.id in Target(EARLIER, SETTINGS)
    ensures Partition(Rebuild(map[], [EARLIER], SETTINGS), Home(EARLIER, SETTINGS)) == Target(EARLIER, SETTINGS)
  {
    TeaIsPrepared();
    assert Writes(EARLIER, SETTINGS)[0].factId == TEA.id;
    PutMembers(map[], Writes(EARLIER, SETTINGS), TEA.id);
    assert [EARLIER][..0] == [];
    RewriteHome(Rebuild(map[], [], SETTINGS), EARLIER, SETTINGS);
  }

  /** Two accounts of one web user: indexed alone the first has its fact, and behind it the second takes it away. */
  lemma AnAccountIsLost()
    ensures WellFormed(TEA) && TEA in EARLIER.facts && OwnerOf(EARLIER) != OwnerOf(LATER)
    ensures var home := Home(EARLIER, SETTINGS);
            && TEA.id in Partition(Rebuild(map[], [EARLIER], SETTINGS), home)
            && TEA.id !in Partition(Rebuild(map[], [EARLIER, LATER], SETTINGS), home)
  {
    TeaIsWellFormed();
    BothArePrepared();
    BothShareAKey();
    AloneItIsIndexed();
    RewriteHome(Rebuild(map[], [EARLIER, LATER][..1], SETTINGS), LATER, SETTINGS);
  }
}
