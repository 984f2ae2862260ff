/**
 * The derived memory index (app/conversation/milvus_memory_index.py) and its rebuild from the fact source
 * (scripts/reindex_user_memory.py). The embedding service and the profile hash are parameters; the collection is
 * a map by primary key.
 */
module MemoryIndex {
  import opened Options
  import opened Sequences
  import opened TextCells

  type Vector = seq<real>
  /** One request of at most ten texts; `None` is a failed request. */
  type Provider = seq<string> -> Option<seq<Vector>>

  const BATCH: nat := 10

  datatype Fact = Fact(id: string, category: string, key: string, text: string, updatedAt: real)

  datatype Record = Record(
    factId: string, partition: string, category: string, key: string, text: string, updatedAt: real, dense: Vector)

  type Collection = map<string, Record>

  // ---- embedding in batches ----

  /** The texts that are sent: stripped, blank ones left out. */
  function Sent(texts: seq<string>): seq<string> {
    NonEmpty(Map(texts, s => Strip(s)))
  }

  /** The answers to the batches, one after another. */
  function Batched(values: seq<string>, provider: Provider): Option<seq<Vector>> {
    if values == [] then Some([])
    else
      var first := provider(Take(values, BATCH));
      var rest := Batched(values[|Take(values, BATCH)|..], provider);
      if first.None? || rest.None? then None else Some(first.value + rest.value)
  }

  function Append(front: Option<seq<Vector>>, back: Option<seq<Vector>>): Option<seq<Vector>> {
    if front.None? || back.None? then None else Some(front.value + back.value)
  }

  /** Setting the first batch of what is left aside. */
  lemma BatchedNext(vectors: seq<Vector>, left: seq<string>, provider: Provider)
    requires left != []
    ensures provider(Take(left, BATCH)).None? ==> Batched(left, provider).None?
    ensures provider(Take(left, BATCH)).Some? ==>
              Append(Some(vectors), Batched(left, provider)) ==
                Append(Some(vectors + provider(Take(left, BATCH)).value),
                       Batched(left[|Take(left, BATCH)|..], provider))
  {
    var response, rest := provider(Take(left, BATCH)), Batched(left[|Take(left, BATCH)|..], provider);
    if response.Some? && rest.Some? {
      assert vectors + (response.value + rest.value) == vectors + response.value + rest.value;
    }
  }

  method Encode(texts: seq<string>, provider: Provider) returns (output: Option<seq<Vector>>)
    ensures output == Batched(Sent(texts), provider)
  {
    var values := Sent(texts);
    var vectors: seq<Vector> := [];
    var offset := 0;
    ghost var all := Batched(values, provider);
    assert values[0..] == values && (all.Some? ==> vectors + all.value == all.value);
    while offset < |values|
      invariant 0 <= offset <= |values|
      invariant Batched(values, provider) == Append(Some(vectors), Batched(values[offset..], provider))
    {
      var batch := values[offset..if offset + BATCH <= |values| then offset + BATCH else |values|];
      assert batch == Take(values[offset..], BATCH);
      BatchedNext(vectors, values[offset..], provider);
      var response := provider(batch);
      if response.None? { return None; }
      assert values[offset..][|batch|..] == values[offset + |batch|..];
      vectors := vectors + response.value;
      offset := offset + |batch|;
    }
    assert values[offset..] == [] && vectors + [] == vectors;
    return Some(vectors);
  }

  /** What the service promises when it answers: one embedding per text, in order. */
  ghost predicate Faithful(provider: Provider, embed: string -> Vector) {
    forall batch :: 1 <= |batch| <= BATCH && provider(batch).Some? ==> provider(batch).value == Map(batch, embed)
  }

  lemma MapParts<S, T>(a: seq<S>, b: seq<S>, f: S -> T)
    ensures Map(a, f) + Map(b, f) == Map(a + b, f)
  {
  }

  lemma {:induction false} BatchingIsMap(values: seq<string>, provider: Provider, embed: string -> Vector)
    requires Faithful(provider, embed)
    ensures Batched(values, provider).Some? ==> Batched(values, provider).value == Map(values, embed)
    decreases |values|
  {
    if values != [] {
      var batch := Take(values, BATCH);
      var rest := values[|batch|..];
      BatchingIsMap(rest, provider, embed);
      assert values == batch + rest;
      MapParts(batch, rest, embed);
    }
  }

  /** `_vectors`: refuses an answer of the wrong length or a vector of the wrong dimension. */
  function Vectors(texts: seq<string>, provider: Provider, dim: nat): Option<seq<Vector>> {
    var raw := Batched(Sent(texts), provider);
    if raw.None? || |raw.value| != |texts| || (exists v :: v in raw.value && |v| != dim) then None else raw
  }

  lemma {:induction false} NonEmptyLength(parts: seq<string>)
    ensures |NonEmpty(parts)| <= |parts|
    ensures |NonEmpty(parts)| == |parts| ==> NonEmpty(parts) == parts && forall p :: p in parts ==> p != []
  {
    if parts != [] {
      NonEmptyLength(parts[1..]);
      assert parts == [parts[0]] + parts[1..];
    }
  }

  /** Vectors that are accepted are the embeddings of their own texts, and no text is blank. */
  lemma VectorsAreOwn(texts: seq<string>, provider: Provider, dim: nat, embed: string -> Vector)
    requires Faithful(provider, embed) && Vectors(texts, provider, dim).Some?
    ensures var v := Vectors(texts, provider, dim).value;
            |v| == |texts|
            && forall k :: 0 <= k < |texts| ==> Strip(texts[k]) != [] && v[k] == embed(Strip(texts[k])) && |v[k]| == dim
  {
    var stripped := Map(texts, s => Strip(s));
    BatchingIsMap(Sent(texts), provider, embed);
    NonEmptyLength(stripped);
    var v := Vectors(texts, provider, dim).value;
    forall k | 0 <= k < |texts|
      ensures Strip(texts[k]) != [] && v[k] == embed(Strip(texts[k])) && |v[k]| == dim
    {
      assert stripped[k] in stripped && v[k] in v;
    }
  }

  /** The texts go out in batches of ten, the last of them what is left; the answers are put one behind the other. */
  lemma {:induction false} BatchesAreTens(values: seq<string>, provider: Provider)
    ensures |values| > 10 ==>
              Batched(values, provider) == Append(provider(values[..10]), Batched(values[10..], provider))
    ensures 0 < |values| <= 10 ==> Batched(values, provider) == Append(provider(values), Some([]))
    ensures Batched([], provider) == Some([])
  {
    if 0 < |values| <= 10 {
      assert values[|Take(values, BATCH)|..] == [];
      if provider(values).Some? { assert provider(values).value + [] == provider(values).value; }
    }
  }

  // ---- records and the collection ----

  predicate GoodId(id: string) {
    |id| == 28 && id[..4] == "mem_"
    && forall k :: 4 <= k < 28 ==> '0' <= id[k] <= '9' || 'a' <= id[k] <= 'f'
  }

  predicate WellFormed(fact: Fact) {
    GoodId(fact.id) && Strip(fact.text) != []
  }

  function RecordOf(fact: Fact, partition: string, vector: Vector): Record {
    Record(fact.id, partition, Take(fact.category, 32), Take(fact.key, 64), Take(fact.text, 512), fact.updatedAt,
           vector)
  }

  function Records(facts: seq<Fact>, vectors: seq<Vector>, partition: string): (r: seq<Record>)
    requires |facts| == |vectors|
  {
    if facts == [] then []
    else
      var n := |facts| - 1;
      var before := Records(facts[..n], vectors[..n], partition);
      if WellFormed(facts[n]) then before + [RecordOf(facts[n], partition, vectors[n])] else before
  }

  /** A record carries its fact, each field in its own place and cut to its length, under the given partition. */
  lemma RecordCarries(fact: Fact, partition: string, vector: Vector)
    ensures var r := RecordOf(fact, partition, vector);
      && r.factId == fact.id && r.partition == partition && r.updatedAt == fact.updatedAt && r.dense == vector
      && r.category <= fact.category && |r.category| == (if |fact.category| <= 32 then |fact.category| else 32)
      && r.key <= fact.key && |r.key| == (if |fact.key| <= 64 then |fact.key| else 64)
      && r.text <= fact.text && |r.text| == (if |fact.text| <= 512 then |fact.text| else 512)
  {
  }

  /** Records are in the order of their facts, and a fact that is not well formed has none. */
  lemma {:induction false} RecordsInOrder(facts: seq<Fact>, vectors: seq<Vector>, partition: string, n: nat)
    requires |facts| == |vectors| && n < |facts|
    ensures Records(facts[..n + 1], vectors[..n + 1], partition)
         == Records(facts[..n], vectors[..n], partition)
            + if WellFormed(facts[n]) then [RecordOf(facts[n], partition, vectors[n])] else []
  {
    assert facts[..n + 1][..n] == facts[..n] && vectors[..n + 1][..n] == vectors[..n];
  }

  /** Storing touches the ids of the records only ... */
  lemma {:induction false} PutTouchesOwnIds(c: Collection, records: seq<Record>, id: string)
    requires forall k :: 0 <= k < |records| ==> records[k].factId != id
    ensures Get(Put(c, records), id) == Get(c, id)
  {
    if records != [] { PutTouchesOwnIds(c, records[..|records| - 1], id); }
  }

  /** ... and leaves the last record with each of them. */
  lemma {:induction false} PutLeavesLast(c: Collection, records: seq<Record>, k: nat)
    requires k < |records| && forall j :: k < j < |records| ==> records[j].factId != records[k].factId
    ensures Get(Put(c, records), records[k].factId) == Some(records[k])
  {
    if k < |records| - 1 { PutLeavesLast(c, records[..|records| - 1], k); }
  }

  /** Deleting takes ids of one partition only. */
  lemma DeletesAreExact(c: Collection, partition: string, ids: set<string>, id: string)
    ensures Get(WithoutIds(c, partition, ids), id)
         == if id in c && c[id].partition == partition && id in ids then None else Get(c, id)
    ensures Get(Without(c, partition), id) == if id in c && c[id].partition == partition then None else Get(c, id)
    ensures Get(Partition(c, partition), id) == if id in c && c[id].partition == partition then Get(c, id) else None
  {
  }

  /** Upsert: a record replaces any other with its id, whatever its partition. */
  function Put(c: Collection, records: seq<Record>): Collection {
    if records == [] then c
    else
      var n := |records| - 1;
      Put(c, records[..n])[records[n].factId := records[n]]
  }

  function Partition(c: Collection, partition: string): Collection {
    map id | id in c && c[id].partition == partition :: c[id]
  }

  function Without(c: Collection, partition: string): Collection {
    map id | id in c && c[id].partition != partition :: c[id]
  }

  function WithoutIds(c: Collection, partition: string, ids: set<string>): Collection {
    map id | id in c && !(c[id].partition == partition && id in ids) :: c[id]
  }

  /** The partition no profile hashes to. */
  function Probes(): string {
    seq(64, i => '0')
  }

  /** The records of a profile, or `None` if embedding them fails. */
  function Prepare(facts: seq<Fact>, partition: string, provider: Provider, dim: nat): Option<seq<Record>> {
    var vectors := Vectors(Map(facts, (f: Fact) => f.text), provider, dim);
    if facts == [] then Some([])
    else if vectors.None? then None
    else Some(Records(facts, vectors.value, partition))
  }

  method Embed(texts: seq<string>, provider: Provider, dim: nat) returns (vectors: Option<seq<Vector>>)
    ensures vectors == Vectors(texts, provider, dim)
  {
    vectors := Encode(texts, provider);
    if vectors.Some? && (|vectors.value| != |texts| || exists v :: v in vectors.value && |v| != dim) { return None; }
  }

  method BuildRecords(facts: seq<Fact>, vectors: seq<Vector>, partition: string) returns (records: seq<Record>)
    requires |facts| == |vectors|
    ensures records == Records(facts, vectors, partition)
  {
    records := [];
    for n := 0 to |facts|
      invariant records == Records(facts[..n], vectors[..n], partition)
    {
      assert facts[..n + 1][..n] == facts[..n] && vectors[..n + 1][..n] == vectors[..n];
      if GoodId(facts[n].id) && Strip(facts[n].text) != [] {
        records := records + [RecordOf(facts[n], partition, vectors[n])];
      }
    }
    assert facts[..|facts|] == facts && vectors[..|facts|] == vectors;
  }

  class ProfileMemoryIndex {
    const provider: Provider
    const hash: string -> string
    const dim: nat
    var initialized: bool
    /** The Milvus collection behind the client. */
    var collection: Collection

    constructor (provider: Provider, hash: string -> string, dim: nat, existing: Collection)
      ensures this.provider == provider && this.hash == hash && this.dim == dim
      ensures !initialized && collection == existing
    {
      this.provider, this.hash, this.dim := provider, hash, dim;
      initialized, collection := false, existing;
    }

    method Initialize()
      modifies this
      ensures initialized && collection == old(collection)
    {
      if !initialized { initialized := true; }
    }

    /** Writes and removes a probe record under an id of its own, after emptying the partition kept for probes. */
    method PermissionProbe(probeId: string)
      modifies this
      ensures collection == Without(old(collection), Probes()) - {probeId}
    {
      Initialize();
      collection := Without(collection, Probes());
      var dense := seq(dim, i => if i == 0 then 1.0 else 0.0);
      var probe := Record(probeId, Probes(), "system", "permission_probe", "", 0.0, dense);
      assert [probe][..0] == [] && Put(collection, [probe]) == collection[probeId := probe];
      collection := Put(collection, [probe]);
      collection := WithoutIds(collection, Probes(), {probeId});
    }

    /** `None` when embedding fails; nothing is stored then. */
    method Upsert(profileKey: string, facts: seq<Fact>) returns (stored: Option<nat>)
      modifies this
      ensures var records := Prepare(facts, hash(profileKey), provider, dim);
              && collection == Put(old(collection), records.GetOr([]))
              && stored == if records.Some? then Some(|records.value|) else None
    {
      if facts == [] { return Some(0); }
      Initialize();
      var vectors := Embed(Map(facts, (f: Fact) => f.text), provider, dim);
      if vectors.None? { return None; }
      var records := BuildRecords(facts, vectors.value, hash(profileKey));
      if records == [] { return Some(0); }
      collection := Put(collection, records);
      return Some(|records|);
    }

    /** Malformed ids never reach the filter, and an empty filter deletes nothing; the count is of all ids given. */
    method Delete(profileKey: string, factIds: seq<string>) returns (count: nat)
      modifies this
      ensures collection == WithoutIds(old(collection), hash(profileKey), set id | id in factIds && GoodId(id))
      ensures count == if (set id | id in factIds && GoodId(id)) == {} then 0 else |set id | id in factIds|
    {
      var ids := set id | id in factIds && GoodId(id);
      if ids == {} { return 0; }
      Initialize();
      collection := WithoutIds(collection, hash(profileKey), ids);
      return |set id | id in factIds|;
    }

    method DeleteProfile(profileKey: string)
      modifies this
      ensures collection == Without(old(collection), hash(profileKey))
    {
      Initialize();
      collection := Without(collection, hash(profileKey));
    }
  }
}
