/**
 * Recipe cards as spreadsheet rows (scripts/export_milvus_recipe_cards.py): pruning the JSON of a recipe and laying
 * out its columns.
 */
module CardExport {
  import opened Options
  import opened Sequences

  /** A JSON value; an object keeps the order of its keys. */
  datatype Json =
    | Null | Bool(b: bool) | Num(n: int) | Text(s: string) | List(items: seq<Json>) | Object(fields: seq<Field>)

  datatype Field = Field(key: string, value: Json)

  predicate Empty(v: Json) {
    v == Null || v == Text("") || v == List([]) || v == Object([])
  }

  // ---- pruning ----

  function Prune(v: Json): Json {
    match v
    case List(items) => List(PruneItems(items))
    case Object(fields) => Object(PruneFields(fields))
    case _ => v
  }

  function PruneItems(items: seq<Json>): seq<Json> {
    if items == [] then []
    else
      var head, tail := Prune(items[0]), PruneItems(items[1..]);
      if Empty(head) then tail else [head] + tail
  }

  function PruneFields(fields: seq<Field>): seq<Field> {
    if fields == [] then []
    else
      var head, tail := Prune(fields[0].value), PruneFields(fields[1..]);
      if Empty(head) then tail else [Field(fields[0].key, head)] + tail
  }

  /** No value inside `v` is empty. */
  predicate Lean(v: Json) {
    match v
    case List(items) => LeanItems(items)
    case Object(fields) => LeanFields(fields)
    case _ => true
  }

  predicate LeanItems(items: seq<Json>) {
    items == [] || (!Empty(items[0]) && Lean(items[0]) && LeanItems(items[1..]))
  }

  predicate LeanFields(fields: seq<Field>) {
    fields == [] || (!Empty(fields[0].value) && Lean(fields[0].value) && LeanFields(fields[1..]))
  }

  lemma {:induction false} PruneIsLean(v: Json)
    ensures Lean(Prune(v))
  {
    match v
    case List(items) => PruneItemsLean(items);
    case Object(fields) => PruneFieldsLean(fields);
    case _ =>
  }

  lemma {:induction false} PruneItemsLean(items: seq<Json>)
    ensures LeanItems(PruneItems(items))
  {
    if items != [] {
      PruneIsLean(items[0]);
      PruneItemsLean(items[1..]);
      assert ([Prune(items[0])] + PruneItems(items[1..]))[1..] == PruneItems(items[1..]);
    }
  }

  lemma {:induction false} PruneFieldsLean(fields: seq<Field>)
    ensures LeanFields(PruneFields(fields))
  {
    if fields != [] {
      PruneIsLean(fields[0].value);
      PruneFieldsLean(fields[1..]);
      assert ([Field(fields[0].key, Prune(fields[0].value))] + PruneFields(fields[1..]))[1..]
          == PruneFields(fields[1..]);
    }
  }

  lemma {:induction false} LeanIsKept(v: Json)
    requires Lean(v)
    ensures Prune(v) == v
  {
    match v
    case List(items) => LeanItemsKept(items);
    case Object(fields) => LeanFieldsKept(fields);
    case _ =>
  }

  lemma {:induction false} LeanItemsKept(items: seq<Json>)
    requires LeanItems(items)
    ensures PruneItems(items) == items
  {
    if items != [] {
      LeanIsKept(items[0]);
      LeanItemsKept(items[1..]);
      assert [items[0]] + items[1..] == items;
    }
  }

  lemma {:induction false} LeanFieldsKept(fields: seq<Field>)
    requires LeanFields(fields)
    ensures PruneFields(fields) == fields
  {
    if fields != [] {
      LeanIsKept(fields[0].value);
      LeanFieldsKept(fields[1..]);
      assert [fields[0]] + fields[1..] == fields;
    }
  }

  /** Pruning changes exactly the trees with something empty inside; what it returns has nothing to prune. */
  lemma PruneKeepsExactlyLean(v: Json)
    ensures Prune(v) == v <==> Lean(v)
    ensures Prune(Prune(v)) == Prune(v)
  {
    PruneIsLean(v);
    LeanIsKept(Prune(v));
    if Lean(v) { LeanIsKept(v); }
  }

  // ---- what pruning preserves ----

  /** The scalars of a tree but null and empty texts, in order, each with the keys that lead to it. */
  function Leaves(v: Json, path: seq<string>): seq<(seq<string>, Json)> {
    match v
    case List(items) => ItemLeaves(items, path)
    case Object(fields) => FieldLeaves(fields, path)
    case Null => []
    case Text(s) => if s == "" then [] else [(path, v)]
    case _ => [(path, v)]
  }

  function ItemLeaves(items: seq<Json>, path: seq<string>): seq<(seq<string>, Json)> {
    if items == [] then [] else Leaves(items[0], path) + ItemLeaves(items[1..], path)
  }

  function FieldLeaves(fields: seq<Field>, path: seq<string>): seq<(seq<string>, Json)> {
    if fields == [] then [] else Leaves(fields[0].value, path + [fields[0].key]) + FieldLeaves(fields[1..], path)
  }

  /** Every 0, every False and every text stays, under its keys and in order. */
  lemma {:induction false} PruneKeepsLeaves(v: Json, path: seq<string>)
    ensures Leaves(Prune(v), path) == Leaves(v, path)
  {
    match v
    case List(items) => PruneKeepsItemLeaves(items, path);
    case Object(fields) => PruneKeepsFieldLeaves(fields, path);
    case _ =>
  }

  lemma {:induction false} PruneKeepsItemLeaves(items: seq<Json>, path: seq<string>)
    ensures ItemLeaves(PruneItems(items), path) == ItemLeaves(items, path)
  {
    if items != [] {
      PruneKeepsLeaves(items[0], path);
      PruneKeepsItemLeaves(items[1..], path);
      EmptyHasNoLeaves(Prune(items[0]), path);
      assert ([Prune(items[0])] + PruneItems(items[1..]))[1..] == PruneItems(items[1..]);
    }
  }

  lemma {:induction false} PruneKeepsFieldLeaves(fields: seq<Field>, path: seq<string>)
    ensures FieldLeaves(PruneFields(fields), path) == FieldLeaves(fields, path)
  {
    if fields != [] {
      PruneKeepsLeaves(fields[0].value, path + [fields[0].key]);
      PruneKeepsFieldLeaves(fields[1..], path);
      EmptyHasNoLeaves(Prune(fields[0].value), path + [fields[0].key]);
      assert ([Field(fields[0].key, Prune(fields[0].value))] + PruneFields(fields[1..]))[1..]
          == PruneFields(fields[1..]);
    }
  }

  lemma EmptyHasNoLeaves(v: Json, path: seq<string>)
    ensures Empty(v) ==> Leaves(v, path) == []
  {
  }

  lemma {:induction false} LeanHasLeaves(v: Json, path: seq<string>)
    requires Lean(v) && !Empty(v)
    ensures Leaves(v, path) != []
  {
    match v
    case List(items) => LeanHasLeaves(items[0], path);
    case Object(fields) => LeanHasLeaves(fields[0].value, path + [fields[0].key]);
    case _ =>
  }

  /** A tree is pruned away entirely exactly when it holds no scalar worth keeping. */
  lemma PrunedAwayIff(v: Json)
    ensures Empty(Prune(v)) <==> Leaves(v, []) == []
  {
    PruneIsLean(v);
    PruneKeepsLeaves(v, []);
    EmptyHasNoLeaves(Prune(v), []);
    if !Empty(Prune(v)) { LeanHasLeaves(Prune(v), []); }
  }

  // ---- one record ----

  /** A column is one of the fixed ones or a detail field under the detail prefix. */
  datatype Column = Base(name: string) | Detail(field: string)

  /** A cell holds text, a number or a truth value; a list or object is written as its JSON text. */
  datatype Cell = Words(text: string) | Number(n: int) | Truth(b: bool)

  type Record = map<Column, Cell>

  const CELL_LIMIT: nat := 32767

  predicate Nested(v: Json) { v.List? || v.Object? }

  function CellOf(v: Json, encode: Json -> string): Cell {
    match v
    case Num(n) => Number(n)
    case Bool(b) => Truth(b)
    case Text(s) => Words(s)
    case _ => Words(encode(v))
  }

  /** The detail columns; `None` when an encoded cell would be too long. */
  function DetailColumns(detail: seq<Field>, encode: Json -> string): Option<Record> {
    if detail == [] then Some(map[])
    else
      var n := |detail| - 1;
      var before, cleaned := DetailColumns(detail[..n], encode), Prune(detail[n].value);
      if before.None? || Empty(cleaned) then before
      else if Nested(cleaned) && |encode(cleaned)| > CELL_LIMIT then None
      else Some(before.value[Detail(detail[n].key) := CellOf(cleaned, encode)])
  }

  method BuildRecord(base: Record, detail: seq<Field>, encode: Json -> string) returns (record: Option<Record>)
    ensures record == if DetailColumns(detail, encode).None? then None
                      else Some(base + DetailColumns(detail, encode).value)
  {
    var columns: Record := map[];
    for n := 0 to |detail|
      invariant DetailColumns(detail[..n], encode) == Some(columns)
    {
      assert detail[..n + 1][..n] == detail[..n];
      var cleaned := Prune(detail[n].value);
      if Empty(cleaned) { continue; }
      if Nested(cleaned) && |encode(cleaned)| > CELL_LIMIT {
        NoColumnsLater(detail, n + 1, encode);
        return None;
      }
      columns := columns[Detail(detail[n].key) := CellOf(cleaned, encode)];
    }
    assert detail[..|detail|] == detail;
    return Some(base + columns);
  }

  lemma {:induction false} NoColumnsLater(detail: seq<Field>, n: nat, encode: Json -> string)
    requires n <= |detail| && DetailColumns(detail[..n], encode).None?
    ensures DetailColumns(detail, encode).None?
    decreases |detail|
  {
    if n == |detail| {
      assert detail[..n] == detail;
    } else {
      assert detail[..|detail| - 1][..n] == detail[..n];
      NoColumnsLater(detail[..|detail| - 1], n, encode);
    }
  }

  /** A record is refused exactly if some list or object of it spells too long a cell. */
  lemma {:induction false} TooLongIff(detail: seq<Field>, encode: Json -> string)
    ensures DetailColumns(detail, encode).None? <==>
              exists k :: 0 <= k < |detail| && TooLong(Prune(detail[k].value), encode)
  {
    if detail != [] {
      var n := |detail| - 1;
      TooLongIff(detail[..n], encode);
      assert detail == detail[..n] + [detail[n]];
      if k :| 0 <= k < n && TooLong(Prune(detail[..n][k].value), encode) {
        assert TooLong(Prune(detail[k].value), encode);
      }
    }
  }

  predicate TooLong(v: Json, encode: Json -> string) {
    (v.List? || v.Object?) && !Empty(v) && |encode(v)| > 32767
  }

  predicate DistinctKeys(detail: seq<Field>) {
    forall i, j :: 0 <= i < j < |detail| ==> detail[i].key != detail[j].key
  }

  /** The cell of a field, if anything of it survives pruning. */
  function FieldCell(v: Json, encode: Json -> string): Option<Cell> {
    if Empty(Prune(v)) then None else Some(CellOf(Prune(v), encode))
  }

  /** A field has a column exactly when something of it survives pruning, and the column holds that. */
  lemma {:induction false} ColumnsHoldThePruned(detail: seq<Field>, encode: Json -> string, k: nat)
    requires DistinctKeys(detail) && k < |detail| && DetailColumns(detail, encode).Some?
    ensures Get(DetailColumns(detail, encode).value, Detail(detail[k].key)) == FieldCell(detail[k].value, encode)
  {
    var n := |detail| - 1;
    if k < n {
      ColumnsHoldThePruned(detail[..n], encode, k);
    } else {
      ColumnsAreKeys(detail[..n], encode, Detail(detail[n].key));
    }
  }

  lemma {:induction false} ColumnsAreKeys(detail: seq<Field>, encode: Json -> string, column: Column)
    requires DetailColumns(detail, encode).Some?
    ensures column in DetailColumns(detail, encode).value ==>
              column.Detail? && exists k :: 0 <= k < |detail| && detail[k].key == column.field
  {
    if detail != [] {
      var n := |detail| - 1;
      ColumnsAreKeys(detail[..n], encode, column);
      if column in DetailColumns(detail, encode).value {
        if column in DetailColumns(detail[..n], encode).value {
          var k :| 0 <= k < n && detail[..n][k].key == column.field;
          assert detail[k].key == column.field;
        } else {
          assert detail[n].key == column.field;
        }
      }
    }
  }

  // ---- the sheet ----

  const BASE := [Base("id"), Base("名称"), Base("图片地址"), Base("食材"), Base("lang"), Base("标签")]

  function Present(records: seq<Record>): set<string> {
    set k, c | 0 <= k < |records| && c in records[k] && c.Detail? :: c.field
  }

  /** The fields of `order` that are present, in that order. */
  function InOrder(order: seq<string>, present: set<string>): seq<string> {
    if order == [] then []
    else if order[0] in present then [order[0]] + InOrder(order[1..], present)
    else InOrder(order[1..], present)
  }

  /** Known fields come in the order of the list. */
  lemma {:induction false} InOrderOfParts(front: seq<string>, field: string, back: seq<string>, present: set<string>)
    ensures InOrder(front + [field] + back, present)
         == InOrder(front, present) + (if field in present then [field] else []) + InOrder(back, present)
  {
    var all := front + [field] + back;
    if front == [] {
      assert all[1..] == back;
    } else {
      assert all[1..] == front[1..] + [field] + back;
      InOrderOfParts(front[1..], field, back, present);
    }
  }

  function Rest(order: seq<string>, present: set<string>): set<string> {
    present - set k | 0 <= k < |order| :: order[k]
  }

  /** A sorting function lists a set without repetition. */
  ghost predicate Sorts(sorted: set<string> -> seq<string>) {
    forall s :: Distinct(sorted(s)) && forall x :: x in sorted(s) <==> x in s
  }

  function DetailFields(records: seq<Record>, order: seq<string>, sorted: set<string> -> seq<string>): seq<string> {
    InOrder(order, Present(records)) + sorted(Rest(order, Present(records)))
  }

  function Columns(records: seq<Record>, order: seq<string>, sorted: set<string> -> seq<string>): seq<Column> {
    var fields := DetailFields(records, order, sorted);
    BASE + seq(|fields|, k requires 0 <= k < |fields| => Detail(fields[k]))
  }

  function RowOf(headers: seq<Column>, record: Record): seq<Option<Cell>> {
    seq(|headers|, k requires 0 <= k < |headers| => Get(record, headers[k]))
  }

  lemma {:induction false} InOrderIs(order: seq<string>, present: set<string>)
    requires Distinct(order)
    ensures Distinct(InOrder(order, present))
    ensures forall f :: f in InOrder(order, present) <==> f in order && f in present
  {
    if order != [] {
      InOrderIs(order[1..], present);
      assert order == [order[0]] + order[1..];
    }
  }

  /** Every present field has exactly one column, the known ones first and in their fixed order. */
  lemma FieldsAreListedOnce(records: seq<Record>, order: seq<string>, sorted: set<string> -> seq<string>)
    requires Distinct(order) && Sorts(sorted)
    ensures Distinct(DetailFields(records, order, sorted))
    ensures forall f :: f in DetailFields(records, order, sorted) <==> f in Present(records)
    ensures InOrder(order, Present(records)) <= DetailFields(records, order, sorted)
  {
    var known, rest := InOrder(order, Present(records)), sorted(Rest(order, Present(records)));
    InOrderIs(order, Present(records));
    forall f ensures f in known + rest <==> f in Present(records) {
      if f in order {
        var k :| 0 <= k < |order| && order[k] == f;
      }
    }
    forall i, j | 0 <= i < j < |known + rest| ensures (known + rest)[i] != (known + rest)[j] {
      if i < |known| && j >= |known| {
        assert known[i] in known && rest[j - |known|] in rest;
        var k :| 0 <= k < |order| && order[k] == known[i];
      }
    }
  }

  lemma ColumnsAreDistinct(records: seq<Record>, order: seq<string>, sorted: set<string> -> seq<string>)
    requires Distinct(order) && Sorts(sorted)
    ensures Distinct(Columns(records, order, sorted))
  {
    FieldsAreListedOnce(records, order, sorted);
    var fields, headers := DetailFields(records, order, sorted), Columns(records, order, sorted);
    BaseIsDistinct();
    forall i, j | 0 <= i < j < |headers| ensures headers[i] != headers[j] {
      if i >= |BASE| {
        assert headers[i] == Detail(fields[i - |BASE|]) && headers[j] == Detail(fields[j - |BASE|]);
      } else if j < |BASE| {
        assert headers[i] == BASE[i] && headers[j] == BASE[j];
      } else {
        assert headers[i] == BASE[i] && BASE[i].Base?;
      }
    }
  }

  lemma BaseIsDistinct()
    ensures Distinct(BASE) && forall k :: 0 <= k < |BASE| ==> BASE[k].Base?
  {
    assert |"id"| == 2 && |"名称"| == 2 && |"食材"| == 2 && |"标签"| == 2;
    assert |"图片地址"| == 4 && |"lang"| == 4;
    assert "id"[0] != "名称"[0] && "id"[0] != "食材"[0] && "id"[0] != "标签"[0];
    assert "名称"[0] != "食材"[0] && "名称"[0] != "标签"[0] && "食材"[0] != "标签"[0];
    assert "图片地址"[0] != "lang"[0];
  }

  /** A row read by its headers. */
  function ReadRow(headers: seq<Column>, row: seq<Option<Cell>>): Record
    requires |row| == |headers|
  {
    if headers == [] then map[]
    else
      var n := |headers| - 1;
      var before := ReadRow(headers[..n], row[..n]);
      if row[n].Some? then before[headers[n] := row[n].value] else before
  }

  lemma {:induction false} ReadRowAt(headers: seq<Column>, record: Record, c: Column)
    ensures var r := ReadRow(headers, RowOf(headers, record));
            Get(r, c) == if c in headers then Get(record, c) else None
  {
    if headers != [] {
      var n := |headers| - 1;
      ReadRowAt(headers[..n], record, c);
      assert RowOf(headers, record)[..n] == RowOf(headers[..n], record);
      assert headers == headers[..n] + [headers[n]];
    }
  }

  /** Every record can be read back from its row. */
  lemma RowsReadBack(records: seq<Record>, order: seq<string>, sorted: set<string> -> seq<string>, k: nat)
    requires Distinct(order) && Sorts(sorted) && k < |records|
    requires forall c :: c in records[k] && c.Base? ==> c in BASE
    ensures var headers := Columns(records, order, sorted);
            ReadRow(headers, RowOf(headers, records[k])) == records[k]
  {
    var headers, record := Columns(records, order, sorted), records[k];
    var r := ReadRow(headers, RowOf(headers, record));
    FieldsAreListedOnce(records, order, sorted);
    forall c ensures Get(r, c) == Get(record, c) {
      ReadRowAt(headers, record, c);
      if c in record {
        assert c in headers by {
          if c.Detail? {
            assert c.field in Present(records);
            var fields := DetailFields(records, order, sorted);
            var j :| 0 <= j < |fields| && fields[j] == c.field;
            assert headers[|BASE| + j] == c;
          } else {
            var j :| 0 <= j < |BASE| && BASE[j] == c;
            assert headers[j] == c;
          }
        }
      }
    }
    forall c | c in r ensures c in record && record[c] == r[c] { assert Get(r, c) == Get(record, c); }
    forall c | c in record ensures c in r { assert Get(r, c) == Get(record, c); }
  }

  // ---- what a cell tells ----

  /** The JSON text of a list or object is read back by `decode`. */
  ghost predicate Decodes(encode: Json -> string, decode: string -> Option<Json>) {
    forall v :: Nested(v) ==> decode(encode(v)) == Some(v)
  }

  /** Two values share a cell exactly when one is a text that spells the other, a list or object. */
  lemma CellsCollideIff(u: Json, v: Json, encode: Json -> string, decode: string -> Option<Json>)
    requires Decodes(encode, decode) && u != Null && v != Null && u != v
    ensures CellOf(u, encode) == CellOf(v, encode)
       <==> (u.Text? && Nested(v) && u.s == encode(v)) || (v.Text? && Nested(u) && v.s == encode(u))
  {
  }

  /** A reader that does not know the columns takes for a list or object whatever decodes to one. */
  function Guess(c: Cell, decode: string -> Option<Json>): Json {
    match c
    case Number(n) => Num(n)
    case Truth(b) => Bool(b)
    case Words(s) => if decode(s).Some? && Nested(decode(s).value) then decode(s).value else Text(s)
  }

  /** A reader that knows which columns hold lists and objects decodes those. */
  function Know(c: Cell, nested: bool, decode: string -> Option<Json>): Json {
    if c.Words? && nested then decode(c.text).GetOr(Null) else if c.Words? then Text(c.text) else Guess(c, decode)
  }

  predicate SpellsNested(v: Json, decode: string -> Option<Json>) {
    v.Text? && decode(v.s).Some? && Nested(decode(v.s).value)
  }

  /** The guess is right exactly unless a text spells a list or object; whoever knows the columns is always right. */
  lemma CellReadsBackIff(v: Json, encode: Json -> string, decode: string -> Option<Json>)
    requires Decodes(encode, decode) && v != Null
    ensures Guess(CellOf(v, encode), decode) == v <==> !SpellsNested(v, decode)
    ensures Know(CellOf(v, encode), Nested(v), decode) == v
  {
  }

  /** From such a text and the list it spells no reader can tell which was written. */
  lemma NoReaderTellsThemApart(v: Json, encode: Json -> string, read: Cell -> Json)
    requires Nested(v)
    ensures !(read(CellOf(v, encode)) == v && read(CellOf(Text(encode(v)), encode)) == Text(encode(v)))
  {
  }

  lemma TheTextOfAList(encode: Json -> string)
    requires encode(List([Num(1)])) == "[1]"
    ensures var text, list := [Field("note", Text("[1]"))], [Field("note", List([Num(1)]))];
            text != list && DetailColumns(text, encode) == DetailColumns(list, encode) != None
  {
    var text, list := [Field("note", Text("[1]"))], [Field("note", List([Num(1)]))];
    assert PruneItems([Num(1)][1..]) == [] && Prune(List([Num(1)])) == List([Num(1)]);
    assert text[..0] == [] && list[..0] == [];
    assert DetailColumns(text[..0], encode) == Some(map[]) == DetailColumns(list[..0], encode);
    assert text[0].value != list[0].value;
  }

  /** From recipe to sheet: each detail field has its cell, and only pruned-away fields have none. */
  lemma DetailsReachTheSheet(
    records: seq<Record>, order: seq<string>, sorted: set<string> -> seq<string>, k: nat,
    base: Record, detail: seq<Field>, encode: Json -> string, j: nat)
    requires Distinct(order) && Sorts(sorted) && k < |records| && j < |detail| && DistinctKeys(detail)
    requires (forall c :: c in base ==> c in BASE) && DetailColumns(detail, encode).Some?
    requires records[k] == base + DetailColumns(detail, encode).value
    ensures var headers := Columns(records, order, sorted);
            Get(ReadRow(headers, RowOf(headers, records[k])), Detail(detail[j].key))
            == FieldCell(detail[j].value, encode)
  {
    BaseIsDistinct();
    forall c | c in records[k] && c.Base? ensures c in BASE {
      if c in DetailColumns(detail, encode).value { ColumnsAreKeys(detail, encode, c); }
    }
    RowsReadBack(records, order, sorted, k);
    ColumnsHoldThePruned(detail, encode, j);
    assert Detail(detail[j].key) !in base;
  }

  /** And back: the pruned value, for one who guesses exactly unless it is a text that spells a list or object. */
  lemma DetailsReadBack(
    records: seq<Record>, order: seq<string>, sorted: set<string> -> seq<string>, k: nat,
    base: Record, detail: seq<Field>, encode: Json -> string, decode: string -> Option<Json>, j: nat)
    requires Distinct(order) && Sorts(sorted) && k < |records| && j < |detail| && DistinctKeys(detail)
    requires (forall c :: c in base ==> c in BASE) && DetailColumns(detail, encode).Some?
    requires records[k] == base + DetailColumns(detail, encode).value && Decodes(encode, decode)
    ensures var headers, column := Columns(records, order, sorted), Detail(detail[j].key);
            var cell := Get(ReadRow(headers, RowOf(headers, records[k])), column);
            var kept := Prune(detail[j].value);
            && (cell.None? <==> Empty(kept))
            && (cell.Some? ==> Know(cell.value, Nested(kept), decode) == kept)
            && (cell.Some? ==> (Guess(cell.value, decode) == kept <==> !SpellsNested(kept, decode)))
  {
    DetailsReachTheSheet(records, order, sorted, k, base, detail, encode, j);
    if !Empty(Prune(detail[j].value)) {
      CellReadsBackIff(Prune(detail[j].value), encode, decode);
    }
  }
}
