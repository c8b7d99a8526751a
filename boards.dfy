/** `extract_items`: flattening a monday.com board query response into one
    dictionary per item, and the ways the agent reads a cell back out. */
module Boards {
  import opened Wrappers

  /** A cell: the `text` of a column value, which monday.com gives as a
      string or as null. Item names are always strings. */
  datatype Value = Str(s: string) | Null

  datatype ColumnValue = ColumnValue(id: string, text: Value)
  datatype Item = Item(name: string, columnValues: seq<ColumnValue>)
  datatype Board = Board(items: seq<Item>)

  /** The parsed response of the board query. `boards` is `None` when the
      response has no `data` key, or `data` has no `boards` key or a null
      one: `.get(..., {})` / `.get(..., [])` and the truthiness test treat
      all of these like an empty list. */
  datatype BoardResponse = BoardResponse(boards: Option<seq<Board>>)

  /** A Python dict from string keys to cells: its keys in insertion
      order, and its entries. */
  datatype Row = Row(keys: seq<string>, cells: map<string, Value>)

  /** The dict invariant: each key listed once, and listed iff present. */
  ghost predicate WellFormed(r: Row) {
    (forall i, j :: 0 <= i < j < |r.keys| ==> r.keys[i] != r.keys[j]) &&
    (forall k :: k in r.cells <==> k in r.keys)
  }

  /** `row[key] = value`: a new key goes last; an existing key keeps its
      place and takes the new value. */
  function Put(r: Row, key: string, v: Value): Row {
    Row(if key in r.cells then r.keys else r.keys + [key], r.cells[key := v])
  }

  /** The assignments of the inner loop of `extract_items`, in order. */
  function PutAll(r: Row, cols: seq<ColumnValue>): Row
    decreases |cols|
  {
    if cols == [] then r else PutAll(Put(r, cols[0].id, cols[0].text), cols[1..])
  }

  /** The dict `extract_items` builds for one item. */
  function RowOf(item: Item): (r: Row)
    ensures WellFormed(r) && r.keys != [] && r.keys[0] == "name"
  {
    var start := Row(["name"], map["name" := Str(item.name)]);
    PutAllShape(start, item.columnValues);
    PutAll(start, item.columnValues)
  }

  /** The items of the first board, or none when there is no board. */
  function Items(resp: BoardResponse): seq<Item> {
    if resp.boards.None? || resp.boards.value == [] then [] else resp.boards.value[0].items
  }

  /** The rows `extract_items` returns for a response. */
  function Flatten(resp: BoardResponse): seq<Row> {
    seq(|Items(resp)|, i requires 0 <= i < |Items(resp)| => RowOf(Items(resp)[i]))
  }

  /** `extract_items`: one row per item of the first board, in order, and
      no rows when the response holds no board. */
  method ExtractItems(resp: BoardResponse) returns (structured: seq<Row>)
    ensures |structured| == |Items(resp)|
    ensures forall i :: 0 <= i < |structured| ==> structured[i] == RowOf(Items(resp)[i])
    ensures structured == Flatten(resp)
  {
    if resp.boards.None? || resp.boards.value == [] {
      return [];
    }
    var items := resp.boards.value[0].items;
    structured := [];
    var i := 0;
    while i < |items|
      invariant 0 <= i <= |items|
      invariant |structured| == i
      invariant forall k :: 0 <= k < i ==> structured[k] == RowOf(items[k])
    {
      var item := items[i];
      var row := Row(["name"], map["name" := Str(item.name)]);
      var cols := item.columnValues;
      var j := 0;
      while j < |cols|
        invariant 0 <= j <= |cols|
        invariant PutAll(row, cols[j..]) == RowOf(item)
      {
        assert cols[j..][1..] == cols[j + 1..];
        row := Put(row, cols[j].id, cols[j].text);
        j := j + 1;
      }
      structured := structured + [row];
      i := i + 1;
    }
  }

  // ---------------------------------------------------------------------------
  // What a row holds
  // ---------------------------------------------------------------------------

  /** The value the last column with id `k` wrote, if any column has it. */
  function LastText(cols: seq<ColumnValue>, k: string): Option<Value> {
    if cols == [] then None
    else if cols[|cols| - 1].id == k then Some(cols[|cols| - 1].text)
    else LastText(cols[..|cols| - 1], k)
  }

  /** Python `d.get(key)`; a key of `None` is never present. */
  function Get(r: Row, key: Option<string>): Option<Value> {
    if key.Some? && key.value in r.cells then Some(r.cells[key.value]) else None
  }

  lemma PutWellFormed(r: Row, key: string, v: Value)
    requires WellFormed(r)
    ensures WellFormed(Put(r, key, v))
  {
  }

  /** Writing columns keeps the dict invariant and only ever adds keys at
      the end. */
  lemma {:induction false} PutAllShape(r: Row, cols: seq<ColumnValue>)
    requires WellFormed(r)
    ensures WellFormed(PutAll(r, cols))
    ensures |r.keys| <= |PutAll(r, cols).keys| && PutAll(r, cols).keys[..|r.keys|] == r.keys
    decreases |cols|
  {
    if cols != [] {
      var r' := Put(r, cols[0].id, cols[0].text);
      PutWellFormed(r, cols[0].id, cols[0].text);
      PutAllShape(r', cols[1..]);
      var rs := PutAll(r', cols[1..]);
      assert rs.keys[..|r.keys|] == rs.keys[..|r'.keys|][..|r.keys|];
    }
  }

  /** After the column writes, the keys are the old keys and the ids. */
  lemma {:induction false} PutAllKeySet(r: Row, cols: seq<ColumnValue>, k: string)
    ensures k in PutAll(r, cols).cells <==>
      k in r.cells || exists j :: 0 <= j < |cols| && cols[j].id == k
    decreases |cols|
  {
    if cols != [] {
      var r' := Put(r, cols[0].id, cols[0].text);
      PutAllKeySet(r', cols[1..], k);
      if exists j :: 0 <= j < |cols| && cols[j].id == k {
        var j :| 0 <= j < |cols| && cols[j].id == k;
        if j > 0 {
          assert cols[1..][j - 1].id == k;
        }
      }
      if exists j :: 0 <= j < |cols[1..]| && cols[1..][j].id == k {
        var j :| 0 <= j < |cols[1..]| && cols[1..][j].id == k;
        assert cols[j + 1].id == k;
      }
    }
  }

  /** Splitting off the first column: the last write among all columns is
      the last write among the rest, unless none of them has that id. */
  lemma {:induction false} LastTextCons(cols: seq<ColumnValue>, k: string)
    requires cols != []
    ensures LastText(cols, k) ==
      if LastText(cols[1..], k).Some? then LastText(cols[1..], k)
      else if cols[0].id == k then Some(cols[0].text) else None
  {
    if |cols| > 1 && cols[|cols| - 1].id != k {
      LastTextCons(cols[..|cols| - 1], k);
      assert cols[..|cols| - 1][1..] == cols[1..][..|cols[1..]| - 1];
    } else if |cols| == 1 {
      assert cols[1..] == [];
    }
  }

  /** After the column writes, a key holds the text of the LAST column with
      that id, and otherwise what it held before. */
  lemma {:induction false} PutAllGet(r: Row, cols: seq<ColumnValue>, k: string)
    ensures Get(PutAll(r, cols), Some(k)) ==
      if LastText(cols, k).Some? then LastText(cols, k) else Get(r, Some(k))
    decreases |cols|
  {
    if cols != [] {
      PutAllGet(Put(r, cols[0].id, cols[0].text), cols[1..], k);
      LastTextCons(cols, k);
    }
  }

  /** The row of an item is a well-formed dict whose first key is "name";
      its keys are "name" and the column ids; each column id holds the text
      of the last column with that id (a column with id "name" overwrites
      the item's name); and "name" otherwise holds the item's name. */
  lemma RowOfSpec(item: Item, k: string)
    ensures WellFormed(RowOf(item)) && RowOf(item).keys != [] && RowOf(item).keys[0] == "name"
    ensures (k in RowOf(item).cells) <==>
      k == "name" || exists j :: 0 <= j < |item.columnValues| && item.columnValues[j].id == k
    ensures Get(RowOf(item), Some(k)) ==
      if LastText(item.columnValues, k).Some? then LastText(item.columnValues, k)
      else if k == "name" then Some(Str(item.name)) else None
  {
    var r := Row(["name"], map["name" := Str(item.name)]);
    PutAllShape(r, item.columnValues);
    PutAllKeySet(r, item.columnValues, k);
    PutAllGet(r, item.columnValues, k);
  }

  // ---------------------------------------------------------------------------
  // Key order
  // ---------------------------------------------------------------------------

  /** The position of the first column with id `k`, or `|cols|` if none. */
  function FirstIndex(cols: seq<ColumnValue>, k: string): (n: nat)
    ensures n <= |cols|
    ensures n < |cols| ==> cols[n].id == k
    ensures forall j :: 0 <= j < n ==> cols[j].id != k
  {
    if cols == [] then 0
    else if cols[0].id == k then 0
    else 1 + FirstIndex(cols[1..], k)
  }

  /** Writing one more column is one more `Put` on the row so far. */
  lemma {:induction false} PutAllSnoc(r: Row, cols: seq<ColumnValue>, c: ColumnValue)
    ensures PutAll(r, cols + [c]) == Put(PutAll(r, cols), c.id, c.text)
    decreases |cols|
  {
    if cols == [] {
      assert ([] + [c])[1..] == [];
    } else {
      assert (cols + [c])[1..] == cols[1..] + [c];
      PutAllSnoc(Put(r, cols[0].id, cols[0].text), cols[1..], c);
    }
  }

  lemma FirstIndexSnoc(cols: seq<ColumnValue>, c: ColumnValue, k: string)
    ensures FirstIndex(cols + [c], k) ==
      if FirstIndex(cols, k) < |cols| then FirstIndex(cols, k)
      else if c.id == k then |cols| else |cols| + 1
  {
    var n := FirstIndex(cols + [c], k);
    var m := FirstIndex(cols, k);
    if m < |cols| {
      assert (cols + [c])[m] == cols[m];
      assert !(n < m);
    } else if c.id == k {
      assert (cols + [c])[|cols|] == c;
    }
  }

  /** The row's keys after "name" come in the order in which their ids
      first occur among the item's columns: the order a later key scan
      sees them in. */
  lemma {:induction false} RowOfKeyOrder(name: string, cols: seq<ColumnValue>)
    ensures var keys := RowOf(Item(name, cols)).keys;
      forall a, b :: 1 <= a < b < |keys| ==> FirstIndex(cols, keys[a]) < FirstIndex(cols, keys[b])
    decreases |cols|
  {
    var r0 := Row(["name"], map["name" := Str(name)]);
    if cols != [] {
      var p := cols[..|cols| - 1];
      var c := cols[|cols| - 1];
      assert cols == p + [c];
      RowOfKeyOrder(name, p);
      PutAllSnoc(r0, p, c);
      var rp := PutAll(r0, p);
      PutAllShape(r0, p);
      var kp := rp.keys;
      var keys := RowOf(Item(name, cols)).keys;
      assert keys == Put(rp, c.id, c.text).keys;
      forall a | 1 <= a < |kp|
        ensures FirstIndex(p, kp[a]) < |p|
        ensures FirstIndex(cols, kp[a]) == FirstIndex(p, kp[a])
      {
        assert kp[a] != kp[0];
        PutAllKeySet(r0, p, kp[a]);
        var j :| 0 <= j < |p| && p[j].id == kp[a];
        FirstIndexSnoc(p, c, kp[a]);
      }
      if c.id !in rp.cells {
        PutAllKeySet(r0, p, c.id);
        FirstIndexSnoc(p, c, c.id);
        assert FirstIndex(cols, c.id) == |p|;
      }
    }
  }

  // ---------------------------------------------------------------------------
  // Reading a cell back as text
  // ---------------------------------------------------------------------------

  /** `str(d.get(key, "") or "")`: a missing key, a null and an empty
      string all read as "". */
  function TextOrEmpty(v: Option<Value>): string {
    if v.Some? && v.value.Str? then v.value.s else ""
  }

  /** `str(d.get(key, ""))`: a missing key reads as "", but a null reads
      as Python's "None". */
  function PyStr(v: Option<Value>): string {
    match v
    case None => ""
    case Some(Null) => "None"
    case Some(Str(s)) => s
  }

  /** The two readings agree on everything except a null cell, which the
      first reads as "" and the second as "None"; a missing key reads as
      "" in both. */
  lemma ReadingsDifferOnlyOnNull(v: Option<Value>)
    ensures PyStr(v) != TextOrEmpty(v) <==> v == Some(Null)
    ensures v == Some(Null) ==> TextOrEmpty(v) == "" && PyStr(v) == "None"
    ensures v == None ==> TextOrEmpty(v) == PyStr(v) == ""
  {
  }
}
