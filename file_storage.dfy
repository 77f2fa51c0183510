/**
 * part-01/web/data/file_storage.py: `FileStorage.reorganise_data`, which turns
 * the loaded `{group: [row, ...]}` into one dictionary from each row's id to
 * the row.
 */
module FileStorage {
  import opened Wrappers
  import opened Dicts

  /** A row as loaded: field name to JSON value. */
  type Row<V> = map<string, V>

  /** The loaded file: each group name with its rows, in file order. */
  type Groups<V> = seq<(string, seq<Row<V>>)>

  /** Every row of every group, group after group; the group names play no part. */
  function Flatten<V>(data: Groups<V>): seq<Row<V>>
  {
    if data == [] then [] else Flatten(data[..|data| - 1]) + data[|data| - 1].1
  }

  lemma {:induction false} FlattenAppend<V>(a: Groups<V>, b: Groups<V>)
    ensures Flatten(a + b) == Flatten(a) + Flatten(b)
    decreases |b|
  {
    if b == [] {
      assert a + b == a;
    } else {
      var init := b[..|b| - 1];
      assert (a + b)[..|a + b| - 1] == a + init;
      FlattenAppend(a, init);
    }
  }

  /** A row has the key `row['id']` reads; without it the loop raises `KeyError`. */
  predicate AllHaveIds<V>(rows: seq<Row<V>>) {
    forall i :: 0 <= i < |rows| ==> "id" in rows[i]
  }

  /** `output[row['id']] = row` for each row in turn, starting from an empty dict. */
  function Index<V(!new)>(rows: seq<Row<V>>): (d: Dict<V, Row<V>>)
    requires AllHaveIds(rows)
    ensures d.Valid()
  {
    if rows == [] then Dict([], map[])
    else Index(rows[..|rows| - 1]).Put(rows[|rows| - 1]["id"], rows[|rows| - 1])
  }

  /** One more row: its id is written last. */
  lemma IndexSnoc<V(!new)>(rows: seq<Row<V>>, row: Row<V>)
    requires AllHaveIds(rows) && "id" in row
    ensures AllHaveIds(rows + [row])
    ensures Index(rows + [row]) == Index(rows).Put(row["id"], row)
  {
    var s := rows + [row];
    assert s[..|s| - 1] == rows;
  }

  /** What `reorganise_data` returns, or None when it raises. */
  function Reorganised<V(!new)>(data: Groups<V>): Option<Dict<V, Row<V>>>
  {
    var rows := Flatten(data);
    if AllHaveIds(rows) then Some(Index(rows)) else None
  }

  /** The keys of the output are exactly the ids of the rows. */
  lemma {:induction false} IndexKeys<V(!new)>(rows: seq<Row<V>>)
    requires AllHaveIds(rows)
    ensures forall k :: k in Index(rows).entries <==> exists i :: 0 <= i < |rows| && rows[i]["id"] == k
  {
    if rows != [] {
      var init := rows[..|rows| - 1];
      IndexKeys(init);
      forall k | exists i :: 0 <= i < |rows| && rows[i]["id"] == k
        ensures k in Index(rows).entries
      {
        var i :| 0 <= i < |rows| && rows[i]["id"] == k;
        if i < |rows| - 1 {
          assert init[i]["id"] == k;
        }
      }
      forall k | k in Index(rows).entries
        ensures exists i :: 0 <= i < |rows| && rows[i]["id"] == k
      {
        if k != rows[|rows| - 1]["id"] {
          var i :| 0 <= i < |init| && init[i]["id"] == k;
          assert rows[i]["id"] == k;
        }
      }
    }
  }

  /** For a duplicated id, the last row with that id is the one kept. */
  lemma {:induction false} IndexLastWins<V(!new)>(rows: seq<Row<V>>, i: nat)
    requires AllHaveIds(rows)
    requires i < |rows|
    requires forall j :: i < j < |rows| ==> rows[j]["id"] != rows[i]["id"]
    ensures rows[i]["id"] in Index(rows).entries
    ensures Index(rows).entries[rows[i]["id"]] == rows[i]
  {
    if i < |rows| - 1 {
      var init := rows[..|rows| - 1];
      IndexLastWins(init, i);
    }
  }

  /** Each row sits under its own id. */
  lemma {:induction false} IndexKeyedById<V(!new)>(rows: seq<Row<V>>)
    requires AllHaveIds(rows)
    ensures forall k :: k in Index(rows).entries ==> "id" in Index(rows).entries[k] && Index(rows).entries[k]["id"] == k
  {
    if rows != [] {
      IndexKeyedById(rows[..|rows| - 1]);
    }
  }

  /** The inner loop of `reorganise_data`: one group's rows, on top of the rows before them. */
  method IndexGroup<V(!new)>(out: Dict<V, Row<V>>, done: seq<Row<V>>, rows: seq<Row<V>>)
    returns (result: Option<Dict<V, Row<V>>>)
    requires AllHaveIds(done) && out == Index(done)
    ensures result.Some? <==> AllHaveIds(done + rows)
    ensures result.Some? ==> result.value == Index(done + rows)
  {
    var acc := out;
    var r := 0;
    ghost var seen := done;
    assert done + rows[..0] == done;
    while r < |rows|
      invariant 0 <= r <= |rows|
      invariant seen == done + rows[..r]
      invariant AllHaveIds(seen)
      invariant acc == Index(seen)
    {
      var row := rows[r];
      if "id" !in row {
        assert (done + rows)[|done| + r] == row;
        return None;
      }
      IndexSnoc(seen, row);
      acc := acc.Put(row["id"], row);
      assert rows[..r + 1] == rows[..r] + [row];
      assert done + rows[..r + 1] == seen + [row];
      seen := seen + [row];
      r := r + 1;
    }
    assert rows[..r] == rows;
    return Some(acc);
  }

  /** `reorganise_data`: the groups in turn, filling a fresh dict; the input is left as it was. */
  method Reorganise<V(!new)>(data: Groups<V>) returns (output: Option<Dict<V, Row<V>>>)
    ensures output == Reorganised(data)
  {
    var out: Dict<V, Row<V>> := Dict([], map[]);
    var g := 0;
    while g < |data|
      invariant 0 <= g <= |data|
      invariant AllHaveIds(Flatten(data[..g]))
      invariant out == Index(Flatten(data[..g]))
    {
      var done := Flatten(data[..g]);
      assert data[..g + 1][..g] == data[..g];
      assert Flatten(data[..g + 1]) == done + data[g].1;
      var next := IndexGroup(out, done, data[g].1);
      if next.None? {
        assert data == data[..g + 1] + data[g + 1..];
        FlattenAppend(data[..g + 1], data[g + 1..]);
        var flat := done + data[g].1;
        var i :| 0 <= i < |flat| && "id" !in flat[i];
        assert Flatten(data)[i] == flat[i];
        return None;
      }
      out := next.value;
      g := g + 1;
    }
    assert data[..g] == data;
    output := Some(out);
  }
}
