/**
 * Looking rows up by key in a scanned table, the way `map[row._id] = row` in a loop
 * does it: a later row with the same key replaces an earlier one.
 */
module Tables {

  /** The map from key to row that a pass over `rows` builds. */
  function IndexBy<T>(rows: seq<T>, key: T -> string): (m: map<string, T>)
    ensures forall id :: id in m <==> exists j :: 0 <= j < |rows| && key(rows[j]) == id
    ensures forall id :: id in m ==> m[id] in rows && key(m[id]) == id
  {
    if rows == [] then map[]
    else
      var m := IndexBy(rows[..|rows| - 1], key);
      var last := rows[|rows| - 1];
      assert forall j :: 0 <= j < |rows| - 1 ==> rows[..|rows| - 1][j] == rows[j];
      m[key(last) := last]
  }

  /** No two rows share a key: what a primary key guarantees. */
  predicate UniqueKeys<T>(rows: seq<T>, key: T -> string)
  {
    forall i, j :: 0 <= i < j < |rows| ==> key(rows[i]) != key(rows[j])
  }

  /** With unique keys, the index finds every row under its own key. */
  lemma {:induction false} IndexFindsRow<T>(rows: seq<T>, key: T -> string, j: nat)
    requires UniqueKeys(rows, key) && j < |rows|
    ensures key(rows[j]) in IndexBy(rows, key) && IndexBy(rows, key)[key(rows[j])] == rows[j]
  {
    if j < |rows| - 1 {
      var front := rows[..|rows| - 1];
      assert front[j] == rows[j];
      IndexFindsRow(front, key, j);
    }
  }

  /** `for (const row of rows) m[key(row)] = row`. */
  method BuildIndex<T>(rows: seq<T>, key: T -> string) returns (m: map<string, T>)
    ensures m == IndexBy(rows, key)
  {
    m := map[];
    for i := 0 to |rows|
      invariant m == IndexBy(rows[..i], key)
    {
      assert rows[..i + 1][..i] == rows[..i];
      m := m[key(rows[i]) := rows[i]];
    }
    assert rows[..|rows|] == rows;
  }
}
