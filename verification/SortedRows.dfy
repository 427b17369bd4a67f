/** A map written out as rows in key order: there is exactly one way. */
module SortedRows {
  import opened ByteStrings

  ghost predicate Enumerates<V(!new)>(rows: seq<(Bytes, V)>, m: map<Bytes, V>) {
    && (forall i, j :: 0 <= i < j < |rows| ==> Less(rows[i].0, rows[j].0))
    && (forall i :: 0 <= i < |rows| ==> rows[i].0 in m && m[rows[i].0] == rows[i].1)
    && (forall k :: k in m ==> HasKey(rows, k))
  }

  predicate HasKey<V>(rows: seq<(Bytes, V)>, k: Bytes) {
    exists i :: 0 <= i < |rows| && rows[i].0 == k
  }

  /** The rows are as many as the keys. */
  lemma {:induction false} EnumeratedSize<V(!new)>(rows: seq<(Bytes, V)>, m: map<Bytes, V>)
    requires Enumerates(rows, m)
    ensures |rows| == |m|
  {
    if rows == [] {
      assert m.Keys == {};
      assert |m.Keys| == 0;
    } else {
      var k := |rows| - 1;
      var rest := m - {rows[k].0};
      DropLast(rows, m);
      EnumeratedSize(rows[..k], rest);
      assert m.Keys == rest.Keys + {rows[k].0};
      assert |m.Keys| == |rest.Keys| + 1;
    }
  }

  lemma DropLast<V(!new)>(rows: seq<(Bytes, V)>, m: map<Bytes, V>)
    requires Enumerates(rows, m) && rows != []
    ensures Enumerates(rows[..|rows| - 1], m - {rows[|rows| - 1].0})
  {
    var k := |rows| - 1;
    var last := rows[k].0;
    LessIrreflexive(last);
    forall key | key in m - {last}
      ensures HasKey(rows[..k], key)
    {
      var i :| 0 <= i < |rows| && rows[i].0 == key;
      assert rows[..k][i].0 == key;
    }
  }

  /** The last row has the largest key. */
  lemma LastIsLargest<V(!new)>(rows: seq<(Bytes, V)>, m: map<Bytes, V>, key: Bytes)
    requires Enumerates(rows, m) && rows != [] && key in m
    ensures key == rows[|rows| - 1].0 || Less(key, rows[|rows| - 1].0)
  {
    assert HasKey(rows, key);
    var i :| 0 <= i < |rows| && rows[i].0 == key;
  }

  lemma {:induction false} EnumerationUnique<V(!new)>(a: seq<(Bytes, V)>, b: seq<(Bytes, V)>, m: map<Bytes, V>)
    requires Enumerates(a, m) && Enumerates(b, m)
    ensures a == b
  {
    EnumeratedSize(a, m);
    EnumeratedSize(b, m);
    if a != [] {
      var k := |a| - 1;
      LastIsLargest(a, m, b[k].0);
      LastIsLargest(b, m, a[k].0);
      if a[k].0 != b[k].0 {
        LessAsymmetric(a[k].0, b[k].0);
      }
      DropLast(a, m);
      DropLast(b, m);
      EnumerationUnique(a[..k], b[..k], m - {a[k].0});
      assert a == a[..k] + [a[k]] && b == b[..k] + [b[k]];
    }
  }

  /** How many rows come before the key. */
  function Place<V>(rows: seq<(Bytes, V)>, key: Bytes): (p: nat)
    ensures p <= |rows|
    ensures forall i :: 0 <= i < p ==> Less(rows[i].0, key)
    ensures p < |rows| ==> !Less(rows[p].0, key)
  {
    if rows == [] || !Less(rows[0].0, key) then 0 else 1 + Place(rows[1..], key)
  }

  lemma BeyondPlace<V(!new)>(rows: seq<(Bytes, V)>, m: map<Bytes, V>, key: Bytes, i: nat)
    requires Enumerates(rows, m) && key !in m && Place(rows, key) <= i < |rows|
    ensures Less(key, rows[i].0)
  {
    var p := Place(rows, key);
    LessTotal(rows[p].0, key);
    if p < i {
      LessTransitive(key, rows[p].0, rows[i].0);
    }
  }

  ghost function Inserted<V>(rows: seq<(Bytes, V)>, p: nat, row: (Bytes, V)): (rows': seq<(Bytes, V)>)
    requires p <= |rows|
    ensures |rows'| == |rows| + 1
    ensures forall i :: 0 <= i < |rows'| ==> rows'[i] == if i < p then rows[i] else if i == p then row else rows[i - 1]
  {
    rows[..p] + [row] + rows[p..]
  }

  predicate Ordered<V>(rows: seq<(Bytes, V)>) {
    forall i, j :: 0 <= i < j < |rows| ==> Less(rows[i].0, rows[j].0)
  }

  lemma InsertOrdered<V(!new)>(rows: seq<(Bytes, V)>, m: map<Bytes, V>, row: (Bytes, V))
    requires Enumerates(rows, m) && row.0 !in m
    ensures Ordered(Inserted(rows, Place(rows, row.0), row))
  {
    hide Less, Inserted;
    var p := Place(rows, row.0);
    var rows' := Inserted(rows, p, row);
    forall i, j | 0 <= i < j < |rows'|
      ensures Less(rows'[i].0, rows'[j].0)
    {
      InsertBetween(rows, m, row, i, j);
    }
  }

  lemma InsertedAt<V>(rows: seq<(Bytes, V)>, p: nat, row: (Bytes, V), i: nat)
    requires p <= |rows| && i <= |rows|
    ensures Inserted(rows, p, row)[i] == if i < p then rows[i] else if i == p then row else rows[i - 1]
  {
  }

  lemma InsertBetween<V(!new)>(rows: seq<(Bytes, V)>, m: map<Bytes, V>, row: (Bytes, V), i: nat, j: nat)
    requires Enumerates(rows, m) && row.0 !in m && i < j <= |rows|
    ensures var rows' := Inserted(rows, Place(rows, row.0), row); Less(rows'[i].0, rows'[j].0)
  {
    hide Less, Inserted, HasKey;
    var p := Place(rows, row.0);
    InsertedAt(rows, p, row, i);
    InsertedAt(rows, p, row, j);
    if i == p {
      BeyondPlace(rows, m, row.0, j - 1);
    } else if j != p {
      var a, b := if i < p then i else i - 1, if j < p then j else j - 1;
      assert Less(rows[a].0, rows[b].0);
    }
  }

  lemma InsertKeys<V>(rows: seq<(Bytes, V)>, p: nat, row: (Bytes, V), k: Bytes)
    requires p <= |rows| && (k == row.0 || HasKey(rows, k))
    ensures HasKey(Inserted(rows, p, row), k)
  {
    if k == row.0 {
      assert Inserted(rows, p, row)[p].0 == k;
    } else {
      var i :| 0 <= i < |rows| && rows[i].0 == k;
      assert Inserted(rows, p, row)[if i < p then i else i + 1].0 == k;
    }
  }

  /** A new key has its place among the rows. */
  lemma Insert<V(!new)>(rows: seq<(Bytes, V)>, m: map<Bytes, V>, key: Bytes, value: V)
    requires Enumerates(rows, m) && key !in m
    ensures var p := Place(rows, key); Enumerates(rows[..p] + [(key, value)] + rows[p..], m[key := value])
  {
    hide Less, Inserted, HasKey, Place;
    var p, row := Place(rows, key), (key, value);
    var rows' := Inserted(rows, p, row);
    InsertedIs(rows, p, row);
    InsertOrdered(rows, m, row);
    forall k | k in m[key := value]
      ensures HasKey(rows', k)
    {
      InsertKeys(rows, p, row, k);
    }
    forall i | 0 <= i < |rows'|
      ensures rows'[i].0 in m[key := value] && m[key := value][rows'[i].0] == rows'[i].1
    {
      assert i != p ==> rows'[i] == rows[if i < p then i else i - 1];
    }
  }

  lemma InsertedIs<V>(rows: seq<(Bytes, V)>, p: nat, row: (Bytes, V))
    requires p <= |rows|
    ensures Inserted(rows, p, row) == rows[..p] + [row] + rows[p..]
  {
  }

  /** The rows of a map, sorted. */
  method Sort<V(!new)>(m: map<Bytes, V>) returns (rows: seq<(Bytes, V)>)
    ensures Enumerates(rows, m)
  {
    rows := [];
    var todo := m.Keys;
    ghost var done: map<Bytes, V> := map[];
    while todo != {}
      invariant todo <= m.Keys && done.Keys == m.Keys - todo && (forall k :: k in done ==> done[k] == m[k])
      invariant Enumerates(rows, done)
      decreases todo
    {
      var key :| key in todo;
      Insert(rows, done, key, m[key]);
      var p := Place(rows, key);
      rows := rows[..p] + [(key, m[key])] + rows[p..];
      done := done[key := m[key]];
      todo := todo - {key};
    }
    assert done == m;
  }

  lemma {:induction false} RowsExist<V(!new)>(m: map<Bytes, V>) returns (rows: seq<(Bytes, V)>)
    ensures Enumerates(rows, m)
    decreases m.Keys
  {
    rows := [];
    if m.Keys != {} {
      var key :| key in m.Keys;
      var rest := RowsExist(m - {key});
      Insert(rest, m - {key}, key, m[key]);
      var p := Place(rest, key);
      rows := rest[..p] + [(key, m[key])] + rest[p..];
      assert (m - {key})[key := m[key]] == m;
    }
  }

  /** The map that rows amount to; a later row wins. */
  function Collected<V>(rows: seq<(Bytes, V)>): map<Bytes, V> {
    if rows == [] then map[] else Collected(rows[..|rows| - 1])[rows[|rows| - 1].0 := rows[|rows| - 1].1]
  }

  lemma {:induction false} CollectedIsMap<V(!new)>(rows: seq<(Bytes, V)>, m: map<Bytes, V>)
    requires Enumerates(rows, m)
    ensures Collected(rows) == m
  {
    if rows == [] {
      assert m.Keys == {};
    } else {
      var k := |rows| - 1;
      DropLast(rows, m);
      CollectedIsMap(rows[..k], m - {rows[k].0});
      assert (m - {rows[k].0})[rows[k].0 := rows[k].1] == m;
    }
  }
}
