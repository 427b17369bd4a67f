/** What a memory table holds, as a value: one cell per key ever written, in
    key order, and the map of live keys that the cells stand for. */
module Cells {
  import opened ByteStrings

  /** A key with its latest value, or with a deletion mark. */
  datatype Cell = Cell(key: Bytes, value: Bytes, deleted: bool)

  predicate Sorted(cells: seq<Cell>) {
    forall i, j :: 0 <= i < j < |cells| ==> Less(cells[i].key, cells[j].key)
  }

  /** How many cells come before `key`. */
  function Rank(cells: seq<Cell>, key: Bytes): (r: nat)
    ensures r <= |cells|
    ensures forall i :: 0 <= i < r ==> Less(cells[i].key, key)
    ensures r < |cells| ==> !Less(cells[r].key, key)
  {
    if cells == [] || !Less(cells[0].key, key) then 0 else 1 + Rank(cells[1..], key)
  }

  lemma RankExact(cells: seq<Cell>, key: Bytes, r: nat)
    requires Sorted(cells) && r <= |cells|
    requires r > 0 ==> Less(cells[r - 1].key, key)
    requires r < |cells| ==> !Less(cells[r].key, key)
    ensures Rank(cells, key) == r
  {
    var k := Rank(cells, key);
    if k < r {
      if k < r - 1 {
        LessTransitive(cells[k].key, cells[r - 1].key, key);
      }
    }
  }

  predicate Present(cells: seq<Cell>, key: Bytes) {
    var r := Rank(cells, key);
    r < |cells| && cells[r].key == key
  }

  /** The cells after `key` was written or deleted. */
  function Upserted(cells: seq<Cell>, c: Cell): seq<Cell> {
    var r := Rank(cells, c.key);
    if Present(cells, c.key) then cells[r := c] else cells[..r] + [c] + cells[r..]
  }

  lemma BeyondRank(cells: seq<Cell>, key: Bytes, i: nat)
    requires Sorted(cells) && Rank(cells, key) <= i < |cells|
    ensures cells[i].key == key ==> i == Rank(cells, key)
    ensures cells[i].key != key ==> Less(key, cells[i].key)
  {
    var r := Rank(cells, key);
    LessIrreflexive(key);
    if cells[r].key != key {
      LessTotal(cells[r].key, key);
      if r < i {
        LessTransitive(key, cells[r].key, cells[i].key);
      }
    }
  }

  lemma UpsertedSorted(cells: seq<Cell>, c: Cell)
    requires Sorted(cells)
    ensures Sorted(Upserted(cells, c))
  {
    var r, after := Rank(cells, c.key), Upserted(cells, c);
    if !Present(cells, c.key) {
      forall i, j | 0 <= i < j < |after|
        ensures Less(after[i].key, after[j].key)
      {
        if i == r {
          BeyondRank(cells, c.key, j - 1);
        }
      }
    }
  }

  // ---------------------------------------------------------- the live map

  /** The live keys with their values. */
  function Contents(cells: seq<Cell>): map<Bytes, Bytes> {
    if cells == [] then map[]
    else
      var last := cells[|cells| - 1];
      var before := Contents(cells[..|cells| - 1]);
      if last.deleted then before else before[last.key := last.value]
  }

  predicate HasLive(cells: seq<Cell>, key: Bytes) {
    exists i :: 0 <= i < |cells| && cells[i].key == key && !cells[i].deleted
  }

  lemma {:induction false} ContentsAt(cells: seq<Cell>, key: Bytes)
    requires Sorted(cells)
    ensures key in Contents(cells) <==> HasLive(cells, key)
    ensures forall i :: 0 <= i < |cells| && cells[i].key == key && !cells[i].deleted ==>
      key in Contents(cells) && Contents(cells)[key] == cells[i].value
  {
    if cells != [] {
      var k := |cells| - 1;
      ContentsAt(cells[..k], key);
      assert forall i :: 0 <= i < k ==> cells[..k][i] == cells[i] && Less(cells[i].key, cells[k].key);
      LessIrreflexive(cells[k].key);
      if HasLive(cells, key) {
        var i :| 0 <= i < |cells| && cells[i].key == key && !cells[i].deleted;
        assert i < k ==> cells[..k][i] == cells[i];
      }
      if HasLive(cells[..k], key) {
        var i :| 0 <= i < k && cells[..k][i].key == key && !cells[..k][i].deleted;
        assert cells[i].key == key;
      }
    }
  }

  /** Looking `key` up in the map is looking it up among the cells. */
  lemma Lookup(cells: seq<Cell>, key: Bytes)
    requires Sorted(cells)
    ensures key in Contents(cells) <==> Present(cells, key) && !cells[Rank(cells, key)].deleted
    ensures Present(cells, key) && !cells[Rank(cells, key)].deleted ==>
              Contents(cells)[key] == cells[Rank(cells, key)].value
  {
    ContentsAt(cells, key);
    if HasLive(cells, key) {
      var i :| 0 <= i < |cells| && cells[i].key == key && !cells[i].deleted;
      LessIrreflexive(key);
      assert Rank(cells, key) <= i;
      BeyondRank(cells, key, i);
    }
  }

  /** Writing a cell writes one key of the map; writing a deletion mark
      removes one. */
  lemma UpsertedContents(cells: seq<Cell>, c: Cell)
    requires Sorted(cells)
    ensures Contents(Upserted(cells, c)) == if c.deleted then Contents(cells) - {c.key}
                                            else Contents(cells)[c.key := c.value]
  {
    hide Contents, Upserted, Sorted;
    var after, expected := Contents(Upserted(cells, c)), if c.deleted then Contents(cells) - {c.key}
                                                         else Contents(cells)[c.key := c.value];
    forall key
      ensures key in after <==> key in expected
      ensures key in expected ==> after[key] == expected[key]
    {
      UpsertedAt(cells, c, key);
    }
  }

  lemma UpsertedAt(cells: seq<Cell>, c: Cell, key: Bytes)
    requires Sorted(cells)
    ensures var before, after := Contents(cells), Contents(Upserted(cells, c));
            && (key == c.key ==> (key in after <==> !c.deleted) && (key in after ==> after[key] == c.value))
            && (key != c.key ==> (key in after <==> key in before) && (key in before ==> after[key] == before[key]))
  {
    hide Contents;
    UpsertedSorted(cells, c);
    ContentsAt(cells, key);
    if key == c.key {
      UpsertedKey(cells, c);
      ContentsAt(Upserted(cells, c), key);
    } else {
      ElsewhereSame(cells, c, key);
      ContentsAt(Upserted(cells, c), key);
    }
  }

  lemma UpsertedKey(cells: seq<Cell>, c: Cell)
    requires Sorted(cells)
    ensures var r, after := Rank(cells, c.key), Upserted(cells, c);
            r < |after| && after[r] == c && forall i :: 0 <= i < |after| && after[i].key == c.key ==> i == r
  {
    UpsertedSorted(cells, c);
    var r, after := Rank(cells, c.key), Upserted(cells, c);
    forall i | 0 <= i < |after| && i != r
      ensures after[i].key != c.key
    {
      LessIrreflexive(c.key);
      assert i < r ==> Less(after[i].key, after[r].key);
      assert i > r ==> Less(after[r].key, after[i].key);
    }
  }

  lemma ElsewhereSame(cells: seq<Cell>, c: Cell, key: Bytes)
    requires Sorted(cells) && Sorted(Upserted(cells, c)) && key != c.key
    ensures HasLive(Upserted(cells, c), key) <==> HasLive(cells, key)
    ensures HasLive(cells, key) ==>
      && key in Contents(cells) && key in Contents(Upserted(cells, c))
      && Contents(Upserted(cells, c))[key] == Contents(cells)[key]
  {
    hide Contents;
    var r, after := Rank(cells, c.key), Upserted(cells, c);
    ContentsAt(cells, key);
    ContentsAt(after, key);
    if HasLive(cells, key) {
      var i :| 0 <= i < |cells| && cells[i].key == key && !cells[i].deleted;
      var j := if Present(cells, c.key) || i < r then i else i + 1;
      assert after[j] == cells[i];
    }
    if HasLive(after, key) {
      var j :| 0 <= j < |after| && after[j].key == key && !after[j].deleted;
      UpsertedKey(cells, c);
      var i := if Present(cells, c.key) || j < r then j else j - 1;
      assert cells[i] == after[j];
    }
  }

  // ----------------------------------------------------------------- counting

  function LiveCount(cells: seq<Cell>): nat {
    if cells == [] then 0
    else LiveCount(cells[..|cells| - 1]) + (if cells[|cells| - 1].deleted then 0 else 1)
  }

  function Weight(c: Cell): nat {
    if c.deleted then 0 else |c.key| + |c.value|
  }

  function LiveBytes(cells: seq<Cell>): nat {
    if cells == [] then 0 else LiveBytes(cells[..|cells| - 1]) + Weight(cells[|cells| - 1])
  }

  /** The count is the size of the live map. */
  lemma {:induction false} CountIsSize(cells: seq<Cell>)
    requires Sorted(cells)
    ensures LiveCount(cells) == |Contents(cells)|
  {
    if cells != [] {
      var k := |cells| - 1;
      CountIsSize(cells[..k]);
      ContentsAt(cells[..k], cells[k].key);
      assert forall i :: 0 <= i < k ==> cells[..k][i] == cells[i] && Less(cells[i].key, cells[k].key);
      LessIrreflexive(cells[k].key);
    }
  }

  lemma {:induction false} CountsAdd(a: seq<Cell>, b: seq<Cell>)
    ensures LiveCount(a + b) == LiveCount(a) + LiveCount(b)
    ensures LiveBytes(a + b) == LiveBytes(a) + LiveBytes(b)
  {
    if b == [] {
      assert a + b == a;
    } else {
      var k := |b| - 1;
      assert (a + b)[..|a + b| - 1] == a + b[..k];
      CountsAdd(a, b[..k]);
    }
  }

  /** One write changes the counts by what it replaces and what it adds. */
  lemma UpsertedCounts(cells: seq<Cell>, c: Cell)
    ensures var r := Rank(cells, c.key);
            var replaced := if Present(cells, c.key) then [cells[r]] else [];
            && LiveCount(Upserted(cells, c)) == LiveCount(cells) - LiveCount(replaced) + LiveCount([c])
            && LiveBytes(Upserted(cells, c)) == LiveBytes(cells) - LiveBytes(replaced) + LiveBytes([c])
  {
    hide LiveCount, LiveBytes, Rank;
    var r := Rank(cells, c.key);
    if Present(cells, c.key) {
      assert cells == cells[..r] + [cells[r]] + cells[r + 1..];
      assert Upserted(cells, c) == cells[..r] + [c] + cells[r + 1..];
      Spliced(cells[..r], [cells[r]], cells[r + 1..]);
      Spliced(cells[..r], [c], cells[r + 1..]);
    } else {
      assert cells == cells[..r] + [] + cells[r..];
      Spliced(cells[..r], [], cells[r..]);
      Spliced(cells[..r], [c], cells[r..]);
    }
  }

  lemma Spliced(a: seq<Cell>, b: seq<Cell>, c: seq<Cell>)
    ensures LiveCount(a + b + c) == LiveCount(a) + LiveCount(b) + LiveCount(c)
    ensures LiveBytes(a + b + c) == LiveBytes(a) + LiveBytes(b) + LiveBytes(c)
  {
    CountsAdd(a, b);
    CountsAdd(a + b, c);
  }
}
