/** The memory table: a map of live keys over a skip list that also remembers
    deletions, with its size kept up to date by every write. */
module MemTables {
  import opened ByteStrings
  import opened Cells
  import opened SkipLists

  datatype Entry = Entry(key: Bytes, value: Bytes)

  /** The live cells, in key order. */
  function LiveEntries(cells: seq<Cell>): seq<Entry> {
    if cells == [] then []
    else
      var last := cells[|cells| - 1];
      LiveEntries(cells[..|cells| - 1]) + (if last.deleted then [] else [Entry(last.key, last.value)])
  }

  function TotalBytes(entries: seq<Entry>): nat {
    if entries == [] then 0
    else TotalBytes(entries[..|entries| - 1]) + |entries[|entries| - 1].key| + |entries[|entries| - 1].value|
  }

  lemma {:induction false} EntriesCount(cells: seq<Cell>)
    ensures |LiveEntries(cells)| == LiveCount(cells) && TotalBytes(LiveEntries(cells)) == LiveBytes(cells)
  {
    if cells != [] {
      var k := |cells| - 1;
      EntriesCount(cells[..k]);
      if cells[k].deleted {
        assert LiveEntries(cells) == LiveEntries(cells[..k]);
      } else {
        assert LiveEntries(cells)[..|LiveEntries(cells)| - 1] == LiveEntries(cells[..k]);
      }
    }
  }

  /** The entry is that of a live cell. */
  ghost predicate EntryOf(cells: seq<Cell>, e: Entry) {
    exists j :: 0 <= j < |cells| && cells[j] == Cell(e.key, e.value, false)
  }

  lemma {:induction false} EntriesOf(cells: seq<Cell>)
    requires Sorted(cells)
    ensures forall i :: 0 <= i < |LiveEntries(cells)| ==> EntryOf(cells, LiveEntries(cells)[i])
    ensures forall i, j :: 0 <= i < j < |LiveEntries(cells)| ==>
              Less(LiveEntries(cells)[i].key, LiveEntries(cells)[j].key)
  {
    hide Less;
    if cells != [] {
      var k := |cells| - 1;
      EntriesOf(cells[..k]);
      var before := LiveEntries(cells[..k]);
      forall i | 0 <= i < |before|
        ensures Less(before[i].key, cells[k].key) && EntryOf(cells, before[i])
      {
        var j :| 0 <= j < k && cells[..k][j] == Cell(before[i].key, before[i].value, false);
        assert cells[j] == cells[..k][j];
      }
      if !cells[k].deleted {
        assert EntryOf(cells, Entry(cells[k].key, cells[k].value));
      }
    }
  }

  /** The entries are the live map, each key once and in order. */
  lemma EntriesAreContents(cells: seq<Cell>)
    requires Sorted(cells)
    ensures var entries := LiveEntries(cells);
            && |entries| == |Contents(cells)| == LiveCount(cells)
            && TotalBytes(entries) == LiveBytes(cells)
            && (forall i :: 0 <= i < |entries| ==>
                  entries[i].key in Contents(cells) && Contents(cells)[entries[i].key] == entries[i].value)
            && (forall i, j :: 0 <= i < j < |entries| ==> Less(entries[i].key, entries[j].key))
  {
    hide Contents, Less, LiveEntries, Sorted, LiveCount, LiveBytes, TotalBytes;
    CountIsSize(cells);
    EntriesCount(cells);
    EntriesOf(cells);
    var entries := LiveEntries(cells);
    forall i | 0 <= i < |entries|
      ensures entries[i].key in Contents(cells) && Contents(cells)[entries[i].key] == entries[i].value
    {
      ContentsAt(cells, entries[i].key);
    }
  }

  /** How one write changes the counts, by what was there before it. */
  lemma WrittenCounts(cells: seq<Cell>, c: Cell, existed: bool, wasDeleted: bool, oldValueLen: nat)
    requires existed == Present(cells, c.key)
    requires existed ==> var old' := cells[Rank(cells, c.key)];
                         wasDeleted == old'.deleted && oldValueLen == |old'.value|
    ensures var wasLive := existed && !wasDeleted;
            && LiveCount(Upserted(cells, c)) == LiveCount(cells) - (if wasLive then 1 else 0)
               + (if c.deleted then 0 else 1)
            && LiveBytes(Upserted(cells, c)) == LiveBytes(cells) - (if wasLive then |c.key| + oldValueLen else 0)
               + Weight(c)
  {
    hide Upserted, Rank;
    UpsertedCounts(cells, c);
    SingleCounts(c);
    if existed {
      SingleCounts(cells[Rank(cells, c.key)]);
    }
  }

  lemma SingleCounts(c: Cell)
    ensures LiveCount([c]) == (if c.deleted then 0 else 1) && LiveBytes([c]) == Weight(c)
  {
    assert [c][..0] == [];
  }

  class MemTable {
    const list: SkipList
    var liveCount: int
    var liveBytes: int

    constructor ()
      ensures Valid() && Live() == map[] && fresh(list) && fresh(list.nodes)
    {
      list := new SkipList();
      liveCount, liveBytes := 0, 0;
    }

    ghost predicate Valid()
      reads this, list, list.nodes
    {
      && list.Valid()
      && liveCount == LiveCount(list.Cells())
      && liveBytes == LiveBytes(list.Cells())
    }

    /** The map of live keys. */
    ghost function Live(): map<Bytes, Bytes>
      requires Valid()
      reads this, list, list.nodes
    {
      Contents(list.Cells())
    }

    method Put(key: Bytes, value: Bytes, newLevel: nat) returns (ok: bool)
      requires Valid() && 1 <= newLevel <= MAX_LEVEL
      modifies this, list, list.nodes
      ensures Valid() && forall n :: n in list.nodes && n !in old(list.nodes) ==> fresh(n)
      ensures ok <==> key != []
      ensures Live() == if ok then old(Live())[key := value] else old(Live())
    {
      hide Contents, Upserted, Rank, Less, LiveCount, LiveBytes;
      if |key| == 0 {
        return false;
      }
      ghost var cells, c := list.Cells(), Cell(key, value, false);
      var existed, wasDeleted, oldValueLen := list.Upsert(key, value, false, newLevel);
      UpsertedContents(cells, c);
      WrittenCounts(cells, c, existed, wasDeleted, oldValueLen);
      if !existed || wasDeleted {
        liveCount := liveCount + 1;
        liveBytes := liveBytes + |key| + |value|;
      } else {
        liveBytes := liveBytes + |value| - oldValueLen;
      }
      return true;
    }

    method Delete(key: Bytes, newLevel: nat) returns (ok: bool)
      requires Valid() && 1 <= newLevel <= MAX_LEVEL
      modifies this, list, list.nodes
      ensures Valid() && forall n :: n in list.nodes && n !in old(list.nodes) ==> fresh(n)
      ensures ok <==> key != []
      ensures Live() == if ok then old(Live()) - {key} else old(Live())
    {
      hide Contents, Upserted, Rank, Less, LiveCount, LiveBytes;
      if |key| == 0 {
        return false;
      }
      ghost var cells, c := list.Cells(), Cell(key, [], true);
      var existed, wasDeleted, oldValueLen := list.Upsert(key, [], true, newLevel);
      UpsertedContents(cells, c);
      WrittenCounts(cells, c, existed, wasDeleted, oldValueLen);
      if existed && !wasDeleted {
        liveCount := liveCount - 1;
        liveBytes := liveBytes - (|key| + oldValueLen);
      }
      return true;
    }

    method Get(key: Bytes) returns (value: Bytes, found: bool)
      requires Valid()
      ensures found <==> key != [] && key in Live()
      ensures found ==> value == Live()[key]
    {
      hide Contents, Rank, Less;
      if |key| == 0 {
        return [], false;
      }
      var x := list.Search(key);
      Lookup(list.Cells(), key);
      if x == null || x.deleted {
        return [], false;
      }
      return x.value, true;
    }

    method Len() returns (n: int)
      requires Valid()
      ensures n == |Live()|
    {
      CountIsSize(list.Cells());
      return liveCount;
    }

    method ByteSize() returns (n: int)
      requires Valid()
      ensures n == TotalBytes(LiveEntries(list.Cells()))
    {
      EntriesAreContents(list.Cells());
      return liveBytes;
    }

    /** Every live key with its value, in key order. */
    method All() returns (out: seq<Entry>)
      requires Valid()
      ensures out == LiveEntries(list.Cells())
      ensures |out| == |Live()| && forall i :: 0 <= i < |out| ==>
                                     out[i].key in Live() && Live()[out[i].key] == out[i].value
      ensures forall i, j :: 0 <= i < j < |out| ==> Less(out[i].key, out[j].key)
    {
      hide Contents, Less;
      out := [];
      ghost var cells, pos := list.Cells(), 0;
      list.FirstAfter(0);
      var x := list.header.forward[0];
      while x != null
        invariant 0 <= pos <= |cells| == |list.nodes| - 1 && list.Cells() == cells
        invariant x == if pos == |cells| then null else list.nodes[pos + 1]
        invariant out == LiveEntries(cells[..pos])
        decreases |cells| - pos
      {
        assert cells[pos] == CellOf(x);
        assert cells[..pos + 1][..pos] == cells[..pos];
        if !x.deleted {
          out := out + [Entry(x.key, x.value)];
        }
        pos := pos + 1;
        list.FirstAfter(pos);
        x := x.forward[0];
      }
      assert cells[..pos] == cells;
      EntriesAreContents(cells);
    }
  }
}
