/** The k-way merge of tables: smallest key first, the newest table wins. */
module Merging {
  import opened ByteStrings
  import opened Options
  import opened Tables

  type TableSet = map<nat, Table>

  ghost predicate AllIncreasing(tables: TableSet) {
    forall id :: id in tables ==> Increasing(tables[id])
  }

  predicate Has(tables: TableSet, id: nat, key: Bytes) {
    id in tables && Find(tables[id], key).Some?
  }

  /** Among `ids`, the table `id` has the key and no newer one does. */
  ghost predicate IsNewest(tables: TableSet, ids: set<nat>, key: Bytes, id: nat) {
    id in ids && Has(tables, id, key) && forall other :: other in ids && other > id ==> !Has(tables, other, key)
  }

  /** The newest entry for the key among the tables `ids`. */
  ghost function Newest(tables: TableSet, ids: set<nat>, key: Bytes): Option<Entry> {
    if exists id :: IsNewest(tables, ids, key, id)
    then var id :| IsNewest(tables, ids, key, id); Find(tables[id], key)
    else None
  }

  lemma NewestIs(tables: TableSet, ids: set<nat>, key: Bytes, id: nat)
    requires IsNewest(tables, ids, key, id)
    ensures Newest(tables, ids, key) == Find(tables[id], key)
  {
  }

  lemma NewestNone(tables: TableSet, ids: set<nat>, key: Bytes)
    requires forall id :: id in ids ==> !Has(tables, id, key)
    ensures Newest(tables, ids, key) == None
  {
  }

  /** If any table has the key, one of them is the newest. */
  lemma {:induction false} NewestExists(tables: TableSet, ids: set<nat>, key: Bytes, id: nat) returns (top: nat)
    requires id in ids && Has(tables, id, key)
    ensures IsNewest(tables, ids, key, top) && id <= top
    decreases ids
  {
    if exists other :: other in ids && other > id && Has(tables, other, key) {
      var other :| other in ids && other > id && Has(tables, other, key);
      top := NewestExists(tables, ids - {id}, key, other);
    } else {
      top := id;
    }
  }

  /** What of an entry survives: a tombstone may be dropped. */
  function Kept(e: Option<Entry>, dropTombstones: bool): Option<Entry> {
    if e.Some? && e.value.tombstone && dropTombstones then None else e
  }

  /** `out` is the merge of the tables `ids`. */
  ghost predicate IsMerge(out: Table, tables: TableSet, ids: set<nat>, dropTombstones: bool) {
    && Increasing(out)
    && forall key :: Find(out, key) == Kept(Newest(tables, ids, key), dropTombstones)
  }

  // ------------------------------------------------------------- the heap

  /** The next entry of a table. */
  datatype Item = Item(id: nat, entry: Entry)

  predicate IsMin(items: seq<Item>, e: Entry) {
    forall i :: 0 <= i < |items| ==> !Less(items[i].entry.key, e.key)
  }

  /** The position of an item with a smallest key. */
  method FindMin(items: seq<Item>) returns (k: nat)
    requires |items| > 0
    ensures k < |items| && IsMin(items, items[k].entry)
  {
    k := 0;
    LessIrreflexive(items[0].entry.key);
    for i := 1 to |items|
      invariant k < |items| && IsMin(items[..i], items[k].entry)
    {
      if Less(items[i].entry.key, items[k].entry.key) {
        forall j | 0 <= j < i
          ensures !Less(items[j].entry.key, items[i].entry.key)
        {
          assert !Less(items[..i][j].entry.key, items[k].entry.key);
          if Less(items[j].entry.key, items[i].entry.key) {
            LessTransitive(items[j].entry.key, items[i].entry.key, items[k].entry.key);
          }
        }
        LessIrreflexive(items[i].entry.key);
        k := i;
      }
      assert items[..i + 1] == items[..i] + [items[i]];
    }
    assert items[..|items|] == items;
  }

  // ------------------------------------------------------ reading the tables

  /** `cut[id]` entries of each table have been read. */
  ghost predicate Cursors(tables: TableSet, ids: set<nat>, cut: map<nat, nat>) {
    forall id :: id in ids ==> id in tables && id in cut && cut[id] <= |tables[id]|
  }

  ghost predicate Unread(tables: TableSet, cut: map<nat, nat>, id: nat, j: nat) {
    id in tables && id in cut && cut[id] <= j < |tables[id]|
  }

  /** The key is below everything that has not been read. */
  ghost predicate Below(tables: TableSet, ids: set<nat>, cut: map<nat, nat>, key: Bytes) {
    forall id, j: nat :: id in ids && Unread(tables, cut, id, j) ==> Less(key, tables[id][j].key)
  }

  /** What has been read is merged into `out`, and is below the rest. */
  ghost predicate Progress(tables: TableSet, ids: set<nat>, cut: map<nat, nat>, out: Table, dropTombstones: bool) {
    && Cursors(tables, ids, cut)
    && Increasing(out)
    && (forall id, i :: id in ids && 0 <= i < cut[id] ==> Below(tables, ids, cut, tables[id][i].key))
    && (forall i :: 0 <= i < |out| ==> Below(tables, ids, cut, out[i].key))
    && (forall key :: Below(tables, ids, cut, key) ==> Find(out, key) == Kept(Newest(tables, ids, key), dropTombstones))
  }

  /** The next entry of table `id` has the key. */
  ghost predicate Heads(tables: TableSet, cut: map<nat, nat>, id: nat, key: Bytes) {
    id in tables && id in cut && cut[id] < |tables[id]| && tables[id][cut[id]].key == key
  }

  /** No next entry is smaller than the key. */
  ghost predicate IsLeast(tables: TableSet, ids: set<nat>, cut: map<nat, nat>, key: Bytes) {
    forall id :: id in ids && id in tables && id in cut && cut[id] < |tables[id]| ==>
      !Less(tables[id][cut[id]].key, key)
  }

  /** Exactly the entries with the key have been read on. */
  ghost predicate Took(tables: TableSet, ids: set<nat>, cut: map<nat, nat>, cut': map<nat, nat>, key: Bytes) {
    forall id :: id in ids ==>
      id in cut && id in cut' && cut'[id] == if Heads(tables, cut, id, key) then cut[id] + 1 else cut[id]
  }

  lemma UnreadAtLeast(tables: TableSet, ids: set<nat>, cut: map<nat, nat>, key: Bytes, id: nat, j: nat)
    requires AllIncreasing(tables) && IsLeast(tables, ids, cut, key) && id in ids && Unread(tables, cut, id, j)
    ensures !Less(tables[id][j].key, key)
    ensures tables[id][j].key == key ==> j == cut[id]
  {
    var t := tables[id];
    if cut[id] < j {
      assert Less(t[cut[id]].key, t[j].key);
      if t[cut[id]].key == key {
        LessAsymmetric(key, t[j].key);
      } else {
        LessTotal(t[cut[id]].key, key);
        LessTransitive(key, t[cut[id]].key, t[j].key);
        LessAsymmetric(key, t[j].key);
      }
    }
  }

  /** A table has the least key exactly if it is next there. */
  lemma HasLeast(tables: TableSet, ids: set<nat>, cut: map<nat, nat>, out: Table, dropTombstones: bool, key: Bytes,
                 id: nat, b: nat)
    requires AllIncreasing(tables) && Progress(tables, ids, cut, out, dropTombstones) && IsLeast(tables, ids, cut, key)
    requires b in ids && Heads(tables, cut, b, key) && id in ids
    ensures Has(tables, id, key) <==> Heads(tables, cut, id, key)
    ensures Heads(tables, cut, id, key) ==> Find(tables[id], key) == Some(tables[id][cut[id]])
  {
    var t := tables[id];
    if Heads(tables, cut, id, key) {
      FindAt(t, cut[id]);
    }
    forall i: nat | i < |t|
      ensures t[i].key == key ==> i == cut[id]
    {
      if i < cut[id] {
        ReadDiffers(tables, ids, cut, out, dropTombstones, key, id, i, b);
      } else {
        UnreadAtLeast(tables, ids, cut, key, id, i);
      }
    }
  }

  lemma ReadDiffers(tables: TableSet, ids: set<nat>, cut: map<nat, nat>, out: Table, dropTombstones: bool, key: Bytes,
                    id: nat, i: nat, b: nat)
    requires Progress(tables, ids, cut, out, dropTombstones) && b in ids && Heads(tables, cut, b, key) && id in ids
    requires i < cut[id]
    ensures tables[id][i].key != key
  {
    hide Newest;
    assert Unread(tables, cut, b, cut[b]);
    LessIrreflexive(key);
  }

  lemma LeastNewest(tables: TableSet, ids: set<nat>, cut: map<nat, nat>, out: Table, dropTombstones: bool, key: Bytes,
                    b: nat)
    requires AllIncreasing(tables) && Progress(tables, ids, cut, out, dropTombstones) && IsLeast(tables, ids, cut, key)
    requires b in ids && Heads(tables, cut, b, key) && forall id :: id in ids && Heads(tables, cut, id, key) ==> id <= b
    ensures Newest(tables, ids, key) == Some(tables[b][cut[b]])
  {
    hide Progress, IsLeast, AllIncreasing, Newest;
    forall id | id in ids
      ensures Has(tables, id, key) <==> Heads(tables, cut, id, key)
    {
      HasLeast(tables, ids, cut, out, dropTombstones, key, id, b);
    }
    HasLeast(tables, ids, cut, out, dropTombstones, key, b, b);
    NewestIs(tables, ids, key, b);
  }

  /** The least key is below everything that is left after it. */
  lemma TookBelow(tables: TableSet, ids: set<nat>, cut: map<nat, nat>, cut': map<nat, nat>, key: Bytes)
    requires AllIncreasing(tables) && Cursors(tables, ids, cut) && IsLeast(tables, ids, cut, key)
    requires Took(tables, ids, cut, cut', key)
    ensures Cursors(tables, ids, cut') && Below(tables, ids, cut', key)
    ensures forall k :: Below(tables, ids, cut, k) ==> Below(tables, ids, cut', k)
  {
    forall id, j: nat | id in ids && Unread(tables, cut', id, j)
      ensures Unread(tables, cut, id, j) && Less(key, tables[id][j].key)
    {
      UnreadAtLeast(tables, ids, cut, key, id, j);
      LessTotal(tables[id][j].key, key);
    }
  }

  /** A key between the least one and what is left occurs nowhere. */
  lemma Between(tables: TableSet, ids: set<nat>, cut: map<nat, nat>, cut': map<nat, nat>, out: Table,
                dropTombstones: bool, least: Bytes, b: nat, key: Bytes)
    requires AllIncreasing(tables) && Progress(tables, ids, cut, out, dropTombstones)
    requires IsLeast(tables, ids, cut, least)
    requires Took(tables, ids, cut, cut', least) && b in ids && Heads(tables, cut, b, least)
    requires Below(tables, ids, cut', key) && !Below(tables, ids, cut, key) && key != least
    ensures Newest(tables, ids, key) == None && Find(out, key) == None
  {
    hide Newest;
    var id', j': nat :| id' in ids && Unread(tables, cut, id', j') && !Less(key, tables[id'][j'].key);
    UnreadAtLeast(tables, ids, cut, least, id', j');
    BetweenLess(tables[id'][j'].key, least, key);
    forall id | id in ids
      ensures !Has(tables, id, key)
    {
      BetweenAbsent(tables, ids, cut, cut', out, dropTombstones, least, b, key, id);
    }
    NewestNone(tables, ids, key);
    forall i | 0 <= i < |out|
      ensures out[i].key != key
    {
      assert Unread(tables, cut, b, cut[b]);
      assert Less(out[i].key, least);
      LessAsymmetric(out[i].key, least);
      LessAsymmetric(least, key);
    }
  }

  /** From `least <= x <= key` and `key != least`. */
  lemma BetweenLess(x: Bytes, least: Bytes, key: Bytes)
    requires !Less(x, least) && !Less(key, x) && key != least
    ensures Less(least, key)
  {
    if x == key {
      LessTotal(key, least);
    } else {
      LessTotal(key, x);
      if x != least {
        LessTotal(x, least);
        LessTransitive(least, x, key);
      }
    }
  }

  lemma BetweenAbsent(tables: TableSet, ids: set<nat>, cut: map<nat, nat>, cut': map<nat, nat>, out: Table,
                      dropTombstones: bool, least: Bytes, b: nat, key: Bytes, id: nat)
    requires Progress(tables, ids, cut, out, dropTombstones) && Took(tables, ids, cut, cut', least)
    requires b in ids && Heads(tables, cut, b, least) && Below(tables, ids, cut', key) && Less(least, key) && id in ids
    ensures !Has(tables, id, key)
  {
    var t := tables[id];
    forall i | 0 <= i < |t|
      ensures t[i].key != key
    {
      LessIrreflexive(key);
      if i < cut[id] {
        assert Unread(tables, cut, b, cut[b]);
        LessAsymmetric(t[i].key, least);
      } else if i >= cut'[id] {
        assert Unread(tables, cut', id, i);
      }
    }
  }

  /** The merge after one key. */
  function Emitted(out: Table, e: Entry, dropTombstones: bool): Table {
    if e.tombstone && dropTombstones then out else out + [e]
  }

  lemma FindEmitted(out: Table, e: Entry, dropTombstones: bool, key: Bytes)
    requires Find(out, e.key) == None
    ensures Find(Emitted(out, e, dropTombstones), key) == if key == e.key then Kept(Some(e), dropTombstones)
                                                          else Find(out, key)
  {
    var after := out + [e];
    FindAppend(out, e, key);
  }

  lemma {:induction false} FindAppend(out: Table, e: Entry, key: Bytes)
    ensures Find(out + [e], key) == if Find(out, key).Some? then Find(out, key) else if key == e.key then Some(e)
                                                                                     else None
  {
    if out == [] {
      assert out + [e] == [e];
    } else {
      assert (out + [e])[1..] == out[1..] + [e];
      FindAppend(out[1..], e, key);
    }
  }

  /** Emitting the newest entry of the least key keeps the merge going. */
  lemma EmitProgress(tables: TableSet, ids: set<nat>, cut: map<nat, nat>, cut': map<nat, nat>, out: Table,
                     dropTombstones: bool, b: nat, e: Entry)
    requires AllIncreasing(tables) && Progress(tables, ids, cut, out, dropTombstones)
    requires IsLeast(tables, ids, cut, e.key)
    requires Took(tables, ids, cut, cut', e.key) && b in ids && Heads(tables, cut, b, e.key) && e == tables[b][cut[b]]
    requires forall id :: id in ids && Heads(tables, cut, id, e.key) ==> id <= b
    ensures Progress(tables, ids, cut', Emitted(out, e, dropTombstones), dropTombstones)
  {
    hide Newest, Less;
    var out' := Emitted(out, e, dropTombstones);
    TookBelow(tables, ids, cut, cut', e.key);
    OutBelow(tables, ids, cut, out, dropTombstones, b, e);
    assert Increasing(out') by {
      if out != [] {
        assert Less(out[|out| - 1].key, e.key);
      }
      IncreasingExtend(out, e);
    }
    forall key | Below(tables, ids, cut', key)
      ensures Find(out', key) == Kept(Newest(tables, ids, key), dropTombstones)
    {
      FindEmitted(out, e, dropTombstones, key);
      if key == e.key {
        LeastNewest(tables, ids, cut, out, dropTombstones, e.key, b);
      } else if !Below(tables, ids, cut, key) {
        Between(tables, ids, cut, cut', out, dropTombstones, e.key, b, key);
      }
    }
    ReadBelow(tables, ids, cut, cut', out, dropTombstones, e.key);
  }

  lemma OutBelow(tables: TableSet, ids: set<nat>, cut: map<nat, nat>, out: Table, dropTombstones: bool, b: nat,
                 e: Entry)
    requires Progress(tables, ids, cut, out, dropTombstones) && b in ids && Heads(tables, cut, b, e.key)
    ensures Find(out, e.key) == None && forall i :: 0 <= i < |out| ==> Less(out[i].key, e.key)
  {
    hide Newest;
    forall i | 0 <= i < |out|
      ensures Less(out[i].key, e.key) && out[i].key != e.key
    {
      assert Unread(tables, cut, b, cut[b]);
      assert Less(out[i].key, e.key);
      LessAsymmetric(out[i].key, e.key);
    }
  }

  lemma ReadBelow(tables: TableSet, ids: set<nat>, cut: map<nat, nat>, cut': map<nat, nat>, out: Table,
                  dropTombstones: bool, key: Bytes)
    requires Progress(tables, ids, cut, out, dropTombstones) && Took(tables, ids, cut, cut', key)
    requires Cursors(tables, ids, cut') && Below(tables, ids, cut', key)
    requires forall k :: Below(tables, ids, cut, k) ==> Below(tables, ids, cut', k)
    ensures forall id, i :: id in ids && 0 <= i < cut'[id] ==> Below(tables, ids, cut', tables[id][i].key)
  {
    hide Newest, Less;
    forall id, i | id in ids && 0 <= i < cut'[id]
      ensures Below(tables, ids, cut', tables[id][i].key)
    {
      if i < cut[id] {
        assert Below(tables, ids, cut, tables[id][i].key);
      }
    }
  }

  lemma NothingRead(tables: TableSet, ids: set<nat>, cut: map<nat, nat>, dropTombstones: bool)
    requires forall id :: id in ids ==> id in tables && id in cut && cut[id] == 0
    ensures Progress(tables, ids, cut, [], dropTombstones)
  {
    hide Newest;
    forall key | Below(tables, ids, cut, key)
      ensures Find([], key) == Kept(Newest(tables, ids, key), dropTombstones)
    {
      forall id | id in ids
        ensures !Has(tables, id, key)
      {
        LessIrreflexive(key);
        assert forall i :: 0 <= i < |tables[id]| ==> Unread(tables, cut, id, i);
      }
      NewestNone(tables, ids, key);
    }
  }

  lemma AllRead(tables: TableSet, ids: set<nat>, cut: map<nat, nat>, out: Table, dropTombstones: bool)
    requires Progress(tables, ids, cut, out, dropTombstones) && forall id :: id in ids ==> cut[id] == |tables[id]|
    ensures IsMerge(out, tables, ids, dropTombstones)
  {
    hide Newest;
    assert forall key :: Below(tables, ids, cut, key);
  }

  // ---------------------------------------------------------------- the loop

  /** The heap holds the next entry of every table that has one. */
  ghost predicate HeapOf(tables: TableSet, ids: set<nat>, cut: map<nat, nat>, heap: seq<Item>) {
    && (forall k :: 0 <= k < |heap| ==> IsHead(tables, ids, cut, heap[k]))
    && (forall i, j :: 0 <= i < j < |heap| ==> heap[i].id != heap[j].id)
    && (forall id :: id in ids && id in tables && id in cut && cut[id] < |tables[id]| ==> InHeap(heap, id))
  }

  ghost predicate IsHead(tables: TableSet, ids: set<nat>, cut: map<nat, nat>, item: Item) {
    && item.id in ids && item.id in tables && item.id in cut
    && cut[item.id] < |tables[item.id]|
    && item.entry == tables[item.id][cut[item.id]]
  }

  predicate InHeap(heap: seq<Item>, id: nat) {
    exists k :: 0 <= k < |heap| && heap[k].id == id
  }

  /** How many entries are left to read. */
  ghost function Remaining(tables: TableSet, ids: seq<nat>, cut: map<nat, nat>): int
    requires forall i :: 0 <= i < |ids| ==> ids[i] in tables && ids[i] in cut
  {
    if ids == [] then 0
    else Remaining(tables, ids[1..], cut) + |tables[ids[0]]| - cut[ids[0]]
  }

  lemma {:induction false} RemainingDrops(tables: TableSet, ids: seq<nat>, cut: map<nat, nat>, id: nat)
    requires forall i :: 0 <= i < |ids| ==> ids[i] in tables && ids[i] in cut
    requires (forall i, j :: 0 <= i < j < |ids| ==> ids[i] != ids[j]) && id in cut
    ensures Remaining(tables, ids, cut[id := cut[id] + 1]) == Remaining(tables, ids, cut) - if id in ids then 1 else 0
  {
    if ids != [] {
      RemainingDrops(tables, ids[1..], cut, id);
    }
  }

  lemma {:induction false} RemainingNatural(tables: TableSet, ids: seq<nat>, cut: map<nat, nat>)
    requires forall i :: 0 <= i < |ids| ==> ids[i] in tables && ids[i] in cut && cut[ids[i]] <= |tables[ids[i]]|
    ensures Remaining(tables, ids, cut) >= 0
  {
    if ids != [] {
      RemainingNatural(tables, ids[1..], cut);
    }
  }

  ghost function Members(ids: seq<nat>): set<nat> {
    set id | id in ids
  }

  lemma Without(heap: seq<Item>, k: nat)
    requires k < |heap| && forall i, j :: 0 <= i < j < |heap| ==> heap[i].id != heap[j].id
    ensures var rest := heap[..k] + heap[k + 1..];
            && (forall i :: 0 <= i < |rest| ==> rest[i] in heap && rest[i].id != heap[k].id)
            && (forall i, j :: 0 <= i < j < |rest| ==> rest[i].id != rest[j].id)
            && (forall id :: InHeap(heap, id) && id != heap[k].id ==> InHeap(rest, id))
  {
    var rest := heap[..k] + heap[k + 1..];
    assert forall i :: 0 <= i < |rest| ==> rest[i] == heap[if i < k then i else i + 1];
    forall id | InHeap(heap, id) && id != heap[k].id
      ensures InHeap(rest, id)
    {
      var i :| 0 <= i < |heap| && heap[i].id == id;
      assert rest[if i < k then i else i - 1].id == id;
    }
  }

  /** A heap without table `id`, put back in step with the cursors. */
  lemma Refilled(tables: TableSet, ids: set<nat>, cut: map<nat, nat>, rest: seq<Item>, id: nat, heap': seq<Item>)
    requires Cursors(tables, ids, cut) && id in ids
    requires forall i :: 0 <= i < |rest| ==> IsHead(tables, ids, cut, rest[i]) && rest[i].id != id
    requires forall i, j :: 0 <= i < j < |rest| ==> rest[i].id != rest[j].id
    requires forall other :: other in ids && other != id && cut[other] < |tables[other]| ==> InHeap(rest, other)
    requires heap' == if cut[id] < |tables[id]| then rest + [Item(id, tables[id][cut[id]])] else rest
    ensures HeapOf(tables, ids, cut, heap')
  {
    if cut[id] < |tables[id]| {
      assert heap'[|rest|].id == id;
    }
    forall other | other in ids && cut[other] < |tables[other]|
      ensures InHeap(heap', other)
    {
      if other != id {
        var i :| 0 <= i < |rest| && rest[i].id == other;
        assert heap'[i].id == other;
      }
    }
  }

  /** The item is taken off the heap and its table's next entry put on. */
  method PopAndAdvance(tables: TableSet, ghost ids: set<nat>, cut: map<nat, nat>, heap: seq<Item>, k: nat)
    returns (heap': seq<Item>, cut': map<nat, nat>)
    requires Cursors(tables, ids, cut) && HeapOf(tables, ids, cut, heap) && k < |heap|
    ensures cut' == cut[heap[k].id := cut[heap[k].id] + 1]
    ensures Cursors(tables, ids, cut') && HeapOf(tables, ids, cut', heap')
  {
    hide InHeap;
    var id := heap[k].id;
    assert IsHead(tables, ids, cut, heap[k]);
    var rest := heap[..k] + heap[k + 1..];
    Without(heap, k);
    cut' := cut[id := cut[id] + 1];
    heap' := rest;
    if cut'[id] < |tables[id]| {
      heap' := heap' + [Item(id, tables[id][cut'[id]])];
    }
    forall i | 0 <= i < |rest|
      ensures IsHead(tables, ids, cut', rest[i])
    {
      var j :| 0 <= j < |heap| && heap[j] == rest[i];
      assert IsHead(tables, ids, cut, heap[j]);
    }
    Refilled(tables, ids, cut', rest, id, heap');
  }

  /** A smallest item of the heap is a least next entry. */
  lemma MinIsLeast(tables: TableSet, ids: set<nat>, cut: map<nat, nat>, heap: seq<Item>, k: nat)
    requires HeapOf(tables, ids, cut, heap) && k < |heap| && IsMin(heap, heap[k].entry)
    ensures IsLeast(tables, ids, cut, heap[k].entry.key) && Heads(tables, cut, heap[k].id, heap[k].entry.key)
    ensures heap[k].id in ids
  {
    hide Less;
    assert IsHead(tables, ids, cut, heap[k]);
    forall id | id in ids && id in tables && id in cut && cut[id] < |tables[id]|
      ensures !Less(tables[id][cut[id]].key, heap[k].entry.key)
    {
      var i :| 0 <= i < |heap| && heap[i].id == id;
      assert IsHead(tables, ids, cut, heap[i]);
    }
  }

  /** Reading on past the least key leaves it least. */
  lemma StillLeast(tables: TableSet, ids: set<nat>, cut: map<nat, nat>, key: Bytes, id: nat)
    requires AllIncreasing(tables) && IsLeast(tables, ids, cut, key) && id in ids && Heads(tables, cut, id, key)
    ensures IsLeast(tables, ids, cut[id := cut[id] + 1], key)
  {
    var t, next := tables[id], cut[id] + 1;
    if next < |t| {
      assert Less(t[cut[id]].key, t[next].key);
      LessAsymmetric(key, t[next].key);
    }
  }

  /** Between `cut` and `now` some of the tables have been read past `key`,
      and `best` is the newest of those. */
  ghost predicate Taking(tables: TableSet, ids: set<nat>, cut: map<nat, nat>, now: map<nat, nat>, key: Bytes,
                         best: Option<Item>) {
    && (forall id :: id in ids ==> id in cut && id in now)
    && (forall id :: id in ids ==> now[id] == cut[id] || (Heads(tables, cut, id, key) && now[id] == cut[id] + 1))
    && (best.Some? ==> best.value.id in ids && IsHead(tables, ids, cut, best.value) && best.value.entry.key == key)
    && (forall id :: id in ids && now[id] != cut[id] ==> best.Some? && id <= best.value.id)
  }

  /** If a smallest item is beyond the least key, so are all. */
  lemma NoneLeft(tables: TableSet, ids: set<nat>, cut: map<nat, nat>, heap: seq<Item>, key: Bytes, k: nat)
    requires HeapOf(tables, ids, cut, heap) && k < |heap| && IsMin(heap, heap[k].entry)
    requires IsLeast(tables, ids, cut, key) && heap[k].entry.key != key
    ensures forall i :: 0 <= i < |heap| ==> heap[i].entry.key != key
  {
    assert IsHead(tables, ids, cut, heap[k]);
    LessTotal(heap[k].entry.key, key);
  }

  /** A table whose next entry has the key has not been read past it. */
  lemma NotYetTaken(tables: TableSet, ids: set<nat>, cut: map<nat, nat>, now: map<nat, nat>, key: Bytes,
                    best: Option<Item>, item: Item)
    requires AllIncreasing(tables) && Taking(tables, ids, cut, now, key, best) && IsHead(tables, ids, now, item)
    requires item.entry.key == key
    ensures now[item.id] == cut[item.id] && IsHead(tables, ids, cut, item) && Heads(tables, cut, item.id, key)
  {
    var t := tables[item.id];
    if now[item.id] == cut[item.id] + 1 {
      assert Less(t[cut[item.id]].key, t[now[item.id]].key);
      LessIrreflexive(key);
    }
  }

  lemma TookAll(tables: TableSet, ids: set<nat>, cut: map<nat, nat>, now: map<nat, nat>, heap: seq<Item>, key: Bytes,
                best: Option<Item>)
    requires Taking(tables, ids, cut, now, key, best) && HeapOf(tables, ids, now, heap)
    requires forall i :: 0 <= i < |heap| ==> heap[i].entry.key != key
    ensures Took(tables, ids, cut, now, key)
  {
  }

  /** Reads every entry with the least key and keeps the newest. */
  method TakeKey(tables: TableSet, ids: seq<nat>, cut: map<nat, nat>, heap: seq<Item>, key: Bytes)
    returns (heap': seq<Item>, cut': map<nat, nat>, best: Option<Item>)
    requires AllIncreasing(tables) && Cursors(tables, Members(ids), cut) && HeapOf(tables, Members(ids), cut, heap)
    requires IsLeast(tables, Members(ids), cut, key) && forall i, j :: 0 <= i < j < |ids| ==> ids[i] != ids[j]
    ensures Cursors(tables, Members(ids), cut') && HeapOf(tables, Members(ids), cut', heap')
    ensures Took(tables, Members(ids), cut, cut', key)
    ensures Taking(tables, Members(ids), cut, cut', key, best)
  {
    hide IsLeast, AllIncreasing, Less, InHeap;
    ghost var members := Members(ids);
    heap', cut', best := heap, cut, None;
    RemainingNatural(tables, ids, cut');
    while |heap'| > 0
      invariant Cursors(tables, members, cut') && HeapOf(tables, members, cut', heap')
      invariant IsLeast(tables, members, cut', key)
      invariant Taking(tables, members, cut, cut', key, best)
      invariant Remaining(tables, ids, cut') >= 0
      decreases Remaining(tables, ids, cut')
    {
      var k := FindMin(heap');
      var item := heap'[k];
      if item.entry.key != key {
        NoneLeft(tables, members, cut', heap', key, k);
        break;
      }
      assert IsHead(tables, members, cut', item);
      NotYetTaken(tables, members, cut, cut', key, best, item);
      if best.None? || item.id > best.value.id {
        best := Some(item);
      }
      StillLeast(tables, members, cut', key, item.id);
      RemainingDrops(tables, ids, cut', item.id);
      heap', cut' := PopAndAdvance(tables, members, cut', heap', k);
      RemainingNatural(tables, ids, cut');
    }
    TookAll(tables, members, cut, cut', heap', key, best);
  }

  /** The merge: whatever order the heap gives equal keys in, the result is
      strictly increasing and has, for every key, the newest entry. */
  method MergeTables(ids: seq<nat>, tables: TableSet, dropTombstones: bool) returns (out: Table)
    requires AllIncreasing(tables) && forall i :: 0 <= i < |ids| ==> ids[i] in tables
    requires forall i, j :: 0 <= i < j < |ids| ==> ids[i] != ids[j]
    ensures IsMerge(out, tables, Members(ids), dropTombstones)
  {
    hide IsLeast, AllIncreasing, Less, Progress, Newest, InHeap, HeapOf;
    ghost var members := Members(ids);
    var heap, cut := Fill(ids, tables);
    out := [];
    NothingRead(tables, members, cut, dropTombstones);
    CursorsOf(tables, members, cut, out, dropTombstones);
    RemainingNatural(tables, ids, cut);
    while |heap| > 0
      invariant Cursors(tables, members, cut) && HeapOf(tables, members, cut, heap)
      invariant Progress(tables, members, cut, out, dropTombstones)
      invariant Remaining(tables, ids, cut) >= 0
      decreases Remaining(tables, ids, cut)
    {
      var k := FindMin(heap);
      var key := heap[k].entry.key;
      MinIsLeast(tables, members, cut, heap, k);
      ghost var before, first := cut, heap[k].id;
      var best;
      heap, cut, best := TakeKey(tables, ids, cut, heap, key);
      BestOf(tables, members, before, cut, key, best, first);
      EmitProgress(tables, members, before, cut, out, dropTombstones, best.value.id, best.value.entry);
      Fewer(tables, ids, before, cut, key, first);
      if !(best.value.entry.tombstone && dropTombstones) {
        out := out + [best.value.entry];
      }
    }
    NothingLeft(tables, members, cut, heap);
    AllRead(tables, members, cut, out, dropTombstones);
  }

  lemma CursorsOf(tables: TableSet, ids: set<nat>, cut: map<nat, nat>, out: Table, dropTombstones: bool)
    requires Progress(tables, ids, cut, out, dropTombstones)
    ensures Cursors(tables, ids, cut)
  {
  }

  /** The key was next somewhere, so a newest entry has been found. */
  lemma BestOf(tables: TableSet, ids: set<nat>, cut: map<nat, nat>, now: map<nat, nat>, key: Bytes, best: Option<Item>,
               first: nat)
    requires Taking(tables, ids, cut, now, key, best) && Took(tables, ids, cut, now, key) && first in ids
    requires Heads(tables, cut, first, key)
    ensures best.Some? && best.value.id in ids && Heads(tables, cut, best.value.id, key) && best.value.entry.key == key
    ensures best.value.entry == tables[best.value.id][cut[best.value.id]]
    ensures forall id :: id in ids && Heads(tables, cut, id, key) ==> id <= best.value.id
  {
  }

  lemma {:induction false} Fewer(tables: TableSet, ids: seq<nat>, cut: map<nat, nat>, now: map<nat, nat>, key: Bytes,
                                 first: nat)
    requires forall i :: 0 <= i < |ids| ==>
               ids[i] in tables && ids[i] in cut && ids[i] in now && now[ids[i]] <= |tables[ids[i]]|
    requires forall i :: 0 <= i < |ids| ==> cut[ids[i]] <= now[ids[i]]
    requires first in ids ==> cut[first] < now[first]
    ensures 0 <= Remaining(tables, ids, now) <= Remaining(tables, ids, cut)
    ensures first in ids ==> Remaining(tables, ids, now) < Remaining(tables, ids, cut)
  {
    if ids != [] {
      Fewer(tables, ids[1..], cut, now, key, first);
    }
  }

  lemma NothingLeft(tables: TableSet, ids: set<nat>, cut: map<nat, nat>, heap: seq<Item>)
    requires Cursors(tables, ids, cut) && HeapOf(tables, ids, cut, heap) && heap == []
    ensures forall id :: id in ids ==> cut[id] == |tables[id]|
  {
  }

  /** The first entry of every table. */
  method Fill(ids: seq<nat>, tables: TableSet) returns (heap: seq<Item>, cut: map<nat, nat>)
    requires forall i :: 0 <= i < |ids| ==> ids[i] in tables
    requires forall i, j :: 0 <= i < j < |ids| ==> ids[i] != ids[j]
    ensures forall i :: 0 <= i < |ids| ==> ids[i] in cut && cut[ids[i]] == 0
    ensures HeapOf(tables, Members(ids), cut, heap)
  {
    heap, cut := [], map[];
    for i := 0 to |ids|
      invariant forall j :: 0 <= j < i ==> ids[j] in cut && cut[ids[j]] == 0
      invariant forall id :: id in cut ==> id in ids[..i]
      invariant HeapOf(tables, Members(ids[..i]), cut, heap)
    {
      ghost var before, rest := cut, heap;
      cut := cut[ids[i] := 0];
      if |tables[ids[i]]| > 0 {
        heap := heap + [Item(ids[i], tables[ids[i]][0])];
      }
      assert Members(ids[..i + 1]) == Members(ids[..i]) + {ids[i]};
      forall k | 0 <= k < |rest|
        ensures IsHead(tables, Members(ids[..i + 1]), cut, rest[k]) && rest[k].id != ids[i]
      {
        assert IsHead(tables, Members(ids[..i]), before, rest[k]);
        assert rest[k].id in ids[..i];
      }
      Refilled(tables, Members(ids[..i + 1]), cut, rest, ids[i], heap);
    }
    assert ids[..|ids|] == ids;
  }
}
