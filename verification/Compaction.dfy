/** The set of active tables and its compaction: what a reader of the newest
    table that has a key sees before and after. */
module Compaction {
  import opened ByteStrings
  import opened Options
  import opened Tables
  import opened Merging

  // ------------------------------------------------------------- what readers see

  /** The value of the key in the newest table that has it; a tombstone means
      that there is none. */
  ghost function View(tables: TableSet, key: Bytes): Option<Bytes> {
    var e := Newest(tables, tables.Keys, key);
    if e.None? || e.value.tombstone then None else Some(e.value.value)
  }

  ghost predicate SameView(tables: TableSet, tables': TableSet) {
    forall key :: View(tables', key) == View(tables, key)
  }

  // ------------------------------------------------------------- the version set

  /** The active tables, kept in step with a manifest on disk that is replaced
      as a whole or not at all. */
  class VersionSet {
    var nextID: nat
    var tables: TableSet
    /** What the manifest file says. */
    var manifest: (nat, TableSet)

    /** The manifest is what is in memory, and no id is ever given out twice. */
    ghost predicate Valid()
      reads this
    {
      manifest == (nextID, tables) && forall id :: id in tables ==> id < nextID
    }

    constructor ()
      ensures Valid() && tables == map[]
    {
      nextID, tables, manifest := 1, map[], (1, map[]);
    }

    constructor Open(saved: (nat, TableSet))
      requires forall id :: id in saved.1 ==> id < saved.0
      ensures Valid() && manifest == saved
    {
      nextID, tables, manifest := saved.0, saved.1, saved;
    }

    method Persist(save: bool) returns (ok: bool)
      modifies this`manifest
      ensures ok == save && manifest == if save then (nextID, tables) else old(manifest)
    {
      if save {
        manifest := (nextID, tables);
      }
      return save;
    }

    method AddTable(t: Table, save: bool) returns (ok: bool, id: nat)
      requires Valid()
      modifies this
      ensures Valid() && ok == save
      ensures ok ==> id == old(nextID) && id !in old(tables) && tables == old(tables)[id := t] && nextID == id + 1
      ensures !ok ==> tables == old(tables) && nextID == old(nextID)
    {
      var prevTables, prevNextID := tables, nextID;
      id := nextID;
      tables := tables[id := t];
      nextID := nextID + 1;
      ok := Persist(save);
      if !ok {
        tables, nextID := prevTables, prevNextID;
      }
    }

    method Drop(ids: seq<nat>)
      modifies this`tables
      ensures tables == old(tables) - Members(ids)
    {
      for i := 0 to |ids|
        invariant tables == old(tables) - Members(ids[..i])
      {
        tables := tables - {ids[i]};
      }
      assert ids[..|ids|] == ids;
    }

    method RemoveTables(ids: seq<nat>, save: bool) returns (ok: bool)
      requires Valid()
      modifies this
      ensures Valid() && ok == save && nextID == old(nextID)
      ensures tables == if ok then old(tables) - Members(ids) else old(tables)
    {
      var prevTables, prevNextID := tables, nextID;
      Drop(ids);
      ok := Persist(save);
      if !ok {
        tables, nextID := prevTables, prevNextID;
      }
    }

    method ReplaceTables(ids: seq<nat>, t: Table, save: bool) returns (ok: bool, id: nat)
      requires Valid()
      modifies this
      ensures Valid() && ok == save
      ensures ok ==> id == old(nextID) && nextID == id + 1 && tables == (old(tables) - Members(ids))[id := t]
      ensures !ok ==> tables == old(tables) && nextID == old(nextID)
    {
      var prevTables, prevNextID := tables, nextID;
      Drop(ids);
      id := nextID;
      tables := tables[id := t];
      nextID := nextID + 1;
      ok := Persist(save);
      if !ok {
        tables, nextID := prevTables, prevNextID;
      }
    }
  }

  // --------------------------------------------------------------- compaction

  /** A table that is left out is older than every input, so tombstones of
      the inputs may still hide something. */
  ghost predicate OlderLeftOut(active: set<nat>, inputs: set<nat>) {
    exists id :: id in active && id !in inputs && forall i :: i in inputs ==> id < i
  }

  /** The tables after a compaction with output `out`. */
  function Replaced(tables: TableSet, inputs: set<nat>, newID: nat, out: Table): TableSet {
    if out == [] then tables - inputs else (tables - inputs)[newID := out]
  }

  ghost predicate IsCompaction(tables: TableSet, inputs: set<nat>, newID: nat, tables': TableSet) {
    exists out :: IsMerge(out, tables, inputs, !OlderLeftOut(tables.Keys, inputs))
      && tables' == Replaced(tables, inputs, newID, out)
  }

  /** The merge is a table, and not this one. */
  ghost predicate IsNotMerge(output: Option<Table>, tables: TableSet, inputs: set<nat>) {
    var drop := !OlderLeftOut(tables.Keys, inputs);
    exists out :: out != [] && output != Some(out) && IsMerge(out, tables, inputs, drop)
  }

  datatype Failure = NoInputs | Duplicate | NotActive | Unreadable | BadOutput | SaveFailed

  method Smallest(ids: seq<nat>) returns (least: nat)
    requires |ids| > 0
    ensures least in ids && forall i :: 0 <= i < |ids| ==> least <= ids[i]
  {
    least := ids[0];
    for i := 1 to |ids|
      invariant least in ids && forall j :: 0 <= j < i ==> least <= ids[j]
    {
      if ids[i] < least {
        least := ids[i];
      }
    }
  }

  method HasDuplicate(ids: seq<nat>) returns (found: bool)
    ensures found <==> exists i, j :: 0 <= i < j < |ids| && ids[i] == ids[j]
  {
    for i := 0 to |ids|
      invariant forall a, b :: 0 <= a < b < i ==> ids[a] != ids[b]
    {
      if ids[i] in ids[..i] {
        ghost var a :| 0 <= a < i && ids[..i][a] == ids[i];
        assert ids[a] == ids[i];
        return true;
      }
      assert forall a :: 0 <= a < i ==> ids[a] == ids[..i][a];
    }
    return false;
  }

  method MayDropTombstones(tables: TableSet, inputs: seq<nat>) returns (drop: bool)
    requires |inputs| > 0
    ensures drop <==> !OlderLeftOut(tables.Keys, Members(inputs))
  {
    var least := Smallest(inputs);
    var rest := tables.Keys;
    while rest != {}
      invariant rest <= tables.Keys
      invariant forall id :: id in tables.Keys - rest && id !in inputs ==> id >= least
      decreases rest
    {
      var id :| id in rest;
      if id !in inputs && id < least {
        assert forall i :: i in Members(inputs) ==> id < i;
        return false;
      }
      rest := rest - {id};
    }
    assert least in Members(inputs);
    return true;
  }

  /** Compacts the tables `inputs` of the version set. The files of some tables
      may be `unreadable`, and `output` is what reading the new file gives
      back, if it could be built at all: it is published only if that is the
      merge. */
  method Compact(vs: VersionSet, inputs: seq<nat>, unreadable: set<nat>, output: Option<Table>, save: bool)
      returns (r: Option<Failure>)
    requires vs.Valid() && AllIncreasing(vs.tables)
    modifies vs
    ensures vs.Valid() && AllIncreasing(vs.tables)
    ensures r == Some(NoInputs) <==> inputs == []
    ensures r == Some(Duplicate) <==> exists i, j :: 0 <= i < j < |inputs| && inputs[i] == inputs[j]
    ensures r == Some(NotActive) ==> !(Members(inputs) <= old(vs.tables).Keys)
    ensures r == Some(Unreadable) ==> Members(inputs) <= old(vs.tables).Keys && Members(inputs) * unreadable != {}
    ensures r == Some(BadOutput) ==> IsNotMerge(output, old(vs.tables), Members(inputs))
    ensures r == Some(SaveFailed) ==> !save
    ensures r.None? ==> inputs != [] && Members(inputs) <= old(vs.tables).Keys && Members(inputs) !! unreadable && save
    ensures r.None? ==> IsCompaction(old(vs.tables), Members(inputs), old(vs.nextID), vs.tables)
    ensures r.None? && old(vs.nextID) in vs.tables ==> output == Some(vs.tables[old(vs.nextID)])
    ensures r.Some? ==> vs.tables == old(vs.tables)
  {
    hide IsMerge, Newest, Less;
    if |inputs| == 0 {
      return Some(NoInputs);
    }
    var duplicate := HasDuplicate(inputs);
    if duplicate {
      return Some(Duplicate);
    }
    for i := 0 to |inputs|
      invariant forall j :: 0 <= j < i ==> inputs[j] in vs.tables
    {
      if inputs[i] !in vs.tables {
        return Some(NotActive);
      }
    }
    var drop := MayDropTombstones(vs.tables, inputs);
    for i := 0 to |inputs|
      invariant forall j :: 0 <= j < i ==> inputs[j] !in unreadable
    {
      if inputs[i] in unreadable {
        assert inputs[i] in Members(inputs) * unreadable;
        return Some(Unreadable);
      }
    }
    var out := MergeTables(inputs, vs.tables, drop);
    MergeIncreasing(out, vs.tables, Members(inputs), drop);
    var ok;
    if |out| == 0 {
      ok := vs.RemoveTables(inputs, save);
    } else {
      if output != Some(out) {
        return Some(BadOutput);
      }
      var id;
      ok, id := vs.ReplaceTables(inputs, out, save);
    }
    if !ok {
      return Some(SaveFailed);
    }
    assert vs.tables == Replaced(old(vs.tables), Members(inputs), old(vs.nextID), out);
    return None;
  }

  lemma MergeIncreasing(out: Table, tables: TableSet, ids: set<nat>, drop: bool)
    requires IsMerge(out, tables, ids, drop)
    ensures Increasing(out)
  {
  }

  // -------------------------------------------------------- the view is kept

  /** Every table that is left out is older than every input. */
  ghost predicate OldestLeftOut(active: set<nat>, inputs: set<nat>) {
    forall id, i :: id in active && id !in inputs && i in inputs ==> id < i
  }

  /** If `newer` are all newer than `older`, they are asked first. */
  lemma NewestSplit(tables: TableSet, older: set<nat>, newer: set<nat>, key: Bytes)
    requires forall a, b :: a in older && b in newer ==> a < b
    ensures Newest(tables, older + newer, key)
         == if Newest(tables, newer, key).Some? then Newest(tables, newer, key) else Newest(tables, older, key)
  {
    hide Has;
    if exists id :: id in newer && Has(tables, id, key) {
      var id :| id in newer && Has(tables, id, key);
      var top := NewestExists(tables, newer, key, id);
      NewestSome(tables, newer, key, top);
      assert IsNewest(tables, older + newer, key, top);
      NewestSome(tables, older + newer, key, top);
    } else {
      NewestNone(tables, newer, key);
      if exists id :: id in older && Has(tables, id, key) {
        var id :| id in older && Has(tables, id, key);
        var top := NewestExists(tables, older, key, id);
        NewestSome(tables, older, key, top);
        assert IsNewest(tables, older + newer, key, top);
        NewestSome(tables, older + newer, key, top);
      } else {
        NewestNone(tables, older, key);
        NewestNone(tables, older + newer, key);
      }
    }
  }

  lemma NewestSome(tables: TableSet, ids: set<nat>, key: Bytes, id: nat)
    requires IsNewest(tables, ids, key, id)
    ensures Newest(tables, ids, key) == Find(tables[id], key) && Newest(tables, ids, key).Some?
  {
    NewestIs(tables, ids, key, id);
  }

  lemma NewestOne(tables: TableSet, id: nat, key: Bytes)
    requires id in tables
    ensures Newest(tables, {id}, key) == Find(tables[id], key)
  {
    if Has(tables, id, key) {
      assert IsNewest(tables, {id}, key, id);
      NewestIs(tables, {id}, key, id);
    } else {
      NewestNone(tables, {id}, key);
    }
  }

  /** The newest entry depends on the tables asked, and on nothing else. */
  lemma NewestSame(tables: TableSet, tables': TableSet, ids: set<nat>, key: Bytes)
    requires forall id :: id in ids ==> id in tables && id in tables' && tables'[id] == tables[id]
    ensures Newest(tables', ids, key) == Newest(tables, ids, key)
  {
    if exists id :: id in ids && Has(tables, id, key) {
      var id :| id in ids && Has(tables, id, key);
      var top := NewestExists(tables, ids, key, id);
      assert IsNewest(tables', ids, key, top);
      NewestIs(tables, ids, key, top);
      NewestIs(tables', ids, key, top);
    } else {
      NewestNone(tables, ids, key);
      NewestNone(tables', ids, key);
    }
  }

  /** The view of one key after a compaction. */
  lemma ViewKept(tables: TableSet, inputs: set<nat>, newID: nat, out: Table, key: Bytes)
    requires inputs <= tables.Keys && inputs != {} && (forall id :: id in tables ==> id < newID)
    requires OldestLeftOut(tables.Keys, inputs)
    requires Find(out, key) == Kept(Newest(tables, inputs, key), !OlderLeftOut(tables.Keys, inputs))
    ensures View(Replaced(tables, inputs, newID, out), key) == View(tables, key)
  {
    hide Newest;
    var rest, after := tables.Keys - inputs, Replaced(tables, inputs, newID, out);
    assert rest + inputs == tables.Keys;
    NewestSplit(tables, rest, inputs, key);
    NewestSame(tables, after, rest, key);
    if out == [] {
      assert after.Keys == rest;
    } else {
      assert after.Keys == rest + {newID};
      NewestOne(after, newID, key);
      NewestSplit(after, rest, {newID}, key);
    }
    if rest != {} {
      var id :| id in rest;
      assert OlderLeftOut(tables.Keys, inputs);
    } else {
      NewestNone(tables, rest, key);
    }
  }

  /** A compaction that leaves out only older tables changes nothing that a
      reader can see, also when it drops tombstones or leaves no table. */
  lemma CompactionPreserves(tables: TableSet, inputs: set<nat>, newID: nat, tables': TableSet)
    requires inputs <= tables.Keys && inputs != {} && (forall id :: id in tables ==> id < newID)
    requires IsCompaction(tables, inputs, newID, tables') && OldestLeftOut(tables.Keys, inputs)
    ensures SameView(tables, tables')
  {
    hide Newest, View, OldestLeftOut, OlderLeftOut;
    var out :| IsMerge(out, tables, inputs, !OlderLeftOut(tables.Keys, inputs))
    && tables' == Replaced(tables, inputs, newID, out);
    forall key
      ensures View(tables', key) == View(tables, key)
    {
      ViewKept(tables, inputs, newID, out, key);
    }
  }

  // ----------------------------------------- and only then, whatever they hold

  const THE_KEY: Bytes := [1]
  const OTHER_KEY: Bytes := [2]

  function Written(value: Bytes): Table {
    [Entry(THE_KEY, value, false)]
  }

  function Elsewhere(): Table {
    [Entry(OTHER_KEY, [], false)]
  }

  predicate NonEmpty(tables: TableSet) {
    forall id :: id in tables ==> tables[id] != []
  }

  /** Two of the tables hold the key, with different values; the others hold
      another key. */
  ghost predicate Conflict(tables: TableSet, active: set<nat>, i: nat, id: nat) {
    && tables.Keys == active
    && i in active && id in active && i != id
    && tables[i] == Written([1])
    && tables[id] == Written([2])
    && forall other :: other in active && other != i && other != id ==> tables[other] == Elsewhere()
  }

  lemma {:induction false} OtherTables(active: set<nat>) returns (tables: TableSet)
    ensures tables.Keys == active && forall id :: id in active ==> tables[id] == Elsewhere()
  {
    tables := map[];
    if active != {} {
      var id :| id in active;
      var rest := OtherTables(active - {id});
      tables := rest[id := Elsewhere()];
    }
  }

  lemma ConflictHas(tables: TableSet, active: set<nat>, i: nat, id: nat, other: nat, key: Bytes)
    requires Conflict(tables, active, i, id) && other in active
    ensures Has(tables, other, key) <==> if other == i || other == id then key == THE_KEY else key == OTHER_KEY
    ensures Find(tables[i], THE_KEY) == Some(Entry(THE_KEY, [1], false))
    ensures Find(tables[id], THE_KEY) == Some(Entry(THE_KEY, [2], false))
    ensures other != i && other != id ==> Find(tables[other], OTHER_KEY) == Some(Entry(OTHER_KEY, [], false))
  {
  }

  /** What merging the inputs gives. */
  ghost function Output(inputs: set<nat>, i: nat): Table {
    if inputs == {i} then Written([1]) else Written([1]) + Elsewhere()
  }

  lemma OutputFinds(inputs: set<nat>, i: nat, key: Bytes)
    ensures Find(Output(inputs, i), key) ==
      if key == THE_KEY then Some(Entry(THE_KEY, [1], false))
      else if key == OTHER_KEY && inputs != {i} then Some(Entry(OTHER_KEY, [], false))
      else None
    ensures Output(inputs, i) != [] && Increasing(Output(inputs, i))
  {
    assert THE_KEY[0] != OTHER_KEY[0];
    assert (Written([1]) + Elsewhere())[1..] == Elsewhere();
  }

  lemma ConflictMerge(tables: TableSet, active: set<nat>, inputs: set<nat>, i: nat, id: nat, drop: bool)
    requires Conflict(tables, active, i, id) && inputs <= active && i in inputs && id !in inputs
    ensures IsMerge(Output(inputs, i), tables, inputs, drop)
  {
    hide Newest, Output, Conflict, Has;
    assert THE_KEY != OTHER_KEY;
    forall key
      ensures Find(Output(inputs, i), key) == Kept(Newest(tables, inputs, key), drop)
    {
      OutputFinds(inputs, i, key);
      InputHas(tables, active, inputs, i, id, key);
    }
    OutputFinds(inputs, i, THE_KEY);
  }

  lemma InputHas(tables: TableSet, active: set<nat>, inputs: set<nat>, i: nat, id: nat, key: Bytes)
    requires Conflict(tables, active, i, id) && inputs <= active && i in inputs && id !in inputs
    ensures Newest(tables, inputs, key) ==
      if key == THE_KEY then Some(Entry(THE_KEY, [1], false))
      else if key == OTHER_KEY && inputs != {i} then Some(Entry(OTHER_KEY, [], false))
      else None
  {
    hide Newest, Has;
    assert THE_KEY[0] != OTHER_KEY[0];
    forall other | other in inputs
      ensures Has(tables, other, key) <==> if other == i then key == THE_KEY else key == OTHER_KEY
      ensures other != i ==> Find(tables[other], OTHER_KEY) == Some(Entry(OTHER_KEY, [], false))
    {
      ConflictHas(tables, active, i, id, other, key);
    }
    ConflictHas(tables, active, i, id, i, key);
    if key == THE_KEY {
      assert IsNewest(tables, inputs, key, i);
      NewestIs(tables, inputs, key, i);
    } else if key == OTHER_KEY && inputs != {i} {
      var one :| one in inputs && one != i;
      var top := NewestExists(tables, inputs, key, one);
      NewestIs(tables, inputs, key, top);
    } else {
      NewestNone(tables, inputs, key);
    }
  }

  lemma ConflictViews(tables: TableSet, active: set<nat>, inputs: set<nat>, i: nat, id: nat, newID: nat)
    requires Conflict(tables, active, i, id) && i in inputs && id !in inputs && i < id
    requires inputs <= active && (forall a :: a in active ==> a < newID)
    ensures View(tables, THE_KEY) == Some([2])
    ensures View(Replaced(tables, inputs, newID, Output(inputs, i)), THE_KEY) == Some([1])
  {
    hide Newest, Output;
    assert THE_KEY[0] != OTHER_KEY[0];
    var after := Replaced(tables, inputs, newID, Output(inputs, i));
    forall other | other in active
      ensures Has(tables, other, THE_KEY) <==> other == i || other == id
    {
      ConflictHas(tables, active, i, id, other, THE_KEY);
    }
    ConflictHas(tables, active, i, id, i, THE_KEY);
    OutputFinds(inputs, i, THE_KEY);
    assert IsNewest(tables, tables.Keys, THE_KEY, id);
    NewestIs(tables, tables.Keys, THE_KEY, id);
    assert IsNewest(after, after.Keys, THE_KEY, newID);
    NewestIs(after, after.Keys, THE_KEY, newID);
  }

  /** The example: a table that is left out and newer than an input is hidden
      by the output, which takes the newest id. */
  lemma NewerLeftOut(active: set<nat>, inputs: set<nat>, newID: nat, i: nat, id: nat)
      returns (tables: TableSet, tables': TableSet)
    requires inputs <= active && i in inputs && id in active && id !in inputs && i < id && forall a :: a in active ==>
                                                                                             a < newID
    ensures tables.Keys == active && AllIncreasing(tables) && NonEmpty(tables)
    ensures IsCompaction(tables, inputs, newID, tables') && !SameView(tables, tables')
  {
    hide View, Newest, IsMerge, Output;
    var others := OtherTables(active);
    tables := others[i := Written([1])][id := Written([2])];
    var out := Output(inputs, i);
    tables' := Replaced(tables, inputs, newID, out);
    ConflictMerge(tables, active, inputs, i, id, !OlderLeftOut(tables.Keys, inputs));
    ConflictViews(tables, active, inputs, i, id, newID);
    assert View(tables', THE_KEY) != View(tables, THE_KEY);
  }

  /** Leaving out only older tables is the exact condition: it is what makes a
      compaction of these ids safe for all that the tables may hold. */
  lemma CompactionExact(active: set<nat>, inputs: set<nat>, newID: nat)
    requires inputs <= active && inputs != {} && forall id :: id in active ==> id < newID
    ensures OldestLeftOut(active, inputs) <==>
      forall tables: TableSet, tables': TableSet ::
        tables.Keys == active && AllIncreasing(tables) && NonEmpty(tables)
        && IsCompaction(tables, inputs, newID, tables') ==>
          SameView(tables, tables')
  {
    hide SameView, IsCompaction, AllIncreasing, NonEmpty;
    if OldestLeftOut(active, inputs) {
      forall tables: TableSet, tables': TableSet |
          tables.Keys == active && AllIncreasing(tables) && NonEmpty(tables)
          && IsCompaction(tables, inputs, newID, tables')
        ensures SameView(tables, tables')
      {
        CompactionPreserves(tables, inputs, newID, tables');
      }
    } else {
      var id, i :| id in active && id !in inputs && i in inputs && !(id < i);
      var tables, tables' := NewerLeftOut(active, inputs, newID, i, id);
    }
  }
}
