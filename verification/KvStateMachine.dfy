/** The state machine as an object: commands, snapshots and restores update its
    store and its table of clients in place. */
module KvStateMachine {
  import opened ByteStrings
  import opened Options
  import opened LittleEndian
  import opened SortedRows
  import opened KvCommands
  import opened KvMachine
  import opened KvSnapshots

  /** How a write to the store can fail: before its record is in the log, or
      when the record that was appended cannot be synced. */
  datatype Fault = NoFault | Refused | Unsynced

  lemma ExecutedTwice(store: Store, c: Command)
    ensures Executed(Executed(store, c), c) == Executed(store, c)
  {
  }

  class KVStateMachine {
    /** What the store has in memory, and what its log leads to. */
    var store: Store
    var disk: Store
    var dedup: map<Bytes, DedupEntry>

    /** A process starts with what the log of the store leads to. */
    constructor (store: Store)
      ensures State() == KV(store, map[]) && disk == store
    {
      this.store, disk, dedup := store, store, map[];
    }

    ghost function State(): KV
      reads this
    {
      KV(store, dedup)
    }

    /** Applies a command, unless the store fails: then the state is as it was,
        but the log may have the record, which the next process finds. */
    method ApplyCommand(c: Command, fault: Fault) returns (res: Result, err: bool)
      modifies this
      ensures if err then State() == old(State()) else (State(), res) == Apply(old(State()), c)
      ensures err <==> fault != NoFault && IsNew(old(dedup), c) && c.key != []
      ensures disk == if IsNew(old(dedup), c) && fault != Refused then Executed(old(disk), c) else old(disk)
    {
      if c.clientID in dedup {
        var prev := dedup[c.clientID];
        if c.requestID == prev.requestID {
          if !(prev.op == c.op && prev.key == c.key && prev.value == c.value) {
            return Failed(RequestIDConflict), false;
          }
          return prev.result.(replayed := true), false;
        }
        if c.requestID < prev.requestID {
          return Failed(StaleRequest), false;
        }
      }
      res, err := Execute(c, fault);
      if err {
        return;
      }
      dedup := dedup[c.clientID := DedupEntry(c.requestID, c.op, c.key, c.value, res)];
    }

    /** The record goes to the log first; memory changes once it is synced. */
    method Execute(c: Command, fault: Fault) returns (res: Result, err: bool)
      modifies this`store, this`disk
      ensures err <==> fault != NoFault && c.key != []
      ensures store == if err then old(store) else Executed(old(store), c)
      ensures disk == if fault == Refused then old(disk) else Executed(old(disk), c)
      ensures !err ==> res == Outcome(c)
    {
      if |c.key| == 0 {
        return Failed(EmptyKey), false;
      }
      if fault == Refused {
        return Failed(EmptyKey), true;
      }
      disk := if c.op == OP_PUT then disk[c.key := c.value] else disk - {c.key};
      if fault == Unsynced {
        return Failed(EmptyKey), true;
      }
      if c.op == OP_PUT {
        store := store[c.key := c.value];
        return Result(true, false, c.key, c.value, None), false;
      }
      store := store - {c.key};
      return Result(true, false, c.key, [], None), false;
    }

    // --------------------------------------------------------------- snapshots

    /** Saves the state, unless a table or an entry is too large. */
    method CreateSnapshot(crc: Bytes -> U32) returns (r: Option<Bytes>)
      ensures r.Some? <==> Savable(State())
      ensures r.Some? ==> IsSnapshot(r.value, State(), crc)
    {
      hide BodyOf, Less;
      var pairs := Sort(store);
      var rows := Sort(dedup);
      EnumeratedSize(pairs, store);
      EnumeratedSize(rows, dedup);
      if |pairs| > MAX_ENTRIES || |rows| > MAX_ENTRIES {
        return None;
      }
      var fit := AllFit(pairs, rows);
      FitIsSavable(pairs, rows, State());
      if !fit {
        return None;
      }
      var body := EncodeBody(pairs, rows);
      return Some(body + LE(crc(body), 4));
    }

    /** Puts a saved state in place of this one. The store may fail after
        `budget` operations: then it is left as it is, and so is the table of
        clients. The log may have the operation that failed. */
    method RestoreSnapshot(data: Bytes, crc: Bytes -> U32, budget: Option<nat>, fault: Fault) returns (ok: bool)
      modifies this
      ensures ok ==>
                Decode(data, crc).Some?
                && State() == KV(Collected(Decode(data, crc).value.0), Collected(Decode(data, crc).value.1))
      ensures Decode(data, crc).None? ==> !ok && State() == old(State())
      ensures !ok ==> dedup == old(dedup)
      ensures Decode(data, crc).Some? && budget.None? ==> ok
      ensures ok && old(disk) == old(store) ==> disk == store
    {
      hide Decode, Less;
      var decoded := DecodeSnapshot(data, crc);
      if decoded.None? {
        return false;
      }
      var pairs, rows := decoded.value.0, decoded.value.1;
      var want := CollectPairs(pairs);
      var left, cleared := ClearStale(want, budget, fault);
      if !cleared {
        return false;
      }
      ok := PutAll(pairs, left, fault);
      if ok {
        dedup := CollectRows(rows);
      }
    }

    method ClearStale(want: Store, budget: Option<nat>, fault: Fault) returns (left: Option<nat>, ok: bool)
      modifies this`store, this`disk
      ensures budget.None? ==> ok && left.None?
      ensures ok ==> forall k :: k in store ==> k in want
      ensures ok && old(disk) == old(store) ==> disk == store
    {
      hide Less;
      var current := Sort(store);
      left := budget;
      for i := 0 to |current|
        invariant budget.None? ==> left.None?
        invariant old(disk) == old(store) ==> disk == store
        invariant forall k :: k in store ==> k in old(store)
        invariant forall j :: 0 <= j < i && current[j].0 in store ==> current[j].0 in want
      {
        if current[i].0 !in want {
          if left == Some(0) {
            disk := if fault == Unsynced then disk - {current[i].0} else disk;
            return left, false;
          }
          left := if left.Some? then Some(left.value - 1) else None;
          store, disk := store - {current[i].0}, disk - {current[i].0};
        }
      }
      ok := true;
      forall k | k in store
        ensures k in want
      {
        assert HasKey(current, k);
        var j :| 0 <= j < |current| && current[j].0 == k;
      }
    }

    method PutAll(pairs: seq<Pair>, budget: Option<nat>, fault: Fault) returns (ok: bool)
      requires forall k :: k in store ==> k in Collected(pairs)
      modifies this`store, this`disk
      ensures budget.None? ==> ok
      ensures ok ==> store == Collected(pairs)
      ensures ok && old(disk) == old(store) ==> disk == store
    {
      var left := budget;
      for i := 0 to |pairs|
        invariant budget.None? ==> left.None?
        invariant old(disk) == old(store) ==> disk == store
        invariant forall k :: k in store ==> k in Collected(pairs)
        invariant forall k :: k in Collected(pairs[..i]) ==> k in store && store[k] == Collected(pairs[..i])[k]
      {
        if left == Some(0) {
          disk := if fault == Unsynced then disk[pairs[i].0 := pairs[i].1] else disk;
          return false;
        }
        left := if left.Some? then Some(left.value - 1) else None;
        assert pairs[..i + 1][..i] == pairs[..i];
        CollectedHas(pairs, i);
        store, disk := store[pairs[i].0 := pairs[i].1], disk[pairs[i].0 := pairs[i].1];
      }
      assert pairs[..|pairs|] == pairs;
      return true;
    }
  }

  lemma {:induction false} CollectedHas(pairs: seq<Pair>, i: nat)
    requires i < |pairs|
    ensures pairs[i].0 in Collected(pairs)
  {
    var k := |pairs| - 1;
    if i < k {
      CollectedHas(pairs[..k], i);
    }
  }

  method CollectPairs(pairs: seq<Pair>) returns (m: Store)
    ensures m == Collected(pairs)
  {
    m := map[];
    for i := 0 to |pairs|
      invariant m == Collected(pairs[..i])
    {
      assert pairs[..i + 1][..i] == pairs[..i];
      m := m[pairs[i].0 := pairs[i].1];
    }
    assert pairs[..|pairs|] == pairs;
  }

  method CollectRows(rows: seq<Row>) returns (m: map<Bytes, DedupEntry>)
    ensures m == Collected(rows)
  {
    m := map[];
    for i := 0 to |rows|
      invariant m == Collected(rows[..i])
    {
      assert rows[..i + 1][..i] == rows[..i];
      m := m[rows[i].0 := rows[i].1];
    }
    assert rows[..|rows|] == rows;
  }

  // ---------------------------------------------------------------- encoding

  ghost predicate Fit(pairs: seq<Pair>, rows: seq<Row>) {
    && (forall i :: 0 <= i < |pairs| ==> PairFits(pairs[i]))
    && (forall i :: 0 <= i < |rows| ==> RowFits(rows[i]))
  }

  method AllFit(pairs: seq<Pair>, rows: seq<Row>) returns (fit: bool)
    ensures fit <==> Fit(pairs, rows)
  {
    for i := 0 to |pairs|
      invariant forall j :: 0 <= j < i ==> PairFits(pairs[j])
    {
      if !PairFits(pairs[i]) {
        return false;
      }
    }
    for i := 0 to |rows|
      invariant forall j :: 0 <= j < i ==> RowFits(rows[j])
    {
      if !RowFits(rows[i]) {
        return false;
      }
    }
    return true;
  }

  lemma FitIsSavable(pairs: seq<Pair>, rows: seq<Row>, s: KV)
    requires Enumerates(pairs, s.store) && Enumerates(rows, s.dedup)
    requires |s.store| <= MAX_ENTRIES && |s.dedup| <= MAX_ENTRIES
    ensures Fit(pairs, rows) <==> Savable(s)
  {
    hide PairFits, RowFits, Less;
    if Fit(pairs, rows) {
      forall k | k in s.store
        ensures PairFits((k, s.store[k]))
      {
        assert HasKey(pairs, k);
        var i :| 0 <= i < |pairs| && pairs[i].0 == k;
        assert pairs[i] == (k, s.store[k]);
      }
      forall id | id in s.dedup
        ensures RowFits((id, s.dedup[id]))
      {
        assert HasKey(rows, id);
        var i :| 0 <= i < |rows| && rows[i].0 == id;
        assert rows[i] == (id, s.dedup[id]);
      }
    }
    if Savable(s) {
      forall i | 0 <= i < |pairs|
        ensures PairFits(pairs[i])
      {
        assert pairs[i] == (pairs[i].0, s.store[pairs[i].0]);
      }
      forall i | 0 <= i < |rows|
        ensures RowFits(rows[i])
      {
        assert rows[i] == (rows[i].0, s.dedup[rows[i].0]);
      }
    }
  }

  method EncodeBody(pairs: seq<Pair>, rows: seq<Row>) returns (buf: Bytes)
    ensures buf == BodyOf(pairs, rows)
  {
    hide PairOnto, RowOnto;
    ghost var tail := LE(|rows|, 4) + RowsOnto(rows, []);
    buf := SM_MAGIC + LE(SM_FORMAT_VERSION, 4) + LE(|pairs|, 4);
    assert buf + PairsOnto(pairs, tail) == BodyOf(pairs, rows);
    assert pairs[0..] == pairs;
    for i := 0 to |pairs|
      invariant buf + PairsOnto(pairs[i..], tail) == BodyOf(pairs, rows)
    {
      assert pairs[i..][1..] == pairs[i + 1..];
      PairFront(pairs[i], PairsOnto(pairs[i + 1..], tail));
      buf := buf + PairOnto(pairs[i], []);
    }
    buf := buf + LE(|rows|, 4);
    assert rows[0..] == rows;
    for i := 0 to |rows|
      invariant buf + RowsOnto(rows[i..], []) == BodyOf(pairs, rows)
    {
      assert rows[i..][1..] == rows[i + 1..];
      RowFront(rows[i], RowsOnto(rows[i + 1..], []));
      buf := buf + RowOnto(rows[i], []);
    }
    assert buf + [] == buf;
  }

  lemma FieldFront(b: Bytes, rest: Bytes, more: Bytes)
    ensures FieldOnto(b, rest + more) == FieldOnto(b, rest) + more
  {
    assert b + (rest + more) == (b + rest) + more;
    assert LE(|b|, 4) + ((b + rest) + more) == (LE(|b|, 4) + (b + rest)) + more;
  }

  lemma PairFront(p: Pair, rest: Bytes)
    ensures PairOnto(p, rest) == PairOnto(p, []) + rest
  {
    hide FieldOnto;
    assert [] + rest == rest;
    FieldFront(p.1, [], rest);
    FieldFront(p.0, FieldOnto(p.1, []), rest);
  }

  lemma ResultFront(r: Result, rest: Bytes, more: Bytes)
    ensures ResultOnto(r, rest + more) == ResultOnto(r, rest) + more
  {
    hide FieldOnto;
    var code := [ErrorCode(r.err)];
    assert code + (rest + more) == (code + rest) + more;
    FieldFront(r.value, code + rest, more);
    FieldFront(r.key, FieldOnto(r.value, code + rest), more);
    var fields := FieldOnto(r.key, FieldOnto(r.value, code + rest));
    assert [Flag(r.applied)] + ([Flag(r.replayed)] + (fields + more))
           == ([Flag(r.applied)] + ([Flag(r.replayed)] + fields)) + more;
  }

  lemma RowFront(r: Row, rest: Bytes)
    ensures RowOnto(r, rest) == RowOnto(r, []) + rest
  {
    hide FieldOnto, ResultOnto;
    assert [] + rest == rest;
    ResultFront(r.1.result, [], rest);
    var result := ResultOnto(r.1.result, []);
    FieldFront(r.1.value, result, rest);
    FieldFront(r.1.key, FieldOnto(r.1.value, result), rest);
    var fields := FieldOnto(r.1.key, FieldOnto(r.1.value, result));
    assert LE(r.1.requestID, 8) + ([r.1.op] + (fields + rest)) == (LE(r.1.requestID, 8) + ([r.1.op] + fields)) + rest;
    FieldFront(r.0, LE(r.1.requestID, 8) + ([r.1.op] + fields), rest);
  }

  // ---------------------------------------------------------------- decoding

  function PairsThen(pairs: seq<Pair>, rest: Option<(seq<Pair>, Bytes)>): Option<(seq<Pair>, Bytes)> {
    if rest.None? then None else Some((pairs + rest.value.0, rest.value.1))
  }

  function RowsThen(rows: seq<Row>, rest: Option<(seq<Row>, Bytes)>): Option<(seq<Row>, Bytes)> {
    if rest.None? then None else Some((rows + rest.value.0, rest.value.1))
  }

  method DecodePairs(p: Bytes, n: nat) returns (r: Option<(seq<Pair>, Bytes)>)
    ensures r == ReadPairs(p, n)
  {
    hide ReadPair;
    var pairs, at := [], p;
    assert ReadPairs(p, n).Some? ==> [] + ReadPairs(p, n).value.0 == ReadPairs(p, n).value.0;
    for i := 0 to n
      invariant PairsThen(pairs, ReadPairs(at, n - i)) == ReadPairs(p, n)
    {
      var next := ReadPair(at);
      if next.None? {
        return None;
      }
      ghost var rest := ReadPairs(next.value.1, n - i - 1);
      assert rest.Some? ==> pairs + ([next.value.0] + rest.value.0) == (pairs + [next.value.0]) + rest.value.0;
      pairs, at := pairs + [next.value.0], next.value.1;
    }
    assert pairs + [] == pairs;
    return Some((pairs, at));
  }

  method DecodeRows(p: Bytes, n: nat) returns (r: Option<(seq<Row>, Bytes)>)
    ensures r == ReadRows(p, n)
  {
    hide ReadRow;
    var rows, at := [], p;
    assert ReadRows(p, n).Some? ==> [] + ReadRows(p, n).value.0 == ReadRows(p, n).value.0;
    for i := 0 to n
      invariant RowsThen(rows, ReadRows(at, n - i)) == ReadRows(p, n)
    {
      var next := ReadRow(at);
      if next.None? {
        return None;
      }
      ghost var rest := ReadRows(next.value.1, n - i - 1);
      assert rest.Some? ==> rows + ([next.value.0] + rest.value.0) == (rows + [next.value.0]) + rest.value.0;
      rows, at := rows + [next.value.0], next.value.1;
    }
    assert rows + [] == rows;
    return Some((rows, at));
  }

  method DecodeSnapshot(data: Bytes, crc: Bytes -> U32) returns (r: Option<(seq<Pair>, seq<Row>)>)
    ensures r == Decode(data, crc)
  {
    hide ReadPairs, ReadRows, Value;
    if |data| > MAX_SNAPSHOT_BYTES || |data| < 20 || data[..8] != SM_MAGIC || Value(data[8..12]) != SM_FORMAT_VERSION {
      return None;
    }
    var body := data[..|data| - 4];
    if crc(body) != Value(data[|data| - 4..]) {
      return None;
    }
    var p := body[12..];
    if |p| < 4 || Value(p[..4]) > MAX_ENTRIES {
      return None;
    }
    var pairs := DecodePairs(p[4..], Value(p[..4]));
    if pairs.None? {
      return None;
    }
    var q := pairs.value.1;
    if |q| < 4 || Value(q[..4]) > MAX_ENTRIES {
      return None;
    }
    var rows := DecodeRows(q[4..], Value(q[..4]));
    if rows.None? || rows.value.1 != [] {
      return None;
    }
    return Some((pairs.value.0, rows.value.0));
  }

  // ------------------------------------------------------- saving and restoring

  /** What a snapshot of `s` decodes to is `s`, and it decodes exactly if it is
      not larger than the decoder takes. */
  lemma SnapshotDecodes(data: Bytes, s: KV, crc: Bytes -> U32)
    requires IsSnapshot(data, s, crc) && Savable(s) && WellTyped(s)
    ensures Decode(data, crc).Some? <==> |data| <= MAX_SNAPSHOT_BYTES
    ensures Decode(data, crc).Some? ==>
              s == KV(Collected(Decode(data, crc).value.0), Collected(Decode(data, crc).value.1))
  {
    hide Decode, EncodeRows, PairFits, RowFits, Less;
    var pairs, rows :| Enumerates(pairs, s.store) && Enumerates(rows, s.dedup) && data == EncodeRows(pairs, rows, crc);
    EnumeratedSize(pairs, s.store);
    EnumeratedSize(rows, s.dedup);
    FitIsSavable(pairs, rows, s);
    RowsRoundTrip(pairs, rows, crc);
    CollectedIsMap(pairs, s.store);
    CollectedIsMap(rows, s.dedup);
  }

  /** Restoring a snapshot of one machine into another, whatever earlier and
      perhaps interrupted restores have left there, makes the two equal. */
  method CopyState(a: KVStateMachine, b: KVStateMachine, crc: Bytes -> U32) returns (copied: bool)
    requires a != b && WellTyped(a.State())
    modifies b
    ensures copied ==> b.State() == a.State() == old(a.State())
    ensures copied <==> Savable(old(a.State())) && forall data :: IsSnapshot(data, old(a.State()), crc) ==>
                                                     |data| <= MAX_SNAPSHOT_BYTES
  {
    hide Decode, IsSnapshot, Savable, WellTyped, Collected;
    var data := a.CreateSnapshot(crc);
    if data.None? {
      return false;
    }
    SnapshotDecodes(data.value, a.State(), crc);
    forall other | IsSnapshot(other, a.State(), crc)
      ensures other == data.value
    {
      SnapshotUnique(other, data.value, a.State(), crc);
    }
    copied := b.RestoreSnapshot(data.value, crc, None, NoFault);
  }
}
