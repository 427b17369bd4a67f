/** Snapshots of the state machine: its bytes, and putting them back. */
module KvSnapshots {
  import opened ByteStrings
  import opened Options
  import opened LittleEndian
  import opened SortedRows
  import opened KvCommands
  import opened KvMachine

  const SM_MAGIC: Bytes := [70, 111, 114, 103, 101, 83, 77, 49]
  const SM_FORMAT_VERSION: nat := 1
  const MAX_ENTRIES: nat := 0x10_0000
  const MAX_SNAPSHOT_BYTES: nat := 0x2000_0000

  type Pair = (Bytes, Bytes)
  type Row = (Bytes, DedupEntry)

  // ------------------------------------------------------- what can be saved

  predicate PairFits(p: Pair) {
    |p.0| <= MAX_KEY_LEN && |p.1| <= MAX_VALUE_LEN
  }

  predicate RowFits(r: Row) {
    && |r.0| <= MAX_CLIENT_ID_LEN
    && |r.1.key| <= MAX_KEY_LEN && |r.1.value| <= MAX_VALUE_LEN
    && |r.1.result.key| <= MAX_KEY_LEN && |r.1.result.value| <= MAX_VALUE_LEN
  }

  /** The entry is one that the machine could have made. */
  predicate Proper(e: DedupEntry) {
    e.requestID < TWO64 && (e.op == OP_PUT || e.op == OP_DELETE)
  }

  ghost predicate Savable(s: KV) {
    && |s.store| <= MAX_ENTRIES
    && |s.dedup| <= MAX_ENTRIES
    && (forall k :: k in s.store ==> PairFits((k, s.store[k])))
    && (forall id :: id in s.dedup ==> RowFits((id, s.dedup[id])))
  }

  ghost predicate WellTyped(s: KV) {
    forall id :: id in s.dedup ==> Proper(s.dedup[id])
  }

  // ---------------------------------------------------------------- encoding

  function ErrorCode(e: Option<Error>): Byte {
    match e
    case None => 0
    case Some(RequestIDConflict) => 1
    case Some(StaleRequest) => 2
    case Some(EmptyKey) => 3
  }

  function Flag(b: bool): Byte {
    if b then 1 else 0
  }

  /** A length-prefixed field in front of `rest`. */
  function FieldOnto(b: Bytes, rest: Bytes): Bytes {
    LE(|b|, 4) + (b + rest)
  }

  function PairOnto(p: Pair, rest: Bytes): Bytes {
    FieldOnto(p.0, FieldOnto(p.1, rest))
  }

  function ResultOnto(r: Result, rest: Bytes): Bytes {
    [Flag(r.applied)] + ([Flag(r.replayed)] + FieldOnto(r.key, FieldOnto(r.value, [ErrorCode(r.err)] + rest)))
  }

  function RowOnto(r: Row, rest: Bytes): Bytes {
    FieldOnto(r.0,
              LE(r.1.requestID, 8)
                + ([r.1.op] + FieldOnto(r.1.key, FieldOnto(r.1.value, ResultOnto(r.1.result, rest)))))
  }

  function PairsOnto(pairs: seq<Pair>, rest: Bytes): Bytes {
    if pairs == [] then rest else PairOnto(pairs[0], PairsOnto(pairs[1..], rest))
  }

  function RowsOnto(rows: seq<Row>, rest: Bytes): Bytes {
    if rows == [] then rest else RowOnto(rows[0], RowsOnto(rows[1..], rest))
  }

  function BodyOf(pairs: seq<Pair>, rows: seq<Row>): Bytes {
    SM_MAGIC + (LE(SM_FORMAT_VERSION, 4) + (LE(|pairs|, 4) + PairsOnto(pairs, LE(|rows|, 4) + RowsOnto(rows, []))))
  }

  function EncodeRows(pairs: seq<Pair>, rows: seq<Row>, crc: Bytes -> U32): Bytes {
    Sealed(BodyOf(pairs, rows), crc)
  }

  /** `data` is the snapshot of `s`: both tables in key order. */
  ghost predicate IsSnapshot(data: Bytes, s: KV, crc: Bytes -> U32) {
    exists pairs, rows :: Enumerates(pairs, s.store) && Enumerates(rows, s.dedup)
      && data == EncodeRows(pairs, rows, crc)
  }

  /** A state has one snapshot. */
  lemma SnapshotUnique(a: Bytes, b: Bytes, s: KV, crc: Bytes -> U32)
    requires IsSnapshot(a, s, crc) && IsSnapshot(b, s, crc)
    ensures a == b
  {
    hide EncodeRows, Enumerates;
    var p, r :| Enumerates(p, s.store) && Enumerates(r, s.dedup) && a == EncodeRows(p, r, crc);
    var p', r' :| Enumerates(p', s.store) && Enumerates(r', s.dedup) && b == EncodeRows(p', r', crc);
    EnumerationUnique(p, p', s.store);
    EnumerationUnique(r, r', s.dedup);
  }

  // ---------------------------------------------------------------- decoding

  function ErrorOf(code: Byte): Option<Option<Error>> {
    if code == 0 then Some(None)
    else if code == 1 then Some(Some(RequestIDConflict))
    else if code == 2 then Some(Some(StaleRequest))
    else if code == 3 then Some(Some(EmptyKey))
    else None
  }

  /** A field of at most `max` bytes, and what follows it. */
  function ReadField(p: Bytes, max: nat): (r: Option<(Bytes, Bytes)>)
    ensures r.Some? ==> |r.value.1| + 4 <= |p|
  {
    if |p| < 4 then None
    else
      var n := Value(p[..4]);
      if n > max || |p| - 4 < n then None else Some((p[4..4 + n], p[4 + n..]))
  }

  function ReadPair(p: Bytes): Option<(Pair, Bytes)> {
    var key := ReadField(p, MAX_KEY_LEN);
    if key.None? then None
    else
      var value := ReadField(key.value.1, MAX_VALUE_LEN);
      if value.None? then None else Some(((key.value.0, value.value.0), value.value.1))
  }

  function ReadResult(p: Bytes): Option<(Result, Bytes)> {
    if |p| < 2 then None
    else
      var key := ReadField(p[2..], MAX_KEY_LEN);
      if key.None? then None
      else
        var value := ReadField(key.value.1, MAX_VALUE_LEN);
        if value.None? || |value.value.1| < 1 then None
        else
          var err := ErrorOf(value.value.1[0]);
          if err.None? then None
          else Some((Result(p[0] != 0, p[1] != 0, key.value.0, value.value.0, err.value), value.value.1[1..]))
  }

  function ReadEntry(p: Bytes): Option<(DedupEntry, Bytes)> {
    if |p| < 9 then None
    else
      var requestID, op := Value(p[..8]), p[8];
      if op != OP_PUT && op != OP_DELETE then None
      else
        var key := ReadField(p[9..], MAX_KEY_LEN);
        if key.None? then None
        else
          var value := ReadField(key.value.1, MAX_VALUE_LEN);
          if value.None? then None
          else
            var result := ReadResult(value.value.1);
            if result.None? then None
            else Some((DedupEntry(requestID, op, key.value.0, value.value.0, result.value.0), result.value.1))
  }

  function ReadRow(p: Bytes): Option<(Row, Bytes)> {
    var id := ReadField(p, MAX_CLIENT_ID_LEN);
    if id.None? then None
    else
      var e := ReadEntry(id.value.1);
      if e.None? then None else Some(((id.value.0, e.value.0), e.value.1))
  }

  function ReadPairs(p: Bytes, n: nat): Option<(seq<Pair>, Bytes)> {
    if n == 0 then Some(([], p))
    else
      var first := ReadPair(p);
      if first.None? then None
      else
        var rest := ReadPairs(first.value.1, n - 1);
        if rest.None? then None else Some(([first.value.0] + rest.value.0, rest.value.1))
  }

  function ReadRows(p: Bytes, n: nat): Option<(seq<Row>, Bytes)> {
    if n == 0 then Some(([], p))
    else
      var first := ReadRow(p);
      if first.None? then None
      else
        var rest := ReadRows(first.value.1, n - 1);
        if rest.None? then None else Some(([first.value.0] + rest.value.0, rest.value.1))
  }

  /** The tables that come after the header. */
  function ReadTables(p: Bytes): Option<(seq<Pair>, seq<Row>)> {
    if |p| < 4 || Value(p[..4]) > MAX_ENTRIES then None
    else
      var pairs := ReadPairs(p[4..], Value(p[..4]));
      if pairs.None? then None
      else
        var q := pairs.value.1;
        if |q| < 4 || Value(q[..4]) > MAX_ENTRIES then None
        else
          var rows := ReadRows(q[4..], Value(q[..4]));
          if rows.None? || rows.value.1 != [] then None else Some((pairs.value.0, rows.value.0))
  }

  function Decode(data: Bytes, crc: Bytes -> U32): Option<(seq<Pair>, seq<Row>)> {
    if |data| > MAX_SNAPSHOT_BYTES || |data| < 20 || data[..8] != SM_MAGIC || Value(data[8..12]) != SM_FORMAT_VERSION
      then None
    else
      var body := Unsealed(data, crc);
      if body.None? then None else ReadTables(body.value[12..])
  }

  // --------------------------------------------------------------- round trip

  lemma ReadsField(b: Bytes, rest: Bytes, max: nat)
    requires |b| <= max < TWO32
    ensures ReadField(FieldOnto(b, rest), max) == Some((b, rest))
  {
    var p := FieldOnto(b, rest);
    Value32(|b|);
    assert p[..4] == LE(|b|, 4) && p[4..4 + |b|] == b && p[4 + |b|..] == rest;
  }

  lemma ReadsPair(p: Pair, rest: Bytes)
    requires PairFits(p)
    ensures ReadPair(PairOnto(p, rest)) == Some((p, rest))
  {
    hide FieldOnto, ReadField;
    ReadsField(p.0, FieldOnto(p.1, rest), MAX_KEY_LEN);
    ReadsField(p.1, rest, MAX_VALUE_LEN);
  }

  lemma ReadsResult(r: Result, rest: Bytes)
    requires |r.key| <= MAX_KEY_LEN && |r.value| <= MAX_VALUE_LEN
    ensures ReadResult(ResultOnto(r, rest)) == Some((r, rest))
  {
    hide FieldOnto, ReadField;
    var fields := FieldOnto(r.key, FieldOnto(r.value, [ErrorCode(r.err)] + rest));
    assert ResultOnto(r, rest)[2..] == fields;
    ReadsField(r.key, FieldOnto(r.value, [ErrorCode(r.err)] + rest), MAX_KEY_LEN);
    ReadsField(r.value, [ErrorCode(r.err)] + rest, MAX_VALUE_LEN);
    assert ([ErrorCode(r.err)] + rest)[1..] == rest;
  }

  lemma ReadsRow(r: Row, rest: Bytes)
    requires RowFits(r) && Proper(r.1)
    ensures ReadRow(RowOnto(r, rest)) == Some((r, rest))
  {
    hide FieldOnto, ReadField, ReadResult, ResultOnto;
    var result := ResultOnto(r.1.result, rest);
    var fields := FieldOnto(r.1.key, FieldOnto(r.1.value, result));
    var entry := LE(r.1.requestID, 8) + ([r.1.op] + fields);
    ReadsField(r.0, entry, MAX_CLIENT_ID_LEN);
    Value64(r.1.requestID);
    assert entry[..8] == LE(r.1.requestID, 8) && entry[8] == r.1.op && entry[9..] == fields;
    ReadsField(r.1.key, FieldOnto(r.1.value, result), MAX_KEY_LEN);
    ReadsField(r.1.value, result, MAX_VALUE_LEN);
    ReadsResult(r.1.result, rest);
  }

  lemma {:induction false} ReadsPairs(pairs: seq<Pair>, rest: Bytes)
    requires forall i :: 0 <= i < |pairs| ==> PairFits(pairs[i])
    ensures ReadPairs(PairsOnto(pairs, rest), |pairs|) == Some((pairs, rest))
  {
    hide ReadPair, PairOnto;
    if pairs != [] {
      ReadsPair(pairs[0], PairsOnto(pairs[1..], rest));
      ReadsPairs(pairs[1..], rest);
      assert [pairs[0]] + pairs[1..] == pairs;
    }
  }

  lemma {:induction false} ReadsRows(rows: seq<Row>, rest: Bytes)
    requires forall i :: 0 <= i < |rows| ==> RowFits(rows[i]) && Proper(rows[i].1)
    ensures ReadRows(RowsOnto(rows, rest), |rows|) == Some((rows, rest))
  {
    hide ReadRow, RowOnto;
    if rows != [] {
      ReadsRow(rows[0], RowsOnto(rows[1..], rest));
      ReadsRows(rows[1..], rest);
      assert [rows[0]] + rows[1..] == rows;
    }
  }

  lemma ReadsTables(pairs: seq<Pair>, rows: seq<Row>)
    requires |pairs| <= MAX_ENTRIES && |rows| <= MAX_ENTRIES
    requires forall i :: 0 <= i < |pairs| ==> PairFits(pairs[i])
    requires forall i :: 0 <= i < |rows| ==> RowFits(rows[i]) && Proper(rows[i].1)
    ensures ReadTables(LE(|pairs|, 4) + PairsOnto(pairs, LE(|rows|, 4) + RowsOnto(rows, []))) == Some((pairs, rows))
  {
    hide PairsOnto, RowsOnto, ReadPairs, ReadRows;
    var tail := LE(|rows|, 4) + RowsOnto(rows, []);
    var p := LE(|pairs|, 4) + PairsOnto(pairs, tail);
    Value32(|pairs|);
    Value32(|rows|);
    assert p[..4] == LE(|pairs|, 4) && p[4..] == PairsOnto(pairs, tail);
    assert tail[..4] == LE(|rows|, 4) && tail[4..] == RowsOnto(rows, []);
    ReadsPairs(pairs, tail);
    ReadsRows(rows, []);
  }

  /** What was encoded is decoded, unless it is larger than the decoder takes. */
  lemma RowsRoundTrip(pairs: seq<Pair>, rows: seq<Row>, crc: Bytes -> U32)
    requires |pairs| <= MAX_ENTRIES && |rows| <= MAX_ENTRIES
    requires forall i :: 0 <= i < |pairs| ==> PairFits(pairs[i])
    requires forall i :: 0 <= i < |rows| ==> RowFits(rows[i]) && Proper(rows[i].1)
    ensures var data := EncodeRows(pairs, rows, crc);
            Decode(data, crc) == if |data| <= MAX_SNAPSHOT_BYTES then Some((pairs, rows)) else None
  {
    hide PairsOnto, RowsOnto, ReadTables;
    var tables := LE(|pairs|, 4) + PairsOnto(pairs, LE(|rows|, 4) + RowsOnto(rows, []));
    var body, data := BodyOf(pairs, rows), EncodeRows(pairs, rows, crc);
    PairsGrow(pairs, LE(|rows|, 4) + RowsOnto(rows, []));
    SealedUnseals(body, crc);
    Value32(SM_FORMAT_VERSION);
    assert body == SM_MAGIC + (LE(SM_FORMAT_VERSION, 4) + tables);
    assert body[12..] == tables;
    assert data[..8] == SM_MAGIC && data[8..12] == LE(SM_FORMAT_VERSION, 4);
    ReadsTables(pairs, rows);
  }

  lemma {:induction false} PairsGrow(pairs: seq<Pair>, rest: Bytes)
    ensures |PairsOnto(pairs, rest)| >= |rest|
  {
    if pairs != [] {
      PairsGrow(pairs[1..], rest);
    }
  }
}
