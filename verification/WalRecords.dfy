/** Records of the write-ahead log and what a replay of a log file gives. */
module WalRecords {
  import opened ByteStrings
  import opened Options
  import opened LittleEndian

  const HEADER_SIZE: nat := 13
  const MAX_KEY_SIZE: nat := 0x10_0000
  const MAX_VALUE_SIZE: nat := 0x400_0000
  const OP_PUT: Byte := 1
  const OP_DELETE: Byte := 2

  datatype Record = Record(op: Byte, key: Bytes, value: Bytes)

  predicate Loggable(rec: Record) {
    && (rec.op == OP_PUT || rec.op == OP_DELETE)
    && 0 < |rec.key| <= MAX_KEY_SIZE
    && |rec.value| <= MAX_VALUE_SIZE
  }

  predicate AllLoggable(recs: seq<Record>) {
    forall i :: 0 <= i < |recs| ==> Loggable(recs[i])
  }

  // ---------------------------------------------------------------- encoding

  function Body(rec: Record): Bytes {
    [rec.op] + LE(|rec.key|, 4) + LE(|rec.value|, 4) + rec.key + rec.value
  }

  function EncodeRecord(rec: Record, crc: Bytes -> U32): (data: Bytes)
    ensures |data| == HEADER_SIZE + |rec.key| + |rec.value|
  {
    LE(crc(Body(rec)), 4) + Body(rec)
  }

  method Encode(rec: Record, crc: Bytes -> U32) returns (r: Option<Bytes>)
    ensures r == if Loggable(rec) then Some(EncodeRecord(rec, crc)) else None
  {
    if (rec.op != OP_PUT && rec.op != OP_DELETE) || |rec.key| == 0 || |rec.key| > MAX_KEY_SIZE
    || |rec.value| > MAX_VALUE_SIZE {
      return None;
    }
    var body := [rec.op] + LE(|rec.key|, 4) + LE(|rec.value|, 4) + rec.key + rec.value;
    return Some(LE(crc(body), 4) + body);
  }

  function EncodeAll(recs: seq<Record>, crc: Bytes -> U32): Bytes {
    if recs == [] then [] else EncodeAll(recs[..|recs| - 1], crc) + EncodeRecord(recs[|recs| - 1], crc)
  }

  // ---------------------------------------------------------------- decoding

  /** What stands at the start of `data`: a record, the beginning of one that
      ends too soon, or something that is no record. */
  datatype Parsed = Whole(rec: Record, size: nat) | Torn | Corrupt

  function Parse(data: Bytes, crc: Bytes -> U32): (r: Parsed)
    ensures r.Whole? ==> HEADER_SIZE < r.size <= |data| && Loggable(r.rec)
  {
    if |data| < HEADER_SIZE then Torn
    else
      var op, keyLen, valLen := data[4], Value(data[5..9]), Value(data[9..13]);
      if (op != OP_PUT && op != OP_DELETE) || keyLen == 0 || keyLen > MAX_KEY_SIZE || valLen > MAX_VALUE_SIZE
        then Corrupt
      else
        var size := HEADER_SIZE + keyLen + valLen;
        if |data| < size then Torn
        else if crc(data[4..size]) != Value(data[0..4]) then Corrupt
        else Whole(Record(op, data[13..13 + keyLen], data[13 + keyLen..size]), size)
  }

  /** The outcome of a replay: the records handed out, how much of the file
      they take, and whether the file is usable. */
  datatype Replayed = Replayed(records: seq<Record>, end: nat, ok: bool)

  function Prepend(rec: Record, size: nat, r: Replayed): Replayed {
    Replayed([rec] + r.records, size + r.end, r.ok)
  }

  function ReplayBytes(data: Bytes, crc: Bytes -> U32): (r: Replayed)
    ensures r.end <= |data|
    decreases |data|
  {
    if data == [] then Replayed([], 0, true)
    else
      match Parse(data, crc)
      case Whole(rec, size) => Prepend(rec, size, ReplayBytes(data[size..], crc))
      case Torn => Replayed([], 0, true)
      case Corrupt => Replayed([], 0, false)
  }

  // -------------------------------------------------------------- whole files

  lemma ParsesRecord(rec: Record, rest: Bytes, crc: Bytes -> U32)
    requires Loggable(rec)
    ensures Parse(EncodeRecord(rec, crc) + rest, crc) == Whole(rec, |EncodeRecord(rec, crc)|)
    ensures (EncodeRecord(rec, crc) + rest)[|EncodeRecord(rec, crc)|..] == rest
  {
    var data := EncodeRecord(rec, crc) + rest;
    var size := |EncodeRecord(rec, crc)|;
    Value32(|rec.key|);
    Value32(|rec.value|);
    Value32(crc(Body(rec)));
    assert data[0..4] == LE(crc(Body(rec)), 4) && data[4..size] == Body(rec);
    assert data[5..9] == LE(|rec.key|, 4) && data[9..13] == LE(|rec.value|, 4);
    assert data[13..13 + |rec.key|] == rec.key && data[13 + |rec.key|..size] == rec.value;
  }

  /** A record that was cut off anywhere is torn, never corrupt and never
      mistaken for another. */
  lemma ParsesCutRecord(rec: Record, n: nat, crc: Bytes -> U32)
    requires Loggable(rec) && n < |EncodeRecord(rec, crc)|
    ensures Parse(EncodeRecord(rec, crc)[..n], crc) == Torn
  {
    if n >= HEADER_SIZE {
      var whole := EncodeRecord(rec, crc);
      Value32(|rec.key|);
      Value32(|rec.value|);
      assert whole[5..9] == LE(|rec.key|, 4) && whole[9..13] == LE(|rec.value|, 4) && whole[4] == rec.op;
      assert whole[..n][5..9] == whole[5..9] && whole[..n][9..13] == whole[9..13];
    }
  }

  lemma {:induction false} EncodeFront(recs: seq<Record>, crc: Bytes -> U32)
    requires recs != []
    ensures EncodeAll(recs, crc) == EncodeRecord(recs[0], crc) + EncodeAll(recs[1..], crc)
  {
    hide EncodeRecord;
    var k := |recs| - 1;
    if k == 0 {
      assert recs[..0] == [] && recs[1..] == [];
    } else {
      EncodeFront(recs[..k], crc);
      assert recs[..k][1..] == recs[1..][..k - 1] && recs[1..][k - 1] == recs[k] && recs[..k][0] == recs[0];
      var a, b, c := EncodeRecord(recs[0], crc), EncodeAll(recs[1..][..k - 1], crc), EncodeRecord(recs[k], crc);
      assert (a + b) + c == a + (b + c);
    }
  }

  lemma {:induction false} EncodeSplit(a: seq<Record>, b: seq<Record>, crc: Bytes -> U32)
    ensures EncodeAll(a + b, crc) == EncodeAll(a, crc) + EncodeAll(b, crc)
  {
    hide EncodeRecord;
    if b == [] {
      assert a + b == a;
    } else {
      var k := |b| - 1;
      EncodeSplit(a, b[..k], crc);
      assert (a + b)[..|a + b| - 1] == a + b[..k];
    }
  }

  /** After whole records, the replay goes on with whatever follows. */
  lemma {:induction false} ReplayAfter(recs: seq<Record>, rest: Bytes, crc: Bytes -> U32)
    requires AllLoggable(recs)
    ensures var r := ReplayBytes(rest, crc);
            ReplayBytes(EncodeAll(recs, crc) + rest, crc)
              == Replayed(recs + r.records, |EncodeAll(recs, crc)| + r.end, r.ok)
  {
    hide Parse, EncodeRecord;
    if recs == [] {
      assert EncodeAll(recs, crc) + rest == rest;
      assert recs + ReplayBytes(rest, crc).records == ReplayBytes(rest, crc).records;
    } else {
      var first, tail := EncodeRecord(recs[0], crc), EncodeAll(recs[1..], crc);
      EncodeFront(recs, crc);
      assert (first + tail) + rest == first + (tail + rest);
      ParsesRecord(recs[0], tail + rest, crc);
      ReplayAfter(recs[1..], rest, crc);
      var r := ReplayBytes(rest, crc);
      assert [recs[0]] + (recs[1..] + r.records) == recs + r.records;
    }
  }

  /** How many of the records lie within the first `n` bytes. */
  function WholeWithin(recs: seq<Record>, n: nat, crc: Bytes -> U32): (k: nat)
    ensures k <= |recs| && |EncodeAll(recs[..k], crc)| <= n
    ensures k < |recs| ==> |EncodeAll(recs[..k + 1], crc)| > n
  {
    assert recs[..|recs|] == recs;
    if |EncodeAll(recs, crc)| <= n then |recs|
    else
      var m := |recs| - 1;
      var k := WholeWithin(recs[..m], n, crc);
      assert recs[..m][..k] == recs[..k] && (k < m ==> recs[..m][..k + 1] == recs[..k + 1]);
      k
  }

  lemma EncodeLonger(recs: seq<Record>, i: nat, j: nat, crc: Bytes -> U32)
    requires i <= j <= |recs|
    ensures EncodeAll(recs[..i], crc) <= EncodeAll(recs[..j], crc)
  {
    EncodeSplit(recs[..i], recs[i..j], crc);
    assert recs[..i] + recs[i..j] == recs[..j];
  }

  /** The records within the first `n` bytes are all that fit there. */
  lemma WholeIsMost(recs: seq<Record>, n: nat, j: nat, crc: Bytes -> U32)
    requires j <= |recs| && |EncodeAll(recs[..j], crc)| <= n
    ensures j <= WholeWithin(recs, n, crc)
  {
    hide EncodeAll;
    var k := WholeWithin(recs, n, crc);
    if j > k {
      EncodeLonger(recs, k + 1, j, crc);
    }
  }

  /** Where a file is cut, whole records are followed by part of the next. */
  lemma CutAt(recs: seq<Record>, n: nat, crc: Bytes -> U32)
    requires n <= |EncodeAll(recs, crc)|
    ensures var k := WholeWithin(recs, n, crc);
            var at := |EncodeAll(recs[..k], crc)|;
            && (k < |recs| ==> n - at < |EncodeRecord(recs[k], crc)|)
            && EncodeAll(recs, crc)[..n] == EncodeAll(recs[..k], crc) + if k < |recs|
                                                                        then EncodeRecord(recs[k], crc)[..n - at]
                                                                          else []
  {
    hide EncodeRecord, WholeWithin;
    var k := WholeWithin(recs, n, crc);
    var at := |EncodeAll(recs[..k], crc)|;
    if k < |recs| {
      EncodeLonger(recs, k + 1, |recs|, crc);
      assert recs[..|recs|] == recs && recs[..k + 1][..k] == recs[..k];
      assert EncodeAll(recs, crc)[..n] == EncodeAll(recs[..k + 1], crc)[..n];
    } else {
      assert recs[..k] == recs;
    }
  }

  /** A file that was cut off anywhere replays to the records that are whole,
      and ends where the last of them ends. */
  lemma ReplayCut(recs: seq<Record>, n: nat, crc: Bytes -> U32)
    requires AllLoggable(recs) && n <= |EncodeAll(recs, crc)|
    ensures var k := WholeWithin(recs, n, crc);
            ReplayBytes(EncodeAll(recs, crc)[..n], crc) == Replayed(recs[..k], |EncodeAll(recs[..k], crc)|, true)
  {
    hide EncodeRecord, EncodeAll, Parse, WholeWithin;
    var k := WholeWithin(recs, n, crc);
    CutAt(recs, n, crc);
    var tail := if k < |recs| then EncodeRecord(recs[k], crc)[..n - |EncodeAll(recs[..k], crc)|] else [];
    ReplayAfter(recs[..k], tail, crc);
    if k < |recs| {
      ParsesCutRecord(recs[k], |tail|, crc);
    }
    assert ReplayBytes(tail, crc) == Replayed([], 0, true);
    assert recs[..k] + [] == recs[..k];
  }
}
