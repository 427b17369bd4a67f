/** Data blocks of an SSTable: entries one after the other, sealed by a
    checksum. */
module SstBlocks {
  import opened ByteStrings
  import opened Options
  import opened Tables
  import opened LittleEndian

  const MAX_KEY_SIZE: nat := 0x10_0000
  const MAX_VALUE_SIZE: nat := 0x400_0000
  const ENTRY_HEADER_SIZE: nat := 9

  predicate Storable(e: Entry) {
    0 < |e.key| <= MAX_KEY_SIZE && |e.value| <= MAX_VALUE_SIZE
  }

  /** A tombstone has no value. */
  predicate Normal(e: Entry) {
    e.tombstone ==> e.value == []
  }

  predicate Packable(entries: seq<Entry>) {
    forall i :: 0 <= i < |entries| ==> Storable(entries[i]) && Normal(entries[i])
  }

  // ---------------------------------------------------------------- encoding

  function EncodeEntry(e: Entry): Bytes {
    var value := if e.tombstone then [] else e.value;
    [if e.tombstone then 1 else 0] + LE(|e.key|, 4) + LE(|value|, 4) + e.key + value
  }

  function EncodeEntries(entries: seq<Entry>): Bytes {
    if entries == [] then [] else EncodeEntries(entries[..|entries| - 1]) + EncodeEntry(entries[|entries| - 1])
  }

  function EncodeBlock(entries: seq<Entry>, crc: Bytes -> U32): Bytes {
    Sealed(EncodeEntries(entries), crc)
  }

  method Encode(entries: seq<Entry>, crc: Bytes -> U32) returns (r: Option<Bytes>)
    ensures r.Some? <==> forall i :: 0 <= i < |entries| ==> Storable(entries[i])
    ensures r.Some? ==> r.value == EncodeBlock(entries, crc)
  {
    for i := 0 to |entries|
      invariant forall j :: 0 <= j < i ==> Storable(entries[j])
    {
      var e := entries[i];
      if |e.key| == 0 || |e.key| > MAX_KEY_SIZE || |e.value| > MAX_VALUE_SIZE {
        return None;
      }
    }
    var buf: Bytes := [];
    for i := 0 to |entries|
      invariant buf == EncodeEntries(entries[..i])
    {
      assert entries[..i + 1][..i] == entries[..i];
      var e := entries[i];
      var flags: Byte, value := 0, e.value;
      if e.tombstone {
        flags, value := 1, [];
      }
      buf := buf + ([flags] + LE(|e.key|, 4) + LE(|value|, 4) + e.key + value);
    }
    assert entries[..|entries|] == entries;
    return Some(buf + LE(crc(buf), 4));
  }

  // ---------------------------------------------------------------- decoding

  /** The first entry of `p` and how many bytes it takes. */
  function ParseEntry(p: Bytes): (r: Option<(Entry, nat)>)
    ensures r.Some? ==> ENTRY_HEADER_SIZE < r.value.1 <= |p| && Storable(r.value.0)
  {
    if |p| < ENTRY_HEADER_SIZE then None
    else
      var flags, keyLen, valLen := p[0], Value(p[1..5]), Value(p[5..9]);
      if keyLen == 0 || keyLen > MAX_KEY_SIZE || valLen > MAX_VALUE_SIZE then None
      else if |p| - ENTRY_HEADER_SIZE < keyLen then None
      else
        var key := p[ENTRY_HEADER_SIZE..ENTRY_HEADER_SIZE + keyLen];
        var tombstone := flags % 2 == 1;
        var start := ENTRY_HEADER_SIZE + keyLen;
        if tombstone && valLen != 0 then None
        else if |p| - start < valLen then None
        else Some((Entry(key, p[start..start + valLen], tombstone), start + valLen))
  }

  function ParseEntries(p: Bytes): Option<seq<Entry>>
    decreases |p|
  {
    if p == [] then Some([])
    else
      var first := ParseEntry(p);
      if first.None? then None
      else Onto([first.value.0], ParseEntries(p[first.value.1..]))
  }

  function DecodeBlock(data: Bytes, crc: Bytes -> U32): Option<seq<Entry>> {
    var payload := Unsealed(data, crc);
    if payload.None? then None else ParseEntries(payload.value)
  }

  /** Entries already decoded, in front of what the rest decodes to. */
  function Onto(entries: seq<Entry>, rest: Option<seq<Entry>>): Option<seq<Entry>> {
    if rest.None? then None else Some(entries + rest.value)
  }

  lemma OntoNothing(rest: Option<seq<Entry>>)
    ensures Onto([], rest) == rest
  {
    if rest.Some? {
      assert [] + rest.value == rest.value;
    }
  }

  lemma OntoTwice(a: seq<Entry>, b: seq<Entry>, rest: Option<seq<Entry>>)
    ensures Onto(a, Onto(b, rest)) == Onto(a + b, rest)
  {
    if rest.Some? {
      assert a + (b + rest.value) == (a + b) + rest.value;
    }
  }

  /** The entry at `off` and the offset just after it. */
  method DecodeEntry(payload: Bytes, off: nat) returns (r: Option<(Entry, nat)>)
    requires off < |payload|
    ensures var parsed := ParseEntry(payload[off..]);
            r == if parsed.None? then None else Some((parsed.value.0, off + parsed.value.1))
  {
    ghost var p := payload[off..];
    if |payload| - off < ENTRY_HEADER_SIZE {
      return None;
    }
    assert p[1..5] == payload[off + 1..off + 5] && p[5..9] == payload[off + 5..off + 9];
    var flags := payload[off];
    var keyLen := Value(payload[off + 1..off + 5]);
    var valLen := Value(payload[off + 5..off + 9]);
    if keyLen == 0 || keyLen > MAX_KEY_SIZE || valLen > MAX_VALUE_SIZE {
      return None;
    }
    var at := off + ENTRY_HEADER_SIZE;
    if |payload| - at < keyLen {
      return None;
    }
    var key := payload[at..at + keyLen];
    assert p[9..9 + keyLen] == key;
    at := at + keyLen;
    var tombstone := flags % 2 == 1;
    if tombstone && valLen != 0 {
      return None;
    }
    if |payload| - at < valLen {
      return None;
    }
    var value := payload[at..at + valLen];
    assert p[9 + keyLen..9 + keyLen + valLen] == value;
    return Some((Entry(key, value, tombstone), at + valLen));
  }

  method Decode(data: Bytes, crc: Bytes -> U32) returns (r: Option<seq<Entry>>)
    ensures r == DecodeBlock(data, crc)
  {
    hide ParseEntry, Value;
    if |data| < 4 {
      return None;
    }
    var payload := data[..|data| - 4];
    if crc(payload) != Value(data[|data| - 4..]) {
      return None;
    }
    var entries: seq<Entry> := [];
    var off := 0;
    assert payload[0..] == payload;
    OntoNothing(ParseEntries(payload));
    while off < |payload|
      invariant 0 <= off <= |payload|
      invariant Onto(entries, ParseEntries(payload[off..])) == ParseEntries(payload)
    {
      var next := DecodeEntry(payload, off);
      if next.None? {
        return None;
      }
      assert payload[off..][next.value.1 - off..] == payload[next.value.1..];
      OntoTwice(entries, [next.value.0], ParseEntries(payload[next.value.1..]));
      entries, off := entries + [next.value.0], next.value.1;
    }
    assert payload[off..] == [] && entries + [] == entries;
    return Some(entries);
  }

  // --------------------------------------------------------------- round trip

  lemma ParsesEntry(e: Entry, rest: Bytes)
    requires Storable(e) && Normal(e)
    ensures ParseEntry(EncodeEntry(e) + rest) == Some((e, |EncodeEntry(e)|))
    ensures (EncodeEntry(e) + rest)[|EncodeEntry(e)|..] == rest
  {
    var p := EncodeEntry(e) + rest;
    Value32(|e.key|);
    Value32(|e.value|);
    assert p[1..5] == LE(|e.key|, 4) && p[5..9] == LE(|e.value|, 4);
    assert p[9..9 + |e.key|] == e.key;
    assert p[9 + |e.key|..9 + |e.key| + |e.value|] == e.value;
  }

  lemma {:induction false} EncodeFront(entries: seq<Entry>)
    requires entries != []
    ensures EncodeEntries(entries) == EncodeEntry(entries[0]) + EncodeEntries(entries[1..])
  {
    hide EncodeEntry;
    var k := |entries| - 1;
    if k == 0 {
      assert entries[..0] == [] && entries[1..] == [];
    } else {
      EncodeFront(entries[..k]);
      assert entries[..k][1..] == entries[1..][..k - 1];
      assert entries[1..][k - 1] == entries[k];
      assert entries[..k][0] == entries[0];
      var a, b, c := EncodeEntry(entries[0]), EncodeEntries(entries[1..][..k - 1]), EncodeEntry(entries[k]);
      assert (a + b) + c == a + (b + c);
    }
  }

  lemma {:induction false} ParsesEntries(entries: seq<Entry>)
    requires Packable(entries)
    ensures ParseEntries(EncodeEntries(entries)) == Some(entries)
  {
    if entries != [] {
      EncodeFront(entries);
      ParsesEntry(entries[0], EncodeEntries(entries[1..]));
      ParsesEntries(entries[1..]);
      assert EncodeEntries(entries) != [];
      assert [entries[0]] + entries[1..] == entries;
    }
  }

  /** Decoding a block gives back exactly what was encoded. */
  lemma BlockRoundTrip(entries: seq<Entry>, crc: Bytes -> U32)
    requires Packable(entries)
    ensures DecodeBlock(EncodeBlock(entries, crc), crc) == Some(entries)
  {
    SealedUnseals(EncodeEntries(entries), crc);
    ParsesEntries(entries);
  }

  // ---------------------------------------------------------------- searching

  /** Binary search in a block: what a search from the front finds, if the
      block is in order. */
  method SearchEntries(entries: seq<Entry>, key: Bytes) returns (r: Option<Entry>)
    ensures Increasing(entries) ==> r == Find(entries, key)
  {
    var lo, hi := 0, |entries|;
    while lo < hi
      invariant 0 <= lo <= hi <= |entries|
      invariant Increasing(entries) ==> forall i :: 0 <= i < lo ==> Less(entries[i].key, key)
      invariant Increasing(entries) ==> forall i :: hi <= i < |entries| ==> Less(key, entries[i].key)
    {
      var mid := (lo + hi) / 2;
      if entries[mid].key == key {
        if Increasing(entries) {
          FindAt(entries, mid);
        }
        return Some(entries[mid]);
      }
      Halves(entries, key, mid);
      if Less(entries[mid].key, key) {
        lo := mid + 1;
      } else {
        hi := mid;
      }
    }
    LessIrreflexive(key);
    return None;
  }

  /** What one comparison says about the entries on either side. */
  lemma Halves(entries: seq<Entry>, key: Bytes, mid: nat)
    requires mid < |entries| && entries[mid].key != key
    ensures Increasing(entries) && Less(entries[mid].key, key) ==> forall i :: 0 <= i <= mid ==>
                                                                     Less(entries[i].key, key)
    ensures Increasing(entries) && !Less(entries[mid].key, key) ==> forall i :: mid <= i < |entries| ==>
                                                                      Less(key, entries[i].key)
  {
    if Increasing(entries) {
      if Less(entries[mid].key, key) {
        forall i | 0 <= i < mid
          ensures Less(entries[i].key, key)
        {
          LessTransitive(entries[i].key, entries[mid].key, key);
        }
      } else {
        LessTotal(entries[mid].key, key);
        forall i | mid < i < |entries|
          ensures Less(key, entries[i].key)
        {
          LessTransitive(key, entries[mid].key, entries[i].key);
        }
      }
    }
  }
}
