/** The parts of an SSTable that locate the others: the sparse index, the
    metadata and the footer. */
module SstFormat {
  import opened ByteStrings
  import opened Options
  import opened LittleEndian
  import opened SstBlocks

  // -------------------------------------------------------------------- index

  datatype IndexEntry = IndexEntry(firstKey: Bytes, blockOffset: nat, blockLength: nat)

  const INDEX_HEADER_SIZE: nat := 20

  predicate Indexable(e: IndexEntry) {
    0 < |e.firstKey| <= MAX_KEY_SIZE && e.blockOffset < TWO64 && e.blockLength < TWO64
  }

  function EncodeIndexEntry(e: IndexEntry): Bytes {
    LE(|e.firstKey|, 4) + LE(e.blockOffset, 8) + LE(e.blockLength, 8) + e.firstKey
  }

  function EncodeIndexEntries(entries: seq<IndexEntry>): Bytes {
    if entries == [] then [] else EncodeIndexEntry(entries[0]) + EncodeIndexEntries(entries[1..])
  }

  function EncodeIndex(entries: seq<IndexEntry>, crc: Bytes -> U32): Bytes {
    Sealed(EncodeIndexEntries(entries), crc)
  }

  function ParseIndexEntry(p: Bytes): (r: Option<(IndexEntry, nat)>)
    ensures r.Some? ==> INDEX_HEADER_SIZE < r.value.1 <= |p|
  {
    if |p| < INDEX_HEADER_SIZE then None
    else
      var keyLen, offset, length := Value(p[0..4]), Value(p[4..12]), Value(p[12..20]);
      if keyLen == 0 || keyLen > MAX_KEY_SIZE then None
      else if |p| - INDEX_HEADER_SIZE < keyLen then None
      else Some((IndexEntry(p[20..20 + keyLen], offset, length), INDEX_HEADER_SIZE + keyLen))
  }

  function ParseIndex(p: Bytes): Option<seq<IndexEntry>>
    decreases |p|
  {
    if p == [] then Some([])
    else
      var first := ParseIndexEntry(p);
      if first.None? then None else Before([first.value.0], ParseIndex(p[first.value.1..]))
  }

  function Before(entries: seq<IndexEntry>, rest: Option<seq<IndexEntry>>): Option<seq<IndexEntry>> {
    if rest.None? then None else Some(entries + rest.value)
  }

  function DecodeIndex(data: Bytes, crc: Bytes -> U32): Option<seq<IndexEntry>> {
    var payload := Unsealed(data, crc);
    if payload.None? then None else ParseIndex(payload.value)
  }

  lemma ParsesIndexEntry(e: IndexEntry, rest: Bytes)
    requires Indexable(e)
    ensures ParseIndexEntry(EncodeIndexEntry(e) + rest) == Some((e, |EncodeIndexEntry(e)|))
    ensures (EncodeIndexEntry(e) + rest)[|EncodeIndexEntry(e)|..] == rest
  {
    var p := EncodeIndexEntry(e) + rest;
    Value32(|e.firstKey|);
    Value64(e.blockOffset);
    Value64(e.blockLength);
    assert p[0..4] == LE(|e.firstKey|, 4) && p[4..12] == LE(e.blockOffset, 8) && p[12..20] == LE(e.blockLength, 8);
    assert p[20..20 + |e.firstKey|] == e.firstKey;
  }

  lemma {:induction false} ParsesIndex(entries: seq<IndexEntry>)
    requires forall i :: 0 <= i < |entries| ==> Indexable(entries[i])
    ensures ParseIndex(EncodeIndexEntries(entries)) == Some(entries)
  {
    hide EncodeIndexEntry, ParseIndexEntry;
    if entries != [] {
      ParsesIndexEntry(entries[0], EncodeIndexEntries(entries[1..]));
      ParsesIndex(entries[1..]);
      assert [entries[0]] + entries[1..] == entries;
    }
  }

  lemma IndexRoundTrip(entries: seq<IndexEntry>, crc: Bytes -> U32)
    requires forall i :: 0 <= i < |entries| ==> Indexable(entries[i])
    ensures DecodeIndex(EncodeIndex(entries, crc), crc) == Some(entries)
  {
    SealedUnseals(EncodeIndexEntries(entries), crc);
    ParsesIndex(entries);
  }

  /** The index entry at `off` and the offset just after it. */
  method ReadIndexEntry(payload: Bytes, off: nat) returns (r: Option<(IndexEntry, nat)>)
    requires off < |payload|
    ensures var parsed := ParseIndexEntry(payload[off..]);
            r == if parsed.None? then None else Some((parsed.value.0, off + parsed.value.1))
  {
    ghost var p := payload[off..];
    if |payload| - off < INDEX_HEADER_SIZE {
      return None;
    }
    assert p[0..4] == payload[off..off + 4] && p[4..12] == payload[off + 4..off + 12]
           && p[12..20] == payload[off + 12..off + 20];
    var keyLen := Value(payload[off..off + 4]);
    var offset := Value(payload[off + 4..off + 12]);
    var length := Value(payload[off + 12..off + 20]);
    if keyLen == 0 || keyLen > MAX_KEY_SIZE {
      return None;
    }
    var at := off + INDEX_HEADER_SIZE;
    if |payload| - at < keyLen {
      return None;
    }
    assert p[20..20 + keyLen] == payload[at..at + keyLen];
    return Some((IndexEntry(payload[at..at + keyLen], offset, length), at + keyLen));
  }

  method ReadIndex(data: Bytes, crc: Bytes -> U32) returns (r: Option<seq<IndexEntry>>)
    ensures r == DecodeIndex(data, crc)
  {
    hide ParseIndexEntry, Value;
    if |data| < 4 {
      return None;
    }
    var payload := data[..|data| - 4];
    if crc(payload) != Value(data[|data| - 4..]) {
      return None;
    }
    var entries: seq<IndexEntry> := [];
    var off := 0;
    assert payload[0..] == payload;
    assert ParseIndex(payload).Some? ==> [] + ParseIndex(payload).value == ParseIndex(payload).value;
    while off < |payload|
      invariant 0 <= off <= |payload|
      invariant Before(entries, ParseIndex(payload[off..])) == ParseIndex(payload)
    {
      var next := ReadIndexEntry(payload, off);
      if next.None? {
        return None;
      }
      assert payload[off..][next.value.1 - off..] == payload[next.value.1..];
      ghost var rest := ParseIndex(payload[next.value.1..]);
      assert rest.Some? ==> entries + ([next.value.0] + rest.value) == (entries + [next.value.0]) + rest.value;
      entries, off := entries + [next.value.0], next.value.1;
    }
    assert payload[off..] == [] && entries + [] == entries;
    return Some(entries);
  }

  // ----------------------------------------------------------------- metadata

  datatype Meta = Meta(numEntries: nat, minKey: Bytes, maxKey: Bytes)

  predicate ValidMeta(m: Meta) {
    m.numEntries < TWO64 && 0 < |m.minKey| <= MAX_KEY_SIZE && 0 < |m.maxKey| <= MAX_KEY_SIZE
  }

  function EncodeMeta(m: Meta, crc: Bytes -> U32): Bytes {
    Sealed(LE(m.numEntries, 8) + LE(|m.minKey|, 4) + m.minKey + LE(|m.maxKey|, 4) + m.maxKey, crc)
  }

  function DecodeMeta(data: Bytes, crc: Bytes -> U32): Option<Meta> {
    if |data| < 12 then None
    else
      var numEntries, minLen := Value(data[0..8]), Value(data[8..12]);
      if minLen == 0 || minLen > MAX_KEY_SIZE || |data| < 12 + minLen + 4 then None
      else
        var at := 12 + minLen;
        var maxLen := Value(data[at..at + 4]);
        if maxLen == 0 || maxLen > MAX_KEY_SIZE || |data| - (at + 4) < maxLen then None
        else
          var end := at + 4 + maxLen;
          if |data| != end + 4 || crc(data[..end]) != Value(data[end..]) then None
          else Some(Meta(numEntries, data[12..at], data[at + 4..end]))
  }

  lemma MetaRoundTrip(m: Meta, crc: Bytes -> U32)
    requires ValidMeta(m)
    ensures DecodeMeta(EncodeMeta(m, crc), crc) == Some(m)
  {
    var payload := LE(m.numEntries, 8) + LE(|m.minKey|, 4) + m.minKey + LE(|m.maxKey|, 4) + m.maxKey;
    var data := EncodeMeta(m, crc);
    var at := 12 + |m.minKey|;
    var end := at + 4 + |m.maxKey|;
    Value64(m.numEntries);
    Value32(|m.minKey|);
    Value32(|m.maxKey|);
    Value32(crc(payload));
    assert data[0..8] == LE(m.numEntries, 8) && data[8..12] == LE(|m.minKey|, 4) && data[12..at] == m.minKey;
    assert data[at..at + 4] == LE(|m.maxKey|, 4) && data[at + 4..end] == m.maxKey;
    assert data[..end] == payload && data[end..] == LE(crc(payload), 4);
  }

  // ------------------------------------------------------------------- footer

  const FOOTER_SIZE: nat := 64
  const MAGIC: Bytes := [70, 111, 114, 103, 101, 83, 83, 84]
  const FORMAT_VERSION: nat := 1

  /** A stretch of the file. */
  datatype Section = Section(offset: nat, length: nat)

  datatype Footer = Footer(index: Section, bloom: Section, meta: Section)

  predicate Fits(s: Section, bodySize: nat) {
    s.length != 0 && s.offset <= bodySize && s.length <= bodySize - s.offset
  }

  function EncodeSection(s: Section): Bytes {
    LE(s.offset, 8) + LE(s.length, 8)
  }

  function EncodeFooter(f: Footer, crc: Bytes -> U32): Bytes {
    Sealed(MAGIC + LE(FORMAT_VERSION, 4) + EncodeSection(f.index) + EncodeSection(f.bloom) + EncodeSection(f.meta), crc)
  }

  function SectionAt(buf: Bytes, at: nat): Section
    requires at + 16 <= |buf|
  {
    Section(Value(buf[at..at + 8]), Value(buf[at + 8..at + 16]))
  }

  function DecodeFooter(buf: Bytes, bodySize: nat, crc: Bytes -> U32): Option<Footer> {
    if |buf| != FOOTER_SIZE || buf[0..8] != MAGIC || Value(buf[8..12]) != FORMAT_VERSION || Unsealed(buf, crc).None?
      then None
    else
      var f := Footer(SectionAt(buf, 12), SectionAt(buf, 28), SectionAt(buf, 44));
      if Fits(f.index, bodySize) && Fits(f.bloom, bodySize) && Fits(f.meta, bodySize) then Some(f) else None
  }

  lemma SectionRoundTrip(buf: Bytes, at: nat, s: Section)
    requires at + 16 <= |buf| && buf[at..at + 16] == EncodeSection(s) && s.offset < TWO64 && s.length < TWO64
    ensures SectionAt(buf, at) == s
  {
    Value64(s.offset);
    Value64(s.length);
    assert buf[at..at + 8] == buf[at..at + 16][..8] == LE(s.offset, 8);
    assert buf[at + 8..at + 16] == buf[at..at + 16][8..] == LE(s.length, 8);
  }

  lemma FooterRoundTrip(f: Footer, bodySize: nat, crc: Bytes -> U32)
    requires Fits(f.index, bodySize) && Fits(f.bloom, bodySize) && Fits(f.meta, bodySize) && bodySize < TWO64
    ensures DecodeFooter(EncodeFooter(f, crc), bodySize, crc) == Some(f) && |EncodeFooter(f, crc)| == FOOTER_SIZE
  {
    var payload := MAGIC + LE(FORMAT_VERSION, 4) + EncodeSection(f.index) + EncodeSection(f.bloom)
      + EncodeSection(f.meta);
    var buf := EncodeFooter(f, crc);
    SealedUnseals(payload, crc);
    Value32(FORMAT_VERSION);
    assert buf[0..8] == MAGIC && buf[8..12] == LE(FORMAT_VERSION, 4);
    assert buf[12..28] == EncodeSection(f.index) && buf[28..44] == EncodeSection(f.bloom)
           && buf[44..60] == EncodeSection(f.meta);
    SectionRoundTrip(buf, 12, f.index);
    SectionRoundTrip(buf, 28, f.bloom);
    SectionRoundTrip(buf, 44, f.meta);
  }
}
