/** Whole SSTable files: what the writer lays out and what readers get back. */
module SstFiles {
  import opened ByteStrings
  import opened Options
  import opened LittleEndian
  import opened Tables
  import opened SstBlocks
  import opened SstBloom
  import opened SstFormat

  const DEFAULT_BLOCK_SIZE: nat := 4096

  // ------------------------------------------------------------------- layout

  /** How the entries of a file are cut into blocks, and what stands where. */
  datatype Layout = Layout(body: Bytes, blocks: seq<seq<Entry>>, index: seq<IndexEntry>, numHashes: nat, numBits: nat,
                           bits: seq<bv8>)

  function Flatten(blocks: seq<seq<Entry>>): seq<Entry> {
    if blocks == [] then [] else Flatten(blocks[..|blocks| - 1]) + blocks[|blocks| - 1]
  }

  /** How many entries come before block `i`. */
  function Start(blocks: seq<seq<Entry>>, i: nat): nat
    requires i <= |blocks|
  {
    |Flatten(blocks[..i])|
  }

  lemma {:induction false} FlattenAt(blocks: seq<seq<Entry>>, i: nat)
    requires i < |blocks|
    ensures Start(blocks, i + 1) == Start(blocks, i) + |blocks[i]| <= |Flatten(blocks)|
    ensures Flatten(blocks)[Start(blocks, i)..Start(blocks, i + 1)] == blocks[i]
  {
    var n := |blocks| - 1;
    assert blocks[..i + 1][..i] == blocks[..i];
    if i == n {
      assert blocks[..i + 1] == blocks && blocks[..n] == blocks[..i];
    } else {
      FlattenAt(blocks[..n], i);
      assert blocks[..n][..i] == blocks[..i] && blocks[..n][..i + 1] == blocks[..i + 1];
      var a, b := Start(blocks, i), Start(blocks, i + 1);
      assert Flatten(blocks)[a..b] == Flatten(blocks[..n])[a..b];
    }
  }

  lemma {:induction false} StartGrows(blocks: seq<seq<Entry>>, i: nat, j: nat)
    requires i < j <= |blocks| && forall k :: 0 <= k < |blocks| ==> blocks[k] != []
    ensures Start(blocks, i) < Start(blocks, j)
    decreases j - i
  {
    FlattenAt(blocks, j - 1);
    if i < j - 1 {
      StartGrows(blocks, i, j - 1);
    }
  }

  /** An entry of a block, by its position among all. */
  lemma EntryOfBlock(blocks: seq<seq<Entry>>, i: nat, k: nat)
    requires i < |blocks| && k < |blocks[i]|
    ensures Start(blocks, i) + k < |Flatten(blocks)| && Flatten(blocks)[Start(blocks, i) + k] == blocks[i][k]
  {
    FlattenAt(blocks, i);
    assert Flatten(blocks)[Start(blocks, i)..Start(blocks, i + 1)][k] == blocks[i][k];
  }

  /** The index entry leads to the encoded block. */
  ghost predicate BlockAt(body: Bytes, block: seq<Entry>, at: IndexEntry, crc: Bytes -> U32) {
    && block != []
    && Packable(block)
    && at.firstKey == block[0].key
    && at.blockLength == |EncodeBlock(block, crc)|
    && at.blockOffset + at.blockLength <= |body|
    && body[at.blockOffset..at.blockOffset + at.blockLength] == EncodeBlock(block, crc)
  }

  ghost predicate Packed(body: Bytes, blocks: seq<seq<Entry>>, index: seq<IndexEntry>, crc: Bytes -> U32) {
    |index| == |blocks| && forall i :: 0 <= i < |blocks| ==> BlockAt(body, blocks[i], index[i], crc)
  }

  /** The layout holds exactly `entries`, and its filter has all of their keys. */
  ghost predicate Lays(l: Layout, entries: seq<Entry>, crc: Bytes -> U32, hashes: Hashes) {
    && Packed(l.body, l.blocks, l.index, crc)
    && Flatten(l.blocks) == entries
    && entries != []
    && Packable(entries)
    && ValidShape(l.numHashes, l.numBits)
    && |l.bits| == BytesFor(l.numBits)
    && forall i :: 0 <= i < |entries| ==> Covers(hashes, l.numHashes, l.numBits, l.bits, entries[i].key)
  }

  function MetaOf(entries: seq<Entry>): Meta
    requires entries != []
  {
    Meta(|entries|, entries[0].key, entries[|entries| - 1].key)
  }

  /** The file: data, index, filter, metadata and the footer that locates them. */
  function FileOf(l: Layout, meta: Meta, crc: Bytes -> U32): Bytes {
    var index, bloom, metaBytes :=
        EncodeIndex(l.index, crc), EncodeBloom(l.numHashes, l.numBits, l.bits, crc), EncodeMeta(meta, crc);
    l.body + index + bloom + metaBytes + EncodeFooter(FooterOf(|l.body|, |index|, |bloom|, |metaBytes|), crc)
  }

  function FooterOf(body: nat, index: nat, bloom: nat, meta: nat): Footer {
    Footer(Section(body, index), Section(body + index, bloom), Section(body + index + bloom, meta))
  }

  // ------------------------------------------------------------------ opening

  /** What a reader keeps in memory. */
  datatype Opened = Opened(index: seq<IndexEntry>, bloom: Bloom, meta: Meta)

  predicate InDataRegion(e: IndexEntry, dataSize: nat) {
    e.blockOffset <= dataSize && e.blockLength <= dataSize - e.blockOffset
  }

  function OpenFile(file: Bytes, crc: Bytes -> U32): Option<Opened> {
    if |file| < FOOTER_SIZE then None
    else
      var bodySize := |file| - FOOTER_SIZE;
      var footer := DecodeFooter(file[bodySize..], bodySize, crc);
      if footer.None? then None
      else
        var f := footer.value;
        var index := DecodeIndex(file[f.index.offset..f.index.offset + f.index.length], crc);
        var bloom := DecodeBloom(file[f.bloom.offset..f.bloom.offset + f.bloom.length], crc);
        var meta := DecodeMeta(file[f.meta.offset..f.meta.offset + f.meta.length], crc);
        if index.None? || bloom.None? || meta.None? then None
        else if exists i :: 0 <= i < |index.value| && !InDataRegion(index.value[i], f.index.offset) then None
        else Some(Opened(index.value, bloom.value, meta.value))
  }

  /** A stretch of a file put together from three pieces. */
  lemma Middle(a: Bytes, b: Bytes, c: Bytes)
    ensures (a + b + c)[|a|..|a| + |b|] == b
  {
  }

  /** A file that the writer lays out can be opened exactly when its filter is
      not too large for a reader, and then gives back the index, the filter and
      the metadata. */
  lemma OpensWhatWasLaid(l: Layout, entries: seq<Entry>, crc: Bytes -> U32, hashes: Hashes)
    requires Lays(l, entries, crc, hashes) && |FileOf(l, MetaOf(entries), crc)| < TWO64 && |entries| < TWO64
    ensures OpenFile(FileOf(l, MetaOf(entries), crc), crc)
         == if l.numBits > MAX_BLOOM_BITS then None
            else Some(Opened(l.index, Bloom(l.numHashes, l.numBits, ToBytes(l.bits)), MetaOf(entries)))
  {
    hide EncodeIndex, EncodeBloom, EncodeMeta, EncodeFooter, DecodeFooter, DecodeIndex, DecodeBloom, DecodeMeta, Packed,
         Covers, Flatten, Packable, EncodeBlock;
    var meta := MetaOf(entries);
    var index, bloom, metaBytes :=
        EncodeIndex(l.index, crc), EncodeBloom(l.numHashes, l.numBits, l.bits, crc), EncodeMeta(meta, crc);
    var f := FooterOf(|l.body|, |index|, |bloom|, |metaBytes|);
    var data := l.body + index + bloom + metaBytes;
    var file := FileOf(l, meta, crc);
    LaidParts(l, entries, crc, hashes, |file|);
    FooterRoundTrip(f, |data|, crc);
    assert file[|data|..] == EncodeFooter(f, crc);
    Middle(l.body, index, bloom + metaBytes + EncodeFooter(f, crc));
    assert file == l.body + index + (bloom + metaBytes + EncodeFooter(f, crc));
    Middle(l.body + index, bloom, metaBytes + EncodeFooter(f, crc));
    assert file == l.body + index + bloom + (metaBytes + EncodeFooter(f, crc));
    Middle(l.body + index + bloom, metaBytes, EncodeFooter(f, crc));
  }

  /** The parts of a laid-out file decode, and lie where the checks want them. */
  lemma LaidParts(l: Layout, entries: seq<Entry>, crc: Bytes -> U32, hashes: Hashes, size: nat)
    requires Lays(l, entries, crc, hashes) && size < TWO64 && |l.body| <= size && |entries| < TWO64
    ensures DecodeIndex(EncodeIndex(l.index, crc), crc) == Some(l.index)
    ensures DecodeBloom(EncodeBloom(l.numHashes, l.numBits, l.bits, crc), crc)
         == if l.numBits > MAX_BLOOM_BITS then None else Some(Bloom(l.numHashes, l.numBits, ToBytes(l.bits)))
    ensures DecodeMeta(EncodeMeta(MetaOf(entries), crc), crc) == Some(MetaOf(entries))
    ensures forall i :: 0 <= i < |l.index| ==> InDataRegion(l.index[i], |l.body|)
    ensures |EncodeIndex(l.index, crc)| > 0 && |EncodeBloom(l.numHashes, l.numBits, l.bits, crc)| > 0
    ensures |EncodeMeta(MetaOf(entries), crc)| > 0
  {
    hide DecodeIndex, DecodeBloom, DecodeMeta, EncodeBlock, Covers;
    forall i | 0 <= i < |l.index|
      ensures Indexable(l.index[i]) && InDataRegion(l.index[i], |l.body|)
    {
      assert BlockAt(l.body, l.blocks[i], l.index[i], crc);
      assert Storable(l.blocks[i][0]);
    }
    IndexRoundTrip(l.index, crc);
    BloomRoundTrip(l.numHashes, l.numBits, l.bits, crc);
    assert Storable(entries[0]) && Storable(entries[|entries| - 1]);
    MetaRoundTrip(MetaOf(entries), crc);
  }
}
