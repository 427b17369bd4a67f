/** The SSTable writer: entries in order, packed into blocks. */
module SstWriter {
  import opened ByteStrings
  import opened Options
  import opened LittleEndian
  import opened Tables
  import opened SstBlocks
  import opened SstBloom
  import opened SstFormat
  import opened SstFiles

  class Writer {
    var entries: seq<Entry>
    var lastKey: Bytes
    var hasLast: bool

    constructor ()
      ensures Valid() && entries == []
    {
      entries, lastKey, hasLast := [], [], false;
    }

    ghost predicate Valid()
      reads this
    {
      && Increasing(entries)
      && (forall i :: 0 <= i < |entries| ==> entries[i].key != [] && Normal(entries[i]))
      && (hasLast <==> entries != [])
      && (hasLast ==> lastKey == entries[|entries| - 1].key)
    }

    method Add(key: Bytes, value: Bytes, tombstone: bool) returns (ok: bool)
      requires Valid()
      modifies this
      ensures Valid()
      ensures ok <==> key != [] && (old(entries) != [] ==> Less(old(entries)[|old(entries)| - 1].key, key))
      ensures entries == if ok then old(entries) + [Entry(key, if tombstone then [] else value, tombstone)]
                         else old(entries)
    {
      if |key| == 0 {
        return false;
      }
      if hasLast && (key == lastKey || Less(key, lastKey)) {
        LessIrreflexive(key);
        if key != lastKey {
          LessAsymmetric(key, lastKey);
        }
        return false;
      }
      if hasLast {
        LessTotal(key, lastKey);
      }
      var e := Entry(key, if tombstone then [] else value, tombstone);
      IncreasingExtend(entries, e);
      entries := entries + [e];
      lastKey, hasLast := key, true;
      return true;
    }

    /** Lays the entries out as a file, unless one is too large to store. */
    method Build(crc: Bytes -> U32, hashes: Hashes, numHashes: nat, numBits: nat)
        returns (r: Option<Bytes>, ghost l: Layout)
      requires Valid() && ValidShape(numHashes, numBits)
      ensures r.Some? <==> entries != [] && forall i :: 0 <= i < |entries| ==> Storable(entries[i])
      ensures r.Some? ==>
                Lays(l, entries, crc, hashes) && l.numBits == numBits && r.value == FileOf(l, MetaOf(entries), crc)
    {
      hide Covers, Less, EncodeIndex, EncodeBloom, EncodeMeta, EncodeFooter, Packed, Flatten;
      l := Layout([], [], [], 0, 0, []);
      if |entries| == 0 {
        return None, l;
      }
      var ok, body, index;
      ghost var blocks;
      ok, body, index, blocks := PackBlocks(entries, crc);
      if !ok {
        return None, l;
      }
      var bloom := new BloomFilter(hashes, numHashes, numBits);
      AddKeys(bloom, entries);
      var indexBytes := EncodeIndex(index, crc);
      var bloomBytes := EncodeBloom(numHashes, numBits, bloom.bits[..], crc);
      var metaBytes := EncodeMeta(Meta(|entries|, entries[0].key, entries[|entries| - 1].key), crc);
      var footer := EncodeFooter(Footer(Section(|body|, |indexBytes|), Section(|body| + |indexBytes|, |bloomBytes|),
                                        Section(|body| + |indexBytes| + |bloomBytes|, |metaBytes|)), crc);
      l := Layout(body, blocks, index, numHashes, numBits, bloom.bits[..]);
      return Some(body + indexBytes + bloomBytes + metaBytes + footer), l;
    }
  }

  method AddKeys(bloom: BloomFilter, entries: seq<Entry>)
    requires bloom.Valid()
    modifies bloom.bits
    ensures forall i :: 0 <= i < |entries| ==> bloom.Has(entries[i].key)
  {
    hide Covers;
    for i := 0 to |entries|
      invariant forall j :: 0 <= j < i ==> bloom.Has(entries[j].key)
    {
      bloom.Add(entries[i].key);
    }
  }

  /** Cuts the entries into blocks and encodes them one after the other. */
  method PackBlocks(entries: seq<Entry>, crc: Bytes -> U32)
    returns (ok: bool, body: Bytes, index: seq<IndexEntry>, ghost blocks: seq<seq<Entry>>)
    requires forall i :: 0 <= i < |entries| ==> entries[i].key != [] && Normal(entries[i])
    ensures ok <==> forall i :: 0 <= i < |entries| ==> Storable(entries[i])
    ensures ok ==> Packed(body, blocks, index, crc) && Flatten(blocks) == entries
  {
    hide Packed, Storable, Normal;
    var block: seq<Entry>, blockSize: nat := [], 0;
    body, index, blocks := [], [], [];
    NothingPacked(crc);
    for i := 0 to |entries|
      invariant Packed(body, blocks, index, crc) && Flatten(blocks) + block == entries[..i]
      invariant forall j :: 0 <= j < |Flatten(blocks)| ==> Storable(Flatten(blocks)[j])
    {
      var e := entries[i];
      block := block + [e];
      blockSize := blockSize + ENTRY_HEADER_SIZE + |e.key| + |e.value|;
      assert entries[..i + 1] == entries[..i] + [e] == Flatten(blocks) + block;
      if blockSize >= DEFAULT_BLOCK_SIZE {
        InBlock(entries, i + 1, blocks, block);
        ok, body, index, blocks := Flush(body, index, block, blocks, crc);
        if !ok {
          return;
        }
        block, blockSize := [], 0;
        assert Flatten(blocks) + block == Flatten(blocks);
      }
    }
    assert entries[..|entries|] == entries;
    InBlock(entries, |entries|, blocks, block);
    if |block| == 0 {
      assert Flatten(blocks) + block == Flatten(blocks);
      return true, body, index, blocks;
    }
    ok, body, index, blocks := Flush(body, index, block, blocks, crc);
  }

  lemma NothingPacked(crc: Bytes -> U32)
    ensures Packed([], [], [], crc)
  {
  }

  lemma InBlock(entries: seq<Entry>, n: nat, blocks: seq<seq<Entry>>, block: seq<Entry>)
    requires n <= |entries| && Flatten(blocks) + block == entries[..n]
    ensures forall j :: 0 <= j < |block| ==> block[j] == entries[|Flatten(blocks)| + j]
  {
    assert forall j :: 0 <= j < |block| ==> (Flatten(blocks) + block)[|Flatten(blocks)| + j] == block[j];
  }

  method Flush(body: Bytes, index: seq<IndexEntry>, block: seq<Entry>, ghost blocks: seq<seq<Entry>>, crc: Bytes -> U32)
    returns (ok: bool, body': Bytes, index': seq<IndexEntry>, ghost blocks': seq<seq<Entry>>)
    requires Packed(body, blocks, index, crc) && block != [] && forall i :: 0 <= i < |block| ==> Normal(block[i])
    ensures ok <==> forall i :: 0 <= i < |block| ==> Storable(block[i])
    ensures ok ==> Packed(body', blocks', index', crc) && Flatten(blocks') == Flatten(blocks) + block
  {
    hide EncodeBlock;
    body', index', blocks' := body, index, blocks;
    var encoded := Encode(block, crc);
    if encoded.None? {
      return false, body', index', blocks';
    }
    index' := index + [IndexEntry(block[0].key, |body|, |encoded.value|)];
    body' := body + encoded.value;
    blocks' := blocks + [block];
    assert blocks'[..|blocks|] == blocks;
    forall i | 0 <= i < |blocks'|
      ensures BlockAt(body', blocks'[i], index'[i], crc)
    {
      if i < |blocks| {
        assert BlockAt(body, blocks[i], index[i], crc);
        var at := index[i];
        assert body'[at.blockOffset..at.blockOffset + at.blockLength]
               == body[at.blockOffset..at.blockOffset + at.blockLength];
      } else {
        assert body'[|body|..|body| + |encoded.value|] == encoded.value;
      }
    }
    return true, body', index', blocks';
  }
}
