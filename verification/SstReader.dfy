/** Reading an SSTable: point lookups through filter, sparse index and one
    block, and a scan of everything. */
module SstReader {
  import opened ByteStrings
  import opened Options
  import opened LittleEndian
  import opened Tables
  import opened SstBlocks
  import opened SstBloom
  import opened SstFormat
  import opened SstFiles

  datatype Result = NotFound | Found | Tombstone

  // ----------------------------------------------- which block can have a key

  ghost predicate NoEmptyBlock(blocks: seq<seq<Entry>>) {
    forall i :: 0 <= i < |blocks| ==> blocks[i] != []
  }

  /** First keys of later blocks are larger. */
  lemma FirstKeysIncrease(blocks: seq<seq<Entry>>, i: nat, j: nat)
    requires NoEmptyBlock(blocks) && Increasing(Flatten(blocks)) && i < j < |blocks|
    ensures Less(blocks[i][0].key, blocks[j][0].key)
  {
    EntryOfBlock(blocks, i, 0);
    EntryOfBlock(blocks, j, 0);
    StartGrows(blocks, i, j);
  }

  lemma {:induction false} FindConcat(a: seq<Entry>, b: seq<Entry>, key: Bytes)
    ensures Find(a + b, key) == if Find(a, key).Some? then Find(a, key) else Find(b, key)
  {
    if a == [] {
      assert a + b == b;
    } else {
      assert (a + b)[1..] == a[1..] + b;
      FindConcat(a[1..], b, key);
    }
  }

  /** All entries from block `i` on are beyond the key. */
  lemma BeyondBlock(blocks: seq<seq<Entry>>, i: nat, key: Bytes)
    requires NoEmptyBlock(blocks) && Increasing(Flatten(blocks)) && i <= |blocks|
    requires i < |blocks| ==> Less(key, blocks[i][0].key)
    ensures Start(blocks, i) <= |Flatten(blocks)| && Find(Flatten(blocks)[Start(blocks, i)..], key) == None
  {
    var all, s := Flatten(blocks), Start(blocks, i);
    if i == |blocks| {
      assert blocks[..i] == blocks;
    } else {
      EntryOfBlock(blocks, i, 0);
      forall k | s <= k < |all|
        ensures all[k].key != key
      {
        if k > s {
          LessTransitive(key, all[s].key, all[k].key);
        }
        LessAsymmetric(key, all[k].key);
      }
    }
  }

  /** All entries before block `i` are below the key. */
  lemma BelowBlock(blocks: seq<seq<Entry>>, i: nat, key: Bytes)
    requires NoEmptyBlock(blocks) && Increasing(Flatten(blocks)) && i < |blocks| && !Less(key, blocks[i][0].key)
    ensures Start(blocks, i) <= |Flatten(blocks)| && Find(Flatten(blocks)[..Start(blocks, i)], key) == None
  {
    var all, s := Flatten(blocks), Start(blocks, i);
    EntryOfBlock(blocks, i, 0);
    forall k | 0 <= k < s
      ensures all[k].key != key
    {
      LessThrough(all[k].key, all[s].key, key);
      LessAsymmetric(all[k].key, key);
    }
  }

  /** The last block that starts at or before the key is the only one that
      can have it. */
  lemma FoundInBlock(blocks: seq<seq<Entry>>, i: nat, key: Bytes)
    requires NoEmptyBlock(blocks) && Increasing(Flatten(blocks)) && i < |blocks|
    requires !Less(key, blocks[i][0].key) && (i + 1 < |blocks| ==> Less(key, blocks[i + 1][0].key))
    ensures Find(Flatten(blocks), key) == Find(blocks[i], key)
  {
    hide Less, Flatten, Find, Increasing, NoEmptyBlock;
    var all, a, b := Flatten(blocks), Start(blocks, i), Start(blocks, i + 1);
    FlattenAt(blocks, i);
    BelowBlock(blocks, i, key);
    BeyondBlock(blocks, i + 1, key);
    assert all == all[..a] + (all[a..b] + all[b..]);
    FindConcat(all[..a], all[a..b] + all[b..], key);
    FindConcat(all[a..b], all[b..], key);
  }

  lemma NotInAnyBlock(blocks: seq<seq<Entry>>, key: Bytes)
    requires NoEmptyBlock(blocks) && Increasing(Flatten(blocks)) && (blocks != [] ==> Less(key, blocks[0][0].key))
    ensures Find(Flatten(blocks), key) == None
  {
    BeyondBlock(blocks, 0, key);
    assert blocks[..0] == [] && Flatten(blocks)[0..] == Flatten(blocks);
  }

  /** A block of a laid-out table decodes and is in order. */
  lemma LaidBlock(l: Layout, entries: seq<Entry>, crc: Bytes -> U32, hashes: Hashes, i: nat)
    requires Lays(l, entries, crc, hashes) && Increasing(entries) && i < |l.blocks|
    ensures |l.index| == |l.blocks| && NoEmptyBlock(l.blocks) && Increasing(l.blocks[i])
    ensures var at := l.index[i];
            && at.firstKey == l.blocks[i][0].key
            && at.blockOffset + at.blockLength <= |l.body|
            && DecodeBlock(l.body[at.blockOffset..at.blockOffset + at.blockLength], crc) == Some(l.blocks[i])
  {
    hide Covers, EncodeBlock, DecodeBlock;
    assert BlockAt(l.body, l.blocks[i], l.index[i], crc);
    BlockRoundTrip(l.blocks[i], crc);
    forall j, k | 0 <= j < k < |l.blocks[i]|
      ensures Less(l.blocks[i][j].key, l.blocks[i][k].key)
    {
      EntryOfBlock(l.blocks, i, j);
      EntryOfBlock(l.blocks, i, k);
    }
  }

  // --------------------------------------------------------------- the reader

  class Reader {
    const file: Bytes
    const index: seq<IndexEntry>
    const bloom: BloomFilter
    const meta: Meta
    const crc: Bytes -> U32

    constructor (file: Bytes, parts: Opened, bloom: BloomFilter, crc: Bytes -> U32)
      ensures this.file == file && index == parts.index && this.bloom == bloom && meta == parts.meta && this.crc == crc
    {
      this.file, index, this.bloom, meta, this.crc := file, parts.index, bloom, parts.meta, crc;
    }

    ghost predicate Valid()
      reads this, bloom
    {
      bloom.Valid()
    }

    /** The reader has opened the table that `l` lays out. */
    ghost predicate Serves(l: Layout, entries: seq<Entry>)
      reads this, bloom, bloom.bits
    {
      && Valid()
      && Lays(l, entries, crc, bloom.hashes)
      && Increasing(entries)
      && l.body <= file
      && index == l.index
      && meta == MetaOf(entries)
      && bloom.numHashes == l.numHashes && bloom.numBits == l.numBits && bloom.bits[..] == l.bits
    }

    /** The block at `at` can be decoded and has the key exactly if `entries` has. */
    ghost predicate HoldsKey(at: IndexEntry, entries: seq<Entry>, key: Bytes) {
      && at.blockOffset + at.blockLength <= |file|
      && var block := DecodeBlock(file[at.blockOffset..at.blockOffset + at.blockLength], crc);
         block.Some? && Increasing(block.value) && Find(entries, key) == Find(block.value, key)
    }

    /** The index of the last block that starts at or before the key, or -1. */
    method CandidateBlock(key: Bytes) returns (i: int)
      ensures -1 <= i < |index|
      ensures (forall a, b :: 0 <= a < b < |index| ==> Less(index[a].firstKey, index[b].firstKey)) ==>
        (i >= 0 ==> !Less(key, index[i].firstKey)) && (i + 1 < |index| ==> Less(key, index[i + 1].firstKey))
    {
      var lo, hi := 0, |index|;
      while lo < hi
        invariant 0 <= lo <= hi <= |index|
        invariant lo > 0 ==> !Less(key, index[lo - 1].firstKey)
        invariant hi < |index| ==> Less(key, index[hi].firstKey)
      {
        var mid := (lo + hi) / 2;
        if index[mid].firstKey == key || Less(index[mid].firstKey, key) {
          if index[mid].firstKey == key {
            LessIrreflexive(key);
          } else {
            LessAsymmetric(index[mid].firstKey, key);
          }
          lo := mid + 1;
        } else {
          LessTotal(index[mid].firstKey, key);
          hi := mid;
        }
      }
      return lo - 1;
    }

    /** A point lookup: for a table that was built from `entries`, what a
        search through `entries` finds. */
    method Get(key: Bytes, ghost l: Layout, ghost entries: seq<Entry>) returns (value: Bytes, result: Result, ok: bool)
      requires Valid()
      ensures key == [] ==> !ok
      ensures key != [] && Serves(l, entries) ==>
        && ok
        && (result == NotFound <==> Find(entries, key) == None)
        && (result == Tombstone <==> Find(entries, key).Some? && Find(entries, key).value.tombstone)
        && (result == Found ==> Find(entries, key) == Some(Entry(key, value, false)))
    {
      hide Lays, DecodeBlock, Less;
      if |key| == 0 {
        return [], NotFound, false;
      }
      var might := bloom.MightContain(key);
      if !might {
        Filtered(l, entries, key);
        return [], NotFound, true;
      }
      var i := CandidateBlock(key);
      IndexInOrder(l, entries);
      if i < 0 {
        if Serves(l, entries) {
          BeforeAll(l, entries, key);
        }
        return [], NotFound, true;
      }
      if Serves(l, entries) {
        InCandidate(l, entries, key, i);
      }
      var at := index[i];
      if at.blockOffset + at.blockLength > |file| {
        return [], NotFound, false;
      }
      var block := Decode(file[at.blockOffset..at.blockOffset + at.blockLength], crc);
      if block.None? {
        return [], NotFound, false;
      }
      var entry := SearchEntries(block.value, key);
      if entry.None? {
        return [], NotFound, true;
      }
      if entry.value.tombstone {
        return [], Tombstone, true;
      }
      return entry.value.value, Found, true;
    }

    /** A key that the filter rules out is not in the table. */
    lemma Filtered(l: Layout, entries: seq<Entry>, key: Bytes)
      requires Valid() && !bloom.Has(key)
      ensures Serves(l, entries) ==> Find(entries, key) == None
    {
    }

    lemma IndexInOrder(l: Layout, entries: seq<Entry>)
      requires Valid()
      ensures Serves(l, entries) ==> forall a, b :: 0 <= a < b < |index| ==> Less(index[a].firstKey, index[b].firstKey)
    {
      hide Lays, Less;
      if Serves(l, entries) {
        forall a, b | 0 <= a < b < |index|
          ensures Less(index[a].firstKey, index[b].firstKey)
        {
          SameCount(l, entries, crc, bloom.hashes);
          LaidBlock(l, entries, crc, bloom.hashes, a);
          LaidBlock(l, entries, crc, bloom.hashes, b);
          FirstKeysIncrease(l.blocks, a, b);
        }
      }
    }

    lemma BeforeAll(l: Layout, entries: seq<Entry>, key: Bytes)
      requires Serves(l, entries) && (0 < |index| ==> Less(key, index[0].firstKey))
      ensures Find(entries, key) == None
    {
      hide Lays, Less;
      SameCount(l, entries, crc, bloom.hashes);
      if |index| > 0 {
        LaidBlock(l, entries, crc, bloom.hashes, 0);
      }
      NotInAnyBlock(l.blocks, key);
    }

    lemma InCandidate(l: Layout, entries: seq<Entry>, key: Bytes, i: nat)
      requires i < |index| && !Less(key, index[i].firstKey) && (i + 1 < |index| ==> Less(key, index[i + 1].firstKey))
      requires Serves(l, entries)
      ensures HoldsKey(index[i], entries, key)
    {
      hide Lays, Less, DecodeBlock;
      SameCount(l, entries, crc, bloom.hashes);
      LaidBlock(l, entries, crc, bloom.hashes, i);
      if i + 1 < |index| {
        LaidBlock(l, entries, crc, bloom.hashes, i + 1);
      }
      FoundInBlock(l.blocks, i, key);
      var at := index[i];
      assert file[at.blockOffset..at.blockOffset + at.blockLength]
             == l.body[at.blockOffset..at.blockOffset + at.blockLength];
    }
  }

  lemma SameCount(l: Layout, entries: seq<Entry>, crc: Bytes -> U32, hashes: Hashes)
    requires Lays(l, entries, crc, hashes)
    ensures |l.index| == |l.blocks| && Flatten(l.blocks) == entries && NoEmptyBlock(l.blocks)
  {
    hide Covers, EncodeBlock;
    forall i | 0 <= i < |l.blocks|
      ensures l.blocks[i] != []
    {
      assert BlockAt(l.body, l.blocks[i], l.index[i], crc);
    }
  }

  /** Opens a file, if all of its parts check out. */
  method Open(file: Bytes, crc: Bytes -> U32, hashes: Hashes) returns (r: Reader?)
    ensures r == null <==> OpenFile(file, crc).None?
    ensures r != null ==> r.Valid() && fresh(r) && r.file == file && r.crc == crc && r.bloom.hashes == hashes
    ensures r != null ==> var parts := OpenFile(file, crc).value;
      && r.index == parts.index && r.meta == parts.meta
      && r.bloom.numHashes == parts.bloom.numHashes && r.bloom.numBits == parts.bloom.numBits
      && r.bloom.bits[..] == FromBytes(parts.bloom.data)
  {
    hide DecodeFooter, DecodeIndex, DecodeBloom, DecodeMeta;
    if |file| < FOOTER_SIZE {
      return null;
    }
    var bodySize := |file| - FOOTER_SIZE;
    FooterFits(file[bodySize..], bodySize, crc);
    var footer := DecodeFooter(file[bodySize..], bodySize, crc);
    if footer.None? {
      return null;
    }
    var f := footer.value;
    var index := ReadIndex(file[f.index.offset..f.index.offset + f.index.length], crc);
    if index.None? {
      return null;
    }
    var bloom := DecodeBloom(file[f.bloom.offset..f.bloom.offset + f.bloom.length], crc);
    if bloom.None? {
      return null;
    }
    var meta := DecodeMeta(file[f.meta.offset..f.meta.offset + f.meta.length], crc);
    if meta.None? {
      return null;
    }
    for i := 0 to |index.value|
      invariant forall j :: 0 <= j < i ==> InDataRegion(index.value[j], f.index.offset)
    {
      var e := index.value[i];
      if e.blockOffset > f.index.offset || e.blockLength > f.index.offset - e.blockOffset {
        assert !InDataRegion(index.value[i], f.index.offset);
        return null;
      }
    }
    var filter := new BloomFilter.Load(hashes, bloom.value.numHashes, bloom.value.numBits, bloom.value.data);
    r := new Reader(file, Opened(index.value, bloom.value, meta.value), filter, crc);
  }

  lemma FooterFits(buf: Bytes, bodySize: nat, crc: Bytes -> U32)
    ensures var f := DecodeFooter(buf, bodySize, crc);
            f.Some? ==> Fits(f.value.index, bodySize) && Fits(f.value.bloom, bodySize) && Fits(f.value.meta, bodySize)
  {
  }

  /** Opening what the writer built serves the entries that went into it. */
  lemma BuiltServes(r: Reader, l: Layout, entries: seq<Entry>)
    requires r.Valid() && Lays(l, entries, r.crc, r.bloom.hashes) && Increasing(entries) && |entries| < TWO64
    requires r.file == FileOf(l, MetaOf(entries), r.crc) && |r.file| < TWO64 && l.numBits <= MAX_BLOOM_BITS
    requires OpenFile(r.file, r.crc).Some? ==> var parts := OpenFile(r.file, r.crc).value;
      && r.index == parts.index && r.meta == parts.meta
      && r.bloom.numHashes == parts.bloom.numHashes && r.bloom.numBits == parts.bloom.numBits
      && r.bloom.bits[..] == FromBytes(parts.bloom.data)
    ensures OpenFile(r.file, r.crc).Some? && r.Serves(l, entries)
  {
    hide Packed, Covers, OpenFile, EncodeIndex, EncodeBloom, EncodeMeta, EncodeFooter;
    OpensWhatWasLaid(l, entries, r.crc, r.bloom.hashes);
    BitsRoundTrip(l.bits);
  }

  // ------------------------------------------------------------- the iterator

  class Iterator {
    const r: Reader
    var nextBlock: nat
    var entries: seq<Entry>
    var pos: int
    var failed: bool

    constructor (r: Reader)
      ensures this.r == r && nextBlock == 0 && entries == [] && pos == -1 && !failed
    {
      this.r, nextBlock, entries, pos, failed := r, 0, [], -1, false;
    }

    /** The next entry to be given out is number `k`. */
    ghost predicate At(l: Layout, k: nat)
      reads this
    {
      && !failed
      && nextBlock <= |l.blocks|
      && entries == (if nextBlock == 0 then [] else l.blocks[nextBlock - 1])
      && -1 <= pos && (pos < |entries| || pos == -1)
      && k + |entries| == Start(l.blocks, nextBlock) + pos + 1
    }

    method Next(ghost l: Layout, ghost all: seq<Entry>, ghost k: nat) returns (more: bool)
      requires r.Valid() && -1 <= pos && (pos < |entries| || pos == -1)
      modifies this
      ensures -1 <= pos && (pos < |entries| || pos == -1) && (more ==> 0 <= pos)
      ensures old(r.Serves(l, all) && At(l, k)) ==>
        if more then k < |all| && At(l, k + 1) && entries[pos] == all[k] else k == |all| && !failed
    {
      hide Lays, DecodeBlock, Less, Flatten;
      if failed {
        return false;
      }
      ghost var served := r.Serves(l, all) && At(l, k);
      while true
        invariant -1 <= pos && (pos < |entries| || pos == -1) && !failed
        invariant served ==> r.Serves(l, all) && At(l, k)
        decreases |r.index| - nextBlock
      {
        if pos + 1 < |entries| {
          if served {
            GivenNext(l, all, k);
          }
          pos := pos + 1;
          return true;
        }
        if nextBlock >= |r.index| {
          if served {
            AllGiven(l, all, k);
          }
          return false;
        }
        if served {
          NextDecodes(l, all);
        }
        var at := r.index[nextBlock];
        nextBlock := nextBlock + 1;
        if at.blockOffset + at.blockLength > |r.file| {
          failed := true;
          return false;
        }
        var block := Decode(r.file[at.blockOffset..at.blockOffset + at.blockLength], r.crc);
        if block.None? {
          failed := true;
          return false;
        }
        entries := block.value;
        pos := -1;
      }
    }

    lemma GivenNext(l: Layout, all: seq<Entry>, k: nat)
      requires r.Serves(l, all) && At(l, k) && pos + 1 < |entries|
      ensures k < |all| && entries[pos + 1] == all[k]
    {
      hide Lays;
      SameCount(l, all, r.crc, r.bloom.hashes);
      EntryOfBlock(l.blocks, nextBlock - 1, pos + 1);
      FlattenAt(l.blocks, nextBlock - 1);
    }

    lemma AllGiven(l: Layout, all: seq<Entry>, k: nat)
      requires r.Serves(l, all) && At(l, k) && pos + 1 >= |entries| && nextBlock >= |r.index|
      ensures k == |all|
    {
      hide Lays;
      SameCount(l, all, r.crc, r.bloom.hashes);
      assert l.blocks[..nextBlock] == l.blocks;
    }

    lemma NextDecodes(l: Layout, all: seq<Entry>)
      requires nextBlock < |r.index|
      requires r.Serves(l, all)
      ensures var at := r.index[nextBlock];
              && nextBlock < |l.blocks|
              && at.blockOffset + at.blockLength <= |r.file|
              && DecodeBlock(r.file[at.blockOffset..at.blockOffset + at.blockLength], r.crc)
                 == Some(l.blocks[nextBlock])
              && Start(l.blocks, nextBlock + 1) == Start(l.blocks, nextBlock) + |l.blocks[nextBlock]|
    {
      hide Lays, DecodeBlock;
      SameCount(l, all, r.crc, r.bloom.hashes);
      LaidBlock(l, all, r.crc, r.bloom.hashes, nextBlock);
      FlattenAt(l.blocks, nextBlock);
      var at := r.index[nextBlock];
      assert r.file[at.blockOffset..at.blockOffset + at.blockLength]
             == l.body[at.blockOffset..at.blockOffset + at.blockLength];
    }
  }

  /** A scan of the whole table gives exactly its entries, in order. */
  method Scan(r: Reader, ghost l: Layout, ghost all: seq<Entry>) returns (out: seq<Entry>)
    requires r.Serves(l, all)
    ensures out == all
  {
    hide Lays, Less;
    var it := new Iterator(r);
    out := [];
    while true
      invariant r.Serves(l, all) && it.r == r && it.At(l, |out|) && |out| <= |all| && out == all[..|out|]
      decreases |all| - |out|
    {
      var more := it.Next(l, all, |out|);
      if !more {
        break;
      }
      out := out + [it.entries[it.pos]];
    }
    assert all[..|all|] == all;
  }
}
