/** The bloom filter of an SSTable: no key that was added is ever ruled out. */
module SstBloom {
  import opened ByteStrings
  import opened Options
  import opened LittleEndian

  const MAX_BLOOM_BITS: nat := 0x4_0000_0000

  /** Two hashes of a key; which ones makes no difference here. */
  datatype Hashes = Hashes(first: Bytes -> nat, second: Bytes -> nat)

  predicate ValidShape(numHashes: nat, numBits: nat) {
    0 < numHashes <= 64 && 0 < numBits < TWO64
  }

  /** How many bytes hold `numBits` bits. */
  function BytesFor(numBits: nat): nat {
    (numBits + 7) / 8
  }

  /** The bit that the `i`-th probe of a key looks at, in 64-bit arithmetic. */
  function Probe(hashes: Hashes, numBits: nat, key: Bytes, i: nat): (idx: nat)
    requires numBits > 0
    ensures idx < numBits && idx / 8 < BytesFor(numBits)
  {
    ((hashes.first(key) + i * hashes.second(key)) % TWO64) % numBits
  }

  function Mask(k: nat): bv8
    requires k < 8
  {
    if k == 0 then 1 else if k == 1 then 2 else if k == 2 then 4 else if k == 3 then 8
    else if k == 4 then 16 else if k == 5 then 32 else if k == 6 then 64 else 128
  }

  predicate BitSet(bits: seq<bv8>, idx: nat)
    requires idx / 8 < |bits|
  {
    bits[idx / 8] & Mask(idx % 8) != 0
  }

  lemma OrSets(b: bv8, k: nat, j: nat)
    requires k < 8 && j < 8
    ensures (b | Mask(k)) & Mask(j) != 0 <==> j == k || b & Mask(j) != 0
  {
  }

  /** Setting a bit sets that bit and clears none. */
  lemma SetBit(bits: seq<bv8>, idx: nat, other: nat)
    requires idx / 8 < |bits| && other / 8 < |bits|
    ensures var bits' := bits[idx / 8 := bits[idx / 8] | Mask(idx % 8)];
            BitSet(bits', other) <==> other == idx || BitSet(bits, other)
  {
    OrSets(bits[idx / 8], idx % 8, other % 8);
  }

  /** All probes of the key find their bit. */
  ghost predicate Covers(hashes: Hashes, numHashes: nat, numBits: nat, bits: seq<bv8>, key: Bytes)
    requires numBits > 0 && |bits| == BytesFor(numBits)
  {
    forall i :: 0 <= i < numHashes ==> BitSet(bits, Probe(hashes, numBits, key, i))
  }

  class BloomFilter {
    const hashes: Hashes
    const numHashes: nat
    const numBits: nat
    const bits: array<bv8>

    ghost predicate Valid()
      reads this
    {
      ValidShape(numHashes, numBits) && bits.Length == BytesFor(numBits)
    }

    constructor (hashes: Hashes, numHashes: nat, numBits: nat)
      requires ValidShape(numHashes, numBits)
      ensures Valid() && this.hashes == hashes && this.numHashes == numHashes && this.numBits == numBits
      ensures fresh(bits)
    {
      this.hashes, this.numHashes, this.numBits := hashes, numHashes, numBits;
      bits := new bv8[BytesFor(numBits)](_ => 0);
    }

    constructor Load(hashes: Hashes, numHashes: nat, numBits: nat, data: Bytes)
      requires ValidShape(numHashes, numBits) && |data| == BytesFor(numBits)
      ensures Valid() && this.hashes == hashes && this.numHashes == numHashes && this.numBits == numBits
      ensures fresh(bits) && bits[..] == FromBytes(data)
    {
      this.hashes, this.numHashes, this.numBits := hashes, numHashes, numBits;
      bits := new bv8[BytesFor(numBits)](i requires 0 <= i < |data| => data[i] as bv8);
    }

    ghost predicate Has(key: Bytes)
      requires Valid()
      reads this, bits
    {
      Covers(hashes, numHashes, numBits, bits[..], key)
    }

    /** Adds a key; whatever the filter had it still has. */
    method Add(key: Bytes)
      requires Valid()
      modifies bits
      ensures Has(key) && forall other :: old(Has(other)) ==> Has(other)
    {
      for i := 0 to numHashes
        invariant forall j :: 0 <= j < i ==> BitSet(bits[..], Probe(hashes, numBits, key, j))
        invariant forall idx: nat :: idx < numBits && BitSet(old(bits[..]), idx) ==> BitSet(bits[..], idx)
      {
        var idx := Probe(hashes, numBits, key, i);
        ghost var before := bits[..];
        bits[idx / 8] := bits[idx / 8] | Mask(idx % 8);
        assert bits[..] == before[idx / 8 := before[idx / 8] | Mask(idx % 8)];
        forall other: nat | other < numBits
          ensures BitSet(bits[..], other) <==> other == idx || BitSet(before, other)
        {
          SetBit(before, idx, other);
        }
      }
    }

    method MightContain(key: Bytes) returns (might: bool)
      requires Valid()
      ensures might <==> Has(key)
    {
      for i := 0 to numHashes
        invariant forall j :: 0 <= j < i ==> BitSet(bits[..], Probe(hashes, numBits, key, j))
      {
        var idx := Probe(hashes, numBits, key, i);
        if bits[idx / 8] & Mask(idx % 8) == 0 {
          assert !BitSet(bits[..], idx);
          return false;
        }
      }
      return true;
    }
  }

  // -------------------------------------------------------------------- codec

  function ToBytes(bits: seq<bv8>): (data: Bytes)
    ensures |data| == |bits|
  {
    seq(|bits|, i requires 0 <= i < |bits| => bits[i] as int)
  }

  function FromBytes(data: Bytes): (bits: seq<bv8>)
    ensures |bits| == |data|
  {
    seq(|data|, i requires 0 <= i < |data| => data[i] as bv8)
  }

  lemma BitsRoundTrip(bits: seq<bv8>)
    ensures FromBytes(ToBytes(bits)) == bits
  {
  }

  function EncodeBloom(numHashes: nat, numBits: nat, bits: seq<bv8>, crc: Bytes -> U32): Bytes {
    Sealed([numHashes % 256] + (LE(numBits, 8) + (LE(|bits|, 4) + ToBytes(bits))), crc)
  }

  datatype Bloom = Bloom(numHashes: nat, numBits: nat, data: Bytes)

  function DecodeBloom(data: Bytes, crc: Bytes -> U32): (r: Option<Bloom>)
    ensures r.Some? ==> ValidShape(r.value.numHashes, r.value.numBits) && |r.value.data| == BytesFor(r.value.numBits)
    ensures r.Some? ==> r.value.numBits <= MAX_BLOOM_BITS
  {
    if |data| < 17 then None
    else
      var numHashes, numBits, bitsLen := data[0], Value(data[1..9]), Value(data[9..13]);
      if numHashes == 0 || numHashes > 64 || numBits == 0 || numBits > MAX_BLOOM_BITS then None
      else if bitsLen != BytesFor(numBits) || |data| != 13 + bitsLen + 4 then None
      else
        var payload := data[..13 + bitsLen];
        if crc(payload) != Value(data[13 + bitsLen..]) then None
        else Some(Bloom(numHashes, numBits, data[13..13 + bitsLen]))
  }

  /** A filter that was saved is read back, unless it has more bits than a
      reader accepts: the writer has no such limit. */
  lemma BloomRoundTrip(numHashes: nat, numBits: nat, bits: seq<bv8>, crc: Bytes -> U32)
    requires ValidShape(numHashes, numBits) && |bits| == BytesFor(numBits)
    ensures DecodeBloom(EncodeBloom(numHashes, numBits, bits, crc), crc)
         == if numBits <= MAX_BLOOM_BITS then Some(Bloom(numHashes, numBits, ToBytes(bits))) else None
  {
    hide LE, Value, ToBytes;
    var payload := [numHashes] + (LE(numBits, 8) + (LE(|bits|, 4) + ToBytes(bits)));
    var data := EncodeBloom(numHashes, numBits, bits, crc);
    assert data == payload + LE(crc(payload), 4);
    Value64(numBits);
    assert data[1..9] == LE(numBits, 8) && data[9..13] == LE(|bits|, 4);
    if numBits <= MAX_BLOOM_BITS {
      Value32(|bits|);
      Value32(crc(payload));
      assert data[..13 + |bits|] == payload && data[13 + |bits|..] == LE(crc(payload), 4);
      assert data[13..13 + |bits|] == ToBytes(bits);
    }
  }
}
