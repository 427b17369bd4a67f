/** Fixed-width little-endian numbers, as every binary format here uses them. */
module LittleEndian {
  import opened ByteStrings
  import opened Options

  const TWO32: nat := 0x1_0000_0000
  const TWO64: nat := 0x1_0000_0000_0000_0000

  type U32 = n: nat | n < TWO32

  function Pow256(k: nat): (n: nat)
    ensures n > 0
  {
    if k == 0 then 1 else 256 * Pow256(k - 1)
  }

  /** The low `k` bytes of `n`, least significant first; higher ones are lost. */
  function LE(n: nat, k: nat): (b: Bytes)
    ensures |b| == k
  {
    if k == 0 then [] else [n % 256] + LE(n / 256, k - 1)
  }

  function Value(b: Bytes): nat {
    if b == [] then 0 else b[0] + 256 * Value(b[1..])
  }

  lemma {:induction false} ValueOfLE(n: nat, k: nat)
    requires n < Pow256(k)
    ensures Value(LE(n, k)) == n
  {
    if k > 0 {
      assert n / 256 < Pow256(k - 1);
      ValueOfLE(n / 256, k - 1);
      assert LE(n, k)[1..] == LE(n / 256, k - 1);
    }
  }

  lemma Widths()
    ensures Pow256(4) == TWO32 && Pow256(8) == TWO64
  {
    assert Pow256(1) == 256 && Pow256(2) == 0x1_0000 && Pow256(3) == 0x100_0000;
    assert Pow256(5) == 256 * Pow256(4) && Pow256(6) == 256 * Pow256(5) && Pow256(7) == 256 * Pow256(6);
  }

  lemma Value32(n: nat)
    requires n < TWO32
    ensures Value(LE(n, 4)) == n
  {
    Widths();
    ValueOfLE(n, 4);
  }

  lemma Value64(n: nat)
    requires n < TWO64
    ensures Value(LE(n, 8)) == n
  {
    Widths();
    ValueOfLE(n, 8);
  }

  /** A payload followed by its checksum. */
  function Sealed(payload: Bytes, crc: Bytes -> U32): Bytes {
    payload + LE(crc(payload), 4)
  }

  /** The payload of sealed data, if its checksum fits. */
  function Unsealed(data: Bytes, crc: Bytes -> U32): Option<Bytes> {
    if |data| < 4 then None
    else
      var payload := data[..|data| - 4];
      if crc(payload) == Value(data[|data| - 4..]) then Some(payload) else None
  }

  lemma SealedUnseals(payload: Bytes, crc: Bytes -> U32)
    ensures Unsealed(Sealed(payload, crc), crc) == Some(payload)
  {
    var data := Sealed(payload, crc);
    assert data[..|data| - 4] == payload;
    assert data[|data| - 4..] == LE(crc(payload), 4);
    Value32(crc(payload));
  }
}
