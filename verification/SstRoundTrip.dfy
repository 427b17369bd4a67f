/** From entries to a file and back. */
module SstRoundTrip {
  import opened ByteStrings
  import opened Options
  import opened LittleEndian
  import opened SstBlocks
  import opened SstBloom
  import opened SstFiles
  import opened SstWriter
  import opened SstReader

  /** A table that was built can be opened exactly when its filter is not too
      large for a reader, and its reader then serves exactly the entries that
      were added: lookups agree with a search through them and a scan gives them
      back. */
  method BuildAndOpen(w: Writer, crc: Bytes -> U32, hashes: Hashes, numHashes: nat, numBits: nat)
    returns (file: Option<Bytes>, r: Reader?, ghost l: Layout)
    requires w.Valid() && ValidShape(numHashes, numBits)
    ensures file.Some? <==> w.entries != [] && forall i :: 0 <= i < |w.entries| ==> Storable(w.entries[i])
    ensures file.Some? && |file.value| < TWO64 && |w.entries| < TWO64 ==>
      (r != null <==> numBits <= MAX_BLOOM_BITS) && (r != null ==> r.Serves(l, w.entries))
  {
    hide Packed, Covers, OpenFile, FileOf;
    r := null;
    file, l := w.Build(crc, hashes, numHashes, numBits);
    if file.Some? {
      r := Open(file.value, crc, hashes);
      if |file.value| < TWO64 && |w.entries| < TWO64 {
        OpensWhatWasLaid(l, w.entries, crc, hashes);
        if numBits <= MAX_BLOOM_BITS {
          BuiltServes(r, l, w.entries);
        }
      }
    }
  }
}
