/** A table as a value: entries in strictly increasing key order, some of which
    are tombstones, and what looking up a key in it means. */
module Tables {
  import opened ByteStrings
  import opened Options

  datatype Entry = Entry(key: Bytes, value: Bytes, tombstone: bool)

  type Table = seq<Entry>

  predicate Increasing(t: seq<Entry>) {
    forall i, j :: 0 <= i < j < |t| ==> Less(t[i].key, t[j].key)
  }

  /** The first entry with the key, from the front. */
  function Find(t: seq<Entry>, key: Bytes): (r: Option<Entry>)
    ensures r.Some? ==> r.value.key == key && r.value in t
    ensures r.None? <==> forall i :: 0 <= i < |t| ==> t[i].key != key
  {
    if t == [] then None else if t[0].key == key then Some(t[0]) else Find(t[1..], key)
  }

  lemma FindAt(t: seq<Entry>, i: nat)
    requires Increasing(t) && i < |t|
    ensures Find(t, t[i].key) == Some(t[i])
  {
    var r := Find(t, t[i].key).value;
    var j :| 0 <= j < |t| && t[j] == r;
    LessIrreflexive(t[i].key);
  }

  lemma IncreasingExtend(t: seq<Entry>, e: Entry)
    requires Increasing(t) && (t != [] ==> Less(t[|t| - 1].key, e.key))
    ensures Increasing(t + [e])
  {
    var n := |t|;
    forall i, j | 0 <= i < j < n + 1
      ensures Less((t + [e])[i].key, (t + [e])[j].key)
    {
      if j == n && i < n - 1 {
        LessTransitive(t[i].key, t[n - 1].key, e.key);
      }
    }
  }
}
