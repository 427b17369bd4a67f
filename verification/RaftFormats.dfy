/** The two files of a Raft node: the saved term, vote and log, and the saved
    snapshot. Each is a magic number, a version, little-endian fields and a
    checksum over everything before it. */
module RaftFormats {
  import opened Options
  import opened LittleEndian
  import opened RaftTypes
  import opened RaftMessages

  const RAFT_MAGIC: Bytes := [70, 111, 114, 103, 101, 82, 80, 49]
  const SNAPSHOT_MAGIC: Bytes := [70, 111, 114, 103, 101, 83, 83, 49]
  const FORMAT_VERSION: nat := 1
  const MAX_VOTED_FOR_LEN: nat := 4096
  const MAX_LOG_ENTRIES: nat := 0x10_0000
  const MAX_COMMAND_SIZE: nat := 0x10_0000
  const MAX_STATE_SIZE: nat := 0x4000_0000
  const MAX_SNAPSHOT_DATA_SIZE: nat := 0x1000_0000
  const MAX_SNAPSHOT_FILE_SIZE: nat := 0x2000_0000

  // ------------------------------------------------------------------- names

  /** A name is a string of bytes. */
  predicate IsName(name: NodeId) {
    forall i :: 0 <= i < |name| ==> name[i] as int < 256
  }

  function NameBytes(name: NodeId): Bytes
    requires IsName(name)
  {
    seq(|name|, i requires 0 <= i < |name| => name[i] as int)
  }

  function NameOf(b: Bytes): NodeId {
    seq(|b|, i requires 0 <= i < |b| => b[i] as char)
  }

  lemma NamesRoundTrip(name: NodeId)
    requires IsName(name)
    ensures NameOf(NameBytes(name)) == name
  {
  }

  // ------------------------------------------------------- what can be saved

  /** The entry's numbers are 64 bits wide. */
  predicate EntryTyped(e: Entry) {
    e.index < TWO64 && e.term < TWO64
  }

  /** The state is one that the fields of the program can hold. */
  predicate StateTyped(s: PersistentState) {
    && IsName(s.votedFor)
    && s.term < TWO64
    && forall i :: 0 <= i < |s.log| ==> EntryTyped(s.log[i])
  }

  /** The limits that saving checks. */
  predicate StateFits(s: PersistentState) {
    && |s.votedFor| <= MAX_VOTED_FOR_LEN
    && |s.log| <= MAX_LOG_ENTRIES
    && forall i :: 0 <= i < |s.log| ==> |s.log[i].command| <= MAX_COMMAND_SIZE
  }

  /** The log of the file is one that a node can have saved: no gaps, no index
      0, and terms that do not decrease or pass the current one. */
  predicate InOrder(entries: seq<Entry>) {
    && (entries != [] ==> entries[0].index > 0)
    && (forall i :: 0 <= i < |entries| ==> entries[i].index == entries[0].index + i)
    && (forall i :: 0 < i < |entries| ==> entries[i - 1].term <= entries[i].term)
  }

  predicate Loadable(s: PersistentState) {
    InOrder(s.log) && (s.log != [] ==> s.log[|s.log| - 1].term <= s.term)
  }

  // ---------------------------------------------------------------- encoding

  function EntryOnto(e: Entry, rest: Bytes): Bytes {
    LE(e.index, 8) + (LE(e.term, 8) + (LE(|e.command|, 4) + (e.command + rest)))
  }

  function EntriesOnto(entries: seq<Entry>, rest: Bytes): Bytes {
    if entries == [] then rest else EntryOnto(entries[0], EntriesOnto(entries[1..], rest))
  }

  function StateHead(s: PersistentState, rest: Bytes): Bytes
    requires IsName(s.votedFor)
  {
    RAFT_MAGIC + (LE(FORMAT_VERSION, 4)
                  + (LE(s.term, 8) + (LE(|s.votedFor|, 4) + (NameBytes(s.votedFor) + (LE(|s.log|, 4) + rest)))))
  }

  function EncodeState(s: PersistentState, crc: Bytes -> U32): Option<Bytes>
    requires IsName(s.votedFor)
  {
    if !StateFits(s) then None else Some(Sealed(StateHead(s, EntriesOnto(s.log, [])), crc))
  }

  function EncodeSnapshot(s: Snapshot, crc: Bytes -> U32): Option<Bytes> {
    if |s.data| > MAX_SNAPSHOT_DATA_SIZE then None
    else Some(Sealed(SNAPSHOT_MAGIC
                     + (LE(FORMAT_VERSION, 4) + (LE(s.index, 8) + (LE(s.term, 8) + (LE(|s.data|, 4) + s.data)))), crc))
  }

  // ---------------------------------------------------------------- decoding

  function ReadEntry(p: Bytes): (r: Option<(Entry, Bytes)>)
    ensures r.Some? ==> |r.value.1| < |p|
  {
    if |p| < 20 then None
    else
      var n := Value(p[16..20]);
      if n > MAX_COMMAND_SIZE || |p| - 20 < n then None
      else Some((Entry(Value(p[..8]), Value(p[8..16]), p[20..20 + n]), p[20 + n..]))
  }

  function ReadEntries(p: Bytes, n: nat): Option<(seq<Entry>, Bytes)> {
    if n == 0 then Some(([], p))
    else
      var first := ReadEntry(p);
      if first.None? then None
      else
        var rest := ReadEntries(first.value.1, n - 1);
        if rest.None? then None else Some(([first.value.0] + rest.value.0, rest.value.1))
  }

  /** The state in the body of a file, after its magic number and version. */
  function ReadState(p: Bytes): Option<PersistentState>
    requires |p| >= 12
  {
    var term, nameLen := Value(p[..8]), Value(p[8..12]);
    if nameLen > MAX_VOTED_FOR_LEN || |p| - 12 < nameLen + 4 then None
    else
      var name, at := p[12..12 + nameLen], 12 + nameLen;
      var count := Value(p[at..at + 4]);
      if count > MAX_LOG_ENTRIES then None
      else
        var entries := ReadEntries(p[at + 4..], count);
        if entries.None? || entries.value.1 != [] then None
        else
          var s := PersistentState(term, NameOf(name), entries.value.0);
          if Loadable(s) then Some(s) else None
  }

  function DecodeState(data: Bytes, crc: Bytes -> U32): Option<PersistentState> {
    if |data| > MAX_STATE_SIZE || |data| < 28 || data[..8] != RAFT_MAGIC || Value(data[8..12]) != FORMAT_VERSION
      then None
    else
      var body := Unsealed(data, crc);
      if body.None? then None else ReadState(body.value[12..])
  }

  function DecodeSnapshot(data: Bytes, crc: Bytes -> U32): Option<Snapshot> {
    if |data| > MAX_SNAPSHOT_FILE_SIZE || |data| < 36 || data[..8] != SNAPSHOT_MAGIC
    || Value(data[8..12]) != FORMAT_VERSION then None
    else
      var body := Unsealed(data, crc);
      if body.None? then None
      else
        var n := Value(body.value[28..32]);
        if n > MAX_SNAPSHOT_DATA_SIZE || |body.value| - 32 != n then None
        else Some(Snapshot(Value(body.value[12..20]), Value(body.value[20..28]), body.value[32..]))
  }

  // ------------------------------------------------------------------- sizes

  /** How long the state's file is. */
  function EntriesSize(entries: seq<Entry>): nat {
    if entries == [] then 0 else 20 + |entries[0].command| + EntriesSize(entries[1..])
  }

  function StateSize(s: PersistentState): nat {
    32 + |s.votedFor| + EntriesSize(s.log)
  }

  lemma {:induction false} EntriesLength(entries: seq<Entry>, rest: Bytes)
    ensures |EntriesOnto(entries, rest)| == EntriesSize(entries) + |rest|
  {
    if entries != [] {
      EntriesLength(entries[1..], rest);
    }
  }

  // -------------------------------------------------------------- round trip

  lemma ReadsEntry(e: Entry, rest: Bytes)
    requires EntryTyped(e) && |e.command| <= MAX_COMMAND_SIZE
    ensures ReadEntry(EntryOnto(e, rest)) == Some((e, rest))
  {
    hide LE, Value;
    var p, n := EntryOnto(e, rest), |e.command|;
    Value64(e.index);
    Value64(e.term);
    Value32(n);
    assert p[..8] == LE(e.index, 8) && p[8..16] == LE(e.term, 8) && p[16..20] == LE(n, 4);
    assert p[20..20 + n] == e.command && p[20 + n..] == rest;
  }

  lemma {:induction false} ReadsEntries(entries: seq<Entry>, rest: Bytes)
    requires forall i :: 0 <= i < |entries| ==> EntryTyped(entries[i]) && |entries[i].command| <= MAX_COMMAND_SIZE
    ensures ReadEntries(EntriesOnto(entries, rest), |entries|) == Some((entries, rest))
  {
    hide ReadEntry, EntryOnto;
    if entries != [] {
      ReadsEntry(entries[0], EntriesOnto(entries[1..], rest));
      ReadsEntries(entries[1..], rest);
      assert [entries[0]] + entries[1..] == entries;
    }
  }

  lemma ReadsState(s: PersistentState)
    requires StateTyped(s) && StateFits(s)
    ensures ReadState(LE(s.term, 8)
                      + (LE(|s.votedFor|, 4) + (NameBytes(s.votedFor) + (LE(|s.log|, 4) + EntriesOnto(s.log, [])))))
            == if Loadable(s) then Some(s) else None
  {
    hide LE, Value, ReadEntries, EntriesOnto, Loadable, NameOf;
    var name, n, entries := NameBytes(s.votedFor), |s.votedFor|, EntriesOnto(s.log, []);
    var p := LE(s.term, 8) + (LE(n, 4) + (name + (LE(|s.log|, 4) + entries)));
    Value64(s.term);
    Value32(n);
    Value32(|s.log|);
    assert p[..8] == LE(s.term, 8) && p[8..12] == LE(n, 4) && p[12..12 + n] == name;
    assert p[12 + n..16 + n] == LE(|s.log|, 4) && p[16 + n..] == entries;
    ReadsEntries(s.log, []);
    NamesRoundTrip(s.votedFor);
  }

  /** A saved state is loaded as it was, unless its file is larger than loading
      takes; saving has no such limit. */
  lemma StateRoundTrip(s: PersistentState, crc: Bytes -> U32)
    requires StateTyped(s) && StateFits(s) && Loadable(s)
    ensures DecodeState(EncodeState(s, crc).value, crc) == if StateSize(s) <= MAX_STATE_SIZE then Some(s) else None
  {
    hide LE, Value, EntriesOnto, ReadState, Loadable, EntriesSize;
    var rest := LE(s.term, 8)
      + (LE(|s.votedFor|, 4) + (NameBytes(s.votedFor) + (LE(|s.log|, 4) + EntriesOnto(s.log, []))));
    var body := StateHead(s, EntriesOnto(s.log, []));
    var data := Sealed(body, crc);
    EntriesLength(s.log, []);
    assert |data| == StateSize(s);
    SealedUnseals(body, crc);
    Value32(FORMAT_VERSION);
    assert body == RAFT_MAGIC + (LE(FORMAT_VERSION, 4) + rest) && body[12..] == rest;
    assert data[..8] == RAFT_MAGIC && data[8..12] == LE(FORMAT_VERSION, 4);
    ReadsState(s);
  }

  /** Whatever snapshot could be saved can be loaded. */
  lemma SnapshotRoundTrip(s: Snapshot, crc: Bytes -> U32)
    requires s.index < TWO64 && s.term < TWO64 && |s.data| <= MAX_SNAPSHOT_DATA_SIZE
    ensures DecodeSnapshot(EncodeSnapshot(s, crc).value, crc) == Some(s)
  {
    hide LE, Value;
    var n := |s.data|;
    var body := SNAPSHOT_MAGIC + (LE(FORMAT_VERSION, 4) + (LE(s.index, 8) + (LE(s.term, 8) + (LE(n, 4) + s.data))));
    var data := Sealed(body, crc);
    SealedUnseals(body, crc);
    Value32(FORMAT_VERSION);
    Value64(s.index);
    Value64(s.term);
    Value32(n);
    assert data[..8] == SNAPSHOT_MAGIC && data[8..12] == LE(FORMAT_VERSION, 4);
    assert body[12..20] == LE(s.index, 8) && body[20..28] == LE(s.term, 8) && body[28..32] == LE(n, 4)
           && body[32..] == s.data;
  }

  // ------------------------------------------------------- too large to load

  lemma {:induction false} EqualSizes(entries: seq<Entry>, n: nat)
    requires forall i :: 0 <= i < |entries| ==> |entries[i].command| == n
    ensures EntriesSize(entries) == |entries| * (20 + n)
  {
    if entries != [] {
      EqualSizes(entries[1..], n);
    }
  }

  /** 1024 entries of a mebibyte each can be saved, but not loaded. */
  lemma SavedNotLoaded(crc: Bytes -> U32) returns (s: PersistentState)
    ensures StateTyped(s) && StateFits(s) && Loadable(s)
    ensures EncodeState(s, crc).Some? && DecodeState(EncodeState(s, crc).value, crc) == None
  {
    hide DecodeState, EntriesOnto;
    var command: Bytes := seq(MAX_COMMAND_SIZE, _ => 0);
    s := PersistentState(1, NOBODY, seq(1024, i requires 0 <= i < 1024 => Entry(i + 1, 1, command)));
    EqualSizes(s.log, MAX_COMMAND_SIZE);
    StateRoundTrip(s, crc);
  }

  // -------------------------------------------------------------- the codecs

  /** Bytes written one field after another. */
  lemma EntryAppends(e: Entry, rest: Bytes)
    ensures EntryOnto(e, []) + rest == EntryOnto(e, rest)
  {
    assert e.command + [] == e.command;
  }

  method WriteState(s: PersistentState, crc: Bytes -> U32) returns (r: Option<Bytes>)
    requires IsName(s.votedFor)
    ensures r == EncodeState(s, crc)
  {
    hide LE, EntryOnto;
    if |s.votedFor| > MAX_VOTED_FOR_LEN || |s.log| > MAX_LOG_ENTRIES {
      return None;
    }
    for i := 0 to |s.log|
      invariant forall j :: 0 <= j < i ==> |s.log[j].command| <= MAX_COMMAND_SIZE
    {
      if |s.log[i].command| > MAX_COMMAND_SIZE {
        return None;
      }
    }
    var buf := RAFT_MAGIC + LE(FORMAT_VERSION, 4) + LE(s.term, 8) + LE(|s.votedFor|, 4) + NameBytes(s.votedFor)
      + LE(|s.log|, 4);
    ghost var body := StateHead(s, EntriesOnto(s.log, []));
    assert s.log[0..] == s.log;
    HeadAppends(s, EntriesOnto(s.log, []));
    for i := 0 to |s.log|
      invariant buf + EntriesOnto(s.log[i..], []) == body
    {
      var e := s.log[i];
      EntryAppends(e, EntriesOnto(s.log[i + 1..], []));
      assert s.log[i..][0] == e && s.log[i..][1..] == s.log[i + 1..];
      assert (buf + EntryOnto(e, [])) + EntriesOnto(s.log[i + 1..], []) == buf + EntriesOnto(s.log[i..], []);
      buf := buf + EntryOnto(e, []);
    }
    assert buf + [] == buf;
    return Some(buf + LE(crc(buf), 4));
  }

  lemma HeadAppends(s: PersistentState, rest: Bytes)
    requires IsName(s.votedFor)
    ensures RAFT_MAGIC + LE(FORMAT_VERSION, 4) + LE(s.term, 8) + LE(|s.votedFor|, 4) + NameBytes(s.votedFor)
            + LE(|s.log|, 4) + rest
            == StateHead(s, rest)
  {
    hide LE, NameBytes;
  }

  /** Reading `n` entries goes on after the first one. */
  ghost predicate Continues(whole: Option<(seq<Entry>, Bytes)>, done: seq<Entry>, rest: Option<(seq<Entry>, Bytes)>) {
    if rest.None? then whole.None? else whole == Some((done + rest.value.0, rest.value.1))
  }

  /** The loop over the entries; it gives up at the first that is cut off, too
      large, or out of order. */
  method LoadEntries(p: Bytes, n: nat) returns (r: Option<(seq<Entry>, Bytes)>)
    ensures var whole := ReadEntries(p, n);
            r == if whole.Some? && InOrder(whole.value.0) then whole else None
  {
    hide ReadEntry;
    ghost var whole := ReadEntries(p, n);
    var entries: seq<Entry>, q := [], p;
    assert whole.Some? ==> [] + whole.value.0 == whole.value.0;
    for i := 0 to n
      invariant |entries| == i && InOrder(entries)
      invariant Continues(whole, entries, ReadEntries(q, n - i))
    {
      var next := ReadEntry(q);
      if next.None? {
        return None;
      }
      var e := next.value.0;
      ghost var rest := ReadEntries(next.value.1, n - i - 1);
      NextContinues(whole, entries, ReadEntries(q, n - i), e, rest);
      if (if i == 0 then e.index == 0 else e.index != entries[0].index + i) || (i > 0 && e.term < entries[i - 1].term) {
        if whole.Some? {
          OutOfOrder(whole.value.0, entries, e);
        }
        return None;
      }
      StaysInOrder(entries, e);
      entries, q := entries + [e], next.value.1;
    }
    assert entries + [] == entries;
    return Some((entries, q));
  }

  lemma NextContinues(whole: Option<(seq<Entry>, Bytes)>, done: seq<Entry>, here: Option<(seq<Entry>, Bytes)>, e: Entry,
                      rest: Option<(seq<Entry>, Bytes)>)
    requires Continues(whole, done, here)
    requires here == if rest.None? then None else Some(([e] + rest.value.0, rest.value.1))
    ensures Continues(whole, done + [e], rest)
    ensures whole.Some? ==> done + [e] <= whole.value.0
  {
    if rest.Some? {
      assert done + ([e] + rest.value.0) == done + [e] + rest.value.0;
    }
  }

  lemma StaysInOrder(entries: seq<Entry>, e: Entry)
    requires InOrder(entries)
    requires if entries == [] then e.index > 0
             else e.index == entries[0].index + |entries| && entries[|entries| - 1].term <= e.term
    ensures InOrder(entries + [e])
  {
  }

  lemma OutOfOrder(whole: seq<Entry>, entries: seq<Entry>, e: Entry)
    requires entries + [e] <= whole
    requires if entries == [] then e.index == 0
             else e.index != entries[0].index + |entries| || e.term < entries[|entries| - 1].term
    ensures !InOrder(whole)
  {
    var k := |entries|;
    assert whole[k] == e && (k > 0 ==> whole[k - 1] == entries[k - 1] && whole[0] == entries[0]);
  }

  method LoadState(data: Bytes, crc: Bytes -> U32) returns (r: Option<PersistentState>)
    ensures r == DecodeState(data, crc)
  {
    hide Value, ReadEntries, InOrder;
    if |data| > MAX_STATE_SIZE || |data| < 24 || data[..8] != RAFT_MAGIC || Value(data[8..12]) != FORMAT_VERSION
    || |data| < 28 {
      return None;
    }
    var body := Unsealed(data, crc);
    if body.None? {
      return None;
    }
    var p := body.value[12..];
    var nameLen := Value(p[8..12]);
    if nameLen > MAX_VOTED_FOR_LEN || |p| - 12 < nameLen {
      return None;
    }
    var at := 12 + nameLen;
    if |p| - at < 4 {
      return None;
    }
    var count := Value(p[at..at + 4]);
    if count > MAX_LOG_ENTRIES {
      return None;
    }
    var entries := LoadEntries(p[at + 4..], count);
    if entries.None? || entries.value.1 != [] {
      return None;
    }
    var s := PersistentState(Value(p[..8]), NameOf(p[12..at]), entries.value.0);
    if s.log != [] && s.log[|s.log| - 1].term > s.term {
      return None;
    }
    return Some(s);
  }
}
