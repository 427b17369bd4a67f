/** The write-ahead log: appending, syncing, and what survives a crash. */
module Wal {
  import opened ByteStrings
  import opened Options
  import opened LittleEndian
  import opened WalRecords

  /** The log file, the position of the next write, and how much of the file
      has been synced. */
  class Log {
    const crc: Bytes -> U32
    var file: Bytes
    var pos: nat
    var synced: nat

    ghost predicate Valid()
      reads this
    {
      pos <= |file| && synced <= |file|
    }

    /** Opens a file that a crash may have cut. */
    constructor (crc: Bytes -> U32, file: Bytes, synced: nat)
      requires synced <= |file|
      ensures Valid() && this.crc == crc && this.file == file && this.synced == synced && pos == 0
    {
      this.crc, this.file, pos, this.synced := crc, file, 0, synced;
    }

    /** Reads the log from the start, hands out its records, cuts off a torn
        tail and leaves the position at the end. */
    method Replay() returns (records: seq<Record>, ok: bool)
      requires Valid()
      modifies this
      ensures Valid()
      ensures var r := ReplayBytes(old(file), crc);
              && records == r.records
              && ok == r.ok
              && (ok ==> file == old(file)[..r.end] && pos == r.end)
              && (!ok ==> file == old(file))
              && synced == if |file| < old(synced) then |file| else old(synced)
    {
      hide Parse;
      var offset := 0;
      records := [];
      ghost var whole := ReplayBytes(file, crc);
      assert file[0..] == file;
      assert [] + whole.records == whole.records;
      while offset < |file|
        invariant 0 <= offset <= |file| && file == old(file) && synced == old(synced) && pos == old(pos)
        invariant Joined(records, offset, ReplayBytes(file[offset..], crc)) == whole
      {
        var next := Parse(file[offset..], crc);
        assert records + [] == records;
        if next.Corrupt? {
          return records, false;
        }
        if next.Torn? {
          break;
        }
        JoinedNext(records, offset, next.rec, next.size, ReplayBytes(file[offset..][next.size..], crc));
        assert file[offset..][next.size..] == file[offset + next.size..];
        records := records + [next.rec];
        offset := offset + next.size;
      }
      assert records + [] == records;
      file := file[..offset];
      pos := offset;
      if |file| < synced {
        synced := |file|;
      }
      return records, true;
    }

    /** Appends a record; a write that fails may leave its first bytes. */
    method Append(rec: Record, written: Option<nat>) returns (ok: bool)
      requires Valid()
      requires written.Some? ==> written.value < HEADER_SIZE + |rec.key| + |rec.value|
      modifies this
      ensures Valid() && synced == old(synced)
      ensures ok <==> Loggable(rec) && written.None?
      ensures !Loggable(rec) ==> file == old(file) && pos == old(pos)
      ensures Loggable(rec) && old(pos == |file|) ==>
        && pos == |file|
        && file == old(file) + if ok then EncodeRecord(rec, crc) else EncodeRecord(rec, crc)[..written.value]
    {
      var data := Encode(rec, crc);
      if data.None? {
        return false;
      }
      var bytes := if written.Some? then data.value[..written.value] else data.value;
      var after := if pos + |bytes| < |file| then file[pos + |bytes|..] else [];
      file := file[..pos] + bytes + after;
      pos := pos + |bytes|;
      return written.None?;
    }

    method Sync(ok: bool) returns (done: bool)
      requires Valid()
      modifies this`synced
      ensures Valid() && done == ok && synced == if ok then |file| else old(synced)
    {
      if ok {
        synced := |file|;
      }
      return ok;
    }
  }

  /** Records already handed out, before the outcome of the rest. */
  function Joined(records: seq<Record>, offset: nat, r: Replayed): Replayed {
    Replayed(records + r.records, offset + r.end, r.ok)
  }

  lemma JoinedNext(records: seq<Record>, offset: nat, rec: Record, size: nat, r: Replayed)
    ensures Joined(records, offset, Prepend(rec, size, r)) == Joined(records + [rec], offset + size, r)
  {
    assert records + ([rec] + r.records) == (records + [rec]) + r.records;
  }

  // --------------------------------------------------------------------- runs

  /** The log of a process: the records in its file, what failed appends and
      those after them have left behind these, and how many of the records have
      been synced. */
  datatype State = State(data: Bytes, records: seq<Record>, litter: Bytes, durable: nat)

  datatype Event =
    | Appended(rec: Record)
    | Refused(rec: Record)
    | Failed(rec: Record, written: nat)
    | Synced
    | SyncFailed
    | Crashed(keep: nat)

  ghost predicate Enabled(s: State, e: Event, crc: Bytes -> U32) {
    match e
    case Appended(rec) => Loggable(rec)
    case Failed(rec, written) => Loggable(rec) && written < |EncodeRecord(rec, crc)|
    case Crashed(keep) =>
      s.durable <= |s.records| && |EncodeAll(s.records[..s.durable], crc)| <= keep <= |s.data|
    case _ => true
  }

  /** Behind what a failed append has left, nothing counts as a record. */
  function Grown(s: State, bytes: Bytes, whole: seq<Record>): State {
    if s.litter == [] && whole != [] then s.(data := s.data + bytes, records := s.records + whole)
    else s.(data := s.data + bytes, litter := s.litter + bytes)
  }

  /** A crash keeps any prefix of the file that covers what was synced; the
      process then reopens the file and replays it. A replay that finds a
      corrupt record leaves the file as it is. */
  function Step(s: State, e: Event, crc: Bytes -> U32): State
    requires Enabled(s, e, crc)
  {
    match e
    case Appended(rec) => Grown(s, EncodeRecord(rec, crc), [rec])
    case Refused(_) => s
    case Failed(rec, written) => Grown(s, EncodeRecord(rec, crc)[..written], [])
    case Synced => s.(durable := |s.records|)
    case SyncFailed => s
    case Crashed(keep) =>
      var r := ReplayBytes(s.data[..keep], crc);
      if r.ok then s.(data := s.data[..r.end], records := r.records, litter := [])
      else s.(data := s.data[..keep], records := r.records, litter := s.data[..keep][r.end..])
  }

  ghost predicate Inv(s: State, crc: Bytes -> U32) {
    && AllLoggable(s.records)
    && s.data == EncodeAll(s.records, crc) + s.litter
    && s.durable <= |s.records|
  }

  ghost predicate IsRun(run: seq<State>, events: seq<Event>, crc: Bytes -> U32) {
    && |run| == |events| + 1
    && run[0] == State([], [], [], 0)
    && forall i :: 0 <= i < |events| ==> Enabled(run[i], events[i], crc) && run[i + 1] == Step(run[i], events[i], crc)
  }

  /** After a crash the records that are found have every synced one, whatever
      failed appends have left. */
  lemma CrashKeepsSynced(s: State, keep: nat, crc: Bytes -> U32)
    requires Inv(s, crc) && Enabled(s, Crashed(keep), crc)
    ensures var s' := Step(s, Crashed(keep), crc); Inv(s', crc) && s.records[..s.durable] <= s'.records
  {
    hide EncodeAll, EncodeRecord, ReplayBytes;
    var cut, first := s.data[..keep], s.records[..s.durable];
    EncodeLonger(s.records, s.durable, |s.records|, crc);
    assert s.records[..|s.records|] == s.records;
    var head := EncodeAll(first, crc);
    assert head <= s.data && head <= cut;
    assert cut == head + cut[|head|..];
    ReplayAfter(first, cut[|head|..], crc);
    ReplayedIsEncoded(cut, crc);
    var r := ReplayBytes(cut, crc);
    assert cut[..r.end] + cut[r.end..] == cut && cut[..r.end] == s.data[..r.end];
    assert cut[..r.end] + [] == cut[..r.end];
  }

  /** If no append has failed, the replay after a crash succeeds, the file ends
      on a record boundary, and the records are a prefix that has every synced
      one. */
  lemma CrashRecovers(s: State, keep: nat, crc: Bytes -> U32)
    requires Inv(s, crc) && Enabled(s, Crashed(keep), crc) && s.litter == []
    ensures ReplayBytes(s.data[..keep], crc).ok
    ensures var s' := Step(s, Crashed(keep), crc);
            Inv(s', crc) && s'.litter == [] && s'.records <= s.records && s.records[..s.durable] <= s'.records
  {
    hide EncodeAll, EncodeRecord, WholeWithin, ReplayBytes;
    CrashKeepsSynced(s, keep, crc);
    assert EncodeAll(s.records, crc) + [] == EncodeAll(s.records, crc);
    ReplayCut(s.records, keep, crc);
  }

  lemma StepKeeps(s: State, e: Event, crc: Bytes -> U32)
    requires Inv(s, crc) && Enabled(s, e, crc)
    ensures var s' := Step(s, e, crc); Inv(s', crc) && s.records[..s.durable] <= s'.records && s.durable <= s'.durable
  {
    hide EncodeRecord, ReplayBytes;
    match e
    case Appended(rec) =>
      assert (s.records + [rec])[..|s.records|] == s.records;
      assert EncodeAll(s.records, crc) + [] == EncodeAll(s.records, crc);
    case Crashed(keep) => CrashKeepsSynced(s, keep, crc);
    case _ =>
  }

  lemma {:induction false} RunKeeps(run: seq<State>, events: seq<Event>, crc: Bytes -> U32, i: nat)
    requires IsRun(run, events, crc) && i < |run|
    ensures Inv(run[i], crc)
  {
    if i > 0 {
      RunKeeps(run, events, crc, i - 1);
      StepKeeps(run[i - 1], events[i - 1], crc);
    }
  }

  /** What has been synced is never lost, over any number of appends, failed
      appends, failed syncs and crashes. */
  lemma {:induction false} SyncedSurvives(run: seq<State>, events: seq<Event>, crc: Bytes -> U32, i: nat, j: nat)
    requires IsRun(run, events, crc) && i <= j < |run|
    ensures run[i].durable <= |run[i].records| && run[i].durable <= run[j].durable
    ensures run[i].records[..run[i].durable] <= run[j].records
    decreases j
  {
    hide Step, Enabled, EncodeAll;
    RunKeeps(run, events, crc, i);
    if i < j {
      SyncedSurvives(run, events, crc, i, j - 1);
      RunKeeps(run, events, crc, j - 1);
      StepKeeps(run[j - 1], events[j - 1], crc);
      var d := run[i].durable;
      assert run[j - 1].records[..run[j - 1].durable][..d] == run[j - 1].records[..d] == run[i].records[..d];
    }
  }

  // ------------------------------------------------------------ failed appends

  /** What is read back as records is exactly what those records encode to. */
  lemma ParsedIsEncoded(data: Bytes, crc: Bytes -> U32)
    ensures var p := Parse(data, crc); p.Whole? ==> data[..p.size] == EncodeRecord(p.rec, crc)
  {
    var p := Parse(data, crc);
    if p.Whole? {
      var k, v := |p.rec.key|, |p.rec.value|;
      LEOfValue(data[0..4]);
      LEOfValue(data[5..9]);
      LEOfValue(data[9..13]);
      assert data[4..p.size] == [data[4]] + data[5..9] + data[9..13] + data[13..13 + k] + data[13 + k..p.size];
      assert data[..p.size] == data[0..4] + data[4..p.size];
    }
  }

  lemma {:induction false} LEOfValue(b: Bytes)
    ensures LE(Value(b), |b|) == b
  {
    if b != [] {
      LEOfValue(b[1..]);
      assert Value(b) / 256 == Value(b[1..]) && Value(b) % 256 == b[0];
    }
  }

  lemma {:induction false} ReplayedIsEncoded(data: Bytes, crc: Bytes -> U32)
    ensures var r := ReplayBytes(data, crc); data[..r.end] == EncodeAll(r.records, crc) && AllLoggable(r.records)
    decreases |data|
  {
    hide Parse, EncodeRecord;
    var r, p := ReplayBytes(data, crc), Parse(data, crc);
    if data != [] && p.Whole? {
      ParsedIsEncoded(data, crc);
      ReplayedIsEncoded(data[p.size..], crc);
      EncodeFront(r.records, crc);
      assert r.records[1..] == ReplayBytes(data[p.size..], crc).records;
      assert data[..r.end] == data[..p.size] + data[p.size..][..r.end - p.size];
    }
  }

  /** The log after a failed append left `n` bytes of `rec`, and `next` was
      appended and synced after it. */
  function Littered(recs: seq<Record>, rec: Record, n: nat, next: Record, crc: Bytes -> U32): Bytes
    requires n <= |EncodeRecord(rec, crc)|
  {
    EncodeAll(recs, crc) + EncodeRecord(rec, crc)[..n] + EncodeRecord(next, crc)
  }

  /** The replay finds the record that was appended after the failure. */
  ghost predicate FindsNext(recs: seq<Record>, rec: Record, n: nat, next: Record, crc: Bytes -> U32)
    requires n <= |EncodeRecord(rec, crc)|
  {
    ReplayBytes(Littered(recs, rec, n, next, crc), crc).records == recs + [next]
  }

  /** If it does, the next record's bytes come first after the good ones. */
  lemma FoundComesFirst(recs: seq<Record>, rec: Record, n: nat, next: Record, crc: Bytes -> U32)
    requires AllLoggable(recs) && Loggable(next) && n <= |EncodeRecord(rec, crc)| && FindsNext(recs, rec, n, next, crc)
    ensures EncodeRecord(next, crc) <= EncodeRecord(rec, crc)[..n] + EncodeRecord(next, crc)
  {
    hide Parse, EncodeRecord, ReplayBytes, EncodeAll;
    var data := Littered(recs, rec, n, next, crc);
    var a, b, e := EncodeAll(recs, crc), EncodeRecord(rec, crc)[..n] + EncodeRecord(next, crc), EncodeRecord(next, crc);
    ReplayedIsEncoded(data, crc);
    EncodeSplit(recs, [next], crc);
    SingleEncoded(next, crc);
    assert data == a + b;
    PrefixCancels(a, b, e, ReplayBytes(data, crc).end);
  }

  lemma PrefixCancels(a: Bytes, b: Bytes, e: Bytes, k: nat)
    requires k <= |a + b| && (a + b)[..k] == a + e
    ensures e <= b
  {
    assert k == |a| + |e|;
    assert b[..|e|] == (a + b)[..k][|a|..] == (a + e)[|a|..] == e;
  }

  lemma SingleEncoded(rec: Record, crc: Bytes -> U32)
    ensures EncodeAll([rec], crc) == EncodeRecord(rec, crc)
  {
    assert [rec][..0] == [];
  }

  /** A record that is not found, for any leftover of at least one byte. */
  function Victim(n: nat): Record {
    if n < 14 then Record(OP_PUT, [1], seq(14, i => if i == 13 then 1 else 0)) else Record(OP_PUT, [1], [])
  }

  /** Short leftovers: the victim ends in a byte that differs from the one
      `n` places before it. */
  lemma ShortLeftover(p: Bytes, crc: Bytes -> U32)
    requires 0 < |p| < 14
    ensures !(EncodeRecord(Victim(|p|), crc) <= p + EncodeRecord(Victim(|p|), crc))
  {
    var n, v := |p|, Victim(|p|);
    var e := EncodeRecord(v, crc);
    assert |e| == 28 && e[27] == 1;
    assert e[27 - n] == 0;
    assert (p + e)[27] == e[27 - n];
  }

  /** No record's bytes begin with those of a shorter one. */
  lemma PrefixIsWhole(v: Record, rec: Record, crc: Bytes -> U32)
    requires Loggable(v) && Loggable(rec) && EncodeRecord(v, crc) <= EncodeRecord(rec, crc)
    ensures |EncodeRecord(v, crc)| == |EncodeRecord(rec, crc)|
  {
    hide EncodeRecord;
    var e, f := EncodeRecord(v, crc), EncodeRecord(rec, crc);
    assert f == e + f[|e|..] && f == f + [];
    ParsesRecord(v, f[|e|..], crc);
    ParsesRecord(rec, [], crc);
  }

  /** Long leftovers: the victim would have to be the failed record itself. */
  lemma LongLeftover(rec: Record, n: nat, crc: Bytes -> U32)
    requires Loggable(rec) && 14 <= n < |EncodeRecord(rec, crc)|
    ensures !(EncodeRecord(Victim(n), crc) <= EncodeRecord(rec, crc)[..n] + EncodeRecord(Victim(n), crc))
  {
    hide EncodeRecord;
    var e, f := EncodeRecord(Victim(n), crc), EncodeRecord(rec, crc);
    if e <= f[..n] + e {
      assert e == f[..14];
      PrefixIsWhole(Victim(n), rec, crc);
    }
  }

  /** A failed append is harmless exactly when it left nothing behind: only
      then is whatever is appended and synced after it found again. */
  lemma FailedAppendExact(recs: seq<Record>, rec: Record, n: nat, crc: Bytes -> U32)
    requires AllLoggable(recs) && Loggable(rec) && n < |EncodeRecord(rec, crc)|
    ensures n == 0 <==> forall next :: Loggable(next) ==> FindsNext(recs, rec, n, next, crc)
  {
    hide EncodeRecord, FindsNext;
    if n == 0 {
      forall next | Loggable(next)
        ensures FindsNext(recs, rec, n, next, crc)
      {
        CleanAppend(recs, rec, next, crc);
      }
    } else {
      var v := Victim(n);
      if FindsNext(recs, rec, n, v, crc) {
        FoundComesFirst(recs, rec, n, v, crc);
        if n < 14 {
          ShortLeftover(EncodeRecord(rec, crc)[..n], crc);
        } else {
          LongLeftover(rec, n, crc);
        }
      }
    }
  }

  lemma CleanAppend(recs: seq<Record>, rec: Record, next: Record, crc: Bytes -> U32)
    requires AllLoggable(recs) && Loggable(next)
    ensures FindsNext(recs, rec, 0, next, crc)
  {
    hide EncodeRecord, Parse;
    EncodeSplit(recs, [next], crc);
    SingleEncoded(next, crc);
    ReplayAfter(recs + [next], [], crc);
    var all := EncodeAll(recs + [next], crc);
    assert Littered(recs, rec, 0, next, crc) == all && all + [] == all;
    assert (recs + [next]) + [] == recs + [next];
  }
}
