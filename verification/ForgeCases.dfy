/** What the example runs of the database share: two small commands, what they
    do to the store, how large its snapshots are, and runs put together from
    shorter ones. */
module ForgeCases {
  import opened Options
  import opened LittleEndian
  import opened SortedRows
  import opened KvCommands
  import opened KvMachine
  import opened KvSnapshots
  import KvStateMachine
  import opened RaftTypes
  import opened RaftLog
  import opened RaftHandlers
  import opened RaftSystem
  import opened ForgeDb

  const X_KEY: Bytes := [120]
  const Y_KEY: Bytes := [121]
  const PUT_X := KvCommands.Command([1], 1, OP_PUT, X_KEY, [])
  const PUT_Y := KvCommands.Command([2], 1, OP_PUT, Y_KEY, [])

  function XBytes(): Bytes { EncodeCommand(PUT_X) }
  function YBytes(): Bytes { EncodeCommand(PUT_Y) }

  lemma Decoded()
    ensures DecodeCommand(XBytes()) == Some(PUT_X) && DecodeCommand(YBytes()) == Some(PUT_Y)
  {
    hide DecodeCommand, EncodeCommand;
    Powers();
    CommandRoundTrip(PUT_X);
    CommandRoundTrip(PUT_Y);
  }

  lemma Powers()
    ensures 1 < TWO64
  {
    Widths();
  }

  /** The store after the first command, and after both. */
  function OnlyX(): KV {
    KV(map[X_KEY := []], map[[1] := Remembered(PUT_X)])
  }

  function Both(): KV {
    KV(map[X_KEY := [], Y_KEY := []], map[[1] := Remembered(PUT_X), [2] := Remembered(PUT_Y)])
  }

  /** The first command again, in a new process that finds both keys. */
  function Ahead(): KV {
    KV(map[X_KEY := [], Y_KEY := []], map[[1] := Remembered(PUT_X)])
  }

  lemma Steps()
    ensures ForgeDb.Step(EMPTY, XBytes()) == OnlyX() && ForgeDb.Step(OnlyX(), YBytes()) == Both()
    ensures ForgeDb.Step(Reopened(Both()), XBytes()) == Ahead()
  {
    hide DecodeCommand, EncodeCommand, Remembered;
    Decoded();
    assert Both().store[X_KEY := []] == Both().store;
  }

  lemma Different()
    ensures Y_KEY !in OnlyX().store && Y_KEY in Both().store && Y_KEY in Ahead().store
  {
    assert X_KEY[0] != Y_KEY[0];
  }

  const START := Entry(0, 0, [])

  function E1(): Entry { Entry(1, 1, XBytes()) }
  function E2(): Entry { Entry(2, 1, YBytes()) }

  /** A log of the two commands. */
  function Full(): (l: Slice)
    ensures |l| == 3 && l[0] == START && l[1] == E1() && l[2] == E2()
  {
    [START, E1(), E2()]
  }

  // ------------------------------------------------------------------- sizes

  ghost predicate SmallPairs(pairs: seq<Pair>) {
    forall i :: 0 <= i < |pairs| ==> |pairs[i].0| <= 1 && |pairs[i].1| <= 1
  }

  ghost predicate SmallRow(id: Bytes, e: DedupEntry) {
    |id| <= 1 && |e.key| <= 1 && |e.value| <= 1 && |e.result.key| <= 1 && |e.result.value| <= 1
  }

  ghost predicate SmallRows(rows: seq<Row>) {
    forall i :: 0 <= i < |rows| ==> SmallRow(rows[i].0, rows[i].1)
  }

  lemma {:induction false} PairsSize(pairs: seq<Pair>, rest: Bytes)
    requires SmallPairs(pairs)
    ensures |PairsOnto(pairs, rest)| <= |rest| + 10 * |pairs|
  {
    hide LE;
    if pairs != [] {
      PairsSize(pairs[1..], rest);
    }
  }

  lemma {:induction false} RowsSize(rows: seq<Row>, rest: Bytes)
    requires SmallRows(rows)
    ensures |RowsOnto(rows, rest)| <= |rest| + 40 * |rows|
  {
    hide LE, Flag, ErrorCode;
    if rows != [] {
      RowsSize(rows[1..], rest);
    }
  }

  ghost predicate Small(s: KV) {
    && |s.store| <= 2 && |s.dedup| <= 2
    && (forall k :: k in s.store ==> |k| <= 1 && |s.store[k]| <= 1)
    && (forall id :: id in s.dedup ==> SmallRow(id, s.dedup[id]))
  }

  lemma BodySize(pairs: seq<Pair>, rows: seq<Row>, crc: Bytes -> U32)
    requires SmallPairs(pairs) && SmallRows(rows) && |pairs| <= 2 && |rows| <= 2
    ensures |EncodeRows(pairs, rows, crc)| <= 200
  {
    hide LE, PairsOnto, RowsOnto;
    RowsSize(rows, []);
    PairsSize(pairs, LE(|rows|, 4) + RowsOnto(rows, []));
  }

  lemma SnapshotSize(s: KV, crc: Bytes -> U32)
    requires Small(s)
    ensures Savable(s) && |SnapshotOf(s, crc)| <= 200
  {
    hide EncodeRows, SnapshotOf, HasKey;
    var data := SnapshotOf(s, crc);
    var pairs, rows :| Enumerates(pairs, s.store) && Enumerates(rows, s.dedup) && data == EncodeRows(pairs, rows, crc);
    EnumeratedSize(pairs, s.store);
    EnumeratedSize(rows, s.dedup);
    BodySize(pairs, rows, crc);
  }

  lemma AllSmall()
    ensures Small(OnlyX()) && Small(Ahead())
  {
    assert OnlyX().store.Keys == {X_KEY} && OnlyX().dedup.Keys == {[1]} == Ahead().dedup.Keys;
    assert Ahead().store.Keys == {X_KEY} + {Y_KEY};
    assert |OnlyX().store.Keys| == 1 && |Ahead().store.Keys| <= 2 && |OnlyX().dedup.Keys| == 1;
  }

  /** What such a snapshot gives back. */
  lemma GivesBack(s: KV, crc: Bytes -> U32)
    requires Small(s) && WellTyped(s)
    ensures Restored(SnapshotOf(s, crc), crc) == Some(s)
  {
    hide Savable, Decode, Collected, WellTyped, SnapshotOf;
    SnapshotSize(s, crc);
    KvStateMachine.SnapshotDecodes(SnapshotOf(s, crc), s, crc);
  }

  lemma AllWellTyped()
    ensures WellTyped(OnlyX()) && WellTyped(Ahead())
  {
    Powers();
  }

  // -------------------------------------------------------------------- runs

  /** A move of the database; a guarded one leaves no node with a snapshot to
      restore that lies below what it has applied. */
  ghost predicate Takes(crc: Bytes -> U32, config: Config, guarded: bool, s: System<KV>, a: Move<KV>, s': System<KV>) {
    SystemStep(KvOf(crc), config, s, a, s') && (guarded ==> NeverBelowApplied(s'.cluster))
  }

  ghost predicate Taken(crc: Bytes -> U32, config: Config, guarded: bool, run: seq<System<KV>>, moves: seq<Move<KV>>) {
    |run| == |moves| + 1 && forall i :: 0 <= i < |moves| ==> Takes(crc, config, guarded, run[i], moves[i], run[i + 1])
  }

  lemma OneTaken(crc: Bytes -> U32, config: Config, guarded: bool, s: System<KV>, a: Move<KV>, s': System<KV>)
    requires Takes(crc, config, guarded, s, a, s')
    ensures Taken(crc, config, guarded, [s, s'], [a])
  {
    hide Takes;
  }

  lemma Joined(crc: Bytes -> U32, config: Config, guarded: bool, run: seq<System<KV>>, moves: seq<Move<KV>>,
               more: seq<System<KV>>, next: seq<Move<KV>>)
    requires Taken(crc, config, guarded, run, moves) && Taken(crc, config, guarded, more, next)
    requires run[|moves|] == more[0]
    ensures Taken(crc, config, guarded, run + more[1..], moves + next)
  {
    hide Takes;
    var all, k := run + more[1..], |moves|;
    forall i | 0 <= i < |moves + next|
      ensures Takes(crc, config, guarded, all[i], (moves + next)[i], all[i + 1])
    {
      if i >= k {
        assert all[i] == more[i - k] && all[i + 1] == more[i - k + 1] && (moves + next)[i] == next[i - k];
      }
    }
  }

  lemma Runs(crc: Bytes -> U32, config: Config, guarded: bool, run: seq<System<KV>>, moves: seq<Move<KV>>)
    requires Taken(crc, config, guarded, run, moves) && SystemInit(KvOf(crc), run[0])
    ensures IsFreeRun(KvOf(crc), config, run, moves)
    ensures guarded ==> IsSystemRun(KvOf(crc), config, run, moves)
  {
    hide SystemStep, SystemInit, NeverBelowApplied;
    forall i | 0 <= i < |moves|
      ensures SystemStep(KvOf(crc), config, run[i], moves[i], run[i + 1])
    {
      assert Takes(crc, config, guarded, run[i], moves[i], run[i + 1]);
    }
    if guarded {
      forall i | 0 <= i < |moves|
        ensures SystemNext(KvOf(crc), config, run[i], moves[i], run[i + 1])
      {
        assert Takes(crc, config, guarded, run[i], moves[i], run[i + 1]);
      }
    }
  }
}
