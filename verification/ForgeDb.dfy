/** The whole: Raft driving the key-value state machine. */
module ForgeDb {
  import opened ByteStrings
  import opened Options
  import opened LittleEndian
  import opened SortedRows
  import opened KvCommands
  import opened KvMachine
  import opened KvRestart
  import opened KvSnapshots
  import KvStateMachine
  import R = RaftTypes
  import Handlers = RaftHandlers
  import opened RaftData
  import RaftSystem
  import opened RaftSystemRuns

  /** An entry's bytes, applied. The applier stops before bytes that are no
      command, so that what they would do does not matter. */
  function Step(s: KV, bytes: Bytes): KV {
    var c := DecodeCommand(bytes);
    if c.None? then s else Apply(s, c.value).0
  }

  lemma SnapshotExists(s: KV, crc: Bytes -> U32)
    ensures exists data :: IsSnapshot(data, s, crc)
  {
    hide EncodeRows;
    var pairs := RowsExist(s.store);
    var rows := RowsExist(s.dedup);
    assert IsSnapshot(EncodeRows(pairs, rows, crc), s, crc);
  }

  ghost function SnapshotOf(s: KV, crc: Bytes -> U32): (data: Bytes)
    ensures IsSnapshot(data, s, crc)
  {
    SnapshotExists(s, crc);
    var data :| IsSnapshot(data, s, crc);
    data
  }

  ghost function Restored(data: Bytes, crc: Bytes -> U32): Option<KV> {
    var d := Decode(data, crc);
    if d.None? then None else Some(KV(Collected(d.value.0), Collected(d.value.1)))
  }

  /** What a new process finds: the store, which is on disk, and no clients. */
  function Reopened(s: KV): KV {
    KV(s.store, map[])
  }

  /** The key-value store as a machine that Raft can drive. */
  ghost function KvOf(crc: Bytes -> U32): Machine<KV> {
    Machine(EMPTY, (s, b) => Step(s, b), s => Reopened(s), s => Savable(s), s => SnapshotOf(s, crc),
            d => Restored(d, crc))
  }

  lemma {:induction false} ValueBound(b: Bytes)
    ensures Value(b) < Pow256(|b|)
  {
    if b != [] {
      ValueBound(b[1..]);
    }
  }

  lemma DecodedIsProper(bytes: Bytes)
    ensures DecodeCommand(bytes).Some? ==> Proper(Remembered(DecodeCommand(bytes).value))
  {
    var c := DecodeCommand(bytes);
    if c.Some? {
      var at := 5 + |c.value.clientID|;
      ValueBound(bytes[at..at + 8]);
      Widths();
    }
  }

  lemma {:induction false} FoldsAreWellTyped(crc: Bytes -> U32, s: KV, entries: seq<R.Entry>)
    requires WellTyped(s)
    ensures WellTyped(FoldFrom(KvOf(crc), s, entries))
  {
    hide DecodeCommand, Proper;
    if entries != [] {
      var k := |entries| - 1;
      FoldsAreWellTyped(crc, s, entries[..k]);
      DecodedIsProper(entries[k].command);
    }
  }

  lemma {:induction false} LeftIsWellTyped(crc: Bytes -> U32, entries: seq<R.Entry>, reached: seq<nat>)
    requires Within(reached, |entries|)
    ensures WellTyped(Left(KvOf(crc), entries, reached))
  {
    hide FoldFrom, Proper;
    if reached != [] {
      var k := |reached| - 1;
      LeftIsWellTyped(crc, entries, reached[..k]);
      FoldsAreWellTyped(crc, Left(KvOf(crc), entries, reached[..k]), entries[..reached[k]]);
    }
  }

  // ---------------------------------------------------------------- commands

  /** The commands among the entries. */
  function Commands(entries: seq<R.Entry>): seq<Command> {
    if entries == [] then []
    else
      var k := |entries| - 1;
      var c := DecodeCommand(entries[k].command);
      if c.None? then Commands(entries[..k]) else Commands(entries[..k]) + [c.value]
  }

  lemma {:induction false} FoldIsApplyAll(crc: Bytes -> U32, s: KV, entries: seq<R.Entry>)
    ensures FoldFrom(KvOf(crc), s, entries) == ApplyAll(s, Commands(entries))
  {
    hide DecodeCommand, Apply, FoldFrom, KvOf, ApplyAll;
    if entries == [] {
      NothingApplied(crc, s);
    } else {
      var k := |entries| - 1;
      FoldIsApplyAll(crc, s, entries[..k]);
      FoldLast(crc, s, entries);
      var c := DecodeCommand(entries[k].command);
      if c.Some? {
        ApplyLast(s, Commands(entries[..k]), c.value);
      }
    }
  }

  lemma NothingApplied(crc: Bytes -> U32, s: KV)
    ensures FoldFrom(KvOf(crc), s, []) == s == ApplyAll(s, [])
  {
  }

  lemma FoldLast(crc: Bytes -> U32, s: KV, entries: seq<R.Entry>)
    requires entries != []
    ensures var k := |entries| - 1;
            FoldFrom(KvOf(crc), s, entries) == Step(FoldFrom(KvOf(crc), s, entries[..k]), entries[k].command)
  {
    hide Step;
  }

  lemma ApplyLast(s: KV, cs: seq<Command>, c: Command)
    ensures ApplyAll(s, cs + [c]) == Apply(ApplyAll(s, cs), c).0
  {
    hide Apply;
    assert (cs + [c])[..|cs|] == cs;
  }

  lemma {:induction false} CommandsPrefix(entries: seq<R.Entry>, n: nat)
    requires n <= |entries|
    ensures Commands(entries[..n]) <= Commands(entries)
  {
    hide DecodeCommand;
    if n < |entries| {
      var k := |entries| - 1;
      CommandsPrefix(entries[..k], n);
      assert entries[..k][..n] == entries[..n];
    } else {
      assert entries[..n] == entries;
    }
  }

  /** How many commands each lifetime had applied. */
  function Counted(entries: seq<R.Entry>, reached: seq<nat>): (r: seq<nat>)
    requires Within(reached, |entries|)
    ensures |r| == |reached| && forall i :: 0 <= i < |r| ==> r[i] == |Commands(entries[..reached[i]])|
  {
    if reached == [] then []
    else Counted(entries, reached[..|reached| - 1]) + [|Commands(entries[..reached[|reached| - 1]])|]
  }

  lemma CountedWithin(entries: seq<R.Entry>, reached: seq<nat>, n: nat)
    requires Within(reached, n) && n <= |entries|
    ensures Within(Counted(entries, reached), |Commands(entries[..n])|)
  {
    hide Commands;
    var counts := Counted(entries, reached);
    forall i | 0 <= i < |counts|
      ensures counts[i] <= |Commands(entries[..n])|
    {
      CommandsPrefix(entries[..n], reached[i]);
      assert entries[..n][..reached[i]] == entries[..reached[i]];
    }
  }

  /** What lifetimes of the machine leave is what lifetimes of the store leave. */
  lemma {:induction false} LeftIsLeftover(crc: Bytes -> U32, entries: seq<R.Entry>, reached: seq<nat>, n: nat)
    requires Within(reached, n) && n <= |entries|
    ensures Within(Counted(entries, reached), |Commands(entries[..n])|)
    ensures Left(KvOf(crc), entries, reached) == KV(Leftover(Commands(entries[..n]), Counted(entries, reached)), map[])
  {
    hide FoldFrom, Commands, ApplyAll;
    CountedWithin(entries, reached, n);
    if reached != [] {
      var k := |reached| - 1;
      var cs, counts := Commands(entries[..n]), Counted(entries, reached);
      LeftIsLeftover(crc, entries, reached[..k], n);
      assert counts[..k] == Counted(entries, reached[..k]);
      CommandsPrefix(entries[..n], reached[k]);
      assert entries[..n][..reached[k]] == entries[..reached[k]];
      assert cs[..counts[k]] == Commands(entries[..reached[k]]);
      FoldIsApplyAll(crc, Left(KvOf(crc), entries, reached[..k]), entries[..reached[k]]);
    }
  }

  lemma KvConverges(crc: Bytes -> U32, entries: seq<R.Entry>, reached: seq<nat>)
    requires Within(reached, |entries|)
    ensures Resumed(KvOf(crc), entries, reached, |entries|) == Fold(KvOf(crc), entries)
  {
    hide FoldFrom, Left, Commands, ApplyAll, Leftover;
    assert entries[..|entries|] == entries;
    LeftIsLeftover(crc, entries, reached, |entries|);
    FoldIsApplyAll(crc, Left(KvOf(crc), entries, reached), entries);
    FoldIsApplyAll(crc, EMPTY, entries);
    RestartConverges(Commands(entries), Counted(entries, reached));
  }

  lemma KvRestores(crc: Bytes -> U32, entries: seq<R.Entry>, reached: seq<nat>, n: nat)
    requires Within(reached, |entries|) && n <= |entries|
    ensures Restores(KvOf(crc), Resumed(KvOf(crc), entries, reached, n))
  {
    hide Savable, Decode, Collected, WellTyped, FoldFrom, Left, IsSnapshot;
    var s := Resumed(KvOf(crc), entries, reached, n);
    LeftIsWellTyped(crc, entries, reached);
    FoldsAreWellTyped(crc, Left(KvOf(crc), entries, reached), entries[..n]);
    if Savable(s) {
      KvStateMachine.SnapshotDecodes(SnapshotOf(s, crc), s, crc);
    }
  }

  /** The snapshots of the key-value store give back what they were taken of,
      and a store that was reopened any number of times catches up. */
  lemma KvIsFaithful(crc: Bytes -> U32)
    ensures Faithful(KvOf(crc))
  {
    hide KvOf, Restores, Resumed;
    forall entries, reached, n: nat | Within(reached, |entries|) && n <= |entries|
      ensures Restores(KvOf(crc), Resumed(KvOf(crc), entries, reached, n))
    {
      KvRestores(crc, entries, reached, n);
    }
    forall entries, reached | Within(reached, |entries|)
      ensures Resumed(KvOf(crc), entries, reached, |entries|) == Fold(KvOf(crc), entries)
    {
      KvConverges(crc, entries, reached);
    }
  }

  // ---------------------------------------------------------------- replicas

  /** What a replica holds after the commands `cs`, if lifetimes before this
      one came no further than the commands `past`: the table of clients is
      what `cs` lead to, every key that the executed ones touch is what they
      alone lead to, each executed once and in this order, and any other key
      is one that an earlier lifetime wrote. */
  ghost predicate ExecutedExactly(s: KV, cs: seq<Command>, past: seq<Command>) {
    var es := ExecutedOf(map[], cs);
    && s.dedup == ApplyAll(EMPTY, cs).dedup
    && IncreasingIDs(es)
    && (forall key :: Touches(es, key) ==> SameAt(s.store, Run(map[], es), key))
    && (forall key :: key in s.store && !Touches(es, key) ==> Touches(ExecutedOf(map[], past), key))
    && (past <= cs ==> s == ApplyAll(EMPTY, cs) && s.store == Run(map[], es))
  }

  lemma LeftoverExactly(cs: seq<Command>, past: seq<Command>, counts: seq<nat>)
    requires Within(counts, |past|)
    ensures past <= cs ==> Within(counts, |cs|) && Leftover(cs, counts) == Leftover(past, counts)
    ensures ExecutedExactly(ApplyAll(KV(Leftover(past, counts), map[]), cs), cs, past)
  {
    hide ApplyAll, ExecutedOf, Run, Leftover, IncreasingIDs;
    var left, es := Leftover(past, counts), ExecutedOf(map[], cs);
    var s := ApplyAll(KV(left, map[]), cs);
    StoreApart(left, map[], cs);
    StoreApart(map[], map[], cs);
    ExecutedIncrease(map[], cs);
    LeftoverNoEmptyKey(past, counts);
    NoEmptyKey(left, es);
    forall key
      ensures Touches(es, key) ==> SameAt(s.store, Run(map[], es), key)
      ensures key in s.store && !Touches(es, key) ==> Touches(ExecutedOf(map[], past), key)
    {
      LastDecides(left, map[], es, key);
      if key in s.store && !Touches(es, key) {
        LeftoverTouched(past, counts, key);
      }
    }
    if past <= cs {
      LeftoverForward(cs, past, counts);
      RestartConverges(cs, counts);
    }
  }

  lemma {:induction false} LeftoverForward(cs: seq<Command>, past: seq<Command>, counts: seq<nat>)
    requires Within(counts, |past|) && past <= cs
    ensures Leftover(cs, counts) == Leftover(past, counts)
  {
    hide ApplyAll;
    if counts != [] {
      var k := |counts| - 1;
      LeftoverForward(cs, past, counts[..k]);
      assert cs[..counts[k]] == past[..counts[k]];
    }
  }

  /** The furthest that any of the lifetimes had come. */
  function Highest(reached: seq<nat>): (top: nat)
    ensures Within(reached, top) && (top == 0 || top in reached)
  {
    if reached == [] then 0
    else
      var k := |reached| - 1;
      RaftSystem.Max(Highest(reached[..k]), reached[k])
  }

  lemma CarriedIsExact(crc: Bytes -> U32, chosen: seq<R.Entry>, reached: seq<nat>, s: KV, n: nat)
    requires Carried(KvOf(crc), chosen, reached, s, n)
    ensures Highest(reached) <= |chosen|
    ensures ExecutedExactly(s, Commands(chosen[..n]), Commands(chosen[..Highest(reached)]))
  {
    hide KvOf, FoldFrom, Left, Leftover, ApplyAll, Commands, ExecutedExactly;
    var top := Highest(reached);
    LeftIsLeftover(crc, chosen, reached, top);
    FoldIsApplyAll(crc, Left(KvOf(crc), chosen, reached), chosen[..n]);
    LeftoverExactly(Commands(chosen[..n]), Commands(chosen[..top]), Counted(chosen, reached));
  }

  /** Exactly once: there is one sequence of committed entries such that every
      replica, in every state of every run, that has no snapshot to restore
      holds what executing each client's requests once, in the order of their
      ids and however often they were committed, among the first `lastApplied`
      entries leads to: in its table of clients, at every key that one of them
      touches and, once it has come as far as the lifetimes whose leftovers it
      holds, in everything. */
  lemma ExactlyOnce(crc: Bytes -> U32, config: Handlers.Config, run: seq<RaftSystem.System<KV>>,
                    moves: seq<RaftSystem.Move<KV>>)
      returns (chosen: seq<R.Entry>)
    requires RaftSystem.IsSystemRun(KvOf(crc), config, run, moves)
    ensures |run| == |moves| + 1
    ensures forall i :: 0 <= i < |run| ==> run[i].apps.Keys == run[i].cluster.nodes.Keys
    ensures forall i, v :: 0 <= i < |run| && v in run[i].apps && run[i].cluster.nodes[v].pendingSnapshot.None? ==>
              ReplicaExactly(run[i].apps[v], chosen, run[i].cluster.nodes[v].lastApplied,
                             RaftSystem.Reached(RaftSystem.BookAt(run, moves, i), v))
  {
    hide RaftSystem.IsSystemRun, RaftSystem.DataRel, RaftSystem.BookAt, RaftSystem.Reached, Faithful, KvOf,
         ReplicaExactly;
    KvIsFaithful(crc);
    RunLength(KvOf(crc), config, run, moves);
    chosen := ApplyRefinement(KvOf(crc), config, run, moves);
    forall i | 0 <= i < |run|
      ensures run[i].apps.Keys == run[i].cluster.nodes.Keys
    {
      KeysOf(crc, run[i], chosen, RaftSystem.BookAt(run, moves, i));
    }
    forall i, v | 0 <= i < |run| && v in run[i].apps && run[i].cluster.nodes[v].pendingSnapshot.None?
      ensures ReplicaExactly(run[i].apps[v], chosen, run[i].cluster.nodes[v].lastApplied,
                             RaftSystem.Reached(RaftSystem.BookAt(run, moves, i), v))
    {
      ReplicaIsExact(crc, run[i], chosen, RaftSystem.BookAt(run, moves, i), v);
    }
  }

  ghost predicate ReplicaExactly(s: KV, chosen: seq<R.Entry>, n: nat, reached: seq<nat>) {
    && n <= |chosen|
    && Within(reached, |chosen|)
    && ExecutedExactly(s, Commands(chosen[..n]), Commands(chosen[..Highest(reached)]))
    && (Within(reached, n) ==> s == ApplyAll(EMPTY, Commands(chosen[..n])))
  }

  lemma KeysOf(crc: Bytes -> U32, s: RaftSystem.System<KV>, chosen: seq<R.Entry>, b: RaftSystem.Book)
    requires RaftSystem.DataRel(KvOf(crc), s, chosen, b)
    ensures s.apps.Keys == s.cluster.nodes.Keys
  {
  }

  lemma ReplicaIsExact(crc: Bytes -> U32, s: RaftSystem.System<KV>, chosen: seq<R.Entry>, b: RaftSystem.Book,
                       v: R.NodeId)
    requires RaftSystem.DataRel(KvOf(crc), s, chosen, b) && v in s.apps && s.cluster.nodes[v].pendingSnapshot.None?
    ensures ReplicaExactly(s.apps[v], chosen, s.cluster.nodes[v].lastApplied, RaftSystem.Reached(b, v))
  {
    hide KvOf, ExecutedExactly, Commands, GoodMessages, GoodNode, GoodLog, AllGood, Carried, RaftSystem.Reached;
    var n, reached := s.cluster.nodes[v].lastApplied, RaftSystem.Reached(b, v);
    assert RaftSystem.GoodAt(KvOf(crc), s, chosen, b, v);
    CarriedBounded(crc, chosen, reached, s.apps[v], n);
    CarriedIsExact(crc, chosen, reached, s.apps[v], n);
    if Within(reached, n) {
      var top := Highest(reached);
      CommandsPrefix(chosen[..n], top);
      assert chosen[..n][..top] == chosen[..top];
      EquallyExact(s.apps[v], Commands(chosen[..n]), Commands(chosen[..top]));
    }
  }

  lemma CarriedBounded(crc: Bytes -> U32, chosen: seq<R.Entry>, reached: seq<nat>, s: KV, n: nat)
    requires Carried(KvOf(crc), chosen, reached, s, n)
    ensures n <= |chosen| && Within(reached, |chosen|)
  {
  }

  lemma EquallyExact(s: KV, cs: seq<Command>, past: seq<Command>)
    requires ExecutedExactly(s, cs, past) && past <= cs
    ensures s == ApplyAll(EMPTY, cs)
  {
  }
}
