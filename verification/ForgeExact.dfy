/** When nothing of the past shows in the key-value store, whatever the committed
    commands are: the conditions under which a snapshot that is restored, and a
    process that starts over, leave the store as its applied commands say. */
module ForgeExact {
  import opened LittleEndian
  import opened KvCommands
  import opened KvMachine
  import opened RaftTypes
  import opened RaftData
  import opened RaftSystem
  import opened ForgeDb
  import opened ForgeCases

  /** Entries that the applier can apply. */
  predicate AllDecode(entries: seq<Entry>) {
    forall i :: 0 <= i < |entries| ==> DecodeCommand(entries[i].command).Some?
  }

  /** One client writes "x", once, at `index + 1`; another writes "y" and
      repeats its request for ever. */
  function OneOfX(index: nat, top: nat): (entries: seq<Entry>)
    ensures |entries| == top
    ensures forall i :: 0 <= i < top ==> entries[i] == Entry(i + 1, 1, if i == index then XBytes() else YBytes())
  {
    seq(top, i requires 0 <= i < top => Entry(i + 1, 1, if i == index then XBytes() else YBytes()))
  }

  lemma OneOfXDecodes(index: nat, top: nat)
    ensures AllDecode(OneOfX(index, top))
  {
    hide DecodeCommand, XBytes, YBytes;
    Decoded();
  }

  /** The key is in the store, and the client that writes it is not known. */
  predicate HasX(s: KV) {
    X_KEY in s.store
  }

  lemma StepsOfX(s: KV)
    ensures HasX(s) ==> HasX(ForgeDb.Step(s, XBytes())) && HasX(ForgeDb.Step(s, YBytes()))
    ensures !HasX(s) ==> !HasX(ForgeDb.Step(s, YBytes()))
    ensures [1] !in s.dedup ==> HasX(ForgeDb.Step(s, XBytes())) && [1] !in ForgeDb.Step(s, YBytes()).dedup
  {
    hide DecodeCommand, EncodeCommand, Remembered;
    Decoded();
    assert X_KEY[0] != Y_KEY[0];
    assert [1][0] != [2][0];
  }

  /** What a lifetime that applies the first `n` of these entries does. */
  lemma {:induction false} LifeOfX(crc: Bytes -> U32, s: KV, index: nat, top: nat, n: nat)
    requires n <= top
    ensures HasX(s) ==> HasX(FoldFrom(KvOf(crc), s, OneOfX(index, top)[..n]))
    ensures n <= index && !HasX(s) ==> !HasX(FoldFrom(KvOf(crc), s, OneOfX(index, top)[..n]))
    ensures n <= index && [1] !in s.dedup ==> [1] !in FoldFrom(KvOf(crc), s, OneOfX(index, top)[..n]).dedup
    ensures n > index && [1] !in s.dedup ==> HasX(FoldFrom(KvOf(crc), s, OneOfX(index, top)[..n]))
  {
    hide ForgeDb.Step, XBytes, YBytes, HasX, KvOf, FoldFrom;
    var es := OneOfX(index, top);
    if n == 0 {
      NothingApplied(crc, s);
    } else {
      LifeOfX(crc, s, index, top, n - 1);
      assert es[..n][..n - 1] == es[..n - 1];
      FoldLast(crc, s, es[..n]);
      StepsOfX(FoldFrom(KvOf(crc), s, es[..n - 1]));
    }
  }

  /** The key stays behind if some lifetime had come beyond it. */
  lemma {:induction false} LeftOfX(crc: Bytes -> U32, index: nat, top: nat, reached: seq<nat>)
    requires Within(reached, top)
    ensures HasX(Left(KvOf(crc), OneOfX(index, top), reached)) <== !Within(reached, index)
    ensures [1] !in Left(KvOf(crc), OneOfX(index, top), reached).dedup
  {
    hide FoldFrom, KvOf, OneOfX, Left;
    LastLife(crc, OneOfX(index, top), reached);
    if reached != [] {
      var k, es := |reached| - 1, OneOfX(index, top);
      LeftOfX(crc, index, top, reached[..k]);
      LifeOfX(crc, Left(KvOf(crc), es, reached[..k]), index, top, reached[k]);
    }
  }

  lemma LastLife(crc: Bytes -> U32, entries: seq<Entry>, reached: seq<nat>)
    requires Within(reached, |entries|)
    ensures var k := |reached| - 1;
            Left(KvOf(crc), entries, reached)
            == if reached == [] then EMPTY
               else Reopened(FoldFrom(KvOf(crc), Left(KvOf(crc), entries, reached[..k]), entries[..reached[k]]))
  {
    hide FoldFrom;
  }

  lemma OneOfXShows(crc: Bytes -> U32, index: nat, top: nat, reached: seq<nat>)
    requires index <= top && Within(reached, top) && !Within(reached, index)
    ensures Resumed(KvOf(crc), OneOfX(index, top), reached, index) != Fold(KvOf(crc), OneOfX(index, top)[..index])
  {
    hide FoldFrom, Left;
    LeftOfX(crc, index, top, reached);
    LifeOfX(crc, Left(KvOf(crc), OneOfX(index, top), reached), index, top, index);
    LifeOfX(crc, EMPTY, index, top, index);
  }

  /** Nothing shows of what earlier lifetimes left behind exactly when none of
      them had come further. With AppliedExactly and SavedExactly of the runs,
      which say what a state and a snapshot are in terms of those lifetimes,
      this is when a replica and a snapshot are what their prefix of the
      committed commands leads to, whatever the commands are. */
  lemma LeftoversExact(crc: Bytes -> U32, reached: seq<nat>, n: nat)
    ensures Within(reached, n) <==>
      forall entries: seq<Entry> :: AllDecode(entries) && Within(reached, |entries|) && n <= |entries| ==>
        Resumed(KvOf(crc), entries, reached, n) == Fold(KvOf(crc), entries[..n])
  {
    hide FoldFrom, Left, KvOf, AllDecode, Faithful;
    if Within(reached, n) {
      KvIsFaithful(crc);
      forall entries: seq<Entry> | AllDecode(entries) && Within(reached, |entries|) && n <= |entries|
        ensures Resumed(KvOf(crc), entries, reached, n) == Fold(KvOf(crc), entries[..n])
      {
        CarriedExact(KvOf(crc), entries, reached, Resumed(KvOf(crc), entries, reached, n), n);
      }
    } else {
      var top := Max(Highest(reached), n);
      OneOfXDecodes(n, top);
      OneOfXShows(crc, n, top, reached);
    }
  }

  /** A snapshot at `index`, restored after `applied` entries were applied,
      leaves the store where the node then says it is whatever the committed
      commands are exactly when it is not below them. */
  lemma GuardExact(crc: Bytes -> U32, index: nat, applied: nat)
    ensures applied <= index <==>
      forall chosen: seq<Entry> :: AllDecode(chosen) && index <= |chosen| && applied <= |chosen| ==>
        Fold(KvOf(crc), chosen[..index]) == Fold(KvOf(crc), chosen[..Max(index, applied)])
  {
    hide FoldFrom, KvOf, AllDecode;
    if applied > index {
      OneOfXDecodes(index, applied);
      LifeOfX(crc, EMPTY, index, applied, index);
      LifeOfX(crc, EMPTY, index, applied, applied);
      StartsEmpty(crc);
      assert OneOfX(index, applied)[..applied] == OneOfX(index, applied);
    }
  }

  lemma StartsEmpty(crc: Bytes -> U32)
    ensures KvOf(crc).init == EMPTY
  {
  }
}
