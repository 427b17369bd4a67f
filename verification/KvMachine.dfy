/** The key-value state machine: committed commands, executed once per request
    and answered from memory when a client repeats itself. */
module KvMachine {
  import opened ByteStrings
  import opened Options
  import opened KvCommands

  datatype Error = RequestIDConflict | StaleRequest | EmptyKey

  datatype Result = Result(applied: bool, replayed: bool, key: Bytes, value: Bytes, err: Option<Error>)

  function Failed(e: Error): Result {
    Result(false, false, [], [], Some(e))
  }

  /** The last request of a client and its outcome. */
  datatype DedupEntry = DedupEntry(requestID: nat, op: Byte, key: Bytes, value: Bytes, result: Result)

  type Store = map<Bytes, Bytes>

  datatype KV = KV(store: Store, dedup: map<Bytes, DedupEntry>)

  const EMPTY: KV := KV(map[], map[])

  predicate Matches(e: DedupEntry, c: Command) {
    e.op == c.op && e.key == c.key && e.value == c.value
  }

  /** The request is one that the client's last one does not settle. */
  predicate IsNew(dedup: map<Bytes, DedupEntry>, c: Command) {
    c.clientID in dedup ==> c.requestID > dedup[c.clientID].requestID
  }

  /** The store after a command is executed. */
  function Executed(store: Store, c: Command): Store {
    if c.key == [] then store
    else if c.op == OP_PUT then store[c.key := c.value]
    else store - {c.key}
  }

  function Outcome(c: Command): Result {
    if c.key == [] then Failed(EmptyKey)
    else Result(true, false, c.key, if c.op == OP_PUT then c.value else [], None)
  }

  function Remembered(c: Command): DedupEntry {
    DedupEntry(c.requestID, c.op, c.key, c.value, Outcome(c))
  }

  /** What applying a command does: the new state and the answer. */
  function Apply(s: KV, c: Command): (KV, Result) {
    if IsNew(s.dedup, c) then (KV(Executed(s.store, c), s.dedup[c.clientID := Remembered(c)]), Outcome(c))
    else
      var prev := s.dedup[c.clientID];
      if c.requestID < prev.requestID then (s, Failed(StaleRequest))
      else if !Matches(prev, c) then (s, Failed(RequestIDConflict))
      else (s, prev.result.(replayed := true))
  }

  function ApplyAll(s: KV, cs: seq<Command>): KV {
    if cs == [] then s else Apply(ApplyAll(s, cs[..|cs| - 1]), cs[|cs| - 1]).0
  }

  lemma {:induction false} ApplyConcat(s: KV, a: seq<Command>, b: seq<Command>)
    ensures ApplyAll(s, a + b) == ApplyAll(ApplyAll(s, a), b)
  {
    if b == [] {
      assert a + b == a;
    } else {
      var k := |b| - 1;
      ApplyConcat(s, a, b[..k]);
      assert (a + b)[..|a + b| - 1] == a + b[..k];
    }
  }

  // ----------------------------------------------------------------- retries

  /** The client's last request is this one or a later one. */
  predicate Settled(s: KV, c: Command) {
    c.clientID in s.dedup && c.requestID <= s.dedup[c.clientID].requestID
  }

  lemma {:induction false} StaysSettled(s: KV, cs: seq<Command>, c: Command)
    requires Settled(s, c)
    ensures Settled(ApplyAll(s, cs), c)
  {
    if cs != [] {
      StaysSettled(s, cs[..|cs| - 1], c);
    }
  }

  lemma AppliedIsSettled(s: KV, c: Command)
    ensures Settled(Apply(s, c).0, c)
  {
  }

  /** Repeating a command anywhere after its first occurrence changes nothing. */
  lemma RetryInvisible(s: KV, before: seq<Command>, c: Command, between: seq<Command>, after: seq<Command>)
    ensures ApplyAll(s, before + [c] + between + [c] + after) == ApplyAll(s, before + [c] + between + after)
  {
    var upTo := before + [c] + between;
    var t := ApplyAll(s, upTo);
    ApplyConcat(s, before + [c], between);
    assert (before + [c])[..|before|] == before;
    AppliedIsSettled(ApplyAll(s, before), c);
    StaysSettled(ApplyAll(s, before + [c]), between, c);
    assert (upTo + [c])[..|upTo|] == upTo;
    assert ApplyAll(s, upTo + [c]) == t;
    ApplyConcat(s, upTo + [c], after);
    ApplyConcat(s, upTo, after);
  }

  /** `cs` with repeats: any number of commands that occurred before. */
  ghost predicate WithRepeats(cs: seq<Command>, repeated: seq<Command>) {
    if repeated == [] then cs == []
    else
      var k := |repeated| - 1;
      || (cs != [] && cs[|cs| - 1] == repeated[k] && WithRepeats(cs[..|cs| - 1], repeated[..k]))
      || (repeated[k] in cs && WithRepeats(cs, repeated[..k]))
  }

  lemma {:induction false} AllSettled(s: KV, cs: seq<Command>, c: Command)
    requires c in cs
    ensures Settled(ApplyAll(s, cs), c)
  {
    var k := |cs| - 1;
    if cs[k] == c {
      AppliedIsSettled(ApplyAll(s, cs[..k]), c);
    } else {
      AllSettled(s, cs[..k], c);
      assert cs[k..] == [cs[k]] && cs[..k] + cs[k..] == cs;
      ApplyConcat(s, cs[..k], cs[k..]);
      StaysSettled(ApplyAll(s, cs[..k]), cs[k..], c);
    }
  }

  /** However many repeats there are, and wherever after the first occurrence,
      the store and the table of clients come out the same. */
  lemma {:induction false} RetriesInvisible(s: KV, cs: seq<Command>, repeated: seq<Command>)
    requires WithRepeats(cs, repeated)
    ensures ApplyAll(s, repeated) == ApplyAll(s, cs)
  {
    if repeated != [] {
      var k := |repeated| - 1;
      if repeated[k] in cs && WithRepeats(cs, repeated[..k]) {
        RetriesInvisible(s, cs, repeated[..k]);
        AllSettled(s, cs, repeated[k]);
      } else {
        RetriesInvisible(s, cs[..|cs| - 1], repeated[..k]);
      }
    }
  }

  /** The commands that are executed, in order. */
  function ExecutedOf(dedup: map<Bytes, DedupEntry>, cs: seq<Command>): seq<Command> {
    if cs == [] then []
    else
      var k := |cs| - 1;
      var before := ExecutedOf(dedup, cs[..k]);
      if IsNew(ApplyAll(KV(map[], dedup), cs[..k]).dedup, cs[k]) then before + [cs[k]] else before
  }

  /** A client's executed requests have strictly increasing ids. */
  predicate IncreasingIDs(run: seq<Command>) {
    forall i, j :: 0 <= i < j < |run| && run[i].clientID == run[j].clientID ==> run[i].requestID < run[j].requestID
  }

  lemma {:induction false} ExecutedSettled(dedup: map<Bytes, DedupEntry>, cs: seq<Command>, c: Command)
    requires c in ExecutedOf(dedup, cs)
    ensures Settled(ApplyAll(KV(map[], dedup), cs), c)
  {
    var k := |cs| - 1;
    var t := ApplyAll(KV(map[], dedup), cs[..k]);
    AppliedIsSettled(t, cs[k]);
    if c in ExecutedOf(dedup, cs[..k]) {
      ExecutedSettled(dedup, cs[..k], c);
      SettledStep(t, cs[k], c);
    }
  }

  lemma {:induction false} ExecutedIncrease(dedup: map<Bytes, DedupEntry>, cs: seq<Command>)
    ensures IncreasingIDs(ExecutedOf(dedup, cs))
  {
    if cs != [] {
      var k := |cs| - 1;
      ExecutedIncrease(dedup, cs[..k]);
      var before := ExecutedOf(dedup, cs[..k]);
      forall i | 0 <= i < |before|
        ensures Settled(ApplyAll(KV(map[], dedup), cs[..k]), before[i])
      {
        ExecutedSettled(dedup, cs[..k], before[i]);
      }
    }
  }

  lemma SettledStep(s: KV, c: Command, d: Command)
    requires Settled(s, d)
    ensures Settled(Apply(s, c).0, d)
  {
  }
}
