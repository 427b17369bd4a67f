/** Replaying committed commands after a restart, over a store that already
    holds what earlier lifetimes of the process left in it. */
module KvRestart {
  import opened ByteStrings
  import opened KvCommands
  import opened KvMachine

  /** The store after a sequence of executions. */
  function Run(store: Store, es: seq<Command>): Store {
    if es == [] then store else Executed(Run(store, es[..|es| - 1]), es[|es| - 1])
  }

  /** Which commands are executed, and what is remembered, does not depend on
      the store; the store is what their execution makes of it. */
  lemma {:induction false} StoreApart(store: Store, dedup: map<Bytes, DedupEntry>, cs: seq<Command>)
    ensures ApplyAll(KV(store, dedup), cs).dedup == ApplyAll(KV(map[], dedup), cs).dedup
    ensures ApplyAll(KV(store, dedup), cs).store == Run(store, ExecutedOf(dedup, cs))
  {
    hide Executed, Remembered, Outcome;
    if cs != [] {
      var k := |cs| - 1;
      StoreApart(store, dedup, cs[..k]);
      var before, c := ExecutedOf(dedup, cs[..k]), cs[k];
      var s, t := ApplyAll(KV(store, dedup), cs[..k]), ApplyAll(KV(map[], dedup), cs[..k]);
      assert s.dedup == t.dedup && s.store == Run(store, before);
      if IsNew(t.dedup, c) {
        assert ExecutedOf(dedup, cs) == before + [c] && (before + [c])[..|before|] == before;
        assert Run(store, before + [c]) == Executed(Run(store, before), c);
      } else {
        assert ExecutedOf(dedup, cs) == before;
      }
    }
  }

  /** Some execution writes or deletes the key. */
  predicate Touches(es: seq<Command>, key: Bytes) {
    key != [] && exists i :: 0 <= i < |es| && es[i].key == key
  }

  predicate SameAt(a: Store, b: Store, key: Bytes) {
    (key in a <==> key in b) && (key in a ==> a[key] == b[key])
  }

  /** The last execution on a key decides; a key that none touches stays. */
  lemma {:induction false} LastDecides(a: Store, b: Store, es: seq<Command>, key: Bytes)
    ensures Touches(es, key) ==> SameAt(Run(a, es), Run(b, es), key)
    ensures !Touches(es, key) ==> SameAt(Run(a, es), a, key)
  {
    if es != [] {
      var k := |es| - 1;
      LastDecides(a, b, es[..k], key);
      if Touches(es, key) && es[k].key != key {
        var i :| 0 <= i < |es| && es[i].key == key;
        assert es[..k][i].key == key;
      }
      if Touches(es[..k], key) {
        var i :| 0 <= i < k && es[..k][i].key == key;
        assert es[i].key == key;
      }
      if !Touches(es, key) {
        assert key != [] ==> es[k].key != key;
      }
    }
  }

  /** What is executed of a prefix is a prefix of what is executed. */
  lemma {:induction false} ExecutedPrefix(dedup: map<Bytes, DedupEntry>, cs: seq<Command>, k: nat)
    requires k <= |cs|
    ensures ExecutedOf(dedup, cs[..k]) <= ExecutedOf(dedup, cs)
  {
    if k < |cs| {
      ExecutedPrefix(dedup, cs[..|cs| - 1], k);
      assert cs[..|cs| - 1][..k] == cs[..k];
    } else {
      assert cs[..k] == cs;
    }
  }

  /** What a process leaves in the store after replaying `cs` from the start
      several times, each time with an empty table of clients and only as far
      as the numbers say. */
  function Leftover(cs: seq<Command>, reached: seq<nat>): Store
    requires forall i :: 0 <= i < |reached| ==> reached[i] <= |cs|
  {
    if reached == [] then map[]
    else
      var k := |reached| - 1;
      ApplyAll(KV(Leftover(cs, reached[..k]), map[]), cs[..reached[k]]).store
  }

  /** Leftovers are only of keys that the commands touch. */
  lemma {:induction false} LeftoverTouched(cs: seq<Command>, reached: seq<nat>, key: Bytes)
    requires forall i :: 0 <= i < |reached| ==> reached[i] <= |cs|
    requires key in Leftover(cs, reached) && key != []
    ensures Touches(ExecutedOf(map[], cs), key)
  {
    var k := |reached| - 1;
    var before, part := Leftover(cs, reached[..k]), ExecutedOf(map[], cs[..reached[k]]);
    StoreApart(before, map[], cs[..reached[k]]);
    ExecutedPrefix(map[], cs, reached[k]);
    LastDecides(before, before, part, key);
    if Touches(part, key) {
      var i :| 0 <= i < |part| && part[i].key == key;
      assert ExecutedOf(map[], cs)[i].key == key;
    } else {
      LeftoverTouched(cs, reached[..k], key);
    }
  }

  lemma {:induction false} NoEmptyKey(store: Store, es: seq<Command>)
    requires [] !in store
    ensures [] !in Run(store, es)
  {
    if es != [] {
      NoEmptyKey(store, es[..|es| - 1]);
    }
  }

  lemma {:induction false} LeftoverNoEmptyKey(cs: seq<Command>, reached: seq<nat>)
    requires forall i :: 0 <= i < |reached| ==> reached[i] <= |cs|
    ensures [] !in Leftover(cs, reached)
  {
    if reached != [] {
      var k := |reached| - 1;
      LeftoverNoEmptyKey(cs, reached[..k]);
      StoreApart(Leftover(cs, reached[..k]), map[], cs[..reached[k]]);
      NoEmptyKey(Leftover(cs, reached[..k]), ExecutedOf(map[], cs[..reached[k]]));
    }
  }

  /** Restart convergence: replaying all commands over any such leftovers ends
      where applying them once to an empty store ends. */
  lemma RestartConverges(cs: seq<Command>, reached: seq<nat>)
    requires forall i :: 0 <= i < |reached| ==> reached[i] <= |cs|
    ensures ApplyAll(KV(Leftover(cs, reached), map[]), cs) == ApplyAll(EMPTY, cs)
  {
    hide ApplyAll, ExecutedOf, Run, Leftover;
    var left, es := Leftover(cs, reached), ExecutedOf(map[], cs);
    StoreApart(left, map[], cs);
    StoreApart(map[], map[], cs);
    LeftoverNoEmptyKey(cs, reached);
    var a, b := Run(left, es), Run(map[], es);
    forall key
      ensures SameAt(a, b, key)
    {
      LastDecides(left, map[], es, key);
      LastDecides(map[], map[], es, key);
      if key in left && key != [] {
        LeftoverTouched(cs, reached, key);
      }
    }
    SameEverywhere(a, b);
  }

  lemma SameEverywhere(a: Store, b: Store)
    requires forall key :: SameAt(a, b, key)
    ensures a == b
  {
    forall key
      ensures key in a <==> key in b
      ensures key in a ==> a[key] == b[key]
    {
      assert SameAt(a, b, key);
    }
  }
}
