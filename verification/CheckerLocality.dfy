/** Linearizability is local: orders of the single keys can be merged into one
    order of all operations. */
module CheckerLocality {
  import opened Histories
  import opened CheckerSearch
  import opened CheckerInstances

  // ---------------------------------------------------- operations on one key

  function AtKey(order: seq<Operation>, key: string): seq<Operation> {
    if order == [] then []
    else
      var k := |order| - 1;
      if order[k].key == key then AtKey(order[..k], key) + [order[k]] else AtKey(order[..k], key)
  }

  lemma {:induction false} AtKeyElements(order: seq<Operation>, key: string, x: Operation)
    ensures x in AtKey(order, key) <==> x in order && x.key == key
  {
    if order != [] {
      var k := |order| - 1;
      AtKeyElements(order[..k], key, x);
      assert order == order[..k] + [order[k]];
    }
  }

  lemma {:induction false} AtKeyCount(order: seq<Operation>, x: Operation)
    ensures multiset(AtKey(order, x.key))[x] == multiset(order)[x]
  {
    if order != [] {
      var k := |order| - 1;
      AtKeyCount(order[..k], x);
      assert order == order[..k] + [order[k]];
    }
  }

  /** What a key holds depends on the operations on that key alone. */
  lemma {:induction false} ReplayLocal(order: seq<Operation>, key: string)
    ensures var s, r := Replay(order), Replay(AtKey(order, key));
            (key in s <==> key in r) && (key in s ==> s[key] == r[key])
  {
    if order != [] {
      var k := |order| - 1;
      ReplayLocal(order[..k], key);
      var before := AtKey(order[..k], key);
      if order[k].key == key {
        assert (before + [order[k]])[..|before|] == before;
      }
    }
  }

  lemma ObservesLocal(order: seq<Operation>, op: Operation)
    ensures Observes(Replay(order), op) <==> Observes(Replay(AtKey(order, op.key)), op)
  {
    ReplayLocal(order, op.key);
  }

  lemma ExplainsLast(order: seq<Operation>, op: Operation)
    ensures Explains(order + [op]) <==> Explains(order) && Observes(Replay(order), op)
  {
    var all := order + [op];
    assert all[..|order|] == order;
    assert forall i :: 0 <= i < |order| ==> all[..i] == order[..i] && all[i] == order[i];
    if Explains(all) {
      forall i | 0 <= i < |order|
        ensures Observes(Replay(order[..i]), order[i])
      {
        assert Observes(Replay(all[..i]), all[i]);
      }
      assert Observes(Replay(all[..|order|]), all[|order|]);
    }
  }

  lemma {:induction false} ExplainsEach(order: seq<Operation>, key: string)
    requires Explains(order)
    ensures Explains(AtKey(order, key))
  {
    hide Explains, Replay;
    if order == [] {
      NothingExplains();
    } else {
      var k := |order| - 1;
      assert order == order[..k] + [order[k]];
      ExplainsLast(order[..k], order[k]);
      ExplainsEach(order[..k], key);
      if order[k].key == key {
        ObservesLocal(order[..k], order[k]);
        ExplainsLast(AtKey(order[..k], key), order[k]);
      }
    }
  }

  lemma NothingExplains()
    ensures Explains([])
  {
  }

  lemma {:induction false} ExplainsAll(order: seq<Operation>)
    requires forall i :: 0 <= i < |order| ==> Explains(AtKey(order, order[i].key))
    ensures Explains(order)
  {
    hide Explains, Replay;
    if order == [] {
      NothingExplains();
    } else {
      var k := |order| - 1;
      assert order == order[..k] + [order[k]];
      forall i | 0 <= i < k
        ensures Explains(AtKey(order[..k], order[..k][i].key))
      {
        var key := order[i].key;
        assert Explains(AtKey(order, key));
        if order[k].key == key {
          ExplainsLast(AtKey(order[..k], key), order[k]);
        }
      }
      ExplainsAll(order[..k]);
      assert Explains(AtKey(order, order[k].key));
      ExplainsLast(AtKey(order[..k], order[k].key), order[k]);
      ObservesLocal(order[..k], order[k]);
      ExplainsLast(order[..k], order[k]);
    }
  }

  lemma TimeLast(order: seq<Operation>, op: Operation)
    ensures RespectsTime(order + [op]) <==> RespectsTime(order) && forall x :: x in order ==> !Precedes(op, x)
  {
    var all := order + [op];
    if RespectsTime(all) {
      assert forall i :: 0 <= i < |order| ==> all[i] == order[i];
      assert all[|order|] == op;
      forall i, j | 0 <= i < j < |order|
        ensures !Precedes(order[j], order[i])
      {
        assert !Precedes(all[j], all[i]);
      }
      forall x | x in order
        ensures !Precedes(op, x)
      {
        var i :| 0 <= i < |order| && order[i] == x;
        assert !Precedes(all[|order|], all[i]);
      }
    }
  }

  lemma {:induction false} TimeEach(order: seq<Operation>, key: string)
    requires RespectsTime(order)
    ensures RespectsTime(AtKey(order, key))
  {
    hide RespectsTime;
    if order == [] {
      NothingRespects();
    } else {
      var k := |order| - 1;
      assert order == order[..k] + [order[k]];
      TimeLast(order[..k], order[k]);
      TimeEach(order[..k], key);
      if order[k].key == key {
        forall x | x in AtKey(order[..k], key)
          ensures !Precedes(order[k], x)
        {
          AtKeyElements(order[..k], key, x);
        }
        TimeLast(AtKey(order[..k], key), order[k]);
      }
    }
  }

  lemma NothingRespects()
    ensures RespectsTime([])
  {
  }

  // ---------------------------------------------------------------- merging

  /** An operation with a moment at which it may have taken effect. */
  type Timed = (Operation, int)

  predicate Sorted(ts: seq<Timed>) {
    forall i, j :: 0 <= i < j < |ts| ==> ts[i].1 <= ts[j].1
  }

  function Ops(ts: seq<Timed>): (ops: seq<Operation>)
    ensures |ops| == |ts| && forall i :: 0 <= i < |ops| ==> ops[i] == ts[i].0
  {
    seq(|ts|, i requires 0 <= i < |ts| => ts[i].0)
  }

  function Merge(a: seq<Timed>, b: seq<Timed>): seq<Timed>
    decreases |a| + |b|
  {
    if a == [] then b
    else if b == [] then a
    else
      var k, l := |a| - 1, |b| - 1;
      if a[k].1 > b[l].1 then Merge(a[..k], b) + [a[k]] else Merge(a, b[..l]) + [b[l]]
  }

  lemma {:induction false} MergeElements(a: seq<Timed>, b: seq<Timed>)
    ensures multiset(Merge(a, b)) == multiset(a) + multiset(b)
    ensures |Merge(a, b)| == |a| + |b|
    decreases |a| + |b|
  {
    if a != [] && b != [] {
      var k, l := |a| - 1, |b| - 1;
      if a[k].1 > b[l].1 {
        MergeElements(a[..k], b);
        assert a == a[..k] + [a[k]];
      } else {
        MergeElements(a, b[..l]);
        assert b == b[..l] + [b[l]];
      }
    }
  }

  lemma MergeIn(a: seq<Timed>, b: seq<Timed>, x: Timed)
    ensures x in Merge(a, b) <==> x in a || x in b
  {
    MergeElements(a, b);
    assert x in Merge(a, b) <==> x in multiset(Merge(a, b));
    assert x in a <==> x in multiset(a);
    assert x in b <==> x in multiset(b);
  }

  lemma SortedLast(ts: seq<Timed>, x: Timed)
    requires Sorted(ts) && forall y :: y in ts ==> y.1 <= x.1
    ensures Sorted(ts + [x])
  {
  }

  lemma {:induction false} MergeSorted(a: seq<Timed>, b: seq<Timed>)
    requires Sorted(a) && Sorted(b)
    ensures Sorted(Merge(a, b))
    decreases |a| + |b|
  {
    if a != [] && b != [] {
      var k, l := |a| - 1, |b| - 1;
      if a[k].1 > b[l].1 {
        MergeSorted(a[..k], b);
        forall y | y in Merge(a[..k], b)
          ensures y.1 <= a[k].1
        {
          MergeIn(a[..k], b, y);
        }
        SortedLast(Merge(a[..k], b), a[k]);
      } else {
        MergeSorted(a, b[..l]);
        forall y | y in Merge(a, b[..l])
          ensures y.1 <= b[l].1
        {
          MergeIn(a, b[..l], y);
        }
        SortedLast(Merge(a, b[..l]), b[l]);
      }
    }
  }

  lemma OpsLast(ts: seq<Timed>, x: Timed)
    ensures Ops(ts + [x]) == Ops(ts) + [x.0]
  {
  }

  lemma AtKeyLast(ts: seq<Timed>, x: Timed, key: string)
    ensures AtKey(Ops(ts + [x]), key) == if x.0.key == key then AtKey(Ops(ts), key) + [x.0] else AtKey(Ops(ts), key)
  {
    OpsLast(ts, x);
    assert (Ops(ts) + [x.0])[..|ts|] == Ops(ts);
  }

  lemma {:induction false} NothingAtKey(ts: seq<Timed>, key: string)
    requires forall x :: x in ts ==> x.0.key != key
    ensures AtKey(Ops(ts), key) == []
  {
    if ts != [] {
      var k := |ts| - 1;
      NothingAtKey(ts[..k], key);
      assert ts == ts[..k] + [ts[k]];
      AtKeyLast(ts[..k], ts[k], key);
    }
  }

  /** No operation of one side is on the key. */
  predicate OneSided(a: seq<Timed>, b: seq<Timed>, key: string) {
    (forall x :: x in a ==> x.0.key != key) || (forall x :: x in b ==> x.0.key != key)
  }

  /** Merging leaves the operations on a key that only one side has as they
      were. */
  lemma {:induction false} MergeAtKey(a: seq<Timed>, b: seq<Timed>, key: string)
    requires OneSided(a, b, key)
    ensures AtKey(Ops(Merge(a, b)), key) == AtKey(Ops(a), key) + AtKey(Ops(b), key)
    decreases |a| + |b|, 1
  {
    hide Ops, AtKey;
    if a == [] {
      NothingAtKey(a, key);
    } else if b == [] {
      NothingAtKey(b, key);
    } else if a[|a| - 1].1 > b[|b| - 1].1 {
      MergeLeft(a, b, key);
    } else {
      var l := |b| - 1;
      assert b == b[..l] + [b[l]];
      AtKeyLast(b[..l], b[l], key);
      MergeAtKey(a, b[..l], key);
      AtKeyLast(Merge(a, b[..l]), b[l], key);
    }
  }

  lemma {:induction false} MergeLeft(a: seq<Timed>, b: seq<Timed>, key: string)
    requires OneSided(a, b, key) && a != [] && b != [] && a[|a| - 1].1 > b[|b| - 1].1
    ensures AtKey(Ops(Merge(a, b)), key) == AtKey(Ops(a), key) + AtKey(Ops(b), key)
    decreases |a| + |b|, 0
  {
    hide Ops, AtKey;
    var k := |a| - 1;
    assert a == a[..k] + [a[k]];
    AtKeyLast(a[..k], a[k], key);
    MergeAtKey(a[..k], b, key);
    AtKeyLast(Merge(a[..k], b), a[k], key);
    if a[k].0.key == key {
      assert a[k] in a;
      NothingAtKey(b, key);
    }
  }

  /** The moment lies between the operation's invocation and its completion. */
  predicate Within(x: Timed) {
    x.0.invoke <= x.1 && (x.0.outcome == Ok ==> x.1 <= x.0.complete)
  }

  /** Each operation at the latest invocation up to it. */
  function Stamped(l: seq<Operation>): (ts: seq<Timed>)
    ensures |ts| == |l| && forall i :: 0 <= i < |l| ==> ts[i].0 == l[i]
  {
    if l == [] then []
    else
      var k := |l| - 1;
      var before := Stamped(l[..k]);
      before + [(l[k], if k > 0 && before[k - 1].1 > l[k].invoke then before[k - 1].1 else l[k].invoke)]
  }

  lemma {:induction false} StampedSorted(l: seq<Operation>)
    ensures Sorted(Stamped(l))
  {
    if l != [] {
      var k := |l| - 1;
      StampedSorted(l[..k]);
      var before, x := Stamped(l[..k]), Stamped(l)[k];
      forall y | y in before
        ensures y.1 <= x.1
      {
        var i :| 0 <= i < k && before[i] == y;
        assert i < k - 1 ==> before[i].1 <= before[k - 1].1;
      }
      SortedLast(before, x);
    }
  }

  /** A moment is the invocation of an operation that is not later. */
  lemma {:induction false} StampedFrom(l: seq<Operation>, i: nat) returns (j: nat)
    requires i < |l|
    ensures j <= i && Stamped(l)[i].1 == l[j].invoke && l[i].invoke <= Stamped(l)[i].1
  {
    var k := |l| - 1;
    if i < k {
      j := StampedFrom(l[..k], i);
      assert Stamped(l)[i] == Stamped(l[..k])[i];
    } else if k > 0 && Stamped(l[..k])[k - 1].1 > l[k].invoke {
      j := StampedFrom(l[..k], k - 1);
    } else {
      j := k;
    }
  }

  predicate Proper(ops: seq<Operation>) {
    forall i :: 0 <= i < |ops| ==> ops[i].outcome == Ok ==> ops[i].invoke < ops[i].complete
  }

  lemma StampedWithin(l: seq<Operation>)
    requires RespectsTime(l) && Proper(l)
    ensures forall x :: x in Stamped(l) ==> Within(x)
  {
    hide Stamped;
    forall x | x in Stamped(l)
      ensures Within(x)
    {
      var i :| 0 <= i < |l| && Stamped(l)[i] == x;
      var j := StampedFrom(l, i);
      if j < i {
        assert !Precedes(l[i], l[j]);
      }
    }
  }

  // ------------------------------------------------------------ many keys

  function MergeAll(ls: seq<seq<Timed>>): seq<Timed> {
    if ls == [] then [] else Merge(MergeAll(ls[..|ls| - 1]), ls[|ls| - 1])
  }

  /** One sorted list of timed operations for each key. */
  predicate PerKey(ls: seq<seq<Timed>>, keys: seq<string>) {
    && |ls| == |keys|
    && (forall i, j :: 0 <= i < j < |keys| ==> keys[i] != keys[j])
    && (forall i :: 0 <= i < |ls| ==> Sorted(ls[i]))
    && (forall i, x :: 0 <= i < |ls| && x in ls[i] ==> x.0.key == keys[i] && Within(x))
  }

  lemma PerKeyPrefix(ls: seq<seq<Timed>>, keys: seq<string>)
    requires PerKey(ls, keys) && ls != []
    ensures PerKey(ls[..|ls| - 1], keys[..|keys| - 1])
  {
  }

  lemma {:induction false} MergedIn(ls: seq<seq<Timed>>, keys: seq<string>, x: Timed)
    requires PerKey(ls, keys) && x in MergeAll(ls)
    ensures x.0.key in keys && Within(x)
  {
    var k := |ls| - 1;
    MergeIn(MergeAll(ls[..k]), ls[k], x);
    if x in ls[k] {
      assert x.0.key == keys[k];
    } else {
      PerKeyPrefix(ls, keys);
      MergedIn(ls[..k], keys[..k], x);
    }
  }

  lemma {:induction false} MergedSorted(ls: seq<seq<Timed>>, keys: seq<string>)
    requires PerKey(ls, keys)
    ensures Sorted(MergeAll(ls))
  {
    hide Sorted;
    if ls != [] {
      var k := |ls| - 1;
      PerKeyPrefix(ls, keys);
      MergedSorted(ls[..k], keys[..k]);
      MergeSorted(MergeAll(ls[..k]), ls[k]);
    } else {
      NothingSorted();
    }
  }

  lemma NothingSorted()
    ensures Sorted([])
  {
  }

  lemma {:induction false} MergedAtKey(ls: seq<seq<Timed>>, keys: seq<string>, i: nat)
    requires PerKey(ls, keys) && i < |ls|
    ensures AtKey(Ops(MergeAll(ls)), keys[i]) == Ops(ls[i])
  {
    hide Ops, AtKey, Sorted;
    var k := |ls| - 1;
    var before := MergeAll(ls[..k]);
    PerKeyPrefix(ls, keys);
    if i < k {
      MergedAtKey(ls[..k], keys[..k], i);
      assert forall x :: x in ls[k] ==> x.0.key != keys[i];
      NothingAtKey(ls[k], keys[i]);
    } else {
      forall x | x in before
        ensures x.0.key != keys[k]
      {
        MergedIn(ls[..k], keys[..k], x);
      }
      NothingAtKey(before, keys[k]);
      AllAtKey(ls[k], keys[k]);
    }
    MergeAtKey(before, ls[k], keys[i]);
  }

  lemma {:induction false} AllAtKey(ts: seq<Timed>, key: string)
    requires forall x :: x in ts ==> x.0.key == key
    ensures AtKey(Ops(ts), key) == Ops(ts)
  {
    if ts != [] {
      var k := |ts| - 1;
      AllAtKey(ts[..k], key);
      assert ts == ts[..k] + [ts[k]];
      AtKeyLast(ts[..k], ts[k], key);
      OpsLast(ts[..k], ts[k]);
    }
  }

  /** Operations at moments within their intervals respect time. */
  lemma SortedRespects(ts: seq<Timed>)
    requires Sorted(ts) && forall x :: x in ts ==> Within(x)
    ensures RespectsTime(Ops(ts))
  {
    var order := Ops(ts);
    forall i, j | 0 <= i < j < |order|
      ensures !Precedes(order[j], order[i])
    {
      assert ts[i] in ts && ts[j] in ts;
    }
  }

  /** Locality: orders of the single keys that respect time and explain their
      operations give an order of all that does. */
  lemma Local(ls: seq<seq<Operation>>, keys: seq<string>) returns (order: seq<Operation>)
    requires |ls| == |keys| && forall i, j :: 0 <= i < j < |keys| ==> keys[i] != keys[j]
    requires forall i :: 0 <= i < |ls| ==> KeyOrder(ls[i], keys[i])
    ensures RespectsTime(order) && Explains(order)
    ensures forall i :: 0 <= i < |keys| ==> AtKey(order, keys[i]) == ls[i]
    ensures forall x :: x in order ==> x.key in keys
  {
    hide Explains, RespectsTime, AtKey, Sorted, Ops, Stamped, MergeAll;
    var ts: seq<seq<Timed>> := seq(|ls|, i requires 0 <= i < |ls| => Stamped(ls[i]));
    forall i | 0 <= i < |ls|
      ensures Sorted(ts[i]) && Ops(ts[i]) == ls[i] && forall x :: x in ts[i] ==> x.0.key == keys[i] && Within(x)
    {
      StampedKey(ls[i], keys[i]);
    }
    var merged := MergeAll(ts);
    order := Ops(merged);
    MergedSorted(ts, keys);
    forall x | x in merged
      ensures Within(x) && x.0.key in keys
    {
      MergedIn(ts, keys, x);
    }
    SortedRespects(merged);
    forall i | 0 <= i < |keys|
      ensures AtKey(order, keys[i]) == ls[i]
    {
      MergedAtKey(ts, keys, i);
    }
    forall i | 0 <= i < |order|
      ensures order[i].key in keys && Explains(AtKey(order, order[i].key))
    {
      assert merged[i] in merged;
      var j :| 0 <= j < |keys| && keys[j] == order[i].key;
    }
    ExplainsAll(order);
  }

  ghost predicate KeyOrder(l: seq<Operation>, key: string) {
    && RespectsTime(l) && Explains(l) && Proper(l)
    && forall x :: x in l ==> x.key == key
  }

  lemma StampedKey(l: seq<Operation>, key: string)
    requires KeyOrder(l, key)
    ensures var ts := Stamped(l); Sorted(ts) && Ops(ts) == l && forall x :: x in ts ==> x.0.key == key && Within(x)
  {
    hide Explains, RespectsTime, Sorted;
    StampedSorted(l);
    StampedWithin(l);
  }

  // --------------------------------------------------------------- sorting

  function ByInvoke(s: seq<Operation>): seq<Timed> {
    if s == [] then [] else Merge(ByInvoke(s[..|s| - 1]), [(s[|s| - 1], s[|s| - 1].invoke)])
  }

  lemma {:induction false} MergeOps(a: seq<Timed>, b: seq<Timed>)
    ensures multiset(Ops(Merge(a, b))) == multiset(Ops(a)) + multiset(Ops(b))
    decreases |a| + |b|
  {
    hide Ops;
    if a == [] {
      NoOps();
    } else if b == [] {
      NoOps();
    } else {
      var k, l := |a| - 1, |b| - 1;
      assert a == a[..k] + [a[k]] && b == b[..l] + [b[l]];
      OpsLast(a[..k], a[k]);
      OpsLast(b[..l], b[l]);
      if a[k].1 > b[l].1 {
        MergeOps(a[..k], b);
        OpsLast(Merge(a[..k], b), a[k]);
      } else {
        MergeOps(a, b[..l]);
        OpsLast(Merge(a, b[..l]), b[l]);
      }
    }
  }

  lemma NoOps()
    ensures Ops([]) == []
  {
  }

  lemma {:induction false} ByInvokeSorted(s: seq<Operation>)
    requires Proper(s)
    ensures Sorted(ByInvoke(s)) && forall x :: x in ByInvoke(s) ==> Within(x)
  {
    if s != [] {
      var k := |s| - 1;
      var before, one := ByInvoke(s[..k]), [(s[k], s[k].invoke)];
      ByInvokeSorted(s[..k]);
      MergeSorted(before, one);
      forall x | x in ByInvoke(s)
        ensures Within(x)
      {
        MergeIn(before, one, x);
      }
    }
  }

  lemma {:induction false} ByInvokeOps(s: seq<Operation>)
    ensures IsOrderOf(Ops(ByInvoke(s)), s)
  {
    if s != [] {
      var k := |s| - 1;
      ByInvokeOps(s[..k]);
      MergeOps(ByInvoke(s[..k]), [(s[k], s[k].invoke)]);
      assert Ops([(s[k], s[k].invoke)]) == [s[k]];
      assert s == s[..k] + [s[k]];
    }
  }

  // ------------------------------------------------ one order for each key

  /** The instance of a history whose reads are all of different keys. */
  ghost predicate Candidate(t: Instance, required: seq<Operation>, included: seq<Operation>) {
    && InstanceOf(t, required, required + included) && ValidInstance(t) && Distinct(required + included)
    && AllOk(required) && NoneOk(included) && forall x :: x in included ==> x.kind != Get
  }

  predicate OneGet(ops: seq<Operation>) {
    forall i, j :: 0 <= i < j < |ops| && ops[i].kind == ops[j].kind == Get ==> ops[i].key != ops[j].key
  }

  lemma OrderIn(t: Instance, required: seq<Operation>, included: seq<Operation>, p: seq<int>)
    requires Candidate(t, required, included) && Feasible(t, p)
    ensures Distinct(Order(t, p)) && RespectsTime(Order(t, p)) && Explains(Order(t, p))
    ensures forall i :: 0 <= i < |p| ==> Order(t, p)[i] in required + included && Order(t, p)[i].id == p[i]
  {
    hide Explains;
    var all, order := required + included, Order(t, p);
    forall i | 0 <= i < |p|
      ensures order[i] in all && order[i].id == p[i]
    {
      assert p[i] in t.ids;
      var j :| 0 <= j < |all| && t.ids[j] == p[i];
      assert all[j] in all;
    }
    forall i, j | 0 <= i < j < |order|
      ensures !Precedes(order[j], order[i])
    {
      if Precedes(order[j], order[i]) {
        PrecederEarlier(t, required, included, p, i, j);
      }
    }
  }

  /** What precedes an operation of a partial linearization is in it. */
  lemma Closed(t: Instance, required: seq<Operation>, included: seq<Operation>, p: seq<int>, x: Operation, y: Operation)
    requires Candidate(t, required, included) && Feasible(t, p) && x in Order(t, p) && y in required + included
    requires Precedes(y, x)
    ensures y in Order(t, p)
  {
    hide Explains;
    var all, order := required + included, Order(t, p);
    var i :| 0 <= i < |p| && order[i] == x;
    assert p[i] in t.ids;
    var b :| 0 <= b < |all| && t.ids[b] == p[i];
    var a :| 0 <= a < |all| && all[a] == y;
    assert all[b] == x && a < |required|;
    assert IsPred(required[a], all[b], y.id);
    assert PredsOf(Preds(t, all[b].id), required, |required|, all[b]);
    assert y.id in Preds(t, p[i]);
    assert Ready(t, p[..i], p[i]);
    var k :| 0 <= k < i && p[..i][k] == y.id;
    assert order[k] == y;
  }

  function Without(ops: seq<Operation>, placed: seq<Operation>): seq<Operation> {
    if ops == [] then []
    else
      var k := |ops| - 1;
      if ops[k] in placed then Without(ops[..k], placed) else Without(ops[..k], placed) + [ops[k]]
  }

  lemma {:induction false} WithoutIs(ops: seq<Operation>, placed: seq<Operation>)
    requires Distinct(ops)
    ensures Distinct(Without(ops, placed)) && forall x :: x in Without(ops, placed) <==> x in ops && x !in placed
  {
    if ops != [] {
      var k := |ops| - 1;
      WithoutIs(ops[..k], placed);
      assert ops == ops[..k] + [ops[k]];
      assert forall x :: x in ops[..k] ==> x.id != ops[k].id;
    }
  }

  lemma {:induction false} AtKeyDistinct(order: seq<Operation>, key: string)
    requires Distinct(order)
    ensures Distinct(AtKey(order, key))
  {
    if order != [] {
      var k := |order| - 1;
      AtKeyDistinct(order[..k], key);
      assert forall x :: x in order[..k] ==> x.id != order[k].id;
      forall x | x in AtKey(order[..k], key)
        ensures x.id != order[k].id
      {
        AtKeyElements(order[..k], key, x);
      }
    }
  }

  /** Writes after an order that explains its operations. */
  lemma ExplainsWrites(order: seq<Operation>, writes: seq<Operation>)
    requires Explains(order) && forall x :: x in writes ==> x.kind != Get
    ensures Explains(order + writes)
  {
    var all := order + writes;
    forall i | 0 <= i < |all|
      ensures Observes(Replay(all[..i]), all[i])
    {
      if i < |order| {
        assert all[..i] == order[..i];
      } else {
        assert all[i] in writes;
      }
    }
  }

  lemma TimeConcat(a: seq<Operation>, b: seq<Operation>)
    requires RespectsTime(a) && RespectsTime(b) && forall x, y :: x in a && y in b ==> !Precedes(y, x)
    ensures RespectsTime(a + b)
  {
    var all := a + b;
    forall i, j | 0 <= i < j < |all|
      ensures !Precedes(all[j], all[i])
    {
      if i < |a| <= j {
        assert all[i] in a && all[j] in b;
      }
    }
  }

  lemma ProperIn(ops: seq<Operation>, required: seq<Operation>, included: seq<Operation>)
    requires AllOk(required) && NoneOk(included) && forall x :: x in ops ==> x in required + included
    ensures Proper(ops)
  {
    forall i | 0 <= i < |ops| && ops[i].outcome == Ok
      ensures ops[i].invoke < ops[i].complete
    {
      assert ops[i] in required + included;
      var j :| 0 <= j < |required + included| && (required + included)[j] == ops[i];
    }
  }

  /** A partial linearization that has every read of a key gives an order of
      all operations on the key: its own, and the other writes by invocation. */
  lemma OrderOfKey(t: Instance, required: seq<Operation>, included: seq<Operation>, p: seq<int>, key: string)
      returns (l: seq<Operation>)
    requires Candidate(t, required, included) && Feasible(t, p)
    requires forall x :: x in required + included && x.key == key && x.kind == Get ==> x in Order(t, p)
    ensures KeyOrder(l, key) && Distinct(l) && forall x :: x in l <==> x in required + included && x.key == key
  {
    hide Feasible, Explains, RespectsTime, Candidate, Without, AtKey, ByInvoke, Ops, IsOrderOf, Proper, Sorted;
    FeasibleKnown(t, p);
    var all, order := required + included, Order(t, p);
    CandidateParts(t, required, included);
    OrderIn(t, required, included, p);
    var placed, mine := AtKey(order, key), AtKey(all, key);
    ExplainsEach(order, key);
    TimeEach(order, key);
    AtKeyDistinct(order, key);
    AtKeyDistinct(all, key);
    var rest := Without(mine, placed);
    WithoutIs(mine, placed);
    forall x
      ensures x in placed <==> x in order && x.key == key
      ensures x in mine <==> x in all && x.key == key
    {
      AtKeyElements(order, key, x);
      AtKeyElements(all, key, x);
    }
    var writes := Ops(ByInvoke(rest));
    ByInvokeOps(rest);
    OrderDistinct(writes, rest);
    ProperIn(rest, required, included);
    ByInvokeSorted(rest);
    SortedRespects(ByInvoke(rest));
    l := placed + writes;
    forall x, y | x in placed && y in writes
      ensures !Precedes(y, x)
    {
      if Precedes(y, x) {
        Closed(t, required, included, p, x, y);
      }
    }
    TimeConcat(placed, writes);
    ExplainsWrites(placed, writes);
    ProperIn(l, required, included);
    Apart(placed, writes, all);
  }

  lemma CandidateParts(t: Instance, required: seq<Operation>, included: seq<Operation>)
    requires Candidate(t, required, included)
    ensures Distinct(required + included) && AllOk(required) && NoneOk(included)
  {
  }

  lemma Apart(a: seq<Operation>, b: seq<Operation>, all: seq<Operation>)
    requires Distinct(a) && Distinct(b) && Distinct(all)
    requires (forall x :: x in a ==> x in all) && (forall x :: x in b ==> x in all && x !in a)
    ensures Distinct(a + b)
  {
    forall i, j | 0 <= i < |a| && 0 <= j < |b|
      ensures a[i].id != b[j].id
    {
      assert a[i] in all && b[j] in all && a[i] != b[j];
    }
  }

  /** The keys of the operations, each once. */
  function KeysOf(ops: seq<Operation>): (keys: seq<string>)
    ensures forall i, j :: 0 <= i < j < |keys| ==> keys[i] != keys[j]
    ensures forall x :: x in ops ==> x.key in keys
  {
    if ops == [] then []
    else
      var before, last := KeysOf(ops[..|ops| - 1]), ops[|ops| - 1];
      assert ops == ops[..|ops| - 1] + [last];
      if last.key in before then before else before + [last.key]
  }

  /** If every operation occurs in some partial linearization and no two reads
      are of the same key, every key has an order. */
  lemma KeyHasOrder(t: Instance, required: seq<Operation>, included: seq<Operation>, key: string)
      returns (l: seq<Operation>)
    requires Candidate(t, required, included) && Covered(t) && OneGet(required + included)
    ensures KeyOrder(l, key) && Distinct(l) && forall x :: x in l <==> x in required + included && x.key == key
  {
    hide Feasible, KeyOrder;
    var all := required + included;
    if g :| g in all && g.key == key && g.kind == Get {
      var j :| 0 <= j < |all| && all[j] == g;
      assert g.id in t.ops;
      assert Reachable(t, g.id);
      var p :| Feasible(t, p) && g.id in p;
      FeasibleKnown(t, p);
      forall x | x in all && x.key == key && x.kind == Get
        ensures x in Order(t, p)
      {
        var k :| 0 <= k < |all| && all[k] == x;
        assert j == k;
        var i :| 0 <= i < |p| && p[i] == g.id;
        assert Order(t, p)[i] == g;
      }
      l := OrderOfKey(t, required, included, p, key);
    } else {
      Nothing(t);
      l := OrderOfKey(t, required, included, [], key);
    }
  }

  lemma {:induction false} KeysHaveOrders(t: Instance, required: seq<Operation>, included: seq<Operation>,
                                          keys: seq<string>) returns (ls: seq<seq<Operation>>)
    requires Candidate(t, required, included) && Covered(t) && OneGet(required + included)
    ensures |ls| == |keys| && forall i :: 0 <= i < |ls| ==> KeyOrder(ls[i], keys[i]) && Distinct(ls[i])
    ensures forall i, x :: 0 <= i < |ls| ==> (x in ls[i] <==> x in required + included && x.key == keys[i])
  {
    hide Candidate, Covered, OneGet, KeyOrder, Distinct;
    if keys == [] {
      ls := [];
    } else {
      var k := |keys| - 1;
      var before := KeysHaveOrders(t, required, included, keys[..k]);
      var l := KeyHasOrder(t, required, included, keys[k]);
      ls := before + [l];
    }
  }

  lemma CountsAgree(order: seq<Operation>, all: seq<Operation>, ls: seq<seq<Operation>>, keys: seq<string>,
                    x: Operation)
    requires Distinct(all) && |ls| == |keys| && (forall y :: y in all ==> y.key in keys)
    requires (forall y :: y in order ==> y.key in keys)
    requires forall i :: 0 <= i < |ls| ==> Distinct(ls[i]) && AtKey(order, keys[i]) == ls[i]
    requires forall i :: 0 <= i < |ls| ==> (x in ls[i] <==> x in all && x.key == keys[i])
    ensures multiset(order)[x] == multiset(all)[x]
  {
    hide AtKey;
    OnceEach(all, x);
    if x.key in keys {
      var i :| 0 <= i < |keys| && keys[i] == x.key;
      AtKeyCount(order, x);
      OnceEach(ls[i], x);
    } else {
      assert x !in order && x !in all;
      assert x !in multiset(order);
    }
  }

  /** With at most one read of each key, a candidate set is linearizable if
      every operation occurs in some partial linearization. */
  lemma CoveredIsLinearizable(t: Instance, required: seq<Operation>, included: seq<Operation>)
    requires Candidate(t, required, included) && Covered(t) && OneGet(required + included)
    ensures Linearizable(required + included)
  {
    hide Candidate, Covered, OneGet, KeyOrder, Explains, RespectsTime, AtKey, KeysOf;
    var all := required + included;
    CandidateParts(t, required, included);
    var keys := KeysOf(all);
    var ls := KeysHaveOrders(t, required, included, keys);
    var order := Local(ls, keys);
    forall x
      ensures multiset(order)[x] == multiset(all)[x]
    {
      CountsAgree(order, all, ls, keys, x);
    }
    assert LinearizesAs(order, all);
  }
}
