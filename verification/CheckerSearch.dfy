/** The backtracking search for a linearization of one candidate set. */
module CheckerSearch {
  import opened Histories

  /** A candidate set: its operations by id, the ids in the order in which the
      search tries them, and for each id those that must come before it. */
  datatype Instance = Instance(ops: map<int, Operation>, ids: seq<int>, preds: map<int, seq<int>>)

  function Preds(t: Instance, id: int): seq<int> {
    if id in t.preds then t.preds[id] else []
  }

  ghost predicate Known(t: Instance, p: seq<int>) {
    forall i :: 0 <= i < |p| ==> p[i] in t.ops
  }

  ghost function Order(t: Instance, p: seq<int>): (order: seq<Operation>)
    requires Known(t, p)
    ensures |order| == |p| && forall i :: 0 <= i < |p| ==> order[i] == t.ops[p[i]]
  {
    seq(|p|, i requires 0 <= i < |p| => t.ops[p[i]])
  }

  predicate NoRepeats(p: seq<int>) {
    forall i, j :: 0 <= i < j < |p| ==> p[i] != p[j]
  }

  /** What must come before `id` is in `p`. */
  predicate Ready(t: Instance, p: seq<int>, id: int) {
    forall x :: x in Preds(t, id) ==> x in p
  }

  /** A partial linearization: every operation in it came after whatever must
      precede it and observed what the operations before it lead to. */
  ghost predicate Feasible(t: Instance, p: seq<int>) {
    && Known(t, p)
    && NoRepeats(p)
    && (forall i :: 0 <= i < |p| ==> Ready(t, p[..i], p[i]))
    && Explains(Order(t, p))
  }

  ghost predicate Extends(t: Instance, p: seq<int>, id: int)
    requires Known(t, p)
  {
    id in t.ops && id !in p && Ready(t, p, id) && Observes(Replay(Order(t, p)), t.ops[id])
  }

  /** No operation can be placed after `p`. */
  ghost predicate DeadEnd(t: Instance, p: seq<int>) {
    forall id :: id in t.ids ==> !Feasible(t, p + [id])
  }

  lemma OrderPrefix(t: Instance, p: seq<int>, i: nat)
    requires Known(t, p) && i <= |p|
    ensures Order(t, p)[..i] == Order(t, p[..i])
  {
  }

  lemma FeasibleExtends(t: Instance, p: seq<int>, id: int)
    requires Feasible(t, p)
    ensures Feasible(t, p + [id]) <==> Extends(t, p, id)
    ensures id in t.ops ==> Known(t, p + [id]) && Order(t, p + [id]) == Order(t, p) + [t.ops[id]]
  {
    var q := p + [id];
    assert q[..|p|] == p && q[|p|] == id;
    if id in t.ops {
      assert Order(t, q) == Order(t, p) + [t.ops[id]];
      assert Order(t, q)[..|p|] == Order(t, p);
      if Extends(t, p, id) {
        forall i | 0 <= i < |q|
          ensures Ready(t, q[..i], q[i]) && Observes(Replay(Order(t, q)[..i]), Order(t, q)[i])
        {
          if i < |p| {
            assert q[..i] == p[..i];
            assert Order(t, q)[..i] == Order(t, p)[..i];
          }
        }
      }
      if Feasible(t, q) {
        assert Ready(t, q[..|p|], q[|p|]);
        assert Observes(Replay(Order(t, q)[..|p|]), Order(t, q)[|p|]);
      }
    }
  }

  lemma FeasiblePrefix(t: Instance, p: seq<int>, k: nat)
    requires Feasible(t, p) && k <= |p|
    ensures Feasible(t, p[..k])
  {
    OrderPrefix(t, p, k);
    var q := p[..k];
    forall i | 0 <= i < |q|
      ensures Ready(t, q[..i], q[i]) && Observes(Replay(Order(t, q)[..i]), Order(t, q)[i])
    {
      assert q[..i] == p[..i];
      assert Order(t, q)[..i] == Order(t, p)[..i];
    }
  }

  /** Some partial linearization contains `id`. */
  ghost predicate Reachable(t: Instance, id: int) {
    exists p :: Feasible(t, p) && id in p
  }

  /** Everything that some extension of `p` contains is in `touched`. */
  ghost predicate Swept(t: Instance, p: seq<int>, touched: set<int>) {
    forall q, x :: Feasible(t, p + q) && x in q ==> x in touched
  }

  lemma SweptByAll(t: Instance, p: seq<int>, touched: set<int>)
    requires Feasible(t, p)
    requires forall id :: id in t.ops && Feasible(t, p + [id]) ==> id in touched && Swept(t, p + [id], touched)
    ensures Swept(t, p, touched)
  {
    hide Feasible, Extends;
    forall q, x | Feasible(t, p + q) && x in q
      ensures x in touched
    {
      var id := q[0];
      assert (p + q)[..|p| + 1] == p + [id];
      FeasiblePrefix(t, p + q, |p| + 1);
      FirstKnown(t, p, id);
      assert p + q == (p + [id]) + q[1..];
      assert x == id || x in q[1..];
    }
  }

  lemma FeasibleKnown(t: Instance, p: seq<int>)
    requires Feasible(t, p)
    ensures Known(t, p)
  {
  }

  lemma FirstKnown(t: Instance, p: seq<int>, id: int)
    requires Feasible(t, p + [id])
    ensures id in t.ops
  {
    assert (p + [id])[|p|] == id;
  }

  lemma SweptMore(t: Instance, p: seq<int>, touched: set<int>, more: set<int>)
    requires Swept(t, p, touched) && touched <= more
    ensures Swept(t, p, more)
  {
  }

  // ------------------------------------------------------- how much is tried

  /** The most states that a search of `n` unplaced operations can take. */
  function Bound(n: nat): nat {
    if n == 0 then 0 else n * (1 + Bound(n - 1))
  }

  /** The most states that one of `n` unplaced operations can cost. */
  function Cost(n: nat): nat {
    if n == 0 then 1 else 1 + Bound(n - 1)
  }

  function Free(ids: seq<int>, p: seq<int>): nat {
    if ids == [] then 0
    else Free(ids[..|ids| - 1], p) + if ids[|ids| - 1] in p then 0 else 1
  }

  lemma {:induction false} FreeSize(ids: seq<int>, p: seq<int>)
    requires NoRepeats(ids)
    ensures Free(ids, p) == |Elements(ids) - Elements(p)|
  {
    if ids != [] {
      var k := |ids| - 1;
      FreeSize(ids[..k], p);
      ElementsLast(ids);
      assert ids[k] in p <==> ids[k] in Elements(p);
      LeaveOut(Elements(ids[..k]), Elements(p), ids[k]);
    }
  }

  lemma ElementsLast(p: seq<int>)
    requires p != [] && NoRepeats(p)
    ensures var k := |p| - 1; Elements(p) == Elements(p[..k]) + {p[k]} && p[k] !in Elements(p[..k])
  {
  }

  lemma LeaveOut(a: set<int>, b: set<int>, x: int)
    requires x !in a
    ensures |(a + {x}) - b| == |a - b| + if x in b then 0 else 1
  {
    if x in b {
      assert (a + {x}) - b == a - b;
    } else {
      assert (a + {x}) - b == (a - b) + {x};
    }
  }

  lemma FreeLeft(t: Instance, p: seq<int>)
    requires ValidInstance(t) && Feasible(t, p)
    ensures |p| <= |t.ids| && Free(t.ids, p) == |t.ids| - |p|
  {
    hide Free, Explains, Ready;
    Shorter(t, p);
    ElementsSize(p);
    ElementsSize(t.ids);
    FreeSize(t.ids, p);
    assert Elements(p) <= Elements(t.ids);
    Difference(Elements(t.ids), Elements(p));
  }

  lemma Difference(a: set<int>, b: set<int>)
    requires b <= a
    ensures |a - b| == |a| - |b|
  {
    assert a == b + (a - b);
  }

  /** The most states that the first `k` of the ids can cost, with `n`
      operations unplaced. */
  function Spent(ids: seq<int>, p: seq<int>, k: nat, n: nat): nat
    requires k <= |ids|
  {
    Free(ids[..k], p) * Cost(n)
  }

  lemma SpentNext(ids: seq<int>, p: seq<int>, k: nat, n: nat)
    requires k < |ids|
    ensures Spent(ids, p, k + 1, n) == Spent(ids, p, k, n) + if ids[k] in p then 0 else Cost(n)
  {
    hide Cost;
    assert ids[..k + 1][..k] == ids[..k];
    var f, c := Free(ids[..k], p), Cost(n);
    assert (f + 1) * c == f * c + c;
  }

  lemma SpentNothing(ids: seq<int>, p: seq<int>, n: nat)
    ensures Spent(ids, p, 0, n) == 0
  {
  }

  lemma {:induction false} FreeGrows(ids: seq<int>, p: seq<int>, k: nat)
    requires k <= |ids|
    ensures Free(ids[..k], p) <= Free(ids, p)
  {
    if k < |ids| {
      FreeGrows(ids[..|ids| - 1], p, k);
      assert ids[..|ids| - 1][..k] == ids[..k];
    } else {
      assert ids[..k] == ids;
    }
  }

  lemma SpentWithin(ids: seq<int>, p: seq<int>, k: nat, n: nat)
    requires k <= |ids| && Free(ids, p) == n
    ensures Spent(ids, p, k, n) <= Bound(n)
  {
    hide Free, Cost, Bound;
    FreeGrows(ids, p, k);
    AllCosts(n);
    Scaled(Free(ids[..k], p), n, Cost(n));
  }

  lemma AllCosts(n: nat)
    ensures n * Cost(n) == Bound(n)
  {
  }

  lemma Scaled(a: nat, b: nat, c: nat)
    requires a <= b
    ensures a * c <= b * c
  {
    assert b * c == a * c + (b - a) * c;
  }

  lemma {:induction false} BoundGrows(a: nat, b: nat)
    requires a <= b
    ensures Bound(a) <= Bound(b)
  {
    if 0 < a < b {
      BoundGrows(a, b - 1);
      assert Bound(b) == b * (1 + Bound(b - 1)) >= 1 + Bound(b - 1) by {
        assert b * (1 + Bound(b - 1)) == (1 + Bound(b - 1)) + (b - 1) * (1 + Bound(b - 1));
      }
    }
  }

  // ---------------------------------------------------------- the searcher

  ghost predicate ValidInstance(t: Instance) {
    && NoRepeats(t.ids)
    && forall x :: x in t.ops <==> x in t.ids
  }

  class Searcher {
    const t: Instance
    const maxStates: int
    var states: nat
    var budgetExceeded: bool
    var result: seq<int>
    /** Which operations are placed. An operation that was placed and taken
        back stays in the map, with the value false. */
    var done: map<int, bool>

    constructor (t: Instance, maxStates: int)
      ensures this.t == t && this.maxStates == maxStates
      ensures states == 0 && !budgetExceeded && result == [] && done == map[]
    {
      this.t, this.maxStates := t, maxStates;
      states, budgetExceeded, result, done := 0, false, [], map[];
    }

    /** The operations of `p`, and no others, are placed. */
    ghost predicate Places(p: seq<int>)
      reads this
    {
      forall x :: x in p <==> x in done && done[x]
    }

    /** Whatever was ever placed belongs to some partial linearization, and
        only too many states exceed the budget. */
    ghost predicate Justified()
      reads this
    {
      && done.Keys <= t.ops.Keys
      && (budgetExceeded <==> states > maxStates)
      && forall x :: x in done ==> Reachable(t, x)
    }

    method IsReady(id: int, ghost p: seq<int>) returns (ready: bool)
      requires Places(p)
      ensures ready <==> id !in p && Ready(t, p, id)
    {
      if id in done && done[id] {
        return false;
      }
      var preds := Preds(t, id);
      for i := 0 to |preds|
        invariant Places(p)
        invariant forall j :: 0 <= j < i ==> preds[j] in p
      {
        var x := preds[i];
        assert x in p <==> x in done && done[x];
        if !(x in done && done[x]) {
          assert x in preds;
          return false;
        }
      }
      return true;
    }

    /** Tries to extend the partial linearization `p`. A failure within the
        budget means that every extension of `p` has been tried and that some
        operation has never been placed. */
    method Search(p: seq<int>, m: Model) returns (ok: bool)
      requires ValidInstance(t) && Feasible(t, p) && Places(p) && Justified() && !budgetExceeded
      requires m.state == Replay(Order(t, p))
      modifies this
      ensures Justified() && old(done).Keys <= done.Keys
      ensures ok ==> done.Keys == t.ops.Keys && Feasible(t, result) && !budgetExceeded
      ensures !ok ==> Places(p) && done.Keys != t.ops.Keys
      ensures !ok && !budgetExceeded ==> Swept(t, p, done.Keys)
      ensures |p| <= |t.ids| && states <= old(states) + Bound(|t.ids| - |p|)
      ensures DeadEnd(t, p) ==> states <= old(states) + |t.ids|
      decreases |t.ids| - |p|, 1
    {
      hide Feasible, Swept, Reachable, Replay, Bound, Cost, Free, Spent;
      FreeLeft(t, p);
      ghost var n := |t.ids| - |p|;
      SpentNothing(t.ids, p, n);
      SameSize(done.Keys, t);
      if |done.Keys| == |t.ids| {
        result := p;
        return true;
      }
      for k := 0 to |t.ids|
        invariant Places(p) && Justified() && !budgetExceeded && done.Keys != t.ops.Keys
        invariant old(done).Keys <= done.Keys
        invariant forall j :: 0 <= j < k && Feasible(t, p + [t.ids[j]]) ==>
          t.ids[j] in done.Keys && Swept(t, p + [t.ids[j]], done.Keys)
        invariant states <= old(states) + Spent(t.ids, p, k, n)
        invariant DeadEnd(t, p) ==> states <= old(states) + k
      {
        SpentNext(t.ids, p, k, n);
        SpentWithin(t.ids, p, k + 1, n);
        ghost var before := done.Keys;
        ok := Try(p, t.ids[k], m);
        if ok || budgetExceeded {
          return;
        }
        Resweep(p, k, before, done.Keys);
      }
      Tried(p);
      SpentWithin(t.ids, p, |t.ids|, n);
      return false;
    }

    /** One turn of the loop: `id` as the next operation after `p`. */
    method Try(p: seq<int>, id: int, m: Model) returns (ok: bool)
      requires ValidInstance(t) && Feasible(t, p) && Places(p) && Justified() && !budgetExceeded
      requires m.state == Replay(Order(t, p)) && id in t.ids && done.Keys != t.ops.Keys
      modifies this
      ensures Justified() && old(done).Keys <= done.Keys
      ensures ok ==> done.Keys == t.ops.Keys && Feasible(t, result) && !budgetExceeded
      ensures !ok ==> Places(p) && done.Keys != t.ops.Keys
      ensures !ok && !budgetExceeded && Feasible(t, p + [id]) ==> id in done.Keys && Swept(t, p + [id], done.Keys)
      ensures |p| <= |t.ids| && states <= old(states) + if id in p then 0 else Cost(|t.ids| - |p|)
      ensures !Feasible(t, p + [id]) ==> states <= old(states) + 1
      decreases |t.ids| - |p|, 0
    {
      hide Feasible, Swept, Replay, Bound;
      FreeLeft(t, p);
      FeasibleExtends(t, p, id);
      FeasibleKnown(t, p);
      var ready := IsReady(id, p);
      if !ready {
        return false;
      }
      states := states + 1;
      if states > maxStates {
        budgetExceeded := true;
        return false;
      }
      var op := t.ops[id];
      var candidate := m.Clone();
      var found, value := candidate.Apply(op);
      if op.kind == Get && (found != op.found || (found && value != op.result)) {
        return false;
      }
      done := done[id := true];
      assert Extends(t, p, id);
      LastIn(p, id);
      Shorter(t, p + [id]);
      ReplayStep(t, p, id);
      assert Reachable(t, id);
      ok := Search(p + [id], candidate);
      if !ok {
        ghost var touched := done.Keys;
        done := done[id := false];
        assert done.Keys == touched;
      }
    }

    /** What earlier candidates swept stays swept. */
    lemma Resweep(p: seq<int>, k: nat, before: set<int>, after: set<int>)
      requires k < |t.ids| && before <= after
      requires forall j :: 0 <= j < k && Feasible(t, p + [t.ids[j]]) ==>
                 t.ids[j] in before && Swept(t, p + [t.ids[j]], before)
      ensures forall j :: 0 <= j < k && Feasible(t, p + [t.ids[j]]) ==>
                t.ids[j] in after && Swept(t, p + [t.ids[j]], after)
    {
      hide Feasible;
      forall j | 0 <= j < k && Feasible(t, p + [t.ids[j]])
        ensures t.ids[j] in after && Swept(t, p + [t.ids[j]], after)
      {
        SweptMore(t, p + [t.ids[j]], before, after);
      }
    }

    lemma Tried(p: seq<int>)
      requires ValidInstance(t) && Feasible(t, p)
      requires forall j :: 0 <= j < |t.ids| && Feasible(t, p + [t.ids[j]]) ==>
        t.ids[j] in done.Keys && Swept(t, p + [t.ids[j]], done.Keys)
      ensures Swept(t, p, done.Keys)
    {
      hide Swept;
      forall id | id in t.ops && Feasible(t, p + [id])
        ensures id in done.Keys && Swept(t, p + [id], done.Keys)
      {
        var j :| 0 <= j < |t.ids| && t.ids[j] == id;
      }
      SweptByAll(t, p, done.Keys);
    }
  }

  lemma LastIn(p: seq<int>, id: int)
    ensures forall x :: x in p + [id] <==> x in p || x == id
  {
  }

  lemma ReplayStep(t: Instance, p: seq<int>, id: int)
    requires Feasible(t, p) && Feasible(t, p + [id])
    ensures id in t.ops && Replay(Order(t, p + [id])) == Effect(Replay(Order(t, p)), t.ops[id])
  {
    FeasibleExtends(t, p, id);
    assert (Order(t, p) + [t.ops[id]])[..|p|] == Order(t, p);
  }

  function Elements(p: seq<int>): set<int> {
    set x | x in p
  }

  lemma {:induction false} ElementsSize(p: seq<int>)
    requires NoRepeats(p)
    ensures |Elements(p)| == |p|
  {
    if p != [] {
      var k := |p| - 1;
      ElementsSize(p[..k]);
      assert Elements(p) == Elements(p[..k]) + {p[k]};
    }
  }

  lemma SubsetSize(a: set<int>, b: set<int>)
    requires a <= b
    ensures |a| <= |b| && (|a| == |b| ==> a == b)
  {
    var rest := b - a;
    assert b == a + rest;
    assert |b| == |a| + |rest|;
  }

  lemma SameSize(touched: set<int>, t: Instance)
    requires ValidInstance(t) && touched <= t.ops.Keys
    ensures |touched| == |t.ids| <==> touched == t.ops.Keys
  {
    ElementsSize(t.ids);
    assert Elements(t.ids) == t.ops.Keys;
    SubsetSize(touched, t.ops.Keys);
  }

  lemma Shorter(t: Instance, p: seq<int>)
    requires ValidInstance(t) && Feasible(t, p)
    ensures |p| <= |t.ids|
  {
    ElementsSize(p);
    ElementsSize(t.ids);
    assert Elements(p) <= Elements(t.ids);
    SubsetSize(Elements(p), Elements(t.ids));
  }
}
