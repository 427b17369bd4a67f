/** One candidate set of the checker: its search instance, what the search says
    of it, and how partial linearizations relate to complete ones. */
module CheckerInstances {
  import opened Histories
  import opened CheckerSearch

  // --------------------------------------------------- building an instance

  /** `t` is the search instance of `required` and `included` together, with
      the required operations alone as predecessors. */
  ghost predicate InstanceOf(t: Instance, required: seq<Operation>, all: seq<Operation>) {
    && |t.ids| == |all|
    && (forall i :: 0 <= i < |all| ==> t.ids[i] == all[i].id && all[i].id in t.ops && t.ops[all[i].id] == all[i])
    && (forall x :: x in t.ops ==> x in t.ids)
    && (forall i :: 0 <= i < |all| ==> PredsOf(Preds(t, all[i].id), required, |required|, all[i]))
  }

  /** The ids of the first `k` required operations that were over before `b`. */
  ghost predicate PredsOf(preds: seq<int>, required: seq<Operation>, k: nat, b: Operation)
    requires k <= |required|
  {
    forall x :: x in preds <==> exists j :: 0 <= j < k && IsPred(required[j], b, x)
  }

  predicate IsPred(a: Operation, b: Operation, x: int) {
    a.id == x && a.id != b.id && a.complete < b.invoke
  }

  method CollectPreds(required: seq<Operation>, b: Operation) returns (preds: seq<int>)
    ensures PredsOf(preds, required, |required|, b)
  {
    preds := [];
    for j := 0 to |required|
      invariant PredsOf(preds, required, j, b)
    {
      ghost var before := preds;
      var a := required[j];
      if a.id != b.id && a.complete < b.invoke {
        preds := preds + [a.id];
      }
      forall x
        ensures x in preds <==> exists i :: 0 <= i < j + 1 && IsPred(required[i], b, x)
      {
        assert x in preds <==> x in before || IsPred(a, b, x);
      }
    }
  }

  method NewInstance(required: seq<Operation>, included: seq<Operation>) returns (t: Instance)
    requires Distinct(required + included)
    ensures InstanceOf(t, required, required + included) && ValidInstance(t)
  {
    var all := required + included;
    var ops: map<int, Operation> := map[];
    var ids: seq<int> := [];
    for i := 0 to |all|
      invariant |ids| == i && forall j :: 0 <= j < i ==>
                                ids[j] == all[j].id && all[j].id in ops && ops[all[j].id] == all[j]
      invariant forall x :: x in ops ==> x in ids
    {
      ops := ops[all[i].id := all[i]];
      ids := ids + [all[i].id];
    }
    var preds: map<int, seq<int>> := map[];
    for i := 0 to |all|
      invariant forall j :: 0 <= j < i ==> all[j].id in preds && PredsOf(preds[all[j].id], required, |required|, all[j])
    {
      var before := CollectPreds(required, all[i]);
      preds := preds[all[i].id := before];
    }
    t := Instance(ops, ids, preds);
  }

  // ------------------------------------------- searching one candidate set

  datatype Status = Valid | Violation | Inconclusive

  /** Every operation occurs in some partial linearization. This is weaker
      than linearizability: nothing makes the partial linearizations fit. */
  ghost predicate Covered(t: Instance) {
    forall x :: x in t.ops ==> Reachable(t, x)
  }

  /** Within the budget the search says VALID exactly when every operation
      occurs in some partial linearization. */
  method Run(t: Instance, maxStates: int) returns (status: Status, linearization: seq<int>, states: nat)
    requires ValidInstance(t) && maxStates > 0
    ensures status == Inconclusive <==> states > maxStates
    ensures states <= Bound(|t.ids|) && (DeadEnd(t, []) ==> states <= |t.ids|)
    ensures status == Valid ==> Covered(t) && Feasible(t, linearization)
    ensures status == Violation ==> !Covered(t)
  {
    hide Swept, Feasible, Bound;
    var s := new Searcher(t, maxStates);
    var m := new Model();
    Nothing(t);
    var ok := s.Search([], m);
    states := s.states;
    if s.budgetExceeded {
      return Inconclusive, [], states;
    }
    if ok {
      return Valid, s.result, states;
    }
    Missing(t, s.done.Keys);
    return Violation, [], states;
  }

  lemma Nothing(t: Instance)
    ensures Feasible(t, []) && Replay(Order(t, [])) == map[]
  {
  }

  lemma Missing(t: Instance, touched: set<int>)
    requires Swept(t, [], touched) && touched <= t.ops.Keys && touched != t.ops.Keys
    ensures !Covered(t)
  {
    assert (forall x :: x in t.ops ==> x in touched) ==> touched == t.ops.Keys;
    var x :| x in t.ops && x !in touched;
    forall p | Feasible(t, p)
      ensures x !in p
    {
      assert [] + p == p;
    }
    assert !Reachable(t, x);
  }

  // ------------------------------------------------- complete linearizations

  predicate AllOk(ops: seq<Operation>) {
    forall i :: 0 <= i < |ops| ==> ops[i].outcome == Ok && ops[i].complete > ops[i].invoke
  }

  predicate NoneOk(ops: seq<Operation>) {
    forall i :: 0 <= i < |ops| ==> ops[i].outcome != Ok
  }

  lemma {:induction false} OnceEach(s: seq<Operation>, x: Operation)
    requires Distinct(s)
    ensures multiset(s)[x] == if x in s then 1 else 0
  {
    if s != [] {
      var k := |s| - 1;
      OnceEach(s[..k], x);
      assert s == s[..k] + [s[k]];
    }
  }

  lemma SameElements(a: seq<Operation>, b: seq<Operation>)
    requires Distinct(a) && Distinct(b) && forall x :: x in a <==> x in b
    ensures IsOrderOf(a, b)
  {
    forall x
      ensures multiset(a)[x] == multiset(b)[x]
    {
      OnceEach(a, x);
      OnceEach(b, x);
    }
  }

  lemma OrderDistinct(order: seq<Operation>, all: seq<Operation>)
    requires IsOrderOf(order, all) && Distinct(all)
    ensures Distinct(order) && |order| == |all| && forall x :: x in order <==> x in all
  {
    assert |multiset(order)| == |multiset(all)|;
    forall x
      ensures x in order <==> x in all
    {
      assert x in multiset(order) <==> x in multiset(all);
    }
    forall i, j | 0 <= i < j < |order|
      ensures order[i].id != order[j].id
    {
      assert order[i] in all && order[j] in all;
      if order[i] == order[j] {
        Twice(order, i, j);
        OnceEach(all, order[i]);
      }
    }
  }

  lemma Twice(s: seq<Operation>, i: nat, j: nat)
    requires i < j < |s| && s[i] == s[j]
    ensures multiset(s)[s[i]] >= 2
  {
    assert s == s[..j] + s[j..];
    assert multiset(s) == multiset(s[..j]) + multiset(s[j..]);
    assert s[i] in s[..j] && s[i] in s[j..];
  }

  ghost function Ids(order: seq<Operation>): (p: seq<int>)
    ensures |p| == |order| && forall i :: 0 <= i < |p| ==> p[i] == order[i].id
  {
    seq(|order|, i requires 0 <= i < |order| => order[i].id)
  }

  /** A linearization, as the search would build it. */
  lemma LinearizationFeasible(t: Instance, required: seq<Operation>, all: seq<Operation>, order: seq<Operation>)
    requires InstanceOf(t, required, all) && LinearizesAs(order, all) && Distinct(all)
    requires AllOk(required) && required <= all
    ensures Feasible(t, Ids(order)) && |order| == |all| && forall x :: x in t.ops ==> x in Ids(order)
  {
    hide Explains;
    var p := Ids(order);
    OrderDistinct(order, all);
    IdsKnown(t, required, all, order);
    forall i | 0 <= i < |p|
      ensures Ready(t, p[..i], p[i])
    {
      TimeReady(t, required, all, order, i);
    }
    assert Order(t, p) == order;
  }

  lemma IdsKnown(t: Instance, required: seq<Operation>, all: seq<Operation>, order: seq<Operation>)
    requires InstanceOf(t, required, all) && forall x :: x in order <==> x in all
    ensures Known(t, Ids(order)) && Order(t, Ids(order)) == order
    ensures forall x :: x in t.ops ==> x in Ids(order)
  {
    var p := Ids(order);
    forall i | 0 <= i < |p|
      ensures p[i] in t.ops && t.ops[p[i]] == order[i]
    {
      assert order[i] in all;
      var j :| 0 <= j < |all| && all[j] == order[i];
    }
    forall x | x in t.ops
      ensures x in p
    {
      var j :| 0 <= j < |all| && t.ids[j] == x;
      assert all[j] in order;
      var i :| 0 <= i < |order| && order[i] == all[j];
      assert p[i] == x;
    }
  }

  lemma TimeReady(t: Instance, required: seq<Operation>, all: seq<Operation>, order: seq<Operation>, i: nat)
    requires InstanceOf(t, required, all) && RespectsTime(order) && i < |order|
    requires forall x :: x in order <==> x in all
    requires AllOk(required) && required <= all
    ensures Ready(t, Ids(order)[..i], Ids(order)[i])
  {
    var p, b := Ids(order), order[i];
    assert b in all;
    var at :| 0 <= at < |all| && all[at] == b;
    assert PredsOf(Preds(t, b.id), required, |required|, b);
    forall x | x in Preds(t, b.id)
      ensures x in p[..i]
    {
      var j :| 0 <= j < |required| && IsPred(required[j], b, x);
      assert required[j] == all[j] && all[j] in order;
      var k :| 0 <= k < |order| && order[k] == required[j];
      assert Precedes(order[k], b);
      assert k != i;
      assert p[..i][k] == x;
    }
  }

  /** A partial linearization that has every operation is a linearization. */
  lemma FullIsLinearization(t: Instance, required: seq<Operation>, included: seq<Operation>, p: seq<int>)
    requires InstanceOf(t, required, required + included) && ValidInstance(t) && Distinct(required + included)
    requires AllOk(required) && NoneOk(included)
    requires Feasible(t, p) && |p| == |required + included|
    ensures LinearizesAs(Order(t, p), required + included)
  {
    hide Explains;
    var all, order := required + included, Order(t, p);
    FullHasAll(t, p);
    OrderIs(t, required, all, p);
    SameElements(order, all);
    forall i, j | 0 <= i < j < |order|
      ensures !Precedes(order[j], order[i])
    {
      if Precedes(order[j], order[i]) {
        PrecederEarlier(t, required, included, p, i, j);
      }
    }
  }

  lemma FullHasAll(t: Instance, p: seq<int>)
    requires ValidInstance(t) && Feasible(t, p) && |p| == |t.ids|
    ensures forall x :: x in t.ids ==> x in p
  {
    ElementsSize(p);
    ElementsSize(t.ids);
    assert Elements(p) <= Elements(t.ids);
    SubsetSize(Elements(p), Elements(t.ids));
    assert forall x :: x in t.ids ==> x in Elements(p);
  }

  lemma OrderIs(t: Instance, required: seq<Operation>, all: seq<Operation>, p: seq<int>)
    requires InstanceOf(t, required, all) && Known(t, p) && NoRepeats(p) && forall x :: x in t.ids ==> x in p
    ensures Distinct(Order(t, p)) && forall x :: x in Order(t, p) <==> x in all
  {
    var order := Order(t, p);
    forall i | 0 <= i < |order|
      ensures order[i] in all && order[i].id == p[i]
    {
      var x := p[i];
      assert x in t.ops && x in t.ids;
      var j :| 0 <= j < |all| && t.ids[j] == x;
    }
    forall j | 0 <= j < |all|
      ensures all[j] in order
    {
      assert t.ids[j] in p;
      var i :| 0 <= i < |p| && p[i] == t.ids[j];
      assert order[i] == all[j];
    }
  }

  /** In a partial linearization what precedes in time comes earlier. */
  lemma PrecederEarlier(t: Instance, required: seq<Operation>, included: seq<Operation>, p: seq<int>, i: nat, j: nat)
    requires InstanceOf(t, required, required + included) && AllOk(required) && NoneOk(included)
    requires Feasible(t, p) && i < |p| && j < |p| && Precedes(Order(t, p)[j], Order(t, p)[i])
    ensures j < i
  {
    hide Explains;
    var all, order, x, y := required + included, Order(t, p), p[i], p[j];
    assert x in t.ids && y in t.ids;
    var a :| 0 <= a < |all| && t.ids[a] == y;
    var b :| 0 <= b < |all| && t.ids[b] == x;
    assert all[a] == order[j] && all[b] == order[i] && a < |required|;
    assert IsPred(required[a], all[b], y);
    assert PredsOf(Preds(t, all[b].id), required, |required|, all[b]);
    assert y in Preds(t, x);
    assert Ready(t, p[..i], p[i]);
    var k :| 0 <= k < i && p[..i][k] == y;
  }

  /** A linearizable set is covered: no linearization is ever missed. */
  lemma LinearizableCovered(t: Instance, required: seq<Operation>, all: seq<Operation>)
    requires InstanceOf(t, required, all) && Distinct(all) && AllOk(required) && required <= all
    requires Linearizable(all)
    ensures Covered(t)
  {
    var order :| LinearizesAs(order, all);
    LinearizationFeasible(t, required, all, order);
  }
}
