/** Where VALID says too little: the search counts an operation as placed once
    it has been placed anywhere, so partial linearizations that contradict each
    other can add up to a verdict. */
module CheckerLimits {
  import opened Histories
  import opened CheckerSearch
  import opened CheckerInstances
  import opened CheckerLocality
  import opened Checker

  function PutOne(): Operation { Operation(1, Put, "x", "1", 1, 3, Ok, false, "", false) }

  function PutTwo(): Operation { Operation(2, Put, "x", "2", 2, 4, Ok, false, "", false) }

  function GetOne(): Operation { Operation(3, Get, "x", "", 5, 7, Ok, true, "1", false) }

  function GetTwo(): Operation { Operation(4, Get, "x", "", 6, 8, Ok, true, "2", false) }

  /** Two overlapping puts, then two overlapping gets that disagree. */
  function Contradiction(): History {
    [PutOne(), PutTwo(), GetOne(), GetTwo()]
  }

  lemma {:induction false} AllCompleted(h: History)
    requires forall i :: 0 <= i < |h| ==> h[i].outcome == Ok
    ensures Completed(h) == h && Pending(h) == []
  {
    if h != [] {
      AllCompleted(h[..|h| - 1]);
    }
  }

  /** Two gets in a row see the same state. */
  lemma GetsAgree(order: seq<Operation>)
    requires |order| == 4 && Explains(order)
    requires order[2].kind == order[3].kind == Get && order[2].key == order[3].key && order[2].found && order[3].found
    ensures order[2].result == order[3].result
  {
    var s := Replay(order[..2]);
    assert order[..3][..2] == order[..2];
    assert Replay(order[..3]) == s;
    assert Observes(Replay(order[..2]), order[2]) && Observes(Replay(order[..3]), order[3]);
  }

  /** Both gets follow both puts, so they would have to agree. */
  lemma NoOrder(order: seq<Operation>)
    ensures !LinearizesAs(order, Contradiction())
  {
    hide Explains, RespectsTime, Contradiction, IsOrderOf;
    if LinearizesAs(order, Contradiction()) {
      FourDistinct();
      OrderDistinct(order, Contradiction());
      PutsFirst(order);
      GetsAgree(order);
    }
  }

  lemma FourDistinct()
    ensures Distinct(Contradiction()) && |Contradiction()| == 4
  {
  }

  lemma PutsFirst(order: seq<Operation>)
    requires |order| == 4 && Distinct(order) && RespectsTime(order) && forall i :: 0 <= i < 4 ==>
                                                                         order[i] in Contradiction()
    ensures order[2].kind == order[3].kind == Get && order[2].key == order[3].key && order[2].found && order[3].found
    ensures order[2].result != order[3].result
  {
    forall i, j | 0 <= i < j < 4 && order[j].kind == Put
      ensures order[i].kind == Put
    {
      assert !Precedes(order[j], order[i]);
    }
    assert order[0].id != order[1].id && order[0].id != order[2].id && order[1].id != order[2].id;
    assert order[1].id != order[3].id && order[2].id != order[3].id && order[0].id != order[3].id;
  }

  function Search4(): Instance {
    Instance(map[1 := PutOne(), 2 := PutTwo(), 3 := GetOne(), 4 := GetTwo()], [1, 2, 3, 4],
             map[3 := [1, 2], 4 := [1, 2]])
  }

  lemma Search4Is()
    ensures InstanceOf(Search4(), Contradiction(), Contradiction())
  {
    var h, t := Contradiction(), Search4();
    forall i | 0 <= i < 4
      ensures PredsOf(Preds(t, h[i].id), h, 4, h[i])
    {
      forall x
        ensures x in Preds(t, h[i].id) <==> exists j :: 0 <= j < 4 && IsPred(h[j], h[i], x)
      {
        if x in Preds(t, h[i].id) {
          assert IsPred(h[x - 1], h[i], x);
        }
      }
    }
  }

  /** Each order of the puts explains one of the gets. */
  lemma PrefixFeasible(first: int, second: int, get: int)
    requires (first, second, get) == (1, 2, 4) || (first, second, get) == (2, 1, 3)
    ensures Feasible(Search4(), [first, second, get])
  {
    hide Feasible, Order;
    var t := Search4();
    PutsFeasible(first, second);
    FeasibleStep(t, [first, second], get);
    assert [first, second] + [get] == [first, second, get];
  }

  lemma PutsFeasible(first: int, second: int)
    requires (first, second) == (1, 2) || (first, second) == (2, 1)
    ensures var t := Search4(); Feasible(t, [first, second]) && Known(t, [first, second])
    ensures Replay(Order(Search4(), [first, second])) == map["x" := Search4().ops[second].value]
  {
    hide Feasible, Order;
    var t := Search4();
    Nothing(t);
    FeasibleStep(t, [], first);
    assert [] + [first] == [first];
    FeasibleStep(t, [first], second);
    assert [first] + [second] == [first, second];
  }

  lemma FeasibleStep(t: Instance, p: seq<int>, id: int)
    requires Feasible(t, p) && Known(t, p) && Extends(t, p, id)
    ensures Feasible(t, p + [id]) && Known(t, p + [id])
    ensures Replay(Order(t, p + [id])) == Effect(Replay(Order(t, p)), t.ops[id])
  {
    hide Feasible, Order;
    FeasibleExtends(t, p, id);
    ReplayStep(t, p, id);
  }

  lemma Search4Covered()
    ensures Covered(Search4())
  {
    hide Feasible;
    PrefixFeasible(1, 2, 4);
    PrefixFeasible(2, 1, 3);
    var a, b := [1, 2, 4], [2, 1, 3];
    assert 1 in a && 2 in a && 4 in a && 3 in b;
  }

  lemma ContradictionIs()
    ensures ValidHistory(Contradiction()) && Completed(Contradiction()) == Contradiction()
    ensures Pending(Contradiction()) == []
  {
    hide Completed, Pending;
    AllCompleted(Contradiction());
  }

  /** The history is valid and covered, and it is not linearizable. */
  lemma ValidIsNotEnough()
    ensures ValidHistory(Contradiction())
    ensures CoveredWith(Contradiction(), Pending(Contradiction()))
    ensures !HistoryLinearizable(Contradiction())
  {
    hide Contradiction, Search4, Completed, Pending, ValidHistory, LinearizesAs, InstanceOf, Covered;
    var h := Contradiction();
    ContradictionIs();
    assert h + [] == h;
    Search4Is();
    Search4Covered();
    forall included, order | IsChoice(included, Pending(h))
      ensures !LinearizesAs(order, Completed(h) + included)
    {
      NoOrder(order);
    }
  }

  /** The checker, with its default budget, calls it VALID. */
  method SaysValid() returns (status: Status)
    ensures status == CheckerInstances.Valid && !HistoryLinearizable(Contradiction())
  {
    hide Contradiction, Completed, Pending, ValidHistory, CoveredWith, HistoryLinearizable, IsChoice;
    ValidIsNotEnough();
    ContradictionIs();
    FourDistinct();
    SmallBound();
    ChosenIsChoice(Pending(Contradiction()), 0);
    ChosenNone(Pending(Contradiction()));
    var s, linearization, used, included := Check(Contradiction(), 0);
    return s;
  }

  lemma SmallBound()
    ensures MaskCount(0) * Bound(4) == 64
  {
    assert Bound(1) == 1 && Bound(2) == 4 && Bound(3) == 15;
  }

  // ------------------------------------------------ how many reads of a key

  /** How many reads of the key there are. */
  function GetsAt(ops: seq<Operation>, key: string): nat {
    if ops == [] then 0
    else
      var k := |ops| - 1;
      GetsAt(ops[..k], key) + if ops[k].kind == Get && ops[k].key == key then 1 else 0
  }

  ghost predicate AtMostGets(ops: seq<Operation>, n: nat) {
    forall key :: GetsAt(ops, key) <= n
  }

  lemma {:induction false} GetsBefore(ops: seq<Operation>, i: nat)
    requires i < |ops| && ops[i].kind == Get
    ensures GetsAt(ops, ops[i].key) >= 1
  {
    if i < |ops| - 1 {
      GetsBefore(ops[..|ops| - 1], i);
    }
  }

  lemma {:induction false} AtMostOne(ops: seq<Operation>)
    requires AtMostGets(ops, 1)
    ensures OneGet(ops)
  {
    if ops != [] {
      var k := |ops| - 1;
      forall key
        ensures GetsAt(ops[..k], key) <= 1
      {
        assert GetsAt(ops, key) <= 1;
      }
      AtMostOne(ops[..k]);
      forall i | 0 <= i < k && ops[i].kind == ops[k].kind == Get
        ensures ops[i].key != ops[k].key
      {
        GetsBefore(ops[..k], i);
        assert GetsAt(ops, ops[i].key) <= 1;
      }
    }
  }

  lemma TwoGets()
    ensures AtMostGets(Contradiction(), 2)
  {
    var h := Contradiction();
    forall key
      ensures GetsAt(h, key) <= 2
    {
      var one, two, three := h[..1], h[..2], h[..3];
      assert three[..2] == two && two[..1] == one && one[..0] == [];
      assert GetsAt(one, key) == 0 && GetsAt(two, key) == 0;
    }
  }

  lemma InstanceIsValid(t: Instance, required: seq<Operation>, all: seq<Operation>)
    requires InstanceOf(t, required, all) && Distinct(all)
    ensures ValidInstance(t)
  {
    forall x | x in t.ids
      ensures x in t.ops
    {
      var i :| 0 <= i < |t.ids| && t.ids[i] == x;
      assert all[i].id in t.ops;
    }
  }

  /** Whatever VALID is said of is linearizable. */
  ghost predicate Sound(h: History) {
    forall included :: IsChoice(included, Pending(h)) && CoveredWith(h, included) ==> HistoryLinearizable(h)
  }

  lemma FewGetsSound(h: History)
    requires ValidHistory(h) && AtMostGets(Completed(h), 1)
    ensures Sound(h)
  {
    hide ValidHistory, IsChoice, Completed, Pending, InstanceOf, Covered, Linearizable, AtMostGets, OneGet;
    AtMostOne(Completed(h));
    forall included | IsChoice(included, Pending(h)) && CoveredWith(h, included)
      ensures HistoryLinearizable(h)
    {
      CandidateDistinct(h, included);
      var t :| InstanceOf(t, Completed(h), Completed(h) + included) && Covered(t);
      InstanceIsValid(t, Completed(h), Completed(h) + included);
      FewGetsExplain(h, included, t);
    }
  }

  /** VALID is right for all histories with at most `n` completed reads of any
      key exactly when `n` is at most one. */
  lemma SoundExactly(n: nat)
    ensures (forall h :: ValidHistory(h) && AtMostGets(Completed(h), n) ==> Sound(h)) <==> n <= 1
  {
    hide ValidHistory, Completed, Pending, CoveredWith, HistoryLinearizable, IsChoice, Contradiction;
    if n <= 1 {
      forall h | ValidHistory(h) && AtMostGets(Completed(h), n)
        ensures Sound(h)
      {
        FewGetsSound(h);
      }
    } else {
      var h := Contradiction();
      ValidIsNotEnough();
      ContradictionIs();
      TwoGets();
      assert AtMostGets(h, n);
      ChosenIsChoice([], 0);
      assert IsChoice([], []);
    }
  }

  // ----------------------------------------------- more writes than mask bits

  /** A pending write that nobody sees and that comes after everything. */
  function Noise(i: int): Operation { Operation(i, Put, "y", "", 4, 0, Incomplete, false, "", false) }

  function PendingPut(i: int): Operation { Operation(i, Put, "x", "1", 1, 0, Incomplete, false, "", false) }

  function Seen(i: int): Operation { Operation(i, Get, "x", "", 2, 3, Ok, true, "1", false) }

  /** `k` pending writes, of which a get has seen the last. */
  function SeenLast(k: nat): History
    requires k > 0
  {
    seq(k - 1, i requires 0 <= i < k - 1 => Noise(i)) + [PendingPut(k - 1)] + [Seen(k)]
  }

  lemma {:induction false} AllPending(h: History)
    requires forall i :: 0 <= i < |h| ==> IsPendingWrite(h[i])
    ensures Pending(h) == h && Completed(h) == []
  {
    if h != [] {
      AllPending(h[..|h| - 1]);
      assert h == h[..|h| - 1] + [h[|h| - 1]];
    }
  }

  lemma SeenLastParts(k: nat)
    requires k > 0
    ensures var h := SeenLast(k); |h| == k + 1 && ValidHistory(h) && Pending(h) == h[..k] && Completed(h) == [Seen(k)]
  {
    var h := SeenLast(k);
    assert h[..k][..k - 1] == h[..k - 1];
    AllPending(h[..k]);
    assert h[..|h| - 1] == h[..k] && h[k] == Seen(k);
  }

  /** The put and then the get that sees it. */
  lemma PutThenGet(k: nat)
    requires k > 0
    ensures LinearizesAs([PendingPut(k - 1), Seen(k)], [Seen(k)] + [PendingPut(k - 1)])
  {
    var order := [PendingPut(k - 1), Seen(k)];
    assert order[..0] == [] && order[..1] == [PendingPut(k - 1)] && [PendingPut(k - 1)][..0] == [];
    forall i, j | 0 <= i < j < |order|
      ensures !Precedes(order[j], order[i])
    {
      assert i == 0 && j == 1;
    }
  }

  lemma {:induction false} LastIsChoice(whole: seq<Operation>)
    requires whole != []
    ensures IsChoice([whole[|whole| - 1]], whole)
  {
    if |whole| > 1 {
      LastIsChoice(whole[1..]);
    } else {
      assert [whole[0]][1..] == [] && whole[1..] == [];
    }
  }

  /** With the put, and without the other writes, the get is explained. */
  lemma SeenLastLinearizable(k: nat)
    requires k > 0
    ensures HistoryLinearizable(SeenLast(k))
  {
    hide Completed, Pending, ValidHistory, IsChoice, LinearizesAs;
    var h := SeenLast(k);
    SeenLastParts(k);
    assert Pending(h)[k - 1] == PendingPut(k - 1);
    PutThenGet(k);
    LastIsChoice(Pending(h));
    assert Linearizable(Completed(h) + [PendingPut(k - 1)]);
  }

  lemma {:induction false} NeverWritten(order: seq<Operation>)
    requires forall i :: 0 <= i < |order| ==> order[i].kind == Put ==> order[i].key != "x"
    ensures "x" !in Replay(order)
  {
    if order != [] {
      NeverWritten(order[..|order| - 1]);
    }
  }

  ghost predicate OnlyNoise(included: seq<Operation>, k: nat) {
    forall i :: 0 <= i < |included| ==> included[i].id != k && included[i] == Noise(included[i].id)
  }

  /** A choice without the put leaves the get unexplained. */
  lemma NotCoveredWithout(k: nat, included: seq<Operation>)
    requires k > 0 && OnlyNoise(included, k)
    ensures !CoveredWith(SeenLast(k), included)
  {
    hide Completed, PredsOf, Feasible;
    var h := SeenLast(k);
    SeenLastParts(k);
    forall t | InstanceOf(t, Completed(h), Completed(h) + included)
      ensures !Covered(t)
    {
      assert (Completed(h) + included)[0] == Seen(k);
      forall p | Feasible(t, p)
        ensures k !in p
      {
        Unexplained(t, k, included, p);
      }
    }
  }

  lemma Unexplained(t: Instance, k: nat, included: seq<Operation>, p: seq<int>)
    requires InstanceOf(t, [Seen(k)], [Seen(k)] + included) && OnlyNoise(included, k) && Feasible(t, p)
    ensures k !in p
  {
    hide PredsOf, Ready, NoRepeats;
    var all, order := [Seen(k)] + included, Order(t, p);
    forall i | 0 <= i < |order|
      ensures order[i].kind == Put ==> order[i].key != "x"
    {
      assert p[i] in t.ids;
      var j :| 0 <= j < |all| && t.ids[j] == p[i];
      assert order[i] == all[j];
    }
    forall i | 0 <= i < |p|
      ensures p[i] != k
    {
      NeverWritten(order[..i]);
      assert Observes(Replay(order[..i]), order[i]);
      assert all[0] == Seen(k) && t.ops[k] == Seen(k);
    }
  }

  /** The get comes before all of those writes, and cannot come first: there is
      nothing that the search can place. */
  lemma NothingFirst(k: nat, included: seq<Operation>)
    requires k > 0 && OnlyNoise(included, k)
    ensures StatesFor(SeenLast(k), included) == 1 + |included|
  {
    hide Completed, Pending, ValidHistory, Bound;
    SeenLastParts(k);
    var required, all := [Seen(k)], [Seen(k)] + included;
    forall i | 0 <= i < |all|
      ensures Follows(required, all[i]) || !Observes(map[], all[i])
    {
      if i > 0 {
        assert all[i] == included[i - 1];
        assert IsPred(required[0], all[i], required[0].id);
      }
    }
    assert NoneFirst(required, all);
  }

  /** A mask of `n` bits chooses among the first `n`. */
  lemma {:induction false} ChosenAmong(optional: seq<Operation>, mask: nat, n: nat)
    requires mask < Pow2(n) && n <= |optional|
    ensures |Chosen(optional, mask)| <= n && forall x :: x in Chosen(optional, mask) ==> x in optional[..n]
  {
    if optional != [] {
      if n == 0 {
        ChosenNone(optional);
      } else {
        ChosenAmong(optional[1..], mask / 2, n - 1);
        assert optional[..n] == [optional[0]] + optional[1..][..n - 1];
      }
    }
  }

  lemma {:induction false} ChosenNone(optional: seq<Operation>)
    ensures Chosen(optional, 0) == []
  {
    if optional != [] {
      ChosenNone(optional[1..]);
    }
  }

  /** Neither of the two masks that are tried has the put among its writes. */
  lemma MaskedNoise(k: nat, mask: nat)
    requires k > MASK_BITS && mask in Masks(k)
    ensures var included := Chosen(Pending(SeenLast(k)), mask); OnlyNoise(included, k) && |included| <= MASK_BITS
  {
    hide Completed, Pending, ValidHistory, Chosen, Pow2;
    var h := SeenLast(k);
    SeenLastParts(k);
    if mask == 0 {
      ChosenNone(Pending(h));
    } else {
      ChosenAmong(Pending(h), mask, MASK_BITS);
      var chosen := Chosen(Pending(h), mask);
      forall i | 0 <= i < |chosen|
        ensures chosen[i].id != k && chosen[i] == Noise(chosen[i].id)
      {
        assert chosen[i] in Pending(h)[..MASK_BITS];
        var j :| 0 <= j < MASK_BITS && Pending(h)[..MASK_BITS][j] == chosen[i];
        assert chosen[i] == h[j] == Noise(j);
      }
    }
  }

  /** With more pending writes than a mask has bits, VIOLATION is no longer a
      proof: neither of the two masks that are tried covers this history, and
      it is linearizable. */
  lemma TooManyPending(k: nat)
    requires k > MASK_BITS
    ensures var h := SeenLast(k);
            && ValidHistory(h) && |Pending(h)| == k
            && HistoryLinearizable(h)
            && (forall mask :: mask in Masks(k) ==> !CoveredWith(h, Chosen(Pending(h), mask)))
            && TotalStates(h, Masks(k), MaskCount(k)) <= 2 * (1 + MASK_BITS)
  {
    hide Completed, Pending, ValidHistory, HistoryLinearizable, CoveredWith, Chosen, Pow2, OnlyNoise, StatesFor;
    var h := SeenLast(k);
    SeenLastParts(k);
    SeenLastLinearizable(k);
    forall mask | mask in Masks(k)
      ensures !CoveredWith(h, Chosen(Pending(h), mask)) && StatesFor(h, Chosen(Pending(h), mask)) <= 1 + MASK_BITS
    {
      MaskedNoise(k, mask);
      NotCoveredWithout(k, Chosen(Pending(h), mask));
      NothingFirst(k, Chosen(Pending(h), mask));
    }
    assert Masks(k)[0] in Masks(k) && Masks(k)[1] in Masks(k);
    assert TotalStates(h, Masks(k), 1) == StatesFor(h, Chosen(Pending(h), Masks(k)[0]));
  }

  /** The checker, with its default budget, calls it a VIOLATION. */
  method SaysViolation(k: nat) returns (status: Status)
    requires k > MASK_BITS
    ensures status == Violation && ValidHistory(SeenLast(k)) && HistoryLinearizable(SeenLast(k))
  {
    hide SeenLast, Completed, Pending, ValidHistory, CoveredWith, HistoryLinearizable, IsChoice, TotalStates, Masks,
         Chosen;
    TooManyPending(k);
    var s, linearization, used, included := Check(SeenLast(k), 0);
    return s;
  }

  // ----------------------------------------------------- when VIOLATION is right

  lemma {:induction false} PredIds(required: seq<Operation>, k: nat, b: Operation) returns (preds: seq<int>)
    requires k <= |required|
    ensures PredsOf(preds, required, k, b)
  {
    if k == 0 {
      preds := [];
    } else {
      var before := PredIds(required, k - 1, b);
      var a := required[k - 1];
      preds := if IsPred(a, b, a.id) then before + [a.id] else before;
      forall x
        ensures x in preds <==> exists j :: 0 <= j < k && IsPred(required[j], b, x)
      {
        if IsPred(a, b, x) {
          assert IsPred(required[k - 1], b, x);
        }
      }
    }
  }

  /** There is a search instance for every candidate set. */
  lemma {:induction false} SomeInstance(required: seq<Operation>, all: seq<Operation>) returns (t: Instance)
    requires Distinct(all)
    ensures InstanceOf(t, required, all)
    decreases |all|
  {
    hide PredsOf;
    if all == [] {
      t := Instance(map[], [], map[]);
    } else {
      var k := |all| - 1;
      var op := all[k];
      var before := SomeInstance(required, all[..k]);
      var preds := PredIds(required, |required|, op);
      t := Instance(before.ops[op.id := op], before.ids + [op.id], before.preds[op.id := preds]);
      forall i | 0 <= i < |all|
        ensures t.ids[i] == all[i].id && all[i].id in t.ops && t.ops[all[i].id] == all[i]
        ensures PredsOf(Preds(t, all[i].id), required, |required|, all[i])
      {
        if i < k {
          assert all[..k][i] == all[i];
          assert Preds(t, all[i].id) == Preds(before, all[i].id);
        }
      }
    }
  }

  lemma LinearizableIsCovered(h: History)
    requires ValidHistory(h) && HistoryLinearizable(h)
    ensures CoveredWith(h, Pending(h))
  {
    hide ValidHistory, IsChoice, Completed, Pending, InstanceOf, Covered, Linearizable;
    var included :| IsChoice(included, Pending(h)) && Linearizable(Completed(h) + included);
    AllExplainsMost(h, included);
    WholeIsChoice(Pending(h));
    CandidateDistinct(h, Pending(h));
    var t := SomeInstance(Completed(h), Completed(h) + Pending(h));
    LinearizableCovered(t, Completed(h), Completed(h) + Pending(h));
  }

  lemma {:induction false} WholeIsChoice(whole: seq<Operation>)
    ensures IsChoice(whole, whole)
  {
    if whole != [] {
      WholeIsChoice(whole[1..]);
    }
  }

  /** What VIOLATION says: none of the choices that are tried is covered. */
  ghost predicate Refutes(h: History) {
    forall mask :: mask in Masks(|Pending(h)|) ==> !CoveredWith(h, Chosen(Pending(h), mask))
  }

  /** VIOLATION is right for all histories with `k` pending writes exactly when
      a mask has a bit for each of them. */
  lemma RefutesExactly(k: nat)
    ensures (forall h :: ValidHistory(h) && |Pending(h)| == k && Refutes(h) ==> !HistoryLinearizable(h)) <==>
              k <= MASK_BITS
  {
    hide Completed, Pending, ValidHistory, HistoryLinearizable, CoveredWith, Chosen, Pow2, Masks;
    if k <= MASK_BITS {
      forall h | ValidHistory(h) && |Pending(h)| == k && Refutes(h)
        ensures !HistoryLinearizable(h)
      {
        LastMask(k);
        assert AllBits(k) in Masks(k);
        ChosenAll(Pending(h));
        if HistoryLinearizable(h) {
          LinearizableIsCovered(h);
        }
      }
    } else {
      TooManyPending(k);
    }
  }
}
