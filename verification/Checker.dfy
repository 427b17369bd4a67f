/** The linearizability checker: every choice of pending writes is searched
    until one succeeds, within a budget of search states. */
module Checker {
  import opened Histories
  import opened CheckerSearch
  import opened CheckerInstances
  import opened CheckerLocality

  // ------------------------------------------- choosing among pending writes

  const MAX_OPTIONAL_WRITES := 12
  const DEFAULT_MAX_STATES := 200_000

  function Pow2(k: nat): (n: nat)
    ensures n > 0
  {
    if k == 0 then 1 else 2 * Pow2(k - 1)
  }

  /** The mask shifted right. */
  function Shifted(mask: nat, i: nat): nat {
    if i == 0 then mask else Shifted(mask, i - 1) / 2
  }

  /** The operations whose bit is set in the mask. */
  function Chosen(optional: seq<Operation>, mask: nat): seq<Operation> {
    if optional == [] then []
    else (if mask % 2 == 1 then [optional[0]] else []) + Chosen(optional[1..], mask / 2)
  }

  const MASK_BITS: nat := 64

  /** The mask with the lowest `k` bits set, as far as a mask has bits. */
  function AllBits(k: nat): nat {
    Pow2(if k < MASK_BITS then k else MASK_BITS) - 1
  }

  /** How many masks are tried. */
  function MaskCount(k: nat): nat {
    if k <= MAX_OPTIONAL_WRITES then Pow2(k) else 2
  }

  /** The masks that are tried, in this order. */
  function Masks(k: nat): (masks: seq<nat>)
    ensures |masks| == MaskCount(k)
  {
    if k <= MAX_OPTIONAL_WRITES then seq(Pow2(k), i => i) else [0, AllBits(k)]
  }

  method OptionalSubsets(k: nat) returns (masks: seq<nat>)
    ensures masks == Masks(k)
  {
    if k == 0 {
      return [0];
    }
    if k > MAX_OPTIONAL_WRITES {
      return [0, AllBits(k)];
    }
    masks := [];
    for i := 0 to Pow2(k)
      invariant |masks| == i && forall j :: 0 <= j < i ==> masks[j] == j
    {
      masks := masks + [i];
    }
  }

  method Include(optional: seq<Operation>, mask: nat) returns (included: seq<Operation>)
    ensures included == Chosen(optional, mask)
  {
    included := [];
    var m := mask;
    for i := 0 to |optional|
      invariant m == Shifted(mask, i)
      invariant included + Chosen(optional[i..], m) == Chosen(optional, mask)
    {
      assert optional[i..][1..] == optional[i + 1..];
      if m % 2 == 1 {
        included := included + [optional[i]];
      }
      m := m / 2;
    }
  }

  lemma {:induction false} ChosenSize(optional: seq<Operation>, mask: nat)
    ensures |Chosen(optional, mask)| <= |optional|
  {
    if optional != [] {
      ChosenSize(optional[1..], mask / 2);
    }
  }

  lemma {:induction false} ChosenIsChoice(optional: seq<Operation>, mask: nat)
    ensures IsChoice(Chosen(optional, mask), optional)
  {
    if optional != [] {
      ChosenIsChoice(optional[1..], mask / 2);
      var rest := Chosen(optional[1..], mask / 2);
      if mask % 2 == 1 {
        assert Chosen(optional, mask)[1..] == rest;
      } else {
        assert Chosen(optional, mask) == rest;
      }
    }
  }

  /** The masks reach every choice. */
  lemma {:induction false} EveryChoice(part: seq<Operation>, optional: seq<Operation>) returns (mask: nat)
    requires IsChoice(part, optional)
    ensures mask < Pow2(|optional|) && Chosen(optional, mask) == part
  {
    if optional == [] {
      mask := 0;
    } else if IsChoice(part, optional[1..]) {
      var m := EveryChoice(part, optional[1..]);
      mask := 2 * m;
    } else {
      var m := EveryChoice(part[1..], optional[1..]);
      mask := 2 * m + 1;
      assert part == [part[0]] + part[1..];
    }
  }

  lemma {:induction false} ChosenAll(optional: seq<Operation>)
    ensures Chosen(optional, Pow2(|optional|) - 1) == optional
  {
    if optional != [] {
      ChosenAll(optional[1..]);
      assert (Pow2(|optional|) - 1) / 2 == Pow2(|optional| - 1) - 1;
      assert [optional[0]] + optional[1..] == optional;
    }
  }

  /** What a choice leaves out. */
  lemma {:induction false} LeftOut(part: seq<Operation>, whole: seq<Operation>) returns (rest: seq<Operation>)
    requires IsChoice(part, whole)
    ensures multiset(part) + multiset(rest) == multiset(whole) && forall x :: x in rest ==> x in whole
  {
    if whole == [] {
      rest := [];
    } else {
      assert whole == [whole[0]] + whole[1..];
      if IsChoice(part, whole[1..]) {
        rest := LeftOut(part, whole[1..]);
        rest := rest + [whole[0]];
      } else {
        assert part == [part[0]] + part[1..];
        rest := LeftOut(part[1..], whole[1..]);
      }
    }
  }

  /** Pending writes that are left out may as well come last. */
  lemma WritesLast(order: seq<Operation>, rest: seq<Operation>)
    requires RespectsTime(order) && Explains(order) && forall x :: x in rest ==> IsPendingWrite(x)
    ensures RespectsTime(order + rest) && Explains(order + rest)
  {
    var all := order + rest;
    forall i | 0 <= i < |all|
      ensures Observes(Replay(all[..i]), all[i])
    {
      if i < |order| {
        assert all[..i] == order[..i];
      } else {
        assert all[i] in rest;
      }
    }
    forall i, j | 0 <= i < j < |all|
      ensures !Precedes(all[j], all[i])
    {
      if j >= |order| {
        assert all[j] in rest;
      }
    }
  }

  /** If any choice of pending writes explains a history, all of them do. */
  lemma AllExplainsMost(h: History, included: seq<Operation>)
    requires ValidHistory(h) && IsChoice(included, Pending(h)) && Linearizable(Completed(h) + included)
    ensures Linearizable(Completed(h) + Pending(h))
  {
    hide IsChoice, RespectsTime, Explains, ValidHistory;
    var order :| LinearizesAs(order, Completed(h) + included);
    var rest := LeftOut(included, Pending(h));
    PendingWrites(h);
    WritesLast(order, rest);
    assert LinearizesAs(order + rest, Completed(h) + Pending(h));
  }

  lemma {:induction false} PendingWrites(h: History)
    ensures forall x :: x in Pending(h) ==> IsPendingWrite(x)
  {
    if h != [] {
      PendingWrites(h[..|h| - 1]);
    }
  }

  // ------------------------------------------------------- distinct operations

  lemma {:induction false} ChoiceOf(part: seq<Operation>, whole: seq<Operation>)
    requires IsChoice(part, whole) && Distinct(whole)
    ensures Distinct(part) && forall i :: 0 <= i < |part| ==> part[i] in whole
  {
    if whole != [] {
      if IsChoice(part, whole[1..]) {
        ChoiceOf(part, whole[1..]);
      } else {
        ChoiceOf(part[1..], whole[1..]);
        assert part == [whole[0]] + part[1..];
        assert forall x :: x in whole[1..] ==> x.id != whole[0].id;
      }
    }
  }

  lemma {:induction false} CompletedOf(h: History)
    requires ValidHistory(h)
    ensures Distinct(Completed(h)) && AllOk(Completed(h)) && forall i :: 0 <= i < |Completed(h)| ==>
                                                               Completed(h)[i] in h
  {
    if h != [] {
      var k := |h| - 1;
      CompletedOf(h[..k]);
      assert forall x :: x in h[..k] ==> x.id != h[k].id;
    }
  }

  lemma {:induction false} PendingOf(h: History)
    requires Distinct(h)
    ensures Distinct(Pending(h)) && NoneOk(Pending(h)) && forall i :: 0 <= i < |Pending(h)| ==> Pending(h)[i] in h
  {
    if h != [] {
      var k := |h| - 1;
      PendingOf(h[..k]);
      assert forall x :: x in h[..k] ==> x.id != h[k].id;
    }
  }

  lemma CandidateDistinct(h: History, included: seq<Operation>)
    requires ValidHistory(h) && IsChoice(included, Pending(h))
    ensures Distinct(Completed(h) + included) && AllOk(Completed(h)) && NoneOk(included)
  {
    CompletedOf(h);
    PendingOf(h);
    ChoiceOf(included, Pending(h));
    forall i, j | 0 <= i < |Completed(h)| && 0 <= j < |included|
      ensures Completed(h)[i].id != included[j].id
    {
      var a, b := Completed(h)[i], included[j];
      assert a in h && b in Pending(h);
      var k :| 0 <= k < |Pending(h)| && Pending(h)[k] == b;
      assert b in h && a != b;
    }
    forall j | 0 <= j < |included|
      ensures included[j].outcome != Ok
    {
      assert included[j] in Pending(h);
    }
  }

  // ----------------------------------------------------------------- checking

  method CollectCompleted(h: History) returns (ops: seq<Operation>)
    ensures ops == Completed(h)
  {
    ops := [];
    for i := 0 to |h|
      invariant ops == Completed(h[..i])
    {
      assert h[..i + 1][..i] == h[..i];
      if h[i].outcome == Ok {
        ops := ops + [h[i]];
      }
    }
    assert h[..|h|] == h;
  }

  method CollectPending(h: History) returns (ops: seq<Operation>)
    ensures ops == Pending(h)
  {
    ops := [];
    for i := 0 to |h|
      invariant ops == Pending(h[..i])
    {
      assert h[..i + 1][..i] == h[..i];
      if h[i].outcome == Incomplete && (h[i].kind == Put || h[i].kind == Delete) {
        ops := ops + [h[i]];
      }
    }
    assert h[..|h|] == h;
  }

  /** In the candidate set with `included`, every operation occurs in some
      partial linearization. */
  ghost predicate CoveredWith(h: History, included: seq<Operation>) {
    exists t :: InstanceOf(t, Completed(h), Completed(h) + included) && Covered(t)
  }

  /** The order in which predecessors are listed makes no difference. */
  lemma SameInstance(t: Instance, t': Instance, required: seq<Operation>, all: seq<Operation>, p: seq<int>)
    requires InstanceOf(t, required, all) && InstanceOf(t', required, all) && Feasible(t, p)
    ensures Feasible(t', p)
  {
    hide Explains;
    forall i | 0 <= i < |p|
      ensures p[i] in t'.ops && t'.ops[p[i]] == t.ops[p[i]] && Ready(t', p[..i], p[i])
    {
      var x := p[i];
      assert x in t.ids;
      var j :| 0 <= j < |all| && t.ids[j] == x;
      assert PredsOf(Preds(t, x), required, |required|, all[j]) && PredsOf(Preds(t', x), required, |required|, all[j]);
      assert Ready(t, p[..i], p[i]);
    }
    assert Order(t', p) == Order(t, p);
  }

  lemma CoveredTransfers(t: Instance, t': Instance, required: seq<Operation>, all: seq<Operation>)
    requires InstanceOf(t, required, all) && InstanceOf(t', required, all) && Covered(t)
    ensures Covered(t')
  {
    hide Feasible;
    forall x | x in t'.ops
      ensures Reachable(t', x)
    {
      SameOps(t, t', required, all, x);
      var p :| Feasible(t, p) && x in p;
      SameInstance(t, t', required, all, p);
    }
  }

  lemma SameOps(t: Instance, t': Instance, required: seq<Operation>, all: seq<Operation>, x: int)
    requires InstanceOf(t, required, all) && InstanceOf(t', required, all) && x in t'.ops
    ensures x in t.ops
  {
    assert x in t'.ids;
    var j :| 0 <= j < |all| && t'.ids[j] == x;
  }

  lemma CoveredOrNot(h: History, included: seq<Operation>, t: Instance)
    requires InstanceOf(t, Completed(h), Completed(h) + included)
    ensures CoveredWith(h, included) <==> Covered(t)
  {
    hide InstanceOf, Covered;
    if CoveredWith(h, included) {
      var t' :| InstanceOf(t', Completed(h), Completed(h) + included) && Covered(t');
      CoveredTransfers(t', t, Completed(h), Completed(h) + included);
    }
  }

  /** One choice of the pending writes, searched. */
  /** Every operation follows one that is over before it, or could not be the
      first to observe what it did. */
  ghost predicate NoneFirst(required: seq<Operation>, all: seq<Operation>) {
    forall i :: 0 <= i < |all| ==> Follows(required, all[i]) || !Observes(map[], all[i])
  }

  ghost predicate Follows(required: seq<Operation>, op: Operation) {
    exists j :: 0 <= j < |required| && IsPred(required[j], op, required[j].id)
  }

  lemma NoneFirstIsDeadEnd(t: Instance, required: seq<Operation>, all: seq<Operation>)
    requires InstanceOf(t, required, all)
    ensures NoneFirst(required, all) ==> DeadEnd(t, [])
  {
    if NoneFirst(required, all) {
      forall id | id in t.ids
        ensures !Feasible(t, [] + [id])
      {
        var i :| 0 <= i < |t.ids| && t.ids[i] == id;
        NotFirst(t, required, all, i);
      }
    }
  }

  lemma NotFirst(t: Instance, required: seq<Operation>, all: seq<Operation>, i: nat)
    requires InstanceOf(t, required, all) && i < |all| && (Follows(required, all[i]) || !Observes(map[], all[i]))
    ensures !Feasible(t, [] + [all[i].id])
  {
    hide Feasible;
    var id := all[i].id;
    Nothing(t);
    FeasibleExtends(t, [], id);
    if Follows(required, all[i]) {
      var j :| 0 <= j < |required| && IsPred(required[j], all[i], required[j].id);
      assert PredsOf(Preds(t, id), required, |required|, all[i]);
      assert required[j].id in Preds(t, id);
    }
  }

  /** How many states a search with the pending writes `included` can take. */
  ghost function StatesFor(h: History, included: seq<Operation>): nat {
    var all := Completed(h) + included;
    if NoneFirst(Completed(h), all) then |all| else Bound(|all|)
  }

  /** How many the first `n` searches can take. */
  ghost function TotalStates(h: History, masks: seq<nat>, n: nat): nat
    requires n <= |masks|
  {
    if n == 0 then 0 else TotalStates(h, masks, n - 1) + StatesFor(h, Chosen(Pending(h), masks[n - 1]))
  }

  lemma {:induction false} TotalGrows(h: History, masks: seq<nat>, k: nat, n: nat)
    requires k <= n <= |masks|
    ensures TotalStates(h, masks, k) <= TotalStates(h, masks, n)
  {
    hide StatesFor;
    if k < n {
      TotalGrows(h, masks, k, n - 1);
    }
  }

  method CheckChoice(h: History, completed: seq<Operation>, optional: seq<Operation>, mask: nat, maxStates: int)
    returns (status: Status, linearization: seq<int>, states: nat, ghost included: seq<Operation>)
    requires ValidHistory(h) && completed == Completed(h) && optional == Pending(h) && maxStates > 0
    ensures included == Chosen(optional, mask) && IsChoice(included, optional)
    ensures status == Inconclusive <==> states > maxStates
    ensures states <= Bound(|completed| + |optional|) && states <= StatesFor(h, included)
    ensures status == Valid ==> CoveredWith(h, included)
    ensures status == Valid && |linearization| == |completed + included| ==> Linearizable(completed + included)
    ensures status == Valid && OneGet(completed) ==> Linearizable(completed + included)
    ensures status == Violation ==> !CoveredWith(h, included) && !Linearizable(completed + included)
  {
    hide InstanceOf, Covered, Feasible, CoveredWith, Linearizable, Bound, OneGet, NoneFirst, DeadEnd;
    var chosen := Include(optional, mask);
    included := chosen;
    ChosenIsChoice(optional, mask);
    ChosenSize(optional, mask);
    CandidateDistinct(h, chosen);
    var t := NewInstance(completed, chosen);
    InstanceSize(t, completed, completed + chosen);
    NoneFirstIsDeadEnd(t, completed, completed + chosen);
    CoveredOrNot(h, chosen, t);
    status, linearization, states := Run(t, maxStates);
    BoundGrows(|t.ids|, |completed| + |optional|);
    if status == Valid {
      FullExplains(h, chosen, t, linearization);
      if OneGet(completed) {
        FewGetsExplain(h, chosen, t);
      }
    } else if status == Violation {
      Refuted(t, completed, chosen);
    }
  }

  lemma InstanceSize(t: Instance, required: seq<Operation>, all: seq<Operation>)
    requires InstanceOf(t, required, all)
    ensures |t.ids| == |all|
  {
  }

  /** With at most one read of each key, VALID is right. */
  lemma FewGetsExplain(h: History, included: seq<Operation>, t: Instance)
    requires ValidHistory(h) && IsChoice(included, Pending(h)) && OneGet(Completed(h))
    requires InstanceOf(t, Completed(h), Completed(h) + included) && ValidInstance(t) && Covered(t)
    ensures Linearizable(Completed(h) + included)
  {
    hide InstanceOf, Covered, Linearizable, IsChoice, ValidHistory, ValidInstance, Completed, Pending;
    CandidateDistinct(h, included);
    IncludedWrites(h, included);
    CoveredIsLinearizable(t, Completed(h), included);
  }

  lemma IncludedWrites(h: History, included: seq<Operation>)
    requires ValidHistory(h) && IsChoice(included, Pending(h)) && OneGet(Completed(h))
    ensures (forall x :: x in included ==> x.kind != Get) && OneGet(Completed(h) + included)
  {
    PendingOf(h);
    ChoiceOf(included, Pending(h));
    PendingWrites(h);
    OneGetStill(Completed(h), included);
  }

  lemma OneGetStill(ops: seq<Operation>, writes: seq<Operation>)
    requires OneGet(ops) && forall x :: x in writes ==> x.kind != Get
    ensures OneGet(ops + writes)
  {
    var all := ops + writes;
    forall i | |ops| <= i < |all|
      ensures all[i].kind != Get
    {
      assert all[i] in writes;
    }
  }

  lemma Refuted(t: Instance, completed: seq<Operation>, chosen: seq<Operation>)
    requires InstanceOf(t, completed, completed + chosen) && Distinct(completed + chosen) && AllOk(completed)
    requires !Covered(t)
    ensures !Linearizable(completed + chosen)
  {
    hide Linearizable, Covered, InstanceOf;
    if Linearizable(completed + chosen) {
      LinearizableCovered(t, completed, completed + chosen);
    }
  }

  lemma FullExplains(h: History, included: seq<Operation>, t: Instance, p: seq<int>)
    requires ValidHistory(h) && IsChoice(included, Pending(h))
    requires InstanceOf(t, Completed(h), Completed(h) + included) && ValidInstance(t) && Feasible(t, p)
    ensures |p| == |Completed(h) + included| ==> Linearizable(Completed(h) + included)
  {
    hide Feasible, InstanceOf, LinearizesAs;
    CandidateDistinct(h, included);
    if |p| == |Completed(h) + included| {
      FullIsLinearization(t, Completed(h), included, p);
      FeasibleKnown(t, p);
    }
  }

  /** The search has ruled out the candidate set with `included`. */
  ghost predicate Ruled(h: History, included: seq<Operation>) {
    !CoveredWith(h, included) && !Linearizable(Completed(h) + included)
  }

  function Budget(maxStates: int): (n: nat)
    ensures n > 0
  {
    if maxStates <= 0 then DEFAULT_MAX_STATES else maxStates
  }

  /** The checker. Unless it has used up its budget of states, and with few
      pending writes, it says VALID exactly when some choice of them leaves
      every operation in some partial linearization, which is right if no key
      is read twice. VIOLATION means that no choice and no order explains the
      history, as long as a mask has a bit for every pending write. The budget
      cannot be used up if it covers every search to its end, which is soon
      where no operation can be the first. */
  method Check(h: History, maxStates: int)
    returns (status: Status, linearization: seq<int>, used: nat, ghost included: seq<Operation>)
    requires ValidHistory(h)
    ensures status == Inconclusive ==> used >= Budget(maxStates)
    ensures Budget(maxStates) >= MaskCount(|Pending(h)|) * Bound(|Completed(h)| + |Pending(h)|) ==>
              status != Inconclusive
    ensures Budget(maxStates) > TotalStates(h, Masks(|Pending(h)|), MaskCount(|Pending(h)|)) ==> status != Inconclusive
    ensures status == Valid ==> IsChoice(included, Pending(h)) && CoveredWith(h, included)
    ensures status == Valid ==> exists mask :: mask in Masks(|Pending(h)|) && included == Chosen(Pending(h), mask)
    ensures status == Valid && |linearization| == |Completed(h) + included| ==> Linearizable(Completed(h) + included)
    ensures status == Valid && OneGet(Completed(h)) ==> HistoryLinearizable(h)
    ensures status == Violation && |Pending(h)| <= MAX_OPTIONAL_WRITES ==>
      forall chosen :: IsChoice(chosen, Pending(h)) ==> !CoveredWith(h, chosen)
    ensures status == Violation && |Pending(h)| <= MASK_BITS ==> !HistoryLinearizable(h)
  {
    hide IsChoice, Chosen, CoveredWith, Linearizable, HistoryLinearizable, Bound, Pow2, OneGet, StatesFor, Masks;
    var budget := Budget(maxStates);
    var completed := CollectCompleted(h);
    var optional := CollectPending(h);
    var masks := OptionalSubsets(|optional|);
    var sawInconclusive := false;
    linearization, used, included := [], 0, [];
    ghost var most := Bound(|completed| + |optional|);
    for k := 0 to |masks|
      invariant sawInconclusive ==> used >= budget && budget < |masks| * most
      invariant used <= k * most && used <= TotalStates(h, masks, k)
      invariant sawInconclusive ==> budget <= TotalStates(h, masks, |masks|)
      invariant !sawInconclusive ==> forall j :: 0 <= j < k ==> Ruled(h, Chosen(optional, masks[j]))
    {
      var remaining := budget - used;
      Enough(k, |masks|, most);
      TotalGrows(h, masks, k, |masks|);
      TotalGrows(h, masks, k + 1, |masks|);
      if remaining <= 0 {
        sawInconclusive := true;
        break;
      }
      var order, states;
      status, order, states, included := CheckChoice(h, completed, optional, masks[k], remaining);
      used := used + states;
      if status == Valid {
        if OneGet(completed) {
          assert HistoryLinearizable(h) by {
            Witness(h, included);
          }
        }
        return status, order, used, included;
      }
      if status == Inconclusive {
        sawInconclusive := true;
      }
    }
    if sawInconclusive {
      return Inconclusive, [], used, included;
    }
    LastMask(|optional|);
    if |optional| <= MAX_OPTIONAL_WRITES {
      NoChoiceLeft(h, masks);
    }
    if |optional| <= MASK_BITS {
      assert Ruled(h, Chosen(optional, masks[|masks| - 1]));
      RulesAll(h);
    }
    return Violation, [], used, included;
  }

  lemma LastMask(k: nat)
    ensures k <= MAX_OPTIONAL_WRITES ==> |Masks(k)| == Pow2(k) && forall i :: 0 <= i < |Masks(k)| ==> Masks(k)[i] == i
    ensures Masks(k)[|Masks(k)| - 1] == AllBits(k)
  {
    hide Pow2;
  }

  lemma Enough(k: nat, n: nat, most: nat)
    requires k < n
    ensures (k + 1) * most == k * most + most && (k + 1) * most <= n * most
  {
    assert n * most == (k + 1) * most + (n - k - 1) * most;
  }

  lemma Witness(h: History, included: seq<Operation>)
    requires IsChoice(included, Pending(h)) && Linearizable(Completed(h) + included)
    ensures HistoryLinearizable(h)
  {
  }

  lemma RulesAll(h: History)
    requires ValidHistory(h) && Ruled(h, Chosen(Pending(h), Pow2(|Pending(h)|) - 1))
    ensures !HistoryLinearizable(h)
  {
    hide CoveredWith, Linearizable, IsChoice, Chosen, ValidHistory;
    ChosenAll(Pending(h));
    forall included | IsChoice(included, Pending(h))
      ensures !Linearizable(Completed(h) + included)
    {
      if Linearizable(Completed(h) + included) {
        AllExplainsMost(h, included);
      }
    }
  }

  lemma NoChoiceLeft(h: History, masks: seq<nat>)
    requires |masks| == Pow2(|Pending(h)|) && forall i :: 0 <= i < |masks| ==> masks[i] == i
    requires forall j :: 0 <= j < |masks| ==> Ruled(h, Chosen(Pending(h), masks[j]))
    ensures forall included :: IsChoice(included, Pending(h)) ==> !CoveredWith(h, included)
  {
    hide CoveredWith, Linearizable;
    forall included | IsChoice(included, Pending(h))
      ensures !CoveredWith(h, included)
    {
      var mask := EveryChoice(included, Pending(h));
      assert masks[mask] == mask;
    }
  }
}
