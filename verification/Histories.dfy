/** Recorded client operations, the sequential key-value model that they are
    judged by, and what it means for a history to be linearizable. */
module Histories {

  datatype Kind = Get | Put | Delete | UnknownKind(code: int)

  datatype Outcome = Incomplete | Failed | Ok | UnknownOutcome(code: int)

  /** One call against the public API. `invoke` and `complete` are positions in
      one logical clock; `complete` means something only for a resolved call,
      `found` and `result` only for a successful Get. */
  datatype Operation = Operation(
    id: int,
    kind: Kind,
    key: string,
    value: string,
    invoke: int,
    complete: int,
    outcome: Outcome,
    found: bool,
    result: string,
    hasError: bool)

  type History = seq<Operation>

  // -------------------------------------------------------- validation

  predicate WellFormed(op: Operation) {
    && !op.kind.UnknownKind?
    && match op.outcome
       case Incomplete => !op.hasError
       case Failed => op.complete > op.invoke && op.hasError
       case Ok =>
         && op.complete > op.invoke
         && !op.hasError
         && (op.kind == Get && !op.found ==> op.result == "")
         && (op.kind != Get ==> !op.found)
       case UnknownOutcome(_) => false
  }

  predicate Distinct(h: seq<Operation>) {
    forall i, j :: 0 <= i < j < |h| ==> h[i].id != h[j].id
  }

  predicate ValidHistory(h: History) {
    Distinct(h) && forall i :: 0 <= i < |h| ==> WellFormed(h[i])
  }

  method Validate(h: History) returns (ok: bool)
    ensures ok <==> ValidHistory(h)
  {
    var seen: set<int> := {};
    for i := 0 to |h|
      invariant forall x :: x in seen <==> exists j :: 0 <= j < i && h[j].id == x
      invariant Distinct(h[..i]) && forall j :: 0 <= j < i ==> WellFormed(h[j])
    {
      var op := h[i];
      if op.id in seen {
        return false;
      }
      seen := seen + {op.id};
      assert h[i].id == op.id;
      if op.kind.UnknownKind? {
        return false;
      }
      match op.outcome {
        case Incomplete =>
          if op.hasError {
            return false;
          }
        case Failed =>
          if op.complete <= op.invoke || !op.hasError {
            return false;
          }
        case Ok =>
          if op.complete <= op.invoke || op.hasError {
            return false;
          }
          if op.kind == Get && !op.found && op.result != "" {
            return false;
          }
          if op.kind != Get && op.found {
            return false;
          }
        case UnknownOutcome(_) =>
          return false;
      }
    }
    assert h[..|h|] == h;
    return true;
  }

  // ------------------------------------------------ the sequential model

  type State = map<string, string>

  /** The state after `op`. */
  function Effect(s: State, op: Operation): State {
    match op.kind
    case Put => s[op.key := op.value]
    case Delete => s - {op.key}
    case _ => s
  }

  /** `op` observed what the state `s` holds. */
  predicate Observes(s: State, op: Operation) {
    op.kind == Get ==>
      && (op.found <==> op.key in s)
      && (op.found ==> s[op.key] == op.result)
  }

  function Replay(order: seq<Operation>): State {
    if order == [] then map[] else Effect(Replay(order[..|order| - 1]), order[|order| - 1])
  }

  /** The reference model: a map that is updated in place. */
  class Model {
    var state: State

    constructor ()
      ensures state == map[]
    {
      state := map[];
    }

    method Clone() returns (copy: Model)
      ensures fresh(copy) && copy.state == state
    {
      copy := new Model();
      copy.state := state;
    }

    method Apply(op: Operation) returns (found: bool, value: string)
      modifies this
      ensures state == Effect(old(state), op)
      ensures op.kind == Get ==> (found <==> op.key in old(state)) && (found ==> value == old(state)[op.key])
    {
      match op.kind {
        case Put =>
          state := state[op.key := op.value];
          return false, "";
        case Delete =>
          state := state - {op.key};
          return false, "";
        case Get =>
          if op.key in state {
            return true, state[op.key];
          }
          return false, "";
        case UnknownKind(_) =>
          return false, "";
      }
    }
  }

  // ------------------------------------------------------ linearizability

  /** Operation `a` was over before `b` began. */
  predicate Precedes(a: Operation, b: Operation) {
    a.outcome == Ok && a.complete < b.invoke
  }

  /** Every operation of the order observes the state that the operations
      before it lead to. */
  ghost predicate Explains(order: seq<Operation>) {
    forall i :: 0 <= i < |order| ==> Observes(Replay(order[..i]), order[i])
  }

  /** No operation comes after one that it precedes in real time. */
  predicate RespectsTime(order: seq<Operation>) {
    forall i, j :: 0 <= i < j < |order| ==> !Precedes(order[j], order[i])
  }

  /** The order has the same operations as `ops`, each as often. */
  predicate IsOrderOf(order: seq<Operation>, ops: seq<Operation>) {
    multiset(order) == multiset(ops)
  }

  ghost predicate LinearizesAs(order: seq<Operation>, ops: seq<Operation>) {
    IsOrderOf(order, ops) && RespectsTime(order) && Explains(order)
  }

  ghost predicate Linearizable(ops: seq<Operation>) {
    exists order :: LinearizesAs(order, ops)
  }

  predicate IsPendingWrite(op: Operation) {
    op.outcome == Incomplete && (op.kind == Put || op.kind == Delete)
  }

  /** The successful operations, in the order recorded. */
  function Completed(h: History): seq<Operation> {
    if h == [] then []
    else Completed(h[..|h| - 1]) + (if h[|h| - 1].outcome == Ok then [h[|h| - 1]] else [])
  }

  /** The writes of unknown fate. */
  function Pending(h: History): seq<Operation> {
    if h == [] then []
    else Pending(h[..|h| - 1]) + (if IsPendingWrite(h[|h| - 1]) then [h[|h| - 1]] else [])
  }

  /** `part` is `whole` with some elements left out. */
  ghost predicate IsChoice(part: seq<Operation>, whole: seq<Operation>) {
    if whole == [] then part == []
    else
      || IsChoice(part, whole[1..])
      || (part != [] && part[0] == whole[0] && IsChoice(part[1..], whole[1..]))
  }

  /** Herlihy and Wing: some of the pending writes took effect, the others
      never did, and the operations that happened have a sequential order. */
  ghost predicate HistoryLinearizable(h: History) {
    exists included :: IsChoice(included, Pending(h)) && Linearizable(Completed(h) + included)
  }
}
