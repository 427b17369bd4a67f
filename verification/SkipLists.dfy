/** The skip list: a sorted list of nodes in which every node also takes part
    in as many express lanes as its height says. */
module SkipLists {
  import opened ByteStrings
  import opened Cells

  const MAX_LEVEL: nat := 16

  class Node {
    const key: Bytes
    const height: nat
    var value: Bytes
    var deleted: bool
    var forward: seq<Node?>

    constructor (key: Bytes, value: Bytes, deleted: bool, height: nat)
      ensures this.key == key && this.value == value && this.deleted == deleted && this.height == height
      ensures |forward| == height && forall l :: 0 <= l < height ==> forward[l] == null
    {
      this.key, this.value, this.deleted, this.height := key, value, deleted, height;
      forward := seq(height, _ => null);
    }
  }

  // ------------------------------------------------------------------- lanes

  /** The next position after `i` whose node reaches lane `l`. */
  ghost function Next(nodes: seq<Node>, i: nat, l: nat): (q: nat)
    requires i < |nodes|
    ensures i < q <= |nodes|
    ensures forall r :: i < r < q ==> nodes[r].height <= l
    ensures q < |nodes| ==> nodes[q].height > l
    decreases |nodes| - i
  {
    if i + 1 == |nodes| || nodes[i + 1].height > l then i + 1 else Next(nodes, i + 1, l)
  }

  lemma NextExact(nodes: seq<Node>, i: nat, l: nat, q: nat)
    requires i < q <= |nodes| && (forall r :: i < r < q ==> nodes[r].height <= l)
    requires (q < |nodes| ==> nodes[q].height > l)
    ensures Next(nodes, i, l) == q
  {
  }

  /** `i` is the last node up to `pos` that reaches lane `l`. */
  ghost predicate LastUpTo(nodes: seq<Node>, pos: nat, l: nat, i: nat) {
    i <= pos < |nodes| && nodes[i].height > l && Next(nodes, i, l) > pos
  }

  lemma LastUnique(nodes: seq<Node>, pos: nat, l: nat, i: nat, j: nat)
    requires LastUpTo(nodes, pos, l, i) && j <= pos && nodes[j].height > l
    ensures Next(nodes, j, l) > pos <==> i == j
  {
    assert j < i ==> Next(nodes, j, l) <= i;
  }

  /** `nodes` with `node` put after position `pos`. */
  ghost function Inserted(nodes: seq<Node>, pos: nat, node: Node): seq<Node>
    requires pos < |nodes|
  {
    nodes[..pos + 1] + [node] + nodes[pos + 1..]
  }

  /** Where the node at `i` is after the insertion. */
  ghost function Moved(pos: nat, i: nat): nat {
    if i <= pos then i else i + 1
  }

  lemma MovedNext(nodes: seq<Node>, pos: nat, node: Node, i: nat, l: nat)
    requires pos < |nodes| && i < |nodes|
    ensures Next(Inserted(nodes, pos, node), Moved(pos, i), l)
         == if i <= pos && Next(nodes, i, l) > pos && l < node.height then pos + 1 else Moved(pos, Next(nodes, i, l))
  {
    hide Next;
    var after, q := Inserted(nodes, pos, node), Next(nodes, i, l);
    assert forall k :: 0 <= k < |nodes| ==> after[Moved(pos, k)] == nodes[k];
    assert after[pos + 1] == node;
    var q' := if i <= pos && q > pos && l < node.height then pos + 1 else Moved(pos, q);
    forall r | Moved(pos, i) < r < q'
      ensures after[r].height <= l
    {
      if r != pos + 1 {
        var k := if r <= pos then r else r - 1;
        assert after[r] == nodes[k];
      }
    }
    assert q' < |after| && q' != pos + 1 ==> after[q'] == nodes[q];
    NextExact(after, Moved(pos, i), l, q');
  }

  lemma NewNext(nodes: seq<Node>, pos: nat, node: Node, i: nat, l: nat)
    requires LastUpTo(nodes, pos, l, i)
    ensures Next(Inserted(nodes, pos, node), pos + 1, l) == Moved(pos, Next(nodes, i, l))
  {
    var after, q := Inserted(nodes, pos, node), Next(nodes, i, l);
    forall r | pos + 1 < r < q + 1
      ensures after[r].height <= l
    {
      assert after[r] == nodes[r - 1];
    }
    assert q < |nodes| ==> after[q + 1] == nodes[q];
    NextExact(after, pos + 1, l, q + 1);
  }

  // ---------------------------------------------------------------- the list

  /** The header comes first and reaches every lane; the others are in key
      order and reach at most `level` lanes. */
  ghost predicate Shaped(nodes: seq<Node>, header: Node, level: nat) {
    && |nodes| > 0
    && nodes[0] == header
    && header.height == MAX_LEVEL
    && 1 <= level <= MAX_LEVEL
    && (forall i, j :: 0 <= i < j < |nodes| ==> nodes[i] != nodes[j])
    && (forall i :: 0 < i < |nodes| ==> 1 <= nodes[i].height <= level)
    && (forall i, j :: 0 < i < j < |nodes| ==> Less(nodes[i].key, nodes[j].key))
  }

  lemma AllDistinct(nodes: seq<Node>, header: Node, level: nat)
    requires Shaped(nodes, header, level)
    ensures forall i, j :: 0 <= i < j < |nodes| ==> nodes[i] != nodes[j]
  {
  }

  /** What lane `l` of the node at `i` must point to. */
  ghost function Target(nodes: seq<Node>, i: nat, l: nat): Node?
    requires i < |nodes|
  {
    var q := Next(nodes, i, l);
    if q == |nodes| then null else nodes[q]
  }

  /** Every lane of every node points to the next node in that lane. */
  ghost predicate Linked(nodes: seq<Node>)
    reads nodes`forward
  {
    forall i :: 0 <= i < |nodes| ==> NodeLinked(nodes, i)
  }

  ghost predicate NodeLinked(nodes: seq<Node>, i: nat)
    requires i < |nodes|
    reads nodes`forward
  {
    |nodes[i].forward| == nodes[i].height && forall l :: 0 <= l < nodes[i].height ==>
                                               nodes[i].forward[l] == Target(nodes, i, l)
  }

  ghost function CellOf(n: Node): Cell
    reads n
  {
    Cell(n.key, n.value, n.deleted)
  }

  // --------------------------------------------------------------- insertion

  lemma InsertedAt(nodes: seq<Node>, pos: nat, node: Node)
    requires pos < |nodes|
    ensures var after := Inserted(nodes, pos, node);
            && |after| == |nodes| + 1
            && after[pos + 1] == node
            && (forall k :: 0 <= k < |nodes| ==> after[Moved(pos, k)] == nodes[k])
            && (forall r :: 0 <= r < |after| && r != pos + 1 ==> after[r] == nodes[if r <= pos then r else r - 1])
  {
  }

  /** `node` points to what follows it in each of its lanes, and the node
      before it in each lane, at position `at[l]`, points to it. */
  ghost predicate SplicedIn(nodes: seq<Node>, node: Node, at: seq<nat>)
    reads nodes`forward, node`forward
  {
    && |node.forward| == node.height <= |at|
    && (forall l :: 0 <= l < node.height ==> at[l] < |nodes| && node.forward[l] == Target(nodes, at[l], l))
    && (forall j :: 0 <= j < |nodes| ==> SplicedNode(nodes, node, at, j))
  }

  ghost predicate SplicedNode(nodes: seq<Node>, node: Node, at: seq<nat>, j: nat)
    requires j < |nodes| && node.height <= |at|
    reads nodes`forward
  {
    && |nodes[j].forward| == nodes[j].height
    && (forall l :: 0 <= l < nodes[j].height ==>
          nodes[j].forward[l] == if l < node.height && j == at[l] then node else Target(nodes, j, l))
  }

  /** After the splice, the nodes with the new one among them are linked. */
  lemma Relinked(nodes: seq<Node>, pos: nat, node: Node, at: seq<nat>)
    requires pos < |nodes| && SplicedIn(nodes, node, at)
    requires forall l :: 0 <= l < node.height ==> LastUpTo(nodes, pos, l, at[l])
    ensures Linked(Inserted(nodes, pos, node))
  {
    hide Next, LastUpTo, Inserted, Target, SplicedNode, NodeLinked;
    var after := Inserted(nodes, pos, node);
    InsertedAt(nodes, pos, node);
    RelinkedNew(nodes, pos, node, at);
    forall r | 0 <= r < |after|
      ensures NodeLinked(after, r)
    {
      if r != pos + 1 {
        var j := if r <= pos then r else r - 1;
        RelinkedNode(nodes, pos, node, at, j);
      }
    }
  }

  lemma RelinkedNew(nodes: seq<Node>, pos: nat, node: Node, at: seq<nat>)
    requires pos < |nodes| && SplicedIn(nodes, node, at)
    requires forall l :: 0 <= l < node.height ==> LastUpTo(nodes, pos, l, at[l])
    ensures pos + 1 < |Inserted(nodes, pos, node)| && NodeLinked(Inserted(nodes, pos, node), pos + 1)
  {
    hide LastUpTo, Inserted, SplicedNode, Next;
    var after := Inserted(nodes, pos, node);
    InsertedAt(nodes, pos, node);
    forall l | 0 <= l < node.height
      ensures node.forward[l] == Target(after, pos + 1, l)
    {
      NewNext(nodes, pos, node, at[l], l);
    }
  }

  lemma RelinkedNode(nodes: seq<Node>, pos: nat, node: Node, at: seq<nat>, j: nat)
    requires pos < |nodes| && j < |nodes| && node.height <= |at| && SplicedNode(nodes, node, at, j)
    requires forall l :: 0 <= l < node.height ==> LastUpTo(nodes, pos, l, at[l])
    ensures Moved(pos, j) < |Inserted(nodes, pos, node)| && NodeLinked(Inserted(nodes, pos, node), Moved(pos, j))
  {
    hide Next, LastUpTo, Inserted, Target;
    InsertedAt(nodes, pos, node);
    forall l | 0 <= l < nodes[j].height
      ensures nodes[j].forward[l] == Target(Inserted(nodes, pos, node), Moved(pos, j), l)
    {
      RelinkedLane(nodes, pos, node, at, j, l);
    }
  }

  lemma RelinkedLane(nodes: seq<Node>, pos: nat, node: Node, at: seq<nat>, j: nat, l: nat)
    requires pos < |nodes| && node.height <= |at| && j < |nodes| && l < nodes[j].height
    requires l < node.height ==> LastUpTo(nodes, pos, l, at[l])
    ensures Target(Inserted(nodes, pos, node), Moved(pos, j), l)
         == if l < node.height && j == at[l] then node else Target(nodes, j, l)
  {
    MovedNext(nodes, pos, node, j, l);
    InsertedAt(nodes, pos, node);
    if l < node.height && j <= pos {
      LastUnique(nodes, pos, l, at[l], j);
    }
  }

  /** The order and the heights after an insertion at the rank of the key. */
  lemma Reshaped(nodes: seq<Node>, header: Node, level: nat, pos: nat, node: Node, newLevel: nat)
    requires Shaped(nodes, header, level) && pos < |nodes| && node !in nodes
    requires 1 <= node.height <= newLevel && level <= newLevel <= MAX_LEVEL
    requires forall i :: 0 < i <= pos ==> Less(nodes[i].key, node.key)
    requires forall i :: pos < i < |nodes| ==> Less(node.key, nodes[i].key)
    ensures Shaped(Inserted(nodes, pos, node), header, newLevel)
  {
    hide Inserted, Less;
    var after := Inserted(nodes, pos, node);
    InsertedAt(nodes, pos, node);
    assert after[0] == after[Moved(pos, 0)] == nodes[0];
    forall i, j | 0 <= i < j < |after|
      ensures after[i] != after[j] && (i > 0 ==> Less(after[i].key, after[j].key))
    {
      ReshapedPair(nodes, header, level, pos, node, i, j);
    }
    forall r | 0 < r < |after|
      ensures 1 <= after[r].height <= newLevel
    {
      assert r != pos + 1 ==> after[r] == nodes[if r <= pos then r else r - 1];
    }
  }

  lemma ReshapedPair(nodes: seq<Node>, header: Node, level: nat, pos: nat, node: Node, i: nat, j: nat)
    requires Shaped(nodes, header, level) && pos < |nodes| && node !in nodes && i < j <= |nodes|
    requires forall i :: 0 < i <= pos ==> Less(nodes[i].key, node.key)
    requires forall i :: pos < i < |nodes| ==> Less(node.key, nodes[i].key)
    ensures var after := Inserted(nodes, pos, node);
            |after| == |nodes| + 1 && after[i] != after[j] && (i > 0 ==> Less(after[i].key, after[j].key))
  {
    hide Less;
    var after := Inserted(nodes, pos, node);
    var i', j' := if i <= pos then i else i - 1, if j <= pos then j else j - 1;
    assert after[i] == if i == pos + 1 then node else nodes[i'];
    assert after[j] == if j == pos + 1 then node else nodes[j'];
  }

  class SkipList {
    const header: Node
    var level: nat
    ghost var nodes: seq<Node>

    constructor ()
      ensures Valid() && Cells() == [] && fresh(nodes)
    {
      var h := new Node([], [], false, MAX_LEVEL);
      header := h;
      level := 1;
      nodes := [h];
    }

    ghost predicate Valid()
      reads this, nodes
    {
      Shaped(nodes, header, level) && Linked(nodes)
    }

    ghost function Cells(): (cells: seq<Cell>)
      requires Valid()
      reads this, nodes
      ensures |cells| == |nodes| - 1 && forall i :: 0 <= i < |cells| ==> cells[i] == CellOf(nodes[i + 1])
      ensures Sorted(cells)
    {
      seq(|nodes| - 1, i requires 0 <= i < |nodes| - 1 reads this, nodes => CellOf(nodes[i + 1]))
    }

    /** The node at `pos` lies before `key`. */
    ghost predicate Before(pos: nat, key: Bytes)
      reads this
    {
      pos < |nodes| && (pos > 0 ==> Less(nodes[pos].key, key))
    }

    /** Nothing before `key` follows the node at `pos` in lane `l`. */
    ghost predicate LaneDone(pos: nat, l: nat, key: Bytes)
      reads this
    {
      && Before(pos, key)
      && l < nodes[pos].height
      && (Next(nodes, pos, l) < |nodes| ==> !Less(nodes[Next(nodes, pos, l)].key, key))
    }

    /** Moves along lane `l` as long as the next node lies before `key`. */
    method Advance(x: Node, ghost pos: nat, l: nat, key: Bytes) returns (y: Node, ghost q: nat)
      requires Valid() && Before(pos, key) && nodes[pos] == x && l < x.height
      ensures LaneDone(q, l, key) && nodes[q] == y
    {
      y, q := x, pos;
      while true
        invariant Before(q, key) && nodes[q] == y && l < y.height
        decreases |nodes| - q
      {
        assert NodeLinked(nodes, q);
        var next := y.forward[l];
        if next == null || !Less(next.key, key) {
          break;
        }
        q := Next(nodes, q, l);
        y := next;
      }
    }

    /** When the lowest lane is done, the rank of `key` is known. */
    lemma RankFound(pos: nat, key: Bytes)
      requires Valid() && LaneDone(pos, 0, key)
      ensures Rank(Cells(), key) == pos && Next(nodes, pos, 0) == pos + 1
    {
      NextExact(nodes, pos, 0, pos + 1);
      RankExact(Cells(), key, pos);
    }

    /** The lowest lane goes through every node. */
    lemma FirstAfter(pos: nat)
      requires Valid() && pos < |nodes|
      ensures |nodes[pos].forward| > 0
      ensures nodes[pos].forward[0] == if pos + 1 == |nodes| then null else nodes[pos + 1]
    {
      assert NodeLinked(nodes, pos);
      NextExact(nodes, pos, 0, pos + 1);
    }

    method Search(key: Bytes) returns (x: Node?)
      requires Valid()
      ensures x == null <==> !Present(Cells(), key)
      ensures x != null ==> x in nodes && CellOf(x) == Cells()[Rank(Cells(), key)]
    {
      var y: Node := header;
      ghost var pos: nat := 0;
      var i: nat := level;
      while i > 0
        invariant i <= level && Before(pos, key) && nodes[pos] == y && i <= y.height
        invariant i < level ==> LaneDone(pos, i, key)
      {
        i := i - 1;
        y, pos := Advance(y, pos, i, key);
      }
      RankFound(pos, key);
      assert NodeLinked(nodes, pos);
      x := y.forward[0];
      if x == null || x.key != key {
        return null;
      }
    }

    /** The last node before `key` in every lane, as positions: `at[l]` is the
        one in lane `l`, and `at[0]` the last of all. */
    ghost predicate Found(update: seq<Node>, at: seq<nat>, from: nat, key: Bytes)
      reads this
    {
      && |update| == |at| == MAX_LEVEL && level <= MAX_LEVEL
      && forall l :: from <= l < level ==> LaneDone(at[l], l, key) && nodes[at[l]] == update[l]
    }

    method FindUpdates(key: Bytes) returns (update: seq<Node>, ghost at: seq<nat>)
      requires Valid()
      ensures Found(update, at, 0, key) && forall l :: level <= l < MAX_LEVEL ==> at[l] == 0
    {
      update := seq(MAX_LEVEL, _ => header);
      at := seq(MAX_LEVEL, _ => 0);
      var x: Node := header;
      ghost var pos: nat := 0;
      var i: nat := level;
      while i > 0
        invariant i <= level && Before(pos, key) && nodes[pos] == x && i <= x.height
        invariant Found(update, at, i, key)
        invariant forall l :: level <= l < MAX_LEVEL ==> at[l] == 0
      {
        i := i - 1;
        x, pos := Advance(x, pos, i, key);
        update := update[i := x];
        at := at[i := pos];
      }
    }

    /** In lane `l`, `at[l]` is the last node up to the rank of `key`. */
    lemma LastInLane(key: Bytes, pos: nat, l: nat, i: nat)
      requires Valid() && LaneDone(pos, 0, key) && LaneDone(i, l, key)
      ensures LastUpTo(nodes, pos, l, i)
    {
      RankFound(pos, key);
      var cells := Cells();
      assert forall k :: 0 <= k < pos ==> Less(cells[k].key, key);
      forall k | pos <= k < |cells|
        ensures !Less(cells[k].key, key)
      {
        BeyondRank(cells, key, k);
        if cells[k].key == key {
          LessIrreflexive(key);
        } else {
          LessAsymmetric(key, cells[k].key);
        }
      }
      assert forall k :: 0 < k < |nodes| ==> cells[k - 1].key == nodes[k].key;
    }

    /** Puts `node` into its lanes, after `update[l]` in lane `l`. */
    method Splice(node: Node, update: seq<Node>, ghost at: seq<nat>, ghost oldLevel: nat)
      requires Shaped(nodes, header, oldLevel) && Linked(nodes) && node !in nodes
      requires |node.forward| == node.height <= |update| == |at|
      requires forall l :: 0 <= l < node.height ==> at[l] < |nodes| && nodes[at[l]] == update[l] && l < update[l].height
      modifies node`forward, nodes`forward
      ensures SplicedIn(nodes, node, at)
    {
      hide Shaped, Next, Target;
      forall j | 0 <= j < |nodes|
        ensures |nodes[j].forward| == nodes[j].height
        ensures forall l :: 0 <= l < nodes[j].height ==> nodes[j].forward[l] == Target(nodes, j, l)
      {
        assert NodeLinked(nodes, j);
      }
      assert forall i, j :: 0 <= i < j < |nodes| ==> nodes[i] != nodes[j] by {
        AllDistinct(nodes, header, oldLevel);
      }
      for i := 0 to node.height
        invariant |node.forward| == node.height
        invariant forall l :: 0 <= l < i ==> node.forward[l] == Target(nodes, at[l], l)
        invariant forall j :: 0 <= j < |nodes| ==> |nodes[j].forward| == nodes[j].height
        invariant forall j, l :: 0 <= j < |nodes| && 0 <= l < nodes[j].height ==>
          nodes[j].forward[l] == if l < i && j == at[l] then node else Target(nodes, j, l)
      {
        node.forward := node.forward[i := update[i].forward[i]];
        update[i].forward := update[i].forward[i := node];
      }
    }

    /** Writes `key`, whose new node, if it needs one, reaches `newLevel` lanes. */
    method Upsert(key: Bytes, value: Bytes, deleted: bool, newLevel: nat)
        returns (existed: bool, wasDeleted: bool, oldValueLen: nat)
      requires Valid() && 1 <= newLevel <= MAX_LEVEL
      modifies this, nodes
      ensures Valid() && forall n :: n in nodes && n !in old(nodes) ==> fresh(n)
      ensures Cells() == Upserted(old(Cells()), Cell(key, value, deleted))
      ensures existed == Present(old(Cells()), key)
      ensures existed ==> var c := old(Cells())[Rank(old(Cells()), key)];
                          wasDeleted == c.deleted && oldValueLen == |c.value|
    {
      var update;
      ghost var at;
      update, at := FindUpdates(key);
      ghost var pos := at[0];
      RankFound(pos, key);
      assert NodeLinked(nodes, pos);
      var x := update[0].forward[0];
      if x != null && x.key == key {
        existed, wasDeleted, oldValueLen := true, x.deleted, |x.value|;
        Overwrite(x, pos, value, deleted);
        return;
      }
      Insert(key, value, deleted, newLevel, update, at);
      return false, false, 0;
    }

    method Overwrite(x: Node, ghost pos: nat, value: Bytes, deleted: bool)
      requires Valid() && pos + 1 < |nodes| && x == nodes[pos + 1] && Rank(Cells(), x.key) == pos
      modifies x`value, x`deleted
      ensures Valid() && Cells() == Upserted(old(Cells()), Cell(x.key, value, deleted))
    {
      hide Rank, Next, Less;
      ghost var before := Cells();
      x.value := value;
      x.deleted := deleted;
      AllDistinct(nodes, header, level);
      ghost var after := Cells();
      forall i | 0 <= i < |after|
        ensures after[i] == before[pos := Cell(x.key, value, deleted)][i]
      {
        assert i != pos ==> nodes[i + 1] != x;
      }
    }

    method Insert(key: Bytes, value: Bytes, deleted: bool, newLevel: nat, found: seq<Node>, ghost at: seq<nat>)
      requires Valid() && 1 <= newLevel <= MAX_LEVEL && Found(found, at, 0, key) && !Present(Cells(), key)
      requires forall l :: level <= l < MAX_LEVEL ==> at[l] == 0
      modifies this, nodes`forward
      ensures Valid() && forall n :: n in nodes && n !in old(nodes) ==> fresh(n)
      ensures Cells() == Upserted(old(Cells()), Cell(key, value, deleted))
    {
      hide Rank, Next, Less, Linked, Found, LastUpTo, LaneDone, Shaped;
      Surrounded(found, at, key, newLevel);
      ghost var pos, before, oldLevel := at[0], Cells(), level;
      var node := new Node(key, value, deleted, newLevel);
      var update := Widen(found, newLevel);
      Link(node, update, at, pos, oldLevel);
      assert Cells() == Upserted(before, CellOf(node)) by {
        CellsInserted(old(nodes), pos, node, before);
      }
    }

    lemma CellsInserted(was: seq<Node>, pos: nat, node: Node, before: seq<Cell>)
      requires Valid() && pos < |was| && nodes == Inserted(was, pos, node)
      requires |before| == |was| - 1 && !Present(before, node.key) && Rank(before, node.key) == pos
      requires forall i :: 0 <= i < |before| ==> before[i] == CellOf(was[i + 1])
      ensures Cells() == Upserted(before, CellOf(node))
    {
      hide Rank, Next, Less, Linked, Shaped, Sorted;
      var after := Cells();
      forall i | 0 <= i < |after|
        ensures after[i] == if i < pos then before[i] else if i == pos then CellOf(node) else before[i - 1]
      {
        assert after[i] == CellOf(nodes[i + 1]);
        assert i != pos ==> nodes[i + 1] == was[if i < pos then i + 1 else i];
      }
      assert after == before[..pos] + [CellOf(node)] + before[pos..];
    }

    /** What the search has established about the place of a new key. */
    lemma Surrounded(found: seq<Node>, at: seq<nat>, key: Bytes, newLevel: nat)
      requires Valid() && 1 <= newLevel <= MAX_LEVEL && Found(found, at, 0, key) && !Present(Cells(), key)
      requires forall l :: level <= l < MAX_LEVEL ==> at[l] == 0
      ensures |found| == |at| == MAX_LEVEL && level <= MAX_LEVEL && at[0] < |nodes| && Rank(Cells(), key) == at[0]
      ensures Shaped(nodes, header, level) && nodes[0] == header
      ensures forall l :: 0 <= l < newLevel ==> LastUpTo(nodes, at[0], l, at[l])
      ensures forall l :: 0 <= l < newLevel ==>
                at[l] < |nodes| && nodes[at[l]] == if l < level then found[l] else header
      ensures forall i :: 0 < i <= at[0] ==> Less(nodes[i].key, key)
      ensures forall i :: at[0] < i < |nodes| ==> Less(key, nodes[i].key)
    {
      hide Rank, Less, Linked;
      var cells := Cells();
      RankFound(at[0], key);
      Ranked(cells, key, at[0]);
      forall l: nat | l < newLevel
        ensures at[l] < |nodes| && LastUpTo(nodes, at[0], l, at[l])
      {
        LaneFound(found, at, key, l);
      }
      assert forall i :: 0 < i < |nodes| ==> cells[i - 1].key == nodes[i].key;
    }

    /** The header stands before the new node in the lanes that no other node
        reaches yet. */
    method Widen(found: seq<Node>, newLevel: nat) returns (update: seq<Node>)
      requires |found| == MAX_LEVEL && newLevel <= MAX_LEVEL
      modifies this`level
      ensures level == if newLevel > old(level) then newLevel else old(level)
      ensures |update| == MAX_LEVEL
      ensures forall l :: 0 <= l < newLevel ==> update[l] == if l < old(level) then found[l] else header
    {
      update := found;
      if newLevel > level {
        for i := level to newLevel
          invariant |update| == MAX_LEVEL
          invariant forall l :: 0 <= l < i ==> update[l] == if l < level then found[l] else header
        {
          update := update[i := header];
        }
        level := newLevel;
      }
    }

    method Link(node: Node, update: seq<Node>, ghost at: seq<nat>, ghost pos: nat, ghost oldLevel: nat)
      requires Shaped(nodes, header, oldLevel) && Linked(nodes) && node !in nodes && pos < |nodes|
      requires 1 <= node.height <= level && oldLevel <= level <= MAX_LEVEL
      requires |node.forward| == node.height <= |update| == |at|
      requires forall l :: 0 <= l < node.height ==> LastUpTo(nodes, pos, l, at[l]) && nodes[at[l]] == update[l]
      requires forall i :: 0 < i <= pos ==> Less(nodes[i].key, node.key)
      requires forall i :: pos < i < |nodes| ==> Less(node.key, nodes[i].key)
      modifies node`forward, nodes`forward, this`nodes
      ensures nodes == Inserted(old(nodes), pos, node) && Valid()
    {
      hide Next, Less, Linked, SplicedIn, Shaped, Inserted;
      Splice(node, update, at, oldLevel);
      Reshaped(nodes, header, oldLevel, pos, node, level);
      Relinked(nodes, pos, node, at);
      nodes := Inserted(nodes, pos, node);
    }

    lemma LaneFound(found: seq<Node>, at: seq<nat>, key: Bytes, l: nat)
      requires Valid() && Found(found, at, 0, key) && l < MAX_LEVEL
      requires l >= level ==> at[l] == 0
      ensures at[l] < |nodes| && LastUpTo(nodes, at[0], l, at[l])
    {
      if l >= level {
        NextExact(nodes, 0, l, |nodes|);
      } else {
        LastInLane(key, at[0], l, at[l]);
      }
    }
  }

  /** The key has its place among the cells. */
  lemma Ranked(cells: seq<Cell>, key: Bytes, r: nat)
    requires Sorted(cells) && !Present(cells, key) && r == Rank(cells, key)
    ensures forall i :: 0 <= i < r ==> Less(cells[i].key, key)
    ensures forall i :: r <= i < |cells| ==> Less(key, cells[i].key)
  {
    forall i | r <= i < |cells|
      ensures Less(key, cells[i].key)
    {
      BeyondRank(cells, key, i);
    }
  }
}
