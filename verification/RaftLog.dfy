/** The compactable log: a slice whose first element stands for the position
    just before the log begins, which is index 0 until a snapshot moves it.

    The functions give the meaning of each operation on the slice; `Log` is
    the object that holds the slice and updates it. `Represents` says which
    complete log a slice stands for. */
module RaftLog {
  import opened Options
  import opened RaftTypes

  type Slice = seq<Entry>

  /** A slice has a boundary, and indexes follow it without a gap. */
  predicate WellFormed(l: Slice) {
    |l| > 0 && forall i :: 0 <= i < |l| ==> l[i].index == l[0].index + i
  }

  const EMPTY_LOG: Slice := [Entry(0, 0, [])]

  function Boundary(l: Slice): nat
    requires |l| > 0
  {
    l[0].index
  }

  function LastIndex(l: Slice): nat
    requires |l| > 0
  {
    l[0].index + |l| - 1
  }

  function LastTerm(l: Slice): nat
    requires |l| > 0
  {
    l[|l| - 1].term
  }

  function TermAt(l: Slice, index: nat): Option<nat>
    requires |l| > 0
  {
    if index < l[0].index || index - l[0].index >= |l| then None else Some(l[index - l[0].index].term)
  }

  function EntryAt(l: Slice, index: nat): Option<Entry>
    requires |l| > 0
  {
    if index <= l[0].index || index - l[0].index >= |l| then None else Some(l[index - l[0].index])
  }

  function SliceFrom(l: Slice, from: nat): seq<Entry>
    requires |l| > 0
  {
    var start := if from <= l[0].index then l[0].index + 1 else from;
    if start - l[0].index >= |l| then [] else l[start - l[0].index..]
  }

  function Range(l: Slice, from: nat, to: nat): seq<Entry>
    requires |l| > 0
  {
    var start := if from <= l[0].index then l[0].index + 1 else from;
    var end := if to > LastIndex(l) then LastIndex(l) else to;
    if start > end then [] else l[start - l[0].index..end - l[0].index + 1]
  }

  /** `entries` renumbered from `start`. */
  function Renumbered(entries: seq<Entry>, start: nat): seq<Entry> {
    seq(|entries|, i requires 0 <= i < |entries| => entries[i].(index := start + i))
  }

  /** How many leading entries of `a` and `b` have the same term. */
  function CommonTerms(a: seq<Entry>, b: seq<Entry>): (k: nat)
    ensures k <= |a| && k <= |b|
  {
    if a == [] || b == [] || a[0].term != b[0].term then 0 else 1 + CommonTerms(a[1..], b[1..])
  }

  lemma {:induction false} CommonTermAt(a: seq<Entry>, b: seq<Entry>, i: nat)
    requires i < CommonTerms(a, b)
    ensures a[i].term == b[i].term
  {
    if i > 0 {
      CommonTermAt(a[1..], b[1..], i - 1);
    }
  }

  lemma {:induction false} CommonTermsEnd(a: seq<Entry>, b: seq<Entry>)
    ensures var k := CommonTerms(a, b); k < |a| && k < |b| ==> a[k].term != b[k].term
  {
    if a != [] && b != [] && a[0].term == b[0].term {
      CommonTermsEnd(a[1..], b[1..]);
    }
  }

  lemma CommonTermsExact(a: seq<Entry>, b: seq<Entry>, k: nat)
    requires k <= |a| && k <= |b| && forall i :: 0 <= i < k ==> a[i].term == b[i].term
    requires k == |a| || k == |b| || a[k].term != b[k].term
    ensures CommonTerms(a, b) == k
  {
    var c := CommonTerms(a, b);
    CommonTermsEnd(a, b);
    if k < c {
      CommonTermAt(a, b, k);
    }
  }

  /** How many of `entries`, sent to follow index `prev`, the slice already has. */
  function Matching(l: Slice, prev: nat, entries: seq<Entry>): nat
    requires |l| > 0 && l[0].index <= prev <= LastIndex(l)
  {
    CommonTerms(l[prev + 1 - l[0].index..], entries)
  }

  /** The follower side of replication: what matches is kept, and the first
      conflict truncates everything from there on. */
  function AppendAfter(l: Slice, prev: nat, entries: seq<Entry>): (l': Slice)
    requires |l| > 0 && l[0].index <= prev <= LastIndex(l)
    ensures |l'| > 0 && l'[0] == l[0]
  {
    var k := Matching(l, prev, entries);
    if k == |entries| then l
    else l[..prev + 1 - l[0].index + k] + Renumbered(entries[k..], prev + 1 + k)
  }

  /** The slice with everything up to `index` folded into its boundary. */
  function Compacted(l: Slice, index: nat, term: nat): Slice
    requires |l| > 0 && l[0].index <= index <= LastIndex(l)
  {
    [Entry(index, term, [])] + l[index - l[0].index + 1..]
  }

  function WithBoundary(l: Slice, index: nat, term: nat): Slice
    requires |l| > 0
  {
    if TermAt(l, index) == Some(term) then Compacted(l, index, term) else [Entry(index, term, [])]
  }

  // ------------------------------------------------------- the complete log

  predicate Numbered(full: seq<Entry>) {
    forall i :: 0 <= i < |full| ==> full[i].index == i + 1
  }

  function FullTermAt(full: seq<Entry>, index: nat): nat
    requires index <= |full|
  {
    if index == 0 then 0 else full[index - 1].term
  }

  /** `l` is the complete log `full` with some prefix folded away. */
  predicate Represents(l: Slice, full: seq<Entry>) {
    && |l| > 0
    && l[0].index <= |full|
    && l[0].term == FullTermAt(full, l[0].index)
    && l[1..] == full[l[0].index..]
  }

  lemma RepresentsLength(l: Slice, full: seq<Entry>)
    requires Represents(l, full)
    ensures |full| == LastIndex(l)
    ensures forall i :: 0 < i < |l| ==> l[i] == full[l[0].index + i - 1]
  {
    assert |l[1..]| == |full| - l[0].index;
    forall i | 0 < i < |l|
      ensures l[i] == full[l[0].index + i - 1]
    {
      assert l[i] == l[1..][i - 1];
    }
  }

  /** Compaction is invisible to the last position, and to every term and
      entry from the boundary on. */
  lemma CompactionInvisible(l: Slice, full: seq<Entry>)
    requires Represents(l, full)
    ensures LastIndex(l) == |full|
    ensures LastTerm(l) == FullTermAt(full, |full|)
    ensures forall i :: l[0].index <= i <= |full| ==> TermAt(l, i) == Some(FullTermAt(full, i))
    ensures forall i :: i > |full| ==> TermAt(l, i) == None
    ensures forall i :: l[0].index < i <= |full| ==> EntryAt(l, i) == Some(full[i - 1])
    ensures forall from, to :: l[0].index < from <= to <= |full| ==> Range(l, from, to) == full[from - 1..to]
    ensures forall from :: l[0].index < from <= |full| + 1 ==> SliceFrom(l, from) == full[from - 1..]
  {
    RepresentsLength(l, full);
    forall from, to | l[0].index < from <= to <= |full|
      ensures Range(l, from, to) == full[from - 1..to]
    {
      assert Range(l, from, to) == l[from - l[0].index..to - l[0].index + 1];
    }
  }

  lemma CompactedRepresents(l: Slice, full: seq<Entry>, index: nat, term: nat)
    requires Represents(l, full) && l[0].index <= index <= |full| && term == FullTermAt(full, index)
    ensures LastIndex(l) == |full| && Represents(Compacted(l, index, term), full)
  {
    RepresentsLength(l, full);
    var c := Compacted(l, index, term);
    assert c[1..] == l[index - l[0].index + 1..];
    forall i | 0 <= i < |full| - index
      ensures c[1..][i] == full[index..][i]
    {
      assert c[1..][i] == l[index - l[0].index + 1 + i];
    }
  }

  /** Taking a boundary that the log already holds changes nothing; any other
      boundary leaves exactly the log `target` that it stands for. */
  lemma BoundaryRepresents(l: Slice, full: seq<Entry>, index: nat, term: nat, target: seq<Entry>)
    requires Represents(l, full) && index > l[0].index
    requires |target| == index && FullTermAt(target, index) == term
    ensures Represents(WithBoundary(l, index, term),
                       if index <= |full| && FullTermAt(full, index) == term then full else target)
  {
    CompactionInvisible(l, full);
    if index <= |full| && FullTermAt(full, index) == term {
      CompactedRepresents(l, full, index, term);
    }
  }

  /** Replication on a log that was never compacted. */
  function FullAppendAfter(full: seq<Entry>, prev: nat, entries: seq<Entry>): seq<Entry>
    requires prev <= |full|
  {
    var k := CommonTerms(full[prev..], entries);
    if k == |entries| then full else full[..prev + k] + Renumbered(entries[k..], prev + 1 + k)
  }

  lemma SpliceRepresents(l: Slice, full: seq<Entry>, m: nat, rest: seq<Entry>)
    requires Represents(l, full) && l[0].index <= m <= |full| && LastIndex(l) == |full|
    ensures Represents(l[..m + 1 - l[0].index] + rest, full[..m] + rest)
  {
    var b := l[0].index;
    SpliceTail(l, 1, m + 1 - b, rest);
    SpliceTail(full, b, m, rest);
  }

  lemma SpliceTail(s: seq<Entry>, from: nat, to: nat, rest: seq<Entry>)
    requires from <= to <= |s|
    ensures (s[..to] + rest)[from..] == s[from..][..to - from] + rest
  {
    var a, b := (s[..to] + rest)[from..], s[from..][..to - from] + rest;
    assert |a| == |b|;
    forall i | 0 <= i < |a|
      ensures a[i] == b[i]
    {
      assert a[i] == (s[..to] + rest)[from + i];
      assert i < to - from ==> b[i] == s[from..][i] == s[from + i];
    }
  }

  lemma MatchingAgrees(l: Slice, full: seq<Entry>, prev: nat, entries: seq<Entry>)
    requires Represents(l, full) && l[0].index <= prev <= |full|
    ensures prev <= LastIndex(l) == |full|
    ensures Matching(l, prev, entries) == CommonTerms(full[prev..], entries)
  {
    hide CommonTerms;
    RepresentsLength(l, full);
    var b := l[0].index;
    assert l[prev + 1 - b..] == l[1..][prev - b..];
    assert full[prev..] == full[b..][prev - b..];
  }

  /** Appending commutes with compaction. */
  lemma AppendAfterRepresents(l: Slice, full: seq<Entry>, prev: nat, entries: seq<Entry>)
    requires Represents(l, full) && l[0].index <= prev <= |full|
    ensures prev <= LastIndex(l)
    ensures Represents(AppendAfter(l, prev, entries), FullAppendAfter(full, prev, entries))
  {
    MatchingAgrees(l, full, prev, entries);
    var k := Matching(l, prev, entries);
    var l', f' := AppendAfter(l, prev, entries), FullAppendAfter(full, prev, entries);
    assert Represents(l', f') by {
      if k < |entries| {
        var rest := Renumbered(entries[k..], prev + 1 + k);
        SpliceRepresents(l, full, prev + k, rest);
        assert l' == l[..prev + k + 1 - l[0].index] + rest;
      }
    }
  }

  // ------------------------------------------------------------- the object

  class Log {
    var entries: seq<Entry>

    constructor ()
      ensures entries == EMPTY_LOG
    {
      entries := EMPTY_LOG;
    }

    method Append(e: Entry) returns (index: nat)
      requires |entries| > 0
      modifies this
      ensures index == old(LastIndex(entries)) + 1
      ensures entries == old(entries) + [e.(index := index)]
    {
      index := entries[0].index + |entries|;
      entries := entries + [e.(index := index)];
    }

    method AppendFrom(start: nat, rest: seq<Entry>)
      modifies this
      ensures entries == old(entries) + Renumbered(rest, start)
    {
      ghost var before := entries;
      for i := 0 to |rest|
        invariant entries == before + Renumbered(rest, start)[..i]
      {
        entries := entries + [rest[i].(index := start + i)];
      }
      assert Renumbered(rest, start)[..|rest|] == Renumbered(rest, start);
    }

    method AppendEntriesAfter(prev: nat, newEntries: seq<Entry>) returns (changed: bool)
      requires |entries| > 0 && entries[0].index <= prev <= LastIndex(entries)
      modifies this
      ensures entries == AppendAfter(old(entries), prev, newEntries)
      ensures changed <==> Matching(old(entries), prev, newEntries) < |newEntries|
      ensures !changed ==> entries == old(entries)
    {
      hide CommonTerms, Renumbered;
      var base := entries[0].index;
      ghost var before := entries;
      ghost var tail := before[prev + 1 - base..];
      for i := 0 to |newEntries|
        invariant entries == before
        invariant i <= |tail| && forall j :: 0 <= j < i ==> tail[j].term == newEntries[j].term
      {
        var index := prev + 1 + i;
        var offset := index - base;
        if offset < |entries| {
          assert tail[i] == entries[offset];
          if entries[offset].term == newEntries[i].term {
            continue;
          }
          entries := entries[..offset];
        }
        CommonTermsExact(tail, newEntries, i);
        assert entries == before[..offset];
        AppendFrom(index, newEntries[i..]);
        return true;
      }
      CommonTermsExact(tail, newEntries, |newEntries|);
      return false;
    }

    method Compact(index: nat) returns (ok: bool)
      requires |entries| > 0
      modifies this
      ensures ok <==> old(TermAt(entries, index)).Some?
      ensures entries == if ok then Compacted(old(entries), index, old(TermAt(entries, index)).value) else old(entries)
    {
      var term := TermAt(entries, index);
      if term.None? {
        return false;
      }
      var offset := index - entries[0].index;
      entries := [Entry(index, term.value, [])] + entries[offset + 1..];
      return true;
    }

    method InstallSnapshotBoundary(index: nat, term: nat)
      requires |entries| > 0
      modifies this
      ensures entries == WithBoundary(old(entries), index, term)
    {
      var here := TermAt(entries, index);
      if here.Some? && here.value == term {
        var offset := index - entries[0].index;
        entries := [Entry(index, term, [])] + entries[offset + 1..];
        return;
      }
      entries := [Entry(index, term, [])];
    }
  }
}
