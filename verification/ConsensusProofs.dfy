/** Every step of the uncompacted protocol keeps its invariant. */
module ConsensusProofs {
  import opened RaftTypes
  import opened Consensus

  // -------------------------------------------------------------- prefixes

  ghost predicate Comparable(a: Log, b: Log) {
    a <= b || b <= a
  }

  lemma PrefixesComparable(a: Log, b: Log, c: Log)
    requires a <= c && b <= c
    ensures Comparable(a, b)
  {
  }

  lemma OverlayKeeps(log: Log, target: Log, p: Log)
    requires p <= log && Comparable(p, target)
    ensures p <= Overlay(log, target)
  {
  }

  lemma QuorumsMeet(members: set<NodeId>, a: set<NodeId>, b: set<NodeId>) returns (v: NodeId)
    requires IsQuorum(members, a) && IsQuorum(members, b)
    ensures v in a && v in b
  {
    if a * b == {} {
      assert |a + b| == |a| + |b|;
      SubsetSize(a + b, members);
      assert false;
    }
    v :| v in a * b;
  }

  lemma SubsetSize<T>(a: set<T>, b: set<T>)
    requires a <= b
    ensures |a| <= |b|
  {
    assert b == a + (b - a);
  }

  // ------------------------------------------------------------- grounding

  /** Two grounded logs that agree on the term at one index agree up to it. */
  lemma GroundedMatch(reigns: map<nat, Reign>, a: Log, b: Log, i: nat)
    requires Grounded(reigns, a) && Grounded(reigns, b)
    requires i < |a| && i < |b| && a[i].term == b[i].term
    ensures a[..i + 1] == b[..i + 1]
  {
  }

  lemma GroundedTerms(s: State, log: Log, i: nat, j: nat)
    requires ReignsGrounded(s) && Grounded(s.reigns, log)
    requires i <= j < |log|
    ensures log[i].term <= log[j].term
  {
    var l := s.reigns[log[j].term].log;
    assert log[..j + 1] <= l;
    assert log[i] == log[..j + 1][i] == l[i];
  }

  lemma LaterTermLater(s: State, log: Log, i: nat, j: nat)
    requires ReignsGrounded(s) && Grounded(s.reigns, log)
    requires i < |log| && j < |log| && log[i].term < log[j].term
    ensures i < j
  {
    if j <= i {
      GroundedTerms(s, log, j, i);
    }
  }

  lemma GroundedPrefix(reigns: map<nat, Reign>, log: Log, p: Log)
    requires Grounded(reigns, log) && p <= log
    ensures Grounded(reigns, p)
  {
    forall i | 0 <= i < |p|
      ensures p[i].index == i + 1 && p[i].term in reigns && p[..i + 1] <= reigns[p[i].term].log
    {
      assert p[i] == log[i] && p[..i + 1] == log[..i + 1];
    }
  }

  /** Reigns gain terms and their logs grow. */
  ghost predicate ReignsExtend(r: map<nat, Reign>, r': map<nat, Reign>) {
    forall t :: t in r ==> t in r' && r'[t].leader == r[t].leader && r[t].log <= r'[t].log
  }

  lemma GroundedExtend(r: map<nat, Reign>, r': map<nat, Reign>, log: Log)
    requires Grounded(r, log) && ReignsExtend(r, r')
    ensures Grounded(r', log)
  {
    forall i | 0 <= i < |log|
      ensures log[i].term in r' && log[..i + 1] <= r'[log[i].term].log
    {
      assert log[..i + 1] <= r[log[i].term].log <= r'[log[i].term].log;
    }
  }

  // ------------------------------------------------- what every step keeps

  /** Terms only rise, and nothing in the history is ever rewritten. */
  ghost predicate Grows(s: State, s': State) {
    && s'.servers.Keys == s.servers.Keys
    && (forall v :: v in s.servers ==> s.servers[v].term <= s'.servers[v].term)
    && ReignsExtend(s.reigns, s'.reigns)
    && (forall v, t: nat :: v in s.servers ==> Ack(s, v, t) <= Ack(s', v, t))
    && (forall b :: b in s.ballots ==> b in s'.ballots && s'.ballots[b] == s.ballots[b])
    && s.chosen <= s'.chosen
  }

  lemma GrowsTransitive(s: State, s': State, s'': State)
    requires Grows(s, s') && Grows(s', s'')
    ensures Grows(s, s'')
  {
  }

  /** What one step does to the history: in addition, a server confirms
      nothing for a term that it has left. */
  ghost predicate Extends(s: State, s': State) {
    && Grows(s, s')
    && forall v, t: nat :: v in s.servers && t < s'.servers[v].term ==> Ack(s', v, t) == Ack(s, v, t)
  }

  lemma ExtendsGrows(s: State, s': State)
    requires Extends(s, s')
    ensures Grows(s, s')
  {
  }

  lemma OpenBack(s: State, s': State, t: nat, k: nat)
    requires Extends(s, s') && Open(s', t, k)
    ensures Open(s, t, k)
  {
    var q :| IsQuorum(s'.servers.Keys, q) && Unrefused(s', t, k, q);
    assert Unrefused(s, t, k, q);
  }

  lemma ChosenAtForward(s: State, s': State, t: nat, k: nat)
    requires Grows(s, s') && ChosenAt(s, t, k)
    ensures ChosenAt(s', t, k)
  {
    var q :| IsQuorum(s.servers.Keys, q) && Confirmed(s, t, k, q);
    assert IsQuorum(s'.servers.Keys, q) && Confirmed(s', t, k, q);
    assert s.reigns[t].log[k - 1] == s'.reigns[t].log[k - 1];
  }

  lemma WitnessedForward(s: State, s': State, x: nat, t: nat, t': nat)
    requires Grows(s, s') && Witnessed(s, x, t) && t <= t'
    ensures Witnessed(s', x, t')
  {
    if x > 0 {
      var t1: nat, k1: nat :| WitnessedBy(s, x, t, t1, k1);
      ChosenAtForward(s, s', t1, k1);
      assert s.reigns[t1].log[..x] == s'.reigns[t1].log[..x];
      assert WitnessedBy(s', x, t', t1, k1);
    }
  }

  lemma WitnessedShorter(s: State, x: nat, y: nat, t: nat)
    requires Witnessed(s, x, t) && y <= x
    ensures Witnessed(s, y, t)
  {
    if y > 0 {
      var t1: nat, k1: nat :| WitnessedBy(s, x, t, t1, k1);
      assert s.chosen[..y] == s.chosen[..x][..y] == s.reigns[t1].log[..x][..y] == s.reigns[t1].log[..y];
      assert WitnessedBy(s, y, t, t1, k1);
    }
  }

  lemma ChosenIsOpen(s: State, t: nat, k: nat)
    requires ChosenAt(s, t, k)
    ensures Open(s, t, k)
  {
    var q :| IsQuorum(s.servers.Keys, q) && Confirmed(s, t, k, q);
    assert Unrefused(s, t, k, q);
  }

  /** What was chosen by term `t` is in the log of every leader from term `t` on. */
  lemma WitnessedWithin(s: State, x: nat, t: nat, t': nat)
    requires ReignsKeep(s) && Witnessed(s, x, t) && t <= t' && t' in s.reigns
    ensures s.chosen[..x] <= s.reigns[t'].log
  {
    if x > 0 {
      var t1: nat, k1: nat :| WitnessedBy(s, x, t, t1, k1);
      ChosenIsOpen(s, t1, k1);
      if t1 < t' {
        assert s.reigns[t1].log[..k1] <= s.reigns[t'].log;
      }
      assert s.chosen[..x] == s.reigns[t1].log[..x] == s.reigns[t1].log[..k1][..x];
    }
  }

  /** What a server has confirmed of term `t` is still in its log. */
  lemma ServerHolds(s: State, v: NodeId, t: nat, k: nat)
    requires AcksValid(s) && ServersKeep(s)
    requires v in s.servers && Ack(s, v, t) >= k && Owned(s, t, k) && Open(s, t, k)
    ensures s.reigns[t].log[..k] <= s.servers[v].log
  {
    assert (v, t) in s.acked;
    if s.servers[v].term == t {
      assert s.reigns[t].log[..s.acked[(v, t)]] <= s.servers[v].log;
    }
  }

  /** An entry that is new in `s'` cannot be open once a later reign exists. */
  lemma NewEntryNotOpen(s: State, s': State, t: nat, k: nat, t': nat)
    requires Extends(s, s') && t < t' && t' in s.reigns && k > 0
    requires ReignsValid(s) && BallotsValid(s) && AcksValid(s)
    requires t in s.reigns ==> k > |s.reigns[t].log|
    ensures !Open(s', t, k)
  {
    forall q | IsQuorum(s'.servers.Keys, q)
      ensures !Unrefused(s', t, k, q)
    {
      assert ReignValid(s, t');
      var v := QuorumsMeet(s.servers.Keys, q, s.reigns[t'].voters);
      assert BallotValid(s, v, t');
      assert s'.servers[v].term > t && Ack(s', v, t) == Ack(s, v, t) < k;
    }
  }

  // ---------------------------------------------------- keeping the promises

  /** Open entries of `s'` were open, and owned, in `s`, unless they are new. */
  lemma PromiseBack(s: State, s': State, t: nat, k: nat)
    requires Extends(s, s') && Owned(s', t, k) && Open(s', t, k)
    requires t in s.reigns && k <= |s.reigns[t].log|
    ensures Owned(s, t, k) && Open(s, t, k) && s.reigns[t].log[..k] == s'.reigns[t].log[..k]
  {
    OpenBack(s, s', t, k);
    assert s.reigns[t].log[k - 1] == s'.reigns[t].log[k - 1];
  }

  /** What `v` has confirmed of an earlier term is in its log before the step. */
  lemma ServerKept(s: State, s': State, v: NodeId, t: nat, k: nat)
    requires Extends(s, s') && AcksValid(s) && ServersKeep(s)
    requires v in s.servers && t < s'.servers[v].term && Ack(s', v, t) >= k
    requires Owned(s', t, k) && Open(s', t, k)
    ensures Owned(s, t, k) && Open(s, t, k)
    ensures s'.reigns[t].log[..k] == s.reigns[t].log[..k] <= s.servers[v].log
  {
    assert Ack(s, v, t) == Ack(s', v, t);
    assert (v, t) in s.acked;
    PromiseBack(s, s', t, k);
    ServerHolds(s, v, t, k);
  }

  /** Logs that only grow keep every promise. */
  lemma ServersKeepGrow(s: State, s': State)
    requires Extends(s, s') && AcksValid(s) && ServersKeep(s)
    requires forall v :: v in s.servers ==> s.servers[v].log <= s'.servers[v].log
    ensures ServersKeep(s')
  {
    hide AcksValid, Open;
    forall v, t: nat, k: nat | v in s'.servers && t < s'.servers[v].term && Ack(s', v, t) >= k && Owned(s', t, k)
      && Open(s', t, k)
      ensures s'.reigns[t].log[..k] <= s'.servers[v].log
    {
      ServerKept(s, s', v, t, k);
    }
  }

  lemma BallotsKeepSame(s: State, s': State)
    requires Extends(s, s') && AcksValid(s) && BallotsValid(s) && BallotsKeep(s)
    requires s'.ballots == s.ballots
    ensures BallotsKeep(s')
  {
    forall b, t: nat, k: nat | b in s'.ballots && t < b.1 && Ack(s', b.0, t) >= k && Owned(s', t, k) && Open(s', t, k)
      ensures s'.reigns[t].log[..k] <= s'.ballots[b].log
    {
      BallotKept(s, s', b, t, k);
    }
  }

  lemma BallotKept(s: State, s': State, b: (NodeId, nat), t: nat, k: nat)
    requires Extends(s, s') && AcksValid(s) && BallotsValid(s) && BallotsKeep(s)
    requires b in s.ballots && t < b.1 && Ack(s', b.0, t) >= k && Owned(s', t, k) && Open(s', t, k)
    ensures s'.reigns[t].log[..k] <= s.ballots[b].log
  {
    assert BallotValid(s, b.0, b.1);
    assert Ack(s, b.0, t) == Ack(s', b.0, t);
    assert (b.0, t) in s.acked;
    PromiseBack(s, s', t, k);
  }

  /** A ballot cast in this step carries the voter's current log. */
  lemma BallotsKeepNew(s: State, s': State, v: NodeId)
    requires Extends(s, s') && AcksValid(s) && BallotsValid(s) && ServersKeep(s) && BallotsKeep(s)
    requires v in s.servers
    requires forall b :: b in s'.ballots ==>
      b in s.ballots || (b == (v, s'.servers[v].term) && s'.ballots[b].log == s.servers[v].log)
    ensures BallotsKeep(s')
  {
    forall b, t: nat, k: nat | b in s'.ballots && t < b.1 && Ack(s', b.0, t) >= k && Owned(s', t, k) && Open(s', t, k)
      ensures s'.reigns[t].log[..k] <= s'.ballots[b].log
    {
      if b in s.ballots {
        BallotKept(s, s', b, t, k);
      } else {
        ServerKept(s, s', v, t, k);
      }
    }
  }

  lemma ReignsKeepGrow(s: State, s': State)
    requires Extends(s, s') && ReignsValid(s) && BallotsValid(s) && AcksValid(s) && ReignsKeep(s)
    requires s'.reigns.Keys == s.reigns.Keys
    ensures ReignsKeep(s')
  {
    forall t', t: nat, k: nat | t' in s'.reigns && t < t' && Owned(s', t, k) && Open(s', t, k)
      ensures s'.reigns[t].log[..k] <= s'.reigns[t'].log
    {
      ReignKept(s, s', t, k, t');
    }
  }

  lemma ReignKept(s: State, s': State, t: nat, k: nat, t': nat)
    requires Extends(s, s') && ReignsValid(s) && BallotsValid(s) && AcksValid(s) && ReignsKeep(s)
    requires t < t' && t' in s.reigns && t in s.reigns && Owned(s', t, k) && Open(s', t, k)
    ensures s'.reigns[t].log[..k] <= s'.reigns[t'].log
  {
    if k > |s.reigns[t].log| {
      NewEntryNotOpen(s, s', t, k, t');
      assert false;
    } else {
      PromiseBack(s, s', t, k);
      assert s.reigns[t].log[..k] <= s.reigns[t'].log <= s'.reigns[t'].log;
    }
  }

  // ------------------------------------------------------- winning elections

  /** The candidate that a quorum voted for has every entry that is open. */
  lemma WinnerKeeps(s: State, c: NodeId, t: nat, k: nat)
    requires Structure(s) && Keeps(s) && MayWin(s, c)
    requires t < s.servers[c].term && Owned(s, t, k) && Open(s, t, k)
    ensures s.reigns[t].log[..k] <= s.servers[c].log
  {
    var term := s.servers[c].term;
    var q :| IsQuorum(s.servers.Keys, q) && Unrefused(s, t, k, q);
    assert CandidateValid(s, c);
    var v := QuorumsMeet(s.servers.Keys, q, s.servers[c].votes);
    assert BallotValid(s, v, term);
    assert Ack(s, v, t) >= k;
    var voter := s.ballots[(v, term)].log;
    assert s.reigns[t].log[..k] <= voter;
    UpToDateKeeps(s, s.servers[c].log, voter, t, k);
  }

  /** A log at least as up to date as one that has an open entry has it too. */
  lemma GroundedLast(s: State, log: Log)
    requires Grounded(s.reigns, log) && log != []
    ensures LastTerm(log) in s.reigns && log <= s.reigns[LastTerm(log)].log
  {
    assert log[..|log|] == log;
  }

  /** A log whose last entry is of a later term holds everything that its
      leader held of earlier terms. */
  lemma HoldsEarlier(s: State, log: Log, early: Log)
    requires ReignsGrounded(s) && Grounded(s.reigns, log) && log != [] && LastTerm(log) in s.reigns
    requires early != [] && early[|early| - 1].term < LastTerm(log) && early <= s.reigns[LastTerm(log)].log
    ensures early <= log
  {
    var leader := s.reigns[LastTerm(log)].log;
    GroundedLast(s, log);
    assert leader[|early| - 1] == early[|early| - 1] && leader[|log| - 1] == log[|log| - 1];
    LaterTermLater(s, leader, |early| - 1, |log| - 1);
  }

  lemma UpToDateKeeps(s: State, log: Log, voter: Log, t: nat, k: nat)
    requires ReignsGrounded(s) && ReignsKeep(s)
    requires Grounded(s.reigns, log) && Grounded(s.reigns, voter) && UpToDate(log, voter)
    requires Owned(s, t, k) && Open(s, t, k) && s.reigns[t].log[..k] <= voter
    ensures s.reigns[t].log[..k] <= log
  {
    hide Open;
    assert voter[k - 1] == s.reigns[t].log[..k][k - 1];
    GroundedTerms(s, voter, k - 1, |voter| - 1);
    var last := LastTerm(log);
    assert last >= t > 0;
    GroundedLast(s, log);
    if last == LastTerm(voter) {
      GroundedLast(s, voter);
      assert |log| >= |voter|;
    } else {
      assert s.reigns[t].log[..k] <= s.reigns[last].log;
      HoldsEarlier(s, log, s.reigns[t].log[..k]);
    }
  }
}
