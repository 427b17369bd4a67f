/** Replication keeps the protocol invariant: appending, taking over a
    leader's log, and falling back on what is already chosen. */
module ConsensusReplication {
  import opened RaftTypes
  import opened Consensus
  import opened ConsensusProofs
  import opened ConsensusSteps

  // ----------------------------------------------------------------- appending

  lemma AppendExtends(s: State, n: NodeId, e: Entry)
    requires MayAppend(s, n, e) && LeaderValid(s, n) && AcksValid(s)
    ensures Extends(s, Append(s, n, e))
  {
    var s', t := Append(s, n, e), s.servers[n].term;
    assert Ack(s, n, t) <= |s.servers[n].log|;
    assert ReignsExtend(s.reigns, s'.reigns);
  }

  lemma AppendLogGrounded(s: State, n: NodeId, e: Entry)
    requires MayAppend(s, n, e) && LeaderValid(s, n) && ServersGrounded(s)
    requires ReignsExtend(s.reigns, Append(s, n, e).reigns)
    ensures Grounded(Append(s, n, e).reigns, s.servers[n].log + [e])
    ensures TermsAtMost(s.servers[n].log + [e], s.servers[n].term)
  {
    var s', log := Append(s, n, e), s.servers[n].log;
    GroundedExtend(s.reigns, s'.reigns, log);
    var log' := log + [e];
    forall i | 0 <= i < |log'|
      ensures log'[i].index == i + 1 && log'[i].term in s'.reigns && log'[..i + 1] <= s'.reigns[log'[i].term].log
    {
      if i < |log| {
        assert log'[..i + 1] == log[..i + 1];
      }
    }
  }

  lemma AppendGrounded(s: State, n: NodeId, e: Entry)
    requires MayAppend(s, n, e) && LeaderValid(s, n)
    requires ReignsGrounded(s) && ServersGrounded(s) && BallotsGrounded(s)
    ensures ReignsGrounded(Append(s, n, e)) && ServersGrounded(Append(s, n, e)) && BallotsGrounded(Append(s, n, e))
  {
    var s' := Append(s, n, e);
    assert ReignsExtend(s.reigns, s'.reigns);
    AppendLogGrounded(s, n, e);
    forall t | t in s'.reigns
      ensures t > 0 && Grounded(s'.reigns, s'.reigns[t].log) && TermsAtMost(s'.reigns[t].log, t)
    {
      if t != s.servers[n].term {
        GroundedExtend(s.reigns, s'.reigns, s'.reigns[t].log);
      }
    }
    forall v | v in s'.servers
      ensures Grounded(s'.reigns, s'.servers[v].log) && TermsAtMost(s'.servers[v].log, s'.servers[v].term)
    {
      if v != n {
        GroundedExtend(s.reigns, s'.reigns, s'.servers[v].log);
      }
    }
    forall b | b in s'.ballots
      ensures Grounded(s'.reigns, s'.ballots[b].log)
    {
      GroundedExtend(s.reigns, s'.reigns, s'.ballots[b].log);
    }
  }

  lemma AppendBallots(s: State, n: NodeId, e: Entry)
    requires MayAppend(s, n, e) && BallotsValid(s) && VotesRecorded(s)
    ensures BallotsValid(Append(s, n, e)) && VotesRecorded(Append(s, n, e))
  {
    var s' := Append(s, n, e);
    forall b | b in s'.ballots
      ensures BallotValid(s', b.0, b.1)
    {
      assert BallotValid(s, b.0, b.1);
    }
  }

  lemma AppendRoles(s: State, n: NodeId, e: Entry)
    requires MayAppend(s, n, e) && RolesValid(s)
    ensures RolesValid(Append(s, n, e))
  {
    var s' := Append(s, n, e);
    assert LeaderValid(s, n);
    forall u | u in s'.servers
      ensures u != NOBODY && CandidateValid(s', u) && LeaderValid(s', u)
    {
      assert u != NOBODY && CandidateValid(s, u) && LeaderValid(s, u);
    }
  }

  lemma AppendReigns(s: State, n: NodeId, e: Entry)
    requires MayAppend(s, n, e) && LeaderValid(s, n) && ReignsValid(s) && AcksValid(s)
    ensures ReignsValid(Append(s, n, e)) && AcksValid(Append(s, n, e))
  {
    var s' := Append(s, n, e);
    forall t | t in s'.reigns
      ensures ReignValid(s', t)
    {
      assert ReignValid(s, t);
    }
    forall a | a in s'.acked
      ensures a.0 in s'.servers && a.1 in s'.reigns && s'.acked[a] <= |s'.reigns[a.1].log|
      ensures a.1 <= s'.servers[a.0].term
      ensures s'.servers[a.0].term == a.1 ==> s'.reigns[a.1].log[..s'.acked[a]] <= s'.servers[a.0].log
    {
      if a != (n, s.servers[n].term) {
        assert a in s.acked;
        assert s'.reigns[a.1].log[..s.acked[a]] == s.reigns[a.1].log[..s.acked[a]];
      }
    }
  }

  lemma AppendGrows(s: State, n: NodeId, e: Entry)
    requires MayAppend(s, n, e) && SettledHeld(s)
    ensures forall v :: v in s.servers ==> s.servers[v].log <= Append(s, n, e).servers[v].log
    ensures Append(s, n, e).reigns.Keys == s.reigns.Keys
    ensures Append(s, n, e).ballots == s.ballots
    ensures SettlesNothing(s, Append(s, n, e))
  {
  }

  lemma AppendStructure(s: State, n: NodeId, e: Entry)
    requires Structure(s) && MayAppend(s, n, e)
    ensures Structure(Append(s, n, e))
  {
    assert LeaderValid(s, n);
    AppendGrounded(s, n, e);
    AppendBallots(s, n, e);
    AppendRoles(s, n, e);
    AppendReigns(s, n, e);
  }

  lemma AppendKeeps(s: State, n: NodeId, e: Entry)
    requires Inv(s) && MayAppend(s, n, e)
    ensures Inv(Append(s, n, e)) && Extends(s, Append(s, n, e))
  {
    var s' := Append(s, n, e);
    assert LeaderValid(s, n);
    AppendStructure(s, n, e);
    AppendExtends(s, n, e);
    AppendGrows(s, n, e);
    ServersKeepGrow(s, s');
    BallotsKeepSame(s, s');
    ReignsKeepGrow(s, s');
    SettledForward(s, s');
  }

  // ------------------------------------------------- taking over another log

  /** Server `v` overlays `target` on its log and confirms at most that much
      of the leader it follows. */
  ghost predicate TakesOver(s: State, s': State, v: NodeId, target: Log) {
    && v in s.servers
    && s'.servers.Keys == s.servers.Keys
    && s'.ballots == s.ballots
    && s'.reigns == s.reigns
    && s'.chosen == s.chosen
    && s'.chosenTerm == s.chosenTerm
    && (forall u :: u in s.servers && u != v ==> s'.servers[u] == s.servers[u])
    && var a, b := s.servers[v], s'.servers[v];
       && b.term == a.term
       && b.vote == a.vote
       && b.log == Overlay(a.log, target)
       && (b.role == Follower || (b.role == a.role && b.log == a.log && b.votes == a.votes))
       && b.commit == a.commit
       && (forall p, t: nat :: p in s.servers && (p, t) != (v, a.term) ==> Ack(s', p, t) == Ack(s, p, t))
       && Ack(s, v, a.term) <= Ack(s', v, a.term)
  }

  /** What the taken-over log must agree with. */
  ghost predicate TargetAgrees(s: State, v: NodeId, target: Log)
    requires v in s.servers
  {
    && Grounded(s.reigns, target)
    && TermsAtMost(target, s.servers[v].term)
    && (s.servers[v].term in s.reigns ==> target <= s.reigns[s.servers[v].term].log)
    && (forall t: nat, k: nat :: t < s.servers[v].term && Owned(s, t, k) && Open(s, t, k) ==>
          Comparable(s.reigns[t].log[..k], target))
    && s.servers[v].settled <= |s.chosen|
    && Comparable(s.chosen[..s.servers[v].settled], target)
  }

  lemma TakeExtends(s: State, s': State, v: NodeId, target: Log)
    requires TakesOver(s, s', v, target)
    ensures Extends(s, s')
  {
    forall p, t: nat | p in s.servers && t < s'.servers[p].term
      ensures Ack(s', p, t) == Ack(s, p, t)
    {
      assert p == v ==> t != s.servers[v].term;
    }
    forall p, t: nat | p in s.servers
      ensures Ack(s, p, t) <= Ack(s', p, t)
    {
      assert (p, t) != (v, s.servers[v].term) ==> Ack(s', p, t) == Ack(s, p, t);
    }
  }

  lemma TakeGrounded(s: State, s': State, v: NodeId, target: Log)
    requires TakesOver(s, s', v, target) && TargetAgrees(s, v, target)
    requires ReignsGrounded(s) && ServersGrounded(s) && BallotsGrounded(s)
    ensures ReignsGrounded(s') && ServersGrounded(s') && BallotsGrounded(s')
  {
  }

  lemma TakeBallots(s: State, s': State, v: NodeId, target: Log)
    requires TakesOver(s, s', v, target) && BallotsValid(s) && VotesRecorded(s) && ReignsValid(s)
    ensures BallotsValid(s') && VotesRecorded(s') && ReignsValid(s')
  {
    forall b | b in s'.ballots
      ensures BallotValid(s', b.0, b.1)
    {
      assert BallotValid(s, b.0, b.1);
    }
    forall t | t in s'.reigns
      ensures ReignValid(s', t)
    {
      assert ReignValid(s, t);
    }
  }

  lemma TakeRoles(s: State, s': State, v: NodeId, target: Log)
    requires TakesOver(s, s', v, target) && RolesValid(s)
    ensures RolesValid(s')
  {
    forall u | u in s'.servers
      ensures u != NOBODY && CandidateValid(s', u) && LeaderValid(s', u)
    {
      assert u != NOBODY && CandidateValid(s, u) && LeaderValid(s, u);
    }
  }

  lemma TakeServersKeep(s: State, s': State, v: NodeId, target: Log)
    requires TakesOver(s, s', v, target) && TargetAgrees(s, v, target) && Extends(s, s')
    requires AcksValid(s) && ServersKeep(s)
    ensures ServersKeep(s')
  {
    forall u, t: nat, k: nat | u in s'.servers && t < s'.servers[u].term && Ack(s', u, t) >= k && Owned(s', t, k)
      && Open(s', t, k)
      ensures s'.reigns[t].log[..k] <= s'.servers[u].log
    {
      ServerKept(s, s', u, t, k);
      if u == v {
        OverlayKeeps(s.servers[v].log, target, s.reigns[t].log[..k]);
      }
    }
  }

  lemma TakeKeeps(s: State, s': State, v: NodeId, target: Log)
    requires TakesOver(s, s', v, target) && TargetAgrees(s, v, target) && Extends(s, s')
    requires Structure(s) && Keeps(s)
    ensures Keeps(s')
  {
    TakeServersKeep(s, s', v, target);
    BallotsKeepSame(s, s');
    ReignsKeepGrow(s, s');
  }

  lemma TakeStructure(s: State, s': State, v: NodeId, target: Log)
    requires TakesOver(s, s', v, target) && TargetAgrees(s, v, target)
    requires Structure(s) && AcksValid(s')
    ensures Structure(s')
  {
    TakeGrounded(s, s', v, target);
    TakeBallots(s, s', v, target);
    TakeRoles(s, s', v, target);
  }

  // -------------------------------------------------- following the leader

  lemma SyncTakes(s: State, v: NodeId, k: nat)
    requires MaySync(s, v, k)
    ensures TakesOver(s, Sync(s, v, k), v, s.reigns[s.servers[v].term].log[..k])
  {
  }

  lemma SyncAgrees(s: State, v: NodeId, k: nat)
    requires MaySync(s, v, k) && ReignsGrounded(s) && ReignsKeep(s) && SettledHeld(s) && SettledWitnessed(s)
    ensures TargetAgrees(s, v, s.reigns[s.servers[v].term].log[..k])
  {
    var term := s.servers[v].term;
    var leader := s.reigns[term].log;
    GroundedPrefix(s.reigns, leader, leader[..k]);
    forall t: nat, j: nat | t < term && Owned(s, t, j) && Open(s, t, j)
      ensures Comparable(s.reigns[t].log[..j], leader[..k])
    {
      PrefixesComparable(s.reigns[t].log[..j], leader[..k], leader);
    }
    WitnessedWithin(s, s.servers[v].settled, term, term);
    PrefixesComparable(s.chosen[..s.servers[v].settled], leader[..k], leader);
  }

  lemma SyncAcks(s: State, v: NodeId, k: nat)
    requires MaySync(s, v, k) && AcksValid(s)
    ensures AcksValid(Sync(s, v, k))
  {
    var s', term := Sync(s, v, k), s.servers[v].term;
    var leader := s.reigns[term].log;
    forall a | a in s'.acked
      ensures a.0 in s'.servers && a.1 in s'.reigns && s'.acked[a] <= |s'.reigns[a.1].log|
      ensures a.1 <= s'.servers[a.0].term
      ensures s'.servers[a.0].term == a.1 ==> s'.reigns[a.1].log[..s'.acked[a]] <= s'.servers[a.0].log
    {
      if a == (v, term) {
        assert leader[..Ack(s, v, term)] <= s.servers[v].log;
        OverlayKeeps(s.servers[v].log, leader[..k], leader[..Ack(s, v, term)]);
        assert leader[..k] <= s'.servers[v].log;
      }
    }
  }

  lemma SyncSettles(s: State, v: NodeId, k: nat)
    requires MaySync(s, v, k) && SettledHeld(s) && TargetAgrees(s, v, s.reigns[s.servers[v].term].log[..k])
    ensures SettlesNothing(s, Sync(s, v, k))
  {
    OverlayKeeps(s.servers[v].log, s.reigns[s.servers[v].term].log[..k], s.chosen[..s.servers[v].settled]);
  }

  lemma SyncKeeps(s: State, v: NodeId, k: nat)
    requires Inv(s) && MaySync(s, v, k)
    ensures Inv(Sync(s, v, k)) && Extends(s, Sync(s, v, k))
  {
    var s', target := Sync(s, v, k), s.reigns[s.servers[v].term].log[..k];
    SyncTakes(s, v, k);
    SyncAgrees(s, v, k);
    SyncAcks(s, v, k);
    TakeExtends(s, s', v, target);
    TakeStructure(s, s', v, target);
    TakeKeeps(s, s', v, target);
    SyncSettles(s, v, k);
    SettledForward(s, s');
  }

  // ------------------------------------------------ falling back on the chosen

  lemma AdoptTakes(s: State, v: NodeId, x: nat)
    requires MayAdopt(s, v, x) && CandidateValid(s, v) && LeaderValid(s, v)
    requires s.servers[v].role == Follower
    ensures TakesOver(s, Adopt(s, v, x), v, s.chosen[..x])
  {
  }

  lemma ChosenPrefixGrounded(s: State, x: nat, t: nat)
    requires ReignsGrounded(s) && Witnessed(s, x, t)
    ensures Grounded(s.reigns, s.chosen[..x]) && TermsAtMost(s.chosen[..x], t)
  {
    if x > 0 {
      var t1: nat, k1: nat :| WitnessedBy(s, x, t, t1, k1);
      GroundedPrefix(s.reigns, s.reigns[t1].log, s.chosen[..x]);
    }
  }

  lemma AdoptAgrees(s: State, v: NodeId, x: nat)
    requires MayAdopt(s, v, x) && ReignsGrounded(s) && ReignsKeep(s) && SettledHeld(s)
    ensures TargetAgrees(s, v, s.chosen[..x])
  {
    var term := s.servers[v].term;
    ChosenPrefixGrounded(s, x, term);
    if term in s.reigns {
      WitnessedWithin(s, x, term, term);
    }
    forall t: nat, j: nat | t < term && Owned(s, t, j) && Open(s, t, j)
      ensures Comparable(s.reigns[t].log[..j], s.chosen[..x])
    {
      OpenComparable(s, t, j, x, term);
    }
    PrefixesComparable(s.chosen[..s.servers[v].settled], s.chosen[..x], s.chosen);
  }

  /** Nothing that may still be chosen contradicts what is chosen. */
  lemma OpenComparable(s: State, t: nat, k: nat, x: nat, term: nat)
    requires ReignsKeep(s) && Owned(s, t, k) && Open(s, t, k) && Witnessed(s, x, term)
    ensures Comparable(s.reigns[t].log[..k], s.chosen[..x])
  {
    if x > 0 {
      var t1: nat, k1: nat :| WitnessedBy(s, x, term, t1, k1);
      ChosenIsOpen(s, t1, k1);
      var late := if t < t1 then t1 else t;
      assert s.reigns[t1].log[..k1] <= s.reigns[late].log && s.reigns[t].log[..k] <= s.reigns[late].log;
      assert s.chosen[..x] == s.reigns[t1].log[..k1][..x];
      PrefixesComparable(s.reigns[t].log[..k], s.chosen[..x], s.reigns[late].log);
    }
  }

  lemma AdoptAcks(s: State, v: NodeId, x: nat)
    requires MayAdopt(s, v, x) && AcksValid(s)
    requires s.servers[v].term in s.reigns ==> s.chosen[..x] <= s.reigns[s.servers[v].term].log
    ensures AcksValid(Adopt(s, v, x))
  {
    var s', term := Adopt(s, v, x), s.servers[v].term;
    forall a | a in s'.acked
      ensures s'.servers[a.0].term == a.1 ==> s'.reigns[a.1].log[..s'.acked[a]] <= s'.servers[a.0].log
    {
      if a == (v, term) {
        var mine := s.reigns[term].log[..s.acked[a]];
        PrefixesComparable(mine, s.chosen[..x], s.reigns[term].log);
        OverlayKeeps(s.servers[v].log, s.chosen[..x], mine);
      }
    }
  }

  lemma AdoptSettles(s: State, v: NodeId, x: nat)
    requires MayAdopt(s, v, x) && SettledValid(s) && Extends(s, Adopt(s, v, x))
    ensures SettledValid(Adopt(s, v, x))
  {
    var s' := Adopt(s, v, x);
    OverlayKeeps(s.servers[v].log, s.chosen[..x], s.chosen[..s.servers[v].settled]);
    assert s.chosen[..x] <= s'.servers[v].log;
    forall u | u in s'.servers
      ensures Witnessed(s', s'.servers[u].settled, s'.servers[u].term)
    {
      var y := if u == v && x > s.servers[v].settled then x else s.servers[u].settled;
      WitnessedForward(s, s', y, s.servers[u].term, s.servers[u].term);
    }
  }

  lemma AdoptKeeps(s: State, v: NodeId, x: nat)
    requires Inv(s) && MayAdopt(s, v, x) && s.servers[v].role == Follower
    ensures Inv(Adopt(s, v, x)) && Extends(s, Adopt(s, v, x))
  {
    var s', target := Adopt(s, v, x), s.chosen[..x];
    assert CandidateValid(s, v) && LeaderValid(s, v);
    AdoptTakes(s, v, x);
    AdoptAgrees(s, v, x);
    AdoptAcks(s, v, x);
    TakeExtends(s, s', v, target);
    TakeStructure(s, s', v, target);
    TakeKeeps(s, s', v, target);
    AdoptSettles(s, v, x);
    ChosenForward(s, s');
  }
}
