/** Elections keep the protocol invariant: standing, voting and winning. */
module ConsensusElections {
  import opened RaftTypes
  import opened Consensus
  import opened ConsensusProofs
  import opened ConsensusSteps

  // ---------------------------------------------------------- casting a ballot

  /** Server `v` casts its first ballot of the term it ends up in. */
  ghost predicate AddsBallot(s: State, s': State, v: NodeId, c: NodeId) {
    && v in s.servers
    && c != NOBODY
    && s'.servers.Keys == s.servers.Keys
    && s'.reigns == s.reigns
    && s'.acked == s.acked
    && (forall u :: u in s.servers && u != v ==> s'.servers[u] == s.servers[u])
    && var a, b := s.servers[v], s'.servers[v];
       && s'.ballots == s.ballots[(v, b.term) := Ballot(c, a.log)]
       && (v, b.term) !in s.ballots
       && a.term <= b.term
       && b.term > 0
       && TermsAtMost(a.log, b.term - 1)
       && b.vote == c
       && b.log == a.log
       && (c, b.term) in s'.ballots
       && s'.ballots[(c, b.term)].candidate == c
       && UpToDate(s'.ballots[(c, b.term)].log, a.log)
       && (if b.role == Candidate then b.votes <= {v} && c == v else b.role == a.role && b.term == a.term)
  }

  lemma CastExtends(s: State, s': State, v: NodeId, c: NodeId)
    requires AddsBallot(s, s', v, c) && s'.chosen == s.chosen
    ensures Extends(s, s')
  {
  }

  lemma CastGrounded(s: State, s': State, v: NodeId, c: NodeId)
    requires AddsBallot(s, s', v, c) && ReignsGrounded(s) && ServersGrounded(s) && BallotsGrounded(s)
    ensures ReignsGrounded(s') && ServersGrounded(s') && BallotsGrounded(s')
  {
  }

  lemma CastBallots(s: State, s': State, v: NodeId, c: NodeId)
    requires AddsBallot(s, s', v, c) && BallotsValid(s) && VotesRecorded(s)
    ensures BallotsValid(s') && VotesRecorded(s')
  {
    var cast := (v, s'.servers[v].term);
    forall b | b in s'.ballots
      ensures BallotValid(s', b.0, b.1)
    {
      if b != cast {
        assert BallotValid(s, b.0, b.1);
      }
    }
  }

  lemma CastRoles(s: State, s': State, v: NodeId, c: NodeId)
    requires AddsBallot(s, s', v, c) && RolesValid(s) && ReignsValid(s)
    ensures RolesValid(s')
  {
    forall u | u in s'.servers
      ensures u != NOBODY && CandidateValid(s', u) && LeaderValid(s', u)
    {
      assert u != NOBODY && CandidateValid(s, u) && LeaderValid(s, u);
      if s'.servers[u].term in s.reigns {
        assert ReignValid(s, s'.servers[u].term);
      }
    }
  }

  lemma CastReigns(s: State, s': State, v: NodeId, c: NodeId)
    requires AddsBallot(s, s', v, c) && ReignsValid(s) && AcksValid(s)
    ensures ReignsValid(s') && AcksValid(s')
  {
    hide IsQuorum;
    forall t | t in s'.reigns
      ensures ReignValid(s', t)
    {
      assert ReignValid(s, t);
    }
  }

  lemma CastKeeps(s: State, s': State, v: NodeId, c: NodeId)
    requires AddsBallot(s, s', v, c) && Extends(s, s') && Structure(s) && Keeps(s)
    ensures Keeps(s')
  {
    ServersKeepGrow(s, s');
    BallotsKeepNew(s, s', v);
    ReignsKeepGrow(s, s');
  }

  lemma CastInv(s: State, s': State, v: NodeId, c: NodeId)
    requires Inv(s) && AddsBallot(s, s', v, c) && SettlesNothing(s, s')
    ensures Inv(s') && Extends(s, s')
  {
    CastExtends(s, s', v, c);
    CastGrounded(s, s', v, c);
    CastBallots(s, s', v, c);
    CastRoles(s, s', v, c);
    CastReigns(s, s', v, c);
    CastKeeps(s, s', v, c);
    SettledForward(s, s');
  }

  lemma NotYetVoted(s: State, v: NodeId, t: nat)
    requires BallotsValid(s) && v in s.servers
    requires t > s.servers[v].term || (t == s.servers[v].term && s.servers[v].vote == NOBODY)
    ensures (v, t) !in s.ballots
  {
    assert (v, t) in s.ballots ==> BallotValid(s, v, t);
  }

  lemma StartElectionCasts(s: State, v: NodeId)
    requires SettledHeld(s) && ServersGrounded(s) && v in s.servers && v != NOBODY
    requires (v, s.servers[v].term + 1) !in s.ballots
    ensures AddsBallot(s, StartElection(s, v), v, v) && SettlesNothing(s, StartElection(s, v))
  {
  }

  lemma StartElectionKeeps(s: State, v: NodeId)
    requires Inv(s) && v in s.servers
    ensures Inv(StartElection(s, v)) && Extends(s, StartElection(s, v))
  {
    NotYetVoted(s, v, s.servers[v].term + 1);
    StartElectionCasts(s, v);
    CastInv(s, StartElection(s, v), v, v);
  }

  /** A voter that finds the candidate's log up to date has no entry of the
      term it votes in. */
  lemma VoterIsBehind(s: State, log: Log, voter: Log, t: nat)
    requires ReignsGrounded(s) && Grounded(s.reigns, voter) && TermsAtMost(log, t) && UpToDate(log, voter)
    ensures TermsAtMost(voter, t)
  {
    forall i | 0 <= i < |voter|
      ensures voter[i].term <= t
    {
      GroundedTerms(s, voter, i, |voter| - 1);
    }
  }

  lemma CastVoteCasts(s: State, v: NodeId, c: NodeId)
    requires SettledHeld(s) && MayVote(s, v, c) && CandidateValid(s, v)
    requires (v, s.servers[v].term) !in s.ballots
    requires s.servers[v].term > 0 && TermsAtMost(s.servers[v].log, s.servers[v].term - 1)
    ensures AddsBallot(s, CastVote(s, v, c), v, c) && SettlesNothing(s, CastVote(s, v, c))
  {
  }

  lemma CastVoteKeeps(s: State, v: NodeId, c: NodeId)
    requires Inv(s) && MayVote(s, v, c)
    ensures Inv(CastVote(s, v, c)) && Extends(s, CastVote(s, v, c))
  {
    var t := s.servers[v].term;
    VoterIsBehind(s, s.ballots[(c, t)].log, s.servers[v].log, t - 1);
    NotYetVoted(s, v, t);
    CastVoteCasts(s, v, c);
    CastInv(s, CastVote(s, v, c), v, c);
  }

  // ------------------------------------------------------------------- winning

  /** Election safety: a term in which a candidate wins had no leader yet. */
  lemma WinnerIsFirst(s: State, c: NodeId)
    requires Structure(s) && MayWin(s, c)
    ensures s.servers[c].term !in s.reigns
  {
    var t := s.servers[c].term;
    if t in s.reigns {
      assert ReignValid(s, t) && CandidateValid(s, c);
      var v := QuorumsMeet(s.servers.Keys, s.servers[c].votes, s.reigns[t].voters);
      assert false;
    }
  }

  lemma WinExtends(s: State, c: NodeId)
    requires AcksValid(s) && MayWin(s, c) && s.servers[c].term !in s.reigns
    ensures Extends(s, Win(s, c))
  {
    hide IsQuorum;
    var s', t := Win(s, c), s.servers[c].term;
    assert (c, t) !in s.acked;
    assert ReignsExtend(s.reigns, s'.reigns);
  }

  lemma WinGrounded(s: State, c: NodeId)
    requires ReignsGrounded(s) && ServersGrounded(s) && BallotsGrounded(s) && MayWin(s, c)
    requires s.servers[c].term !in s.reigns && CandidateValid(s, c)
    ensures ReignsGrounded(Win(s, c)) && ServersGrounded(Win(s, c)) && BallotsGrounded(Win(s, c))
  {
    var s' := Win(s, c);
    assert ReignsExtend(s.reigns, s'.reigns);
    forall t | t in s'.reigns
      ensures t > 0 && Grounded(s'.reigns, s'.reigns[t].log) && TermsAtMost(s'.reigns[t].log, t)
    {
      GroundedExtend(s.reigns, s'.reigns, s'.reigns[t].log);
    }
    forall v | v in s'.servers
      ensures Grounded(s'.reigns, s'.servers[v].log)
    {
      GroundedExtend(s.reigns, s'.reigns, s'.servers[v].log);
    }
    forall b | b in s'.ballots
      ensures Grounded(s'.reigns, s'.ballots[b].log)
    {
      GroundedExtend(s.reigns, s'.reigns, s'.ballots[b].log);
    }
  }

  lemma WinBallots(s: State, c: NodeId)
    requires BallotsValid(s) && VotesRecorded(s) && MayWin(s, c)
    ensures BallotsValid(Win(s, c)) && VotesRecorded(Win(s, c))
  {
    var s' := Win(s, c);
    forall b | b in s'.ballots
      ensures BallotValid(s', b.0, b.1)
    {
      assert BallotValid(s, b.0, b.1);
    }
  }

  lemma WinRoles(s: State, c: NodeId)
    requires RolesValid(s) && MayWin(s, c) && s.servers[c].term !in s.reigns
    ensures RolesValid(Win(s, c))
  {
    var s' := Win(s, c);
    forall u | u in s'.servers
      ensures u != NOBODY && CandidateValid(s', u) && LeaderValid(s', u)
    {
      assert u != NOBODY && CandidateValid(s, u) && LeaderValid(s, u);
    }
  }

  lemma WinReigns(s: State, c: NodeId)
    requires ReignsValid(s) && MayWin(s, c) && CandidateValid(s, c) && s.servers[c].term !in s.reigns
    ensures ReignsValid(Win(s, c))
  {
    var s' := Win(s, c);
    forall t | t in s'.reigns
      ensures ReignValid(s', t)
    {
      assert t in s.reigns ==> ReignValid(s, t);
    }
  }

  lemma WinAcks(s: State, c: NodeId)
    requires AcksValid(s) && MayWin(s, c) && s.servers[c].term !in s.reigns
    ensures AcksValid(Win(s, c))
  {
    hide IsQuorum;
  }

  /** A winner has no entry of its own term yet. */
  lemma WinnerHasNone(s: State, c: NodeId)
    requires Structure(s) && MayWin(s, c)
    ensures c in s.servers && s.servers[c].term > 0 && TermsAtMost(s.servers[c].log, s.servers[c].term - 1)
  {
    assert ServersGrounded(s) && CandidateValid(s, c);
  }

  lemma WinReignsKeep(s: State, c: NodeId)
    requires Structure(s) && Keeps(s) && MayWin(s, c) && s.servers[c].term !in s.reigns && Extends(s, Win(s, c))
    ensures ReignsKeep(Win(s, c))
  {
    hide Open, MayWin, Extends, ReignsValid, BallotsValid, AcksValid, ReignsGrounded, ServersGrounded, BallotsGrounded,
         VotesRecorded, RolesValid, ServersKeep, BallotsKeep;
    WinnerHasNone(s, c);
    var s', term := Win(s, c), s.servers[c].term;
    forall t', t: nat, k: nat | t' in s'.reigns && t < t' && Owned(s', t, k) && Open(s', t, k)
      ensures s'.reigns[t].log[..k] <= s'.reigns[t'].log
    {
      assert t != term;
      if t' == term {
        PromiseBack(s, s', t, k);
        WinnerKeeps(s, c, t, k);
      } else {
        ReignKept(s, s', t, k, t');
      }
    }
  }

  lemma WinSettles(s: State, c: NodeId)
    requires SettledHeld(s) && ChosenValid(s) && MayWin(s, c) && s.servers[c].term !in s.reigns
    ensures SettlesNothing(s, Win(s, c))
  {
  }

  lemma WinStructure(s: State, c: NodeId)
    requires Structure(s) && MayWin(s, c) && s.servers[c].term !in s.reigns
    ensures Structure(Win(s, c))
  {
    assert CandidateValid(s, c);
    WinGrounded(s, c);
    WinBallots(s, c);
    WinRoles(s, c);
    WinReigns(s, c);
    WinAcks(s, c);
  }

  lemma WinLogs(s: State, c: NodeId)
    requires c in s.servers
    ensures Win(s, c).ballots == s.ballots
    ensures forall v :: v in s.servers ==> s.servers[v].log <= Win(s, c).servers[v].log
  {
  }

  lemma WinKeeps(s: State, c: NodeId)
    requires Inv(s) && MayWin(s, c)
    ensures Inv(Win(s, c)) && Extends(s, Win(s, c))
  {
    var s' := Win(s, c);
    WinnerIsFirst(s, c);
    WinExtends(s, c);
    WinStructure(s, c);
    WinLogs(s, c);
    ServersKeepGrow(s, s');
    BallotsKeepSame(s, s');
    WinReignsKeep(s, c);
    WinSettles(s, c);
    SettledForward(s, s');
  }
}
