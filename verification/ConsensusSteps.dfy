/** One lemma per protocol step: the step keeps the invariant, and history
    only grows. */
module ConsensusSteps {
  import opened RaftTypes
  import opened Consensus
  import opened ConsensusProofs

  // ------------------------------------------- steps that move one server only

  /** Server `v` changes without touching any log, and without a new vote. */
  ghost predicate MovesServer(s: State, s': State, v: NodeId) {
    && v in s.servers
    && s'.servers.Keys == s.servers.Keys
    && s'.ballots == s.ballots
    && s'.reigns == s.reigns
    && s'.acked == s.acked
    && s.chosen <= s'.chosen
    && (forall u :: u in s.servers && u != v ==> s'.servers[u] == s.servers[u])
    && var a, b := s.servers[v], s'.servers[v];
       && a.term <= b.term
       && b.log == a.log
       && (if a.term == b.term then b.vote == a.vote else b.vote == NOBODY)
       && (b.role == Follower || (b.role == a.role && b.term == a.term))
       && (b.role == Candidate ==> forall p :: p in b.votes ==> p in a.votes || MayCollect(s, v, p))
  }

  lemma MoveExtends(s: State, s': State, v: NodeId)
    requires MovesServer(s, s', v)
    ensures Extends(s, s')
  {
  }

  lemma MoveGrounded(s: State, s': State, v: NodeId)
    requires MovesServer(s, s', v) && ReignsGrounded(s) && ServersGrounded(s) && BallotsGrounded(s)
    ensures ReignsGrounded(s') && ServersGrounded(s') && BallotsGrounded(s')
  {
  }

  lemma MoveBallots(s: State, s': State, v: NodeId)
    requires MovesServer(s, s', v) && BallotsValid(s) && VotesRecorded(s)
    ensures BallotsValid(s') && VotesRecorded(s')
  {
    forall b | b in s'.ballots
      ensures BallotValid(s', b.0, b.1)
    {
      assert BallotValid(s, b.0, b.1);
    }
  }

  lemma MoveRoles(s: State, s': State, v: NodeId)
    requires MovesServer(s, s', v) && RolesValid(s)
    ensures RolesValid(s')
  {
    forall u | u in s'.servers
      ensures u != NOBODY && CandidateValid(s', u) && LeaderValid(s', u)
    {
      assert u != NOBODY && CandidateValid(s, u) && LeaderValid(s, u);
    }
  }

  lemma MoveReigns(s: State, s': State, v: NodeId)
    requires MovesServer(s, s', v) && ReignsValid(s) && AcksValid(s)
    ensures ReignsValid(s') && AcksValid(s')
  {
    forall t | t in s'.reigns
      ensures ReignValid(s', t)
    {
      assert ReignValid(s, t);
    }
  }

  lemma MoveStructure(s: State, s': State, v: NodeId)
    requires MovesServer(s, s', v) && Structure(s)
    ensures Structure(s')
  {
    MoveGrounded(s, s', v);
    MoveBallots(s, s', v);
    MoveRoles(s, s', v);
    MoveReigns(s, s', v);
  }

  lemma MoveKeeps(s: State, s': State, v: NodeId)
    requires MovesServer(s, s', v) && Structure(s) && Keeps(s)
    ensures Keeps(s')
  {
    MoveExtends(s, s', v);
    ServersKeepGrow(s, s');
    BallotsKeepSame(s, s');
    ReignsKeepGrow(s, s');
  }

  // --------------------------------------------------------- what is settled

  lemma ChosenForward(s: State, s': State)
    requires Extends(s, s') && ChosenValid(s) && s'.chosen == s.chosen && s'.chosenTerm == s.chosenTerm
    ensures ChosenValid(s')
  {
    if |s.chosen| > 0 {
      ChosenAtForward(s, s', s.chosenTerm, |s.chosen|);
      assert s'.reigns[s.chosenTerm].log[..|s.chosen|] == s.reigns[s.chosenTerm].log[..|s.chosen|];
    }
  }

  /** The step decides nothing, and no server loses what it has settled. */
  ghost predicate SettlesNothing(s: State, s': State) {
    && s'.servers.Keys == s.servers.Keys
    && s'.chosen == s.chosen
    && s'.chosenTerm == s.chosenTerm
    && SettledHeld(s')
    && forall v :: v in s.servers ==>
         && s'.servers[v].settled == s.servers[v].settled
         && (s'.servers[v].role == Leader && s'.servers[v].term == s.chosenTerm && |s.chosen| > 0 ==>
               s.servers[v].role == Leader && s.servers[v].term == s.chosenTerm
               && s'.servers[v].commit == s.servers[v].commit)
  }

  lemma SettledForward(s: State, s': State)
    requires Extends(s, s') && ChosenValid(s) && SettledValid(s) && SettlesNothing(s, s')
    ensures ChosenValid(s') && SettledValid(s')
  {
    ChosenForward(s, s');
    forall v | v in s'.servers
      ensures Witnessed(s', s'.servers[v].settled, s'.servers[v].term)
    {
      WitnessedForward(s, s', s.servers[v].settled, s.servers[v].term, s'.servers[v].term);
    }
  }

  lemma QuietMoveKeeps(s: State, s': State, v: NodeId)
    requires Inv(s) && MovesServer(s, s', v) && SettlesNothing(s, s')
    ensures Inv(s') && Extends(s, s')
  {
    MoveExtends(s, s', v);
    MoveStructure(s, s', v);
    MoveKeeps(s, s', v);
    SettledForward(s, s');
  }

  lemma BumpTermMoves(s: State, v: NodeId, t: nat)
    requires SettledHeld(s) && v in s.servers && t > s.servers[v].term
    ensures MovesServer(s, BumpTerm(s, v, t), v) && SettlesNothing(s, BumpTerm(s, v, t))
  {
  }

  lemma BumpTermKeeps(s: State, v: NodeId, t: nat)
    requires Inv(s) && v in s.servers && t > s.servers[v].term
    ensures Inv(BumpTerm(s, v, t)) && Extends(s, BumpTerm(s, v, t))
  {
    BumpTermMoves(s, v, t);
    QuietMoveKeeps(s, BumpTerm(s, v, t), v);
  }

  lemma RestartMoves(s: State, v: NodeId)
    requires SettledHeld(s) && v in s.servers
    ensures MovesServer(s, Restart(s, v), v) && SettlesNothing(s, Restart(s, v))
  {
  }

  lemma RestartKeeps(s: State, v: NodeId)
    requires Inv(s) && v in s.servers
    ensures Inv(Restart(s, v)) && Extends(s, Restart(s, v))
  {
    RestartMoves(s, v);
    QuietMoveKeeps(s, Restart(s, v), v);
  }

  lemma CollectVoteMoves(s: State, c: NodeId, p: NodeId)
    requires SettledHeld(s) && MayCollect(s, c, p)
    ensures MovesServer(s, CollectVote(s, c, p), c) && SettlesNothing(s, CollectVote(s, c, p))
  {
  }

  lemma CollectVoteKeeps(s: State, c: NodeId, p: NodeId)
    requires Inv(s) && MayCollect(s, c, p)
    ensures Inv(CollectVote(s, c, p)) && Extends(s, CollectVote(s, c, p))
  {
    CollectVoteMoves(s, c, p);
    QuietMoveKeeps(s, CollectVote(s, c, p), c);
  }

  // ------------------------------------------------------ learning and deciding

  lemma LearnMoves(s: State, v: NodeId, c: nat)
    requires SettledHeld(s) && MayLearn(s, v, c)
    ensures MovesServer(s, Learn(s, v, c), v) && SettledHeld(Learn(s, v, c))
  {
  }

  lemma LearnSettled(s: State, v: NodeId, c: nat)
    requires SettledValid(s) && MayLearn(s, v, c) && Extends(s, Learn(s, v, c))
    ensures SettledWitnessed(Learn(s, v, c)) && ChooserKnows(Learn(s, v, c))
  {
    var s' := Learn(s, v, c);
    forall u | u in s'.servers
      ensures Witnessed(s', s'.servers[u].settled, s'.servers[u].term)
    {
      var x := if u == v && c > s.servers[v].settled then c else s.servers[u].settled;
      WitnessedForward(s, s', x, s.servers[u].term, s.servers[u].term);
    }
  }

  lemma LearnKeeps(s: State, v: NodeId, c: nat)
    requires Inv(s) && MayLearn(s, v, c)
    ensures Inv(Learn(s, v, c)) && Extends(s, Learn(s, v, c))
  {
    var s' := Learn(s, v, c);
    LearnMoves(s, v, c);
    MoveExtends(s, s', v);
    MoveStructure(s, s', v);
    MoveKeeps(s, s', v);
    LearnSettled(s, v, c);
    ChosenForward(s, s');
  }

  /** Whatever two leaders get chosen, one extends the other. */
  lemma ChosenComparable(s: State, t: nat, k: nat)
    requires ReignsKeep(s) && ChosenValid(s) && ChosenAt(s, t, k)
    ensures Comparable(s.chosen, s.reigns[t].log[..k])
  {
    if |s.chosen| > 0 {
      ChosenIsOpen(s, t, k);
      ChosenIsOpen(s, s.chosenTerm, |s.chosen|);
      var late := if t < s.chosenTerm then s.chosenTerm else t;
      assert s.chosen <= s.reigns[late].log && s.reigns[t].log[..k] <= s.reigns[late].log;
    }
  }

  lemma DecideMoves(s: State, n: NodeId, k: nat)
    requires SettledHeld(s) && MayDecide(s, n, k) && LeaderValid(s, n)
    requires Comparable(s.chosen, s.servers[n].log[..k])
    ensures MovesServer(s, Decide(s, n, k), n) && SettledHeld(Decide(s, n, k))
  {
    hide ChosenAt;
    var s' := Decide(s, n, k);
    assert s.chosen <= s'.chosen && s.servers[n].log[..k] <= s'.chosen;
    forall v | v in s'.servers
      ensures s'.chosen[..s'.servers[v].settled] <= s'.servers[v].log
    {
      assert s'.chosen[..s.servers[v].settled] == s.chosen[..s.servers[v].settled];
    }
  }

  lemma DecideSettled(s: State, n: NodeId, k: nat)
    requires SettledValid(s) && ChosenValid(s) && MayDecide(s, n, k) && LeaderValid(s, n)
    requires Extends(s, Decide(s, n, k)) && s.servers[n].log[..k] <= Decide(s, n, k).chosen
    ensures ChosenValid(Decide(s, n, k))
  {
    hide Open, SettledValid, Grows;
    var s', t := Decide(s, n, k), s.servers[n].term;
    ChosenAtForward(s, s', t, k);
    if |s.chosen| > 0 {
      ChosenAtForward(s, s', s.chosenTerm, |s.chosen|);
    }
  }

  lemma DecideWitnessed(s: State, n: NodeId, k: nat)
    requires SettledValid(s) && MayDecide(s, n, k) && LeaderValid(s, n)
    requires Extends(s, Decide(s, n, k)) && s.servers[n].log[..k] <= Decide(s, n, k).chosen
    ensures SettledWitnessed(Decide(s, n, k))
  {
    hide Open, Witnessed, ChosenAt, Grows;
    var s', t := Decide(s, n, k), s.servers[n].term;
    ChosenAtForward(s, s', t, k);
    forall v | v in s'.servers
      ensures Witnessed(s', s'.servers[v].settled, s'.servers[v].term)
    {
      if v == n && s.servers[n].settled < k {
        assert s'.chosen[..k] == s.servers[n].log[..k];
        WitnessedNow(s', k, t);
      } else {
        WitnessedForward(s, s', s.servers[v].settled, s.servers[v].term, s'.servers[v].term);
      }
    }
  }

  lemma WitnessedNow(s: State, k: nat, t: nat)
    requires ChosenAt(s, t, k) && k <= |s.chosen| && s.reigns[t].log[..k] == s.chosen[..k]
    ensures Witnessed(s, k, t)
  {
    assert WitnessedBy(s, k, t, t, k);
  }

  lemma DecideChooser(s: State, n: NodeId, k: nat)
    requires RolesValid(s) && ChooserKnows(s) && ChosenValid(s) && MayDecide(s, n, k)
    ensures ChooserKnows(Decide(s, n, k))
  {
    var s' := Decide(s, n, k);
    forall v | v in s'.servers && s'.servers[v].role == Leader && s'.servers[v].term == s'.chosenTerm
      ensures s'.servers[v].commit >= |s'.chosen|
    {
      assert LeaderValid(s, v) && LeaderValid(s, n);
    }
  }

  lemma DecideKeeps(s: State, n: NodeId, k: nat)
    requires Inv(s) && MayDecide(s, n, k)
    ensures Inv(Decide(s, n, k)) && Extends(s, Decide(s, n, k))
  {
    var s' := Decide(s, n, k);
    assert LeaderValid(s, n);
    ChosenComparable(s, s.servers[n].term, k);
    DecideMoves(s, n, k);
    MoveExtends(s, s', n);
    MoveStructure(s, s', n);
    MoveKeeps(s, s', n);
    DecideSettled(s, n, k);
    DecideWitnessed(s, n, k);
    DecideChooser(s, n, k);
  }
}
