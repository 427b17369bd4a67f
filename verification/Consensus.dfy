/** Raft without compaction, persistence or a network: what a cluster may do,
    one small step at a time, with the history that its safety argument needs.

    Logs here are complete: `log[i]` is the entry at Raft index `i + 1`. The
    history records who voted for whom with which log (`ballots`), every
    leadership with the log that its leader built (`reigns`), how much of a
    leader's log each server has confirmed (`acked`), and the longest prefix
    that any leader has declared committed (`chosen`). */
module Consensus {
  import opened RaftTypes

  type Log = seq<Entry>

  datatype Server = Server(
    term: nat,
    vote: NodeId,
    role: Role,
    log: Log,
    votes: set<NodeId>,
    commit: nat,
    settled: nat)

  datatype Ballot = Ballot(candidate: NodeId, log: Log)

  datatype Reign = Reign(leader: NodeId, voters: set<NodeId>, log: Log)

  datatype State = State(
    servers: map<NodeId, Server>,
    ballots: map<(NodeId, nat), Ballot>,
    reigns: map<nat, Reign>,
    acked: map<(NodeId, nat), nat>,
    chosen: Log,
    chosenTerm: nat)

  function LastTerm(log: Log): nat {
    if |log| == 0 then 0 else log[|log| - 1].term
  }

  predicate UpToDate(candidate: Log, voter: Log) {
    LogIsUpToDate(|candidate|, LastTerm(candidate), |voter|, LastTerm(voter))
  }

  ghost predicate IsQuorum(members: set<NodeId>, q: set<NodeId>) {
    q <= members && |q| >= Majority(|members|)
  }

  function Ack(s: State, v: NodeId, t: nat): nat {
    if (v, t) in s.acked then s.acked[(v, t)] else 0
  }

  function Longer(a: Log, b: Log): Log {
    if |b| > |a| then b else a
  }

  /** What a follower's log becomes when it takes over `target`: a log that
      already contains it is left alone. */
  function Overlay(log: Log, target: Log): Log {
    if target <= log then log else target
  }

  function Max(a: nat, b: nat): nat {
    if a < b then b else a
  }

  // ---------------------------------------------------------------- steps

  function BumpTerm(s: State, v: NodeId, t: nat): State
    requires v in s.servers
  {
    s.(servers := s.servers[v := s.servers[v].(term := t, vote := NOBODY, role := Follower, votes := {})])
  }

  function StartElection(s: State, v: NodeId): State
    requires v in s.servers
  {
    var sv := s.servers[v];
    s.(servers := s.servers[v := sv.(term := sv.term + 1, vote := v, role := Candidate, votes := {v})],
       ballots := s.ballots[(v, sv.term + 1) := Ballot(v, sv.log)])
  }

  ghost predicate MayVote(s: State, v: NodeId, c: NodeId) {
    && v in s.servers
    && c != NOBODY
    && s.servers[v].vote == NOBODY
    && (c, s.servers[v].term) in s.ballots
    && s.ballots[(c, s.servers[v].term)].candidate == c
    && UpToDate(s.ballots[(c, s.servers[v].term)].log, s.servers[v].log)
  }

  function CastVote(s: State, v: NodeId, c: NodeId): State
    requires v in s.servers
  {
    var sv := s.servers[v];
    s.(servers := s.servers[v := sv.(vote := c)],
       ballots := s.ballots[(v, sv.term) := Ballot(c, sv.log)])
  }

  ghost predicate MayCollect(s: State, c: NodeId, p: NodeId) {
    && c in s.servers
    && p in s.servers
    && s.servers[c].role == Candidate
    && (p, s.servers[c].term) in s.ballots
    && s.ballots[(p, s.servers[c].term)].candidate == c
  }

  function CollectVote(s: State, c: NodeId, p: NodeId): State
    requires c in s.servers
  {
    s.(servers := s.servers[c := s.servers[c].(votes := s.servers[c].votes + {p})])
  }

  ghost predicate MayWin(s: State, c: NodeId) {
    && c in s.servers
    && s.servers[c].role == Candidate
    && IsQuorum(s.servers.Keys, s.servers[c].votes)
  }

  function Win(s: State, c: NodeId): State
    requires c in s.servers
  {
    var sc := s.servers[c];
    s.(servers := s.servers[c := sc.(role := Leader, votes := {})],
       reigns := s.reigns[sc.term := Reign(c, sc.votes, sc.log)],
       acked := s.acked[(c, sc.term) := |sc.log|])
  }

  ghost predicate MayAppend(s: State, n: NodeId, e: Entry) {
    && n in s.servers
    && s.servers[n].role == Leader
    && s.servers[n].term in s.reigns
    && e.term == s.servers[n].term
    && e.index == |s.servers[n].log| + 1
  }

  function Append(s: State, n: NodeId, e: Entry): State
    requires n in s.servers && s.servers[n].term in s.reigns
  {
    var sn := s.servers[n];
    var log := sn.log + [e];
    s.(servers := s.servers[n := sn.(log := log)],
       reigns := s.reigns[sn.term := s.reigns[sn.term].(log := log)],
       acked := s.acked[(n, sn.term) := |log|])
  }

  ghost predicate MaySync(s: State, v: NodeId, k: nat) {
    && v in s.servers
    && s.servers[v].term in s.reigns
    && s.reigns[s.servers[v].term].leader != v
    && k <= |s.reigns[s.servers[v].term].log|
  }

  function Sync(s: State, v: NodeId, k: nat): State
    requires v in s.servers && s.servers[v].term in s.reigns
    requires k <= |s.reigns[s.servers[v].term].log|
  {
    var sv := s.servers[v];
    s.(servers := s.servers[v := sv.(role := Follower, log := Overlay(sv.log, s.reigns[sv.term].log[..k]))],
       acked := s.acked[(v, sv.term) := Max(Ack(s, v, sv.term), k)])
  }

  /** A quorum has confirmed the first `k` entries of term `t`'s leader, and
      the last of them was created in that term. */
  ghost predicate ChosenAt(s: State, t: nat, k: nat) {
    && Owned(s, t, k)
    && exists q :: IsQuorum(s.servers.Keys, q) && Confirmed(s, t, k, q)
  }

  ghost predicate Confirmed(s: State, t: nat, k: nat, q: set<NodeId>) {
    forall v :: v in q ==> Ack(s, v, t) >= k
  }

  /** The first `x` chosen entries were chosen by a leader of a term no later than `t`. */
  ghost predicate Witnessed(s: State, x: nat, t: nat) {
    && x <= |s.chosen|
    && (x == 0 || exists t1, k1 :: WitnessedBy(s, x, t, t1, k1))
  }

  ghost predicate WitnessedBy(s: State, x: nat, t: nat, t1: nat, k1: nat) {
    && t1 <= t
    && ChosenAt(s, t1, k1)
    && x <= k1
    && x <= |s.chosen|
    && s.reigns[t1].log[..x] == s.chosen[..x]
  }

  ghost predicate MayLearn(s: State, v: NodeId, c: nat) {
    && v in s.servers
    && Witnessed(s, c, s.servers[v].term)
    && s.chosen[..c] <= s.servers[v].log
  }

  function Learn(s: State, v: NodeId, c: nat): State
    requires v in s.servers
  {
    var sv := s.servers[v];
    s.(servers := s.servers[v := sv.(commit := Max(sv.commit, c), settled := Max(sv.settled, c))])
  }

  ghost predicate MayDecide(s: State, n: NodeId, k: nat) {
    && n in s.servers
    && s.servers[n].role == Leader
    && s.servers[n].commit < k <= |s.servers[n].log|
    && ChosenAt(s, s.servers[n].term, k)
  }

  function Decide(s: State, n: NodeId, k: nat): State
    requires n in s.servers && k <= |s.servers[n].log|
  {
    var sn := s.servers[n];
    s.(servers := s.servers[n := sn.(commit := k, settled := Max(sn.settled, k))],
       chosen := Longer(s.chosen, sn.log[..k]),
       chosenTerm := if k > |s.chosen| then sn.term else s.chosenTerm)
  }

  ghost predicate MayAdopt(s: State, v: NodeId, x: nat) {
    && v in s.servers
    && Witnessed(s, x, s.servers[v].term)
  }

  function Adopt(s: State, v: NodeId, x: nat): State
    requires v in s.servers && x <= |s.chosen|
  {
    var sv := s.servers[v];
    s.(servers := s.servers[v := sv.(log := Overlay(sv.log, s.chosen[..x]), settled := Max(sv.settled, x))])
  }

  function Restart(s: State, v: NodeId): State
    requires v in s.servers
  {
    s.(servers := s.servers[v := s.servers[v].(role := Follower, votes := {}, commit := 0)])
  }

  // ------------------------------------------------------------ invariants

  /** Every prefix of `log` that ends in an entry of term `t` is a prefix of
      the log that the leader of term `t` built. */
  ghost predicate Grounded(reigns: map<nat, Reign>, log: Log) {
    forall i :: 0 <= i < |log| ==>
      && log[i].index == i + 1
      && log[i].term in reigns
      && log[..i + 1] <= reigns[log[i].term].log
  }

  predicate TermsAtMost(log: Log, t: nat) {
    forall i :: 0 <= i < |log| ==> log[i].term <= t
  }

  ghost predicate ReignsGrounded(s: State) {
    forall t :: t in s.reigns ==>
      t > 0 && Grounded(s.reigns, s.reigns[t].log) && TermsAtMost(s.reigns[t].log, t)
  }

  ghost predicate ServersGrounded(s: State) {
    forall v :: v in s.servers ==>
      && Grounded(s.reigns, s.servers[v].log)
      && TermsAtMost(s.servers[v].log, s.servers[v].term)
  }

  ghost predicate BallotsGrounded(s: State) {
    forall b :: b in s.ballots ==>
      b.1 > 0 && Grounded(s.reigns, s.ballots[b].log) && TermsAtMost(s.ballots[b].log, b.1 - 1)
  }

  ghost predicate BallotsValid(s: State) {
    forall b :: b in s.ballots ==> BallotValid(s, b.0, b.1)
  }

  ghost predicate BallotValid(s: State, v: NodeId, t: nat)
    requires (v, t) in s.ballots
  {
    var c := s.ballots[(v, t)].candidate;
    && v in s.servers
    && t <= s.servers[v].term
    && c != NOBODY
    && (s.servers[v].term == t ==> s.servers[v].vote == c)
    && (c, t) in s.ballots
    && s.ballots[(c, t)].candidate == c
    && UpToDate(s.ballots[(c, t)].log, s.ballots[(v, t)].log)
  }

  ghost predicate VotesRecorded(s: State) {
    forall v :: v in s.servers && s.servers[v].vote != NOBODY ==>
      && (v, s.servers[v].term) in s.ballots
      && s.ballots[(v, s.servers[v].term)].candidate == s.servers[v].vote
  }

  ghost predicate CandidateValid(s: State, v: NodeId)
    requires v in s.servers
  {
    var sv := s.servers[v];
    sv.role == Candidate ==>
      && (v, sv.term) in s.ballots
      && s.ballots[(v, sv.term)] == Ballot(v, sv.log)
      && (sv.term in s.reigns ==> s.reigns[sv.term].leader != v)
      && forall p :: p in sv.votes ==>
           p in s.servers && (p, sv.term) in s.ballots && s.ballots[(p, sv.term)].candidate == v
  }

  ghost predicate LeaderValid(s: State, v: NodeId)
    requires v in s.servers
  {
    var sv := s.servers[v];
    sv.role == Leader ==>
      && sv.term in s.reigns
      && s.reigns[sv.term].leader == v
      && s.reigns[sv.term].log == sv.log
  }

  ghost predicate RolesValid(s: State) {
    forall v :: v in s.servers ==> v != NOBODY && CandidateValid(s, v) && LeaderValid(s, v)
  }

  ghost predicate ReignValid(s: State, t: nat)
    requires t in s.reigns
  {
    var r := s.reigns[t];
    && IsQuorum(s.servers.Keys, r.voters)
    && (r.leader, t) in s.ballots
    && s.ballots[(r.leader, t)].candidate == r.leader
    && forall q :: q in r.voters ==> (q, t) in s.ballots && s.ballots[(q, t)].candidate == r.leader
  }

  ghost predicate ReignsValid(s: State) {
    forall t :: t in s.reigns ==> ReignValid(s, t)
  }

  ghost predicate AcksValid(s: State) {
    forall a :: a in s.acked ==>
      && a.0 in s.servers
      && a.1 in s.reigns
      && s.acked[a] <= |s.reigns[a.1].log|
      && a.1 <= s.servers[a.0].term
      && (s.servers[a.0].term == a.1 ==> s.reigns[a.1].log[..s.acked[a]] <= s.servers[a.0].log)
  }

  ghost predicate Owned(s: State, t: nat, k: nat) {
    t in s.reigns && 1 <= k <= |s.reigns[t].log| && s.reigns[t].log[k - 1].term == t
  }

  /** The first `k` entries of term `t`'s leader have been chosen, or may
      still be: some quorum has no member that left term `t` without
      confirming them. */
  ghost predicate Open(s: State, t: nat, k: nat) {
    exists q :: IsQuorum(s.servers.Keys, q) && Unrefused(s, t, k, q)
  }

  ghost predicate Unrefused(s: State, t: nat, k: nat, q: set<NodeId>)
    requires q <= s.servers.Keys
  {
    forall v :: v in q && s.servers[v].term > t ==> Ack(s, v, t) >= k
  }

  ghost predicate ServersKeep(s: State) {
    forall v, t: nat, k: nat :: v in s.servers && t < s.servers[v].term && Ack(s, v, t) >= k && Owned(s, t, k)
      && Open(s, t, k)
      ==> s.reigns[t].log[..k] <= s.servers[v].log
  }

  ghost predicate BallotsKeep(s: State) {
    forall b, t: nat, k: nat :: b in s.ballots && t < b.1 && Ack(s, b.0, t) >= k && Owned(s, t, k) && Open(s, t, k)
      ==> s.reigns[t].log[..k] <= s.ballots[b].log
  }

  /** Leader completeness: a later leader's log contains everything an earlier
      leader has committed or may still commit. */
  ghost predicate ReignsKeep(s: State) {
    forall t', t: nat, k: nat :: t' in s.reigns && t < t' && Owned(s, t, k) && Open(s, t, k)
      ==> s.reigns[t].log[..k] <= s.reigns[t'].log
  }

  ghost predicate ChosenValid(s: State) {
    |s.chosen| == 0 ||
    (ChosenAt(s, s.chosenTerm, |s.chosen|) && s.reigns[s.chosenTerm].log[..|s.chosen|] == s.chosen)
  }

  /** Every server's log starts with what it has settled. */
  ghost predicate SettledHeld(s: State) {
    forall v :: v in s.servers ==>
      && s.servers[v].commit <= s.servers[v].settled <= |s.chosen|
      && s.chosen[..s.servers[v].settled] <= s.servers[v].log
  }

  ghost predicate SettledWitnessed(s: State) {
    forall v :: v in s.servers ==> Witnessed(s, s.servers[v].settled, s.servers[v].term)
  }

  /** The leader of the term that chose the longest prefix knows it. */
  ghost predicate ChooserKnows(s: State) {
    forall v :: v in s.servers && s.servers[v].role == Leader && s.servers[v].term == s.chosenTerm ==>
      s.servers[v].commit >= |s.chosen|
  }

  ghost predicate SettledValid(s: State) {
    SettledHeld(s) && SettledWitnessed(s) && ChooserKnows(s)
  }

  ghost predicate Structure(s: State) {
    && ReignsGrounded(s)
    && ServersGrounded(s)
    && BallotsGrounded(s)
    && BallotsValid(s)
    && VotesRecorded(s)
    && RolesValid(s)
    && ReignsValid(s)
    && AcksValid(s)
  }

  ghost predicate Keeps(s: State) {
    ServersKeep(s) && BallotsKeep(s) && ReignsKeep(s)
  }

  ghost predicate Inv(s: State) {
    Structure(s) && Keeps(s) && ChosenValid(s) && SettledValid(s)
  }
}
