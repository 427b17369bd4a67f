/** The read barrier: what a leader may conclude when a quorum has answered
    the confirmation round that it started. */
module RaftReads {
  import opened Options
  import opened RaftTypes
  import opened RaftMessages
  import opened RaftLog
  import opened RaftHandlers
  import opened RaftCluster
  import opened RaftRefinement
  import opened RaftTornSim
  import opened RaftSafety
  import opened RaftRuns
  import C = Consensus
  import P = ConsensusProofs

  // ------------------------------------------------------- barriers in a run

  /** The read barrier that a message belongs to; zero if to none. */
  function Tag(m: Message): nat {
    if m.AppendRequest? || m.AppendReply? then m.read else 0
  }

  /** Whoever has acknowledged the barrier was in no later term when it began. */
  ghost predicate BarrierRel(c: Cluster, r: Read) {
    && r.node in c.nodes
    && r.start.Keys == c.nodes.Keys
    && (forall u :: u in c.nodes ==> r.start[u].currentTerm <= c.nodes[u].currentTerm)
    && (forall p :: p in r.acks ==> p in c.nodes && p != r.node && r.start[p].currentTerm <= r.term)
  }

  /** A reply carries a term no earlier than its sender's when the barrier began. */
  ghost predicate TagRel(c: Cluster, m: Message) {
    Tag(m) != 0 ==>
      && m.read in c.barriers
      && (m.AppendReply? && m.src in c.barriers[m.read].start ==>
          c.barriers[m.read].start[m.src].currentTerm <= m.appended.term)
  }

  ghost predicate BarriersRel(c: Cluster) {
    && 0 !in c.barriers
    && (forall k :: k in c.barriers ==> BarrierRel(c, c.barriers[k]))
    && (forall m :: m in c.messages ==> TagRel(c, m))
  }

  /** Nothing about a barrier changes but its acknowledgements. */
  predicate SameBarrier(r: Read, r': Read) {
    r' == r.(acks := r'.acks)
  }

  /** Apart from a confirmation round and the replies to it, no message is tagged. */
  lemma Untagged(c: Cluster, config: Config, e: Event, m: Message)
    requires Enabled(c, e) && !e.BeginRead? && !e.DeliverAppend? && m in Act(c, config, e).sent
    ensures Tag(m) == 0
  {
    hide AdvanceCommit, Recognize, SliceFrom, TermAt, HandleRequestVote, HandleAppendEntries, OnAppendReply,
         CreateSnapshot, HandleInstallSnapshot, NewNode, Saved, LastIndex, LastTerm;
  }

  lemma TermsRise(c: Cluster, c': Cluster, h: C.State, h': C.State, u: NodeId)
    requires u in c.nodes && P.Grows(h, h')
    requires Rel(c, h) && Rel(c', h')
    ensures c'.nodes.Keys == c.nodes.Keys && c.nodes[u].currentTerm <= c'.nodes[u].currentTerm
  {
    hide C.Inv, MessageRel;
  }

  lemma ReplyTerm(n: Node, d: Disk, args: AppendEntriesArgs, saveTerm: bool, saveLog: bool)
    requires ValidNode(n)
    ensures var (n', _, reply) := HandleAppendEntries(n, d, args, saveTerm, saveLog); n.currentTerm <= reply.term
  {
    hide AppendAfter, Matching, TermAt;
  }

  lemma AckTerm(n: Node, d: Disk, peer: NodeId, args: AppendEntriesArgs, reply: AppendEntriesReply, save: bool)
    requires ValidNode(n)
    ensures var (_, _, ack) := OnAppendReply(n, d, peer, args, reply, save); ack ==> reply.term <= args.term
  {
    hide AdvanceCommit, BackedOff, Matched;
  }

  /** An event changes at most the acknowledgements of a barrier, and by one
      peer whose term has not moved past the barrier's. */
  lemma BarrierStep(c: Cluster, config: Config, e: Event, c': Cluster, k: nat)
    requires Next(c, config, e, c') && k in c.barriers && BarriersRel(c)
    ensures k in c'.barriers && SameBarrier(c.barriers[k], c'.barriers[k])
    ensures forall p :: p in c'.barriers[k].acks && p !in c.barriers[k].acks ==>
      e.DeliverAppendReply? && p == e.message.src
      && (p in c.barriers[k].start ==> c.barriers[k].start[p].currentTerm <= c.barriers[k].term)
        && c.barriers[k].node == e.message.dst
  {
    hide Act, BarrierRel;
    if e.DeliverAppendReply? {
      var m := e.message;
      AckTerm(c.nodes[m.dst], c.disks[m.dst], m.src, m.append, m.appended, e.save);
      assert TagRel(c, m);
    }
  }

  lemma BarrierKept(c: Cluster, config: Config, e: Event, c': Cluster, h: C.State, h': C.State, k: nat)
    requires Next(c, config, e, c') && k in c.barriers && BarriersRel(c) && P.Grows(h, h')
    requires Rel(c, h) && Rel(c', h')
    ensures k in c'.barriers && BarrierRel(c', c'.barriers[k])
  {
    hide Rel, P.Grows, Next, BarriersRel;
    BarrierStep(c, config, e, c', k);
    BarrierOf(c, k);
    var r, r' := c.barriers[k], c'.barriers[k];
    TermsRise(c, c', h, h', r.node);
    forall u | u in c.nodes
      ensures c.nodes[u].currentTerm <= c'.nodes[u].currentTerm
    {
      TermsRise(c, c', h, h', u);
    }
    if exists p :: p in r'.acks && p !in r.acks {
      AckSource(c, config, e, c', h);
    }
  }

  lemma BarrierOf(c: Cluster, k: nat)
    requires BarriersRel(c) && k in c.barriers
    ensures BarrierRel(c, c.barriers[k])
  {
  }

  lemma AckSource(c: Cluster, config: Config, e: Event, c': Cluster, h: C.State)
    requires e.DeliverAppendReply? && Next(c, config, e, c')
    requires Rel(c, h)
    ensures e.message.src in c.nodes && e.message.src != e.message.dst
  {
    hide C.Inv, NodeRel;
    RelatedMessage(c, h, e.message);
  }

  lemma NewTag(c: Cluster, config: Config, e: Event, c': Cluster, m: Message)
    requires Next(c, config, e, c') && BarriersRel(c) && m in Act(c, config, e).sent
    ensures TagRel(c', m)
  {
    hide HandleAppendEntries, Act;
    if e.BeginRead? {
      BeginTags(c, config, e, m);
    } else if e.DeliverAppend? {
      AppendTags(c, config, e, m);
      assert TagRel(c, e.message);
    } else {
      Untagged(c, config, e, m);
    }
  }

  lemma BeginTags(c: Cluster, config: Config, e: Event, m: Message)
    requires Enabled(c, e) && e.BeginRead? && m in Act(c, config, e).sent
    ensures m.AppendRequest? && m.read == e.read
  {
    hide SliceFrom, TermAt;
  }

  lemma AppendTags(c: Cluster, config: Config, e: Event, m: Message)
    requires Enabled(c, e) && e.DeliverAppend? && m in Act(c, config, e).sent && BarriersRel(c)
    ensures m.AppendReply? && m.read == e.message.read && m.src == e.message.dst
    ensures c.nodes[m.src].currentTerm <= m.appended.term
  {
    hide HandleAppendEntries;
    ReplyTerm(c.nodes[e.message.dst], c.disks[e.message.dst], e.message.append, e.saveTerm, e.saveLog);
  }

  lemma TagKept(c: Cluster, config: Config, e: Event, c': Cluster, m: Message)
    requires Next(c, config, e, c') && BarriersRel(c) && m in c.messages
    ensures TagRel(c', m)
  {
    hide Next, BarrierRel;
    assert TagRel(c, m);
    if Tag(m) != 0 {
      BarrierStep(c, config, e, c', m.read);
    }
  }

  lemma NewBarrier(c: Cluster, config: Config, e: Event, c': Cluster, k: nat)
    requires Next(c, config, e, c') && k in c'.barriers && k !in c.barriers
    ensures e == BeginRead(c'.barriers[k].node, k) && k > 0
    ensures c'.barriers[k].node in c.nodes && c'.barriers[k].acks == {}
    ensures c'.barriers[k].start == c.nodes
  {
    hide Act, OnAppendReply;
  }

  lemma BarrierBegun(c: Cluster, config: Config, e: Event, c': Cluster, h: C.State, h': C.State, k: nat)
    requires Next(c, config, e, c') && k in c'.barriers && k !in c.barriers && P.Grows(h, h')
    requires Rel(c, h) && Rel(c', h')
    ensures k != 0 && BarrierRel(c', c'.barriers[k])
  {
    hide Rel, P.Grows, Next;
    NewBarrier(c, config, e, c', k);
    forall u | u in c.nodes
      ensures c'.nodes.Keys == c.nodes.Keys && c.nodes[u].currentTerm <= c'.nodes[u].currentTerm
    {
      TermsRise(c, c', h, h', u);
    }
  }

  lemma BarriersKept(c: Cluster, config: Config, e: Event, c': Cluster, h: C.State, h': C.State)
    requires Next(c, config, e, c') && BarriersRel(c) && P.Grows(h, h')
    requires Rel(c, h) && Rel(c', h')
    ensures BarriersRel(c')
  {
    hide Rel, P.Grows, TagRel, Next, BarrierRel;
    forall k | k in c'.barriers
      ensures k != 0 && BarrierRel(c', c'.barriers[k])
    {
      if k in c.barriers {
        BarrierKept(c, config, e, c', h, h', k);
      } else {
        BarrierBegun(c, config, e, c', h, h', k);
      }
    }
    forall m | m in c'.messages
      ensures TagRel(c', m)
    {
      MessageOrigin(c, config, e, c', m);
      if m in c.messages {
        TagKept(c, config, e, c', m);
      } else {
        NewTag(c, config, e, c', m);
      }
    }
  }

  lemma MessageOrigin(c: Cluster, config: Config, e: Event, c': Cluster, m: Message)
    requires Next(c, config, e, c') && m in c'.messages
    ensures Enabled(c, e) && (m in c.messages || m in Act(c, config, e).sent)
  {
    hide Act;
  }

  lemma {:induction false} BarriersInRun(config: Config, run: seq<Cluster>, events: seq<Event>, hs: seq<C.State>,
                                         i: nat)
    requires IsRun(config, run, events) && Traced(run, hs) && i < |run|
    ensures BarriersRel(run[i])
  {
    hide Rel, P.Grows, Next;
    if i > 0 {
      BarriersInRun(config, run, events, hs, i - 1);
      BarriersKept(run[i - 1], config, events[i - 1], run[i], hs[i - 1], hs[i]);
    }
  }

  lemma {:induction false} BarrierInRun(config: Config, run: seq<Cluster>, events: seq<Event>, hs: seq<C.State>, i: nat,
                                        j: nat, k: nat)
    requires IsRun(config, run, events) && Traced(run, hs) && i <= j < |run| && k in run[i].barriers
    ensures k in run[j].barriers && SameBarrier(run[i].barriers[k], run[j].barriers[k])
    decreases j
  {
    hide Rel, P.Grows, Next, Init;
    if i < j {
      BarrierInRun(config, run, events, hs, i, j - 1, k);
      BarriersInRun(config, run, events, hs, j - 1);
      BarrierStep(run[j - 1], config, events[j - 1], run[j], k);
    }
  }

  // ---------------------------------------------------------- the guarantee

  /** Above its commit index the leader's log has only entries of its own
      term. Committing one entry of its term is the usual way to get there. */
  predicate OwnAbove(n: Node) {
    ValidNode(n) && forall x :: n.commitIndex < x <= LastIndex(n.log) ==> TermAt(n.log, x) == Some(n.currentTerm)
  }

  /** A leader that knows all that was chosen, unless a quorum has moved on to
      a later term. */
  lemma LeaderIsCurrent(c: Cluster, h: C.State, v: NodeId, t: nat, q: set<NodeId>)
    requires Leads(c, v, t) && OwnAbove(c.nodes[v])
    requires C.IsQuorum(h.servers.Keys, q) && forall w :: w in q ==> h.servers[w].term <= t
    requires Rel(c, h)
    ensures |h.chosen| <= c.nodes[v].commitIndex
  {
    hide Rel, C.Inv, C.IsQuorum;
    RelatedNode(c, h, v);
    LeaderIsWhole(c.nodes[v], c.disks[v], h, v);
    ChosenFacts(h, q, t);
    if |h.chosen| > 0 {
      if h.chosenTerm == t {
        ChooserKnowsIt(h, v);
      } else {
        LeadsReigns(c, h, v, t);
        EarlierChoiceHeld(h, t);
        Shown(c.nodes[v].log, h.servers[v].log, |h.chosen|);
        EarlierChoiceTerm(h, t);
      }
    }
  }

  lemma ChooserKnowsIt(h: C.State, v: NodeId)
    requires v in h.servers && h.servers[v].role == Leader && h.servers[v].term == h.chosenTerm
    requires C.Inv(h)
    ensures |h.chosen| <= h.servers[v].commit
  {
  }

  /** The term that chose the longest prefix is one that a quorum has not left. */
  lemma ChosenFacts(h: C.State, q: set<NodeId>, t: nat)
    requires C.IsQuorum(h.servers.Keys, q) && forall w :: w in q ==> h.servers[w].term <= t
    requires C.Inv(h)
    ensures |h.chosen| > 0 ==> h.chosenTerm in h.reigns && h.chosenTerm <= t
  {
    hide C.ReignsGrounded, C.ServersGrounded, C.BallotsGrounded, C.VotesRecorded, C.RolesValid, C.AcksValid, C.Keeps,
         C.SettledValid,
      C.UpToDate;
    if |h.chosen| > 0 {
      assert C.ReignValid(h, h.chosenTerm);
      var w := P.QuorumsMeet(h.servers.Keys, q, h.reigns[h.chosenTerm].voters);
      assert C.BallotValid(h, w, h.chosenTerm);
    }
  }

  lemma EarlierChoiceHeld(h: C.State, t: nat)
    requires |h.chosen| > 0 && h.chosenTerm < t && t in h.reigns
    requires C.Inv(h)
    ensures h.chosen <= h.reigns[t].log
  {
    hide C.Structure, C.SettledValid, C.ServersKeep, C.BallotsKeep;
    P.ChosenIsOpen(h, h.chosenTerm, |h.chosen|);
    assert h.reigns[h.chosenTerm].log[..|h.chosen|] <= h.reigns[t].log;
  }

  lemma EarlierChoiceTerm(h: C.State, t: nat)
    requires |h.chosen| > 0 && h.chosenTerm < t
    requires C.Inv(h)
    ensures h.chosen[|h.chosen| - 1].term < t
  {
    hide C.Structure, C.SettledValid, C.Keeps, C.Confirmed;
    var x := |h.chosen|;
    assert C.Owned(h, h.chosenTerm, x);
    assert h.chosen[x - 1] == h.reigns[h.chosenTerm].log[..x][x - 1];
  }

  /** The peers that have acknowledged a read, with its leader, in the state in
      which it began: a quorum that had not moved past its term. */
  lemma AckersWere(c: Cluster, h: C.State, c': Cluster, k: nat, v: NodeId)
    requires k in c'.barriers && BarrierRel(c', c'.barriers[k]) && c'.nodes.Keys == c.nodes.Keys
    requires ReadSucceeds(c', k) && c'.barriers[k].node == v && PeersOf(c'.nodes[v].peers, v, c'.nodes.Keys)
    requires c'.barriers[k].start == c.nodes
    requires v in c.nodes && c.nodes[v].currentTerm == c'.barriers[k].term
    requires Rel(c, h)
    ensures var q := c'.barriers[k].acks + {v};
            C.IsQuorum(h.servers.Keys, q) && forall w :: w in q ==> h.servers[w].term <= c.nodes[v].currentTerm
  {
    hide Rel, C.Inv;
    var r := c'.barriers[k];
    forall w | w in r.acks + {v}
      ensures w in h.servers && h.servers[w].term <= r.term
    {
      RelatedNode(c, h, w);
    }
    RelatedNode(c, h, v);
    SameMembers(c, h);
  }

  lemma SameMembers(c: Cluster, h: C.State)
    requires Rel(c, h)
    ensures h.servers.Keys == c.nodes.Keys
  {
  }

  lemma BegunAt(c: Cluster, config: Config, e: Event, c': Cluster)
    requires Next(c, config, e, c') && e.BeginRead?
    ensures e.node in c.nodes && Leads(c, e.node, c.nodes[e.node].currentTerm)
    ensures e.read in c'.barriers
    ensures c'.barriers[e.read] == Read(e.node, c.nodes[e.node].currentTerm, c.nodes[e.node].commitIndex, c.nodes, {})
  {
    hide Act;
  }

  /** The read barrier: if nothing in the leader's log above its commit index
      is left over from earlier terms when a read begins, then a read that
      succeeds returns an index at or above every index that any node had
      committed until then. */
  lemma ReadBarrier(config: Config, run: seq<Cluster>, events: seq<Event>, i: nat, j: nat, k: nat, u: NodeId)
    requires IsRun(config, run, events) && i < |events| && i < j < |run| && k <= i
    requires events[i].BeginRead? && events[i].node in run[i].nodes && OwnAbove(run[i].nodes[events[i].node])
    requires ReadSucceeds(run[j], events[i].read) && u in run[k].nodes
    ensures run[k].nodes[u].commitIndex <= run[j].barriers[events[i].read].index
  {
    hide Rel, P.Grows, Init, Next, C.IsQuorum, OwnAbove, Leads;
    var v, r := events[i].node, events[i].read;
    var hs := RunTraced(config, run, events);
    assert Next(run[i], config, events[i], run[i + 1]);
    BegunAt(run[i], config, events[i], run[i + 1]);
    BarrierInRun(config, run, events, hs, i + 1, j, r);
    BarriersInRun(config, run, events, hs, j);
    MembersInRun(run, hs, i, j);
    RelatedPeers(run[j], hs[j], v);
    AckersWere(run[i], hs[i], run[j], r, v);
    LeaderIsCurrent(run[i], hs[i], v, run[i].nodes[v].currentTerm, run[j].barriers[r].acks + {v});
    CommitChosen(run[k], hs[k], u);
    ChosenGrows(hs[k], hs[i]);
  }

  lemma MembersInRun(run: seq<Cluster>, hs: seq<C.State>, i: nat, j: nat)
    requires Traced(run, hs) && i <= j < |run|
    ensures run[j].nodes.Keys == run[i].nodes.Keys
  {
    hide C.Inv, Tied, MessageRel;
    assert P.Grows(hs[i], hs[j]) && Rel(run[i], hs[i]) && Rel(run[j], hs[j]);
  }

  lemma RelatedPeers(c: Cluster, h: C.State, v: NodeId)
    requires v in c.nodes
    requires Rel(c, h)
    ensures PeersOf(c.nodes[v].peers, v, c.nodes.Keys)
  {
    hide Rel, C.Inv;
    RelatedNode(c, h, v);
    SameMembers(c, h);
  }

  lemma CommitChosen(c: Cluster, h: C.State, u: NodeId)
    requires u in c.nodes
    requires Rel(c, h)
    ensures c.nodes[u].commitIndex <= |h.chosen|
  {
    hide Rel, C.Inv;
    NodeDrawn(c, h, u, h.chosen);
  }
}
