/** Every step keeps the cluster invariant. */
module RaftSteps {
  import opened Types
  import opened RaftPeer
  import opened RaftCluster
  import opened RaftInvariant
  import K = RaftCore

  // ---------------------------------------------------------------- reading the invariant

  lemma PeerFacts(c: Cluster, i: nat)
    requires Inv(c) && i < |c.peers|
    ensures PeerOk(c, i)
  {
    hide K.Inv, NetOk, DeliveredOk, PeerOk;
  }

  lemma MsgFacts(c: Cluster, m: Message)
    requires Inv(c) && m in c.net
    ensures MsgOk(m, c.core)
  {
    hide K.Inv, PeersOk, MsgOk, DeliveredOk;
  }

  lemma InvShape(c: Cluster)
    requires Inv(c)
    ensures Shape(c)
  {
    hide K.Inv, NetOk, DeliveredOk, Durable, MatchOk, LeadOk, RunOk, FeedOk;
    forall i | 0 <= i < |c.peers|
      ensures PeerShape(c.peers[i], i, |c.peers|)
    {
      assert PeerOk(c, i);
    }
  }

  lemma DenotesAt(p: Peer, log: seq<Entry>, k: nat)
    requires Denotes(p, log) && InLog(p, k)
    ensures k < |log| && TermAt(p, k) == log[k].term
    ensures k > p.lastIncludedIndex ==> p.log[k - p.lastIncludedIndex] == log[k]
  {
    if k > p.lastIncludedIndex {
      var j := k - p.lastIncludedIndex;
      assert p.log[1..][j - 1] == log[p.lastIncludedIndex + 1..][j - 1];
    }
  }

  // ---------------------------------------------------------------- shadow updates

  lemma ObservedInv(c: K.Core, i: nat, t: nat)
    requires K.Inv(c) && i < |c.nodes|
    ensures K.Inv(Observed(c, i, t)) && K.Steps(c, Observed(c, i, t), i)
    ensures var nd := Observed(c, i, t).nodes[i];
            if t > c.nodes[i].term
            then nd == c.nodes[i].(term := t, votedFor := -1, role := Follower)
            else nd == c.nodes[i]
    ensures Observed(c, i, t).reigns == c.reigns && Observed(c, i, t).committed == c.committed
  {
    hide K.Inv, K.Evolves;
    if t > c.nodes[i].term {
      K.ObserveInv(c, i, t);
    } else {
      StepsReflexive(c, i);
    }
  }

  lemma StepsReflexive(c: K.Core, i: nat)
    requires i < |c.nodes|
    ensures K.Steps(c, c, i)
  {
  }

  // ---------------------------------------------------------------- RequestVote

  lemma VoteCore(c: K.Core, i: nat, p: Peer, a: VoteArgs)
    requires K.Inv(c) && i < |c.nodes| && MatchOk(p, c.nodes[i]) && VoteReqOk(i, a, c.nodes)
    ensures var (q, r) := HandleVote(p, a);
            var c1 := Observed(c, i, a.term);
            var c' := if r.granted then K.CastVote(c1, i, a.candidate) else c1;
            && K.Inv(c') && K.Steps(c, c', i) && MatchOk(q, c'.nodes[i]) && c'.committed == c.committed
            && (r.granted ==> r.term == a.term && q.state == Follower)
            && (r.granted ==> a.term in c'.nodes[i].votes && c'.nodes[i].votes[a.term] == a.candidate)
            && (!r.granted && a.term <= p.term ==> c' == c)
  {
    hide K.Inv, K.Evolves, K.Extends, K.UpToDate;
    var (q, r) := HandleVote(p, a);
    var c1 := Observed(c, i, a.term);
    ObservedInv(c, i, a.term);
    if r.granted {
      var bid := c.nodes[a.candidate].bids[a.term];
      DenotesAt(p, c.nodes[i].log, Last(p));
      VoteCheck(c1.nodes[i].log, bid, p, a);
      K.CastVoteInv(c1, i, a.candidate);
      K.StepsTransitive(c, c1, K.CastVote(c1, i, a.candidate), i);
    }
  }

  /** The comparison of last terms and last indices on the compacted log is the comparison of
      the full logs. */
  lemma VoteCheck(mine: seq<Entry>, bid: seq<Entry>, p: Peer, a: VoteArgs)
    requires Denotes(p, mine) && |bid| == a.lastIndex + 1 && bid[a.lastIndex].term == a.lastTerm
    ensures K.UpToDate(mine, bid) <==>
            (a.lastTerm > TermAt(p, Last(p)) || (a.lastTerm == TermAt(p, Last(p)) && a.lastIndex >= Last(p)))
  {
    DenotesAt(p, mine, Last(p));
  }

  lemma VoteReqInv(c: Cluster, i: nat, a: VoteArgs)
    requires Inv(c) && i < |c.peers| && Shape(c) && VoteReq(i, a) in c.net
    ensures Inv(DoVoteReq(c, i, a)) && K.Grew(c.core, DoVoteReq(c, i, a).core)
  {
    hide K.Inv, K.Evolves, K.Extends, NetOk, PeersOk, DeliveredOk, Denotes;
    PeerFacts(c, i);
    MsgFacts(c, VoteReq(i, a));
    VoteCore(c.core, i, c.peers[i], a);
    Assemble(c, DoVoteReq(c, i, a), i);
  }

  // ---------------------------------------------------------------- elections

  /** A candidate whose counted backers are a majority becomes leader in RaftCore as well. */
  lemma OfficeCore(core: K.Core, i: nat, p: Peer, backers: set<nat>)
    requires K.Inv(core) && i < |core.nodes| && MatchOk(p, core.nodes[i]) && p.state == Candidate && p.me == i
    requires |backers| >= |core.nodes| / 2 + 1
    requires forall s | s in backers :: BackerOk(p, core.nodes, s)
    ensures var c' := K.Elect(core, i, backers);
            var q := TakeOffice(p, |core.nodes|);
            && K.Inv(c') && K.Steps(core, c', i) && c'.committed == core.committed
            && MatchOk(q, c'.nodes[i]) && LeadOk(q, c'.nodes)
  {
    hide K.Inv, K.Evolves, K.Extends;
    K.ElectInv(core, i, backers);
    var c', q := K.Elect(core, i, backers), TakeOffice(p, |core.nodes|);
    forall s | 0 <= s < |c'.nodes|
      ensures CursorOk(q, c'.nodes, s)
    {
    }
  }

  lemma NewBacker(p: Peer, nodes: seq<K.Node>, backers: set<nat>, s: nat)
    requires forall b | b in backers :: BackerOk(p, nodes, b)
    requires (p.term, s) in p.calls && s != p.me
    ensures s !in backers
  {
  }

  /** A vote is counted: the shadow elects the peer exactly when its counter reaches a majority. */
  lemma VoteCounted(c: Cluster, i: nat, from: nat, t: nat, r: VoteReply)
    requires Inv(c) && i < |c.peers| && Shape(c) && VoteRep(i, from, t, r) in c.net && (t, from) in c.peers[i].calls
    requires CountsVote(c.peers[i], t, r)
    ensures var c' := DoVoteRep(c, i, from, t, r);
            K.Inv(c'.core) && K.Steps(c.core, c'.core, i) && |c'.core.nodes| == |c.peers| && PeerOk(c', i)
  {
    hide K.Inv, K.Evolves, K.Extends, NetOk, PeersOk, DeliveredOk, Denotes, K.Steps, CursorOk, FeedOk, BackerOk;
    PeerFacts(c, i);
    MsgFacts(c, VoteRep(i, from, t, r));
    var p, c' := c.peers[i], DoVoteRep(c, i, from, t, r);
    var q := p.(calls := p.calls - {(t, from)}, votes := p.votes + 1);
    MoreBackers(p, q, c.core.nodes, c.backers[i], t, from, r);
    DenotesSame(p, q, c.core.nodes[i].log);
    FeedSame(p, c'.peers[i], c.cursors[i], c.core.committed);
    if q.votes >= |c.peers| / 2 + 1 {
      OfficeCore(c.core, i, q, c.backers[i] + {from});
    } else {
      StepsReflexive(c.core, i);
    }
  }

  /** The voter whose answer is counted joins the backers. */
  lemma MoreBackers(p: Peer, q: Peer, nodes: seq<K.Node>, backers: set<nat>, t: nat, from: nat, r: VoteReply)
    requires RunOk(p, nodes, backers) && CountsVote(p, t, r) && p.me < |nodes| && (t, from) in p.calls
    requires VoteRepOk(p.me, from, t, r, nodes)
    requires q == p.(calls := p.calls - {(t, from)}, votes := p.votes + 1)
    ensures RunOk(q, nodes, backers + {from}) && q.state == Candidate && |backers + {from}| == q.votes
    ensures forall s | s in backers + {from} :: BackerOk(q, nodes, s)
  {
    NewBacker(p, nodes, backers, from);
    forall s | s in backers + {from}
      ensures BackerOk(q, nodes, s)
    {
      assert s != from ==> BackerOk(p, nodes, s);
    }
  }

  lemma VoteIgnored(c: Cluster, i: nat, from: nat, t: nat, r: VoteReply)
    requires Inv(c) && i < |c.peers| && Shape(c)
    requires !CountsVote(c.peers[i], t, r)
    ensures var c' := DoVoteRep(c, i, from, t, r);
            K.Inv(c'.core) && K.Steps(c.core, c'.core, i) && |c'.core.nodes| == |c.peers| && PeerOk(c', i)
  {
    hide K.Inv, K.Evolves, K.Extends, NetOk, PeersOk, DeliveredOk, Denotes, K.Steps, CursorOk, FeedOk;
    PeerFacts(c, i);
    ObservedInv(c.core, i, r.term);
    var p, c' := c.peers[i], DoVoteRep(c, i, from, t, r);
    var q := c'.peers[i];
    DenotesSame(p, q, c.core.nodes[i].log);
    FeedSame(p, q, c.cursors[i], c.core.committed);
    if r.term <= p.term && p.state == Candidate {
      forall s | s in c.backers[i]
        ensures BackerOk(q, c.core.nodes, s)
      {
        assert BackerOk(p, c.core.nodes, s);
      }
    } else if r.term <= p.term && p.state == Leader {
      LeadSame(p, q, c.core.nodes);
    }
  }

  lemma VoteRepInv(c: Cluster, i: nat, from: nat, t: nat, r: VoteReply)
    requires Inv(c) && i < |c.peers| && Shape(c) && VoteRep(i, from, t, r) in c.net && (t, from) in c.peers[i].calls
    ensures Inv(DoVoteRep(c, i, from, t, r)) && K.Grew(c.core, DoVoteRep(c, i, from, t, r).core)
  {
    hide K.Inv, K.Evolves, K.Extends, K.Steps, NetOk, PeerOk, DeliveredOk;
    if CountsVote(c.peers[i], t, r) {
      VoteCounted(c, i, from, t, r);
    } else {
      VoteIgnored(c, i, from, t, r);
    }
    Assemble(c, DoVoteRep(c, i, from, t, r), i);
  }

  lemma LeadSame(p: Peer, q: Peer, nodes: seq<K.Node>)
    requires |nodes| == |p.matchIndex| == |p.nextIndex| && |p.log| > 0 && LeadOk(p, nodes)
    requires q.state == p.state && q.term == p.term && q.me == p.me && q.matchIndex == p.matchIndex
    requires q.nextIndex == p.nextIndex
    requires |q.log| > 0 && Last(q) == Last(p)
    ensures LeadOk(q, nodes)
  {
    if p.state == Leader {
      forall s | 0 <= s < |nodes|
        ensures CursorOk(q, nodes, s)
      {
        assert CursorOk(p, nodes, s);
      }
    }
  }

  lemma NodeRole(core: K.Core, i: nat)
    requires K.Inv(core) && i < |core.nodes|
    ensures K.RoleOk(core.nodes[i], i, core.reigns)
  {
    hide K.NodeOk, K.RoleOk, K.VotesOk, K.ReignsOk, K.CommittedOk;
  }

  /** No entry is of a later term than its node, nor of a candidate's own. */
  lemma TermsBelow(core: K.Core, i: nat)
    requires K.Inv(core) && i < |core.nodes|
    ensures forall k | 0 <= k < |core.nodes[i].log| :: core.nodes[i].log[k].term <= core.nodes[i].term
    ensures core.nodes[i].role == Candidate ==>
              forall k | 0 <= k < |core.nodes[i].log| :: core.nodes[i].log[k].term < core.nodes[i].term
  {
    hide K.VotesOk, K.ReignsOk, K.CommittedOk, K.Covers, K.CommitBacked, K.Backed;
    var nd := core.nodes[i];
    assert K.NodeOk(nd, core.reigns) && K.RoleOk(nd, i, core.reigns);
  }

  lemma TimeoutCore(c: Cluster, i: nat, q: Peer)
    requires Inv(c) && i < |c.peers| && Shape(c) && c.peers[i].state != Leader
    requires q == Persist(c.peers[i].(state := Candidate, term := c.peers[i].term + 1, voteFor := i, votes := 1))
    ensures var c1 := K.Campaign(c.core, i);
            && K.Inv(c1) && K.Steps(c.core, c1, i) && c1.committed == c.core.committed
            && MatchOk(q, c1.nodes[i]) && BackerOk(q, c1.nodes, i)
            && q.term in c1.nodes[i].bids && |c1.nodes[i].bids[q.term]| == Last(q) + 1
            && c1.nodes[i].bids[q.term][Last(q)].term == TermAt(q, Last(q))
  {
    hide K.Inv, K.Evolves, K.Extends, NetOk, PeersOk, DeliveredOk, Denotes, K.Steps, CursorOk, FeedOk, LeadOk, RunOk;
    PeerFacts(c, i);
    K.CampaignInv(c.core, i);
    DenotesSame(c.peers[i], q, c.core.nodes[i].log);
    DenotesLast(q, c.core.nodes[i].log);
  }

  /** The only peer of a cluster is elected at once. */
  lemma TimeoutAlone(c: Cluster, i: nat, q: Peer)
    requires Inv(c) && i < |c.peers| && Shape(c) && c.peers[i].state != Leader && |c.peers| / 2 + 1 <= 1
    requires q == Persist(c.peers[i].(state := Candidate, term := c.peers[i].term + 1, voteFor := i, votes := 1))
    ensures var (d, c') := (TakeOffice(q, |c.peers|), DoTimeout(c, i));
            && c'.peers[i] == d && |c'.core.nodes| == |c.core.nodes|
            && K.Inv(c'.core) && K.Steps(c.core, c'.core, i) && c'.core.committed == c.core.committed
            && MatchOk(d, c'.core.nodes[i]) && LeadOk(d, c'.core.nodes) && RunOk(d, c'.core.nodes, {i}) && Durable(d)
  {
    hide K.Inv, K.Evolves, K.Extends, NetOk, PeersOk, DeliveredOk, K.Steps, CursorOk, FeedOk, Denotes;
    PeerFacts(c, i);
    var c1 := K.Campaign(c.core, i);
    TimeoutCore(c, i, q);
    OfficeCore(c1, i, q, {i});
    K.StepsTransitive(c.core, c1, DoTimeout(c, i).core, i);
  }

  lemma TimeoutWaits(c: Cluster, i: nat, q: Peer)
    requires Inv(c) && i < |c.peers| && Shape(c) && c.peers[i].state != Leader && |c.peers| / 2 + 1 > 1
    requires q == Persist(c.peers[i].(state := Candidate, term := c.peers[i].term + 1, voteFor := i, votes := 1))
    ensures var (d, c') := (Stand(c.peers[i], |c.peers|), DoTimeout(c, i));
            && c'.peers[i] == d && c'.core == K.Campaign(c.core, i) && |c'.core.nodes| == |c.core.nodes|
            && K.Inv(c'.core) && K.Steps(c.core, c'.core, i) && c'.core.committed == c.core.committed
            && MatchOk(d, c'.core.nodes[i]) && LeadOk(d, c'.core.nodes) && RunOk(d, c'.core.nodes, {i}) && Durable(d)
  {
    hide K.Inv, K.Evolves, K.Extends, NetOk, PeersOk, DeliveredOk, K.Steps, CursorOk, FeedOk, Denotes, K.Campaign;
    PeerFacts(c, i);
    TimeoutCore(c, i, q);
    CampaignSize(c.core, i);
    DenotesSame(q, DoTimeout(c, i).peers[i], K.Campaign(c.core, i).nodes[i].log);
  }

  lemma TimeoutPeer(c: Cluster, i: nat)
    requires Inv(c) && i < |c.peers| && Shape(c) && c.peers[i].state != Leader
    ensures var c' := DoTimeout(c, i);
            && |c'.core.nodes| == |c.core.nodes| == |c.backers| == |c.cursors| == |c.peers| && PeerOk(c', i)
            && K.Inv(c'.core) && K.Steps(c.core, c'.core, i) && c'.core.committed == c.core.committed
  {
    hide K.Inv, K.Steps, NetOk, PeersOk, DeliveredOk, MatchOk, LeadOk, RunOk, Durable, FeedOk, K.Elect, K.Campaign;
    PeerFacts(c, i);
    var p, n, c' := c.peers[i], |c.peers|, DoTimeout(c, i);
    var q := Persist(p.(state := Candidate, term := p.term + 1, voteFor := p.me, votes := 1));
    FeedSame(p, c'.peers[i], c.cursors[i], c.core.committed);
    if n / 2 + 1 <= 1 {
      TimeoutAlone(c, i, q);
    } else {
      TimeoutWaits(c, i, q);
    }
  }

  /** The requests of a candidate name the end of its log. */
  lemma TimeoutRequests(c: Cluster, i: nat)
    requires Inv(c) && i < |c.peers| && Shape(c) && c.peers[i].state != Leader
    ensures forall m | m in DoTimeout(c, i).net && m !in c.net :: MsgOk(m, DoTimeout(c, i).core)
  {
    hide K.Inv, K.Evolves, K.Extends, NetOk, PeersOk, DeliveredOk, K.Steps, CursorOk, FeedOk, Denotes, K.Elect;
    hide K.Campaign, PeerOk, TakeOffice;
    var p := c.peers[i];
    var q := Persist(p.(state := Candidate, term := p.term + 1, voteFor := p.me, votes := 1));
    TimeoutCore(c, i, q);
    CampaignSize(c.core, i);
  }

  lemma TimeoutInv(c: Cluster, i: nat)
    requires Inv(c) && i < |c.peers| && Shape(c) && c.peers[i].state != Leader
    ensures Inv(DoTimeout(c, i)) && K.Grew(c.core, DoTimeout(c, i).core)
  {
    hide Inv, K.Inv, K.Steps, PeerOk, MsgOk, K.Elect, K.Campaign, Stand;
    TimeoutPeer(c, i);
    TimeoutRequests(c, i);
    Assemble(c, DoTimeout(c, i), i);
  }

  lemma CampaignSize(core: K.Core, i: nat)
    requires i < |core.nodes|
    ensures |K.Campaign(core, i).nodes| == |core.nodes| && K.Campaign(core, i).committed == core.committed
  {
  }

  lemma FeedSame(p: Peer, q: Peer, cursor: nat, committed: seq<Entry>)
    requires FeedOk(p, cursor, committed)
    requires q.outbox == p.outbox && q.pending == p.pending && q.lastApplied == p.lastApplied
    requires q.lastIncludedIndex == p.lastIncludedIndex
    ensures FeedOk(q, cursor, committed)
  {
  }

  lemma DenotesSame(p: Peer, q: Peer, log: seq<Entry>)
    requires Denotes(p, log)
    requires q.log == p.log && q.lastIncludedIndex == p.lastIncludedIndex && q.lastIncludedTerm == p.lastIncludedTerm
    ensures Denotes(q, log)
  {
  }

  lemma DenotesLast(p: Peer, log: seq<Entry>)
    requires Denotes(p, log)
    ensures |log| == Last(p) + 1 && log[Last(p)].term == TermAt(p, Last(p))
  {
    DenotesAt(p, log, Last(p));
  }

  // ---------------------------------------------------------------- AppendEntries

  lemma CoreFacts(core: K.Core, i: nat)
    requires K.Inv(core) && i < |core.nodes|
    ensures K.Grounded(core.nodes[i].log, core.reigns)
    ensures K.CommitBacked(core.nodes[i].log, core.nodes[i].commit, core.nodes[i].term, core.reigns)
    ensures core.nodes[i].term in core.reigns ==> K.Grounded(core.reigns[core.nodes[i].term].log, core.reigns)
  {
    hide K.Grounded, K.CommitBacked, K.Covers, K.BidsOk, K.RoleOk, K.VotesOk, K.CommittedOk, K.VoterOk, K.ChosenOk;
    assert K.NodeOk(core.nodes[i], core.reigns);
    if core.nodes[i].term in core.reigns {
      assert K.ReignOk(core.nodes, core.reigns, core.nodes[i].term);
    }
  }

  /** On logs that match, overwriting from the first conflict is Merge. */
  lemma {:induction false} SpliceMerge(log: seq<Entry>, lead: seq<Entry>, at: nat)
    requires at <= |log| && at <= |lead| && log[..at] == lead[..at] && K.Matching(log, lead)
    ensures Splice(log, at, lead[at..]) == K.Merge(log, lead)
    decreases |lead| - at
  {
    if at == |lead| {
      forall i | 0 <= i < |lead|
        ensures log[i].term == lead[i].term
      {
        assert log[..at][i] == lead[..at][i];
      }
    } else if at == |log| || log[at].term != lead[at].term {
      assert log[..at] + lead[at..] == lead;
    } else {
      assert lead[at..][1..] == lead[at + 1..];
      SpliceMerge(log, lead, at + 1);
    }
  }

  /** Overwriting the compacted log denotes overwriting the full log. */
  lemma {:induction false} SpliceDenotes(p: Peer, log: seq<Entry>, at: nat, entries: seq<Entry>)
    requires Denotes(p, log) && p.lastIncludedIndex < at <= |log|
    ensures Denotes(p.(log := Splice(p.log, at - p.lastIncludedIndex, entries)), Splice(log, at, entries))
    decreases |entries|
  {
    var k := at - p.lastIncludedIndex;
    if entries == [] {
    } else if at == |log| {
      assert (p.log + entries)[1..] == p.log[1..] + entries;
      assert (log + entries)[p.lastIncludedIndex + 1..] == log[p.lastIncludedIndex + 1..] + entries;
    } else {
      DenotesAt(p, log, at);
      if log[at].term != entries[0].term {
        assert p.log[1..][..k - 1] == log[p.lastIncludedIndex + 1..][..k - 1];
        assert p.log[..k][1..] == p.log[1..][..k - 1];
        assert log[..at][p.lastIncludedIndex + 1..] == log[p.lastIncludedIndex + 1..][..k - 1];
        assert (p.log[..k] + entries)[1..] == p.log[..k][1..] + entries;
        assert (log[..at] + entries)[p.lastIncludedIndex + 1..] == log[..at][p.lastIncludedIndex + 1..] + entries;
      } else {
        SpliceDenotes(p, log, at + 1, entries[1..]);
      }
    }
  }

  /** The log that an accepted AppendEntries leaves behind denotes the merge with the leader's
      prefix through its last entry. */
  lemma AppendLog(q: Peer, log: seq<Entry>, lead: seq<Entry>, a: AppendArgs, m: nat)
    requires Denotes(q, log) && K.Matching(log, lead) && m == a.prevIndex + |a.entries| < |lead|
    requires lead[a.prevIndex + 1..m + 1] == a.entries && lead[a.prevIndex].term == a.prevTerm
    requires InLog(q, a.prevIndex) && TermAt(q, a.prevIndex) == a.prevTerm
    ensures Denotes(q.(log := Splice(q.log, a.prevIndex + 1 - q.lastIncludedIndex, a.entries)),
                    K.Merge(log, lead[..m + 1]))
  {
    var at, front := a.prevIndex + 1, lead[..m + 1];
    DenotesAt(q, log, a.prevIndex);
    assert log[..at] == lead[..at] == front[..at];
    forall i | 0 <= i < |log| && i < |front| && log[i].term == front[i].term
      ensures log[..i + 1] == front[..i + 1]
    {
      assert log[i].term == lead[i].term;
      assert front[..i + 1] == lead[..i + 1];
    }
    assert front[at..] == a.entries;
    SpliceMerge(log, front, at);
    SpliceDenotes(q, log, at, a.entries);
  }

  /** Learning a commit index that the leader's message vouches for. */
  lemma LearnedCommit(core: K.Core, log: seq<Entry>, lead: seq<Entry>, t: nat, k: nat, limit: nat)
    requires t in core.reigns && lead == core.reigns[t].log && K.CommitBacked(lead, limit, t, core.reigns)
    requires k <= limit && k < |log| && log[..k + 1] == lead[..k + 1]
    ensures K.CommitBacked(log, k, t, core.reigns)
  {
    K.CommitLower(lead, limit, k, t, core.reigns);
    K.CommitMoved(lead, log, k, t, core.reigns);
  }

  lemma FollowCore(c: K.Core, i: nat, p: Peer, t: nat)
    requires K.Inv(c) && i < |c.nodes| && MatchOk(p, c.nodes[i]) && t >= p.term
    ensures var c2 := K.StepDown(Observed(c, i, t), i);
            && K.Inv(c2) && K.Steps(c, c2, i) && c2.committed == c.committed && c2.reigns == c.reigns
            && MatchOk(Follow(p, t), c2.nodes[i]) && c2.nodes[i].log == c.nodes[i].log
            && c2.nodes[i].acks == c.nodes[i].acks
            && c2.nodes[i].term == t && c2.nodes[i].role == Follower && c2.nodes[i].commit == c.nodes[i].commit
  {
    hide K.Inv, K.Evolves, K.Extends, Denotes;
    ObservedInv(c, i, t);
    var c1 := Observed(c, i, t);
    K.StepDownInv(c1, i);
    K.StepsTransitive(c, c1, K.StepDown(c1, i), i);
    DenotesSame(p, Follow(p, t), c.nodes[i].log);
  }

  lemma SamePrefix(a: seq<Entry>, b: seq<Entry>, m: nat, k: nat)
    requires k <= m <= |a| && m <= |b| && a[..m] == b[..m]
    ensures a[..k] == b[..k]
  {
    assert a[..k] == a[..m][..k] && b[..k] == b[..m][..k];
  }

  /** The shadow of an accepted AppendEntries, after the peer has become a follower: its log. */
  lemma AcceptLog(c: K.Core, i: nat, q: Peer, a: AppendArgs, r: Peer)
    requires K.Inv(c) && i < |c.nodes| && MatchOk(q, c.nodes[i]) && q.state == Follower && q.term == a.term
    requires AppReqOk(i, a, c) && InLog(q, a.prevIndex) && TermAt(q, a.prevIndex) == a.prevTerm
    requires r == q.(log := Splice(q.log, a.prevIndex + 1 - q.lastIncludedIndex, a.entries))
    ensures var (m, lead) := (a.prevIndex + |a.entries|, c.reigns[a.term].log);
            var c3 := Accepted(c, i, m);
            && |c3.nodes| == |c.nodes|
            && K.Inv(c3) && K.Steps(c, c3, i) && c3.committed == c.committed && c3.reigns == c.reigns
            && MatchOk(r, c3.nodes[i]) && m <= AckOf(c3.nodes[i], a.term)
            && m < |lead| && m < |c3.nodes[i].log| && c3.nodes[i].log[..m + 1] == lead[..m + 1]
            && c3.nodes[i].commit < |c3.nodes[i].log|
  {
    hide K.Inv, K.Evolves, K.Extends, K.CommitBacked, K.Grounded, Denotes, K.Merge, K.Matching;
    var nd, m := c.nodes[i], a.prevIndex + |a.entries|;
    var lead := c.reigns[a.term].log;
    CoreFacts(c, i);
    K.GroundedMatching(nd.log, lead, c.reigns);
    AppendLog(q, nd.log, lead, a, m);
    K.AcceptInv(c, i, m);
    K.MergePrefix(nd.log, lead, m);
  }

  /** The shadow of an accepted AppendEntries: its commit index. */
  lemma AcceptCore(c: K.Core, i: nat, q: Peer, a: AppendArgs, r: Peer, k: nat)
    requires K.Inv(c) && i < |c.nodes| && MatchOk(q, c.nodes[i]) && q.state == Follower && q.term == a.term
    requires AppReqOk(i, a, c) && InLog(q, a.prevIndex) && TermAt(q, a.prevIndex) == a.prevTerm
    requires r == q.(log := Splice(q.log, a.prevIndex + 1 - q.lastIncludedIndex, a.entries))
    requires k == Max(r.commitIndex, Min(a.leaderCommit, Last(r)))
    ensures var m := a.prevIndex + |a.entries|;
            var c3 := Accepted(c, i, m);
            var c' := K.Learn(c3, i, k);
            && K.Inv(c') && K.Steps(c, c', i) && c'.committed == c.committed && c'.reigns == c.reigns
            && MatchOk(r.(commitIndex := k), c'.nodes[i]) && m <= AckOf(c'.nodes[i], a.term)
            && q.commitIndex <= k < r.lastIncludedIndex + |r.log|
  {
    hide K.Inv, K.Evolves, K.Extends, K.CommitBacked, K.Grounded, Denotes, K.Steps, Accepted, Splice;
    var m, lead := a.prevIndex + |a.entries|, c.reigns[a.term].log;
    AcceptLog(c, i, q, a, r);
    var c3 := Accepted(c, i, m);
    var log := c3.nodes[i].log;
    DenotesLast(r, log);
    CoreFacts(c3, i);
    if k > q.commitIndex {
      SamePrefix(lead, log, m + 1, k + 1);
      LearnedCommit(c3, log, lead, a.term, k, a.leaderCommit);
    }
    K.LearnInv(c3, i, k);
    K.StepsTransitive(c, c3, K.Learn(c3, i, k), i);
    DenotesSame(r, r.(commitIndex := k), log);
  }

  lemma FollowerOk(c: Cluster, i: nat, p: Peer)
    requires i < |c.peers| == |c.core.nodes| == |c.backers| == |c.cursors|
    requires var q := c.peers[i];
             && PeerShape(q, i, |c.peers|) && Durable(q) && MatchOk(q, c.core.nodes[i]) && q.state == Follower
             && q.outbox == p.outbox && q.pending == p.pending && q.lastApplied == p.lastApplied
             && q.lastIncludedIndex == p.lastIncludedIndex
    requires FeedOk(p, c.cursors[i], c.core.committed)
    ensures PeerOk(c, i)
  {
    FeedSame(p, c.peers[i], c.cursors[i], c.core.committed);
  }

  lemma AppReqAccepted(c: Cluster, i: nat, a: AppendArgs)
    requires Inv(c) && i < |c.peers| && Shape(c) && AppReq(i, a) in c.net
    requires HandleAppend(c.peers[i], a).1.success
    ensures Inv(DoAppReq(c, i, a)) && K.Grew(c.core, DoAppReq(c, i, a).core)
  {
    hide K.Inv, NetOk, PeersOk, DeliveredOk, Denotes, K.Steps, FeedOk, LeadOk, RunOk, AppReqOk, Splice, RunStart;
    hide K.Accept, Max, Min;
    PeerFacts(c, i);
    MsgFacts(c, AppReq(i, a));
    var p, c' := c.peers[i], DoAppReq(c, i, a);
    var q := Follow(p, a.term);
    FollowCore(c.core, i, p, a.term);
    var c2 := K.StepDown(Observed(c.core, i, a.term), i);
    MsgMoves(c, i, c2, AppReq(i, a));
    var r := q.(log := Splice(q.log, a.prevIndex + 1 - q.lastIncludedIndex, a.entries));
    var k := Max(r.commitIndex, Min(a.leaderCommit, Last(r)));
    AcceptCore(c2, i, q, a, r, k);
    K.StepsTransitive(c.core, c2, c'.core, i);
    MsgMoves(c, i, c'.core, AppReq(i, a));
    DenotesSame(r.(commitIndex := k), c'.peers[i], c'.core.nodes[i].log);
    FollowerOk(c', i, p);
    Assemble(c, c', i);
  }

  lemma MsgMoves(c: Cluster, i: nat, core: K.Core, m: Message)
    requires Inv(c) && m in c.net && K.Inv(core) && K.Steps(c.core, core, i)
    ensures MsgOk(m, core)
  {
    hide K.NodesOk, K.VotesOk, K.ReignOk, K.CommittedOk, PeersOk, DeliveredOk, MsgOk, K.Steps;
    K.RegularReigns(core);
    MsgStable(m, c.core, core, i);
  }

  lemma {:induction false} RunStartIs(p: Peer, i: nat)
    requires InLog(p, i)
    ensures var r := RunStart(p, i);
            && r <= i && (i > p.lastIncludedIndex ==> p.lastIncludedIndex < r)
            && (forall k | r <= k <= i :: InLog(p, k) && TermAt(p, k) == TermAt(p, i))
            && (r > p.lastIncludedIndex + 1 ==> TermAt(p, r - 1) != TermAt(p, i))
    decreases i
  {
    if i > p.lastIncludedIndex + 1 && TermAt(p, i - 1) == TermAt(p, i) {
      RunStartIs(p, i - 1);
    }
  }

  /** A term at the request's index that the leader does not have there is nowhere further on in
      the leader's log, and is not the leader's own. */
  lemma ConflictTerm(c: K.Core, log: seq<Entry>, t: nat, prev: nat, xTerm: nat)
    requires K.Inv(c) && K.Grounded(log, c.reigns) && t in c.reigns && prev < |log| && prev < |c.reigns[t].log|
    requires xTerm == log[prev].term != c.reigns[t].log[prev].term
    ensures 0 < prev && xTerm != t && forall j | prev <= j < |c.reigns[t].log| :: c.reigns[t].log[j].term != xTerm
  {
    hide K.NodesOk, K.VotesOk, K.CommittedOk, K.VoterOk, K.ChosenOk, K.Sorted;
    assert K.ReignOk(c.nodes, c.reigns, t);
    var lead := c.reigns[t].log;
    WrittenBy(log, prev, prev, c.reigns);
    forall j | prev <= j < |lead|
      ensures lead[j].term != xTerm
    {
      if lead[j].term == xTerm {
        WrittenBy(lead, j, prev, c.reigns);
      }
    }
  }

  /** Up to an entry of a term, a log is that of the term's leader. */
  lemma WrittenBy(log: seq<Entry>, j: nat, k: nat, R: K.Reigns)
    requires K.Grounded(log, R) && k <= j < |log| && j > 0
    ensures log[j].term in R && k < |R[log[j].term].log| && R[log[j].term].log[k] == log[k]
  {
    assert K.Backed(log, j, R);
    var other := R[log[j].term].log;
    assert other[..j + 1][k] == log[..j + 1][k];
  }

  /** What a follower answers when it rejects a request is right at that moment. */
  lemma Rejected(c: K.Core, i: nat, p: Peer, a: AppendArgs)
    requires K.Inv(c) && i < |c.nodes| && |p.log| > 0 && a.term >= p.term && AppReqOk(i, a, c)
    requires MatchOk(Follow(p, a.term), c.nodes[i]) && p.lastIncludedIndex <= p.commitIndex
    requires !HandleAppend(p, a).1.success
    ensures RejectionOk(a, HandleAppend(p, a).1, c.reigns[a.term].log)
  {
    hide K.Inv, Denotes, K.CommitBacked, RunStart;
    var q, log := Follow(p, a.term), c.nodes[i].log;
    CoreFacts(c, i);
    DenotesLast(q, log);
    if a.prevIndex < q.lastIncludedIndex {
      LeaderLog(c, i, a.term);
    } else if a.prevIndex <= Last(q) {
      DenotesAt(q, log, a.prevIndex);
      ConflictTerm(c, log, a.term, a.prevIndex, TermAt(q, a.prevIndex));
      RunStartIs(q, a.prevIndex);
    }
  }

  /** The leader of its term has all that a node knows to be committed. */
  lemma LeaderLog(c: K.Core, i: nat, t: nat)
    requires K.Inv(c) && i < |c.nodes| && t in c.reigns && c.nodes[i].term == t
    ensures c.nodes[i].commit < |c.reigns[t].log|
  {
    hide K.NodesOk, K.VotesOk, K.ReignsOk, K.CommittedOk, K.CommitBacked, K.Grounded;
    CoreFacts(c, i);
    K.CommitInLeader(c, c.nodes[i].log, c.nodes[i].commit, t);
  }

  lemma AppReqInv(c: Cluster, i: nat, a: AppendArgs)
    requires Inv(c) && i < |c.peers| && Shape(c) && AppReq(i, a) in c.net
    ensures Inv(DoAppReq(c, i, a)) && K.Grew(c.core, DoAppReq(c, i, a).core)
  {
    hide K.Inv, K.Evolves, K.Extends, NetOk, PeersOk, DeliveredOk, Denotes, K.Steps, CursorOk, FeedOk, AppReqOk;
    var p, c' := c.peers[i], DoAppReq(c, i, a);
    if HandleAppend(p, a).1.success {
      AppReqAccepted(c, i, a);
    } else {
      PeerFacts(c, i);
      MsgFacts(c, AppReq(i, a));
      if a.term < p.term {
        StepsReflexive(c.core, i);
      } else {
        FollowCore(c.core, i, p, a.term);
        DenotesSame(Follow(p, a.term), c'.peers[i], c'.core.nodes[i].log);
        MsgMoves(c, i, c'.core, AppReq(i, a));
        Rejected(c'.core, i, p, a);
        FollowerOk(c', i, p);
      }
      Assemble(c, c', i);
    }
  }

  // ---------------------------------------------------------------- InstallSnapshot

  lemma KeptMerge(log: seq<Entry>, lead: seq<Entry>, k: nat)
    requires K.Matching(log, lead) && k < |lead| && k < |log| && log[k].term == lead[k].term
    ensures K.Merge(log, lead[..k + 1]) == log && log[k] == lead[k]
  {
    assert log[..k + 1] == lead[..k + 1];
    forall j | 0 <= j < k + 1
      ensures log[j] == lead[..k + 1][j]
    {
      assert log[..k + 1][j] == lead[..k + 1][j];
    }
  }

  lemma DroppedMerge(log: seq<Entry>, lead: seq<Entry>, k: nat)
    requires k < |lead| && (k < |log| ==> log[k].term != lead[k].term)
    ensures K.Merge(log, lead[..k + 1]) == lead[..k + 1]
  {
    if k < |log| {
      assert log[k].term != lead[..k + 1][k].term;
    }
  }

  lemma KeptDenotes(q: Peer, log: seq<Entry>, k: nat, r: Peer)
    requires Denotes(q, log) && q.lastIncludedIndex < k < |log|
    requires r.lastIncludedIndex == k && r.lastIncludedTerm == log[k].term
    requires r.log == [Entry(log[k].term, Nop)] + q.log[k - q.lastIncludedIndex + 1..]
    ensures Denotes(r, log)
  {
    var offset := k - q.lastIncludedIndex;
    assert r.log[1..] == q.log[offset + 1..] == q.log[1..][offset..];
    assert log[k + 1..] == log[q.lastIncludedIndex + 1..][offset..];
  }

  /** Keeping or discarding the tail behind a snapshot denotes the merge with the committed
      prefix it stands for (section 7 of the extended Raft paper). */
  lemma SnapLog(q: Peer, log: seq<Entry>, lead: seq<Entry>, a: SnapArgs, r: Peer)
    requires Denotes(q, log) && K.Matching(log, lead) && q.lastIncludedIndex < a.lastIncludedIndex < |lead|
    requires lead[a.lastIncludedIndex].term == a.lastIncludedTerm
    requires var offset := a.lastIncludedIndex - q.lastIncludedIndex;
             r.log == [Entry(a.lastIncludedTerm, Nop)] + KeptTail(q.log, offset, a.lastIncludedTerm)
    requires r.lastIncludedIndex == a.lastIncludedIndex && r.lastIncludedTerm == a.lastIncludedTerm
    ensures Denotes(r, K.Merge(log, lead[..a.lastIncludedIndex + 1]))
  {
    hide K.Matching, K.Merge;
    var k := a.lastIncludedIndex;
    var offset := k - q.lastIncludedIndex;
    if offset < |q.log| {
      DenotesAt(q, log, k);
    }
    if offset < |q.log| && q.log[offset].term == a.lastIncludedTerm {
      KeptMerge(log, lead, k);
      KeptDenotes(q, log, k, r);
    } else {
      DroppedMerge(log, lead, k);
      assert r.log[1..] == [] == lead[..k + 1][k + 1..];
    }
  }

  lemma SnapCore(c: K.Core, i: nat, q: Peer, a: SnapArgs, r: Peer)
    requires K.Inv(c) && i < |c.nodes| && MatchOk(q, c.nodes[i]) && q.state == Follower && q.term == a.term
    requires SnapReqOk(i, a, c) && q.lastIncludedIndex <= q.commitIndex
    requires r.term == q.term && r.voteFor == q.voteFor && r.state == q.state
    requires a.lastIncludedIndex <= q.commitIndex ==>
               && r.commitIndex == q.commitIndex && r.log == q.log
               && r.lastIncludedIndex == q.lastIncludedIndex && r.lastIncludedTerm == q.lastIncludedTerm
    requires a.lastIncludedIndex > q.commitIndex ==>
               && r.commitIndex == r.lastIncludedIndex == a.lastIncludedIndex
               && r.lastIncludedTerm == a.lastIncludedTerm
               && var offset := a.lastIncludedIndex - q.lastIncludedIndex;
                  r.log == [Entry(a.lastIncludedTerm, Nop)] + KeptTail(q.log, offset, a.lastIncludedTerm)
    ensures var c3 := Accepted(c, i, a.lastIncludedIndex);
            var c' := K.Learn(c3, i, r.commitIndex);
            && K.Inv(c') && K.Steps(c, c', i) && c'.committed == c.committed && c'.reigns == c.reigns
            && MatchOk(r, c'.nodes[i]) && a.lastIncludedIndex <= AckOf(c'.nodes[i], a.term)
            && r.commitIndex < r.lastIncludedIndex + |r.log|
  {
    hide K.Inv, K.Evolves, K.Extends, K.CommitBacked, K.Grounded, Denotes, K.Merge, K.Matching;
    var nd, m := c.nodes[i], a.lastIncludedIndex;
    var lead := c.reigns[a.term].log;
    CoreFacts(c, i);
    K.GroundedMatching(nd.log, lead, c.reigns);
    K.AcceptInv(c, i, m);
    var c3 := K.Accept(c, i, m);
    var log := c3.nodes[i].log;
    K.MergePrefix(nd.log, lead, m);
    CoreFacts(c3, i);
    if m <= q.commitIndex {
      MergeCommitted(c, i, m);
      DenotesSame(q, r, log);
    } else {
      SnapLog(q, nd.log, lead, a, r);
      LearnedCommit(c3, log, lead, a.term, m, m);
    }
    DenotesLast(r, log);
    K.LearnInv(c3, i, r.commitIndex);
    K.StepsTransitive(c, c3, K.Learn(c3, i, r.commitIndex), i);
  }

  /** A leader's prefix inside what the node knows to be committed is already in its log. */
  lemma MergeCommitted(c: K.Core, i: nat, m: nat)
    requires K.Inv(c) && i < |c.nodes| && c.nodes[i].term in c.reigns && m < |c.reigns[c.nodes[i].term].log|
    requires m <= c.nodes[i].commit
    ensures K.Merge(c.nodes[i].log, c.reigns[c.nodes[i].term].log[..m + 1]) == c.nodes[i].log
  {
    hide K.NodesOk, K.VotesOk, K.ReignsOk, K.CommittedOk, K.Grounded, K.CommitBacked;
    var nd := c.nodes[i];
    var lead := c.reigns[nd.term].log;
    CoreFacts(c, i);
    K.CommitInLeader(c, nd.log, nd.commit, nd.term);
    forall j | 0 <= j < m + 1
      ensures nd.log[j].term == lead[..m + 1][j].term
    {
      assert nd.log[..nd.commit + 1][j] == lead[..nd.commit + 1][j];
    }
  }

  lemma SnapReqInv(c: Cluster, i: nat, a: SnapArgs)
    requires Inv(c) && i < |c.peers| && Shape(c) && SnapReq(i, a) in c.net
    ensures Inv(DoSnapReq(c, i, a)) && K.Grew(c.core, DoSnapReq(c, i, a).core)
  {
    hide K.Inv, K.Evolves, K.Extends, NetOk, PeersOk, DeliveredOk, Denotes, K.Steps, CursorOk, SnapReqOk, LeadOk, RunOk;
    PeerFacts(c, i);
    MsgFacts(c, SnapReq(i, a));
    var p, c' := c.peers[i], DoSnapReq(c, i, a);
    if a.term < p.term {
      StepsReflexive(c.core, i);
    } else {
      var q, r := Follow(p, a.term), c'.peers[i];
      FollowCore(c.core, i, p, a.term);
      var c2 := K.StepDown(Observed(c.core, i, a.term), i);
      MsgMoves(c, i, c2, SnapReq(i, a));
      SnapCore(c2, i, q, a, r);
      K.StepsTransitive(c.core, c2, c'.core, i);
      MsgMoves(c, i, c'.core, SnapReq(i, a));
      CommitRange(c'.core, i);
      SnapPeer(c, i, a);
    }
    Assemble(c, c', i);
  }

  lemma CommitRange(core: K.Core, i: nat)
    requires K.Inv(core) && i < |core.nodes|
    ensures core.nodes[i].commit < |core.committed|
  {
    hide K.NodesOk, K.VotesOk, K.ReignsOk, K.CommittedOk;
    K.CommitPrefix(core, i);
  }

  lemma SnapPeer(c: Cluster, i: nat, a: SnapArgs)
    requires Shape(c) && i < |c.peers| && c.peers[i].term <= a.term
    requires |c.peers| == |c.core.nodes| && PeerOk(c, i)
    requires var c' := DoSnapReq(c, i, a);
             |c'.core.nodes| == |c.peers| && MatchOk(c'.peers[i], c'.core.nodes[i])
                 && c'.core.committed == c.core.committed
             && c'.core.nodes[i].commit < |c.core.committed|
    ensures PeerOk(DoSnapReq(c, i, a), i)
  {
    hide LeadOk, RunOk, CommandsFrom, Denotes, Accepted, K.Learn, Observed, K.StepDown;
    var p, r := c.peers[i], DoSnapReq(c, i, a).peers[i];
    if a.lastIncludedIndex <= p.commitIndex {
      FeedSame(p, r, c.cursors[i], c.core.committed);
    } else {
      assert FeedEnd(r, c.cursors[i]) == FeedEnd(p, c.cursors[i]) <= p.lastApplied;
    }
    assert LeadOk(r, DoSnapReq(c, i, a).core.nodes) && RunOk(r, DoSnapReq(c, i, a).core.nodes, c.backers[i]) by {
      Idle(r, DoSnapReq(c, i, a).core.nodes, c.backers[i]);
    }
  }

  lemma Idle(p: Peer, nodes: seq<K.Node>, backers: set<nat>)
    requires p.state == Follower && |nodes| == |p.matchIndex| == |p.nextIndex| && |p.log| > 0
    ensures LeadOk(p, nodes) && RunOk(p, nodes, backers)
  {
  }

  // ---------------------------------------------------------------- the leader's replies

  lemma ObservedPeer(c: Cluster, i: nat, t: nat, q: Peer, c': Cluster)
    requires Inv(c) && i < |c.peers| && Shape(c) && t > c.peers[i].term
    requires q == StepDownTo(c.peers[i], t)
    requires c' == SetPeer(c, i, q, Observed(c.core, i, t))
    ensures Inv(c') && K.Grew(c.core, c'.core)
  {
    hide K.Inv, K.Evolves, K.Extends, K.Steps, NetOk, PeersOk, DeliveredOk, Denotes, CursorOk, FeedOk;
    PeerFacts(c, i);
    ObservedInv(c.core, i, t);
    DenotesSame(c.peers[i], q, c.core.nodes[i].log);
    FollowerOk(c', i, c.peers[i]);
    Assemble(c, c', i);
  }

  lemma SnapRepInv(c: Cluster, i: nat, from: nat, a: SnapArgs, t: nat)
    requires Inv(c) && i < |c.peers| && from < |c.peers| && Shape(c) && SnapRep(from, a, t) in c.net && a.leader == i
    ensures Inv(DoSnapRep(c, i, from, a, t)) && K.Grew(c.core, DoSnapRep(c, i, from, a, t).core)
  {
    hide K.Inv, K.Evolves, K.Extends, NetOk, PeersOk, DeliveredOk, FeedOk, SnapReqOk, Denotes, RunOk;
    var p, c' := c.peers[i], DoSnapRep(c, i, from, a, t);
    if t > p.term {
      ObservedPeer(c, i, t, c'.peers[i], c');
    } else {
      PeerFacts(c, i);
      MsgFacts(c, SnapRep(from, a, t));
      StepsReflexive(c.core, i);
      assert c'.core == c.core;
      var q := c'.peers[i];
      DenotesSame(p, q, c.core.nodes[i].log);
      FeedSame(p, q, c.cursors[i], c.core.committed);
      RunSame(p, q, c.core.nodes, c.backers[i]);
      if p.state == Leader && p.term == a.term {
        SnapCursors(c, i, from, a, t, q);
      }
      Assemble(c, c', i);
    }
  }

  lemma RunSame(p: Peer, q: Peer, nodes: seq<K.Node>, backers: set<nat>)
    requires RunOk(p, nodes, backers)
    requires q.state == p.state && q.term == p.term && q.me == p.me && q.votes == p.votes && q.calls == p.calls
    ensures RunOk(q, nodes, backers)
  {
    if p.state == Candidate {
      forall s | s in backers
        ensures BackerOk(q, nodes, s)
      {
        assert BackerOk(p, nodes, s);
      }
    }
  }

  lemma SnapCursors(c: Cluster, i: nat, from: nat, a: SnapArgs, t: nat, q: Peer)
    requires |c.peers| == |c.core.nodes| == |c.backers| == |c.cursors| && i < |c.peers| && from < |c.peers|
    requires K.Inv(c.core) && PeerOk(c, i) && c.peers[i].state == Leader && c.peers[i].term == a.term && t <= a.term
    requires SnapRepOk(from, a, t, c.core) && a.leader == i
    requires q == HandleSnapReply(c.peers[i], from, a, t)
    ensures LeadOk(q, c.core.nodes)
  {
    hide K.Inv, K.CommitBacked, FeedOk, RunOk, Denotes;
    var p := c.peers[i];
    NodeRole(c.core, i);
    DenotesLast(p, c.core.nodes[i].log);
    forall s | 0 <= s < |c.core.nodes|
      ensures CursorOk(q, c.core.nodes, s)
    {
      assert CursorOk(p, c.core.nodes, s);
    }
  }

  // ---------------------------------------------------------------- commit by counting replicas

  lemma {:induction false} CommitPointIs(p: Peer, n: nat, hi: nat)
    requires |p.matchIndex| == n && p.lastIncludedIndex <= p.commitIndex && hi < p.lastIncludedIndex + |p.log|
    ensures var k := CommitPoint(p, n, hi);
            k == p.commitIndex ||
            (p.commitIndex < k <= hi && TermAt(p, k) == p.term && |Replicas(p, n, k)| >= n / 2 + 1)
    ensures forall j | CommitPoint(p, n, hi) < j <= hi :: !(TermAt(p, j) == p.term && |Replicas(p, n, j)| >= n / 2 + 1)
  {
    if hi > p.commitIndex && !(TermAt(p, hi) == p.term && |Replicas(p, n, hi)| >= n / 2 + 1) {
      CommitPointIs(p, n, hi - 1);
    }
  }

  lemma CountCore(c: K.Core, i: nat, p: Peer, q: Peer)
    requires K.Inv(c) && i < |c.nodes| && PeerShape(p, i, |c.nodes|) && p.state == Leader
    requires MatchOk(p, c.nodes[i]) && LeadOk(p, c.nodes)
    requires q == AdvanceCommit(p, |c.nodes|)
    ensures var c' := Counted(c, i, p, q);
            && K.Inv(c') && K.Steps(c, c', i) && MatchOk(q, c'.nodes[i]) && LeadOk(q, c'.nodes)
            && PeerShape(q, i, |c.nodes|)
  {
    hide K.Inv, K.Evolves, K.Extends, Denotes, Replicas;
    var n, k := |c.nodes|, q.commitIndex;
    CommitPointIs(p, n, Last(p));
    NodeRole(c, i);
    DenotesSame(p, q, c.nodes[i].log);
    DenotesLast(p, c.nodes[i].log);
    if k > p.commitIndex {
      DenotesAt(p, c.nodes[i].log, k);
      var quorum := Replicas(q, n, k);
      QuorumBacked(p, c.nodes, k);
      SameReplicas(p, q, n, k);
      K.ChooseInv(c, i, k, quorum);
      assert Counted(c, i, p, q) == K.Choose(c, i, k, quorum);
      LeadKept(p, q, c.nodes, K.Choose(c, i, k, quorum).nodes);
    } else {
      StepsReflexive(c, i);
      LeadSame(p, q, c.nodes);
    }
  }

  lemma SameReplicas(p: Peer, q: Peer, n: nat, k: nat)
    requires |p.matchIndex| == n && q.matchIndex == p.matchIndex
    ensures Replicas(p, n, k) == Replicas(q, n, k)
  {
  }

  lemma QuorumBacked(p: Peer, nodes: seq<K.Node>, k: nat)
    requires |nodes| == |p.matchIndex| == |p.nextIndex| && |p.log| > 0 && p.state == Leader && k > 0
    requires LeadOk(p, nodes)
    ensures forall s | s in Replicas(p, |nodes|, k) ::
            s < |nodes| && p.term in nodes[s].acks && k <= nodes[s].acks[p.term]
  {
    forall s | s in Replicas(p, |nodes|, k)
      ensures s < |nodes| && p.term in nodes[s].acks && k <= nodes[s].acks[p.term]
    {
      assert CursorOk(p, nodes, s);
    }
  }

  lemma LeadKept(p: Peer, q: Peer, nodes: seq<K.Node>, nodes': seq<K.Node>)
    requires |nodes| == |p.matchIndex| == |p.nextIndex| == |nodes'| && |p.log| > 0
    requires LeadOk(p, nodes) && q == p.(commitIndex := q.commitIndex)
    requires forall s | 0 <= s < |nodes| :: nodes'[s].acks == nodes[s].acks
    ensures LeadOk(q, nodes')
  {
    if p.state == Leader {
      forall s | 0 <= s < |nodes|
        ensures CursorOk(q, nodes', s)
      {
        assert CursorOk(p, nodes, s);
      }
    }
  }

  lemma AppRepInv(c: Cluster, i: nat, from: nat, a: AppendArgs, r: AppendReply)
    requires Inv(c) && i < |c.peers| && from < |c.peers| && Shape(c) && AppRep(from, a, r) in c.net && a.leader == i
    ensures Inv(DoAppRep(c, i, from, a, r)) && K.Grew(c.core, DoAppRep(c, i, from, a, r).core)
  {
    hide K.Inv, K.Evolves, K.Extends, K.Steps, NetOk, PeersOk, DeliveredOk, Denotes, AppReqOk, LeadOk, RunOk, FeedOk;
    hide CommitPoint, Backup;
    var p, c' := c.peers[i], DoAppRep(c, i, from, a, r);
    if r.term > p.term {
      ObservedPeer(c, i, r.term, c'.peers[i], c');
    } else {
      PeerFacts(c, i);
      MsgFacts(c, AppRep(from, a, r));
      var q := c'.peers[i];
      FeedSame(p, q, c.cursors[i], c.core.committed);
      RunSame(p, q, c.core.nodes, c.backers[i]);
      if p.state != Leader || p.term != a.term {
        StepsReflexive(c.core, i);
      } else if r.success {
        AppCounted(c, i, from, a, r, c');
      } else {
        StepsReflexive(c.core, i);
        DenotesSame(p, q, c.core.nodes[i].log);
        BackupCursors(c, i, from, r, q);
      }
      Assemble(c, c', i);
    }
  }

  lemma BackupCursors(c: Cluster, i: nat, from: nat, r: AppendReply, q: Peer)
    requires i < |c.peers| == |c.core.nodes| == |c.backers| == |c.cursors| && from < |c.peers| && PeerOk(c, i)
    requires q == c.peers[i] || q == c.peers[i].(nextIndex := c.peers[i].nextIndex[from := Backup(c.peers[i], from, r)])
    ensures LeadOk(q, c.core.nodes)
  {
    hide FeedOk, RunOk, Denotes, Durable, LastWithTerm;
    var p := c.peers[i];
    if p.state == Leader {
      forall s | 0 <= s < |c.core.nodes|
        ensures CursorOk(q, c.core.nodes, s)
      {
        assert CursorOk(p, c.core.nodes, s) && CursorOk(p, c.core.nodes, from);
      }
    }
  }

  lemma AppCounted(c: Cluster, i: nat, from: nat, a: AppendArgs, r: AppendReply, c': Cluster)
    requires Inv(c) && i < |c.peers| && from < |c.peers| && Shape(c) && AppRep(from, a, r) in c.net && a.leader == i
    requires r.success && r.term <= c.peers[i].term && c.peers[i].state == Leader && c.peers[i].term == a.term
    requires c' == DoAppRep(c, i, from, a, r)
    ensures K.Inv(c'.core) && K.Steps(c.core, c'.core, i) && |c'.core.nodes| == |c.peers| && PeerOk(c', i)
  {
    hide K.Inv, K.Evolves, K.Extends, K.Steps, NetOk, PeersOk, DeliveredOk, Denotes, AppReqOk, RunOk, FeedOk;
    hide CommitPoint, LeadOk;
    PeerFacts(c, i);
    MsgFacts(c, AppRep(from, a, r));
    var p, q := c.peers[i], c'.peers[i];
    var matched := a.prevIndex + |a.entries|;
    var p1 := if matched > p.matchIndex[from]
              then p.(matchIndex := p.matchIndex[from := matched], nextIndex := p.nextIndex[from := matched + 1])
              else p;
    MatchedCursors(c, i, from, a, p1);
    DenotesSame(p, p1, c.core.nodes[i].log);
    CountCore(c.core, i, p1, q);
    assert c'.core == Counted(c.core, i, p1, q);
    FeedSame(p, q, c.cursors[i], c.core.committed);
    FeedLonger(q, c.cursors[i], c.core.committed, c'.core.committed) by { CoreGrew(c.core, c'.core, i); }
    Office(q, c'.core.nodes, c.backers[i]);
  }

  lemma CoreGrew(core: K.Core, core': K.Core, i: nat)
    requires K.Steps(core, core', i)
    ensures core.committed <= core'.committed
  {
  }

  lemma FeedLonger(p: Peer, cursor: nat, committed: seq<Entry>, committed': seq<Entry>)
    requires FeedOk(p, cursor, committed) && committed <= committed'
    ensures FeedOk(p, cursor, committed')
  {
  }

  lemma Office(p: Peer, nodes: seq<K.Node>, backers: set<nat>)
    requires p.state == Leader
    ensures RunOk(p, nodes, backers)
  {
  }

  lemma MatchedCursors(c: Cluster, i: nat, from: nat, a: AppendArgs, q: Peer)
    requires i < |c.peers| == |c.core.nodes| == |c.backers| == |c.cursors| && from < |c.peers|
    requires K.Inv(c.core) && PeerOk(c, i) && c.peers[i].state == Leader && c.peers[i].term == a.term
    requires AppReqOk(from, a, c.core) && a.prevIndex + |a.entries| <= AckOf(c.core.nodes[from], a.term)
    requires var p, matched := c.peers[i], a.prevIndex + |a.entries|;
             q == if matched > p.matchIndex[from]
                  then p.(matchIndex := p.matchIndex[from := matched], nextIndex := p.nextIndex[from := matched + 1])
                  else p
    ensures LeadOk(q, c.core.nodes)
  {
    hide K.Inv, K.CommitBacked, FeedOk, RunOk, Denotes, Durable;
    var p := c.peers[i];
    NodeRole(c.core, i);
    DenotesLast(p, c.core.nodes[i].log);
    forall s | 0 <= s < |c.core.nodes|
      ensures CursorOk(q, c.core.nodes, s)
    {
      assert CursorOk(p, c.core.nodes, s);
    }
  }

  // ---------------------------------------------------------------- Start

  lemma ProposeCore(core: K.Core, i: nat, p: Peer, command: Command, p1: Peer)
    requires K.Inv(core) && i < |core.nodes| && PeerShape(p, i, |core.nodes|) && p.state == Leader
    requires MatchOk(p, core.nodes[i]) && LeadOk(p, core.nodes)
    requires var log := p.log + [Entry(p.term, command)];
             p1 == Persist(p.(log := log, matchIndex := p.matchIndex[i := Last(p) + 1],
                 nextIndex := p.nextIndex[i := Last(p) + 2]))
    ensures core.nodes[i].term in core.reigns
    ensures var c1 := K.Append(core, i, command);
            && K.Inv(c1) && K.Steps(core, c1, i) && c1.committed == core.committed
            && |c1.nodes| == |core.nodes| && MatchOk(p1, c1.nodes[i]) && LeadOk(p1, c1.nodes)
                 && PeerShape(p1, i, |core.nodes|)
  {
    hide K.Inv, K.Evolves, K.Extends;
    K.AppendInv(core, i, command);
    NodeRole(core, i);
    DenotesLast(p, core.nodes[i].log);
    var c1 := K.Append(core, i, command);
    var log := core.nodes[i].log;
    assert p1.log[1..] == p.log[1..] + [Entry(p.term, command)];
    var e := Entry(p.term, command);
    assert (log + [e])[p.lastIncludedIndex + 1..] == log[p.lastIncludedIndex + 1..] + [e];
    forall s | 0 <= s < |core.nodes|
      ensures CursorOk(p1, c1.nodes, s)
    {
      assert CursorOk(p, core.nodes, s);
    }
  }

  lemma ProposeInv(c: Cluster, i: nat, command: Command)
    requires Inv(c) && i < |c.peers| && Shape(c) && c.peers[i].state == Leader
    ensures Inv(DoPropose(c, i, command)) && K.Grew(c.core, DoPropose(c, i, command).core)
  {
    hide K.Inv, K.Evolves, K.Extends, K.Steps, NetOk, PeersOk, DeliveredOk, Denotes, RunOk, FeedOk, CommitPoint, LeadOk;
    hide K.Append;
    PeerFacts(c, i);
    var p, c' := c.peers[i], DoPropose(c, i, command);
    var q := c'.peers[i];
    var p1 := Persist(p.(log := p.log + [Entry(p.term, command)], matchIndex := p.matchIndex[i := Last(p) + 1],
                         nextIndex := p.nextIndex[i := Last(p) + 2]));
    ProposeCore(c.core, i, p, command, p1);
    var c1 := K.Append(c.core, i, command);
    CountCore(c1, i, p1, q);
    assert c'.core == Counted(c1, i, p1, q);
    K.StepsTransitive(c.core, c1, c'.core, i);
    FeedSame(p, q, c.cursors[i], c.core.committed);
    FeedLonger(q, c.cursors[i], c.core.committed, c'.core.committed) by { CoreGrew(c.core, c'.core, i); }
    Office(q, c'.core.nodes, c.backers[i]);
    Assemble(c, c', i);
  }

  // ---------------------------------------------------------------- replicateToPeer

  lemma SendReady(c: Cluster, i: nat, server: nat)
    requires Inv(c) && i < |c.peers| && server < |c.peers| && server != i && c.peers[i].state == Leader
    ensures server < |c.peers[i].nextIndex| && CanReplicate(c.peers[i], server)
  {
    hide K.Inv, NetOk, PeersOk, DeliveredOk, Denotes, RunOk, FeedOk, Durable;
    PeerFacts(c, i);
    assert CursorOk(c.peers[i], c.core.nodes, server);
  }

  lemma DenotesPoint(p: Peer, log: seq<Entry>)
    requires Denotes(p, log)
    ensures p.lastIncludedIndex < |log| && log[p.lastIncludedIndex].term == p.lastIncludedTerm
  {
  }

  /** The tail from next on, in the compacted and in the full log. */
  lemma TailFrom(p: Peer, log: seq<Entry>, next: nat)
    requires Denotes(p, log) && p.lastIncludedIndex < next <= Last(p) + 1
    ensures next <= |log| && next + |p.log[next - p.lastIncludedIndex..]| == |log|
    ensures log[next..next + |p.log[next - p.lastIncludedIndex..]|] == p.log[next - p.lastIncludedIndex..]
  {
    var k := next - p.lastIncludedIndex;
    assert p.log[k..] == p.log[1..][k - 1..];
    assert log[next..] == log[p.lastIncludedIndex + 1..][k - 1..];
    assert log[next..] == log[next..next + |p.log[k..]|];
  }

  lemma SentOk(c: Cluster, i: nat, server: nat)
    requires Inv(c) && i < |c.peers| && server < |c.peers| && server != i && c.peers[i].state == Leader
    ensures server < |c.peers[i].nextIndex| && CanReplicate(c.peers[i], server)
    ensures NeedsSnapshot(c.peers[i], server) ==> SnapReqOk(server, SnapshotFor(c.peers[i]), c.core)
    ensures !NeedsSnapshot(c.peers[i], server) ==> AppReqOk(server, EntriesFor(c.peers[i], server), c.core)
  {
    hide K.Inv, NetOk, PeersOk, DeliveredOk, RunOk, FeedOk, Durable, LeadOk, K.CommitBacked, K.Grounded, Denotes;
    SendReady(c, i, server);
    PeerFacts(c, i);
    var p, nd := c.peers[i], c.core.nodes[i];
    NodeRole(c.core, i);
    CoreFacts(c.core, i);
    DenotesLast(p, nd.log);
    if NeedsSnapshot(p, server) {
      DenotesPoint(p, nd.log);
      K.CommitLower(nd.log, nd.commit, p.lastIncludedIndex, nd.term, c.core.reigns);
    } else {
      var next := p.nextIndex[server];
      DenotesAt(p, nd.log, next - 1);
      TailFrom(p, nd.log, next);
    }
  }

  lemma ReplicateInv(c: Cluster, i: nat, server: nat)
    requires Inv(c) && i < |c.peers| && server < |c.peers| && Shape(c) && server != i && c.peers[i].state == Leader
    ensures Inv(DoReplicate(c, i, server)) && K.Grew(c.core, DoReplicate(c, i, server).core)
  {
    hide K.Inv, K.Steps, DeliveredOk, AppReqOk, SnapReqOk, PeerShape, Durable, MatchOk, LeadOk, RunOk, FeedOk;
    SentOk(c, i, server);
    var c' := DoReplicate(c, i, server);
    forall j | 0 <= j < |c.peers|
      ensures PeerOk(c', j)
    {
      assert PeerOk(c, j);
    }
  }

  // ---------------------------------------------------------------- Snapshot, applier, restart

  lemma CompactDenotes(p: Peer, index: nat, data: Option<Store>, log: seq<Entry>)
    requires Denotes(p, log) && p.lastApplied <= Last(p)
    ensures Denotes(TakeSnapshot(p, index, data), log)
  {
    if p.lastIncludedIndex < index <= p.lastApplied {
      DenotesAt(p, log, index);
      var offset := index - p.lastIncludedIndex;
      var q := TakeSnapshot(p, index, data);
      assert q.log[1..] == p.log[offset + 1..] == p.log[1..][offset..];
      assert log[index + 1..] == log[p.lastIncludedIndex + 1..][offset..];
    }
  }

  lemma CompactInv(c: Cluster, i: nat, index: nat, data: Option<Store>)
    requires Inv(c) && i < |c.peers| && Shape(c)
    ensures Inv(DoCompact(c, i, index, data)) && K.Grew(c.core, DoCompact(c, i, index, data).core)
  {
    hide K.Inv, K.Steps, NetOk, PeersOk, DeliveredOk, Denotes, RunOk, LeadOk, CommandsFrom;
    PeerFacts(c, i);
    var p, c' := c.peers[i], DoCompact(c, i, index, data);
    var q := c'.peers[i];
    CompactDenotes(p, index, data, c.core.nodes[i].log);
    LeadSame(p, q, c.core.nodes);
    RunSame(p, q, c.core.nodes, c.backers[i]);
    StepsReflexive(c.core, i);
    Assemble(c, c', i);
  }

  lemma TakeFeed(p: Peer, cursor: nat, log: seq<Entry>, committed: seq<Entry>)
    requires CanApply(p) && Denotes(p, log) && FeedOk(p, cursor, committed)
    requires p.lastIncludedIndex <= p.lastApplied <= p.commitIndex < p.lastIncludedIndex + |p.log|
    requires log[..p.commitIndex + 1] <= committed
    ensures FeedOk(Take(p), cursor, committed)
  {
    if p.pending.None? {
      var q := Take(p);
      forall k | 0 <= k < |q.outbox|
        ensures q.outbox[k] == ApplyCommand(cursor + 1 + k, committed[cursor + 1 + k].command)
      {
        DenotesAt(p, log, cursor + 1 + k);
        assert log[..p.commitIndex + 1][cursor + 1 + k] == committed[cursor + 1 + k];
      }
    }
  }

  lemma TakeInv(c: Cluster, i: nat)
    requires Inv(c) && i < |c.peers| && Shape(c) && CanApply(c.peers[i])
    ensures Inv(DoTake(c, i)) && K.Grew(c.core, DoTake(c, i).core)
  {
    hide K.Inv, K.Steps, NetOk, PeersOk, DeliveredOk, Denotes, RunOk, LeadOk, FeedOk, Batch;
    PeerFacts(c, i);
    var p, c' := c.peers[i], DoTake(c, i);
    var q := c'.peers[i];
    K.CommitPrefix(c.core, i);
    TakeFeed(p, c.cursors[i], c.core.nodes[i].log, c.core.committed);
    DenotesSame(p, q, c.core.nodes[i].log);
    LeadSame(p, q, c.core.nodes);
    RunSame(p, q, c.core.nodes, c.backers[i]);
    StepsReflexive(c.core, i);
    Assemble(c, c', i);
  }

  /** The message an applier sends next follows the last one delivered: the next index for a
      command, a later one for a snapshot. */
  lemma NextSent(p: Peer, cursor: nat, committed: seq<Entry>)
    requires p.outbox != [] && FeedOk(p, cursor, committed)
    ensures var m := p.outbox[0];
            && cursor < m.index < |committed|
            && (m.ApplyCommand? ==> m == ApplyCommand(cursor + 1, committed[cursor + 1].command))
            && FeedOk(p.(outbox := p.outbox[1..]), m.index, committed)
  {
  }

  lemma SendInv(c: Cluster, i: nat)
    requires Inv(c) && i < |c.peers| && Shape(c) && c.peers[i].outbox != []
    ensures Inv(DoSend(c, i)) && K.Grew(c.core, DoSend(c, i).core)
  {
    hide K.Inv, K.Steps, NetOk, PeersOk, DeliveredOk, Denotes, RunOk, LeadOk, FeedOk;
    PeerFacts(c, i);
    var p, c' := c.peers[i], DoSend(c, i);
    var q := c'.peers[i];
    NextSent(p, c.cursors[i], c.core.committed);
    DenotesSame(p, q, c.core.nodes[i].log);
    LeadSame(p, q, c.core.nodes);
    RunSame(p, q, c.core.nodes, c.backers[i]);
    StepsReflexive(c.core, i);
    Assemble(c, c', i);
  }

  lemma RestartInv(c: Cluster, i: nat)
    requires Inv(c) && i < |c.peers| && Shape(c)
    ensures Inv(DoRestart(c, i)) && K.Grew(c.core, DoRestart(c, i).core)
  {
    hide K.Inv, K.Steps, K.Evolves, K.Extends, NetOk, PeersOk, DeliveredOk, Denotes, CursorOk, K.CommitBacked;
    hide K.Grounded;
    PeerFacts(c, i);
    var p, c' := c.peers[i], DoRestart(c, i);
    var q, nd := c'.peers[i], c.core.nodes[i];
    var c1 := K.StepDown(c.core, i);
    K.StepDownInv(c.core, i);
    CoreFacts(c1, i);
    K.CommitLower(nd.log, nd.commit, q.lastIncludedIndex, nd.term, c.core.reigns);
    K.LearnInv(c1, i, q.lastIncludedIndex);
    K.StepsTransitive(c.core, c1, c'.core, i);
    CommitRange(c.core, i);
    DenotesSame(p, q, nd.log);
    Assemble(c, c', i);
  }

  // ---------------------------------------------------------------- every run

  /** Whatever step is taken next, the invariant survives it. */
  lemma StepInv(c: Cluster, e: Event)
    requires Inv(c) && Shape(c) && Enabled(c, e)
    ensures Inv(Apply(c, e)) && Shape(Apply(c, e)) && K.Grew(c.core, Apply(c, e).core)
  {
    hide Inv, Shape;
    match e {
      case Timeout(p) => TimeoutInv(c, p);
      case Receive(m) => ReceiveInv(c, m);
      case Replicate(p, server) => ReplicateInv(c, p, server);
      case Propose(p, command) => ProposeInv(c, p, command);
      case Compact(p, index, data) => CompactInv(c, p, index, data);
      case ApplierTake(p) => TakeInv(c, p);
      case ApplierSend(p) => SendInv(c, p);
      case Restart(p) => RestartInv(c, p);
    }
    InvShape(Apply(c, e));
  }

  lemma ReceiveInv(c: Cluster, m: Message)
    requires Inv(c) && Shape(c) && Enabled(c, Receive(m))
    ensures Inv(Apply(c, Receive(m))) && K.Grew(c.core, Apply(c, Receive(m)).core)
  {
    hide Inv, Shape;
    match m
    case VoteReq(to, a) => VoteReqInv(c, to, a);
    case VoteRep(to, from, t, r) => VoteRepInv(c, to, from, t, r);
    case AppReq(to, a) => AppReqInv(c, to, a);
    case AppRep(from, a, r) => AppRepInv(c, a.leader, from, a, r);
    case SnapReq(to, a) => SnapReqInv(c, to, a);
    case SnapRep(from, a, t) => SnapRepInv(c, a.leader, from, a, t);
  }

  lemma InitInv(n: nat)
    ensures Inv(Init(n)) && Shape(Init(n))
  {
    var c := Init(n);
    var log := [K.ROOT];
    assert K.Inv(c.core);
    forall i | 0 <= i < n
      ensures PeerOk(c, i)
    {
      assert Denotes(c.peers[i], log);
    }
    InvShape(c);
  }
}
