/** When a vote is given, and that a candidate whose log covers those of a majority can be elected. */
module RaftVotes {
  import opened Types
  import opened RaftPeer
  import opened RaftCluster
  import opened RaftInvariant
  import opened RaftSteps
  import opened RaftSafety
  import K = RaftCore
  import Runs

  /** The end of log a is not beyond a log that ends in term lastTerm at lastIndex (section 5.4.1). */
  predicate NotBeyond(a: seq<Entry>, lastTerm: nat, lastIndex: nat)
    requires |a| > 0
  {
    var term := a[|a| - 1].term;
    term < lastTerm || (term == lastTerm && |a| - 1 <= lastIndex)
  }

  /** Every request for a vote that reaches a peer is granted if and only if its term is not earlier
      than the peer's, the peer has given its vote in that term to no other candidate, and the
      peer's full log does not end beyond the candidate's.  The answer carries the later term,
      which becomes the peer's, and a vote given is on the peer's disk. */
  lemma VoteAnswered(n: nat, es: seq<Event>, c: Cluster, i: nat, a: VoteArgs)
    requires Run(Init(n), es, c) && VoteReq(i, a) in c.net
    ensures Shape(c) && Enabled(c, Receive(VoteReq(i, a))) && i < |c.core.nodes| && |FullLog(c, i)| > 0
    ensures var d := Apply(c, Receive(VoteReq(i, a)));
            var (p, q) := (c.peers[i], d.peers[i]);
            var granted := && a.term >= p.term
                           && (a.term == p.term ==> p.voteFor == -1 || p.voteFor == a.candidate)
                           && NotBeyond(FullLog(c, i), a.lastTerm, a.lastIndex);
            && d.net == c.net + {VoteRep(a.candidate, i, a.term, VoteReply(Max(p.term, a.term), granted))}
            && q.term == Max(p.term, a.term) && q.log == p.log && Durable(q)
            && (if granted then q.voteFor == a.candidate && q.state == Follower
                else if a.term > p.term then q.voteFor == -1 && q.state == Follower
                else q == p)
  {
    hide K.Inv, PeersOk, NetOk, DeliveredOk, Run, Denotes, LeadOk, RunOk, FeedOk, K.CastVote;
    Reachable(n, es, c);
    MsgFacts(c, VoteReq(i, a));
    PeerFacts(c, i);
    DenotesLast(c.peers[i], FullLog(c, i));
  }

  /** The vote a peer keeps for its term is the one it gave: no other candidate of that term has it. */
  lemma VoteKept(n: nat, es: seq<Event>, c: Cluster, i: nat)
    requires Run(Init(n), es, c) && i < |c.peers|
    ensures i < |c.core.nodes|
    ensures var (p, given) := (c.peers[i], c.core.nodes[i].votes);
            && (p.voteFor != -1 ==> p.term in given && given[p.term] == p.voteFor)
            && (p.term in given ==> p.voteFor == given[p.term])
  {
    hide PeersOk, NetOk, DeliveredOk, Run, Denotes, LeadOk, RunOk, FeedOk, K.VotesOk, K.ReignsOk, K.CommittedOk;
    hide K.RoleOk, K.WellFormed, K.Covers, K.CommitBacked;
    Reachable(n, es, c);
    PeerFacts(c, i);
    assert K.NodeOk(c.core.nodes[i], c.core.reigns);
  }

  // ---------------------------------------------------------------- an election

  /** The compacted log of q does not end beyond that of p. */
  predicate Behind(q: Peer, p: Peer)
    requires |q.log| > 0 && |p.log| > 0
  {
    var (qt, pt) := (TermAt(q, Last(q)), TermAt(p, Last(p)));
    qt < pt || (qt == pt && Last(q) <= Last(p))
  }

  /** Everything of a peer that an election leaves alone. */
  predicate SameData(p: Peer, q: Peer) {
    && q.log == p.log && q.lastIncludedIndex == p.lastIncludedIndex && q.lastIncludedTerm == p.lastIncludedTerm
    && q.commitIndex == p.commitIndex && q.lastApplied == p.lastApplied && q.snapshot == p.snapshot
    && q.pending == p.pending && q.outbox == p.outbox
  }

  /** Candidate i of term t has the votes of got, and can still ask the others for theirs. */
  ghost predicate Campaigning(d: Cluster, i: nat, t: nat, got: set<nat>, voters: set<nat>) {
    && Inv(d) && Shape(d) && i < |d.peers| && i in got && got <= voters && voters <= Peers(|d.peers|)
    && var p := d.peers[i];
       && p.state == Candidate && p.term == t && p.votes == |got|
       && (forall v | v in voters && v !in got ::
             && v < |d.peers| && (t, v) in p.calls && VoteReq(v, VoteRequest(p)) in d.net
             && d.peers[v].term < t && Behind(d.peers[v], p))
  }

  /** How far an election from c has come in d. */
  ghost predicate Progress(c: Cluster, d: Cluster, i: nat, t: nat) {
    && |d.peers| == |c.peers|
    && (forall s | 0 <= s < |c.peers| :: SameData(c.peers[s], d.peers[s]))
    && (forall s | 0 <= s < |c.peers| && s != i && d.peers[s] != c.peers[s] :: d.peers[s].term == t)
  }

  /** Peer v gives its vote and the candidate counts it. */
  lemma Ballot(d: Cluster, i: nat, t: nat, got: set<nat>, voters: set<nat>, v: nat) returns (es: seq<Event>, e: Cluster)
    requires Campaigning(d, i, t, got, voters) && v in voters && v !in got
    ensures Run(d, es, e) && Inv(e) && Shape(e) && Progress(d, e, i, t)
    ensures forall s | 0 <= s < |d.peers| && s != i && s != v :: e.peers[s] == d.peers[s]
    ensures d.net <= e.net && forall x | x in es :: x.Receive?
    ensures var p, q := d.peers[i], e.peers[i];
            if |got| + 1 >= |d.peers| / 2 + 1 then Elected(p, q, |d.peers|)
            else q == p.(calls := p.calls - {(t, v)}, votes := |got| + 1)
  {
    hide Inv, Run, K.CastVote, TookOffice, Observed;
    var p := d.peers[i];
    var ask := Receive(VoteReq(v, VoteRequest(p)));
    var d1 := Apply(d, ask);
    StepInv(d, ask);
    InvShape(d1);
    RunNothing(d);
    RunThen(d, [], d, ask);
    var reply := Receive(VoteRep(i, v, t, VoteReply(t, true)));
    e := Apply(d1, reply);
    StepInv(d1, reply);
    InvShape(e);
    RunThen(d, [] + [ask], d1, reply);
    es := [] + [ask] + [reply];
  }

  /** q is p as the leader of its term, with its cursors at their first places. */
  predicate Elected(p: Peer, q: Peer, n: nat)
    requires |p.log| > 0
  {
    && q.state == Leader && q.term == p.term && SameData(p, q)
    && |q.nextIndex| == |q.matchIndex| == n
    && forall s | 0 <= s < n :: q.nextIndex[s] == Last(p) + 1 && q.matchIndex[s] == if s == p.me then Last(p) else 0
  }

  lemma {:induction false} Ballots(d: Cluster, i: nat, t: nat, got: set<nat>, voters: set<nat>)
      returns (es: seq<Event>, e: Cluster)
    requires Campaigning(d, i, t, got, voters) && |got| < |d.peers| / 2 + 1 <= |voters|
    ensures Run(d, es, e) && Progress(d, e, i, t) && Elected(d.peers[i], e.peers[i], |d.peers|)
    ensures forall x | x in es :: x.Receive?
    decreases |d.peers| - |got|
  {
    hide Inv, Run, Shape;
    var v := Unasked(got, voters);
    var es1, e1 := Ballot(d, i, t, got, voters, v);
    if |got| + 1 >= |d.peers| / 2 + 1 {
      es, e := es1, e1;
    } else {
      assert Campaigning(e1, i, t, got + {v}, voters);
      var es2, e2 := Ballots(e1, i, t, got + {v}, voters);
      Joined(d, es1, e1, es2, e2);
      es, e := es1 + es2, e2;
    }
  }

  lemma Joined(c: Cluster, a: seq<Event>, d: Cluster, b: seq<Event>, e: Cluster)
    requires Run(c, a, d) && Run(d, b, e)
    ensures Run(c, a + b, e)
  {
    Runs.Concat(Next, c, a, d, b, e);
  }

  lemma Unasked(got: set<nat>, voters: set<nat>) returns (v: nat)
    requires got <= voters && |got| < |voters|
    ensures v in voters && v !in got
  {
    if voters <= got {
      K.SubsetSize(voters, got);
      assert false;
    }
    v :| v in voters && v !in got;
  }

  /** The candidate stands: with a majority of one it leads at once, otherwise it asks everybody. */
  lemma Stands(c: Cluster, i: nat, voters: set<nat>) returns (d: Cluster)
    requires Inv(c) && Shape(c) && i < |c.peers| && c.peers[i].state != Leader
    requires i in voters && voters <= Peers(|c.peers|)
    requires forall v | v in voters :: c.peers[v].term <= c.peers[i].term && Behind(c.peers[v], c.peers[i])
    ensures d == DoTimeout(c, i) && Progress(c, d, i, c.peers[i].term + 1)
    ensures if |c.peers| / 2 + 1 <= 1 then Elected(c.peers[i].(term := c.peers[i].term + 1), d.peers[i], |c.peers|)
            else Campaigning(d, i, c.peers[i].term + 1, {i}, voters)
    ensures d.peers[i].term == c.peers[i].term + 1
  {
    hide Inv, Stand, SameData, Elected, Behind, VoteRequest, DoTimeout;
    d := DoTimeout(c, i);
    TimeoutInv(c, i);
    InvShape(d);
    Candidacy(c.peers[i], |c.peers|);
    Asked(c, i);
    forall s | 0 <= s < |c.peers| ensures SameData(c.peers[s], c.peers[s]) { DataItself(c.peers[s]); }
    forall v | v in voters ensures Behind(c.peers[v], d.peers[i]) {
      BehindSame(c.peers[v], c.peers[i], d.peers[i]);
    }
  }

  lemma DataItself(p: Peer)
    ensures SameData(p, p)
  {
  }

  lemma BehindSame(v: Peer, p: Peer, q: Peer)
    requires |v.log| > 0 && |p.log| > 0 && Behind(v, p) && SameData(p, q)
    ensures |q.log| > 0 && Behind(v, q)
  {
  }

  lemma Asked(c: Cluster, i: nat)
    requires Shape(c) && i < |c.peers|
    ensures var d := DoTimeout(c, i);
            && |d.peers| == |c.peers| && d.peers[i] == Stand(c.peers[i], |c.peers|)
            && (forall s | 0 <= s < |c.peers| && s != i :: d.peers[s] == c.peers[s])
            && (|d.peers[i].log| > 0 && d.peers[i].state != Leader ==>
                  forall s | s in Others(i, |c.peers|) :: VoteReq(s, VoteRequest(d.peers[i])) in d.net)
  {
    hide Stand, TookOffice, K.Campaign, VoteRequest;
  }

  lemma Candidacy(p: Peer, n: nat)
    requires |p.log| > 0 && p.state != Leader
    ensures var q := Stand(p, n);
            && q.term == p.term + 1 && SameData(p, q) && q.me == p.me
            && if n / 2 + 1 <= 1 then Elected(p.(term := p.term + 1), q, n)
               else && q.state == Candidate && q.votes == 1
                    && forall v | v in Others(p.me, n) :: (q.term, v) in q.calls
  {
  }

  /** A candidate whose full log covers the full logs of a majority, none of which has heard of a later
      term, can be elected: a run ends with it leading in the next term, every log as it was, its
      nextIndex behind its last entry and its matchIndex unknown for everybody but itself. */
  lemma CanBeElected(n: nat, before: seq<Event>, c: Cluster, i: nat, voters: set<nat>)
      returns (es: seq<Event>, d: Cluster)
    requires Run(Init(n), before, c) && i < |c.peers| && c.peers[i].state != Leader
    requires i in voters && voters <= Peers(|c.peers|) && |voters| >= |c.peers| / 2 + 1
    requires |c.core.nodes| == |c.peers| && forall v | v in voters :: |FullLog(c, v)| > 0
    requires forall v | v in voters ::
               && c.peers[v].term <= c.peers[i].term
               && NotBeyond(FullLog(c, v), FullLog(c, i)[|FullLog(c, i)| - 1].term, |FullLog(c, i)| - 1)
    ensures Run(c, es, d) && (forall e | e in es :: e.Timeout? || e.Receive?)
    ensures |d.peers| == |c.peers| && |c.peers[i].log| > 0
    ensures d.peers[i].term == c.peers[i].term + 1
    ensures Elected(c.peers[i].(term := c.peers[i].term + 1), d.peers[i], |c.peers|)
    ensures forall s | 0 <= s < |c.peers| :: SameData(c.peers[s], d.peers[s])
    ensures forall v | v in voters :: d.peers[v].term <= d.peers[i].term
  {
    hide Inv, Run, NotBeyond, Behind, Shape, Apply, Enabled, DoTimeout, SameData, Elected, Campaigning;
    Reachable(n, before, c);
    ShapedLogs(c);
    forall v | v in voters
      ensures Behind(c.peers[v], c.peers[i])
    {
      SameEnds(c, v, i);
    }
    var d1 := Stands(c, i, voters);
    StandEvent(c, i);
    RunNothing(c);
    RunThen(c, [], c, Timeout(i));
    es, d := [] + [Timeout(i)], d1;
    if |c.peers| / 2 + 1 > 1 {
      CampaignFacts(d1, i, c.peers[i].term + 1, {i}, voters);
      var more, e := Ballots(d1, i, c.peers[i].term + 1, {i}, voters);
      Joined(c, es, d1, more, e);
      es, d := es + more, e;
      ElectedFrom(c.peers[i], d1.peers[i], d.peers[i], |c.peers|);
      forall s | 0 <= s < |c.peers| ensures SameData(c.peers[s], d.peers[s]) {
        DataOn(c.peers[s], d1.peers[s], d.peers[s]);
      }
    } else {
      ElectedTerm(c.peers[i].(term := c.peers[i].term + 1), d.peers[i], |c.peers|);
    }
  }

  lemma CampaignFacts(d: Cluster, i: nat, t: nat, got: set<nat>, voters: set<nat>)
    requires Campaigning(d, i, t, got, voters)
    ensures i < |d.peers| && d.peers[i].term == t && d.peers[i].me == i && |d.peers[i].log| > 0
  {
    hide Inv, Behind;
  }

  lemma DataOn(p: Peer, q: Peer, r: Peer)
    requires SameData(p, q) && SameData(q, r)
    ensures SameData(p, r)
  {
  }

  lemma ElectedTerm(p: Peer, q: Peer, n: nat)
    requires |p.log| > 0 && Elected(p, q, n)
    ensures q.term == p.term && q.state == Leader
  {
  }

  lemma ElectedFrom(p: Peer, q: Peer, r: Peer, n: nat)
    requires |p.log| > 0 && |q.log| > 0 && SameData(p, q) && q.term == p.term + 1 && q.me == p.me && Elected(q, r, n)
    ensures Elected(p.(term := p.term + 1), r, n) && r.term == p.term + 1
  {
  }

  lemma StandEvent(c: Cluster, i: nat)
    requires Shape(c) && i < |c.peers| && c.peers[i].state != Leader
    ensures Enabled(c, Timeout(i)) && Apply(c, Timeout(i)) == DoTimeout(c, i)
  {
  }

  lemma ShapedLogs(c: Cluster)
    requires Shape(c)
    ensures forall s | 0 <= s < |c.peers| :: |c.peers[s].log| > 0 && c.peers[s].me == s
  {
  }

  lemma SameEnds(c: Cluster, v: nat, i: nat)
    requires Inv(c) && v < |c.peers| && i < |c.peers|
    ensures |c.core.nodes| == |c.peers| && |FullLog(c, v)| > 0 && |FullLog(c, i)| > 0
    ensures |c.peers[v].log| > 0 && |c.peers[i].log| > 0
    ensures NotBeyond(FullLog(c, v), FullLog(c, i)[|FullLog(c, i)| - 1].term, |FullLog(c, i)| - 1) <==>
            Behind(c.peers[v], c.peers[i])
  {
    hide Inv, Denotes, K.Grounded, K.CommitBacked;
    PeerView(c, v);
    PeerView(c, i);
    DenotesParts(c.peers[v], FullLog(c, v));
    DenotesParts(c.peers[i], FullLog(c, i));
  }

  lemma DenotesParts(p: Peer, log: seq<Entry>)
    requires Denotes(p, log)
    ensures |p.log| > 0 && |log| == Last(p) + 1 && log[Last(p)].term == TermAt(p, Last(p))
  {
    DenotesLast(p, log);
  }
}
