/** Raft without compaction, messages or volatile cursors: every node owns its full log, and
    a history of elections ("reigns"), votes and acknowledgements is kept beside the nodes.
    The handlers of src/raft1/raft.go are sequences of the actions below. */
module RaftCore {
  import opened Types

  /** votes: term -> candidate this node voted for.  bids: term -> log it campaigned with.
      acks: term -> highest index it acknowledged to the leader of that term. */
  datatype Node = Node(term: nat, votedFor: int, role: Role, log: seq<Entry>, commit: nat,
                       votes: map<nat, nat>, bids: map<nat, seq<Entry>>, acks: map<nat, nat>)

  /** The leadership of one term.  log is the leader's full log, chosen the highest index it
      committed by counting replicas (0 for none) and quorum the replicas it counted. */
  datatype Reign = Reign(leader: nat, voters: set<nat>, log: seq<Entry>, chosen: nat, quorum: set<nat>)

  type Reigns = map<nat, Reign>

  /** committed is the longest prefix that any leader has committed by counting replicas. */
  datatype Core = Core(nodes: seq<Node>, reigns: Reigns, committed: seq<Entry>)

  const ROOT := Entry(0, Nop)

  // ---------------------------------------------------------------- logs

  ghost predicate Has(log: seq<Entry>, i: int, t: nat) {
    0 < i < |log| && log[i].term == t
  }

  ghost predicate Backed(log: seq<Entry>, i: nat, R: Reigns)
    requires i < |log|
  {
    log[i].term in R && i < |R[log[i].term].log| && log[..i + 1] == R[log[i].term].log[..i + 1]
  }

  /** Every entry, together with all entries before it, was written by the leader of its term. */
  ghost predicate Grounded(log: seq<Entry>, R: Reigns) {
    && |log| > 0
    && log[0] == ROOT
    && forall i | 0 < i < |log| :: Backed(log, i, R)
  }

  ghost predicate Sorted(log: seq<Entry>) {
    forall i, j | 0 <= i < j < |log| :: log[i].term <= log[j].term
  }

  ghost predicate WellFormed(log: seq<Entry>, R: Reigns, hi: nat) {
    && Grounded(log, R)
    && Sorted(log)
    && log[|log| - 1].term <= hi
  }

  /** The vote check of section 5.4.1 of the extended Raft paper. */
  predicate UpToDate(mine: seq<Entry>, theirs: seq<Entry>)
    requires |mine| > 0 && |theirs| > 0
  {
    var myTerm, theirTerm := mine[|mine| - 1].term, theirs[|theirs| - 1].term;
    theirTerm > myTerm || (theirTerm == myTerm && |theirs| >= |mine|)
  }

  /** What a follower's log becomes when the leader establishes the prefix `lead` in it: a
      conflict anywhere makes it exactly `lead`; otherwise the longer of the two stays. */
  function Merge(log: seq<Entry>, lead: seq<Entry>): seq<Entry> {
    if |lead| <= |log| && (forall i | 0 <= i < |lead| :: log[i].term == lead[i].term) then log else lead
  }

  // ---------------------------------------------------------------- retained acknowledgements

  ghost predicate Acked(R: Reigns, acks: map<nat, nat>, t: nat, i: int) {
    t in acks && t in R && i <= acks[t] && Has(R[t].log, i, t)
  }

  /** Some leader of a term in (t, hi] does not have entry (i, t). */
  ghost predicate Lost(R: Reigns, i: int, t: nat, hi: nat) {
    exists u | u in R && t < u <= hi :: !Has(R[u].log, i, t)
  }

  /** Each entry of its own term that was acknowledged in a term up to hi is in `log`, unless
      a later leader up to hi lacks it. */
  ghost predicate Covers(R: Reigns, acks: map<nat, nat>, log: seq<Entry>, hi: nat) {
    forall t: nat, i: int | Acked(R, acks, t, i) && t <= hi :: Has(log, i, t) || Lost(R, i, t, hi)
  }

  // ---------------------------------------------------------------- quorums

  ghost predicate IsQuorum(s: set<nat>, n: nat) {
    (forall x | x in s :: x < n) && |s| >= n / 2 + 1
  }

  lemma {:induction false} SubsetSize<T>(a: set<T>, b: set<T>)
    requires a <= b
    ensures |a| <= |b|
  {
    if a != {} {
      var x :| x in a;
      SubsetSize(a - {x}, b - {x});
    }
  }

  /** Two majorities of the same cluster share a peer. */
  lemma QuorumsMeet(a: set<nat>, b: set<nat>, n: nat) returns (v: nat)
    requires IsQuorum(a, n) && IsQuorum(b, n)
    ensures v in a && v in b
  {
    if a * b == {} {
      assert |a + b| == |a| + |b|;
      SubsetSize(a + b, Peers(n));
      assert false;
    }
    v :| v in a * b;
  }

  // ---------------------------------------------------------------- the invariant

  ghost predicate CommitBacked(log: seq<Entry>, commit: nat, hi: nat, R: Reigns) {
    && commit < |log|
    && (commit == 0 || exists t | t in R && t <= hi :: CommittedIn(log, commit, R[t]))
  }

  ghost predicate CommittedIn(log: seq<Entry>, commit: nat, r: Reign) {
    commit < |log| && commit <= r.chosen < |r.log| && log[..commit + 1] == r.log[..commit + 1]
  }

  ghost predicate BallotsOk(nd: Node) {
    && (forall t | t in nd.votes :: t <= nd.term && (t == nd.term ==> nd.votedFor == nd.votes[t]))
    && (nd.votedFor != -1 ==> nd.term in nd.votes && nd.votes[nd.term] == nd.votedFor)
  }

  ghost predicate BidsOk(nd: Node, R: Reigns) {
    forall t | t in nd.bids :: 0 < t <= nd.term && WellFormed(nd.bids[t], R, t - 1)
  }

  ghost predicate AcksOk(nd: Node, R: Reigns) {
    forall t | t in nd.acks :: t in R && t <= nd.term && nd.acks[t] < |R[t].log|
  }

  /** While a node stays in a term, it holds all it acknowledged in that term. */
  ghost predicate AckHeld(nd: Node, R: Reigns) {
    nd.term in nd.acks && nd.term in R ==>
      var a := nd.acks[nd.term];
      a < |nd.log| && a < |R[nd.term].log| && nd.log[..a + 1] == R[nd.term].log[..a + 1]
  }

  ghost predicate NodeOk(nd: Node, R: Reigns) {
    && WellFormed(nd.log, R, nd.term)
    && BallotsOk(nd)
    && BidsOk(nd, R)
    && AcksOk(nd, R)
    && AckHeld(nd, R)
    && Covers(R, nd.acks, nd.log, nd.term)
    && CommitBacked(nd.log, nd.commit, nd.term, R)
  }

  ghost predicate RoleOk(nd: Node, p: nat, R: Reigns) {
    && (nd.role == Leader ==> nd.term in R && R[nd.term].leader == p && R[nd.term].log == nd.log
                              && nd.votedFor == p && nd.term in nd.acks && nd.acks[nd.term] == |nd.log| - 1)
    && (nd.role == Candidate ==> nd.term in nd.bids && nd.bids[nd.term] == nd.log && nd.votedFor == p
                                 && (nd.term in R ==> R[nd.term].leader != p))
  }

  /** A vote is for a campaigner, and until its term has a leader the campaign log covers
      everything the voter acknowledged before that term. */
  ghost predicate VoteOk(nodes: seq<Node>, R: Reigns, v: nat, t: nat)
    requires v < |nodes| && t in nodes[v].votes
  {
    var c := nodes[v].votes[t];
    && c < |nodes|
    && t in nodes[c].bids
    && t > 0
    && (t !in R ==> Covers(R, nodes[v].acks, nodes[c].bids[t], t - 1))
  }

  ghost predicate VotesOk(nodes: seq<Node>, R: Reigns) {
    forall v, t | 0 <= v < |nodes| && t in nodes[v].votes :: VoteOk(nodes, R, v, t)
  }

  ghost predicate VoterOk(nodes: seq<Node>, R: Reigns, t: nat, v: nat)
    requires t in R
  {
    && v < |nodes|
    && t in nodes[v].votes
    && nodes[v].votes[t] == R[t].leader
    && t > 0
    && Covers(R, nodes[v].acks, R[t].log, t - 1)
  }

  ghost predicate ChosenOk(nodes: seq<Node>, r: Reign, t: nat) {
    r.chosen == 0 ||
    (&& Has(r.log, r.chosen, t)
     && IsQuorum(r.quorum, |nodes|)
     && forall q | q in r.quorum :: t in nodes[q].acks && r.chosen <= nodes[q].acks[t])
  }

  ghost predicate ReignOk(nodes: seq<Node>, R: Reigns, t: nat)
    requires t in R
  {
    && t > 0
    && R[t].leader < |nodes|
    && WellFormed(R[t].log, R, t)
    && IsQuorum(R[t].voters, |nodes|)
    && (forall v | v in R[t].voters :: VoterOk(nodes, R, t, v))
    && ChosenOk(nodes, R[t], t)
  }

  ghost predicate ReignsOk(nodes: seq<Node>, R: Reigns) {
    forall t {:trigger ReignOk(nodes, R, t)} | t in R :: ReignOk(nodes, R, t)
  }

  /** The prefix that a leader committed by counting replicas. */
  ghost function ChosenLog(r: Reign): seq<Entry> {
    if r.chosen < |r.log| then r.log[..r.chosen + 1] else r.log
  }

  ghost predicate CommittedOk(R: Reigns, committed: seq<Entry>) {
    && |committed| > 0 && committed[0] == ROOT
    && (forall t | t in R :: R[t].chosen < |R[t].log| && ChosenLog(R[t]) <= committed)
    && (committed == [ROOT] || exists t | t in R :: committed == ChosenLog(R[t]))
  }

  ghost predicate NodesOk(nodes: seq<Node>, R: Reigns) {
    forall p {:trigger NodeOk(nodes[p], R)} {:trigger RoleOk(nodes[p], p, R)} | 0 <= p < |nodes| ::
      NodeOk(nodes[p], R) && RoleOk(nodes[p], p, R)
  }

  ghost predicate Inv(c: Core) {
    && NodesOk(c.nodes, c.reigns)
    && VotesOk(c.nodes, c.reigns)
    && ReignsOk(c.nodes, c.reigns)
    && CommittedOk(c.reigns, c.committed)
  }

  // ---------------------------------------------------------------- consequences

  /** Log matching (section 5.3): logs that agree on the term at an index agree up to it. */
  lemma LogMatching(a: seq<Entry>, b: seq<Entry>, i: nat, R: Reigns)
    requires Grounded(a, R) && Grounded(b, R)
    requires i < |a| && i < |b| && a[i].term == b[i].term
    ensures a[..i + 1] == b[..i + 1]
  {
    if i > 0 {
      assert Backed(a, i, R) && Backed(b, i, R);
    }
  }

  lemma HasPrefix(a: seq<Entry>, b: seq<Entry>, i: nat, t: nat, R: Reigns)
    requires Grounded(a, R) && Grounded(b, R) && Has(a, i, t) && Has(b, i, t)
    ensures a[..i + 1] == b[..i + 1]
  {
    LogMatching(a, b, i, R);
  }

  /** Leader completeness (section 5.4): what the leader of term t committed by counting
      replicas is in the log of every leader of a later term. */
  lemma {:induction false} LeaderCompleteness(c: Core, t: nat, u: nat)
    requires ReignsOk(c.nodes, c.reigns)
    requires t in c.reigns && u in c.reigns && t < u
    ensures c.reigns[t].chosen < |c.reigns[u].log| && c.reigns[t].chosen < |c.reigns[t].log|
    ensures c.reigns[t].log[..c.reigns[t].chosen + 1] == c.reigns[u].log[..c.reigns[t].chosen + 1]
    decreases u
  {
    var R, i := c.reigns, c.reigns[t].chosen;
    assert ReignOk(c.nodes, R, t) && ReignOk(c.nodes, R, u);
    if i > 0 {
      var v := QuorumsMeet(R[u].voters, R[t].quorum, |c.nodes|);
      assert VoterOk(c.nodes, R, u, v);
      assert Acked(R, c.nodes[v].acks, t, i);
      if !Has(R[u].log, i, t) {
        var w: nat :| w in R && t < w <= u - 1 && !Has(R[w].log, i, t);
        LeaderCompleteness(c, t, w);
        assert false;
      }
      HasPrefix(R[t].log, R[u].log, i, t, R);
    }
  }

  /** State machine safety (section 5.4.3), for logs: whatever a node knows to be committed is
      a prefix of the one committed log, so any two nodes agree on it. */
  lemma CommitPrefix(c: Core, p: nat)
    requires Inv(c) && p < |c.nodes|
    ensures c.nodes[p].commit < |c.nodes[p].log|
    ensures c.nodes[p].log[..c.nodes[p].commit + 1] <= c.committed
  {
    hide Covers, BidsOk, BallotsOk, AcksOk, ReignsOk, VotesOk, RoleOk, Backed;
    var nd := c.nodes[p];
    assert NodeOk(nd, c.reigns);
    if nd.commit > 0 {
      var t: nat :| t in c.reigns && t <= nd.term && CommittedIn(nd.log, nd.commit, c.reigns[t]);
      var r := c.reigns[t];
      assert r.log[..r.chosen + 1] == ChosenLog(r) <= c.committed;
      assert r.log[..r.chosen + 1][..nd.commit + 1] == r.log[..nd.commit + 1];
    }
  }

  // ---------------------------------------------------------------- stability under growth

  ghost predicate Grows(r: Reign, r': Reign, t: nat) {
    && r.leader == r'.leader
    && r.voters == r'.voters
    && r.chosen <= r'.chosen
    && |r.log| <= |r'.log|
    && r'.log[..|r.log|] == r.log
    && forall i | |r.log| <= i < |r'.log| :: r'.log[i].term == t
  }

  ghost predicate Extends(R: Reigns, R': Reigns) {
    forall t | t in R :: t in R' && Grows(R[t], R'[t], t)
  }

  lemma WellFormedStable(log: seq<Entry>, R: Reigns, R': Reigns, hi: nat, hi': nat)
    requires Extends(R, R') && WellFormed(log, R, hi) && hi <= hi'
    ensures WellFormed(log, R', hi')
  {
    forall i | 0 < i < |log|
      ensures Backed(log, i, R')
    {
      assert Backed(log, i, R);
      var t := log[i].term;
      assert Grows(R[t], R'[t], t);
      assert R'[t].log[..i + 1] == R'[t].log[..|R[t].log|][..i + 1];
    }
  }

  lemma LostStable(R: Reigns, R': Reigns, i: int, t: nat, hi: nat, hi': nat)
    requires Extends(R, R') && Lost(R, i, t, hi) && hi <= hi'
    ensures Lost(R', i, t, hi')
  {
    var u: nat :| u in R && t < u <= hi && !Has(R[u].log, i, t);
    assert Grows(R[u], R'[u], u);
    assert 0 <= i < |R[u].log| ==> R'[u].log[..|R[u].log|][i] == R'[u].log[i];
    assert !Has(R'[u].log, i, t);
  }

  /** Acknowledgements made in terms above hi do not matter to Covers(.., hi). */
  lemma CoversStable(R: Reigns, R': Reigns, acks: map<nat, nat>, acks': map<nat, nat>, log: seq<Entry>,
                     hi: nat, hi': nat)
    requires Extends(R, R') && Covers(R, acks, log, hi) && hi <= hi'
    requires forall t | t in acks' && t <= hi' :: t in acks && acks'[t] == acks[t] && t <= hi
    requires forall t | t in acks :: t in R && acks[t] < |R[t].log|
    ensures Covers(R', acks', log, hi')
  {
    forall t: nat, i: int | Acked(R', acks', t, i) && t <= hi'
      ensures Has(log, i, t) || Lost(R', i, t, hi')
    {
      assert Grows(R[t], R'[t], t);
      assert R'[t].log[..|R[t].log|][i] == R'[t].log[i];
      assert Acked(R, acks, t, i);
      if !Has(log, i, t) {
        LostStable(R, R', i, t, hi, hi');
      }
    }
  }

  lemma CommitStable(log: seq<Entry>, commit: nat, hi: nat, hi': nat, R: Reigns, R': Reigns)
    requires Extends(R, R') && CommitBacked(log, commit, hi, R) && hi <= hi'
    requires forall t | t in R' :: R'[t].chosen < |R'[t].log|
    ensures CommitBacked(log, commit, hi', R')
  {
    if commit > 0 {
      var t: nat :| t in R && t <= hi && CommittedIn(log, commit, R[t]);
      assert Grows(R[t], R'[t], t);
      assert R'[t].log[..commit + 1] == R'[t].log[..|R[t].log|][..commit + 1];
      assert CommittedIn(log, commit, R'[t]);
    }
  }

  ghost predicate ChosenInRange(R: Reigns) {
    forall t | t in R :: R[t].chosen < |R[t].log|
  }

  lemma NodeStable(nd: Node, R: Reigns, R': Reigns)
    requires NodeOk(nd, R) && Extends(R, R') && ChosenInRange(R')
    ensures NodeOk(nd, R')
  {
    WellFormedStable(nd.log, R, R', nd.term, nd.term);
    forall t | t in nd.bids
      ensures WellFormed(nd.bids[t], R', t - 1)
    {
      WellFormedStable(nd.bids[t], R, R', t - 1, t - 1);
    }
    forall t | t in nd.acks
      ensures t in R' && nd.acks[t] < |R'[t].log|
    {
      assert Grows(R[t], R'[t], t);
    }
    if nd.term in nd.acks {
      var a, r, r' := nd.acks[nd.term], R[nd.term], R'[nd.term];
      assert Grows(r, r', nd.term);
      assert r'.log[..a + 1] == r'.log[..|r.log|][..a + 1];
    }
    CoversStable(R, R', nd.acks, nd.acks, nd.log, nd.term, nd.term);
    CommitStable(nd.log, nd.commit, nd.term, nd.term, R, R');
  }

  /** A node may change without disturbing votes and reigns if its recorded votes and bids are
      kept, and only acknowledgements of its current term move, upwards. */
  ghost predicate Evolves(nd: Node, nd': Node) {
    && nd.term <= nd'.term
    && (forall t | t in nd.votes :: t in nd'.votes && nd'.votes[t] == nd.votes[t])
    && (forall t | t in nd.bids :: t in nd'.bids && nd'.bids[t] == nd.bids[t])
    && (forall t | t in nd.acks :: t in nd'.acks && nd.acks[t] <= nd'.acks[t])
    && (forall t | t in nd'.acks && t < nd.term :: t in nd.acks && nd'.acks[t] == nd.acks[t])
  }

  ghost predicate AllEvolve(nodes: seq<Node>, nodes': seq<Node>) {
    && |nodes| == |nodes'|
    && forall p | 0 <= p < |nodes| :: Evolves(nodes[p], nodes'[p])
  }

  /** Every action of node p is of this form: the other nodes stay, histories only grow. */
  ghost predicate Steps(c: Core, c': Core, p: nat) {
    && p < |c.nodes| == |c'.nodes|
    && c'.nodes == c.nodes[p := c'.nodes[p]]
    && Evolves(c.nodes[p], c'.nodes[p])
    && Extends(c.reigns, c'.reigns)
    && c.committed <= c'.committed
  }

  /** Histories only grow: reigns keep their leader and what they wrote, and the committed log
      is only ever extended. */
  ghost predicate Grew(c: Core, c': Core) {
    |c.nodes| == |c'.nodes| && Extends(c.reigns, c'.reigns) && c.committed <= c'.committed
  }

  lemma ExtendsTransitive(a: Reigns, b: Reigns, c: Reigns)
    requires Extends(a, b) && Extends(b, c)
    ensures Extends(a, c)
  {
    forall t | t in a
      ensures t in c && Grows(a[t], c[t], t)
    {
      var r, r1, r2 := a[t], b[t], c[t];
      assert Grows(r, r1, t) && Grows(r1, r2, t);
      assert r2.log[..|r1.log|][..|r.log|] == r2.log[..|r.log|];
      forall i | |r.log| <= i < |r2.log|
        ensures r2.log[i].term == t
      {
        if i < |r1.log| {
          assert r2.log[..|r1.log|][i] == r2.log[i];
        }
      }
    }
  }

  lemma StepsTransitive(a: Core, b: Core, c: Core, p: nat)
    requires Steps(a, b, p) && Steps(b, c, p)
    ensures Steps(a, c, p)
  {
    ExtendsTransitive(a.reigns, b.reigns, c.reigns);
  }

  lemma VoteStable(nodes: seq<Node>, nodes': seq<Node>, R: Reigns, R': Reigns, v: nat, t: nat)
    requires AllEvolve(nodes, nodes') && Extends(R, R')
    requires v < |nodes| && BallotsOk(nodes[v]) && AcksOk(nodes[v], R)
    requires t in nodes[v].votes && VoteOk(nodes, R, v, t)
    ensures t in nodes'[v].votes && VoteOk(nodes', R', v, t)
  {
    var c := nodes[v].votes[t];
    assert Evolves(nodes[v], nodes'[v]) && Evolves(nodes[c], nodes'[c]);
    if t !in R' {
      CoversStable(R, R', nodes[v].acks, nodes'[v].acks, nodes[c].bids[t], t - 1, t - 1);
    }
  }

  lemma VoterStable(nodes: seq<Node>, nodes': seq<Node>, R: Reigns, R': Reigns, t: nat, v: nat)
    requires AllEvolve(nodes, nodes') && Extends(R, R')
    requires v < |nodes| && BallotsOk(nodes[v]) && AcksOk(nodes[v], R)
    requires t in R && VoterOk(nodes, R, t, v)
    ensures t in R' && VoterOk(nodes', R', t, v)
  {
    assert Evolves(nodes[v], nodes'[v]) && Grows(R[t], R'[t], t);
    forall s: nat, i: int | Acked(R', nodes'[v].acks, s, i) && s <= t - 1
      ensures Has(R'[t].log, i, s) || Lost(R', i, s, t - 1)
    {
      assert Grows(R[s], R'[s], s);
      assert R'[s].log[..|R[s].log|][i] == R'[s].log[i];
      assert Acked(R, nodes[v].acks, s, i);
      if Has(R[t].log, i, s) {
        assert R'[t].log[..|R[t].log|][i] == R'[t].log[i];
      } else {
        LostStable(R, R', i, s, t - 1, t - 1);
      }
    }
  }

  ghost predicate BooksOk(nodes: seq<Node>, R: Reigns) {
    forall p | 0 <= p < |nodes| :: BallotsOk(nodes[p]) && AcksOk(nodes[p], R)
  }

  lemma ReignStable(nodes: seq<Node>, nodes': seq<Node>, R: Reigns, R': Reigns, t: nat)
    requires AllEvolve(nodes, nodes') && Extends(R, R') && BooksOk(nodes, R)
    requires t in R && ReignOk(nodes, R, t) && R'[t] == R[t]
    ensures ReignOk(nodes', R', t)
  {
    WellFormedStable(R[t].log, R, R', t, t);
    forall v | v in R[t].voters
      ensures VoterOk(nodes', R', t, v)
    {
      assert VoterOk(nodes, R, t, v);
      VoterStable(nodes, nodes', R, R', t, v);
    }
    forall q | q in R[t].quorum && R[t].chosen > 0
      ensures t in nodes'[q].acks && R[t].chosen <= nodes'[q].acks[t]
    {
      assert Evolves(nodes[q], nodes'[q]);
    }
  }

  // ---------------------------------------------------------------- actions

  /** A message of a later term arrives. */
  function Observe(c: Core, p: nat, t: nat): Core
    requires p < |c.nodes|
  {
    c.(nodes := c.nodes[p := c.nodes[p].(term := t, votedFor := -1, role := Follower)])
  }

  function StepDown(c: Core, p: nat): Core
    requires p < |c.nodes|
  {
    c.(nodes := c.nodes[p := c.nodes[p].(role := Follower)])
  }

  function CastVote(c: Core, p: nat, cand: nat): Core
    requires p < |c.nodes|
  {
    var nd := c.nodes[p];
    c.(nodes := c.nodes[p := nd.(votedFor := cand, role := Follower, votes := nd.votes[nd.term := cand])])
  }

  function Campaign(c: Core, p: nat): Core
    requires p < |c.nodes|
  {
    var nd := c.nodes[p];
    var t := nd.term + 1;
    c.(nodes := c.nodes[p := nd.(term := t, votedFor := p, role := Candidate,
                                 votes := nd.votes[t := p], bids := nd.bids[t := nd.log])])
  }

  function Elect(c: Core, p: nat, voters: set<nat>): Core
    requires p < |c.nodes| && |c.nodes[p].log| > 0
  {
    var nd := c.nodes[p];
    c.(nodes := c.nodes[p := nd.(role := Leader, acks := nd.acks[nd.term := |nd.log| - 1])],
       reigns := c.reigns[nd.term := Reign(p, voters, nd.log, 0, {})])
  }

  function Append(c: Core, p: nat, cmd: Command): Core
    requires p < |c.nodes| && c.nodes[p].term in c.reigns
  {
    var nd := c.nodes[p];
    var log := nd.log + [Entry(nd.term, cmd)];
    c.(nodes := c.nodes[p := nd.(log := log, acks := nd.acks[nd.term := |nd.log|])],
       reigns := c.reigns[nd.term := c.reigns[nd.term].(log := log)])
  }

  /** The node takes over the leader's log through index m and acknowledges m. */
  function Accept(c: Core, p: nat, m: nat): Core
    requires p < |c.nodes| && c.nodes[p].term in c.reigns && m < |c.reigns[c.nodes[p].term].log|
  {
    var nd := c.nodes[p];
    var acked := if nd.term in nd.acks then nd.acks[nd.term] else 0;
    c.(nodes := c.nodes[p := nd.(log := Merge(nd.log, c.reigns[nd.term].log[..m + 1]),
                                 acks := nd.acks[nd.term := Max(acked, m)])])
  }

  function Learn(c: Core, p: nat, k: nat): Core
    requires p < |c.nodes|
  {
    c.(nodes := c.nodes[p := c.nodes[p].(commit := k)])
  }

  /** A leader commits index i of its own term after counting the replicas in quorum. */
  function Choose(c: Core, p: nat, i: nat, quorum: set<nat>): Core
    requires p < |c.nodes| && c.nodes[p].term in c.reigns && i < |c.reigns[c.nodes[p].term].log|
  {
    var t := c.nodes[p].term;
    var r := c.reigns[t];
    var r' := if i > r.chosen then r.(chosen := i, quorum := quorum) else r;
    c.(nodes := c.nodes[p := c.nodes[p].(commit := i)],
       reigns := c.reigns[t := r'],
       committed := if i < |c.committed| then c.committed else r.log[..i + 1])
  }

  // ---------------------------------------------------------------- preservation: reigns unchanged

  lemma VotesStable(nodes: seq<Node>, nodes': seq<Node>, R: Reigns, R': Reigns)
    requires VotesOk(nodes, R) && AllEvolve(nodes, nodes') && Extends(R, R') && BooksOk(nodes, R)
    requires forall v, t | 0 <= v < |nodes'| && t in nodes'[v].votes && t !in nodes[v].votes :: VoteOk(nodes', R', v, t)
    ensures VotesOk(nodes', R')
  {
    forall v, t | 0 <= v < |nodes'| && t in nodes'[v].votes
      ensures VoteOk(nodes', R', v, t)
    {
      if t in nodes[v].votes {
        assert VoteOk(nodes, R, v, t);
        assert Evolves(nodes[v], nodes'[v]);
        VoteStable(nodes, nodes', R, R', v, t);
      }
    }
  }

  /** Reigns other than t are as they were, and reign t is known to be in order. */
  lemma ReignsStable(nodes: seq<Node>, nodes': seq<Node>, R: Reigns, R': Reigns, t: nat)
    requires ReignsOk(nodes, R) && AllEvolve(nodes, nodes') && Extends(R, R') && BooksOk(nodes, R)
    requires forall u | u in R' && u != t :: u in R && R'[u] == R[u]
    requires t in R' ==> ReignOk(nodes', R', t)
    ensures ReignsOk(nodes', R')
  {
    forall u | u in R'
      ensures ReignOk(nodes', R', u)
    {
      if u != t {
        assert ReignOk(nodes, R, u);
        ReignStable(nodes, nodes', R, R', u);
      }
    }
  }

  lemma Books(nodes: seq<Node>, R: Reigns)
    requires NodesOk(nodes, R)
    ensures BooksOk(nodes, R)
  {
    forall p | 0 <= p < |nodes|
      ensures BallotsOk(nodes[p]) && AcksOk(nodes[p], R)
    {
      assert NodeOk(nodes[p], R);
    }
  }

  lemma NodeStep(c: Core, p: nat, nd: Node)
    requires Inv(c) && p < |c.nodes|
    requires Evolves(c.nodes[p], nd) && NodeOk(nd, c.reigns) && RoleOk(nd, p, c.reigns)
    requires forall t | t in nd.votes && t !in c.nodes[p].votes :: VoteOk(c.nodes[p := nd], c.reigns, p, t)
    ensures Inv(c.(nodes := c.nodes[p := nd])) && Steps(c, c.(nodes := c.nodes[p := nd]), p)
  {
    hide NodeOk, RoleOk, VoteOk, ReignOk;
    var nodes, nodes', R := c.nodes, c.nodes[p := nd], c.reigns;
    Books(nodes, R);
    VotesStable(nodes, nodes', R, R);
    forall t | t in R
      ensures ReignOk(nodes', R, t)
    {
      assert ReignOk(nodes, R, t);
      ReignStable(nodes, nodes', R, R, t);
    }
  }

  lemma ObserveInv(c: Core, p: nat, t: nat)
    requires Inv(c) && p < |c.nodes| && t > c.nodes[p].term
    ensures Inv(Observe(c, p, t)) && Steps(c, Observe(c, p, t), p)
  {
    hide Covers, WellFormed, CommitBacked, VotesOk, ReignsOk;
    var R, nd := c.reigns, c.nodes[p];
    assert NodeOk(nd, R);
    var nd' := nd.(term := t, votedFor := -1, role := Follower);
    WellFormedStable(nd.log, R, R, nd.term, t);
    CoversStable(R, R, nd.acks, nd.acks, nd.log, nd.term, t);
    CommitRaise(nd.log, nd.commit, nd.term, t, R);
    NodeStep(c, p, nd');
  }

  lemma CommitRaise(log: seq<Entry>, commit: nat, hi: nat, hi': nat, R: Reigns)
    requires CommitBacked(log, commit, hi, R) && hi <= hi'
    ensures CommitBacked(log, commit, hi', R)
  {
    if commit > 0 {
      var t: nat :| t in R && t <= hi && CommittedIn(log, commit, R[t]);
    }
  }

  lemma StepDownInv(c: Core, p: nat)
    requires Inv(c) && p < |c.nodes|
    ensures Inv(StepDown(c, p)) && Steps(c, StepDown(c, p), p)
  {
    hide WellFormed, Covers, VotesOk, ReignsOk, CommitBacked;
    assert NodeOk(c.nodes[p], c.reigns);
    NodeStep(c, p, c.nodes[p].(role := Follower));
  }

  ghost predicate Regular(R: Reigns) {
    forall t | t in R :: t > 0 && Sorted(R[t].log)
  }

  /** The vote check makes the candidate's log cover everything the voter acknowledged. */
  lemma UpToDateCovers(R: Reigns, acks: map<nat, nat>, mine: seq<Entry>, theirs: seq<Entry>, t: nat, hi: nat)
    requires Regular(R) && t > 0 && t !in R && hi <= t
    requires WellFormed(mine, R, hi) && WellFormed(theirs, R, t - 1)
    requires Covers(R, acks, mine, hi) && UpToDate(mine, theirs)
    requires forall u | u in acks :: u <= hi
    ensures Covers(R, acks, theirs, t - 1)
  {
    forall u: nat, i: int | Acked(R, acks, u, i) && u <= t - 1
      ensures Has(theirs, i, u) || Lost(R, i, u, t - 1)
    {
      if Has(mine, i, u) {
        UpToDateHas(R, mine, theirs, i, u, t - 1);
      } else {
        var w: nat :| w in R && u < w <= hi && !Has(R[w].log, i, u);
      }
    }
  }

  lemma UpToDateHas(R: Reigns, mine: seq<Entry>, theirs: seq<Entry>, i: nat, u: nat, hi: nat)
    requires Regular(R) && Grounded(mine, R) && Sorted(mine) && WellFormed(theirs, R, hi)
    requires UpToDate(mine, theirs) && Has(mine, i, u)
    ensures Has(theirs, i, u) || Lost(R, i, u, hi)
  {
    var j, k := |mine| - 1, |theirs| - 1;
    var w := theirs[k].term;
    assert u <= mine[j].term;
    assert Backed(mine, i, R) && Backed(mine, j, R);
    assert k > 0 && Backed(theirs, k, R);
    if w == mine[j].term {
      assert mine[..j + 1][i] == R[w].log[..j + 1][i] == R[w].log[..k + 1][i] == theirs[..k + 1][i];
    } else if Has(R[w].log, i, u) {
      assert theirs[..k + 1][k] == R[w].log[..k + 1][k];
      assert i <= k;
      assert theirs[..k + 1][i] == R[w].log[..k + 1][i];
    }
  }

  lemma CastVoteInv(c: Core, p: nat, cand: nat)
    requires Inv(c) && p < |c.nodes| && cand < |c.nodes| && p != cand
    requires c.nodes[p].votedFor == -1 || c.nodes[p].votedFor == cand
    requires c.nodes[p].term in c.nodes[cand].bids
    requires c.nodes[p].log != [] && c.nodes[cand].bids[c.nodes[p].term] != []
    requires UpToDate(c.nodes[p].log, c.nodes[cand].bids[c.nodes[p].term])
    ensures Inv(CastVote(c, p, cand)) && Steps(c, CastVote(c, p, cand), p)
  {
    hide Covers, WellFormed, CommitBacked, VotesOk, ReignsOk;
    var R, nd := c.reigns, c.nodes[p];
    var t := nd.term;
    var nd' := nd.(votedFor := cand, role := Follower, votes := nd.votes[t := cand]);
    var bid := c.nodes[cand].bids[t];
    assert NodeOk(nd, R) && NodeOk(c.nodes[cand], R);
    RegularReigns(c);
    if t !in R {
      UpToDateCovers(R, nd.acks, nd.log, bid, t, t);
    }
    assert VoteOk(c.nodes[p := nd'], R, p, t);
    NodeStep(c, p, nd');
  }

  lemma RegularReigns(c: Core)
    requires ReignsOk(c.nodes, c.reigns)
    ensures Regular(c.reigns) && ChosenInRange(c.reigns)
  {
    forall t | t in c.reigns
      ensures t > 0 && Sorted(c.reigns[t].log) && c.reigns[t].chosen < |c.reigns[t].log|
    {
      assert ReignOk(c.nodes, c.reigns, t);
    }
  }

  lemma CampaignInv(c: Core, p: nat)
    requires Inv(c) && p < |c.nodes|
    ensures Inv(Campaign(c, p)) && Steps(c, Campaign(c, p), p)
  {
    hide Covers, WellFormed, CommitBacked, VotesOk, ReignsOk;
    var R, nd := c.reigns, c.nodes[p];
    var t := nd.term + 1;
    assert NodeOk(nd, R);
    var nd' := nd.(term := t, votedFor := p, role := Candidate, votes := nd.votes[t := p],
                   bids := nd.bids[t := nd.log]);
    WellFormedStable(nd.log, R, R, nd.term, t);
    CoversStable(R, R, nd.acks, nd.acks, nd.log, nd.term, t);
    CommitRaise(nd.log, nd.commit, nd.term, t, R);
    if t in R {
      UnvotedTerm(c, p, t);
    }
    assert VoteOk(c.nodes[p := nd'], R, p, t);
    NodeStep(c, p, nd');
  }

  /** A term that a node has not reached was not led by it. */
  lemma UnvotedTerm(c: Core, p: nat, t: nat)
    requires Inv(c) && p < |c.nodes| && t in c.reigns && t > c.nodes[p].term
    ensures c.reigns[t].leader != p
  {
    assert ReignOk(c.nodes, c.reigns, t);
    var voters := c.reigns[t].voters;
    assert voters != {};
    var v :| v in voters;
    assert VoterOk(c.nodes, c.reigns, t, v);
    assert VoteOk(c.nodes, c.reigns, v, t);
    assert NodeOk(c.nodes[p], c.reigns);
  }

  ghost predicate Matching(a: seq<Entry>, b: seq<Entry>) {
    forall i | 0 <= i < |a| && i < |b| && a[i].term == b[i].term :: a[..i + 1] == b[..i + 1]
  }

  lemma GroundedMatching(a: seq<Entry>, b: seq<Entry>, R: Reigns)
    requires Grounded(a, R) && Grounded(b, R)
    ensures Matching(a, b)
  {
    hide Grounded;
    forall i | 0 <= i < |a| && i < |b| && a[i].term == b[i].term
      ensures a[..i + 1] == b[..i + 1]
    {
      LogMatching(a, b, i, R);
    }
  }

  /** After the merge the leader's prefix is in the log, entry by entry. */
  lemma MergePrefix(log: seq<Entry>, lead: seq<Entry>, m: nat)
    requires m < |lead| && Matching(log, lead)
    ensures m < |Merge(log, lead[..m + 1])| && Merge(log, lead[..m + 1])[..m + 1] == lead[..m + 1]
  {
    if Merge(log, lead[..m + 1]) == log && |log| > m
       && (forall i | 0 <= i < m + 1 :: log[i].term == lead[..m + 1][i].term) {
      assert log[m].term == lead[..m + 1][m].term;
    }
  }

  /** A prefix on which the log already agrees with the leader survives a merge. */
  lemma MergeKeeps(log: seq<Entry>, lead: seq<Entry>, m: nat, k: nat)
    requires k < |log| && k < |lead| && m < |lead| && log[..k + 1] == lead[..k + 1]
    ensures k < |Merge(log, lead[..m + 1])| && Merge(log, lead[..m + 1])[..k + 1] == log[..k + 1]
  {
    if m < k {
      forall i | 0 <= i < m + 1
        ensures log[i].term == lead[..m + 1][i].term
      {
        assert log[..k + 1][i] == lead[..k + 1][i];
      }
    } else if Merge(log, lead[..m + 1]) == lead[..m + 1] {
      assert lead[..m + 1][..k + 1] == lead[..k + 1];
    }
  }

  lemma WellFormedPrefix(log: seq<Entry>, R: Reigns, hi: nat, k: nat)
    requires WellFormed(log, R, hi) && k < |log|
    ensures WellFormed(log[..k + 1], R, hi)
  {
    var front := log[..k + 1];
    forall i | 0 < i < |front|
      ensures Backed(front, i, R)
    {
      assert Backed(log, i, R);
      assert front[..i + 1] == log[..i + 1];
    }
  }

  /** After a merge the node covers its acknowledgements, the new one included. */
  lemma AcceptCovers(R: Reigns, acks: map<nat, nat>, log: seq<Entry>, t: nat, m: nat, m': nat)
    requires t in R && m < |R[t].log| && Grounded(log, R) && Grounded(R[t].log, R)
    requires Covers(R, acks, log, t)
    requires t in acks ==> m' == Max(acks[t], m)
    requires t !in acks ==> m' == m
    ensures Covers(R, acks[t := m'], Merge(log, R[t].log[..m + 1]), t)
  {
    var lead := R[t].log;
    var log' := Merge(log, lead[..m + 1]);
    forall u: nat, i: int | Acked(R, acks[t := m'], u, i) && u <= t
      ensures Has(log', i, u) || Lost(R, i, u, t)
    {
      if u == t && i <= m {
        if log' == log {
          assert log[i].term == lead[..m + 1][i].term;
        }
      } else {
        assert Acked(R, acks, u, i);
        if Has(log, i, u) && Has(lead, i, u) {
          HasPrefix(log, lead, i, u, R);
          MergeKeeps(log, lead, m, i);
          assert log'[..i + 1][i] == log[..i + 1][i];
        }
      }
    }
  }

  /** What a node knows to be committed is in the log of the leader of its own term. */
  lemma CommitInLeader(c: Core, log: seq<Entry>, commit: nat, t: nat)
    requires ReignsOk(c.nodes, c.reigns) && t in c.reigns && CommitBacked(log, commit, t, c.reigns)
    requires Grounded(log, c.reigns)
    ensures commit < |log| && commit < |c.reigns[t].log| && log[..commit + 1] == c.reigns[t].log[..commit + 1]
  {
    hide Backed, Sorted, VoterOk, ChosenOk;
    var R := c.reigns;
    assert ReignOk(c.nodes, R, t);
    if commit > 0 {
      var u: nat :| u in R && u <= t && CommittedIn(log, commit, R[u]);
      if u < t {
        LeaderCompleteness(c, u, t);
        assert R[u].log[..R[u].chosen + 1][..commit + 1] == R[u].log[..commit + 1];
        assert R[t].log[..R[u].chosen + 1][..commit + 1] == R[t].log[..commit + 1];
      }
    }
  }

  lemma CommitMoved(log: seq<Entry>, log': seq<Entry>, commit: nat, hi: nat, R: Reigns)
    requires CommitBacked(log, commit, hi, R) && commit < |log'| && log'[..commit + 1] == log[..commit + 1]
    ensures CommitBacked(log', commit, hi, R)
  {
    if commit > 0 {
      var t: nat :| t in R && t <= hi && CommittedIn(log, commit, R[t]);
      assert CommittedIn(log', commit, R[t]);
    }
  }

  lemma AcceptNode(c: Core, nd: Node, lead: seq<Entry>, m: nat, acks: map<nat, nat>)
    requires ReignsOk(c.nodes, c.reigns) && NodeOk(nd, c.reigns)
    requires nd.term in c.reigns && lead == c.reigns[nd.term].log && m < |lead|
    requires acks == nd.acks[nd.term := if nd.term in nd.acks then Max(nd.acks[nd.term], m) else m]
    ensures NodeOk(nd.(log := Merge(nd.log, lead[..m + 1]), acks := acks), c.reigns)
    ensures nd.commit < |Merge(nd.log, lead[..m + 1])|
  {
    hide Covers, Grounded, Sorted, CommitBacked, Merge, VoterOk, ChosenOk;
    var R, t := c.reigns, nd.term;
    assert ReignOk(c.nodes, R, t);
    WellFormedPrefix(lead, R, t, m);
    MergeForm(nd.log, lead[..m + 1]);
    AcceptHeld(nd, lead, m, R);
    AcceptCovers(R, nd.acks, nd.log, t, m, acks[t]);
    CommitInLeader(c, nd.log, nd.commit, t);
    MergeKeeps(nd.log, lead, m, nd.commit);
    CommitMoved(nd.log, Merge(nd.log, lead[..m + 1]), nd.commit, t, R);
  }

  lemma AcceptHeld(nd: Node, lead: seq<Entry>, m: nat, R: Reigns)
    requires nd.term in R && lead == R[nd.term].log && m < |lead| && AckHeld(nd, R)
    requires Grounded(nd.log, R) && Grounded(lead, R)
    ensures var log' := Merge(nd.log, lead[..m + 1]);
            var a := if nd.term in nd.acks then Max(nd.acks[nd.term], m) else m;
            a < |log'| && a < |lead| && log'[..a + 1] == lead[..a + 1]
  {
    hide Grounded, Merge, Matching;
    GroundedMatching(nd.log, lead, R);
    MergePrefix(nd.log, lead, m);
    if nd.term in nd.acks && nd.acks[nd.term] > m {
      MergeKeeps(nd.log, lead, m, nd.acks[nd.term]);
    }
  }

  lemma MergeForm(log: seq<Entry>, lead: seq<Entry>)
    ensures Merge(log, lead) == log || Merge(log, lead) == lead
  {
  }

  lemma AcceptInv(c: Core, p: nat, m: nat)
    requires Inv(c) && p < |c.nodes| && c.nodes[p].role == Follower
    requires c.nodes[p].term in c.reigns && m < |c.reigns[c.nodes[p].term].log|
    ensures Inv(Accept(c, p, m)) && Steps(c, Accept(c, p, m), p)
    ensures c.nodes[p].commit < |Accept(c, p, m).nodes[p].log|
  {
    hide Covers, WellFormed, CommitBacked, Merge, VotesOk, ReignsOk, CommittedOk;
    var nd' := Accept(c, p, m).nodes[p];
    AcceptNode(c, c.nodes[p], c.reigns[c.nodes[p].term].log, m, nd'.acks);
    NodeStep(c, p, nd');
  }

  lemma LearnInv(c: Core, p: nat, k: nat)
    requires Inv(c) && p < |c.nodes| && CommitBacked(c.nodes[p].log, k, c.nodes[p].term, c.reigns)
    ensures Inv(Learn(c, p, k)) && Steps(c, Learn(c, p, k), p)
  {
    hide NodeOk, VotesOk, ReignsOk, CommitBacked;
    NodeCommits(c.nodes[p], k, c.reigns);
    NodeStep(c, p, c.nodes[p].(commit := k));
  }

  lemma CommitLower(log: seq<Entry>, commit: nat, k: nat, hi: nat, R: Reigns)
    requires CommitBacked(log, commit, hi, R) && k <= commit
    ensures CommitBacked(log, k, hi, R)
  {
    if k > 0 {
      var t: nat :| t in R && t <= hi && CommittedIn(log, commit, R[t]);
      assert log[..commit + 1][..k + 1] == log[..k + 1];
      assert R[t].log[..commit + 1][..k + 1] == R[t].log[..k + 1];
      assert CommittedIn(log, k, R[t]);
    }
  }

  // ---------------------------------------------------------------- preservation: reigns change

  /** Election safety (section 5.2): a candidate with a majority leads a term nobody led before. */
  lemma FreshReign(c: Core, p: nat, voters: set<nat>)
    requires Inv(c) && p < |c.nodes| && c.nodes[p].role == Candidate && IsQuorum(voters, |c.nodes|)
    requires forall v | v in voters :: c.nodes[p].term in c.nodes[v].votes && c.nodes[v].votes[c.nodes[p].term] == p
    ensures c.nodes[p].term !in c.reigns
  {
    var t := c.nodes[p].term;
    assert RoleOk(c.nodes[p], p, c.reigns);
    if t in c.reigns {
      assert ReignOk(c.nodes, c.reigns, t);
      var v := QuorumsMeet(voters, c.reigns[t].voters, |c.nodes|);
      var _ := VoterOk(c.nodes, c.reigns, t, v);
      assert false;
    }
  }

  lemma OthersStable(nodes: seq<Node>, p: nat, R: Reigns, R': Reigns, t: nat, q: nat)
    requires NodesOk(nodes, R) && p < |nodes| && q < |nodes| && q != p
    requires Extends(R, R') && ChosenInRange(R') && t in R' && R'[t].leader == p
    requires forall u | u in R' && u != t :: u in R && R'[u] == R[u]
    ensures NodeOk(nodes[q], R') && RoleOk(nodes[q], q, R')
  {
    hide WellFormed, BallotsOk, BidsOk, AcksOk, Covers, CommitBacked;
    assert NodeOk(nodes[q], R) && RoleOk(nodes[q], q, R);
    NodeStable(nodes[q], R, R');
    assert t in R ==> Grows(R[t], R'[t], t);
  }

  /** A step of node p that also creates or changes the reign it holds, that of term t. */
  lemma ReignStep(c: Core, p: nat, nd: Node, R': Reigns, t: nat)
    requires NodesOk(c.nodes, c.reigns) && VotesOk(c.nodes, c.reigns) && ReignsOk(c.nodes, c.reigns)
    requires p < |c.nodes| && Evolves(c.nodes[p], nd) && nd.votes == c.nodes[p].votes
    requires Extends(c.reigns, R') && ChosenInRange(R') && t in R' && R'[t].leader == p
    requires forall u | u in R' && u != t :: u in c.reigns && R'[u] == c.reigns[u]
    requires ReignOk(c.nodes[p := nd], R', t) && NodeOk(nd, R') && RoleOk(nd, p, R')
    ensures NodesOk(c.nodes[p := nd], R') && VotesOk(c.nodes[p := nd], R') && ReignsOk(c.nodes[p := nd], R')
  {
    hide NodeOk, RoleOk, ReignOk, VoteOk, Grows, ChosenInRange;
    var nodes, nodes', R := c.nodes, c.nodes[p := nd], c.reigns;
    Books(nodes, R);
    assert AllEvolve(nodes, nodes');
    VotesStable(nodes, nodes', R, R');
    ReignsStable(nodes, nodes', R, R', t);
    forall q | 0 <= q < |nodes'|
      ensures NodeOk(nodes'[q], R') && RoleOk(nodes'[q], q, R')
    {
      if q != p {
        OthersStable(nodes, p, R, R', t, q);
      }
    }
  }

  lemma ElectReign(c: Core, p: nat, voters: set<nat>, nodes': seq<Node>, R': Reigns)
    requires NodesOk(c.nodes, c.reigns) && VotesOk(c.nodes, c.reigns)
    requires p < |c.nodes| && c.nodes[p].role == Candidate && IsQuorum(voters, |c.nodes|)
    requires forall v | v in voters :: c.nodes[p].term in c.nodes[v].votes && c.nodes[v].votes[c.nodes[p].term] == p
    requires c.nodes[p].term !in c.reigns && |c.nodes[p].log| > 0
    requires nodes' == Elect(c, p, voters).nodes && R' == Elect(c, p, voters).reigns
    ensures ReignOk(nodes', R', c.nodes[p].term)
  {
    hide CommitBacked, WellFormed, Covers, VotesOk, BallotsOk, AcksOk, BidsOk;
    var nd, t := c.nodes[p], c.nodes[p].term;
    assert NodeOk(nd, c.reigns) && RoleOk(nd, p, c.reigns);
    assert Extends(c.reigns, R');
    BidTerm(nd, c.reigns, t);
    WellFormedStable(nd.log, c.reigns, R', t, t);
    forall v | v in voters
      ensures VoterOk(nodes', R', t, v)
    {
      assert NodeOk(c.nodes[v], c.reigns);
      VoteLookup(c.nodes, c.reigns, v, t);
      ElectVoter(c.reigns, R', c.nodes[v], nodes'[v], nd.log, t);
    }
  }

  lemma BidTerm(nd: Node, R: Reigns, t: nat)
    requires BidsOk(nd, R) && t in nd.bids
    ensures 0 < t <= nd.term
  {
  }

  lemma VoteLookup(nodes: seq<Node>, R: Reigns, v: nat, t: nat)
    requires VotesOk(nodes, R) && v < |nodes| && t in nodes[v].votes
    ensures VoteOk(nodes, R, v, t)
  {
  }

  lemma ElectVoter(R: Reigns, R': Reigns, nd: Node, nd': Node, log: seq<Entry>, t: nat)
    requires t > 0 && Extends(R, R') && AcksOk(nd, R) && Covers(R, nd.acks, log, t - 1)
    requires nd'.acks == nd.acks || (t in nd'.acks && nd'.acks == nd.acks[t := nd'.acks[t]])
    ensures Covers(R', nd'.acks, log, t - 1)
  {
    CoversStable(R, R', nd.acks, nd'.acks, log, t - 1, t - 1);
  }

  lemma ElectNode(nd: Node, p: nat, R: Reigns, R': Reigns, nd': Node)
    requires NodeOk(nd, R) && Extends(R, R') && ChosenInRange(R')
    requires nd.term !in R && nd.term in R' && R'[nd.term].leader == p && R'[nd.term].log == nd.log
    requires nd.votedFor == p
    requires nd' == nd.(role := Leader, acks := nd.acks[nd.term := |nd.log| - 1])
    ensures NodeOk(nd', R') && RoleOk(nd', p, R')
  {
    hide WellFormed, CommitBacked, BidsOk, BallotsOk;
    NodeStable(nd, R, R');
    assert WellFormed(nd.log, R, nd.term);
    NonEmpty(nd.log, R, nd.term);
    forall u: nat, i: int | Acked(R', nd'.acks, u, i) && u <= nd.term
      ensures Has(nd'.log, i, u) || Lost(R', i, u, nd.term)
    {
      if u < nd.term {
        assert Acked(R', nd.acks, u, i);
      }
    }
    BooksKept(nd, nd', R');
  }

  lemma NonEmpty(log: seq<Entry>, R: Reigns, hi: nat)
    requires WellFormed(log, R, hi)
    ensures |log| > 0 && log[0] == ROOT
  {
  }

  lemma BooksKept(nd: Node, nd': Node, R: Reigns)
    requires BallotsOk(nd) && BidsOk(nd, R)
    requires nd'.term == nd.term && nd'.votedFor == nd.votedFor && nd'.votes == nd.votes && nd'.bids == nd.bids
    ensures BallotsOk(nd') && BidsOk(nd', R)
  {
  }

  lemma ElectInv(c: Core, p: nat, voters: set<nat>)
    requires Inv(c) && p < |c.nodes| && c.nodes[p].role == Candidate && IsQuorum(voters, |c.nodes|)
    requires forall v | v in voters :: c.nodes[p].term in c.nodes[v].votes && c.nodes[v].votes[c.nodes[p].term] == p
    requires |c.nodes[p].log| > 0
    ensures c.nodes[p].term !in c.reigns && Inv(Elect(c, p, voters)) && Steps(c, Elect(c, p, voters), p)
  {
    hide NodeOk, VotesOk, ReignOk, VoterOk, IsQuorum;
    var nd, t, c' := c.nodes[p], c.nodes[p].term, Elect(c, p, voters);
    assert NodeOk(nd, c.reigns) && RoleOk(nd, p, c.reigns);
    FreshReign(c, p, voters);
    RegularReigns(c);
    assert Extends(c.reigns, c'.reigns);
    ElectReign(c, p, voters, c'.nodes, c'.reigns);
    ElectNode(nd, p, c.reigns, c'.reigns, c'.nodes[p]);
    NodeHead(nd, c.reigns);
    ReignStep(c, p, c'.nodes[p], c'.reigns, t);
  }

  lemma NodeHead(nd: Node, R: Reigns)
    requires NodeOk(nd, R)
    ensures |nd.log| > 0 && nd.log[0] == ROOT && nd.commit < |nd.log| && nd.log[|nd.log| - 1].term <= nd.term
    ensures forall t | t in nd.acks :: t in R && t <= nd.term && nd.acks[t] < |R[t].log|
  {
  }

  lemma AppendNode(nd: Node, p: nat, R: Reigns, R': Reigns, nd': Node, e: Entry)
    requires NodeOk(nd, R) && RoleOk(nd, p, R) && nd.role == Leader && e.term == nd.term
    requires nd' == nd.(log := nd.log + [e], acks := nd.acks[nd.term := |nd.log|])
    requires Extends(R, R') && ChosenInRange(R')
    requires nd.term in R' && R'[nd.term].log == nd'.log && R'[nd.term].leader == p
    ensures NodeOk(nd', R') && RoleOk(nd', p, R')
  {
    hide CommitBacked, BidsOk, BallotsOk, Sorted;
    var t := nd.term;
    NodeStable(nd, R, R');
    AppendWellFormed(nd.log, R', e, nd'.log);
    forall u: nat, i: int | Acked(R', nd'.acks, u, i) && u <= t
      ensures Has(nd'.log, i, u) || Lost(R', i, u, t)
    {
      if u < t {
        assert Acked(R', nd.acks, u, i);
      }
    }
    BooksKept(nd, nd', R');
    NodeHead(nd, R);
    assert nd'.log[..nd.commit + 1] == nd.log[..nd.commit + 1];
    CommitMoved(nd.log, nd'.log, nd.commit, t, R');
    assert AckHeld(nd', R');
  }

  lemma AppendWellFormed(log: seq<Entry>, R: Reigns, e: Entry, log': seq<Entry>)
    requires WellFormed(log, R, e.term) && log' == log + [e] && e.term in R && R[e.term].log == log'
    ensures WellFormed(log', R, e.term)
  {
    forall i | 0 < i < |log'|
      ensures Backed(log', i, R)
    {
      if i < |log| {
        assert Backed(log, i, R);
        assert log'[..i + 1] == log[..i + 1];
      }
    }
  }

  lemma AppendInv(c: Core, p: nat, cmd: Command)
    requires Inv(c) && p < |c.nodes| && c.nodes[p].role == Leader
    ensures c.nodes[p].term in c.reigns && Inv(Append(c, p, cmd)) && Steps(c, Append(c, p, cmd), p)
  {
    hide NodeOk, VotesOk, ReignOk, ChosenInRange, ChosenLog;
    var nd, t := c.nodes[p], c.nodes[p].term;
    assert NodeOk(nd, c.reigns) && RoleOk(nd, p, c.reigns);
    var c' := Append(c, p, cmd);
    var nd', R' := c'.nodes[p], c'.reigns;
    RegularReigns(c);
    NodeHead(nd, c.reigns);
    assert nd'.log[..|nd.log|] == nd.log;
    assert Extends(c.reigns, R');
    AppendCommitted(c.reigns, R', c.committed, t);
    AppendNode(nd, p, c.reigns, R', nd', Entry(t, cmd));
    assert Evolves(nd, nd');
    assert ReignOk(c.nodes, c.reigns, t);
    AppendReign(c.nodes, c'.nodes, c.reigns, R', p, t);
    ReignStep(c, p, nd', R', t);
  }

  lemma AppendCommitted(R: Reigns, R': Reigns, committed: seq<Entry>, t: nat)
    requires CommittedOk(R, committed) && Extends(R, R') && t in R && R'.Keys == R.Keys
    requires forall u | u in R && u != t :: R'[u] == R[u]
    requires R'[t].chosen == R[t].chosen
    ensures CommittedOk(R', committed) && ChosenInRange(R')
  {
    assert Grows(R[t], R'[t], t);
    assert R'[t].log[..R[t].chosen + 1] == R'[t].log[..|R[t].log|][..R[t].chosen + 1];
    assert ChosenLog(R'[t]) == ChosenLog(R[t]);
  }

  lemma AppendReign(nodes: seq<Node>, nodes': seq<Node>, R: Reigns, R': Reigns, p: nat, t: nat)
    requires NodesOk(nodes, R) && AllEvolve(nodes, nodes') && Extends(R, R')
    requires t in R && ReignOk(nodes, R, t) && p < |nodes'| && NodeOk(nodes'[p], R')
    requires R'[t].log == nodes'[p].log && nodes'[p].term == t
    requires R'[t].chosen == R[t].chosen && R'[t].quorum == R[t].quorum
    ensures ReignOk(nodes', R', t)
  {
    hide Covers, CommitBacked, BidsOk, BallotsOk, Grounded, Sorted;
    Books(nodes, R);
    assert Grows(R[t], R'[t], t);
    var i := R[t].chosen;
    if i > 0 {
      assert R'[t].log[..|R[t].log|][i] == R'[t].log[i];
      forall q | q in R[t].quorum
        ensures t in nodes'[q].acks && i <= nodes'[q].acks[t]
      {
        assert Evolves(nodes[q], nodes'[q]);
      }
    }
    ReignGrown(nodes, nodes', R, R', t);
  }

  lemma ReignGrown(nodes: seq<Node>, nodes': seq<Node>, R: Reigns, R': Reigns, t: nat)
    requires AllEvolve(nodes, nodes') && Extends(R, R') && BooksOk(nodes, R)
    requires t in R && ReignOk(nodes, R, t) && WellFormed(R'[t].log, R', t) && ChosenOk(nodes', R'[t], t)
    ensures ReignOk(nodes', R', t)
  {
    hide Covers, Grounded, Sorted;
    forall v | v in R'[t].voters
      ensures VoterOk(nodes', R', t, v)
    {
      assert VoterOk(nodes, R, t, v);
      VoterStable(nodes, nodes', R, R', t, v);
    }
  }

  lemma ChooseInv(c: Core, p: nat, i: nat, quorum: set<nat>)
    requires Inv(c) && p < |c.nodes| && c.nodes[p].role == Leader
    requires Has(c.nodes[p].log, i, c.nodes[p].term) && IsQuorum(quorum, |c.nodes|)
    requires forall q | q in quorum :: c.nodes[p].term in c.nodes[q].acks && i <= c.nodes[q].acks[c.nodes[p].term]
    ensures c.nodes[p].term in c.reigns && c.reigns[c.nodes[p].term].log == c.nodes[p].log
    ensures Inv(Choose(c, p, i, quorum)) && Steps(c, Choose(c, p, i, quorum), p)
  {
    hide NodeOk, VotesOk, ReignOk, CommittedOk, IsQuorum, ChosenLog;
    var nd, t := c.nodes[p], c.nodes[p].term;
    assert NodeOk(nd, c.reigns) && RoleOk(nd, p, c.reigns);
    var c' := Choose(c, p, i, quorum);
    var nd', R' := c'.nodes[p], c'.reigns;
    assert ReignOk(c.nodes, c.reigns, t);
    RegularReigns(c);
    assert Extends(c.reigns, R');
    assert Evolves(nd, nd');
    ChooseReign(c, p, i, quorum, c'.nodes, R');
    NodeStable(nd, c.reigns, R');
    assert CommittedIn(nd.log, i, R'[t]);
    NodeCommits(nd, i, R');
    ReignStep(c, p, nd', R', t);
    ChooseCommitted(c, c', t, i);
  }

  lemma NodeCommits(nd: Node, k: nat, R: Reigns)
    requires NodeOk(nd, R) && CommitBacked(nd.log, k, nd.term, R)
    ensures NodeOk(nd.(commit := k), R)
  {
    hide Covers, WellFormed, CommitBacked;
  }

  lemma ChooseReign(c: Core, p: nat, i: nat, quorum: set<nat>, nodes': seq<Node>, R': Reigns)
    requires NodesOk(c.nodes, c.reigns) && p < |c.nodes| && c.nodes[p].term in c.reigns
    requires ReignOk(c.nodes, c.reigns, c.nodes[p].term) && c.reigns[c.nodes[p].term].log == c.nodes[p].log
    requires Has(c.nodes[p].log, i, c.nodes[p].term) && IsQuorum(quorum, |c.nodes|)
    requires forall q | q in quorum :: c.nodes[p].term in c.nodes[q].acks && i <= c.nodes[q].acks[c.nodes[p].term]
    requires nodes' == Choose(c, p, i, quorum).nodes && R' == Choose(c, p, i, quorum).reigns
    ensures ReignOk(nodes', R', c.nodes[p].term)
  {
    hide Covers, Grounded, Sorted, CommitBacked, BidsOk, BallotsOk;
    var t := c.nodes[p].term;
    Books(c.nodes, c.reigns);
    assert AllEvolve(c.nodes, nodes') && Extends(c.reigns, R');
    WellFormedStable(c.reigns[t].log, c.reigns, R', t, t);
    ReignGrown(c.nodes, nodes', c.reigns, R', t);
  }

  /** Any two prefixes committed by counting replicas are comparable. */
  lemma ChosenComparable(c: Core, t: nat, u: nat)
    requires ReignsOk(c.nodes, c.reigns) && t in c.reigns && u in c.reigns
    ensures c.reigns[t].chosen <= c.reigns[u].chosen ==> ChosenLog(c.reigns[t]) <= ChosenLog(c.reigns[u])
  {
    var r, s := c.reigns[t], c.reigns[u];
    assert ReignOk(c.nodes, c.reigns, t) && ReignOk(c.nodes, c.reigns, u);
    if r.chosen <= s.chosen {
      if t < u {
        LeaderCompleteness(c, t, u);
        assert s.log[..s.chosen + 1][..r.chosen + 1] == s.log[..r.chosen + 1];
      } else if u < t {
        LeaderCompleteness(c, u, t);
        assert r.log[..s.chosen + 1][..r.chosen + 1] == r.log[..r.chosen + 1];
        assert s.log[..s.chosen + 1][..r.chosen + 1] == s.log[..r.chosen + 1];
      }
    }
  }

  lemma ChooseCommitted(c: Core, c': Core, t: nat, i: nat)
    requires ReignsOk(c'.nodes, c'.reigns) && CommittedOk(c.reigns, c.committed)
    requires t in c.reigns && t in c'.reigns && 0 < i < |c.reigns[t].log|
    requires c'.reigns == c.reigns[t := c'.reigns[t]] && c'.reigns[t].log == c.reigns[t].log
    requires c'.reigns[t].chosen == Max(c.reigns[t].chosen, i)
    requires i <= c.reigns[t].chosen ==> c'.reigns[t] == c.reigns[t]
    requires c'.committed == if i < |c.committed| then c.committed else c.reigns[t].log[..i + 1]
    ensures CommittedOk(c'.reigns, c'.committed) && c.committed <= c'.committed
  {
    hide ReignOk;
    RegularReigns(c');
    var R, R' := c.reigns, c'.reigns;
    var top := t;
    if c.committed != [ROOT] {
      var u: nat :| u in R && c.committed == ChosenLog(R[u]);
      if i < |c.committed| {
        top := u;
      }
      ChosenComparable(c', u, top);
    }
    assert c'.committed == ChosenLog(R'[top]);
    forall w | w in R'
      ensures ChosenLog(R'[w]) <= c'.committed
    {
      ChosenComparable(c', w, top);
    }
  }
}
