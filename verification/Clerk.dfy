/** Retrying clerks (src/kvsrv1/client.go and src/kvraft1/client.go) over a network that loses and
    delays requests and answers.  A call that fails, or reaches a server that is not the leader,
    is sent again, while the earlier copy may still be executed at any later time.  Each copy is
    executed at most once: it is one message, or one operation of the replicated log. */
module Clerk {
  import opened Types
  import opened KvStore
  import Runs

  datatype Copy = Copy(op: nat, attempt: nat)

  /** at is the place of the execution in the history of the store. */
  datatype Answer = Answer(op: nat, attempt: nat, reply: Reply, at: nat)

  /** One call of Get or Put.  since is the length of the history when it began, attempts counts
      the resends, at is the place of the execution whose answer the clerk returned. */
  datatype Call = Call(client: nat, request: Request, since: nat, attempts: nat, outcome: Option<Reply>, at: nat)

  /** busy names the call each client is in.  history and effects are shadow state: the requests
      executed so far, and, for each call, how many of its copies changed the store. */
  datatype System = System(
    store: Store,
    net: set<Copy>,
    answers: set<Answer>,
    calls: seq<Call>,
    busy: seq<Option<nat>>,
    history: seq<Request>,
    effects: multiset<nat>)

  datatype Action =
    | Invoke(c: nat, request: Request)
    | Resend(c: nat)
    | Execute(copy: Copy)
    | Return(c: nat, a: Answer)

  /** What the clerk makes of an answer: a version error on a resend leaves it uncertain. */
  function Result(reply: Reply, retried: bool): Reply {
    if reply == PutReply(ErrVersion) && retried then PutReply(ErrMaybe) else reply
  }

  predicate Shape(s: System) {
    && (forall c | 0 <= c < |s.busy| && s.busy[c].Some? :: s.busy[c].value < |s.calls|)
    && (forall copy | copy in s.net :: copy.op < |s.calls|)
  }

  predicate Enabled(s: System, a: Action) {
    match a
    case Invoke(c, request) => c < |s.busy| && s.busy[c].None?
    case Resend(c) => c < |s.busy| && s.busy[c].Some?
    case Execute(copy) => copy in s.net
    case Return(c, a) =>
      && c < |s.busy| && s.busy[c].Some? && a in s.answers
      && a.op == s.busy[c].value && a.op < |s.calls| && a.attempt == s.calls[a.op].attempts
  }

  function Apply(s: System, a: Action): System
    requires Shape(s) && Enabled(s, a)
  {
    match a
    case Invoke(c, request) =>
      var op := |s.calls|;
      s.(calls := s.calls + [Call(c, request, |s.history|, 0, None, 0)],
         busy := s.busy[c := Some(op)],
         net := s.net + {Copy(op, 0)})
    case Resend(c) =>
      var op := s.busy[c].value;
      var k := s.calls[op].attempts + 1;
      s.(calls := s.calls[op := s.calls[op].(attempts := k)], net := s.net + {Copy(op, k)})
    case Execute(copy) =>
      var request := s.calls[copy.op].request;
      var (store, reply) := DoOp(s.store, request);
      s.(store := store,
         net := s.net - {copy},
         answers := s.answers + {Answer(copy.op, copy.attempt, reply, |s.history|)},
         history := s.history + [request],
         effects := if reply == PutReply(OK) then s.effects + multiset{copy.op} else s.effects)
    case Return(c, a) =>
      var call := s.calls[a.op];
      s.(calls := s.calls[a.op := call.(outcome := Some(Result(a.reply, call.attempts > 0)), at := a.at)],
         busy := s.busy[c := None])
  }

  function Init(n: nat): System {
    System(map[], {}, {}, [], seq(n, _ => None), [], multiset{})
  }

  ghost predicate Next(s: System, a: Action, t: System) {
    Shape(s) && Enabled(s, a) && t == Apply(s, a)
  }

  /** acts is a run from s to t. */
  ghost predicate Run(s: System, acts: seq<Action>, t: System) {
    Runs.Run(Next, s, acts, t)
  }

  // ---------------------------------------------------------------- invariant

  ghost predicate AnswerOk(s: System, a: Answer) {
    && a.op < |s.calls|
    && var call := s.calls[a.op];
       && a.attempt <= call.attempts && Copy(a.op, a.attempt) !in s.net
       && call.since <= a.at < |s.history| && s.history[a.at] == call.request
       && a.reply == DoOp(KvStore.Run(map[], s.history[..a.at]), call.request).1
       && (a.reply == PutReply(OK) ==> s.effects[a.op] == 1)
       && (call.attempts == 0 ==> (s.effects[a.op] == 1 <==> a.reply == PutReply(OK)))
  }

  ghost predicate CopyOk(s: System, copy: Copy) {
    && copy.op < |s.calls| && copy.attempt <= s.calls[copy.op].attempts
    && (s.calls[copy.op].attempts == 0 ==> s.effects[copy.op] == 0)
  }

  ghost predicate EffectOk(s: System, op: nat) {
    && s.effects[op] <= 1
    && (s.effects[op] == 1 ==>
          && op < |s.calls|
          && (var r := s.calls[op].request; r.Put? && r.version < VersionOf(s.store, r.key))
          && exists a :: Struck(s, op, a))
  }

  /** The answer of the copy that changed the store. */
  ghost predicate Struck(s: System, op: nat, a: Answer) {
    a in s.answers && a.op == op && a.reply == PutReply(OK)
  }

  ghost predicate Settled(s: System, op: nat, a: Answer)
    requires op < |s.calls|
  {
    var call := s.calls[op];
    && a in s.answers && a.op == op && a.attempt == call.attempts && a.at == call.at
    && call.outcome == Some(Result(a.reply, call.attempts > 0))
  }

  ghost predicate CallOk(s: System, op: nat)
    requires op < |s.calls|
  {
    && s.calls[op].since <= |s.history|
    && s.calls[op].client < |s.busy|
    && (s.calls[op].outcome.None? ==> s.busy[s.calls[op].client] == Some(op))
    && (s.calls[op].outcome.Some? ==> exists a :: Settled(s, op, a))
  }

  ghost predicate BusyOk(s: System, c: nat)
    requires c < |s.busy|
  {
    s.busy[c].Some? ==>
      var op := s.busy[c].value; op < |s.calls| && s.calls[op].client == c && s.calls[op].outcome.None?
  }

  ghost predicate Filled(answers: set<Answer>, k: nat) {
    exists a :: a in answers && a.at == k
  }

  /** Each place of the history is that of exactly one answer, and a call is told OK for one copy. */
  ghost predicate PlacesOk(answers: set<Answer>, history: seq<Request>) {
    && (forall a, b | a in answers && b in answers && a.at == b.at :: a == b)
    && (forall a, b | a in answers && b in answers && a.op == b.op && a.reply == b.reply == PutReply(OK) :: a == b)
    && (forall k | 0 <= k < |history| :: Filled(answers, k))
  }

  ghost predicate Inv(s: System) {
    && s.store == KvStore.Run(map[], s.history)
    && PlacesOk(s.answers, s.history)
    && (forall a | a in s.answers :: AnswerOk(s, a))
    && (forall copy | copy in s.net :: CopyOk(s, copy))
    && (forall op: nat :: EffectOk(s, op))
    && (forall op | 0 <= op < |s.calls| :: CallOk(s, op))
    && (forall c | 0 <= c < |s.busy| :: BusyOk(s, c))
  }

  lemma EffectKept(s: System, t: System, op: nat)
    requires EffectOk(s, op) && t.effects[op] == s.effects[op] && s.answers <= t.answers && |s.calls| <= |t.calls|
    requires op < |s.calls| ==> t.calls[op].request == s.calls[op].request
    requires op < |s.calls| ==>
               VersionOf(s.store, s.calls[op].request.key) <= VersionOf(t.store, s.calls[op].request.key)
    ensures EffectOk(t, op)
  {
    hide VersionOf;
    if s.effects[op] == 1 {
      var a :| Struck(s, op, a);
      assert Struck(t, op, a);
    }
  }

  lemma InvokeInv(s: System, c: nat, request: Request)
    requires Inv(s) && Shape(s) && Enabled(s, Invoke(c, request))
    ensures Inv(Apply(s, Invoke(c, request)))
  {
    hide KvStore.Run, DoOp;
    var t := Apply(s, Invoke(c, request));
    assert EffectOk(s, |s.calls|);
    forall copy | copy in t.net ensures CopyOk(t, copy) { assert copy in s.net ==> CopyOk(s, copy); }
    forall a | a in t.answers ensures AnswerOk(t, a) { assert AnswerOk(s, a); }
    forall op: nat ensures EffectOk(t, op) { assert EffectOk(s, op); EffectKept(s, t, op); }
    forall op | 0 <= op < |t.calls|
      ensures CallOk(t, op)
    {
      if op < |s.calls| {
        assert CallOk(s, op) && BusyOk(s, c);
        if s.calls[op].outcome.Some? {
          var a :| Settled(s, op, a);
          assert Settled(t, op, a);
        }
      }
    }
    forall d | 0 <= d < |t.busy| ensures BusyOk(t, d) { assert BusyOk(s, d); }
  }

  lemma ResendInv(s: System, c: nat)
    requires Inv(s) && Shape(s) && Enabled(s, Resend(c))
    ensures Inv(Apply(s, Resend(c)))
  {
    hide KvStore.Run, DoOp;
    var t := Apply(s, Resend(c));
    assert BusyOk(s, c);
    forall copy | copy in t.net ensures CopyOk(t, copy) { assert copy in s.net ==> CopyOk(s, copy); }
    forall a | a in t.answers ensures AnswerOk(t, a) { assert AnswerOk(s, a); }
    forall op: nat ensures EffectOk(t, op) { assert EffectOk(s, op); EffectKept(s, t, op); }
    forall op | 0 <= op < |t.calls|
      ensures CallOk(t, op)
    {
      assert CallOk(s, op);
      if s.calls[op].outcome.Some? {
        var a :| Settled(s, op, a);
        assert Settled(t, op, a);
      }
    }
    forall d | 0 <= d < |t.busy| ensures BusyOk(t, d) { assert BusyOk(s, d); }
  }

  /** Executing a copy changes the store only if no copy of the call did before. */
  lemma ExecuteEffect(s: System, copy: Copy)
    requires Inv(s) && Shape(s) && Enabled(s, Execute(copy))
    ensures forall op: nat :: EffectOk(Apply(s, Execute(copy)), op)
    ensures DoOp(s.store, s.calls[copy.op].request).1 == PutReply(OK) ==> s.effects[copy.op] == 0
  {
    hide KvStore.Run, AnswerOk, CallOk, BusyOk, CopyOk;
    RunVersioned(s.history);
    var t := Apply(s, Execute(copy));
    assert EffectOk(s, copy.op);
    var mine := Answer(copy.op, copy.attempt, DoOp(s.store, s.calls[copy.op].request).1, |s.history|);
    forall op: nat
      ensures EffectOk(t, op)
    {
      assert EffectOk(s, op);
      if op == copy.op && mine.reply == PutReply(OK) {
        assert Struck(t, op, mine);
      } else {
        EffectKept(s, t, op);
      }
    }
  }

  lemma HistoryPrefix(h: seq<Request>, r: Request, k: nat)
    requires k <= |h|
    ensures (h + [r])[..k] == h[..k]
    ensures KvStore.Run(map[], h + [r]) == DoOp(KvStore.Run(map[], h), r).0
  {
    assert (h + [r])[..|h|] == h;
  }

  /** An execution is answered at the next place of the history. */
  lemma ExecutePlaces(s: System, copy: Copy)
    requires Inv(s) && Shape(s) && Enabled(s, Execute(copy))
    ensures PlacesOk(Apply(s, Execute(copy)).answers, Apply(s, Execute(copy)).history)
  {
    hide KvStore.Run, EffectOk, CallOk, BusyOk, CopyOk;
    var t := Apply(s, Execute(copy));
    var mine := Answer(copy.op, copy.attempt, DoOp(s.store, s.calls[copy.op].request).1, |s.history|);
    ExecuteEffect(s, copy);
    hide DoOp;
    forall a | a in s.answers
      ensures a.at < mine.at && !(a.op == mine.op && a.reply == mine.reply == PutReply(OK))
    {
      assert AnswerOk(s, a);
    }
    forall k | 0 <= k < |t.history|
      ensures Filled(t.answers, k)
    {
      if k == |s.history| {
        assert mine in t.answers;
      } else {
        assert Filled(s.answers, k);
        var a :| a in s.answers && a.at == k;
        assert a in t.answers;
      }
    }
  }

  lemma ExecuteInv(s: System, copy: Copy)
    requires Inv(s) && Shape(s) && Enabled(s, Execute(copy))
    ensures Inv(Apply(s, Execute(copy)))
  {
    hide KvStore.Run, DoOp, EffectOk, PlacesOk;
    var t := Apply(s, Execute(copy));
    var request := s.calls[copy.op].request;
    ExecuteEffect(s, copy);
    ExecutePlaces(s, copy);
    HistoryPrefix(s.history, request, |s.history|);
    assert CopyOk(s, copy) && CallOk(s, copy.op);
    var mine := Answer(copy.op, copy.attempt, DoOp(s.store, request).1, |s.history|);
    forall a | a in t.answers
      ensures AnswerOk(t, a)
    {
      if a != mine {
        assert AnswerOk(s, a);
        HistoryPrefix(s.history, request, a.at);
        assert EffectOk(t, a.op);
        OneEffect(t, a.op);
      } else {
        OneEffect(t, a.op);
      }
    }
    forall x | x in t.net
      ensures CopyOk(t, x)
    {
      assert CopyOk(s, x);
      if x.op == copy.op && s.calls[x.op].attempts == 0 {
        FirstCopies(s, x, copy);
      }
    }
    forall op | 0 <= op < |t.calls|
      ensures CallOk(t, op)
    {
      assert CallOk(s, op);
      if s.calls[op].outcome.Some? {
        var a :| Settled(s, op, a);
        assert Settled(t, op, a);
      }
    }
    forall d | 0 <= d < |t.busy| ensures BusyOk(t, d) { assert BusyOk(s, d); }
  }

  lemma OneEffect(s: System, op: nat)
    requires EffectOk(s, op)
    ensures s.effects[op] <= 1
  {
  }

  /** A call that was never resent has one copy. */
  lemma FirstCopies(s: System, x: Copy, y: Copy)
    requires Inv(s) && x in s.net && y in s.net && x.op == y.op && x.op < |s.calls| && s.calls[x.op].attempts == 0
    ensures x == y
  {
    hide KvStore.Run, DoOp;
    assert CopyOk(s, x) && CopyOk(s, y);
  }

  lemma ReturnInv(s: System, c: nat, a: Answer)
    requires Inv(s) && Shape(s) && Enabled(s, Return(c, a))
    ensures Inv(Apply(s, Return(c, a)))
  {
    hide KvStore.Run, DoOp;
    var t := Apply(s, Return(c, a));
    assert BusyOk(s, c) && CallOk(s, a.op);
    assert Settled(t, a.op, a);
    forall copy | copy in t.net ensures CopyOk(t, copy) { assert CopyOk(s, copy); }
    forall x | x in t.answers ensures AnswerOk(t, x) { assert AnswerOk(s, x); }
    forall op: nat ensures EffectOk(t, op) { assert EffectOk(s, op); EffectKept(s, t, op); }
    forall op | 0 <= op < |t.calls|
      ensures CallOk(t, op)
    {
      assert CallOk(s, op);
      if s.calls[op].outcome.Some? {
        var x :| Settled(s, op, x);
        assert Settled(t, op, x);
      }
    }
    forall d | 0 <= d < |t.busy| ensures BusyOk(t, d) { assert BusyOk(s, d); }
  }

  lemma InvShape(s: System)
    requires Inv(s)
    ensures Shape(s)
  {
    hide KvStore.Run, DoOp, EffectOk, AnswerOk, CallOk;
    forall c | 0 <= c < |s.busy| && s.busy[c].Some? ensures s.busy[c].value < |s.calls| { assert BusyOk(s, c); }
    forall copy | copy in s.net ensures copy.op < |s.calls| { assert CopyOk(s, copy); }
  }

  lemma StepInv(s: System, a: Action)
    requires Inv(s) && Shape(s) && Enabled(s, a)
    ensures Inv(Apply(s, a)) && Shape(Apply(s, a))
  {
    hide Inv, Shape;
    match a {
      case Invoke(c, request) => InvokeInv(s, c, request);
      case Resend(c) => ResendInv(s, c);
      case Execute(copy) => ExecuteInv(s, copy);
      case Return(c, answer) => ReturnInv(s, c, answer);
    }
    InvShape(Apply(s, a));
  }

  lemma InitInv(n: nat)
    ensures Inv(Init(n)) && Shape(Init(n))
  {
  }

  // ---------------------------------------------------------------- runs

  /** t is a later state than s: finished calls and the history behind them stay. */
  ghost predicate Later(s: System, t: System) {
    && s.history <= t.history
    && |s.calls| <= |t.calls|
    && (forall op | 0 <= op < |s.calls| ::
          t.calls[op].request == s.calls[op].request && t.calls[op].since == s.calls[op].since)
    && (forall op | 0 <= op < |s.calls| && s.calls[op].outcome.Some? :: t.calls[op] == s.calls[op])
    && (forall op | |s.calls| <= op < |t.calls| :: |s.history| <= t.calls[op].since)
    && s.answers <= t.answers
    && (forall a | a in t.answers && a !in s.answers :: |s.history| <= a.at)
  }

  lemma StepLater(s: System, a: Action)
    requires Inv(s) && Shape(s) && Enabled(s, a)
    ensures Later(s, Apply(s, a))
  {
    hide DoOp, EffectOk, AnswerOk, CallOk, CopyOk;
    if a.Resend? || a.Return? {
      assert BusyOk(s, a.c);
    }
  }

  lemma LaterTransitive(s: System, t: System, u: System)
    requires Later(s, t) && Later(t, u)
    ensures Later(s, u)
  {
    assert u.history[..|t.history|][..|s.history|] == u.history[..|s.history|];
  }

  lemma RunInv(s: System, acts: seq<Action>, t: System)
    requires Inv(s) && Shape(s) && Run(s, acts, t)
    ensures Inv(t) && Shape(t) && Later(s, t)
  {
    hide Inv, Shape, Apply, Enabled, Later;
    var kept := (x: System) => Inv(x) && Shape(x) && Later(s, x);
    forall x, a, y | kept(x) && Next(x, a, y)
      ensures kept(y)
    {
      StepInv(x, a);
      StepLater(x, a);
      LaterTransitive(s, x, y);
    }
    LaterReflexive(s);
    Runs.Invariant(Next, kept, s, acts, t);
  }

  lemma LaterReflexive(s: System)
    ensures Later(s, s)
  {
  }

  lemma Reachable(n: nat, acts: seq<Action>, s: System, more: seq<Action>, t: System)
    requires Run(Init(n), acts, s) && Run(s, more, t)
    ensures Inv(s) && Inv(t) && Later(s, t)
  {
    hide Inv, Shape, Run;
    InitInv(n);
    RunInv(Init(n), acts, s);
    RunInv(s, more, t);
  }

  lemma RunNothing(s: System)
    ensures Run(s, [], s)
  {
    Runs.Nothing(Next, s);
  }

  lemma RunThen(s: System, acts: seq<Action>, t: System, a: Action)
    requires Run(s, acts, t) && Shape(t) && Enabled(t, a)
    ensures Run(s, acts + [a], Apply(t, a))
  {
    hide Shape, Enabled, Apply;
    Runs.Then(Next, s, acts, t, a, Apply(t, a));
  }

  lemma RunConcat(s: System, a: seq<Action>, t: System, b: seq<Action>, u: System)
    requires Run(s, a, t) && Run(t, b, u)
    ensures Run(s, a + b, u)
  {
    Runs.Concat(Next, s, a, t, b, u);
  }

  /** What the caller of Put may conclude, at the return and for ever after: OK means that exactly
      one copy took effect, ErrVersion and an ErrNoKey of a call that was not resent mean that
      none did or will, and in every case at most one does. */
  lemma PutOutcome(n: nat, acts: seq<Action>, s: System, op: nat, more: seq<Action>, t: System)
    requires Run(Init(n), acts, s) && Run(s, more, t)
    requires op < |s.calls| && s.calls[op].outcome.Some? && s.calls[op].request.Put?
    ensures var out := s.calls[op].outcome.value;
            && out.PutReply? && out.err in {OK, ErrVersion, ErrNoKey, ErrMaybe}
            && t.effects[op] <= 1
            && (out.err == OK ==> t.effects[op] == 1)
            && (out.err == ErrVersion ==> t.effects[op] == 0 && s.calls[op].attempts == 0)
            && (out.err == ErrMaybe ==> s.calls[op].attempts > 0)
            && (out.err == ErrNoKey && s.calls[op].attempts == 0 ==> t.effects[op] == 0)
  {
    hide KvStore.Run, Run, EffectOk;
    Reachable(n, acts, s, more, t);
    assert EffectOk(t, op) && CallOk(t, op);
    OneEffect(t, op);
    var a :| Settled(t, op, a);
    assert AnswerOk(t, a);
  }

  /** Linearizability of the calls: a call returns what the sequential store answers at one place of
      the history between its beginning and its end, ErrMaybe standing for ErrVersion exactly if it
      was resent; no two calls have the same place; and a call that begins after another one ended
      is placed after it. */
  lemma CallsAreLinear(n: nat, acts: seq<Action>, s: System, op: nat, more: seq<Action>, t: System, other: nat)
    requires Run(Init(n), acts, s) && Run(s, more, t)
    requires op < |s.calls| && s.calls[op].outcome.Some?
    ensures var call := s.calls[op];
            && call.since <= call.at < |s.history| && s.history[call.at] == call.request
            && var told := DoOp(KvStore.Run(map[], s.history[..call.at]), call.request).1;
               var unsure := told == PutReply(ErrVersion) && call.attempts > 0;
               call.outcome == Some(if unsure then PutReply(ErrMaybe) else told)
    ensures other < |t.calls| && t.calls[other].outcome.Some? ==>
              && (other != op ==> s.calls[op].at != t.calls[other].at)
              && (|s.calls| <= other ==> s.calls[op].at < t.calls[other].at)
    ensures s.history <= t.history
  {
    hide KvStore.Run, Run, EffectOk, DoOp, PlacesOk;
    Reachable(n, acts, s, more, t);
    SettledAt(s, op);
    if other < |t.calls| && t.calls[other].outcome.Some? {
      SettledAt(t, other);
      if other != op {
        ApartAt(t, op, other);
      }
    }
  }

  /** Two calls never share a place. */
  lemma ApartAt(s: System, op: nat, other: nat)
    requires Inv(s) && op < |s.calls| && s.calls[op].outcome.Some?
    requires other < |s.calls| && s.calls[other].outcome.Some? && other != op
    ensures s.calls[op].at != s.calls[other].at
  {
    hide KvStore.Run, EffectOk, DoOp;
    var a := SettledAnswer(s, op);
    var b := SettledAnswer(s, other);
  }

  /** Of all calls of Put that name one version of one key, at most one is ever told OK. */
  lemma AtMostOneOk(n: nat, acts: seq<Action>, s: System, op: nat, other: nat)
    requires Run(Init(n), acts, s) && op < |s.calls| && other < |s.calls| && op != other
    requires s.calls[op].outcome == s.calls[other].outcome == Some(PutReply(OK))
    requires s.calls[op].request.Put? && s.calls[other].request.Put?
    requires s.calls[op].request.key == s.calls[other].request.key
    ensures s.calls[op].request.version != s.calls[other].request.version
  {
    hide KvStore.Run, Run, DoOp;
    RunNothing(s);
    CallsAreLinear(n, acts, s, op, [], s, other);
    CallsAreLinear(n, acts, s, other, [], s, op);
    hide CallOk;
    var key, i, j := s.calls[op].request.key, s.calls[op].at, s.calls[other].at;
    AtMostOnePutPerVersion(s.history, if i < j then i else j, if i < j then j else i, key);
  }

  /** The change that the store undergoes at place k is the effect of the call: it was made after the
      call began, is the call's only one, and is the place of the call if that returned OK. */
  ghost predicate ChangedBy(s: System, k: nat, op: nat)
    requires k < |s.history|
  {
    && op < |s.calls| && s.history[k] == s.calls[op].request && s.calls[op].since <= k && s.effects[op] == 1
    && (s.calls[op].outcome == Some(PutReply(OK)) ==> s.calls[op].at == k)
  }

  /** Every change of the store is the effect of a call, and no call accounts for another one. */
  lemma ChangesAreCalls(n: nat, acts: seq<Action>, s: System, k: nat, key: string) returns (op: nat)
    requires Run(Init(n), acts, s) && k < |s.history| && Succeeds(s.history, k, key)
    ensures ChangedBy(s, k, op)
    ensures forall j, other | 0 <= j < |s.history| && j != k && Succeeds(s.history, j, other) :: !ChangedBy(s, j, op)
  {
    hide KvStore.Run, Run, DoOp, Inv;
    RunNothing(s);
    Reachable(n, acts, s, [], s);
    op := StruckAt(s, k);
    forall j, other | 0 <= j < |s.history| && j != k && Succeeds(s.history, j, other) && ChangedBy(s, j, op)
      ensures false
    {
      AtMostOnePutPerVersion(s.history, if j < k then j else k, if j < k then k else j, key);
    }
  }

  lemma StruckAt(s: System, k: nat) returns (op: nat)
    requires Inv(s) && k < |s.history| && DoOp(KvStore.Run(map[], s.history[..k]), s.history[k]).1 == PutReply(OK)
    ensures ChangedBy(s, k, op)
  {
    hide KvStore.Run, EffectOk, DoOp, CopyOk, BusyOk;
    assert Filled(s.answers, k);
    var a :| a in s.answers && a.at == k;
    assert AnswerOk(s, a);
    op := a.op;
    if s.calls[op].outcome == Some(PutReply(OK)) {
      var b := SettledAnswer(s, op);
    }
  }

  lemma SettledAt(s: System, op: nat)
    requires Inv(s) && op < |s.calls| && s.calls[op].outcome.Some?
    ensures var call := s.calls[op];
            && call.since <= call.at < |s.history| && s.history[call.at] == call.request
            && var told := DoOp(KvStore.Run(map[], s.history[..call.at]), call.request).1;
               var unsure := told == PutReply(ErrVersion) && call.attempts > 0;
               call.outcome == Some(if unsure then PutReply(ErrMaybe) else told)
  {
    hide KvStore.Run, EffectOk, DoOp;
    assert CallOk(s, op);
    var a :| Settled(s, op, a);
    assert AnswerOk(s, a);
  }

  /** Conservation: however often calls were resent, the version of a key is the number of copies
      of Puts on it that succeeded, and of all copies naming one version at most one did. */
  lemma VersionsCountEffects(n: nat, acts: seq<Action>, s: System, key: string, i: nat, j: nat)
    requires Run(Init(n), acts, s)
    ensures VersionOf(s.store, key) == Successes(s.history, key)
    ensures i < j < |s.history| && Succeeds(s.history, i, key) && Succeeds(s.history, j, key) ==>
              s.history[i].version < s.history[j].version
  {
    hide KvStore.Run, Run, Succeeds, Successes, VersionOf;
    RunNothing(s);
    Reachable(n, acts, s, [], s);
    VersionCounts(s.history, key);
    if i < j < |s.history| && Succeeds(s.history, i, key) && Succeeds(s.history, j, key) {
      AtMostOnePutPerVersion(s.history, i, j, key);
    }
  }

  // ---------------------------------------------------------------- Puts of a version the key had

  /** The version of the call's key when the call began. */
  ghost function StartVersion(s: System, op: nat): nat
    requires op < |s.calls|
  {
    var call := s.calls[op];
    if call.since <= |s.history| then VersionOf(KvStore.Run(map[], s.history[..call.since]), call.request.key) else 0
  }

  /** The reference model accepts the outcome of the call at place k of the history, and the call
      has an effect exactly if it has it there. */
  ghost predicate Placed(s: System, op: nat, k: nat)
    requires op < |s.calls|
  {
    var call := s.calls[op];
    && call.since <= k < |s.history| && s.history[k] == call.request && call.outcome.Some?
    && var st := KvStore.Run(map[], s.history[..k]);
       var (accepted, next) := ModelStep(Model(st, call.request.key), call.request, call.outcome.value);
       && accepted && next == Model(DoOp(st, call.request).0, call.request.key)
       && (s.effects[op] == 1 <==> DoOp(st, call.request).1 == PutReply(OK))
  }

  /** A Put that names no version beyond the one the key had when the call began, as every caller
      does that read the version before: its effect, if it has any, lies between its beginning and
      its return, and there the reference model accepts its outcome, ErrMaybe included. */
  lemma MaybeIsLinear(n: nat, acts: seq<Action>, s: System, op: nat, more: seq<Action>, t: System)
    requires Run(Init(n), acts, s) && Run(s, more, t)
    requires op < |s.calls| && s.calls[op].outcome.Some? && s.calls[op].request.Put?
    ensures s.calls[op].request.version <= StartVersion(s, op) ==>
            t.effects[op] == s.effects[op] && exists k :: Placed(s, op, k)
  {
    hide Run, Inv, Later, StartVersion, Placed;
    Reachable(n, acts, s, more, t);
    if s.calls[op].request.version <= StartVersion(s, op) {
      PlacedInTime(s, op);
      NothingLate(s, op, t);
    }
  }

  lemma SettledAnswer(s: System, op: nat) returns (a: Answer)
    requires Inv(s) && op < |s.calls| && s.calls[op].outcome.Some?
    ensures Settled(s, op, a) && AnswerOk(s, a)
  {
    hide KvStore.Run, DoOp, EffectOk, AnswerOk;
    assert CallOk(s, op);
    a :| Settled(s, op, a);
  }

  lemma EffectAnswer(s: System, op: nat) returns (a: Answer)
    requires Inv(s) && s.effects[op] == 1
    ensures Struck(s, op, a) && AnswerOk(s, a)
  {
    hide KvStore.Run, DoOp, AnswerOk, CallOk;
    assert EffectOk(s, op);
    a :| Struck(s, op, a);
  }

  /** What a Put answered otherwise than OK shows about the version of its key at that place. */
  lemma RefusedAt(s: System, a: Answer)
    requires Inv(s) && a in s.answers && AnswerOk(s, a) && s.calls[a.op].request.Put? && a.reply != PutReply(OK)
    requires s.calls[a.op].request.version <= StartVersion(s, a.op)
    ensures var r := s.calls[a.op].request;
            a.reply == PutReply(ErrVersion) && r.version < VersionOf(KvStore.Run(map[], s.history[..a.at]), r.key)
  {
    hide KvStore.Run, EffectOk, CallOk, CopyOk, BusyOk;
    var r := s.calls[a.op].request;
    VersionGrows(s.history, s.calls[a.op].since, a.at, r.key);
    RunVersioned(s.history[..a.at]);
  }

  lemma PlacedInTime(s: System, op: nat)
    requires Inv(s) && op < |s.calls| && s.calls[op].outcome.Some? && s.calls[op].request.Put?
    requires s.calls[op].request.version <= StartVersion(s, op)
    ensures exists k :: Placed(s, op, k)
  {
    hide KvStore.Run, EffectOk, CallOk, CopyOk, BusyOk, StartVersion, Inv;
    var a := SettledAnswer(s, op);
    if a.reply != PutReply(OK) {
      RefusedAt(s, a);
    }
    var place := a;
    if s.effects[op] == 1 {
      place := EffectAnswer(s, op);
    }
    RunVersioned(s.history[..place.at]);
    assert Placed(s, op, place.at);
  }

  /** A call that returned on an answer given when its key was past its version changes nothing
      any more. */
  lemma PassedBy(s: System, op: nat, t: System, a: Answer)
    requires Inv(s) && Inv(t) && Later(s, t) && op < |s.calls| && s.calls[op].request.Put?
    requires a in s.answers && a.op == op && AnswerOk(s, a)
    requires s.calls[op].request.version < VersionOf(KvStore.Run(map[], s.history[..a.at]), s.calls[op].request.key)
    ensures t.effects[op] == s.effects[op]
  {
    hide KvStore.Run, EffectOk, CallOk, CopyOk, BusyOk, Inv, DoOp;
    var r := s.calls[op].request;
    EffectBounds(s, op);
    EffectBounds(t, op);
    LaterAnswers(s, t, op);
    if s.effects[op] == 1 {
      var b := EffectAnswer(s, op);
      EffectStays(t, b);
    } else if t.effects[op] == 1 {
      var b := EffectAnswer(t, op);
      OkAt(t.history, b.at, r);
      assert t.history[..a.at] == s.history[..a.at];
      VersionGrows(t.history, a.at, b.at, r.key);
    }
  }

  lemma NothingLate(s: System, op: nat, t: System)
    requires Inv(s) && Inv(t) && Later(s, t) && op < |s.calls| && s.calls[op].outcome.Some? && s.calls[op].request.Put?
    requires s.calls[op].request.version <= StartVersion(s, op)
    ensures t.effects[op] == s.effects[op]
  {
    hide KvStore.Run, EffectOk, CallOk, CopyOk, BusyOk, StartVersion, Inv, DoOp, Later;
    var a := SettledAnswer(s, op);
    if a.reply == PutReply(OK) {
      LaterKeeps(s, t);
      EffectStays(s, a);
      EffectStays(t, a);
    } else {
      RefusedAt(s, a);
      PassedBy(s, op, t, a);
    }
  }

  lemma LaterKeeps(s: System, t: System)
    requires Later(s, t)
    ensures s.answers <= t.answers
  {
  }

  lemma EffectStays(t: System, b: Answer)
    requires Inv(t) && b in t.answers && b.reply == PutReply(OK)
    ensures t.effects[b.op] == 1
  {
    hide KvStore.Run, EffectOk, CallOk, CopyOk, BusyOk, DoOp;
    assert AnswerOk(t, b);
  }

  lemma EffectBounds(s: System, op: nat)
    requires Inv(s)
    ensures s.effects[op] <= 1
  {
    hide KvStore.Run, AnswerOk, CallOk, CopyOk, BusyOk;
    assert EffectOk(s, op);
  }

  lemma LaterAnswers(s: System, t: System, op: nat)
    requires Inv(s) && Inv(t) && Later(s, t) && op < |s.calls|
    ensures t.calls[op].request == s.calls[op].request
    ensures forall b | b in t.answers && b.op == op && b.reply == PutReply(OK) && s.effects[op] == 0 ::
            |s.history| <= b.at
  {
    hide KvStore.Run, EffectOk, CallOk, CopyOk, BusyOk, DoOp;
    forall b | b in t.answers && b.op == op && b.reply == PutReply(OK) && s.effects[op] == 0
      ensures |s.history| <= b.at
    {
      assert b in s.answers ==> AnswerOk(s, b);
    }
  }

  /** A Put that is answered OK names the version its key has. */
  lemma OkAt(h: seq<Request>, k: nat, r: Request)
    requires k < |h| && h[k] == r && r.Put? && DoOp(KvStore.Run(map[], h[..k]), r).1 == PutReply(OK)
    ensures r.version == VersionOf(KvStore.Run(map[], h[..k]), r.key)
  {
    SucceedsAtVersion(h, k, r.key);
  }
}
