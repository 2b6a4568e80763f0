/** The retrying clerks of src/kvraft1/client.go in front of the replicated service: each copy of a
    call is delivered to some server at most once and submitted there under a fresh identifier.
    Whatever the service does, the clerks see a store that executes each copy at most once, at a
    place of one history: the system refines the one of Clerk. */
module KvClerks {
  import opened Types
  import opened KvStore
  import Q = Clerk
  import V = KvSystem
  import Steps = KvSteps
  import R = Rsm
  import Runs

  /** owner names the copy that each identifier was drawn for; pending are the requests no server
      has accepted yet.  A request that reaches a server that does not lead is lost, which is to
      stay pending for ever. */
  datatype World = World(
    kv: V.System,
    calls: seq<Q.Call>,
    busy: seq<Option<nat>>,
    pending: set<Q.Copy>,
    owner: map<int, Q.Copy>)

  datatype Action =
    | Service(a: V.Action)
    | Invoke(c: nat, request: Request)
    | Resend(c: nat)
    | Deliver(copy: Q.Copy, p: nat, id: int)
    | Return(c: nat, id: int)

  function Log(w: World): seq<Entry> {
    w.kv.raft.core.committed
  }

  /** The place in the history of the operation at index k of the log. */
  function Place(log: seq<Entry>, k: nat): nat {
    if 0 < k <= |log| then |Requests(log, k - 1)| else 0
  }

  function Length(log: seq<Entry>): nat {
    Place(log, |log|)
  }

  predicate Shape(w: World) {
    && V.Shape(w.kv)
    && (forall c | 0 <= c < |w.busy| && w.busy[c].Some? :: w.busy[c].value < |w.calls|)
    && (forall copy | copy in w.pending :: copy.op < |w.calls|)
  }

  predicate Enabled(w: World, a: Action)
    requires Shape(w)
  {
    match a
    case Service(act) => !act.SubmitStart? && V.Enabled(w.kv, act)
    case Invoke(c, request) => c < |w.busy| && w.busy[c].None?
    case Resend(c) => c < |w.busy| && w.busy[c].Some?
    case Deliver(copy, p, id) => copy in w.pending && V.Enabled(w.kv, V.SubmitStart(p, id, w.calls[copy.op].request))
    case Return(c, id) =>
      && c < |w.busy| && w.busy[c].Some? && id in w.owner && id in w.kv.answered
      && w.owner[id] == Q.Copy(w.busy[c].value, w.calls[w.busy[c].value].attempts)
  }

  function Apply(w: World, a: Action): World
    requires Shape(w) && Enabled(w, a)
  {
    match a
    case Service(act) => w.(kv := V.Apply(w.kv, act))
    case Invoke(c, request) =>
      var op := |w.calls|;
      w.(calls := w.calls + [Q.Call(c, request, Length(Log(w)), 0, None, 0)],
         busy := w.busy[c := Some(op)],
         pending := w.pending + {Q.Copy(op, 0)})
    case Resend(c) =>
      var op := w.busy[c].value;
      var k := w.calls[op].attempts + 1;
      w.(calls := w.calls[op := w.calls[op].(attempts := k)], pending := w.pending + {Q.Copy(op, k)})
    case Deliver(copy, p, id) =>
      w.(kv := V.Apply(w.kv, V.SubmitStart(p, id, w.calls[copy.op].request)),
         pending := w.pending - {copy},
         owner := w.owner[id := copy])
    case Return(c, id) =>
      var op := w.busy[c].value;
      var call, answer := w.calls[op], w.kv.answered[id];
      w.(calls := w.calls[op := call.(outcome := Some(Q.Result(answer.value, call.attempts > 0)),
                                      at := Place(Log(w), answer.index))],
         busy := w.busy[c := None])
  }

  function Init(n: nat, m: nat): World {
    World(V.Init(n), [], seq(m, _ => None), {}, map[])
  }

  // ---------------------------------------------------------------- what the clerks see

  /** The operations among commands 1..k. */
  function Done(log: seq<Entry>, k: nat): set<int>
    requires k < |log|
  {
    if k == 0 then {}
    else Done(log, k - 1) + if log[k].command.Op? then {log[k].command.id} else {}
  }

  function AnswerAt(log: seq<Entry>, owner: map<int, Q.Copy>, k: nat): Q.Answer
    requires 0 < k < |log| && log[k].command.Op? && log[k].command.id in owner
  {
    var copy := owner[log[k].command.id];
    Q.Answer(copy.op, copy.attempt, DoOp(Replay(log, k - 1), log[k].command.request).1, |Requests(log, k - 1)|)
  }

  function Answers(log: seq<Entry>, owner: map<int, Q.Copy>, k: nat): set<Q.Answer>
    requires k < |log|
  {
    if k == 0 then {}
    else
      Answers(log, owner, k - 1)
      + if log[k].command.Op? && log[k].command.id in owner then {AnswerAt(log, owner, k)} else {}
  }

  /** For each call, how many of its committed copies changed the store. */
  function Effects(log: seq<Entry>, owner: map<int, Q.Copy>, k: nat): multiset<nat>
    requires k < |log|
  {
    if k == 0 then multiset{}
    else
      Effects(log, owner, k - 1)
      + if log[k].command.Op? && log[k].command.id in owner && AnswerAt(log, owner, k).reply == PutReply(OK)
        then multiset{owner[log[k].command.id].op} else multiset{}
  }

  function Submitted(owner: map<int, Q.Copy>, done: set<int>): set<Q.Copy> {
    set id | id in owner && id !in done :: owner[id]
  }

  /** The world as a system of clerks, when the first k commands of a log have been executed. */
  function View(w: World, log: seq<Entry>, k: nat): Q.System
    requires k < |log|
  {
    Q.System(Replay(log, k), w.pending + Submitted(w.owner, Done(log, k)), Answers(log, w.owner, k),
             w.calls, w.busy, Requests(log, k), Effects(log, w.owner, k))
  }

  function Abs(w: World): Q.System
    requires |Log(w)| > 0
  {
    View(w, Log(w), |Log(w)| - 1)
  }

  // ---------------------------------------------------------------- invariant

  ghost predicate CopyOk(copy: Q.Copy, calls: seq<Q.Call>) {
    copy.op < |calls| && copy.attempt <= calls[copy.op].attempts
  }

  ghost predicate OwnerOk(w: World, id: int)
    requires id in w.owner && id in w.kv.issued
  {
    var copy := w.owner[id];
    CopyOk(copy, w.calls) && w.calls[copy.op].request == w.kv.issued[id].request && copy !in w.pending
  }

  ghost predicate Inv(w: World) {
    && V.Inv(w.kv) && Shape(w)
    && w.owner.Keys == w.kv.issued.Keys
    && (forall id | id in w.owner :: OwnerOk(w, id))
    && (forall copy | copy in w.pending :: CopyOk(copy, w.calls))
    && (forall i, j | i in w.owner && j in w.owner && i != j :: w.owner[i] != w.owner[j])
  }

  /** Every operation of the log was submitted for a copy, and none occurs twice. */
  ghost predicate Matched(w: World, log: seq<Entry>) {
    && (forall k | 0 < k < |log| && log[k].command.Op? ::
          && log[k].command.id in w.owner
          && var copy := w.owner[log[k].command.id];
             copy.op < |w.calls| && w.calls[copy.op].request == log[k].command.request && copy !in w.pending)
    && (forall j, k | 0 < j < k < |log| && log[j].command.Op? && log[k].command.Op? ::
          log[j].command.id != log[k].command.id)
    && (forall i, j | i in w.owner && j in w.owner && i != j :: w.owner[i] != w.owner[j])
    && (forall id | id in w.owner :: w.owner[id].op < |w.calls|)
  }

  lemma LogMatched(w: World)
    requires Inv(w)
    ensures Matched(w, Log(w)) && |Log(w)| > 0
  {
    hide V.Inv, Shape;
    KvFacts(w.kv);
    forall k: nat | 0 < k < |Log(w)| && Log(w)[k].command.Op?
      ensures var op := Log(w)[k].command;
              op.id in w.owner && w.kv.issued[op.id].index == k && OwnerOk(w, op.id)
                  && w.kv.issued[op.id].request == op.request
    {
      OpFacts(w.kv, k);
      assert Log(w)[k].command.id in w.kv.issued.Keys;
    }
  }

  lemma KvFacts(s: V.System)
    requires V.Inv(s)
    ensures |s.raft.core.committed| > 0 && V.Shape(s)
  {
    hide V.I.Inv, V.D.DataOk, V.OriginsOk, V.ReplicasOk, V.BooksOk, V.C.Shape;
    Steps.CommittedRoot(s.raft);
  }

  lemma OpFacts(s: V.System, k: nat)
    requires V.Inv(s) && 0 < k < |s.raft.core.committed| && s.raft.core.committed[k].command.Op?
    ensures var op := s.raft.core.committed[k].command;
            op.id in s.issued && s.issued[op.id].index == k && s.issued[op.id].request == op.request
  {
    hide V.I.Inv, V.D.DataOk, V.OriginsOk, V.ReplicasOk, V.BooksOk, V.C.Shape;
    V.CommittedIssued(s, k);
  }

  lemma ViewShape(w: World, log: seq<Entry>, k: nat)
    requires Shape(w) && k < |log| && forall id | id in w.owner :: w.owner[id].op < |w.calls|
    ensures Q.Shape(View(w, log, k))
  {
    hide V.Shape;
  }

  // ---------------------------------------------------------------- execution

  lemma {:induction false} DoneIds(log: seq<Entry>, k: nat, id: int)
    requires k < |log|
    ensures id in Done(log, k) <==> exists j :: 0 < j <= k && log[j].command.Op? && log[j].command.id == id
  {
    if k > 0 {
      DoneIds(log, k - 1, id);
    }
  }

  /** Executing an operation takes exactly its copy from those on the way. */
  lemma TakesCopy(w: World, log: seq<Entry>, k: nat)
    requires Matched(w, log) && 0 < k < |log| && log[k].command.Op? && log[k].command.id in w.owner
    ensures var copy := w.owner[log[k].command.id];
            var before := w.pending + Submitted(w.owner, Done(log, k - 1));
            copy in before && before - {copy} == w.pending + Submitted(w.owner, Done(log, k))
  {
    hide DoOp, Replay, Requests;
    var id := log[k].command.id;
    DoneIds(log, k - 1, id);
    var copy := w.owner[id];
    assert copy in Submitted(w.owner, Done(log, k - 1));
  }

  lemma Skipped(w: World, log: seq<Entry>, k: nat)
    requires 0 < k < |log| && log[k].command.Nop?
    ensures View(w, log, k) == View(w, log, k - 1)
  {
    hide DoOp;
    assert Done(log, k) == Done(log, k - 1);
    assert Answers(log, w.owner, k) == Answers(log, w.owner, k - 1);
    assert Effects(log, w.owner, k) == Effects(log, w.owner, k - 1);
  }

  /** The parts of the view after one more operation. */
  lemma Parts(w: World, log: seq<Entry>, k: nat)
    requires 0 < k < |log| && log[k].command.Op? && log[k].command.id in w.owner
    ensures var (request, a) := (log[k].command.request, AnswerAt(log, w.owner, k));
            && a == Q.Answer(w.owner[log[k].command.id].op, w.owner[log[k].command.id].attempt,
                             DoOp(Replay(log, k - 1), request).1, |Requests(log, k - 1)|)
            && Replay(log, k) == DoOp(Replay(log, k - 1), request).0
            && Requests(log, k) == Requests(log, k - 1) + [request]
            && Answers(log, w.owner, k) == Answers(log, w.owner, k - 1) + {a}
            && Effects(log, w.owner, k) ==
                 if a.reply == PutReply(OK) then Effects(log, w.owner, k - 1) + multiset{a.op}
                 else Effects(log, w.owner, k - 1)
  {
    hide DoOp;
  }

  /** Committing one more command is executing its copy. */
  lemma Execute(w: World, log: seq<Entry>, k: nat)
    requires Shape(w) && Matched(w, log) && 0 < k < |log|
    ensures Q.Shape(View(w, log, k - 1))
    ensures log[k].command.Nop? ==> View(w, log, k) == View(w, log, k - 1)
    ensures log[k].command.Op? ==>
              && log[k].command.id in w.owner
              && var act := Q.Execute(w.owner[log[k].command.id]);
                 Q.Enabled(View(w, log, k - 1), act) && Q.Apply(View(w, log, k - 1), act) == View(w, log, k)
  {
    hide V.Shape, DoOp, Submitted, Replay, Requests, Answers, Effects, Done, AnswerAt;
    ViewShape(w, log, k - 1);
    if log[k].command.Op? {
      TakesCopy(w, log, k);
      Parts(w, log, k);
    } else {
      Skipped(w, log, k);
    }
  }

  lemma {:induction false} Executes(w: World, log: seq<Entry>, j: nat, k: nat) returns (acts: seq<Q.Action>)
    requires Shape(w) && Matched(w, log) && j <= k < |log|
    ensures Q.Run(View(w, log, j), acts, View(w, log, k))
    ensures forall i | 0 <= i < |acts| :: acts[i].Execute?
  {
    hide Shape, Matched, View, Q.Apply, Q.Enabled, Q.Shape, Q.Run;
    if j == k {
      Q.RunNothing(View(w, log, j));
      acts := [];
    } else {
      acts := Executes(w, log, j, k - 1);
      Execute(w, log, k);
      if log[k].command.Op? {
        var act := Q.Execute(w.owner[log[k].command.id]);
        Q.RunThen(View(w, log, j), acts, View(w, log, k - 1), act);
        acts := acts + [act];
      }
    }
  }

  lemma {:induction false} PrefixParts(a: seq<Entry>, b: seq<Entry>, owner: map<int, Q.Copy>, k: nat)
    requires k < |a| && a <= b
    ensures Done(a, k) == Done(b, k) && Replay(a, k) == Replay(b, k) && Requests(a, k) == Requests(b, k)
    ensures Answers(a, owner, k) == Answers(b, owner, k) && Effects(a, owner, k) == Effects(b, owner, k)
  {
    hide DoOp;
    if k > 0 {
      PrefixParts(a, b, owner, k - 1);
    }
  }

  /** Names given to copies that were not committed do not matter. */
  lemma {:induction false} OwnerParts(log: seq<Entry>, owner: map<int, Q.Copy>, id: int, copy: Q.Copy, k: nat)
    requires k < |log| && id !in owner && forall j | 0 < j <= k && log[j].command.Op? :: log[j].command.id != id
    ensures Answers(log, owner[id := copy], k) == Answers(log, owner, k)
    ensures Effects(log, owner[id := copy], k) == Effects(log, owner, k)
  {
    hide DoOp;
    if k > 0 {
      OwnerParts(log, owner, id, copy, k - 1);
    }
  }

  lemma {:induction false} AnswerThere(log: seq<Entry>, owner: map<int, Q.Copy>, j: nat, k: nat)
    requires 0 < j <= k < |log| && log[j].command.Op? && log[j].command.id in owner
    ensures AnswerAt(log, owner, j) in Answers(log, owner, k)
  {
    hide DoOp;
    if j < k {
      AnswerThere(log, owner, j, k - 1);
    }
  }

  // ---------------------------------------------------------------- steps

  lemma ServiceStep(s: V.System, a: V.Action)
    requires V.Inv(s) && V.Shape(s) && V.Enabled(s, a)
    ensures var t := V.Apply(s, a);
            && V.Inv(t) && V.Shape(t) && s.raft.core.committed <= t.raft.core.committed
            && (!a.SubmitStart? ==> t.issued == s.issued)
            && (a.SubmitStart? ==> a.id !in s.issued && a.id in t.issued
                                   && t.issued == s.issued[a.id := t.issued[a.id]]
                                   && t.issued[a.id].request == a.request)
  {
    hide V.Inv, V.C.Shape, V.C.Apply, V.C.Enabled;
    Steps.StepInv(s, a);
    Steps.InvShape(V.Apply(s, a));
  }

  /** A step of the service is the execution of what it commits. */
  lemma ServiceRefines(w: World, a: V.Action) returns (acts: seq<Q.Action>)
    requires Inv(w) && Enabled(w, Service(a))
    ensures var v := Apply(w, Service(a));
            Inv(v) && |Log(w)| > 0 && |Log(v)| > 0 && Q.Run(Abs(w), acts, Abs(v))
    ensures forall i | 0 <= i < |acts| :: acts[i].Execute?
  {
    hide V.Inv, V.Shape, V.Apply, V.Enabled, View, Q.Run;
    var v := Apply(w, Service(a));
    ServiceStep(w.kv, a);
    assert Inv(v);
    hide Inv, Shape;
    LogMatched(w);
    LogMatched(v);
    InvShape(v);
    acts := Executes(v, Log(v), |Log(w)| - 1, |Log(v)| - 1);
    SameView(w, v, Log(w), Log(v), |Log(w)| - 1);
  }

  lemma InvShape(w: World)
    requires Inv(w)
    ensures Shape(w)
  {
    hide V.Inv, Shape;
  }

  /** What the clerks see depends only on the executed prefix of the log. */
  lemma SameView(w: World, v: World, a: seq<Entry>, b: seq<Entry>, k: nat)
    requires v.owner == w.owner && v.pending == w.pending && v.calls == w.calls && v.busy == w.busy && k < |a| && a <= b
    ensures View(w, a, k) == View(v, b, k)
  {
    PrefixParts(a, b, w.owner, k);
  }

  /** Submitting a copy changes nothing for the clerks, and then the service commits what it can. */
  lemma DeliverRefines(w: World, copy: Q.Copy, p: nat, id: int) returns (acts: seq<Q.Action>)
    requires Inv(w) && Enabled(w, Deliver(copy, p, id))
    ensures var v := Apply(w, Deliver(copy, p, id));
            Inv(v) && |Log(w)| > 0 && |Log(v)| > 0 && Q.Run(Abs(w), acts, Abs(v))
    ensures forall i | 0 <= i < |acts| :: acts[i].Execute?
  {
    hide V.Inv, V.Shape, V.Apply, V.Enabled, View, Q.Run;
    var v := Apply(w, Deliver(copy, p, id));
    ServiceStep(w.kv, V.SubmitStart(p, id, w.calls[copy.op].request));
    DeliverInv(w, copy, p, id);
    LogMatched(w);
    LogMatched(v);
    hide Inv, Shape;
    InvShape(v);
    acts := Executes(v, Log(v), |Log(w)| - 1, |Log(v)| - 1);
    NotDone(w, id);
    DeliverView(w, v, copy, id, Log(w), |Log(w)| - 1);
    SameView(v, v, Log(w), Log(v), |Log(w)| - 1);
  }

  lemma DeliverInv(w: World, copy: Q.Copy, p: nat, id: int)
    requires Inv(w) && Enabled(w, Deliver(copy, p, id))
    ensures Inv(Apply(w, Deliver(copy, p, id)))
  {
    hide V.Inv, V.Shape, V.Apply, V.Enabled;
    var v := Apply(w, Deliver(copy, p, id));
    ServiceStep(w.kv, V.SubmitStart(p, id, w.calls[copy.op].request));
    forall x | x in v.owner
      ensures OwnerOk(v, x)
    {
      assert x != id ==> OwnerOk(w, x);
    }
    forall i, j | i in v.owner && j in v.owner && i != j
      ensures v.owner[i] != v.owner[j]
    {
      assert i != id ==> OwnerOk(w, i);
      assert j != id ==> OwnerOk(w, j);
    }
  }

  lemma NotDone(w: World, id: int)
    requires Inv(w) && id !in w.kv.issued
    ensures forall j | 0 < j < |Log(w)| && Log(w)[j].command.Op? :: Log(w)[j].command.id != id
  {
    hide V.Inv, Shape;
    forall j: nat | 0 < j < |Log(w)| && Log(w)[j].command.Op?
      ensures Log(w)[j].command.id != id
    {
      OpFacts(w.kv, j);
    }
  }

  lemma DeliverView(w: World, v: World, copy: Q.Copy, id: int, log: seq<Entry>, k: nat)
    requires k < |log| && copy in w.pending && id !in w.owner
    requires v.calls == w.calls && v.busy == w.busy && v.pending == w.pending - {copy} && v.owner == w.owner[id := copy]
    requires forall j | 0 < j < |log| && log[j].command.Op? :: log[j].command.id != id
    ensures View(w, log, k) == View(v, log, k)
  {
    OwnerParts(log, w.owner, id, copy, k);
    DoneIds(log, k, id);
    var done := Done(log, k);
    forall x | x in w.owner && x !in done
      ensures w.owner[x] in Submitted(v.owner, done)
    {
      assert v.owner[x] == w.owner[x];
    }
    assert v.owner[id] in Submitted(v.owner, done);
    assert w.pending + Submitted(w.owner, done) == v.pending + Submitted(v.owner, done);
  }

  lemma InvokeInv(w: World, c: nat, request: Request)
    requires Inv(w) && Enabled(w, Invoke(c, request))
    ensures Inv(Apply(w, Invoke(c, request)))
  {
    hide V.Inv, V.Shape;
    var v := Apply(w, Invoke(c, request));
    forall x | x in v.owner ensures OwnerOk(v, x) { assert OwnerOk(w, x); }
    forall copy | copy in v.pending ensures CopyOk(copy, v.calls) {
      assert copy in w.pending ==> CopyOk(copy, w.calls);
    }
  }

  lemma InvokeRefines(w: World, c: nat, request: Request)
    requires Inv(w) && Enabled(w, Invoke(c, request))
    ensures var (v, act) := (Apply(w, Invoke(c, request)), Q.Invoke(c, request));
            && Inv(v) && |Log(w)| > 0 && Log(v) == Log(w)
            && Q.Shape(Abs(w)) && Q.Enabled(Abs(w), act) && Q.Apply(Abs(w), act) == Abs(v)
  {
    hide V.Inv, V.Shape, Submitted, Answers, Effects, Replay;
    var v := Apply(w, Invoke(c, request));
    LogMatched(w);
    ViewShape(w, Log(w), |Log(w)| - 1);
    InvokeInv(w, c, request);
    hide Inv;
    var k := |Log(w)| - 1;
    assert w.pending + {Q.Copy(|w.calls|, 0)} + Submitted(w.owner, Done(Log(w), k))
        == w.pending + Submitted(w.owner, Done(Log(w), k)) + {Q.Copy(|w.calls|, 0)};
  }

  lemma ResendInv(w: World, c: nat)
    requires Inv(w) && Enabled(w, Resend(c))
    ensures Inv(Apply(w, Resend(c)))
  {
    hide V.Inv, V.Shape;
    var v := Apply(w, Resend(c));
    forall x | x in v.owner ensures OwnerOk(v, x) { assert OwnerOk(w, x); }
    forall copy | copy in v.pending ensures CopyOk(copy, v.calls) {
      assert copy in w.pending ==> CopyOk(copy, w.calls);
    }
  }

  lemma ResendRefines(w: World, c: nat)
    requires Inv(w) && Enabled(w, Resend(c))
    ensures var (v, act) := (Apply(w, Resend(c)), Q.Resend(c));
            && Inv(v) && |Log(w)| > 0 && Log(v) == Log(w)
            && Q.Shape(Abs(w)) && Q.Enabled(Abs(w), act) && Q.Apply(Abs(w), act) == Abs(v)
  {
    hide V.Inv, V.Shape, Submitted, Answers, Effects, Replay;
    var v := Apply(w, Resend(c));
    LogMatched(w);
    ViewShape(w, Log(w), |Log(w)| - 1);
    ResendInv(w, c);
    hide Inv;
    var op, k := w.busy[c].value, |Log(w)| - 1;
    var more := {Q.Copy(op, w.calls[op].attempts + 1)};
    assert w.pending + more + Submitted(w.owner, Done(Log(w), k))
        == w.pending + Submitted(w.owner, Done(Log(w), k)) + more;
  }

  lemma ReturnedAnswer(s: V.System, id: int)
    requires V.Inv(s) && id in s.answered
    ensures id in s.issued
    ensures R.Executed(s.raft.core.committed, s.answered[id].index, id, s.answered[id].value)
  {
    hide V.I.Inv, V.D.DataOk, V.OriginsOk, V.ReplicasOk, V.C.Shape, R.Executed;
  }

  lemma ReturnInv(w: World, c: nat, id: int)
    requires Inv(w) && Enabled(w, Return(c, id))
    ensures Inv(Apply(w, Return(c, id))) && Shape(w)
  {
    hide V.Inv, V.Shape;
    var v := Apply(w, Return(c, id));
    forall x | x in v.owner ensures OwnerOk(v, x) { assert OwnerOk(w, x); }
    forall copy | copy in v.pending ensures CopyOk(copy, v.calls) { assert CopyOk(copy, w.calls); }
  }

  /** What the service told a clerk is the answer at that place of the history. */
  lemma ToldThere(w: World, id: int)
    requires Inv(w) && id in w.kv.answered && id in w.owner
    ensures var (log, told) := (Log(w), w.kv.answered[id]);
            && 0 < told.index < |log| && log[told.index].command.Op? && log[told.index].command.id == id
            && var a := AnswerAt(log, w.owner, told.index);
               && a in Answers(log, w.owner, |log| - 1)
               && a == Q.Answer(w.owner[id].op, w.owner[id].attempt, told.value, Place(log, told.index))
  {
    hide V.Inv, V.Shape, DoOp, Replay, Submitted, Effects;
    ReturnedAnswer(w.kv, id);
    AnswerThere(Log(w), w.owner, w.kv.answered[id].index, |Log(w)| - 1);
  }

  lemma ReturnRefines(w: World, c: nat, id: int)
    requires Inv(w) && Enabled(w, Return(c, id))
    ensures |Log(w)| > 0 && id in w.owner && id in w.kv.answered
    ensures 0 < w.kv.answered[id].index < |Log(w)| && Log(w)[w.kv.answered[id].index].command.Op?
    ensures Log(w)[w.kv.answered[id].index].command.id == id
    ensures var (v, act) := (Apply(w, Return(c, id)), Q.Return(c, AnswerAt(Log(w), w.owner, w.kv.answered[id].index)));
            && Inv(v) && Log(v) == Log(w)
            && Q.Shape(Abs(w)) && Q.Enabled(Abs(w), act) && Q.Apply(Abs(w), act) == Abs(v)
  {
    hide V.Inv, V.Shape, Submitted, Answers, Effects, Replay, DoOp, Inv, AnswerAt, Place;
    LogMatched(w);
    ReturnInv(w, c, id);
    ViewShape(w, Log(w), |Log(w)| - 1);
    ToldThere(w, id);
  }

  /** Every step of the clerks and of the service is a stretch of a run of Clerk, in which calls begin
      only when they do here. */
  lemma StepRefines(w: World, a: Action) returns (acts: seq<Q.Action>)
    requires Inv(w) && Shape(w) && Enabled(w, a)
    ensures Inv(Apply(w, a)) && |Log(w)| > 0 && |Log(Apply(w, a))| > 0 && Q.Run(Abs(w), acts, Abs(Apply(w, a)))
    ensures !a.Invoke? ==> forall i | 0 <= i < |acts| :: !acts[i].Invoke?
  {
    hide Inv, Shape, Enabled, View, Q.Run, Q.Apply, Q.Enabled, Q.Shape;
    match a {
      case Service(act) => acts := ServiceRefines(w, act);
      case Deliver(copy, p, id) => acts := DeliverRefines(w, copy, p, id);
      case Invoke(c, request) =>
        InvokeRefines(w, c, request);
        acts := Single(Abs(w), Q.Invoke(c, request));
      case Resend(c) =>
        ResendRefines(w, c);
        acts := Single(Abs(w), Q.Resend(c));
      case Return(c, id) =>
        ReturnRefines(w, c, id);
        acts := Single(Abs(w), Q.Return(c, AnswerAt(Log(w), w.owner, w.kv.answered[id].index)));
    }
  }

  lemma Single(s: Q.System, a: Q.Action) returns (acts: seq<Q.Action>)
    requires Q.Shape(s) && Q.Enabled(s, a)
    ensures Q.Run(s, acts, Q.Apply(s, a)) && acts == [a]
  {
    hide Q.Shape, Q.Enabled, Q.Apply;
    Q.RunNothing(s);
    Q.RunThen(s, [], s, a);
    acts := [] + [a];
  }

  // ---------------------------------------------------------------- runs

  ghost predicate Next(w: World, a: Action, v: World) {
    Shape(w) && Enabled(w, a) && v == Apply(w, a)
  }

  /** acts is a run from w to v. */
  ghost predicate Run(w: World, acts: seq<Action>, v: World) {
    Runs.Run(Next, w, acts, v)
  }

  /** The clerks may have come from w to v. */
  ghost predicate Reaches(w: World, v: World) {
    |Log(w)| > 0 && |Log(v)| > 0 && exists seen :: Q.Run(Abs(w), seen, Abs(v))
  }

  lemma ReachesOn(w: World, v: World, a: Action)
    requires Reaches(w, v) && Inv(v) && Shape(v) && Enabled(v, a)
    ensures Reaches(w, Apply(v, a)) && Inv(Apply(v, a))
  {
    hide Inv, Shape, Apply, Enabled, View, Q.Run;
    var seen :| Q.Run(Abs(w), seen, Abs(v));
    var next := StepRefines(v, a);
    Q.RunConcat(Abs(w), seen, Abs(v), next, Abs(Apply(v, a)));
  }

  lemma RunRefines(w: World, acts: seq<Action>, v: World) returns (seen: seq<Q.Action>)
    requires Inv(w) && |Log(w)| > 0 && Run(w, acts, v)
    ensures Inv(v) && |Log(v)| > 0 && Q.Run(Abs(w), seen, Abs(v))
  {
    hide Inv, Shape, Apply, Enabled, View, Q.Run;
    Q.RunNothing(Abs(w));
    var kept := (x: World) => Inv(x) && Reaches(w, x);
    forall x, a, y | kept(x) && Next(x, a, y)
      ensures kept(y)
    {
      ReachesOn(w, x, a);
    }
    Runs.Invariant(Next, kept, w, acts, v);
    seen :| Q.Run(Abs(w), seen, Abs(v));
  }

  lemma InitRefines(n: nat, m: nat)
    ensures Inv(Init(n, m)) && |Log(Init(n, m))| == 1 && Abs(Init(n, m)) == Q.Init(m)
  {
    Steps.InitInv(n);
    Steps.InvShape(V.Init(n));
    var w := Init(n, m);
    assert Log(w) == [V.K.ROOT];
    assert w.pending + Submitted(w.owner, {}) == {};
  }

  /** Refinement: whatever the replicated service goes through, elections, losses, crashes and
      snapshots included, its clerks see a run of the system of Clerk, in which the history is the
      requests of the committed log. */
  lemma Refines(n: nat, m: nat, acts: seq<Action>, w: World) returns (seen: seq<Q.Action>)
    requires Run(Init(n, m), acts, w)
    ensures |Log(w)| > 0 && Q.Run(Q.Init(m), seen, Abs(w))
  {
    hide Run, Inv, View, Q.Run;
    InitRefines(n, m);
    seen := RunRefines(Init(n, m), acts, w);
  }

  lemma RefinesOn(n: nat, m: nat, acts: seq<Action>, w: World, more: seq<Action>, v: World)
      returns (seen: seq<Q.Action>, after: seq<Q.Action>)
    requires Run(Init(n, m), acts, w) && Run(w, more, v)
    ensures |Log(w)| > 0 && |Log(v)| > 0 && Q.Run(Q.Init(m), seen, Abs(w)) && Q.Run(Abs(w), after, Abs(v))
  {
    hide Run, Inv, View, Q.Run;
    InitRefines(n, m);
    seen := RunRefines(Init(n, m), acts, w);
    after := RunRefines(w, more, v);
  }

  /** How many committed entries that change the store belong to a call. */
  function EffectsOf(w: World, op: nat): nat {
    if |Log(w)| == 0 then 0 else Effects(Log(w), w.owner, |Log(w)| - 1)[op]
  }

  /** End to end, what the caller of Put may conclude about the replicated log, for ever after. */
  lemma ServedPut(n: nat, m: nat, acts: seq<Action>, w: World, op: nat, more: seq<Action>, v: World)
    requires Run(Init(n, m), acts, w) && Run(w, more, v)
    requires op < |w.calls| && w.calls[op].outcome.Some? && w.calls[op].request.Put?
    ensures var out := w.calls[op].outcome.value;
            && out.PutReply? && out.err in {OK, ErrVersion, ErrNoKey, ErrMaybe}
            && EffectsOf(v, op) <= 1
            && (out.err == OK ==> EffectsOf(v, op) == 1)
            && (out.err == ErrVersion ==> EffectsOf(v, op) == 0)
            && (out.err == ErrNoKey && w.calls[op].attempts == 0 ==> EffectsOf(v, op) == 0)
  {
    hide Run, Q.Run;
    var seen, after := RefinesOn(n, m, acts, w, more, v);
    Q.PutOutcome(m, seen, Abs(w), op, after, Abs(v));
  }

  /** End to end, every answer of a clerk is that of the sequential store at one place of
      the committed log, between the beginning and the end of the call, in real-time order, and
      no two calls have the same place. */
  lemma ServedCalls(n: nat, m: nat, acts: seq<Action>, w: World, op: nat, more: seq<Action>, v: World, other: nat)
    requires Run(Init(n, m), acts, w) && Run(w, more, v)
    requires op < |w.calls| && w.calls[op].outcome.Some?
    ensures |Log(w)| > 0 && |Log(v)| > 0
    ensures var (call, rs) := (w.calls[op], Requests(Log(w), |Log(w)| - 1));
            && call.since <= call.at < |rs| && rs[call.at] == call.request
            && var told := DoOp(KvStore.Run(map[], rs[..call.at]), call.request).1;
               var unsure := told == PutReply(ErrVersion) && call.attempts > 0;
               call.outcome == Some(if unsure then PutReply(ErrMaybe) else told)
    ensures other < |v.calls| && v.calls[other].outcome.Some? ==>
              && (other != op ==> w.calls[op].at != v.calls[other].at)
              && (|w.calls| <= other ==> w.calls[op].at < v.calls[other].at)
    ensures Requests(Log(w), |Log(w)| - 1) <= Requests(Log(v), |Log(v)| - 1)
  {
    hide Run, Q.Run, KvStore.Run;
    var seen, after := RefinesOn(n, m, acts, w, more, v);
    Q.CallsAreLinear(m, seen, Abs(w), op, after, Abs(v), other);
  }

  /** End to end, of all calls of Put that name one version of one key, through whatever clerks and
      leaders, at most one is ever told OK. */
  lemma ServedOnce(n: nat, m: nat, acts: seq<Action>, w: World, op: nat, other: nat)
    requires Run(Init(n, m), acts, w) && op < |w.calls| && other < |w.calls| && op != other
    requires w.calls[op].outcome == w.calls[other].outcome == Some(PutReply(OK))
    requires w.calls[op].request.Put? && w.calls[other].request.Put?
    requires w.calls[op].request.key == w.calls[other].request.key
    ensures w.calls[op].request.version != w.calls[other].request.version
  {
    hide Run, Q.Run, View;
    var seen := Refines(n, m, acts, w);
    AbsCalls(w);
    Q.AtMostOneOk(m, seen, Abs(w), op, other);
  }

  lemma AbsCalls(w: World)
    requires |Log(w)| > 0
    ensures Abs(w).calls == w.calls && Abs(w).busy == w.busy
  {
  }
}
