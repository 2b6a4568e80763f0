/** Exactly when a Put can still take effect after its clerk returned.  OK and ErrVersion settle a
    call; ErrNoKey and ErrMaybe settle it exactly under the conditions proved here, and outside
    them a run is built in which the first copy of the call takes effect later. */
module LateEffects {
  import opened Types
  import KvStore
  import opened Clerk

  /** In no run does a call of this request take effect after it returned err, when it was resent
      so many times and its key had the given version when it began. */
  ghost predicate NeverLate(request: Request, attempts: nat, err: Err, start: nat) {
    forall n: nat, acts: seq<Action>, s: System, op: nat, more: seq<Action>, t: System |
      && Run(Init(n), acts, s) && Run(s, more, t)
      && Returned(s, op, request, attempts, err) && StartVersion(s, op) == start ::
      t.effects[op] == s.effects[op]
  }

  /** In no run has such a call an effect, before its return or after. */
  ghost predicate NoEffect(request: Request, attempts: nat, err: Err, start: nat) {
    forall n: nat, acts: seq<Action>, s: System, op: nat, more: seq<Action>, t: System |
      && Run(Init(n), acts, s) && Run(s, more, t)
      && Returned(s, op, request, attempts, err) && StartVersion(s, op) == start ::
      t.effects[op] == 0
  }

  predicate Returned(s: System, op: nat, request: Request, attempts: nat, err: Err) {
    && op < |s.calls| && s.calls[op].request == request && s.calls[op].attempts == attempts
    && s.calls[op].outcome == Some(PutReply(err))
  }

  // ---------------------------------------------------------------- building runs of two clients

  /** The key has version v, and client 1 has nothing to do. */
  ghost predicate Free(s: System, key: string, v: nat) {
    && Shape(s) && |s.busy| == 2 && s.busy[1].None?
    && KvStore.VersionOf(s.store, key) == v && (v == 0 ==> key !in s.store)
  }

  /** What the other client's calls leave alone. */
  ghost predicate Undisturbed(s: System, t: System) {
    && s.calls <= t.calls && s.net <= t.net && s.answers <= t.answers && s.history <= t.history
    && |s.busy| == |t.busy| == 2 && t.busy[0] == s.busy[0]
    && forall op: nat | op < |s.calls| :: t.effects[op] == s.effects[op]
  }

  /** One successful Put of client 1. */
  lemma Raise(s: System, key: string, v: nat) returns (acts: seq<Action>, t: System)
    requires Free(s, key, v)
    ensures Run(s, acts, t) && Free(t, key, v + 1) && Undisturbed(s, t)
  {
    var op := |s.calls|;
    var put := Put(key, "", v);
    RunNothing(s);
    RunThen(s, [], s, Invoke(1, put));
    var acts1, s1 := [] + [Invoke(1, put)], Apply(s, Invoke(1, put));
    RunThen(s, acts1, s1, Execute(Copy(op, 0)));
    var acts2, s2 := acts1 + [Execute(Copy(op, 0))], Apply(s1, Execute(Copy(op, 0)));
    var done := Answer(op, 0, PutReply(OK), |s.history|);
    RunThen(s, acts2, s2, Return(1, done));
    acts, t := acts2 + [Return(1, done)], Apply(s2, Return(1, done));
  }

  lemma UndisturbedTransitive(s: System, t: System, u: System)
    requires Undisturbed(s, t) && Undisturbed(t, u)
    ensures Undisturbed(s, u)
  {
  }

  lemma {:induction false} RaiseTo(s: System, key: string, v: nat, w: nat) returns (acts: seq<Action>, t: System)
    requires Free(s, key, v) && v <= w
    ensures Run(s, acts, t) && Free(t, key, w) && Undisturbed(s, t)
    decreases w
  {
    hide Free, Run;
    if v == w {
      FreeShape(s, key, v);
      RunNothing(s);
      acts, t := [], s;
    } else {
      var acts0, t0 := RaiseTo(s, key, v, w - 1);
      var acts1, t1 := Raise(t0, key, w - 1);
      RunConcat(s, acts0, t0, acts1, t1);
      UndisturbedTransitive(s, t0, t1);
      acts, t := acts0 + acts1, t1;
    }
  }

  lemma FreeShape(s: System, key: string, v: nat)
    requires Free(s, key, v)
    ensures |s.busy| == 2
  {
  }

  /** Call op of client 0 has been resent k times, and neither its first nor its last copy was
      executed. */
  ghost predicate Pending(s: System, op: nat, request: Request, since: nat, k: nat) {
    && op < |s.calls| && s.calls[op] == Call(0, request, since, k, None, 0)
    && |s.busy| == 2 && s.busy[0] == Some(op)
    && Copy(op, 0) in s.net && Copy(op, k) in s.net && s.effects[op] == 0
  }

  lemma {:induction false} Resends(s: System, request: Request, v: nat, k: nat) returns (acts: seq<Action>, t: System)
    requires Free(s, request.key, v) && s.busy[0].None? && s.effects[|s.calls|] == 0
    ensures Run(s, acts, t) && Free(t, request.key, v) && Pending(t, |s.calls|, request, |s.history|, k)
    ensures t.history == s.history
  {
    if k == 0 {
      RunNothing(s);
      RunThen(s, [], s, Invoke(0, request));
      acts, t := [] + [Invoke(0, request)], Apply(s, Invoke(0, request));
    } else {
      var acts0, t0 := Resends(s, request, v, k - 1);
      RunThen(s, acts0, t0, Resend(0));
      acts, t := acts0 + [Resend(0)], Apply(t0, Resend(0));
    }
  }

  /** The call has returned err, and its first copy is still on the way. */
  ghost predicate Lurking(s: System, op: nat, request: Request, since: nat, k: nat, err: Err) {
    && Returned(s, op, request, k, err) && s.calls[op].since == since
    && Copy(op, 0) in s.net && s.effects[op] == 0
  }

  /** The last copy is executed at a version other than its own, and the clerk returns. */
  lemma Answered(s: System, op: nat, request: Request, since: nat, k: nat, v: nat)
    returns (acts: seq<Action>, t: System)
    requires request.Put? && k > 0 && Free(s, request.key, v) && Pending(s, op, request, since, k)
    requires request.version != v
    ensures Run(s, acts, t) && Free(t, request.key, v) && s.history <= t.history
    ensures Lurking(t, op, request, since, k, if v == 0 then ErrNoKey else ErrMaybe)
  {
    RunNothing(s);
    RunThen(s, [], s, Execute(Copy(op, k)));
    var acts1, s1 := [] + [Execute(Copy(op, k))], Apply(s, Execute(Copy(op, k)));
    var refused := Answer(op, k, PutReply(if v == 0 then ErrNoKey else ErrVersion), |s.history|);
    RunThen(s, acts1, s1, Return(0, refused));
    acts, t := acts1 + [Return(0, refused)], Apply(s1, Return(0, refused));
  }

  /** The first copy takes effect once the key has come to its version. */
  lemma Strikes(s: System, op: nat, request: Request, since: nat, k: nat, err: Err, v: nat)
      returns (acts: seq<Action>, t: System)
    requires request.Put? && Free(s, request.key, v) && Lurking(s, op, request, since, k, err) && v <= request.version
    ensures Run(s, acts, t) && t.effects[op] == 1
  {
    var acts0, t0 := RaiseTo(s, request.key, v, request.version);
    RunThen(s, acts0, t0, Execute(Copy(op, 0)));
    acts, t := acts0 + [Execute(Copy(op, 0))], Apply(t0, Execute(Copy(op, 0)));
  }

  lemma FreeAtFirst(key: string)
    ensures Free(Init(2), key, 0)
  {
  }

  /** A run in which a call that began at version start is resent and answered at version v, and
      takes effect after its return. */
  lemma LateRun(request: Request, k: nat, start: nat, v: nat)
    requires request.Put? && k > 0 && start <= v < request.version && (start > 0 ==> v == start)
    ensures !NeverLate(request, k, if v == 0 then ErrNoKey else ErrMaybe, start)
  {
    hide Run, Free, Pending, Lurking, Returned, StartVersion;
    var err := if v == 0 then ErrNoKey else ErrMaybe;
    FreeAtFirst(request.key);
    var acts0, s0 := RaiseTo(Init(2), request.key, 0, start);
    var op := |s0.calls|;
    Idle(acts0, s0);
    var acts1, s1 := Resends(s0, request, start, k);
    var acts2, s2 := RaiseTo(s1, request.key, start, v);
    StillPending(s1, s2, op, request, |s0.history|, k);
    var acts3, s := Answered(s2, op, request, |s0.history|, k, v);
    var more, t := Strikes(s, op, request, |s0.history|, k, err, v);
    RunConcat(Init(2), acts0, s0, acts1, s1);
    RunConcat(Init(2), acts0 + acts1, s1, acts2, s2);
    RunConcat(Init(2), acts0 + acts1 + acts2, s2, acts3, s);
    LurkingReturned(s, op, request, |s0.history|, k, err);
    StartedAt(acts0, s0, s, op, request, start);
    assert t.effects[op] != s.effects[op];
  }

  lemma LurkingReturned(s: System, op: nat, request: Request, since: nat, k: nat, err: Err)
    requires Lurking(s, op, request, since, k, err)
    ensures Returned(s, op, request, k, err) && s.effects[op] == 0
    ensures op < |s.calls| && s.calls[op].since == since && s.calls[op].request == request
  {
  }

  /** Client 0 has not done anything yet. */
  lemma Idle(acts: seq<Action>, s: System)
    requires Run(Init(2), acts, s) && Undisturbed(Init(2), s)
    ensures s.busy[0].None? && s.effects[|s.calls|] == 0
  {
    hide Run, Inv;
    RunNothing(s);
    Reachable(2, acts, s, [], s);
    EffectInRange(s, |s.calls|);
  }

  lemma EffectInRange(s: System, op: nat)
    requires Inv(s) && op >= |s.calls|
    ensures s.effects[op] == 0
  {
    hide KvStore.Run, AnswerOk, CallOk, CopyOk, BusyOk;
    assert EffectOk(s, op);
  }

  lemma StillPending(s: System, t: System, op: nat, request: Request, since: nat, k: nat)
    requires Pending(s, op, request, since, k) && Undisturbed(s, t)
    ensures Pending(t, op, request, since, k)
  {
  }

  lemma StartedAt(acts: seq<Action>, s0: System, s: System, op: nat, request: Request, start: nat)
    requires Run(Init(2), acts, s0) && Free(s0, request.key, start) && s0.history <= s.history
    requires op < |s.calls| && s.calls[op].since == |s0.history| && s.calls[op].request == request
    ensures StartVersion(s, op) == start
  {
    hide Run, KvStore.Run;
    RunNothing(s0);
    Reachable(2, acts, s0, [], s0);
    assert s.history[..|s0.history|] == s0.history;
  }

  // ---------------------------------------------------------------- the exact conditions

  lemma SettledCalls(request: Request, attempts: nat, start: nat)
    requires request.Put?
    ensures NeverLate(request, attempts, OK, start) && NeverLate(request, attempts, ErrVersion, start)
    ensures attempts == 0 ==>
            NeverLate(request, attempts, ErrNoKey, start) && NeverLate(request, attempts, ErrMaybe, start)
  {
    hide Run, StartVersion;
    forall n: nat, acts: seq<Action>, s: System, op: nat, more: seq<Action>, t: System, err: Err |
      Run(Init(n), acts, s) && Run(s, more, t) && Returned(s, op, request, attempts, err)
      && (err == OK || err == ErrVersion || attempts == 0)
      ensures t.effects[op] == s.effects[op]
    {
      PutOutcome(n, acts, s, op, more, t);
      RunNothing(s);
      PutOutcome(n, acts, s, op, [], s);
    }
  }

  /** A version error on a key that exists shows that its version is beyond 1. */
  lemma Overtaken(n: nat, acts: seq<Action>, s: System, op: nat, more: seq<Action>, t: System)
    requires Run(Init(n), acts, s) && Run(s, more, t) && op < |s.calls| && s.calls[op].request.Put?
    requires s.calls[op].outcome == Some(PutReply(ErrMaybe)) && s.calls[op].request.version <= 1
    ensures t.effects[op] == s.effects[op]
  {
    hide Run, Inv, Later, KvStore.Run;
    Reachable(n, acts, s, more, t);
    var a := SettledAnswer(s, op);
    KvStore.RunVersioned(s.history[..a.at]);
    PassedBy(s, op, t, a);
  }

  /** A key that exists stays, so ErrNoKey means that it did not exist when the call began, and
      that the Put named a version. */
  lemma NoKeyAtFirst(n: nat, acts: seq<Action>, s: System, op: nat)
    requires Run(Init(n), acts, s) && op < |s.calls| && s.calls[op].request.Put?
    requires s.calls[op].outcome == Some(PutReply(ErrNoKey))
    ensures StartVersion(s, op) == 0 && s.calls[op].request.version > 0
  {
    hide Run, Inv, KvStore.Run;
    RunNothing(s);
    Reachable(n, acts, s, [], s);
    var a := SettledAnswer(s, op);
    KvStore.VersionGrows(s.history, s.calls[op].since, a.at, s.calls[op].request.key);
  }

  /** ErrMaybe settles a call exactly if the Put named a version the key had when the call began,
      or version 0 or 1. */
  lemma MaybeExactly(request: Request, attempts: nat, start: nat)
    requires request.Put?
    ensures NeverLate(request, attempts, ErrMaybe, start) <==> attempts == 0 || request.version <= Types.Max(start, 1)
  {
    hide Run, StartVersion;
    SettledCalls(request, attempts, start);
    if attempts > 0 && request.version > Types.Max(start, 1) {
      LateRun(request, attempts, start, Types.Max(start, 1));
    } else if attempts > 0 {
      forall n: nat, acts: seq<Action>, s: System, op: nat, more: seq<Action>, t: System |
        Run(Init(n), acts, s) && Run(s, more, t) && Returned(s, op, request, attempts, ErrMaybe)
            && StartVersion(s, op) == start
        ensures t.effects[op] == s.effects[op]
      {
        if request.version <= start {
          MaybeIsLinear(n, acts, s, op, more, t);
        } else {
          Overtaken(n, acts, s, op, more, t);
        }
      }
    }
  }

  /** What has no effect has no late one. */
  lemma NoneIsNeverLate(request: Request, attempts: nat, err: Err, start: nat)
    requires NoEffect(request, attempts, err, start)
    ensures NeverLate(request, attempts, err, start)
  {
    hide Run, StartVersion;
    forall n: nat, acts: seq<Action>, s: System, op: nat, more: seq<Action>, t: System |
      Run(Init(n), acts, s) && Run(s, more, t) && Returned(s, op, request, attempts, err)
      && StartVersion(s, op) == start
      ensures t.effects[op] == s.effects[op]
    {
      RunNothing(s);
      assert Run(s, [], s);
    }
  }

  /** ErrNoKey rules out an effect, after the return or at all, exactly if the call was not resent;
      for a Put of version 0, or of a key that existed when the call began, it is never returned. */
  lemma NoKeyExactly(request: Request, attempts: nat, start: nat)
    requires request.Put?
    ensures NeverLate(request, attempts, ErrNoKey, start) <==> attempts == 0 || request.version == 0 || start > 0
    ensures NoEffect(request, attempts, ErrNoKey, start) <==> attempts == 0 || request.version == 0 || start > 0
  {
    hide Run, StartVersion;
    if attempts > 0 && request.version > 0 && start == 0 {
      LateRun(request, attempts, 0, 0);
    } else {
      forall n: nat, acts: seq<Action>, s: System, op: nat, more: seq<Action>, t: System |
        Run(Init(n), acts, s) && Run(s, more, t) && Returned(s, op, request, attempts, ErrNoKey)
        && StartVersion(s, op) == start
        ensures t.effects[op] == 0
      {
        NoKeyAtFirst(n, acts, s, op);
        PutOutcome(n, acts, s, op, more, t);
      }
    }
    if NoEffect(request, attempts, ErrNoKey, start) {
      NoneIsNeverLate(request, attempts, ErrNoKey, start);
    }
  }
}
