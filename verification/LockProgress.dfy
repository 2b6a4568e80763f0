/** Acquire and Release get done: from every reachable state in which nobody stands in the way, a run
    that delivers the client's calls ends with the lock taken, or given back. */
module LockProgress {
  import opened Types
  import opened KvStore
  import opened Clerk
  import opened Lock
  import Runs

  /** The stored owner: nobody as long as the key does not exist or holds the empty string. */
  lemma OwnerIs(w: World)
    ensures Owner(w) == if w.name in w.base.store then w.base.store[w.name].value else ""
  {
  }

  predicate InAcquire(p: Place) {
    At(p, AcquireGet) || At(p, AcquirePut) || At(p, AcquireCheck)
  }

  predicate InRelease(p: Place) {
    At(p, ReleaseGet) || At(p, ReleasePut) || At(p, ReleaseCheck)
  }

  // ---------------------------------------------------------------- running one client

  /** v is reached from w by steps of client c alone. */
  ghost predicate Moved(w: World, v: World, c: nat) {
    && v.name == w.name && v.ids == w.ids && |v.places| == |w.places|
    && (forall d | 0 <= d < |w.places| && d != c :: v.places[d] == w.places[d])
    && (forall d | d != c :: d in v.holding <==> d in w.holding)
    && (exists steps :: Lock.Run(w, steps, v))
  }

  lemma MovedNothing(w: World, c: nat)
    ensures Moved(w, w, c)
  {
    Runs.Nothing(Lock.Next, w);
    assert Lock.Run(w, [], w);
  }

  lemma MovedOn(w: World, v: World, u: World, c: nat)
    requires Moved(w, v, c) && Moved(v, u, c)
    ensures Moved(w, u, c)
  {
    var a :| Lock.Run(w, a, v);
    var b :| Lock.Run(v, b, u);
    Runs.Concat(Lock.Next, w, a, v, b, u);
    assert Lock.Run(w, a + b, u);
  }

  lemma MovedStep(w: World, st: Step, c: nat)
    requires Lock.Inv(w) && Lock.Shape(w) && Lock.Enabled(w, st)
    requires var v := Lock.Apply(w, st);
             && |v.places| == |w.places|
             && (forall d | 0 <= d < |w.places| && d != c :: v.places[d] == w.places[d])
             && (forall d | d != c :: d in v.holding <==> d in w.holding)
    ensures Lock.Inv(Lock.Apply(w, st)) && Moved(w, Lock.Apply(w, st), c)
  {
    hide Lock.Inv, Lock.Shape, Lock.Enabled, Lock.Apply;
    Lock.StepInv(w, st);
    Runs.Nothing(Lock.Next, w);
    Runs.Then(Lock.Next, w, [], w, st, Lock.Apply(w, st));
    assert Lock.Run(w, [] + [st], Lock.Apply(w, st));
  }

  /** Client c waits for a call that has not returned, and for one that has. */
  ghost predicate Asking(w: World, c: nat, k: Kind) {
    && Lock.Inv(w) && c < |w.ids| == |w.places| <= |w.base.busy| && At(w.places[c], k)
    && w.base.busy[c] == Some(w.places[c].op) && w.places[c].op < |w.base.calls|
  }

  ghost predicate Told(w: World, c: nat, k: Kind, r: Reply) {
    && Lock.Inv(w) && c < |w.ids| == |w.places| <= |w.base.busy| && At(w.places[c], k)
    && w.base.busy[c].None? && w.places[c].op < |w.base.calls| && w.base.calls[w.places[c].op].outcome == Some(r)
  }

  lemma EitherWay(w: World, c: nat)
    requires Lock.Inv(w) && c < |w.ids| && w.places[c] != Outside
    ensures w.places[c].op < |w.base.calls|
    ensures Asking(w, c, w.places[c].kind) ||
            (w.base.calls[w.places[c].op].outcome.Some?
             && Told(w, c, w.places[c].kind, w.base.calls[w.places[c].op].outcome.value))
  {
    hide Clerk.Inv, PutOk, NewsOk, OwnerOk;
    assert PlaceOk(w, c);
  }

  /** The call is sent again, that copy is executed, and its answer comes back. */
  lemma Deliver(w: World, c: nat, k: Kind) returns (v: World, r: Reply)
    requires Asking(w, c, k)
    ensures Moved(w, v, c) && v.places == w.places && v.holding == w.holding
    ensures Told(v, c, k, r) && w.places[c].op < |w.base.calls|
    ensures var (store, reply) := DoOp(w.base.store, w.base.calls[w.places[c].op].request);
            v.base.store == store && r == Result(reply, true)
    ensures v.base.calls[w.places[c].op].request == w.base.calls[w.places[c].op].request
  {
    hide Clerk.Inv, PutOk, NewsOk, OwnerOk, PlaceOk, DoOp, Result;
    var op := w.places[c].op;
    var call := w.base.calls[op];
    WorldShape(w);
    MovedStep(w, Network(Action.Resend(c)), c);
    var w1 := Lock.Apply(w, Network(Action.Resend(c)));
    WorldShape(w1);
    var copy := Copy(op, call.attempts + 1);
    MovedStep(w1, Network(Execute(copy)), c);
    var w2 := Lock.Apply(w1, Network(Execute(copy)));
    WorldShape(w2);
    var a := Answer(op, call.attempts + 1, DoOp(w.base.store, call.request).1, |w.base.history|);
    MovedStep(w2, Network(Return(c, a)), c);
    v := Lock.Apply(w2, Network(Return(c, a)));
    r := Result(a.reply, true);
    MovedOn(w, w1, w2, c);
    MovedOn(w, w2, v, c);
  }

  /** The program of c goes on. */
  lemma GoOn(w: World, c: nat, k: Kind, r: Reply) returns (v: World)
    requires Told(w, c, k, r)
    ensures Moved(w, v, c) && v.base.store == w.base.store && Lock.Inv(v) && c < |v.places|
    ensures match Decide(k, w.name, w.ids[c], r)
            case Send(request, next) =>
              && Asking(v, c, next) && v.base.calls[v.places[c].op].request == request && v.holding == w.holding
            case Finish(held) =>
              && v.places[c] == Outside && v.holding == if held then w.holding + {c} else w.holding
  {
    hide Clerk.Inv, PutOk, NewsOk, OwnerOk, PlaceOk, Decide;
    WorldShape(w);
    MovedStep(w, Advance(c), c);
    v := Lock.Apply(w, Advance(c));
  }

  // ---------------------------------------------------------------- what a client is told

  lemma OwnView(w: World, c: nat)
    requires Lock.Inv(w) && c < |w.ids|
    ensures |w.places| == |w.ids| && PlaceOk(w, c) && OwnerOk(w, c)
  {
    hide Clerk.Inv, PutOk, NewsOk, PlaceOk, OwnerOk;
  }

  /** The request of a call is of the kind its place says. */
  lemma KindOf(w: World, c: nat, k: Kind)
    requires Asking(w, c, k)
    ensures var request := w.base.calls[w.places[c].op].request;
            request.key == w.name && (request.Put? <==> k == AcquirePut || k == ReleasePut)
  {
    hide Clerk.Inv, PutOk, NewsOk, OwnerOk;
    OwnView(w, c);
  }

  /** A look at the lock that is delivered tells the owner and the version of now. */
  lemma Looked(w: World, c: nat, k: Kind) returns (v: World, r: Reply)
    requires Asking(w, c, k) && k != AcquirePut && k != ReleasePut
    ensures Moved(w, v, c) && v.places == w.places && v.holding == w.holding && Told(v, c, k, r)
    ensures v.base.store == w.base.store && Owner(v) == Owner(w) && Version(v) == Version(w)
    ensures r == if w.name in w.base.store then GetReply(Owner(w), Version(w), OK) else GetReply("", 0, ErrNoKey)
  {
    hide Clerk.Inv, PutOk, NewsOk, OwnerOk;
    KindOf(w, c, k);
    v, r := Deliver(w, c, k);
  }

  /** A Put on the lock that is delivered takes effect exactly if it is current. */
  lemma Placed(w: World, c: nat, k: Kind) returns (v: World, r: Reply)
    requires Asking(w, c, k) && (k == AcquirePut || k == ReleasePut)
    ensures Moved(w, v, c) && v.places == w.places && v.holding == w.holding && Told(v, c, k, r)
    ensures var request := w.base.calls[w.places[c].op].request;
            && request.Put?
            && if request.version == Version(w) then r == PutReply(OK) && Owner(v) == request.value
               else r == PutReply(ErrMaybe) && Owner(v) == Owner(w)
  {
    hide Clerk.Inv, NewsOk, OwnerOk;
    KindOf(w, c, k);
    v, r := Deliver(w, c, k);
    VersionsKnown(w);
    NoMissingKey(w, w.places[c].op);
  }

  lemma VersionsKnown(w: World)
    requires Lock.Inv(w)
    ensures Versioned(w.base.store)
  {
    hide KvStore.Run, PutOk, NewsOk, PlaceOk, OwnerOk, Clerk.AnswerOk, CallOk, CopyOk, BusyOk, EffectOk;
    RunVersioned(w.base.history);
  }

  /** A Put on the lock never names a version ahead of the lock's. */
  lemma NoMissingKey(w: World, op: nat)
    requires Lock.Inv(w) && op < |w.base.calls|
    ensures w.base.calls[op].request.Put? && w.base.calls[op].request.key == w.name ==>
              w.base.calls[op].request.version <= Version(w)
  {
    hide Clerk.Inv, NewsOk, PlaceOk, OwnerOk;
    assert PutOk(w, op);
  }

  // ---------------------------------------------------------------- Acquire

  /** The client has the lock. */
  ghost predicate Has(w: World, v: World, c: nat) {
    && Moved(w, v, c) && Lock.Inv(v) && c in v.holding && c < |v.places| && v.places[c] == Outside
  }

  /** Nobody else owns the lock. */
  predicate Open(w: World, c: nat) {
    c < |w.ids| && (Owner(w) == "" || Owner(w) == w.ids[c])
  }

  lemma HasOn(w: World, v: World, u: World, c: nat)
    requires Moved(w, v, c) && Has(v, u, c)
    ensures Has(w, u, c)
  {
    hide Moved, Lock.Inv;
    MovedOn(w, v, u, c);
  }

  lemma FromLook(w: World, c: nat) returns (v: World)
    requires Asking(w, c, AcquireGet) && Owner(w) == ""
    ensures Has(w, v, c)
  {
    hide Moved, Lock.Inv;
    var w1, r := Looked(w, c, AcquireGet);
    var w2 := GoOn(w1, c, AcquireGet, r);
    assert Asking(w2, c, AcquirePut) && w2.base.calls[w2.places[c].op].request == Put(w.name, w.ids[c], Version(w)) by {
      MovedNames(w, w1, c);
    }
    MovedNames(w, w1, c);
    MovedNames(w1, w2, c);
    var w3, told := Placed(w2, c, AcquirePut);
    var w4 := GoOn(w3, c, AcquirePut, told);
    MovedOn(w, w1, w2, c);
    MovedOn(w, w2, w3, c);
    MovedOn(w, w3, w4, c);
    v := w4;
  }

  lemma MovedNames(w: World, v: World, c: nat)
    requires Moved(w, v, c)
    ensures v.name == w.name && v.ids == w.ids && |v.places| == |w.places|
  {
  }

  lemma FromCheck(w: World, c: nat) returns (v: World)
    requires Asking(w, c, AcquireCheck) && Open(w, c) && w.ids[c] != ""
    ensures Has(w, v, c)
  {
    hide Moved, Lock.Inv;
    var w1, r := Looked(w, c, AcquireCheck);
    MovedNames(w, w1, c);
    v := AfterCheck(w1, c, r);
    HasOn(w, w1, v, c);
  }

  lemma AfterCheck(w: World, c: nat, r: Reply) returns (v: World)
    requires Told(w, c, AcquireCheck, r) && Open(w, c) && (Owns(r, w.ids[c]) <==> Owner(w) == w.ids[c])
    ensures Has(w, v, c)
  {
    hide Moved, Lock.Inv;
    var w1 := GoOn(w, c, AcquireCheck, r);
    MovedNames(w, w1, c);
    if Owner(w) == w.ids[c] {
      v := w1;
    } else {
      v := FromLook(w1, c);
      HasOn(w, w1, v, c);
    }
  }

  /** What a Put says that the client is waiting for. */
  lemma AfterPut(w: World, c: nat, r: Reply) returns (v: World)
    requires Told(w, c, AcquirePut, r) && Open(w, c) && w.ids[c] != ""
    requires r == PutReply(OK) || r == PutReply(ErrMaybe) || (r == PutReply(ErrVersion) && Owner(w) == "")
    ensures Has(w, v, c)
  {
    hide Moved, Lock.Inv;
    var w1 := GoOn(w, c, AcquirePut, r);
    MovedNames(w, w1, c);
    if r == PutReply(OK) {
      v := w1;
    } else {
      if r == PutReply(ErrMaybe) {
        v := FromCheck(w1, c);
      } else {
        v := FromLook(w1, c);
      }
      HasOn(w, w1, v, c);
    }
  }

  lemma FromPut(w: World, c: nat) returns (v: World)
    requires Asking(w, c, AcquirePut) && Open(w, c) && w.ids[c] != ""
    ensures Has(w, v, c)
  {
    hide Moved, Lock.Inv;
    KindOf(w, c, AcquirePut);
    OwnPut(w, c, AcquirePut);
    var w1, r := Placed(w, c, AcquirePut);
    MovedNames(w, w1, c);
    v := AfterPut(w1, c, r);
    HasOn(w, w1, v, c);
  }

  /** A Put that is current puts the client in place of nobody, or nobody in place of the client. */
  lemma OwnPut(w: World, c: nat, k: Kind)
    requires Asking(w, c, k)
    ensures var request := w.base.calls[w.places[c].op].request;
            request.Put? && request.key == w.name && request.version == Version(w) ==>
              && (k == AcquirePut ==> request.value == w.ids[c] && Owner(w) == "")
              && (k == ReleasePut ==> request.value == "" && Owner(w) == w.ids[c])
  {
    hide Clerk.Inv, NewsOk, OwnerOk;
    OwnView(w, c);
    assert PutOk(w, w.places[c].op);
  }

  /** The answer a client has not looked at yet tells it rightly whether it is the owner. */
  lemma TruthTold(w: World, c: nat, k: Kind, r: Reply)
    requires Told(w, c, k, r)
    ensures w.ids[c] != ""
    ensures k != AcquirePut && k != ReleasePut ==>
              && r.GetReply? && (r.err == OK || r.err == ErrNoKey)
              && (Owns(r, w.ids[c]) <==> Owner(w) == w.ids[c])
    ensures k == AcquirePut || k == ReleasePut ==>
              && (r == PutReply(OK) || r == PutReply(ErrVersion) || r == PutReply(ErrMaybe))
              && (r == PutReply(OK) ==> (Owner(w) == w.ids[c] <==> k == AcquirePut))
              && (r == PutReply(ErrVersion) ==> (Owner(w) == w.ids[c] <==> k == ReleasePut))
  {
    hide Clerk.Inv, PutOk;
    var op := w.places[c].op;
    OwnView(w, c);
    var a := AnswerSeen(w, op);
    hide Lock.Inv;
    if k == AcquirePut || k == ReleasePut {
      PutTold(w, op);
    }
  }

  /** Acquire gets the lock: wherever the client is in Acquire, and whatever it was told or is still
      waiting for, if the stored owner is nobody, or the client by a Put whose answer it does not
      know, a run ends with the client holding the lock. */
  lemma AcquireSucceeds(name: string, ids: seq<string>, others: nat, before: seq<Step>, w: World, c: nat)
      returns (steps: seq<Step>, v: World)
    requires Distinct(ids) && Lock.Run(Lock.Init(name, ids, others), before, w)
    requires c < |ids| && c < |w.places| && InAcquire(w.places[c]) && c !in w.holding
    requires name in w.base.store ==> w.base.store[name].value == "" || w.base.store[name].value == ids[c]
    ensures Lock.Run(w, steps, v)
    ensures c in v.holding && c < |v.places| && v.places[c] == Outside
    ensures name in v.base.store && v.base.store[name].value == ids[c]
  {
    hide Lock.Run, Lock.Inv, Moved;
    Lock.Reachable(name, ids, others, before, w);
    v := Acquires(w, c);
    HolderOwns(v, c);
    MovedNames(w, v, c);
    steps := MovedRun(w, v, c);
  }

  lemma MovedRun(w: World, v: World, c: nat) returns (steps: seq<Step>)
    requires Moved(w, v, c)
    ensures Lock.Run(w, steps, v)
  {
    hide Lock.Run;
    steps :| Lock.Run(w, steps, v);
  }

  lemma HolderOwns(w: World, c: nat)
    requires Lock.Inv(w) && c in w.holding
    ensures c < |w.ids| && w.ids[c] != "" && Owner(w) == w.ids[c]
  {
    hide Clerk.Inv, PutOk, NewsOk, PlaceOk;
    assert OwnerOk(w, c);
  }

  lemma Acquires(w: World, c: nat) returns (v: World)
    requires Lock.Inv(w) && c < |w.ids| && c < |w.places| && InAcquire(w.places[c]) && c !in w.holding && Open(w, c)
    ensures Has(w, v, c)
  {
    hide Moved, Lock.Inv;
    var k := w.places[c].kind;
    EitherWay(w, c);
    NotMine(w, c);
    if Asking(w, c, k) {
      match k {
        case AcquireGet => v := FromLook(w, c);
        case AcquirePut => v := FromPut(w, c);
        case AcquireCheck => v := FromCheck(w, c);
      }
    } else {
      var r := w.base.calls[w.places[c].op].outcome.value;
      TruthTold(w, c, k, r);
      match k {
        case AcquireGet => v := AfterLook(w, c, r);
        case AcquirePut => v := AfterPut(w, c, r);
        case AcquireCheck => v := AfterCheck(w, c, r);
      }
    }
  }

  lemma NotMine(w: World, c: nat)
    requires Lock.Inv(w) && c < |w.ids|
    ensures w.ids[c] != "" && |w.places| == |w.ids|
    ensures At(w.places[c], AcquireGet) && c !in w.holding ==> Owner(w) != w.ids[c]
    ensures w.places[c] == Outside && c !in w.holding ==> Owner(w) != w.ids[c]
    ensures InRelease(w.places[c]) ==> c !in w.holding
  {
    hide Clerk.Inv, PutOk, NewsOk, PlaceOk;
    assert OwnerOk(w, c);
  }

  /** An old answer may lead to a Put that is out of date, or to another look. */
  lemma AfterLook(w: World, c: nat, r: Reply) returns (v: World)
    requires Told(w, c, AcquireGet, r) && Owner(w) == "" && w.ids[c] != "" && Open(w, c)
    ensures Has(w, v, c)
  {
    hide Moved, Lock.Inv;
    var w1 := GoOn(w, c, AcquireGet, r);
    MovedNames(w, w1, c);
    if At(w1.places[c], AcquirePut) {
      v := FromPut(w1, c);
    } else {
      v := FromLook(w1, c);
    }
    HasOn(w, w1, v, c);
  }

  // ---------------------------------------------------------------- Release

  /** The client has left Release, and the lock is nobody's if it was the client's. */
  ghost predicate Left(w: World, v: World, c: nat)
    requires c < |w.ids|
  {
    && Moved(w, v, c) && Lock.Inv(v) && c < |v.places| && v.places[c] == Outside
    && v.holding == w.holding && Owner(v) == if Owner(w) == w.ids[c] then "" else Owner(w)
  }

  lemma LeftOn(w: World, v: World, u: World, c: nat)
    requires c < |w.ids| == |v.ids| && Moved(w, v, c) && v.holding == w.holding && Owner(v) == Owner(w) && Left(v, u, c)
    ensures Left(w, u, c)
  {
    hide Lock.Inv, Lock.Run, Owner;
    MovedOn(w, v, u, c);
  }

  lemma ReleaseLook(w: World, c: nat) returns (v: World)
    requires Asking(w, c, ReleaseGet) && w.ids[c] != ""
    ensures Left(w, v, c)
  {
    hide Moved, Lock.Inv;
    var w1, r := Looked(w, c, ReleaseGet);
    MovedNames(w, w1, c);
    var w2 := GoOn(w1, c, ReleaseGet, r);
    MovedNames(w1, w2, c);
    MovedOn(w, w1, w2, c);
    if w2.places[c] == Outside {
      v := w2;
    } else {
      var w3, told := Placed(w2, c, ReleasePut);
      MovedNames(w2, w3, c);
      var w4 := GoOn(w3, c, ReleasePut, told);
      MovedOn(w, w2, w3, c);
      MovedOn(w, w3, w4, c);
      v := w4;
    }
  }

  lemma ReleaseChecked(w: World, c: nat, r: Reply) returns (v: World)
    requires Told(w, c, ReleaseCheck, r) && w.ids[c] != ""
    requires r.GetReply? && (r.err == OK || r.err == ErrNoKey) && (Owns(r, w.ids[c]) <==> Owner(w) == w.ids[c])
    ensures Left(w, v, c)
  {
    hide Moved, Lock.Inv;
    var w1 := GoOn(w, c, ReleaseCheck, r);
    MovedNames(w, w1, c);
    if w1.places[c] == Outside {
      v := w1;
    } else {
      v := ReleaseLook(w1, c);
      LeftOn(w, w1, v, c);
    }
  }

  lemma ReleaseCheckCall(w: World, c: nat) returns (v: World)
    requires Asking(w, c, ReleaseCheck) && w.ids[c] != ""
    ensures Left(w, v, c)
  {
    hide Moved, Lock.Inv;
    var w1, r := Looked(w, c, ReleaseCheck);
    MovedNames(w, w1, c);
    v := ReleaseChecked(w1, c, r);
    LeftOn(w, w1, v, c);
  }

  lemma ReleasedPut(w: World, c: nat, r: Reply) returns (v: World)
    requires Told(w, c, ReleasePut, r) && w.ids[c] != ""
    requires r == PutReply(OK) || r == PutReply(ErrVersion) || r == PutReply(ErrMaybe)
    requires r == PutReply(OK) ==> Owner(w) != w.ids[c]
    ensures Left(w, v, c)
  {
    hide Moved, Lock.Inv;
    var w1 := GoOn(w, c, ReleasePut, r);
    MovedNames(w, w1, c);
    if r == PutReply(OK) {
      v := w1;
    } else {
      if r == PutReply(ErrMaybe) {
        v := ReleaseCheckCall(w1, c);
      } else {
        v := ReleaseLook(w1, c);
      }
      LeftOn(w, w1, v, c);
    }
  }

  lemma ReleasePutCall(w: World, c: nat) returns (v: World)
    requires Asking(w, c, ReleasePut) && w.ids[c] != ""
    ensures Left(w, v, c)
  {
    hide Moved, Lock.Inv;
    KindOf(w, c, ReleasePut);
    OwnPut(w, c, ReleasePut);
    var w1, r := Placed(w, c, ReleasePut);
    MovedNames(w, w1, c);
    v := ReleasedPut(w1, c, r);
    if Owner(w1) == Owner(w) {
      LeftOn(w, w1, v, c);
    } else {
      MovedOn(w, w1, v, c);
    }
  }

  lemma ReleaseLooked(w: World, c: nat, r: Reply) returns (v: World)
    requires Told(w, c, ReleaseGet, r) && w.ids[c] != ""
    requires r.GetReply? && (r.err == OK || r.err == ErrNoKey) && (Owns(r, w.ids[c]) <==> Owner(w) == w.ids[c])
    ensures Left(w, v, c)
  {
    hide Moved, Lock.Inv;
    var w1 := GoOn(w, c, ReleaseGet, r);
    MovedNames(w, w1, c);
    if w1.places[c] == Outside {
      v := w1;
    } else {
      v := ReleasePutCall(w1, c);
      LeftOn(w, w1, v, c);
    }
  }

  lemma Releases(w: World, c: nat) returns (v: World)
    requires Lock.Inv(w) && c < |w.ids| && c < |w.places| && InRelease(w.places[c])
    ensures Left(w, v, c)
  {
    hide Moved, Lock.Inv;
    var k := w.places[c].kind;
    EitherWay(w, c);
    NotMine(w, c);
    if Asking(w, c, k) {
      match k {
        case ReleaseGet => v := ReleaseLook(w, c);
        case ReleasePut => v := ReleasePutCall(w, c);
        case ReleaseCheck => v := ReleaseCheckCall(w, c);
      }
    } else {
      var r := w.base.calls[w.places[c].op].outcome.value;
      TruthTold(w, c, k, r);
      match k {
        case ReleaseGet => v := ReleaseLooked(w, c, r);
        case ReleasePut => v := ReleasedPut(w, c, r);
        case ReleaseCheck => v := ReleaseChecked(w, c, r);
      }
    }
  }

  /** Release gives the lock back: wherever the client is in Release, a run ends with the client out
      of it, the lock being nobody's if it was the client's, and otherwise as it was. */
  lemma ReleaseSucceeds(name: string, ids: seq<string>, others: nat, before: seq<Step>, w: World, c: nat)
      returns (steps: seq<Step>, v: World)
    requires Distinct(ids) && Lock.Run(Lock.Init(name, ids, others), before, w)
    requires c < |ids| && c < |w.places| && InRelease(w.places[c])
    ensures Lock.Run(w, steps, v) && c < |v.places| && v.places[c] == Outside && v.holding == w.holding
    ensures c !in v.holding && Owner(v) == if Owner(w) == ids[c] then "" else Owner(w)
  {
    hide Lock.Run, Lock.Inv, Moved;
    Lock.Reachable(name, ids, others, before, w);
    NotMine(w, c);
    v := Releases(w, c);
    steps := MovedRun(w, v, c);
  }

  /** The lock passes on: from every reachable state in which d holds it, a run ends with another
      client that was outside Acquire and Release holding it. */
  lemma LockPassesOn(name: string, ids: seq<string>, others: nat, before: seq<Step>, w: World, d: nat, c: nat)
      returns (steps: seq<Step>, v: World)
    requires Distinct(ids) && Lock.Run(Lock.Init(name, ids, others), before, w)
    requires d in w.holding && d < |w.places| && w.places[d] == Outside
    requires c < |w.places| && c != d && w.places[c] == Outside
    ensures Lock.Run(w, steps, v) && v.holding == {c} && c < |v.places| && v.places[c] == Outside
  {
    hide Lock.Run, Lock.Inv, Moved;
    Lock.Reachable(name, ids, others, before, w);
    HolderOwns(w, d);
    var w1 := Begin(w, d, Release(d));
    var w2 := Releases(w1, d);
    StayedOut(w, w1, d, c);
    StayedOut(w1, w2, d, c);
    var w3 := Begin(w2, c, Acquire(c));
    MovedNames(w2, w3, c);
    NotMine(w2, c);
    HoldersDiffer(w, d, c);
    v := Acquires(w3, c);
    var a := MovedRun(w, w1, d);
    var b := MovedRun(w1, w2, d);
    var e := MovedRun(w2, w3, c);
    var f := MovedRun(w3, v, c);
    hide Has, Left;
    JoinRuns(w, a, w1, b, w2);
    JoinRuns(w, a + b, w2, e, w3);
    JoinRuns(w, a + b + e, w3, f, v);
    steps := a + b + e + f;
    OneHolder(v, c);
  }

  lemma JoinRuns(w: World, a: seq<Step>, v: World, b: seq<Step>, u: World)
    requires Lock.Run(w, a, v) && Lock.Run(v, b, u)
    ensures Lock.Run(w, a + b, u)
  {
    Runs.Concat(Lock.Next, w, a, v, b, u);
  }

  lemma OneHolder(w: World, c: nat)
    requires Lock.Inv(w) && c in w.holding
    ensures w.holding == {c}
  {
    hide Lock.Inv;
    HolderOwns(w, c);
    forall d | d in w.holding
      ensures d == c
    {
      if d != c {
        HoldersDiffer(w, c, d);
      }
    }
  }

  lemma HoldersDiffer(w: World, c: nat, d: nat)
    requires Lock.Inv(w) && c in w.holding && d != c
    ensures d !in w.holding
  {
    hide Clerk.Inv, PutOk, NewsOk, PlaceOk;
    assert OwnerOk(w, c);
    assert d in w.holding ==> OwnerOk(w, d);
  }

  lemma StayedOut(w: World, v: World, d: nat, c: nat)
    requires Moved(w, v, d) && c != d && c < |w.places|
    ensures c < |v.places| && v.places[c] == w.places[c] && v.name == w.name && v.ids == w.ids
    ensures c in v.holding <==> c in w.holding
  {
    hide Lock.Run;
  }

  lemma Begin(w: World, c: nat, st: Step) returns (v: World)
    requires Lock.Inv(w) && c < |w.places| && w.places[c] == Outside && (st == Acquire(c) || st == Release(c))
    ensures Moved(w, v, c) && Lock.Inv(v) && v.base.store == w.base.store && c < |v.places| && c < |v.ids|
    ensures if st.Acquire? then At(v.places[c], AcquireGet) && v.holding == w.holding
            else At(v.places[c], ReleaseGet) && v.holding == w.holding - {c}
  {
    hide Clerk.Inv, PutOk, NewsOk, OwnerOk;
    OwnView(w, c);
    WorldShape(w);
    MovedStep(w, st, c);
    v := Lock.Apply(w, st);
  }
}
