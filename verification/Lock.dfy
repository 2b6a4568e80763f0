/** The lock of src/kvsrv1/lock/lock.go: clients that run Acquire and Release over retrying clerks,
    next to other clients that use other keys. */
module Lock {
  import opened Types
  import opened KvStore
  import opened Clerk
  import Runs

  /** The clerk calls of the two programs. */
  datatype Kind = AcquireGet | AcquirePut | AcquireCheck | ReleaseGet | ReleasePut | ReleaseCheck

  /** Where a client's program is, with the clerk call it waits for. */
  datatype Place = Outside | Waiting(kind: Kind, op: nat)

  /** What a program does next: another clerk call, or return, with or without the lock. */
  datatype Move = Send(request: Request, next: Kind) | Finish(held: bool)

  /** Clients below |ids| use the lock called name under their own identifier.  holding: the
      clients between a return of Acquire and their next call of Release. */
  datatype World = World(name: string, ids: seq<string>, base: System, places: seq<Place>, holding: set<nat>)

  datatype Step =
    | Acquire(c: nat)
    | Release(c: nat)
    | Advance(c: nat)
    | Other(c: nat, request: Request)
    | Network(a: Action)

  predicate Shape(w: World) {
    && Clerk.Shape(w.base)
    && |w.places| == |w.ids| <= |w.base.busy|
  }

  /** The call a client waits for has returned. */
  predicate Ready(w: World, c: nat) {
    && c < |w.places| && c < |w.base.busy| && w.places[c] != Outside
    && w.places[c].op < |w.base.calls| && w.base.calls[w.places[c].op].outcome.Some? && w.base.busy[c].None?
  }

  predicate Enabled(w: World, st: Step)
    requires Shape(w)
  {
    match st
    case Acquire(c) => c < |w.places| && w.places[c] == Outside && w.base.busy[c].None?
    case Release(c) => c < |w.places| && w.places[c] == Outside && w.base.busy[c].None?
    case Advance(c) => Ready(w, c)
    case Other(c, request) => |w.ids| <= c < |w.base.busy| && w.base.busy[c].None? && request.key != w.name
    case Network(a) => !a.Invoke? && Clerk.Enabled(w.base, a)
  }

  /** Client c makes a clerk call and waits for it at the given place. */
  function Call(w: World, c: nat, request: Request, place: Place): World
    requires Shape(w) && c < |w.places| && w.base.busy[c].None?
  {
    w.(base := Clerk.Apply(w.base, Invoke(c, request)), places := w.places[c := place])
  }

  function Look(w: World): Request { Get(w.name) }

  /** An answer of Get that names the client as the owner. */
  predicate Owns(r: Reply, id: string) {
    r.GetReply? && r.err == OK && r.value == id
  }

  /** Acquire and Release between two clerk calls. */
  function Decide(k: Kind, name: string, id: string, r: Reply): Move {
    var look := Get(name);
    match k
    case AcquireGet =>
      if r.GetReply? && r.err == ErrNoKey then Send(Put(name, id, 0), AcquirePut)
      else if r.GetReply? && r.err == OK && r.value == "" then Send(Put(name, id, r.version), AcquirePut)
      else Send(look, AcquireGet)
    case AcquirePut =>
      if r.err == OK then Finish(true)
      else if r.err == ErrMaybe then Send(look, AcquireCheck)
      else Send(look, AcquireGet)
    case AcquireCheck =>
      if Owns(r, id) then Finish(true) else Send(look, AcquireGet)
    case ReleaseGet =>
      if r.err == ErrNoKey then Finish(false)
      else if !r.GetReply? || r.err != OK then Send(look, ReleaseGet)
      else if r.value != id then Finish(false)
      else Send(Put(name, "", r.version), ReleasePut)
    case ReleasePut =>
      if r.err == OK then Finish(false)
      else if r.err == ErrMaybe then Send(look, ReleaseCheck)
      else Send(look, ReleaseGet)
    case ReleaseCheck =>
      if r.err == ErrNoKey || (r.GetReply? && r.err == OK && r.value != id) then Finish(false)
      else Send(look, ReleaseGet)
  }

  /** The program of client c goes on with the answer it waited for. */
  function Continue(w: World, c: nat): World
    requires Shape(w) && Ready(w, c)
  {
    match Decide(w.places[c].kind, w.name, w.ids[c], w.base.calls[w.places[c].op].outcome.value)
    case Send(request, next) => Call(w, c, request, Waiting(next, |w.base.calls|))
    case Finish(held) => w.(places := w.places[c := Outside], holding := if held then w.holding + {c} else w.holding)
  }

  function Apply(w: World, st: Step): World
    requires Shape(w) && Enabled(w, st)
  {
    match st
    case Acquire(c) => Call(w, c, Look(w), Waiting(AcquireGet, |w.base.calls|))
    case Release(c) => Call(w, c, Look(w), Waiting(ReleaseGet, |w.base.calls|)).(holding := w.holding - {c})
    case Advance(c) => Continue(w, c)
    case Other(c, request) => w.(base := Clerk.Apply(w.base, Invoke(c, request)))
    case Network(a) => w.(base := Clerk.Apply(w.base, a))
  }

  function Init(name: string, ids: seq<string>, others: nat): World {
    World(name, ids, Clerk.Init(|ids| + others), seq(|ids|, _ => Outside), {})
  }

  // ---------------------------------------------------------------- invariant

  function Owner(w: World): string {
    if w.name in w.base.store then w.base.store[w.name].value else ""
  }

  function Version(w: World): nat {
    VersionOf(w.base.store, w.name)
  }

  ghost predicate Distinct(ids: seq<string>) {
    && (forall c | 0 <= c < |ids| :: ids[c] != "")
    && (forall c, d | 0 <= c < d < |ids| :: ids[c] != ids[d])
  }

  predicate At(p: Place, k: Kind) {
    p.Waiting? && p.kind == k
  }

  predicate Putting(p: Place) {
    At(p, AcquirePut) || At(p, ReleasePut)
  }

  /** A Put on the lock is current and then changes the owner it was based on, or its version is
      out of date for good. */
  ghost predicate PutOk(w: World, op: nat)
    requires op < |w.base.calls| && |w.places| == |w.ids|
  {
    var call := w.base.calls[op];
    call.request.key == w.name ==>
      && call.client < |w.ids|
      && (call.request.Put? ==>
            && call.request.version <= Version(w)
            && (call.request.version == Version(w) ==>
                  || (w.places[call.client] == Waiting(AcquirePut, op) && Owner(w) == ""
                        && call.request.value == w.ids[call.client])
                  || (w.places[call.client] == Waiting(ReleasePut, op) && Owner(w) == w.ids[call.client]
                        && call.request.value == "")))
  }

  /** Answers about the lock: a Put that was answered is out of date; a Get told the value that
      belongs to its version, and told a waiting client whether it is the owner now. */
  ghost predicate NewsOk(w: World, a: Answer)
    requires a.op < |w.base.calls| && |w.places| == |w.ids|
  {
    var call := w.base.calls[a.op];
    call.request.key == w.name ==>
      && call.client < |w.ids|
      && (call.request.Put? ==>
            call.request.version < Version(w) && (a.reply == PutReply(OK) || a.reply == PutReply(ErrVersion)))
      && (call.request.Get? ==>
            && a.reply.GetReply?
            && (a.reply.err == ErrNoKey || a.reply.err == OK)
            && a.reply.version <= Version(w)
            && (a.reply.err == ErrNoKey ==> a.reply.version == 0)
            && (a.reply.version == Version(w) ==> Owner(w) == if a.reply.err == OK then a.reply.value else "")
            && (w.places[call.client] != Outside && w.places[call.client].op == a.op ==>
                  (Owns(a.reply, w.ids[call.client]) <==> Owner(w) == w.ids[call.client])))
  }

  /** The call a client waits for is its own, of the kind its place says. */
  ghost predicate PlaceOk(w: World, c: nat)
    requires c < |w.places| == |w.ids| && |w.ids| <= |w.base.busy|
  {
    var p := w.places[c];
    if p == Outside then w.base.busy[c].None?
    else
      && p.op < |w.base.calls|
      && var call := w.base.calls[p.op];
         && call.client == c && call.request.key == w.name
         && (Putting(p) <==> call.request.Put?)
         && (w.base.busy[c].Some? ==> w.base.busy[c] == Some(p.op))
         && (w.base.busy[c].None? ==> call.outcome.Some?)
  }

  /** The owner stored at the server is a client exactly when that client's program has it so. */
  ghost predicate OwnerOk(w: World, c: nat)
    requires c < |w.places| == |w.ids|
  {
    var p, mine := w.places[c], Owner(w) == w.ids[c];
    && (c in w.holding ==> mine && (p == Outside || At(p, AcquireGet)))
    && (c !in w.holding && (p == Outside || At(p, AcquireGet)) ==> !mine)
    && (At(p, AcquirePut) ==> (mine <==> w.base.effects[p.op] > 0))
    && (At(p, ReleasePut) ==> (mine <==> w.base.effects[p.op] == 0))
  }

  ghost predicate Inv(w: World) {
    && Clerk.Inv(w.base) && Shape(w) && Distinct(w.ids)
    && (forall c | c in w.holding :: c < |w.ids|)
    && (forall op | 0 <= op < |w.base.calls| :: PutOk(w, op))
    && (forall a | a in w.base.answers :: a.op < |w.base.calls| && NewsOk(w, a))
    && (forall c | 0 <= c < |w.ids| :: PlaceOk(w, c) && OwnerOk(w, c))
  }

  // ---------------------------------------------------------------- a program step

  lemma AnswerSeen(w: World, op: nat) returns (a: Answer)
    requires Inv(w) && op < |w.base.calls| && w.base.calls[op].outcome.Some?
    ensures a in w.base.answers && a.op == op && NewsOk(w, a)
    ensures w.base.calls[op].outcome == Some(Result(a.reply, w.base.calls[op].attempts > 0))
  {
    hide KvStore.Run, DoOp, Clerk.AnswerOk, EffectOk, CopyOk, NewsOk, PutOk, PlaceOk, OwnerOk;
    assert CallOk(w.base, op);
    a :| Settled(w.base, op, a);
  }

  /** The call is a Put of client c on the lock. */
  predicate LockPut(w: World, op: nat, c: nat)
    requires op < |w.base.calls|
  {
    var call := w.base.calls[op];
    call.client == c && call.request.Put? && call.request.key == w.name
  }

  /** A client between two calls has no Put on its way that could still take effect. */
  lemma PutsOver(w: World, c: nat)
    requires Inv(w) && c < |w.ids| && w.base.busy[c].None?
    ensures forall op | 0 <= op < |w.base.calls| && LockPut(w, op, c) :: w.base.calls[op].request.version < Version(w)
  {
    hide Clerk.Inv, OwnerOk;
    assert PlaceOk(w, c);
    forall op: nat | op < |w.base.calls| && LockPut(w, op, c)
      ensures w.base.calls[op].request.version < Version(w)
    {
      assert PutOk(w, op);
      if w.places[c] != Outside && w.places[c].op == op {
        var a := AnswerSeen(w, op);
      }
    }
  }

  /** The request that a client may send next from its place. */
  ghost predicate Sound(w: World, c: nat, request: Request, place: Place)
    requires c < |w.ids|
  {
    && request.key == w.name && place != Outside && place.op == |w.base.calls|
    && (request.Put? <==> Putting(place))
    && (request.Put? ==>
          && request.version <= Version(w)
          && (request.version == Version(w) ==>
                || (At(place, AcquirePut) && Owner(w) == "" && request.value == w.ids[c])
                || (At(place, ReleasePut) && Owner(w) == w.ids[c] && request.value == "")))
  }

  lemma CallInv(w: World, c: nat, request: Request, place: Place, holding: set<nat>)
    requires Inv(w) && c < |w.ids| && w.base.busy[c].None? && Sound(w, c, request, place)
    requires holding == w.holding || holding == w.holding - {c}
    requires At(place, AcquireGet) ==> (c in holding <==> Owner(w) == w.ids[c])
    requires !At(place, AcquireGet) ==> c !in holding
    requires At(place, AcquirePut) ==> Owner(w) != w.ids[c]
    requires At(place, ReleasePut) ==> Owner(w) == w.ids[c]
    ensures Inv(Call(w, c, request, place).(holding := holding))
  {
    hide Clerk.Inv, VersionOf, Owns;
    var v := Call(w, c, request, place).(holding := holding);
    Clerk.StepInv(w.base, Invoke(c, request));
    NoEffectYet(w.base);
    PutsOver(w, c);
    forall op | 0 <= op < |v.base.calls| ensures PutOk(v, op) { assert op < |w.base.calls| ==> PutOk(w, op); }
    forall a | a in v.base.answers ensures a.op < |v.base.calls| && NewsOk(v, a) { assert NewsOk(w, a); }
    forall d | 0 <= d < |v.ids| ensures PlaceOk(v, d) && OwnerOk(v, d) { assert PlaceOk(w, d) && OwnerOk(w, d); }
  }

  lemma NoEffectYet(s: System)
    requires Clerk.Inv(s)
    ensures s.effects[|s.calls|] == 0
  {
    hide Clerk.AnswerOk, CallOk, CopyOk, BusyOk, KvStore.Run;
    assert EffectOk(s, |s.calls|);
  }

  /** Leaving Acquire or Release. */
  lemma LeaveInv(w: World, c: nat, holding: set<nat>)
    requires Inv(w) && Ready(w, c)
    requires holding == w.holding || holding == w.holding + {c}
    requires c in holding <==> Owner(w) == w.ids[c]
    ensures Inv(w.(places := w.places[c := Outside], holding := holding))
  {
    hide Clerk.Inv, VersionOf, Owns;
    var v := w.(places := w.places[c := Outside], holding := holding);
    PutsOver(w, c);
    forall op | 0 <= op < |v.base.calls| ensures PutOk(v, op) { assert PutOk(w, op); }
    forall a | a in v.base.answers ensures a.op < |v.base.calls| && NewsOk(v, a) { assert NewsOk(w, a); }
    forall d | 0 <= d < |v.ids| ensures PlaceOk(v, d) && OwnerOk(v, d) { assert PlaceOk(w, d) && OwnerOk(w, d); }
  }

  lemma PutTold(w: World, op: nat)
    requires Inv(w) && op < |w.base.calls| && w.base.calls[op].outcome.Some?
    requires w.base.calls[op].request.Put? && w.base.calls[op].request.key == w.name
    ensures var out := w.base.calls[op].outcome.value;
            && out.PutReply? && (out.err == OK || out.err == ErrVersion || out.err == ErrMaybe)
            && (out.err == OK ==> w.base.effects[op] == 1)
            && (out.err == ErrVersion ==> w.base.effects[op] == 0)
  {
    hide KvStore.Run, DoOp, CopyOk, PutOk, PlaceOk, OwnerOk, BusyOk;
    var a := AnswerSeen(w, op);
    assert Clerk.AnswerOk(w.base, a) && EffectOk(w.base, op);
  }

  lemma AdvanceInv(w: World, c: nat)
    requires Inv(w) && Ready(w, c)
    ensures Inv(Continue(w, c))
  {
    hide Clerk.Inv, PutOk, VersionOf;
    var p := w.places[c];
    assert PlaceOk(w, c) && OwnerOk(w, c);
    var a := AnswerSeen(w, p.op);
    hide Inv;
    var r, op := w.base.calls[p.op].outcome.value, |w.base.calls|;
    if Putting(p) {
      PutTold(w, p.op);
    }
    match p.kind {
      case AcquireGet =>
        if r.err == ErrNoKey {
          CallInv(w, c, Put(w.name, w.ids[c], 0), Waiting(AcquirePut, op), w.holding);
        } else if r.value == "" {
          CallInv(w, c, Put(w.name, w.ids[c], r.version), Waiting(AcquirePut, op), w.holding);
        } else {
          CallInv(w, c, Look(w), Waiting(AcquireGet, op), w.holding);
        }
      case AcquirePut =>
        if r.err == OK {
          LeaveInv(w, c, w.holding + {c});
        } else if r.err == ErrMaybe {
          CallInv(w, c, Look(w), Waiting(AcquireCheck, op), w.holding);
        } else {
          CallInv(w, c, Look(w), Waiting(AcquireGet, op), w.holding);
        }
      case AcquireCheck =>
        if Owns(r, w.ids[c]) {
          LeaveInv(w, c, w.holding + {c});
        } else {
          CallInv(w, c, Look(w), Waiting(AcquireGet, op), w.holding);
        }
      case ReleaseGet =>
        if r.err == ErrNoKey || r.value != w.ids[c] {
          LeaveInv(w, c, w.holding);
        } else {
          CallInv(w, c, Put(w.name, "", r.version), Waiting(ReleasePut, op), w.holding);
        }
      case ReleasePut =>
        if r.err == OK {
          LeaveInv(w, c, w.holding);
        } else if r.err == ErrMaybe {
          CallInv(w, c, Look(w), Waiting(ReleaseCheck, op), w.holding);
        } else {
          CallInv(w, c, Look(w), Waiting(ReleaseGet, op), w.holding);
        }
      case ReleaseCheck =>
        if r.err == ErrNoKey || r.value != w.ids[c] {
          LeaveInv(w, c, w.holding);
        } else {
          CallInv(w, c, Look(w), Waiting(ReleaseGet, op), w.holding);
        }
    }
  }

  // ---------------------------------------------------------------- the network

  /** Executing a copy of a Put on the lock: it takes effect exactly if it is current, and then
      hands the lock from nobody to its client or from its client to nobody. */
  lemma PutExecuted(w: World, copy: Copy)
    requires Inv(w) && copy in w.base.net && copy.op < |w.base.calls|
    requires w.base.calls[copy.op].request.Put? && w.base.calls[copy.op].request.key == w.name
    ensures var (v, call) := (w.(base := Clerk.Apply(w.base, Execute(copy))), w.base.calls[copy.op]);
            var reply := DoOp(w.base.store, call.request).1;
            && call.request.version < Version(v) && call.client < |w.ids|
            && (reply == PutReply(OK) || reply == PutReply(ErrVersion))
            && (reply == PutReply(ErrVersion) ==> v.base.store == w.base.store)
            && (reply == PutReply(OK) ==>
                  && Version(v) == Version(w) + 1 && w.base.effects[copy.op] == 0
                  && ((w.places[call.client] == Waiting(AcquirePut, copy.op) && Owner(w) == ""
                        && Owner(v) == w.ids[call.client])
                      || (w.places[call.client] == Waiting(ReleasePut, copy.op) && Owner(w) == w.ids[call.client]
                            && Owner(v) == "")))
  {
    hide KvStore.Run, Clerk.AnswerOk, CallOk, BusyOk, CopyOk, EffectOk, NewsOk, PlaceOk, OwnerOk;
    RunVersioned(w.base.history);
    ExecuteEffect(w.base, copy);
    assert PutOk(w, copy.op);
  }

  /** A Put on the lock that takes effect keeps everybody's view right. */
  lemma HandOver(w: World, v: World, copy: Copy)
    requires Inv(w) && copy in w.base.net && copy.op < |w.base.calls|
    requires v == w.(base := Clerk.Apply(w.base, Execute(copy)))
    requires Clerk.Inv(v.base) && Shape(v)
    requires w.base.calls[copy.op].request.Put? && w.base.calls[copy.op].request.key == w.name
    requires DoOp(w.base.store, w.base.calls[copy.op].request).1 == PutReply(OK)
    ensures Inv(v)
  {
    hide Clerk.Inv, VersionOf, Owns;
    PutExecuted(w, copy);
    hide DoOp;
    var d := w.base.calls[copy.op].client;
    forall op | 0 <= op < |v.base.calls| ensures PutOk(v, op) { assert PutOk(w, op); }
    forall a | a in v.base.answers
      ensures a.op < |v.base.calls| && NewsOk(v, a)
    {
      if a in w.base.answers {
        assert NewsOk(w, a);
        NewsKept(w, v, a, d);
      }
    }
    forall c | 0 <= c < |v.ids|
      ensures PlaceOk(v, c) && OwnerOk(v, c)
    {
      assert PlaceOk(w, c) && OwnerOk(w, c);
      OtherEffects(w, v, copy, c);
    }
  }

  lemma NewsKept(w: World, v: World, a: Answer, d: nat)
    requires Distinct(w.ids) && |w.places| == |w.ids| && a.op < |w.base.calls| && NewsOk(w, a) && d < |w.ids|
    requires v.places == w.places && v.ids == w.ids && v.name == w.name && v.base.calls == w.base.calls
    requires Version(v) == Version(w) + 1 && Putting(w.places[d])
    requires |w.ids| <= |w.base.busy| && forall c | 0 <= c < |w.ids| :: PlaceOk(w, c)
    requires (Owner(w) == "" && Owner(v) == w.ids[d]) || (Owner(w) == w.ids[d] && Owner(v) == "")
    ensures NewsOk(v, a)
  {
    hide VersionOf, Owns, Version, Owner;
    var call := w.base.calls[a.op];
    if call.request.key == w.name && call.client < |w.ids| {
      assert PlaceOk(w, call.client);
    }
  }

  lemma OtherEffects(w: World, v: World, copy: Copy, c: nat)
    requires |w.places| == |w.ids| <= |w.base.busy| && c < |w.ids| && PlaceOk(w, c) && copy.op < |w.base.calls|
    requires Clerk.Shape(w.base) && copy in w.base.net && v == w.(base := Clerk.Apply(w.base, Execute(copy)))
    ensures w.places[c] != Outside && w.places[c].op != copy.op ==>
            v.base.effects[w.places[c].op] == w.base.effects[w.places[c].op]
  {
    hide DoOp;
  }

  /** The steps that leave the lock's entry as it is. */
  lemma QuietExecute(w: World, v: World, copy: Copy)
    requires Inv(w) && copy in w.base.net && copy.op < |w.base.calls|
    requires v == w.(base := Clerk.Apply(w.base, Execute(copy)))
    requires Clerk.Inv(v.base) && Shape(v)
    requires w.base.calls[copy.op].request.key == w.name ==>
             DoOp(w.base.store, w.base.calls[copy.op].request).1 != PutReply(OK)
    ensures Inv(v)
  {
    hide Clerk.Inv, Owns;
    var request := w.base.calls[copy.op].request;
    if request.Put? && request.key == w.name {
      PutExecuted(w, copy);
    }
    assert Version(v) == Version(w) && Owner(v) == Owner(w);
    forall op | 0 <= op < |v.base.calls| ensures PutOk(v, op) { assert PutOk(w, op); }
    forall a | a in v.base.answers
      ensures a.op < |v.base.calls| && NewsOk(v, a)
    {
      if a in w.base.answers {
        assert NewsOk(w, a);
      } else if request.key == w.name && request.Get? {
        ReadTold(w, copy);
      }
    }
    forall c | 0 <= c < |v.ids|
      ensures PlaceOk(v, c) && OwnerOk(v, c)
    {
      assert PlaceOk(w, c) && OwnerOk(w, c);
      OtherEffects(w, v, copy, c);
    }
  }

  lemma ReadTold(w: World, copy: Copy)
    requires Inv(w) && copy in w.base.net && copy.op < |w.base.calls| && w.base.calls[copy.op].request == Get(w.name)
    ensures var (call, reply) := (w.base.calls[copy.op], DoOp(w.base.store, Get(w.name)).1);
            && call.client < |w.ids|
            && (reply.err == ErrNoKey || reply.err == OK)
            && reply.version == Version(w)
            && (Owns(reply, w.ids[call.client]) <==> Owner(w) == w.ids[call.client])
  {
    assert PutOk(w, copy.op);
  }

  lemma NetworkInv(w: World, a: Action)
    requires Inv(w) && Clerk.Enabled(w.base, a) && !a.Invoke?
    ensures Inv(Apply(w, Network(a)))
  {
    hide Clerk.Inv, VersionOf, Owns, DoOp;
    var v := Apply(w, Network(a));
    Clerk.StepInv(w.base, a);
    if a.Execute? {
      var copy := a.copy;
      var request := w.base.calls[copy.op].request;
      hide Inv;
      if request.key == w.name && DoOp(w.base.store, request).1 == PutReply(OK) {
        PutReplies(w.base.store, request);
        HandOver(w, v, copy);
      } else {
        QuietExecute(w, v, copy);
      }
    } else {
      BusyClient(w.base, a.c);
      forall op | 0 <= op < |v.base.calls| ensures PutOk(v, op) { assert PutOk(w, op); }
      forall x | x in v.base.answers ensures x.op < |v.base.calls| && NewsOk(v, x) { assert NewsOk(w, x); }
      forall c | 0 <= c < |v.ids| ensures PlaceOk(v, c) && OwnerOk(v, c) { assert PlaceOk(w, c) && OwnerOk(w, c); }
    }
  }

  lemma BusyClient(s: System, c: nat)
    requires Clerk.Inv(s) && c < |s.busy|
    ensures BusyOk(s, c)
  {
    hide Clerk.AnswerOk, CallOk, CopyOk, EffectOk, KvStore.Run, BusyOk;
  }

  lemma PutReplies(s: Store, r: Request)
    ensures DoOp(s, r).1 == PutReply(OK) ==> r.Put?
  {
  }

  lemma OtherInv(w: World, c: nat, request: Request)
    requires Inv(w) && Enabled(w, Other(c, request))
    ensures Inv(Apply(w, Other(c, request)))
  {
    hide Clerk.Inv, VersionOf, Owns;
    var v := Apply(w, Other(c, request));
    Clerk.StepInv(w.base, Invoke(c, request));
    forall op | 0 <= op < |v.base.calls| ensures PutOk(v, op) { assert op < |w.base.calls| ==> PutOk(w, op); }
    forall x | x in v.base.answers ensures x.op < |v.base.calls| && NewsOk(v, x) { assert NewsOk(w, x); }
    forall c | 0 <= c < |v.ids| ensures PlaceOk(v, c) && OwnerOk(v, c) { assert PlaceOk(w, c) && OwnerOk(w, c); }
  }

  lemma StartInv(w: World, c: nat)
    requires Inv(w) && c < |w.ids| && w.places[c] == Outside && w.base.busy[c].None?
    ensures Inv(Apply(w, Acquire(c))) && Inv(Apply(w, Release(c)))
  {
    hide Clerk.Inv, PutOk, NewsOk, VersionOf;
    assert PlaceOk(w, c) && OwnerOk(w, c);
    var op := |w.base.calls|;
    CallInv(w, c, Look(w), Waiting(AcquireGet, op), w.holding);
    CallInv(w, c, Look(w), Waiting(ReleaseGet, op), w.holding - {c});
  }

  lemma StepInv(w: World, st: Step)
    requires Inv(w) && Enabled(w, st)
    ensures Inv(Apply(w, st)) && Apply(w, st).ids == w.ids && Apply(w, st).name == w.name
  {
    hide Inv, Clerk.Shape, Clerk.Enabled;
    WorldShape(w);
    match st {
      case Acquire(c) => StartInv(w, c);
      case Release(c) => StartInv(w, c);
      case Advance(c) => AdvanceInv(w, c);
      case Other(c, request) => OtherInv(w, c, request);
      case Network(a) => NetworkInv(w, a);
    }
  }

  lemma WorldShape(w: World)
    requires Inv(w)
    ensures Shape(w)
  {
    hide Clerk.Inv, NewsOk, PutOk, PlaceOk, OwnerOk;
  }

  // ---------------------------------------------------------------- runs

  ghost predicate Next(w: World, st: Step, v: World) {
    Shape(w) && Enabled(w, st) && v == Apply(w, st)
  }

  /** steps is a run from w to v. */
  ghost predicate Run(w: World, steps: seq<Step>, v: World) {
    Runs.Run(Next, w, steps, v)
  }

  lemma RunInv(w: World, steps: seq<Step>, v: World)
    requires Inv(w) && Run(w, steps, v)
    ensures Inv(v) && v.ids == w.ids && v.name == w.name
  {
    hide Inv, Shape, Apply, Enabled;
    var kept := (x: World) => Inv(x) && x.ids == w.ids && x.name == w.name;
    forall x, st, y | kept(x) && Next(x, st, y)
      ensures kept(y)
    {
      StepInv(x, st);
    }
    Runs.Invariant(Next, kept, w, steps, v);
  }

  lemma Reachable(name: string, ids: seq<string>, others: nat, steps: seq<Step>, w: World)
    requires Distinct(ids) && Run(Init(name, ids, others), steps, w)
    ensures Inv(w) && w.ids == ids && w.name == name
  {
    hide Run;
    Clerk.InitInv(|ids| + others);
    RunInv(Init(name, ids, others), steps, w);
  }

  /** Mutual exclusion: whatever is lost, delayed or resent, at most one client is between the
      return of Acquire and its call of Release, and the owner at the server is that client. */
  lemma MutualExclusion(name: string, ids: seq<string>, others: nat, steps: seq<Step>, w: World, c: nat, d: nat)
    requires Distinct(ids) && Run(Init(name, ids, others), steps, w)
    requires c in w.holding && d in w.holding
    ensures c == d && c < |ids| && name in w.base.store && w.base.store[name].value == ids[c]
  {
    hide Run, Clerk.Inv, PutOk, NewsOk, PlaceOk;
    Reachable(name, ids, others, steps, w);
    assert OwnerOk(w, c) && OwnerOk(w, d);
  }

  /** No lock is left behind: a client that is the owner at the server holds the lock, or its own
      Acquire or Release is still working on it. */
  lemma OwnerKnows(name: string, ids: seq<string>, others: nat, steps: seq<Step>, w: World, c: nat)
    requires Distinct(ids) && Run(Init(name, ids, others), steps, w)
    requires c < |ids| && name in w.base.store && w.base.store[name].value == ids[c]
    ensures c < |w.places| && w.holding <= {c}
    ensures c in w.holding <==> w.places[c] == Outside || At(w.places[c], AcquireGet)
  {
    hide Run, Clerk.Inv, PutOk, NewsOk, PlaceOk;
    Reachable(name, ids, others, steps, w);
    forall d | d in w.holding
      ensures d == c
    {
      assert OwnerOk(w, d);
    }
    assert OwnerOk(w, c);
  }

  /** The store entry of the lock only ever goes from nobody to one client and back. */
  lemma LockAlternates(name: string, ids: seq<string>, others: nat, steps: seq<Step>, w: World, st: Step)
    requires Distinct(ids) && Run(Init(name, ids, others), steps, w)
    ensures Shape(w)
    ensures Enabled(w, st) ==>
              var v := Apply(w, st);
              || (Owner(v) == Owner(w) && Version(v) == Version(w))
              || (Version(v) == Version(w) + 1 && Owner(w) == "" && Owner(v) in ids)
              || (Version(v) == Version(w) + 1 && Owner(w) in ids && Owner(v) == "")
  {
    hide Run, Inv, Enabled, Shape;
    Reachable(name, ids, others, steps, w);
    WorldShape(w);
    if Enabled(w, st) {
      OwnerMoves(w, st);
    }
  }

  lemma OwnerMoves(w: World, st: Step)
    requires Inv(w) && Enabled(w, st)
    ensures var v := Apply(w, st);
            || (Owner(v) == Owner(w) && Version(v) == Version(w))
            || (Version(v) == Version(w) + 1 && Owner(w) == "" && Owner(v) in w.ids)
            || (Version(v) == Version(w) + 1 && Owner(w) in w.ids && Owner(v) == "")
  {
    hide Clerk.Inv, VersionOf, NewsOk, PlaceOk, OwnerOk, PutOk, DoOp;
    match st {
      case Network(a) =>
        if a.Execute? {
          if w.base.calls[a.copy.op].request.key == w.name
              && DoOp(w.base.store, w.base.calls[a.copy.op].request).1 == PutReply(OK) {
            PutReplies(w.base.store, w.base.calls[a.copy.op].request);
            PutExecuted(w, a.copy);
          } else {
            Untouched(w, a.copy);
          }
        }
      case _ =>
    }
  }

  lemma Untouched(w: World, copy: Copy)
    requires Shape(w) && copy in w.base.net && copy.op < |w.base.calls|
    requires var r := w.base.calls[copy.op].request; !(r.key == w.name && DoOp(w.base.store, r).1 == PutReply(OK))
    ensures var v := Apply(w, Network(Execute(copy))); Owner(v) == Owner(w) && Version(v) == Version(w)
  {
  }
}
