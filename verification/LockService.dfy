/** The lock of src/kvsrv1/lock/lock.go on the replicated service: the programs of Lock over the
    clerks of KvClerks, under elections, losses, crashes and snapshots. */
module LockService {
  import opened Types
  import KvStore
  import K = KvClerks
  import L = Lock
  import Q = Clerk
  import Runs

  datatype World = World(name: string, ids: seq<string>, base: K.World, places: seq<L.Place>, holding: set<nat>)

  /** Program: Acquire and Release between two clerk calls, and calls of clients that use other keys. */
  datatype Step =
    | Program(st: L.Step)
    | Service(a: K.Action)

  /** The world as a lock over clerks that see the operations committed so far. */
  function Seen(w: World): L.World
    requires |K.Log(w.base)| > 0
  {
    L.World(w.name, w.ids, K.Abs(w.base), w.places, w.holding)
  }

  predicate Shape(w: World) {
    && K.Shape(w.base) && |K.Log(w.base)| > 0
    && L.Shape(Seen(w))
  }

  predicate Enabled(w: World, st: Step)
    requires Shape(w)
  {
    match st
    case Program(step) => !step.Network? && L.Enabled(Seen(w), step)
    case Service(a) => !a.Invoke? && K.Enabled(w.base, a)
  }

  /** A program decides on what it was told alone, and its clerk call, if it makes one, goes to the
      service. */
  function Apply(w: World, st: Step): World
    requires Shape(w) && Enabled(w, st)
  {
    match st
    case Program(step) =>
      var v, op := L.Apply(Seen(w), step), |w.base.calls|;
      w.(base := if op < |v.base.calls| then Called(w.base, v.base.calls[op]) else w.base,
         places := v.places,
         holding := v.holding)
    case Service(a) => w.(base := K.Apply(w.base, a))
  }

  function Called(b: K.World, call: Q.Call): K.World
    requires K.Shape(b)
  {
    var a := K.Invoke(call.client, call.request);
    if K.Enabled(b, a) then K.Apply(b, a) else b
  }

  function Init(n: nat, name: string, ids: seq<string>, others: nat): World {
    World(name, ids, K.Init(n, |ids| + others), seq(|ids|, _ => L.Outside), {})
  }

  ghost predicate Next(w: World, st: Step, v: World) {
    Shape(w) && Enabled(w, st) && v == Apply(w, st)
  }

  /** steps is a run from w to v. */
  ghost predicate Run(w: World, steps: seq<Step>, v: World) {
    Runs.Run(Next, w, steps, v)
  }

  // ---------------------------------------------------------------- refinement

  /** Steps of the network under the lock are steps of the lock's world. */
  lemma {:induction false} NetworkRun(w: L.World, acts: seq<Q.Action>, t: Q.System) returns (steps: seq<L.Step>)
    requires L.Shape(w) && Q.Run(w.base, acts, t) && forall i | 0 <= i < |acts| :: !acts[i].Invoke?
    ensures L.Run(w, steps, w.(base := t)) && |t.busy| == |w.base.busy|
    decreases |acts|
  {
    hide L.Apply, L.Enabled, Q.Apply, Q.Enabled, Q.Shape;
    if acts == [] {
      Runs.Nothing(L.Next, w);
      assert w.(base := t) == w;
      steps := [];
    } else {
      var front, last := acts[..|acts| - 1], acts[|acts| - 1];
      var m :| Runs.Run(Q.Next, w.base, front, m) && Q.Next(m, last, t);
      var before := NetworkRun(w, front, m);
      NetworkStep(w.(base := m), last);
      Runs.Then(L.Next, w, before, w.(base := m), L.Network(last), w.(base := t));
      steps := before + [L.Network(last)];
    }
  }

  lemma NetworkStep(w: L.World, a: Q.Action)
    requires |w.places| == |w.ids| <= |w.base.busy| && Q.Shape(w.base) && Q.Enabled(w.base, a) && !a.Invoke?
    ensures L.Next(w, L.Network(a), w.(base := Q.Apply(w.base, a)))
    ensures |Q.Apply(w.base, a).busy| == |w.base.busy|
  {
  }

  /** A program step is that of Lock on what the clients see. */
  lemma ProgramStep(w: World, st: L.Step)
    requires K.Inv(w.base) && Shape(w) && Enabled(w, Program(st))
    ensures K.Inv(Apply(w, Program(st)).base) && |K.Log(Apply(w, Program(st)).base)| > 0
    ensures Seen(Apply(w, Program(st))) == L.Apply(Seen(w), st)
  {
    hide K.Inv, K.View, K.Shape, K.Enabled, K.Apply, L.Decide, Q.Shape;
    var v := L.Apply(Seen(w), st);
    K.AbsCalls(w.base);
    if |w.base.calls| < |v.base.calls| {
      var call := v.base.calls[|w.base.calls|];
      Invoked(w.base, call.client, call.request);
    }
  }

  lemma Invoked(b: K.World, c: nat, request: Request)
    requires K.Inv(b) && K.Shape(b) && c < |b.busy| && b.busy[c].None?
    ensures K.Enabled(b, K.Invoke(c, request))
    ensures var d := K.Apply(b, K.Invoke(c, request));
            && K.Inv(d) && |K.Log(b)| > 0 && |K.Log(d)| > 0
            && Q.Shape(K.Abs(b)) && Q.Enabled(K.Abs(b), Q.Invoke(c, request))
            && K.Abs(d) == Q.Apply(K.Abs(b), Q.Invoke(c, request))
  {
    hide K.Inv, K.View;
    K.InvokeRefines(b, c, request);
  }

  /** Whatever the service does, the lock sees a run of its own. */
  ghost predicate Reaches(w: World, v: World) {
    && K.Inv(v.base) && Shape(v) && |K.Log(w.base)| > 0 && |K.Log(v.base)| > 0
    && exists steps :: L.Run(Seen(w), steps, Seen(v))
  }

  lemma Shaped(w: World)
    requires K.Inv(w.base) && |w.places| == |w.ids| <= |w.base.busy|
    ensures Shape(w)
  {
    hide K.Inv, K.View, K.Shape, Q.Shape;
    K.InvShape(w.base);
    K.LogMatched(w.base);
    K.ViewShape(w.base, K.Log(w.base), |K.Log(w.base)| - 1);
    K.AbsCalls(w.base);
  }

  /** The number of clients stays. */
  lemma Sizes(w: World, st: Step)
    requires Shape(w) && Enabled(w, st)
    ensures var v := Apply(w, st);
            |v.places| == |w.places| == |v.ids| == |w.ids| <= |v.base.busy| == |w.base.busy|
  {
    hide K.View, K.Shape, Q.Shape, L.Decide;
    K.AbsCalls(w.base);
  }

  lemma StepReaches(w: World, v: World, st: Step)
    requires Reaches(w, v) && Enabled(v, st)
    ensures Reaches(w, Apply(v, st))
  {
    hide K.Inv, K.Shape, K.Enabled, K.Apply, K.View, L.Enabled, L.Apply, Q.Run, Q.Shape;
    var steps :| L.Run(Seen(w), steps, Seen(v));
    var u := Apply(v, st);
    Sizes(v, st);
    match st {
      case Program(step) =>
        ProgramStep(v, step);
        Shaped(u);
        Runs.Then(L.Next, Seen(w), steps, Seen(v), step, Seen(u));
        assert L.Run(Seen(w), steps + [step], Seen(u));
      case Service(a) =>
        var acts := K.StepRefines(v.base, a);
        Shaped(u);
        var more := NetworkRun(Seen(v), acts, K.Abs(u.base));
        Runs.Concat(L.Next, Seen(w), steps, Seen(v), more, Seen(u));
        assert L.Run(Seen(w), steps + more, Seen(u));
    }
  }

  /** Refinement: the lock on the replicated service is the lock of Lock, and no run gets stuck because
      of its shape. */
  lemma Refines(n: nat, name: string, ids: seq<string>, others: nat, steps: seq<Step>, w: World)
      returns (seen: seq<L.Step>)
    requires Run(Init(n, name, ids, others), steps, w)
    ensures Shape(w) && L.Run(L.Init(name, ids, others), seen, Seen(w))
  {
    hide K.Inv, Shape, Enabled, Apply, K.View, L.Run;
    var first := Init(n, name, ids, others);
    K.InitRefines(n, |ids| + others);
    FirstSeen(first);
    forall x, st, y | Reaches(first, x) && Next(x, st, y)
      ensures Reaches(first, y)
    {
      StepReaches(first, x, st);
    }
    Runs.Invariant(Next, (x: World) => Reaches(first, x), first, steps, w);
    seen :| L.Run(Seen(first), seen, Seen(w));
  }

  lemma FirstSeen(w: World)
    requires K.Inv(w.base) && |w.places| == |w.ids| <= |w.base.busy|
    ensures Reaches(w, w)
  {
    hide K.Inv, K.View;
    Shaped(w);
    Runs.Nothing(L.Next, Seen(w));
    assert L.Run(Seen(w), [], Seen(w));
  }

  // ---------------------------------------------------------------- what holds over every run

  /** What the committed operations have made of the store. */
  function Committed(w: World): Store
    requires |K.Log(w.base)| > 0
  {
    KvStore.Replay(K.Log(w.base), |K.Log(w.base)| - 1)
  }

  /** Mutual exclusion, end to end: at most one client is between the return of Acquire and its call
      of Release, and the owner in the store of the committed operations is that client. */
  lemma MutualExclusion(n: nat, name: string, ids: seq<string>, others: nat, steps: seq<Step>, w: World, c: nat, d: nat)
    requires L.Distinct(ids) && Run(Init(n, name, ids, others), steps, w)
    requires c in w.holding && d in w.holding
    ensures |K.Log(w.base)| > 0 && c == d && c < |ids|
    ensures name in Committed(w) && Committed(w)[name].value == ids[c]
  {
    hide Run, L.Run;
    var seen := Refines(n, name, ids, others, steps, w);
    L.MutualExclusion(name, ids, others, seen, Seen(w), c, d);
  }

  /** No lock is left behind, end to end. */
  lemma OwnerKnows(n: nat, name: string, ids: seq<string>, others: nat, steps: seq<Step>, w: World, c: nat)
    requires L.Distinct(ids) && Run(Init(n, name, ids, others), steps, w) && c < |ids| && |K.Log(w.base)| > 0
    requires name in Committed(w) && Committed(w)[name].value == ids[c]
    ensures c < |w.places| && w.holding <= {c}
    ensures c in w.holding <==> w.places[c] == L.Outside || L.At(w.places[c], L.AcquireGet)
  {
    hide Run, L.Run;
    var seen := Refines(n, name, ids, others, steps, w);
    L.OwnerKnows(name, ids, others, seen, Seen(w), c);
  }
}
