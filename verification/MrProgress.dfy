/** A MapReduce job never gets stuck in its map phase, nor in its reduce phase before inputs of an
    unfinished task are removed: whatever the other workers left behind, running tasks time out
    and one worker that meets no errors can do all that is left. */
module MrProgress {
  import opened MrData
  import opened MrCoordinator
  import opened MrWorker
  import opened MrSystem
  import opened MrRun
  import Runs
  import Types

  lemma RunThen(job: Job, s: System, acts: seq<Action>, t: System, a: Action)
    requires Run(job, s, acts, t) && job.nreduce > 0 && Shape(job, t) && Enabled(job, t, a)
    ensures Run(job, s, acts + [a], MrSystem.Apply(job, t, a))
  {
    hide Shape, Enabled, MrSystem.Apply;
    Runs.Then(Next(job), s, acts, t, a, MrSystem.Apply(job, t, a));
  }

  lemma RunNothing(job: Job, s: System)
    ensures Run(job, s, [], s)
  {
    Runs.Nothing(Next(job), s);
  }

  lemma RunConcat(job: Job, s: System, a: seq<Action>, t: System, b: seq<Action>, u: System)
    requires Run(job, s, a, t) && Run(job, t, b, u)
    ensures Run(job, s, a + b, u)
  {
    Runs.Concat(Next(job), s, a, t, b, u);
  }

  /** One step from a state in order. */
  lemma Step(job: Job, s: System, a: Action) returns (acts: seq<Action>, t: System)
    requires JobOk(job) && MrSystem.Inv(job, s) && Shape(job, s) && Enabled(job, s, a)
    ensures t == MrSystem.Apply(job, s, a) && Run(job, s, acts, t) && MrSystem.Inv(job, t) && Shape(job, t)
  {
    assert job.nreduce > 0;
    hide MrSystem.Inv, Shape, Enabled, MrSystem.Apply, OrderInsensitive;
    t := MrSystem.Apply(job, s, a);
    RunNothing(job, s);
    RunThen(job, s, [], s, a);
    acts := [] + [a];
    StepInv(job, s, a);
    InvShape(job, t);
  }

  // ---------------------------------------------------------------- map tasks

  lemma {:induction false} WriteBuckets(job: Job, s: System, w: nat, m: nat, k: nat)
      returns (acts: seq<Action>, t: System)
    requires JobOk(job) && MrSystem.Inv(job, s) && Shape(job, s) && w < |s.workers| && s.workers[w] == Mapping(m, k)
    ensures Run(job, s, acts, t) && MrSystem.Inv(job, t) && Shape(job, t)
    ensures t == s.(inter := t.inter, workers := s.workers[w := Mapping(m, job.nreduce)])
    ensures s.inter.Keys <= t.inter.Keys
    decreases job.nreduce - k
  {
    hide MrSystem.Inv, OrderInsensitive, Part;
    assert WorkShape(job, s.workers[w]);
    if k == job.nreduce {
      RunNothing(job, s);
      acts, t := [], s;
    } else {
      var a, u := Step(job, s, WriteBucket(w));
      var b, v := WriteBuckets(job, u, w, m, k + 1);
      RunConcat(job, s, a, u, b, v);
      acts, t := a + b, v;
    }
  }

  /** Map task i is done, and nothing else of the coordinator changed. */
  ghost predicate MapDone(c: Coord, d: Coord, i: nat) {
    && i < |c.maps| && c.maps[i].Idle?
    && d == c.(maps := c.maps[i := Finished], nMapDone := c.nMapDone + 1)
  }

  /** The free worker w does one map task. */
  lemma OneMap(job: Job, s: System, w: nat) returns (acts: seq<Action>, t: System, i: nat)
    requires JobOk(job) && MrSystem.Inv(job, s) && Shape(job, s) && w < |s.workers| && s.workers[w].Free?
    requires s.coord.phase == MapPhase && SomeIdle(s.coord.maps)
    ensures Run(job, s, acts, t) && MrSystem.Inv(job, t) && Shape(job, t)
    ensures t == s.(coord := t.coord, inter := t.inter) && s.inter.Keys <= t.inter.Keys && MapDone(s.coord, t.coord, i)
  {
    hide MrSystem.Inv, OrderInsensitive, NextTask, ReportMap, Part;
    CoordInv(job, s);
    RequestGives(s.coord);
    var a1, t1 := Step(job, s, Ask(w));
    i := NextTask(s.coord).1.id;
    var a2, t2 := WriteBuckets(job, t1, w, i, 0);
    var a3, t3 := Step(job, t2, End(w));
    ReportSettles(t3.coord, i, true);
    var a4, t4 := Step(job, t3, Report(w));
    RunConcat(job, s, a1, t1, a2, t2);
    RunConcat(job, s, a1 + a2, t2, a3, t3);
    RunConcat(job, s, a1 + a2 + a3, t3, a4, t4);
    acts, t := a1 + a2 + a3 + a4, t4;
    assert t.workers == s.workers;
    assert t.coord.maps == s.coord.maps[i := Finished];
  }

  lemma CoordInv(job: Job, s: System)
    requires job.nreduce > 0 && MrSystem.Inv(job, s)
    ensures MrCoordinator.Inv(s.coord) && |s.coord.maps| == |job.files| && |s.coord.reduces| == job.nreduce
  {
  }

  lemma {:induction false} FinishMaps(job: Job, s: System, w: nat) returns (acts: seq<Action>, t: System)
    requires JobOk(job) && MrSystem.Inv(job, s) && Shape(job, s) && w < |s.workers| && s.workers[w].Free?
    requires s.coord.phase == MapPhase && Resting(s.coord.maps) && s.coord.nMapDone <= |s.coord.maps|
    ensures Run(job, s, acts, t) && MrSystem.Inv(job, t) && Shape(job, t)
    ensures t == s.(coord := t.coord, inter := t.inter) && s.inter.Keys <= t.inter.Keys
    ensures t.coord == s.coord.(maps := t.coord.maps, nMapDone := t.coord.nMapDone) && AllFinished(t.coord.maps)
    decreases |s.coord.maps| - s.coord.nMapDone
  {
    hide MrSystem.Inv, Shape, OrderInsensitive;
    if SomeIdle(s.coord.maps) {
      var a, u, i := OneMap(job, s, w);
      CoordInv(job, u);
      DoneCountAll(u.coord.maps);
      var b, v := FinishMaps(job, u, w);
      RunConcat(job, s, a, u, b, v);
      acts, t := a + b, v;
    } else {
      RunNothing(job, s);
      acts, t := [], s;
    }
  }

  /** Worker w gives up what it was doing and all running tasks time out. */
  lemma StartAfresh(job: Job, s: System, w: nat) returns (acts: seq<Action>, t: System)
    requires JobOk(job) && MrSystem.Inv(job, s) && Shape(job, s) && w < |s.workers|
    ensures Run(job, s, acts, t) && MrSystem.Inv(job, t) && Shape(job, t)
    ensures t == s.(coord := t.coord, workers := s.workers[w := Free])
    ensures t.coord == s.coord.(maps := t.coord.maps, reduces := t.coord.reduces)
    ensures |t.coord.maps| == |s.coord.maps| && |t.coord.reduces| == |s.coord.reduces|
    ensures forall r | 0 <= r < |s.coord.reduces| :: t.coord.reduces[r].Finished? <==> s.coord.reduces[r].Finished?
    ensures s.coord.phase == MapPhase ==> Resting(t.coord.maps) && t.coord.reduces == s.coord.reduces
    ensures s.coord.phase == ReducePhase ==> Resting(t.coord.reduces) && t.coord.maps == s.coord.maps
    ensures t.coord.nMapDone <= |t.coord.maps| && t.coord.nReduceDone <= |t.coord.reduces|
  {
    hide MrSystem.Inv, OrderInsensitive, TimeOut;
    var a, u := Step(job, s, Crash(w));
    var late := Types.Peers(|s.coord.maps| + |s.coord.reduces|);
    TimeoutGivesUp(u.coord, late);
    var b, v := Step(job, u, Clock(late));
    RunConcat(job, s, a, u, b, v);
    acts, t := a + b, v;
    CoordInv(job, t);
    DoneCountAll(t.coord.maps);
    DoneCountAll(t.coord.reduces);
  }

  /** The map phase can always be finished, by any worker, whatever the others did: the tasks that
      were running are given out again. */
  lemma MapsCanFinish(job: Job, n: nat, before: seq<Action>, s: System, w: nat) returns (acts: seq<Action>, t: System)
    requires JobOk(job) && Run(job, Init(job, n), before, s) && w < |s.workers| && s.coord.phase == MapPhase
    ensures Run(job, s, acts, t) && t.coord.phase == MapPhase && AllFinished(t.coord.maps)
    ensures forall m: nat, r: nat | m < |job.files| && r < job.nreduce && r !in t.outs :: (m, r) in t.inter
  {
    hide MrSystem.Inv, Shape, OrderInsensitive, Run;
    Reachable(job, n, before, s);
    InvShape(job, s);
    var a, u := StartAfresh(job, s, w);
    var b, v := FinishMaps(job, u, w);
    RunConcat(job, s, a, u, b, v);
    acts, t := a + b, v;
    MapsThere(job, t);
  }

  lemma MapsThere(job: Job, s: System)
    requires job.nreduce > 0 && MrSystem.Inv(job, s) && AllFinished(s.coord.maps)
    ensures forall m: nat, r: nat | m < |job.files| && r < job.nreduce && r !in s.outs :: (m, r) in s.inter
  {
    forall m: nat, r: nat | m < |job.files| && r < job.nreduce && r !in s.outs
      ensures (m, r) in s.inter
    {
      assert MapKept(job, s, m);
      assert Kept(s.inter, s.outs, m, r);
    }
  }

  // ---------------------------------------------------------------- reduce tasks

  /** The inputs of every unfinished reduce task are there. */
  ghost predicate Ready(job: Job, s: System) {
    && AllFinished(s.coord.maps)
    && forall r: nat, m: nat | r < |s.coord.reduces| && !s.coord.reduces[r].Finished? && m < |job.files| ::
      (m, r) in s.inter
  }

  lemma {:induction false} ReadAll(job: Job, s: System, w: nat, r: nat, k: nat, pairs: seq<KV>)
      returns (acts: seq<Action>, t: System, all: seq<KV>)
    requires JobOk(job) && MrSystem.Inv(job, s) && Shape(job, s) && w < |s.workers|
    requires s.workers[w] == Reading(r, k, pairs) && forall m: nat | m < |job.files| :: (m, r) in s.inter
    ensures Run(job, s, acts, t) && MrSystem.Inv(job, t) && Shape(job, t)
    ensures t == s.(workers := s.workers[w := Reading(r, |job.files|, all)])
    decreases |job.files| - k
  {
    hide MrSystem.Inv, OrderInsensitive, Part;
    assert WorkShape(job, s.workers[w]);
    if k == |job.files| {
      RunNothing(job, s);
      acts, t, all := [], s, pairs;
    } else {
      var a, u := Step(job, s, Read(w));
      var b, v, more := ReadAll(job, u, w, r, k + 1, pairs + s.inter[(k, r)]);
      RunConcat(job, s, a, u, b, v);
      acts, t, all := a + b, v, more;
    }
  }

  lemma {:induction false} RemoveAll(job: Job, s: System, w: nat, r: nat, k: nat) returns (acts: seq<Action>, t: System)
    requires JobOk(job) && MrSystem.Inv(job, s) && Shape(job, s) && w < |s.workers| && s.workers[w] == Removing(r, k)
    ensures Run(job, s, acts, t) && MrSystem.Inv(job, t) && Shape(job, t)
    ensures t == s.(inter := t.inter, workers := s.workers[w := Removing(r, |job.files|)])
    ensures forall f | f in s.inter && f.1 != r :: f in t.inter
    decreases |job.files| - k
  {
    hide MrSystem.Inv, OrderInsensitive, Part;
    assert WorkShape(job, s.workers[w]);
    if k == |job.files| {
      RunNothing(job, s);
      acts, t := [], s;
    } else {
      var a, u := Step(job, s, Remove(w));
      var b, v := RemoveAll(job, u, w, r, k + 1);
      RunConcat(job, s, a, u, b, v);
      acts, t := a + b, v;
    }
  }

  /** The keys of a set, in order. */
  lemma {:induction false} KeyList(K: set<string>) returns (l: seq<string>)
    ensures forall i, j | 0 <= i < j < |l| :: Before(l[i], l[j])
    ensures forall x :: x in l <==> x in K
  {
    if K == {} {
      l := [];
    } else {
      var x :| x in K;
      var rest := KeyList(K - {x});
      l := Inserted(rest, x);
    }
  }

  lemma {:induction false} Inserted(l: seq<string>, x: string) returns (r: seq<string>)
    requires (forall i, j | 0 <= i < j < |l| :: Before(l[i], l[j])) && x !in l
    ensures forall i, j | 0 <= i < j < |r| :: Before(r[i], r[j])
    ensures forall y :: y in r <==> y == x || y in l
  {
    hide Before;
    if l == [] {
      r := [x];
    } else if Before(x, l[0]) {
      r := [x] + l;
      forall j | 0 < j < |l| ensures Before(x, l[j]) { BeforeTransitive(x, l[0], l[j]); }
    } else {
      BeforeTotal(x, l[0]);
      var rest := Inserted(l[1..], x);
      r := [l[0]] + rest;
      assert l == [l[0]] + l[1..];
      forall j | 0 <= j < |rest|
        ensures Before(l[0], rest[j])
      {
        assert rest[j] in rest;
      }
    }
  }

  /** Pairs can be sorted, and have an output. */
  lemma {:induction false} SortedExists(data: seq<KV>) returns (s: seq<KV>)
    ensures SortedByKey(s) && multiset(s) == multiset(data)
  {
    if data == [] {
      s := [];
    } else {
      var n := |data| - 1;
      var front := SortedExists(data[..n]);
      var i := Slot(front, data[n], |front|);
      InsertSorted(front, data[n], i);
      InsertBag(front, data[n], i);
      s := front[..i] + [data[n]] + front[i..];
      assert data == data[..n] + [data[n]];
    }
  }

  lemma {:induction false} Slot(s: seq<KV>, x: KV, k: nat) returns (i: nat)
    requires k <= |s| && forall j | k <= j < |s| :: Before(x.key, s[j].key)
    ensures i <= |s| && (forall j | i <= j < |s| :: Before(x.key, s[j].key))
    ensures i > 0 ==> !Before(x.key, s[i - 1].key)
  {
    if k > 0 && Before(x.key, s[k - 1].key) {
      i := Slot(s, x, k - 1);
    } else {
      i := k;
    }
  }

  lemma KeyOfLine(lines: seq<Line>, i: nat)
    requires i < |lines|
    ensures lines[i].key in LineKeys(lines)
  {
    assert lines[i] in lines;
  }

  lemma OutputExists(job: Job, data: seq<KV>) returns (lines: seq<Line>)
    ensures IsOutput(job, lines, data)
  {
    hide Before, ValuesOf;
    var keys := KeyList(Keys(data));
    lines := seq(|keys|, i requires 0 <= i < |keys| => Line(keys[i], job.reducef(keys[i], ValuesOf(data, keys[i]))));
    forall x | x in keys
      ensures x in LineKeys(lines)
    {
      var i :| 0 <= i < |keys| && keys[i] == x;
      KeyOfLine(lines, i);
    }
    forall x | x in LineKeys(lines)
      ensures x in keys
    {
      var y :| y in lines && y.key == x;
      var i :| 0 <= i < |lines| && lines[i] == y;
      assert keys[i] == x;
    }
  }

  /** Reduce task r is done, and nothing else of the coordinator changed but the phase. */
  ghost predicate ReduceDone(c: Coord, d: Coord, r: nat) {
    && r < |c.reduces| && c.reduces[r].Idle?
    && d == c.(phase := ReducePhase, reduces := c.reduces[r := Finished], nReduceDone := c.nReduceDone + 1)
  }

  /** The free worker w takes a reduce task and writes its output. */
  lemma TakeReduce(job: Job, s: System, w: nat) returns (acts: seq<Action>, t: System, r: nat)
    requires JobOk(job) && MrSystem.Inv(job, s) && Shape(job, s) && w < |s.workers| && s.workers[w].Free?
    requires s.coord.phase != DonePhase && Ready(job, s) && SomeIdle(s.coord.reduces)
    ensures Run(job, s, acts, t) && MrSystem.Inv(job, t) && Shape(job, t) && r < |s.coord.reduces|
    ensures t == s.(coord := t.coord, outs := t.outs, workers := s.workers[w := Removing(r, 0)])
    ensures Starts(s.coord.reduces, t.coord.reduces, r)
    ensures t.coord == s.coord.(phase := ReducePhase, reduces := t.coord.reduces)
  {
    hide MrSystem.Inv, OrderInsensitive, NextTask, Part, IsOutput, SortedByKey;
    CoordInv(job, s);
    RequestGives(s.coord);
    var a1, t1 := Step(job, s, Ask(w));
    r := NextTask(s.coord).1.id;
    var a2, t2, pairs := ReadAll(job, t1, w, r, 0, []);
    var sorted := SortedExists(pairs);
    var lines := OutputExists(job, sorted);
    var a3, t3 := Step(job, t2, WriteOutput(w, sorted, lines));
    RunConcat(job, s, a1, t1, a2, t2);
    RunConcat(job, s, a1 + a2, t2, a3, t3);
    acts, t := a1 + a2 + a3, t3;
    assert t.workers == s.workers[w := Removing(r, 0)];
  }

  /** The free worker w does one reduce task. */
  lemma OneReduce(job: Job, s: System, w: nat) returns (acts: seq<Action>, t: System, r: nat)
    requires JobOk(job) && MrSystem.Inv(job, s) && Shape(job, s) && w < |s.workers| && s.workers[w].Free?
    requires s.coord.phase != DonePhase && Ready(job, s) && SomeIdle(s.coord.reduces)
    ensures Run(job, s, acts, t) && MrSystem.Inv(job, t) && Shape(job, t)
    ensures t == s.(coord := t.coord, inter := t.inter, outs := t.outs) && Ready(job, t)
    ensures ReduceDone(s.coord, t.coord, r)
  {
    hide MrSystem.Inv, OrderInsensitive, ReportReduce, Part, IsOutput, SortedByKey;
    var a3, t3, q := TakeReduce(job, s, w);
    r := q;
    var a4, t4 := RemoveAll(job, t3, w, r, 0);
    var a5, t5 := Step(job, t4, End(w));
    ReportSettles(t5.coord, r, true);
    var a6, t6 := Step(job, t5, Report(w));
    RunConcat(job, s, a3, t3, a4, t4);
    RunConcat(job, s, a3 + a4, t4, a5, t5);
    RunConcat(job, s, a3 + a4 + a5, t5, a6, t6);
    acts, t := a3 + a4 + a5 + a6, t6;
    assert t.workers == s.workers;
    assert t.coord.reduces == s.coord.reduces[r := Finished];
  }

  lemma {:induction false} FinishReduces(job: Job, s: System, w: nat) returns (acts: seq<Action>, t: System)
    requires JobOk(job) && MrSystem.Inv(job, s) && Shape(job, s) && w < |s.workers| && s.workers[w].Free?
    requires s.coord.phase != DonePhase && Ready(job, s) && Resting(s.coord.reduces)
    requires s.coord.nReduceDone <= |s.coord.reduces|
    ensures Run(job, s, acts, t) && t.coord.phase == DonePhase
    decreases |s.coord.reduces| - s.coord.nReduceDone
  {
    hide MrSystem.Inv, Shape, OrderInsensitive;
    if SomeIdle(s.coord.reduces) {
      var a, u, r := OneReduce(job, s, w);
      CoordInv(job, u);
      DoneCountAll(u.coord.reduces);
      var b, v := FinishReduces(job, u, w);
      RunConcat(job, s, a, u, b, v);
      acts, t := a + b, v;
    } else {
      CoordInv(job, s);
      RequestGives(s.coord);
      acts, t := Step(job, s, Ask(w));
    }
  }

  /** A job can be completed from every reachable state in which no unfinished reduce task has lost
      an input, by any worker, whatever the others did. */
  lemma CanComplete(job: Job, n: nat, before: seq<Action>, s: System, w: nat) returns (acts: seq<Action>, t: System)
    requires JobOk(job) && Run(job, Init(job, n), before, s) && w < |s.workers|
    requires forall r: nat, m: nat | r < |s.coord.reduces| && !s.coord.reduces[r].Finished? && r in s.outs
               && m < |job.files| :: (m, r) in s.inter
    ensures Run(job, s, acts, t) && t.coord.phase == DonePhase
  {
    hide MrSystem.Inv, Shape, OrderInsensitive, Run;
    Reachable(job, n, before, s);
    InvShape(job, s);
    CoordInv(job, s);
    if s.coord.phase == DonePhase {
      RunNothing(job, s);
      acts, t := [], s;
    } else {
      FinishedPhase(s.coord);
      var a, u := StartAfresh(job, s, w);
      var b, v := [], u;
      RunNothing(job, u);
      if s.coord.phase == MapPhase {
        b, v := FinishMaps(job, u, w);
        AllRest(job, v);
      }
      MapsThere(job, v);
      var d, z := FinishReduces(job, v, w);
      RunConcat(job, s, a, u, b, v);
      RunConcat(job, s, a + b, v, d, z);
      acts, t := a + b + d, z;
    }
  }

  /** No reduce task runs in the map phase. */
  lemma AllRest(job: Job, s: System)
    requires job.nreduce > 0 && MrSystem.Inv(job, s) && s.coord.phase == MapPhase
    ensures Resting(s.coord.reduces)
  {
  }

  // ---------------------------------------------------------------- a job that is stuck

  /** The only reduce task has lost its only input, and nobody can bring it back. */
  ghost predicate Stuck(job: Job, s: System) {
    && |job.files| == job.nreduce == 1 && s.inter == map[] && |s.workers| == 1
    && s.coord.phase == ReducePhase && s.coord.nReduceDone == 0 && s.coord.nMapDone == 1
    && s.coord.maps == [Finished] && |s.coord.reduces| == 1 && !s.coord.reduces[0].Finished?
    && (s.workers[0] == Free || s.workers[0] == Reading(0, 0, []) || s.workers[0] == Reporting(false, 0, false))
  }

  lemma StuckStep(job: Job, s: System, a: Action)
    requires Stuck(job, s) && Shape(job, s) && Enabled(job, s, a)
    ensures Stuck(job, MrSystem.Apply(job, s, a))
  {
    hide IsOutput, SortedByKey, Part;
  }

  /** Why CanComplete asks for the inputs: if the only worker of a job with one file and one reduce task
      crashes after it removed its input and before it reported, no run ever completes the job,
      although its output is there. */
  lemma CrashCanStrand(job: Job) returns (acts: seq<Action>, s: System)
    requires JobOk(job) && |job.files| == job.nreduce == 1
    ensures Run(job, Init(job, 1), acts, s) && 0 in s.outs
    ensures forall more: seq<Action>, t: System | Run(job, s, more, t) :: t.coord.phase != DonePhase
  {
    hide Run, IsOutput, SortedByKey, MrSystem.Inv, Stuck, OrderInsensitive;
    var a1, s1 := MapAlone(job);
    var a2, s2 := StrandAlone(job, s1);
    RunConcat(job, Init(job, 1), a1, s1, a2, s2);
    acts, s := a1 + a2, s2;
    forall more: seq<Action>, t: System | Run(job, s, more, t)
      ensures t.coord.phase != DonePhase
    {
      NeverDone(job, s, more, t);
    }
  }

  lemma MapAlone(job: Job) returns (acts: seq<Action>, t: System)
    requires JobOk(job) && |job.files| == job.nreduce == 1
    ensures Run(job, Init(job, 1), acts, t) && MrSystem.Inv(job, t) && Shape(job, t)
    ensures t == System(Coord(MapPhase, [Finished], [Idle], 1, 0), t.inter, map[], [Free])
    ensures t.inter.Keys == {(0, 0)}
  {
    hide Run, Part, MrSystem.Inv, OrderInsensitive;
    var s := Init(job, 1);
    MrSystem.InitInv(job, 1);
    var a1, s1 := Step(job, s, Ask(0));
    var a2, s2 := Step(job, s1, WriteBucket(0));
    var a3, s3 := Step(job, s2, End(0));
    var a4, s4 := Step(job, s3, Report(0));
    RunConcat(job, s, a1, s1, a2, s2);
    RunConcat(job, s, a1 + a2, s2, a3, s3);
    RunConcat(job, s, a1 + a2 + a3, s3, a4, s4);
    acts, t := a1 + a2 + a3 + a4, s4;
  }

  lemma StrandAlone(job: Job, s: System) returns (acts: seq<Action>, t: System)
    requires JobOk(job) && |job.files| == job.nreduce == 1 && MrSystem.Inv(job, s) && Shape(job, s)
    requires s == System(Coord(MapPhase, [Finished], [Idle], 1, 0), s.inter, map[], [Free]) && s.inter.Keys == {(0, 0)}
    ensures Run(job, s, acts, t) && Stuck(job, t) && 0 in t.outs
  {
    hide Run, Part, MrSystem.Inv, OrderInsensitive, IsOutput, SortedByKey;
    var a1, s1 := Step(job, s, Ask(0));
    var a2, s2 := Step(job, s1, Read(0));
    var sorted := SortedExists(s2.workers[0].pairs);
    var lines := OutputExists(job, sorted);
    var a3, s3 := Step(job, s2, WriteOutput(0, sorted, lines));
    var a4, s4 := Step(job, s3, Remove(0));
    var a5, s5 := Step(job, s4, Crash(0));
    RunConcat(job, s, a1, s1, a2, s2);
    RunConcat(job, s, a1 + a2, s2, a3, s3);
    RunConcat(job, s, a1 + a2 + a3, s3, a4, s4);
    RunConcat(job, s, a1 + a2 + a3 + a4, s4, a5, s5);
    acts, t := a1 + a2 + a3 + a4 + a5, s5;
    assert t.inter.Keys == {};
  }

  lemma NeverDone(job: Job, s: System, more: seq<Action>, t: System)
    requires Stuck(job, s) && Run(job, s, more, t)
    ensures t.coord.phase != DonePhase
  {
    hide Shape, Enabled, MrSystem.Apply;
    var kept := (x: System) => Stuck(job, x);
    forall x, a, y | kept(x) && Next(job)(x, a, y)
      ensures kept(y)
    {
      StuckStep(job, x, a);
    }
    Runs.Invariant(Next(job), kept, s, more, t);
  }
}
