/** A MapReduce job as a step system: the coordinator, any number of workers that may be slow,
    fail, crash or work on the same task, and the files they share. */
module MrSystem {
  import opened MrData
  import opened MrCoordinator
  import opened MrWorker
  import Runs

  /** Where a worker is in its loop; the task it got may long have been given to others. */
  datatype Work =
    | Free
    | Mapping(m: nat, next: nat)
    | Reading(r: nat, next: nat, pairs: seq<KV>)
    | Removing(r: nat, next: nat)
    | Reporting(isMap: bool, id: nat, success: bool)

  type Inter = map<(nat, nat), seq<KV>>

  datatype System = System(coord: Coord, inter: Inter, outs: map<nat, seq<Line>>, workers: seq<Work>)

  datatype Action =
    | Ask(w: nat)
    | WriteBucket(w: nat)
    | Read(w: nat)
    | WriteOutput(w: nat, sorted: seq<KV>, lines: seq<Line>)
    | Remove(w: nat)
    | End(w: nat)
    | Fail(w: nat)
    | Report(w: nat)
    | Crash(w: nat)
    | Clock(late: set<nat>)

  ghost predicate JobOk(job: Job) {
    job.nreduce > 0 && OrderInsensitive(job)
  }

  predicate Shape(job: Job, s: System) {
    && |s.coord.maps| == |job.files| && |s.coord.reduces| == job.nreduce
    && forall w | 0 <= w < |s.workers| :: WorkShape(job, s.workers[w])
  }

  predicate WorkShape(job: Job, k: Work) {
    match k
    case Free => true
    case Mapping(m, next) => m < |job.files| && next <= job.nreduce
    case Reading(r, next, _) => r < job.nreduce && next <= |job.files|
    case Removing(r, next) => r < job.nreduce && next <= |job.files|
    case Reporting(isMap, id, _) => id < if isMap then |job.files| else job.nreduce
  }

  ghost predicate Enabled(job: Job, s: System, a: Action) {
    if a.Clock? then true
    else
      && a.w < |s.workers|
      && var k := s.workers[a.w];
         match a
         case Ask(_) => k.Free?
         case WriteBucket(_) => k.Mapping? && k.next < job.nreduce
         case Read(_) => k.Reading? && k.next < |job.files| && (k.next, k.r) in s.inter
         case WriteOutput(_, sorted, lines) =>
           && k.Reading? && k.next == |job.files|
           && SortedByKey(sorted) && multiset(sorted) == multiset(k.pairs) && IsOutput(job, lines, sorted)
         case Remove(_) => k.Removing? && k.next < |job.files|
         case End(_) => (k.Mapping? && k.next == job.nreduce) || (k.Removing? && k.next == |job.files|)
         case Fail(_) => k.Mapping? || k.Reading?
         case Report(_) => k.Reporting?
         case Crash(_) => true
  }

  function Set(s: System, w: nat, k: Work): System
    requires w < |s.workers|
  {
    s.(workers := s.workers[w := k])
  }

  function Started(a: Assignment): Work {
    match a
    case MapTask(m) => Mapping(m, 0)
    case ReduceTask(r) => Reading(r, 0, [])
    case Wait => Free
    case Exit => Free
  }

  ghost function Apply(job: Job, s: System, a: Action): System
    requires job.nreduce > 0 && Shape(job, s) && Enabled(job, s, a)
  {
    if a.Clock? then s.(coord := TimeOut(s.coord, a.late))
    else
      var k := s.workers[a.w];
      match a
      case Ask(w) =>
        var (coord, reply) := NextTask(s.coord);
        Set(s, w, Started(reply)).(coord := coord)
      case WriteBucket(w) =>
        Set(s, w, Mapping(k.m, k.next + 1)).(inter := s.inter[(k.m, k.next) := Part(job, MapOutput(job, k.m), k.next)])
      case Read(w) =>
        Set(s, w, Reading(k.r, k.next + 1, k.pairs + s.inter[(k.next, k.r)]))
      case WriteOutput(w, sorted, lines) =>
        Set(s, w, Removing(k.r, 0)).(outs := s.outs[k.r := lines])
      case Remove(w) =>
        Set(s, w, Removing(k.r, k.next + 1)).(inter := s.inter - {(k.next, k.r)})
      case End(w) =>
        Set(s, w, if k.Mapping? then Reporting(true, k.m, true) else Reporting(false, k.r, true))
      case Fail(w) =>
        Set(s, w, if k.Mapping? then Reporting(true, k.m, false) else Reporting(false, k.r, false))
      case Report(w) =>
        Set(s, w, Free).(coord := if k.isMap then ReportMap(s.coord, k.id, k.success)
                                  else ReportReduce(s.coord, k.id, k.success))
      case Crash(w) => Set(s, w, Free)
  }

  function Init(job: Job, n: nat): System {
    System(Make(|job.files|, job.nreduce), map[], map[], seq(n, _ => Free))
  }

  ghost function Next(job: Job): (System, Action, System) -> bool {
    (s, a, t) => job.nreduce > 0 && Shape(job, s) && Enabled(job, s, a) && t == Apply(job, s, a)
  }

  /** acts is a run from s to t. */
  ghost predicate Run(job: Job, s: System, acts: seq<Action>, t: System) {
    Runs.Run(Next(job), s, acts, t)
  }

  // ---------------------------------------------------------------- invariant

  /** The output of part r is what the sequential program makes of that part's pairs. */
  ghost predicate OutOk(job: Job, r: nat, lines: seq<Line>)
    requires job.nreduce > 0
  {
    r < job.nreduce && IsOutput(job, lines, Part(job, Emitted(job, |job.files|), r))
  }

  /** What map task m emitted for reduce task q is still there, or no longer needed. */
  ghost predicate Kept(inter: Inter, outs: map<nat, seq<Line>>, m: nat, q: nat) {
    (m, q) in inter || q in outs
  }

  ghost predicate WorkOk(job: Job, s: System, k: Work)
    requires job.nreduce > 0
  {
    && WorkShape(job, k)
    && match k
       case Free => true
       case Mapping(m, next) => forall q: nat | q < next :: Kept(s.inter, s.outs, m, q)
       case Reading(r, next, pairs) => pairs == Part(job, Emitted(job, next), r)
       case Removing(r, _) => r in s.outs
       case Reporting(isMap, id, success) =>
         success ==> if isMap then MapKept(job, s, id) else id in s.outs
  }

  ghost predicate MapKept(job: Job, s: System, m: nat) {
    forall q: nat | q < job.nreduce :: Kept(s.inter, s.outs, m, q)
  }

  ghost predicate TasksOk(job: Job, s: System) {
    && (forall m | 0 <= m < |s.coord.maps| && s.coord.maps[m].Finished? :: MapKept(job, s, m))
    && (forall r | 0 <= r < |s.coord.reduces| && s.coord.reduces[r].Finished? :: r in s.outs)
  }

  ghost predicate Inv(job: Job, s: System)
    requires job.nreduce > 0
  {
    && MrCoordinator.Inv(s.coord)
    && |s.coord.maps| == |job.files| && |s.coord.reduces| == job.nreduce
    && Sound(job, s.inter)
    && (forall r | r in s.outs :: OutOk(job, r, s.outs[r]))
    && (forall w | 0 <= w < |s.workers| :: WorkOk(job, s, s.workers[w]))
    && TasksOk(job, s)
  }

  // ---------------------------------------------------------------- steps

  /** t keeps everything of s that tasks and workers rely on. */
  ghost predicate Keeps(s: System, t: System) {
    && (forall m: nat, q: nat | Kept(s.inter, s.outs, m, q) :: Kept(t.inter, t.outs, m, q))
    && (forall r | r in s.outs :: r in t.outs)
  }

  lemma WorkStable(job: Job, s: System, t: System, k: Work)
    requires job.nreduce > 0 && Keeps(s, t) && WorkOk(job, s, k)
    ensures WorkOk(job, t, k)
  {
    hide Kept, Part, Emitted;
  }

  lemma TasksStable(job: Job, s: System, t: System)
    requires Keeps(s, t) && TasksOk(job, s) && t.coord == s.coord
    ensures TasksOk(job, t)
  {
    hide Kept;
  }

  /** A step of worker w that leaves the coordinator alone. */
  lemma Assemble(job: Job, s: System, t: System, w: nat)
    requires job.nreduce > 0 && Inv(job, s) && w < |s.workers| == |t.workers| && Keeps(s, t) && t.coord == s.coord
    requires forall v | 0 <= v < |s.workers| && v != w :: t.workers[v] == s.workers[v]
    requires WorkOk(job, t, t.workers[w]) && Sound(job, t.inter) && forall r | r in t.outs :: OutOk(job, r, t.outs[r])
    ensures Inv(job, t)
  {
    hide Keeps, WorkOk, MrCoordinator.Inv, Sound, OutOk, TasksOk;
    forall v | 0 <= v < |t.workers|
      ensures WorkOk(job, t, t.workers[v])
    {
      if v != w {
        WorkStable(job, s, t, s.workers[v]);
      }
    }
    TasksStable(job, s, t);
  }

  lemma FileInv(job: Job, s: System, a: Action)
    requires JobOk(job) && Inv(job, s) && Shape(job, s) && Enabled(job, s, a)
    requires a.WriteBucket? || a.Read? || a.Remove? || a.End? || a.Fail? || a.Crash?
    ensures Inv(job, Apply(job, s, a)) && Keeps(s, Apply(job, s, a))
  {
    hide MrCoordinator.Inv, Part, OutOk, TasksOk, OrderInsensitive;
    var t := Apply(job, s, a);
    var k := s.workers[a.w];
    assert WorkOk(job, s, k);
    if a.Read? {
      PartConcat(job, Emitted(job, k.next), MapOutput(job, k.next), k.r);
      assert s.inter[(k.next, k.r)] == Part(job, MapOutput(job, k.next), k.r);
    }
    if a.WriteBucket? {
      forall q: nat | q < k.next + 1
        ensures Kept(t.inter, t.outs, k.m, q)
      {
        assert q < k.next ==> Kept(s.inter, s.outs, k.m, q);
      }
    }
    assert WorkOk(job, t, t.workers[a.w]);
    Assemble(job, s, t, a.w);
  }

  lemma OutputInv(job: Job, s: System, a: Action)
    requires JobOk(job) && Inv(job, s) && Shape(job, s) && Enabled(job, s, a) && a.WriteOutput?
    ensures Inv(job, Apply(job, s, a)) && Keeps(s, Apply(job, s, a))
  {
    hide MrCoordinator.Inv, Part, TasksOk, OrderInsensitive, IsOutput, SortedByKey, Emitted;
    var t := Apply(job, s, a);
    var k := s.workers[a.w];
    assert WorkOk(job, s, k);
    OutputPermute(job, a.lines, a.sorted, k.pairs);
    assert OutOk(job, k.r, a.lines);
    Assemble(job, s, t, a.w);
  }

  lemma AskInv(job: Job, s: System, w: nat)
    requires JobOk(job) && Inv(job, s) && Shape(job, s) && Enabled(job, s, Ask(w))
    ensures Inv(job, Apply(job, s, Ask(w))) && Keeps(s, Apply(job, s, Ask(w)))
  {
    hide Sound, OutOk, Kept, OrderInsensitive, NextTask, MrCoordinator.Inv;
    var t := Apply(job, s, Ask(w));
    RequestInv(s.coord);
    FinishedBefore(s.coord);
    assert WorkOk(job, t, t.workers[w]);
    forall v | 0 <= v < |t.workers|
      ensures WorkOk(job, t, t.workers[v])
    {
      if v != w {
        assert WorkOk(job, s, s.workers[v]);
        WorkStable(job, s, t, s.workers[v]);
      }
    }
    assert TasksOk(job, t);
  }

  /** A request finishes no task. */
  lemma FinishedBefore(c: Coord)
    requires MrCoordinator.Inv(c)
    ensures var d := NextTask(c).0;
            && |d.maps| == |c.maps| && |d.reduces| == |c.reduces|
            && (forall m | 0 <= m < |c.maps| && d.maps[m].Finished? :: c.maps[m].Finished?)
            && (forall r | 0 <= r < |c.reduces| && d.reduces[r].Finished? :: c.reduces[r].Finished?)
  {
  }

  lemma ReportTaskInv(job: Job, s: System, w: nat)
    requires JobOk(job) && Inv(job, s) && Shape(job, s) && Enabled(job, s, Report(w))
    ensures Inv(job, Apply(job, s, Report(w))) && Keeps(s, Apply(job, s, Report(w)))
  {
    hide Sound, OutOk, Kept, OrderInsensitive, MrCoordinator.Inv;
    var t := Apply(job, s, Report(w));
    var k := s.workers[w];
    assert WorkOk(job, s, k);
    ReportInv(s.coord, k.id, k.success);
    forall v | 0 <= v < |t.workers|
      ensures WorkOk(job, t, t.workers[v])
    {
      if v != w {
        WorkStable(job, s, t, s.workers[v]);
      }
    }
    assert TasksOk(job, t);
  }

  lemma ClockInv(job: Job, s: System, late: set<nat>)
    requires JobOk(job) && Inv(job, s) && Shape(job, s)
    ensures Inv(job, Apply(job, s, Clock(late))) && Keeps(s, Apply(job, s, Clock(late)))
  {
    hide Sound, OutOk, Kept, OrderInsensitive, MrCoordinator.Inv;
    var t := Apply(job, s, Clock(late));
    TimeoutInv(s.coord, late);
    forall v | 0 <= v < |t.workers|
      ensures WorkOk(job, t, t.workers[v])
    {
      WorkStable(job, s, t, s.workers[v]);
    }
    assert TasksOk(job, t);
  }

  lemma InvShape(job: Job, s: System)
    requires job.nreduce > 0 && Inv(job, s)
    ensures Shape(job, s)
  {
    hide Sound, OutOk, Kept, MrCoordinator.Inv, TasksOk;
    forall w | 0 <= w < |s.workers| ensures WorkShape(job, s.workers[w]) { assert WorkOk(job, s, s.workers[w]); }
  }

  lemma StepInv(job: Job, s: System, a: Action)
    requires JobOk(job) && Inv(job, s) && Shape(job, s) && Enabled(job, s, a)
    ensures Inv(job, Apply(job, s, a)) && Keeps(s, Apply(job, s, a))
  {
    hide Inv, Shape, OrderInsensitive, Keeps;
    match a {
      case Ask(w) => AskInv(job, s, w);
      case Report(w) => ReportTaskInv(job, s, w);
      case Clock(late) => ClockInv(job, s, late);
      case WriteOutput(_, _, _) => OutputInv(job, s, a);
      case WriteBucket(_) => FileInv(job, s, a);
      case Read(_) => FileInv(job, s, a);
      case Remove(_) => FileInv(job, s, a);
      case End(_) => FileInv(job, s, a);
      case Fail(_) => FileInv(job, s, a);
      case Crash(_) => FileInv(job, s, a);
    }
  }

  lemma InitInv(job: Job, n: nat)
    requires JobOk(job)
    ensures Inv(job, Init(job, n)) && Shape(job, Init(job, n))
  {
    var c := Make(|job.files|, job.nreduce);
    NoneFinished(c.maps);
    NoneFinished(c.reduces);
  }

  lemma RunInv(job: Job, s: System, acts: seq<Action>, t: System)
    requires JobOk(job) && Inv(job, s) && Run(job, s, acts, t)
    ensures Inv(job, t) && Keeps(s, t)
  {
    assert job.nreduce > 0;
    hide Inv, Shape, Apply, Enabled, JobOk, Kept;
    var kept := (x: System) => Inv(job, x) && Keeps(s, x);
    forall x, a, y | kept(x) && Next(job)(x, a, y)
      ensures kept(y)
    {
      StepInv(job, x, a);
    }
    Runs.Invariant(Next(job), kept, s, acts, t);
  }

  lemma Reachable(job: Job, n: nat, acts: seq<Action>, s: System)
    requires JobOk(job) && Run(job, Init(job, n), acts, s)
    ensures Inv(job, s)
  {
    hide Inv, Run, OrderInsensitive;
    InitInv(job, n);
    RunInv(job, Init(job, n), acts, s);
  }

  // ---------------------------------------------------------------- what holds over every run

  /** Every output file that is ever written is exactly its part of the sequential output, however
      tasks were reissued, repeated, or finished late, and whichever worker wrote it. */
  lemma OutputsAreSequential(job: Job, n: nat, acts: seq<Action>, s: System, whole: seq<Line>, r: nat)
    requires JobOk(job) && Run(job, Init(job, n), acts, s)
    requires IsOutput(job, whole, Emitted(job, |job.files|)) && r in s.outs
    ensures r < job.nreduce && s.outs[r] == LinesOf(job, whole, r)
  {
    hide Run, OrderInsensitive, IsOutput;
    Reachable(job, n, acts, s);
    assert OutOk(job, r, s.outs[r]);
    PartOutput(job, whole, s.outs[r], Emitted(job, |job.files|), r);
  }

  /** Once written an output file stays, and no later write changes it. */
  lemma OutputsStay(job: Job, n: nat, acts: seq<Action>, s: System, more: seq<Action>, t: System, r: nat)
    requires JobOk(job) && Run(job, Init(job, n), acts, s) && Run(job, s, more, t) && r in s.outs
    ensures r in t.outs && t.outs[r] == s.outs[r]
  {
    hide Run, OrderInsensitive, IsOutput, Kept;
    Reachable(job, n, acts, s);
    RunInv(job, s, more, t);
    var data := Part(job, Emitted(job, |job.files|), r);
    assert OutOk(job, r, s.outs[r]) && OutOk(job, r, t.outs[r]);
    OutputUnique(job, s.outs[r], t.outs[r], data, data);
  }

  /** When the coordinator is done, every output file exists, and every line of the sequential
      output is in exactly one of them, the one its key belongs to. */
  lemma DoneIsComplete(job: Job, n: nat, acts: seq<Action>, s: System, whole: seq<Line>)
    requires JobOk(job) && Run(job, Init(job, n), acts, s) && s.coord.phase == DonePhase
    requires IsOutput(job, whole, Emitted(job, |job.files|))
    ensures forall r: nat :: r in s.outs <==> r < job.nreduce
    ensures forall r: nat, x: Line | r in s.outs :: x in s.outs[r] <==> x in whole && PartOf(job, x.key) == r
  {
    hide Run, OrderInsensitive, IsOutput;
    Reachable(job, n, acts, s);
    forall r: nat
      ensures r in s.outs <==> r < job.nreduce
    {
      if r in s.outs {
        assert OutOk(job, r, s.outs[r]);
      }
    }
    forall r: nat, x: Line | r in s.outs
      ensures x in s.outs[r] <==> x in whole && PartOf(job, x.key) == r
    {
      OutputsAreSequential(job, n, acts, s, whole, r);
      WholeOrdered(job, whole);
      LinesOfSound(job, whole, r);
    }
  }

  lemma WholeOrdered(job: Job, whole: seq<Line>)
    requires IsOutput(job, whole, Emitted(job, |job.files|))
    ensures forall i, j | 0 <= i < j < |whole| :: Before(whole[i].key, whole[j].key)
  {
  }

  /** Nothing is lost: in the reduce phase, whatever map tasks emitted for a reduce task is in its
      file until that reduce task's output is written. */
  lemma NothingLost(job: Job, n: nat, acts: seq<Action>, s: System, m: nat, q: nat)
    requires JobOk(job) && Run(job, Init(job, n), acts, s) && s.coord.phase != MapPhase
    requires m < |job.files| && q < job.nreduce && q !in s.outs
    ensures (m, q) in s.inter && s.inter[(m, q)] == Part(job, MapOutput(job, m), q)
  {
    hide Run, OrderInsensitive, IsOutput;
    Reachable(job, n, acts, s);
    assert MapKept(job, s, m);
    assert Kept(s.inter, s.outs, m, q);
  }
}
