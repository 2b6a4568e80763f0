/** The loop of a worker (src/mr/worker.go) against the coordinator object: a single worker that
    meets no errors completes the whole job, and its loop ends. */
module MrRun {
  import opened MrData
  import opened MrCoordinator
  import opened MrWorker

  ghost predicate Resting(tasks: seq<TaskState>) {
    forall i | 0 <= i < |tasks| :: !tasks[i].Running?
  }

  /** Between two tasks: nothing is running, and the files are those of the finished tasks. */
  ghost predicate Between(job: Job, c: Coord, inter: map<(nat, nat), seq<KV>>, outs: map<nat, seq<Line>>) {
    && job.nreduce > 0 && |c.maps| == |job.files| && |c.reduces| == job.nreduce
    && MrCoordinator.Inv(c) && Resting(c.maps) && Resting(c.reduces)
    && Sound(job, inter)
    && (forall m: nat, r: nat | m < |c.maps| && r < |c.reduces| && c.maps[m].Finished? && !c.reduces[r].Finished? ::
          (m, r) in inter)
    && (forall r: nat | r < |c.reduces| && c.reduces[r].Finished? ::
          r in outs && IsOutput(job, outs[r], Part(job, Emitted(job, |job.files|), r)))
  }

  function Todo(c: Coord): int {
    |c.maps| - c.nMapDone + |c.reduces| - c.nReduceDone
  }

  lemma TodoNatural(c: Coord)
    requires MrCoordinator.Inv(c)
    ensures Todo(c) >= 0
  {
    DoneCountAll(c.maps);
    DoneCountAll(c.reduces);
  }

  lemma {:induction false} RestingDone(tasks: seq<TaskState>)
    requires Resting(tasks) && FirstIdle(tasks) == |tasks|
    ensures DoneCount(tasks) == |tasks|
  {
    if tasks != [] {
      var n := |tasks| - 1;
      forall k | 0 <= k < n ensures !tasks[..n][k].Idle? { assert !tasks[k].Idle?; }
      FirstIdleIs(tasks[..n], n);
      RestingDone(tasks[..n]);
    }
  }

  /** With nothing running there is always a task to give out, or the job is done. */
  lemma NeverWaits(c: Coord)
    requires MrCoordinator.Inv(c) && Resting(c.maps) && Resting(c.reduces)
    ensures !NextTask(c).1.Wait? && (NextTask(c).1.Exit? ==> NextTask(c).0.phase == DonePhase)
  {
    if FirstIdle(c.maps) == |c.maps| {
      RestingDone(c.maps);
    }
    if FirstIdle(c.reduces) == |c.reduces| {
      RestingDone(c.reduces);
    }
  }

  /** What a request changes when it gives out a task. */
  lemma Given(c: Coord)
    requires MrCoordinator.Inv(c)
    ensures var (d, a) := NextTask(c);
            && d.nMapDone == c.nMapDone && d.nReduceDone == c.nReduceDone
            && (a.MapTask? ==> a.id < |c.maps| && d.reduces == c.reduces && d.maps == c.maps[a.id := Running])
            && (a.ReduceTask? ==> a.id < |c.reduces| && d.maps == c.maps && d.reduces == c.reduces[a.id := Running]
                                  && !c.reduces[a.id].Finished? && AllFinished(c.maps))
            && (a.Exit? ==> d.maps == c.maps && d.reduces == c.reduces)
  {
    DoneCountAll(c.maps);
  }

  lemma AfterMap(job: Job, c: Coord, inter: map<(nat, nat), seq<KV>>, outs: map<nat, seq<Line>>, m: nat,
                 inter': map<(nat, nat), seq<KV>>)
    requires Between(job, c, inter, outs) && NextTask(c).1 == MapTask(m) && m < |job.files|
    requires Wrote(job, inter, inter', m, job.nreduce)
    ensures var d := ReportMap(NextTask(c).0, m, true); Between(job, d, inter', outs) && Todo(d) == Todo(c) - 1
  {
    hide IsOutput, Part, NextTask, MrCoordinator.Inv;
    RequestInv(c);
    Given(c);
    ReportInv(NextTask(c).0, m, true);
  }

  lemma AfterReduce(job: Job, c: Coord, inter: map<(nat, nat), seq<KV>>, outs: map<nat, seq<Line>>, r: nat,
                    lines: seq<Line>)
    requires Between(job, c, inter, outs) && NextTask(c).1 == ReduceTask(r) && r < job.nreduce
    requires IsOutput(job, lines, Part(job, Emitted(job, |job.files|), r))
    ensures var d := ReportReduce(NextTask(c).0, r, true);
            && Between(job, d, inter - set m: nat | m < |job.files| :: (m, r), outs[r := lines])
            && Todo(d) == Todo(c) - 1
  {
    hide IsOutput, Part, Emitted, NextTask, MrCoordinator.Inv;
    RequestInv(c);
    Given(c);
    ReportInv(NextTask(c).0, r, true);
  }

  /** The input of a reduce task that is given out is complete. */
  lemma InputsThere(job: Job, c: Coord, inter: map<(nat, nat), seq<KV>>, outs: map<nat, seq<Line>>, r: nat)
    requires Between(job, c, inter, outs) && NextTask(c).1 == ReduceTask(r)
    ensures r < job.nreduce && forall m: nat | m < |job.files| :: (m, r) in inter
  {
    hide IsOutput, Part, NextTask, MrCoordinator.Inv;
    Given(c);
  }

  lemma AtFirst(job: Job)
    requires job.nreduce > 0
    ensures Between(job, Make(|job.files|, job.nreduce), map[], map[])
  {
    var c := Make(|job.files|, job.nreduce);
    NoneFinished(c.maps);
    NoneFinished(c.reduces);
  }

  method Worker(job: Job, c: Coordinator, disk: Disk)
    requires job.nreduce > 0 && OrderInsensitive(job) && c.Valid() && c.View() == Make(|job.files|, job.nreduce)
    requires disk.Serves(job) && disk.inter == map[] && disk.outs == map[]
    requires forall m | 0 <= m < |job.files| :: job.files[m].name in disk.inputs
    modifies c, c.mapTasks, c.reduceTasks, disk`inter, disk`outs
    ensures c.View().phase == DonePhase
    ensures forall r: nat | r < job.nreduce ::
              r in disk.outs && IsOutput(job, disk.outs[r], Part(job, Emitted(job, |job.files|), r))
  {
    hide OrderInsensitive, IsOutput, Part, Emitted, NextTask, ReportMap, ReportReduce, Make, Sound;
    AtFirst(job);
    var exit := false;
    while !exit
      invariant c.Valid() && Between(job, c.View(), disk.inter, disk.outs)
      invariant exit ==> c.View().phase == DonePhase
      decreases !exit, Todo(c.View())
    {
      ghost var was, inter, outs := c.View(), disk.inter, disk.outs;
      BetweenFacts(job, was, inter, outs);
      hide Between;
      var reply := c.RequestTask();
      if reply.MapTask? {
        var ok := ExecuteMapTask(job, disk, reply.id);
        AfterMap(job, was, inter, outs, reply.id, disk.inter);
        c.ReportTask(true, reply.id, ok);
      } else if reply.ReduceTask? {
        InputsThere(job, was, inter, outs, reply.id);
        var ok := ExecuteReduceTask(job, disk, reply.id);
        AfterReduce(job, was, inter, outs, reply.id, disk.outs[reply.id]);
        c.ReportTask(false, reply.id, ok);
      } else {
        AfterExit(job, was, inter, outs);
        exit := true;
      }
    }
    AtEnd(job, c.View(), disk.inter, disk.outs);
  }

  lemma BetweenFacts(job: Job, c: Coord, inter: map<(nat, nat), seq<KV>>, outs: map<nat, seq<Line>>)
    requires Between(job, c, inter, outs)
    ensures job.nreduce > 0 && Sound(job, inter) && !NextTask(c).1.Wait? && Todo(c) >= 0
    ensures NextTask(c).1.MapTask? ==> NextTask(c).1.id < |job.files|
    ensures NextTask(c).1.Exit? ==> NextTask(c).0.phase == DonePhase
  {
    hide IsOutput, Part, NextTask, Sound;
    TodoNatural(c);
    NeverWaits(c);
    Given(c);
  }

  lemma AfterExit(job: Job, c: Coord, inter: map<(nat, nat), seq<KV>>, outs: map<nat, seq<Line>>)
    requires Between(job, c, inter, outs) && NextTask(c).1.Exit?
    ensures Between(job, NextTask(c).0, inter, outs)
  {
    hide IsOutput, Part, NextTask, MrCoordinator.Inv, Sound;
    RequestInv(c);
    Given(c);
  }

  lemma AtEnd(job: Job, c: Coord, inter: map<(nat, nat), seq<KV>>, outs: map<nat, seq<Line>>)
    requires Between(job, c, inter, outs) && c.phase == DonePhase
    ensures forall r: nat | r < job.nreduce ::
            r in outs && IsOutput(job, outs[r], Part(job, Emitted(job, |job.files|), r))
  {
    hide IsOutput, Part, Emitted, Sound;
  }
}
