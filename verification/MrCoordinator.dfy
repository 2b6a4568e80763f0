/** The scheduler of src/mr/coordinator.go: its state machine, and the object with its loops. */
module MrCoordinator {

  datatype TaskState = Idle | Running | Finished

  datatype Phase = MapPhase | ReducePhase | DonePhase

  datatype Assignment = MapTask(id: nat) | ReduceTask(id: nat) | Wait | Exit

  datatype Coord = Coord(phase: Phase, maps: seq<TaskState>, reduces: seq<TaskState>, nMapDone: nat, nReduceDone: nat)

  function Make(nmap: nat, nreduce: nat): Coord {
    Coord(MapPhase, seq(nmap, _ => Idle), seq(nreduce, _ => Idle), 0, 0)
  }

  function FirstIdle(tasks: seq<TaskState>): (i: nat)
    ensures i <= |tasks|
    ensures forall k | 0 <= k < i :: !tasks[k].Idle?
    ensures i < |tasks| ==> tasks[i].Idle?
  {
    if tasks == [] || tasks[0].Idle? then 0 else 1 + FirstIdle(tasks[1..])
  }

  lemma FirstIdleIs(tasks: seq<TaskState>, i: nat)
    requires i <= |tasks| && (forall k | 0 <= k < i :: !tasks[k].Idle?) && (i < |tasks| ==> tasks[i].Idle?)
    ensures i == FirstIdle(tasks)
  {
  }

  /** The reduce and done cases of RequestTask. */
  function RequestReduce(c: Coord): (Coord, Assignment) {
    if c.phase == DonePhase then (c, Exit)
    else
      var i := FirstIdle(c.reduces);
      if i < |c.reduces| then (c.(reduces := c.reduces[i := Running]), ReduceTask(i))
      else if c.nReduceDone == |c.reduces| then (c.(phase := DonePhase), Exit)
      else (c, Wait)
  }

  function NextTask(c: Coord): (Coord, Assignment) {
    if c.phase == MapPhase then
      var i := FirstIdle(c.maps);
      if i < |c.maps| then (c.(maps := c.maps[i := Running]), MapTask(i))
      else if c.nMapDone == |c.maps| then RequestReduce(c.(phase := ReducePhase))
      else (c, Wait)
    else RequestReduce(c)
  }

  /** A report about a task that is not running, for instance a second one, changes nothing. */
  function ReportMap(c: Coord, id: int, success: bool): Coord {
    if 0 <= id < |c.maps| && c.maps[id].Running? then
      if success then c.(maps := c.maps[id := Finished], nMapDone := c.nMapDone + 1)
      else c.(maps := c.maps[id := Idle])
    else c
  }

  function ReportReduce(c: Coord, id: int, success: bool): Coord {
    if 0 <= id < |c.reduces| && c.reduces[id].Running? then
      if success then c.(reduces := c.reduces[id := Finished], nReduceDone := c.nReduceDone + 1)
      else c.(reduces := c.reduces[id := Idle])
    else c
  }

  /** Tasks that have run too long are idle again; which those are is up to the clock. */
  function Expired(tasks: seq<TaskState>, late: set<nat>): (r: seq<TaskState>)
    ensures |r| == |tasks|
  {
    seq(|tasks|, i requires 0 <= i < |tasks| => if tasks[i].Running? && i in late then Idle else tasks[i])
  }

  function TimeOut(c: Coord, late: set<nat>): Coord {
    match c.phase
    case MapPhase => c.(maps := Expired(c.maps, late))
    case ReducePhase => c.(reduces := Expired(c.reduces, late))
    case DonePhase => c
  }

  // ---------------------------------------------------------------- the counters

  function DoneCount(tasks: seq<TaskState>): nat {
    if tasks == [] then 0
    else
      var n := |tasks| - 1;
      DoneCount(tasks[..n]) + if tasks[n].Finished? then 1 else 0
  }

  lemma {:induction false} NoneFinished(tasks: seq<TaskState>)
    requires forall i | 0 <= i < |tasks| :: tasks[i].Idle?
    ensures DoneCount(tasks) == 0
  {
    if tasks != [] {
      NoneFinished(tasks[..|tasks| - 1]);
    }
  }

  ghost predicate AllFinished(tasks: seq<TaskState>) {
    forall i | 0 <= i < |tasks| :: tasks[i].Finished?
  }

  /** The counters count the finished tasks, and a phase is left only when all its tasks are. */
  ghost predicate Inv(c: Coord) {
    && c.nMapDone == DoneCount(c.maps)
    && c.nReduceDone == DoneCount(c.reduces)
    && (c.phase != MapPhase ==> AllFinished(c.maps))
    && (c.phase == MapPhase ==> forall i | 0 <= i < |c.reduces| :: c.reduces[i].Idle?)
    && (c.phase == DonePhase ==> AllFinished(c.reduces))
  }

  lemma {:induction false} DoneCountUpdate(tasks: seq<TaskState>, i: nat, t: TaskState)
    requires i < |tasks|
    ensures DoneCount(tasks[i := t]) + (if tasks[i].Finished? then 1 else 0)
            == DoneCount(tasks) + if t.Finished? then 1 else 0
  {
    var n := |tasks| - 1;
    if i < n {
      DoneCountUpdate(tasks[..n], i, t);
      assert tasks[i := t][..n] == tasks[..n][i := t];
    } else {
      assert tasks[i := t][..n] == tasks[..n];
    }
  }

  lemma {:induction false} DoneCountAll(tasks: seq<TaskState>)
    ensures DoneCount(tasks) <= |tasks|
    ensures DoneCount(tasks) == |tasks| <==> AllFinished(tasks)
  {
    if tasks != [] {
      var n := |tasks| - 1;
      DoneCountAll(tasks[..n]);
      assert tasks == tasks[..n] + [tasks[n]];
      assert forall i | 0 <= i < n :: tasks[..n][i] == tasks[i];
    }
  }

  lemma {:induction false} DoneCountSame(a: seq<TaskState>, b: seq<TaskState>)
    requires |a| == |b| && forall i | 0 <= i < |a| :: a[i].Finished? <==> b[i].Finished?
    ensures DoneCount(a) == DoneCount(b)
  {
    if a != [] {
      var n := |a| - 1;
      DoneCountSame(a[..n], b[..n]);
    }
  }

  /** Finished tasks stay finished, whatever is requested, reported late or twice, or timed out. */
  ghost predicate Later(c: Coord, d: Coord) {
    && |d.maps| == |c.maps| && |d.reduces| == |c.reduces|
    && (forall i | 0 <= i < |c.maps| && c.maps[i].Finished? :: d.maps[i].Finished?)
    && (forall i | 0 <= i < |c.reduces| && c.reduces[i].Finished? :: d.reduces[i].Finished?)
    && (d.phase == MapPhase ==> c.phase == MapPhase)
    && (c.phase == DonePhase ==> d == c)
  }

  lemma RequestReduceInv(c: Coord)
    requires Inv(c) && c.phase != MapPhase
    ensures Inv(RequestReduce(c).0) && Later(c, RequestReduce(c).0)
  {
    var i := FirstIdle(c.reduces);
    if i < |c.reduces| {
      DoneCountUpdate(c.reduces, i, Running);
    }
    DoneCountAll(c.reduces);
  }

  lemma RequestInv(c: Coord)
    requires Inv(c)
    ensures Inv(NextTask(c).0) && Later(c, NextTask(c).0)
    ensures NextTask(c).1.MapTask? ==> NextTask(c).1.id < |c.maps|
    ensures NextTask(c).1.ReduceTask? ==> NextTask(c).1.id < |c.reduces| && AllFinished(c.maps)
  {
    hide RequestReduce;
    if c.phase == MapPhase {
      var i := FirstIdle(c.maps);
      if i < |c.maps| {
        DoneCountUpdate(c.maps, i, Running);
      } else if c.nMapDone == |c.maps| {
        DoneCountAll(c.maps);
        RequestReduceInv(c.(phase := ReducePhase));
        RequestedReduce(c.(phase := ReducePhase));
      }
    } else {
      RequestReduceInv(c);
      RequestedReduce(c);
    }
  }

  lemma RequestedReduce(c: Coord)
    ensures !RequestReduce(c).1.MapTask?
    ensures RequestReduce(c).1.ReduceTask? ==> RequestReduce(c).1.id < |c.reduces|
  {
  }

  lemma ReportInv(c: Coord, id: int, success: bool)
    requires Inv(c)
    ensures Inv(ReportMap(c, id, success)) && Later(c, ReportMap(c, id, success))
    ensures Inv(ReportReduce(c, id, success)) && Later(c, ReportReduce(c, id, success))
  {
    if 0 <= id < |c.maps| && c.maps[id].Running? {
      DoneCountUpdate(c.maps, id, if success then Finished else Idle);
    }
    if 0 <= id < |c.reduces| && c.reduces[id].Running? {
      DoneCountUpdate(c.reduces, id, if success then Finished else Idle);
    }
  }

  lemma TimeoutInv(c: Coord, late: set<nat>)
    requires Inv(c)
    ensures Inv(TimeOut(c, late)) && Later(c, TimeOut(c, late))
  {
    DoneCountSame(c.maps, Expired(c.maps, late));
    DoneCountSame(c.reduces, Expired(c.reduces, late));
  }

  // ---------------------------------------------------------------- what the workers get

  ghost predicate SomeIdle(tasks: seq<TaskState>) {
    exists i :: 0 <= i < |tasks| && tasks[i].Idle?
  }

  /** Task i is the first idle one and starts to run. */
  ghost predicate Starts(before: seq<TaskState>, after: seq<TaskState>, i: nat) {
    && i < |before| && before[i].Idle? && (forall k | 0 <= k < i :: !before[k].Idle?)
    && after == before[i := Running]
  }

  /** Which answer a request gets: a map task while there is an idle one, then, once all map tasks
      are finished, a reduce task while there is an idle one, and Exit once all are finished; as
      long as the last tasks of a phase are running it is told to wait. */
  lemma RequestGives(c: Coord)
    requires Inv(c)
    ensures var (d, a) := NextTask(c);
            if c.phase == DonePhase then a == Exit && d == c
            else if c.phase == MapPhase && SomeIdle(c.maps) then
              a.MapTask? && Starts(c.maps, d.maps, a.id) && d == c.(maps := d.maps)
            else if !AllFinished(c.maps) then a == Wait && d == c
            else if SomeIdle(c.reduces) then
              a.ReduceTask? && Starts(c.reduces, d.reduces, a.id) && d == c.(phase := ReducePhase, reduces := d.reduces)
            else if !AllFinished(c.reduces) then a == Wait && d == c.(phase := ReducePhase)
            else a == Exit && d == c.(phase := DonePhase)
  {
    DoneCountAll(c.maps);
    DoneCountAll(c.reduces);
  }

  /** A report about a running task settles that task alone: finished and counted if it succeeded,
      idle again if not.  Any other report changes nothing. */
  lemma ReportSettles(c: Coord, id: int, success: bool)
    ensures var d := ReportMap(c, id, success);
            if 0 <= id < |c.maps| && c.maps[id].Running? then
              && d == c.(maps := d.maps, nMapDone := d.nMapDone) && |d.maps| == |c.maps|
              && (d.maps[id] == if success then Finished else Idle)
              && (forall k | 0 <= k < |c.maps| && k != id :: d.maps[k] == c.maps[k])
              && d.nMapDone == c.nMapDone + if success then 1 else 0
            else d == c
    ensures var d := ReportReduce(c, id, success);
            if 0 <= id < |c.reduces| && c.reduces[id].Running? then
              && d == c.(reduces := d.reduces, nReduceDone := d.nReduceDone) && |d.reduces| == |c.reduces|
              && (d.reduces[id] == if success then Finished else Idle)
              && (forall k | 0 <= k < |c.reduces| && k != id :: d.reduces[k] == c.reduces[k])
              && d.nReduceDone == c.nReduceDone + if success then 1 else 0
            else d == c
  {
  }

  /** A timeout gives up exactly the tasks of the phase that ran and were late. */
  lemma TimeoutGivesUp(c: Coord, late: set<nat>)
    ensures var d := TimeOut(c, late);
            && d == c.(maps := d.maps, reduces := d.reduces)
            && |d.maps| == |c.maps| && |d.reduces| == |c.reduces|
            && (forall i | 0 <= i < |c.maps| ::
                  d.maps[i] == if c.phase == MapPhase && c.maps[i].Running? && i in late then Idle else c.maps[i])
            && (forall i | 0 <= i < |c.reduces| ::
                  d.reduces[i] == if c.phase == ReducePhase && c.reduces[i].Running? && i in late
                                  then Idle else c.reduces[i])
  {
  }

  /** A task whose worker failed or was too slow is given out again, after at most the idle tasks
      before it. */
  lemma GivenAgain(c: Coord, i: nat, late: set<nat>)
    requires Inv(c)
    ensures c.phase == MapPhase && i < |c.maps| && c.maps[i].Running? ==>
              && NextTask(ReportMap(c, i, false)).1.MapTask? && NextTask(ReportMap(c, i, false)).1.id <= i
              && (i in late ==> NextTask(TimeOut(c, late)).1.MapTask? && NextTask(TimeOut(c, late)).1.id <= i)
    ensures c.phase == ReducePhase && i < |c.reduces| && c.reduces[i].Running? ==>
              && NextTask(ReportReduce(c, i, false)).1.ReduceTask? && NextTask(ReportReduce(c, i, false)).1.id <= i
              && (i in late ==> NextTask(TimeOut(c, late)).1.ReduceTask? && NextTask(TimeOut(c, late)).1.id <= i)
  {
    hide NextTask, ReportMap, ReportReduce, TimeOut, Inv;
    ReportInv(c, i, false);
    TimeoutInv(c, late);
    RequestGives(ReportMap(c, i, false));
    RequestGives(ReportReduce(c, i, false));
    RequestGives(TimeOut(c, late));
    ReportSettles(c, i, false);
    TimeoutGivesUp(c, late);
    FinishedPhase(c);
  }

  lemma FinishedPhase(c: Coord)
    requires Inv(c)
    ensures c.phase != MapPhase ==> AllFinished(c.maps)
  {
  }

  // ---------------------------------------------------------------- the object

  class Coordinator {
    var phase: Phase
    const mapTasks: array<TaskState>
    const reduceTasks: array<TaskState>
    var nMapDone: nat
    var nReduceDone: nat

    ghost function View(): Coord
      reads this, mapTasks, reduceTasks
    {
      Coord(phase, mapTasks[..], reduceTasks[..], nMapDone, nReduceDone)
    }

    ghost predicate Valid()
      reads this
    {
      mapTasks != reduceTasks
    }

    /** MakeCoordinator. */
    constructor (nmap: nat, nreduce: nat)
      ensures Valid() && fresh(mapTasks) && fresh(reduceTasks) && View() == Make(nmap, nreduce)
    {
      phase := MapPhase;
      nMapDone, nReduceDone := 0, 0;
      mapTasks := new TaskState[nmap](_ => Idle);
      reduceTasks := new TaskState[nreduce](_ => Idle);
    }

    method Done() returns (done: bool)
      ensures done <==> View().phase == DonePhase
    {
      done := phase == DonePhase;
    }

    /** The index of the first idle task, now running, or the number of tasks. */
    static method Take(tasks: array<TaskState>) returns (i: nat)
      modifies tasks
      ensures i == FirstIdle(old(tasks[..]))
      ensures tasks[..] == if i < tasks.Length then old(tasks[..])[i := Running] else old(tasks[..])
    {
      i := 0;
      while i < tasks.Length
        invariant i <= tasks.Length && tasks[..] == old(tasks[..])
        invariant forall k | 0 <= k < i :: !tasks[k].Idle?
      {
        if tasks[i].Idle? {
          FirstIdleIs(old(tasks[..]), i);
          tasks[i] := Running;
          return;
        }
        i := i + 1;
      }
      FirstIdleIs(old(tasks[..]), i);
    }

    method RequestTask() returns (reply: Assignment)
      requires Valid()
      modifies this, mapTasks, reduceTasks
      ensures Valid() && (View(), reply) == NextTask(old(View()))
    {
      if phase == DonePhase {
        return Exit;
      }
      if phase == MapPhase {
        var i := Take(mapTasks);
        if i < mapTasks.Length {
          return MapTask(i);
        }
        if nMapDone == mapTasks.Length {
          phase := ReducePhase;
        } else {
          return Wait;
        }
      }
      var i := Take(reduceTasks);
      if i < reduceTasks.Length {
        return ReduceTask(i);
      }
      if nReduceDone == reduceTasks.Length {
        phase := DonePhase;
        return Exit;
      }
      reply := Wait;
    }

    method ReportTask(isMap: bool, id: int, success: bool)
      requires Valid()
      modifies this, mapTasks, reduceTasks
      ensures Valid()
      ensures View() == if isMap then ReportMap(old(View()), id, success) else ReportReduce(old(View()), id, success)
    {
      if isMap {
        if id >= 0 && id < mapTasks.Length && mapTasks[id].Running? {
          if success {
            mapTasks[id] := Finished;
            nMapDone := nMapDone + 1;
          } else {
            mapTasks[id] := Idle;
          }
        }
      } else {
        if id >= 0 && id < reduceTasks.Length && reduceTasks[id].Running? {
          if success {
            reduceTasks[id] := Finished;
            nReduceDone := nReduceDone + 1;
          } else {
            reduceTasks[id] := Idle;
          }
        }
      }
    }

    /** One round of checkTimeout. */
    method CheckTimeout(late: set<nat>)
      requires Valid()
      modifies mapTasks, reduceTasks
      ensures View() == TimeOut(old(View()), late)
      ensures forall i | 0 <= i < mapTasks.Length ::
                mapTasks[i] == if phase == MapPhase && old(mapTasks[i]).Running? && i in late
                               then Idle else old(mapTasks[i])
      ensures forall i | 0 <= i < reduceTasks.Length ::
                reduceTasks[i] == if phase == ReducePhase && old(reduceTasks[i]).Running? && i in late
                                  then Idle else old(reduceTasks[i])
    {
      if phase != DonePhase {
        var tasks := if phase == ReducePhase then reduceTasks else mapTasks;
        ghost var was := tasks[..];
        var i := 0;
        while i < tasks.Length
          modifies tasks
          invariant i <= tasks.Length
          invariant forall k | 0 <= k < tasks.Length :: tasks[k] == if k < i then Expired(was, late)[k] else was[k]
        {
          if tasks[i].Running? && i in late {
            tasks[i] := Idle;
          }
          i := i + 1;
        }
        assert tasks[..] == Expired(was, late);
      }
    }
  }
}
