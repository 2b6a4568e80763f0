/** The loops of src/mr/worker.go and src/main/mrsequential.go over a shared directory. */
module MrWorker {
  import opened MrData

  /** The working directory: input files, the files mr-m-r and the files mr-out-r.  Writing a file
      by renaming makes each write one step. */
  class Disk {
    var inputs: map<string, string>
    var inter: map<(nat, nat), seq<KV>>
    var outs: map<nat, seq<Line>>

    /** The input files are those the job names, and nobody changes them. */
    ghost predicate Serves(job: Job)
      reads this
    {
      forall m | 0 <= m < |job.files| && job.files[m].name in inputs ::
          inputs[job.files[m].name] == job.files[m].content
    }

    constructor (inputs: map<string, string>)
      ensures this.inputs == inputs && inter == map[] && outs == map[]
    {
      this.inputs := inputs;
      inter := map[];
      outs := map[];
    }
  }

  // ---------------------------------------------------------------- sorting and grouping

  /** Sorting by key; nothing is promised about the order of equal keys. */
  method SortByKey(data: seq<KV>) returns (s: seq<KV>)
    ensures SortedByKey(s) && multiset(s) == multiset(data)
  {
    s := [];
    var i := 0;
    while i < |data|
      invariant i <= |data| && SortedByKey(s) && multiset(s) == multiset(data[..i])
    {
      s := InsertByKey(s, data[i]);
      assert data[..i + 1] == data[..i] + [data[i]];
      i := i + 1;
    }
    assert data[..i] == data;
  }

  method InsertByKey(s: seq<KV>, x: KV) returns (r: seq<KV>)
    requires SortedByKey(s)
    ensures SortedByKey(r) && multiset(r) == multiset(s) + multiset{x}
  {
    hide Before, SortedByKey;
    var i := |s|;
    while i > 0 && Before(x.key, s[i - 1].key)
      invariant 0 <= i <= |s| && forall k | i <= k < |s| :: Before(x.key, s[k].key)
    {
      i := i - 1;
    }
    r := s[..i] + [x] + s[i..];
    InsertSorted(s, x, i);
    InsertBag(s, x, i);
  }

  lemma InsertBag(s: seq<KV>, x: KV, i: nat)
    requires i <= |s|
    ensures multiset(s[..i] + [x] + s[i..]) == multiset(s) + multiset{x}
  {
    assert s == s[..i] + s[i..];
  }

  lemma InsertSorted(s: seq<KV>, x: KV, i: nat)
    requires SortedByKey(s) && i <= |s|
    requires forall k | i <= k < |s| :: Before(x.key, s[k].key)
    requires i > 0 ==> !Before(x.key, s[i - 1].key)
    ensures SortedByKey(s[..i] + [x] + s[i..])
  {
    hide Before;
    var r := s[..i] + [x] + s[i..];
    forall j, k | 0 <= j < k < |r|
      ensures !Before(r[k].key, r[j].key)
    {
      if j == i {
        assert r[k] == s[k - 1];
        Asymmetric(x.key, s[k - 1].key);
      } else if k == i && j < i - 1 {
        BeforeTotal(s[i - 1].key, x.key);
        NotBefore(s[j].key, s[i - 1].key, x.key);
      }
    }
  }

  lemma Asymmetric(a: string, b: string)
    requires Before(a, b)
    ensures !Before(b, a)
  {
    if Before(b, a) {
      BeforeTransitive(a, b, a);
      BeforeIrreflexive(a);
    }
  }

  /** Not being before is transitive, since the order is total. */
  lemma NotBefore(a: string, b: string, c: string)
    requires !Before(b, a) && !Before(c, b)
    ensures !Before(c, a)
  {
    hide Before;
    if Before(c, a) {
      BeforeTotal(a, b);
      if a != b {
        BeforeTransitive(c, a, b);
      }
    }
  }

  /** The lines of sorted pairs: one pass that reduces each run of equal keys. */
  method Emit(job: Job, s: seq<KV>) returns (lines: seq<Line>)
    requires SortedByKey(s)
    ensures IsOutput(job, lines, s)
  {
    hide Before, IsOutput;
    lines := [];
    var i := 0;
    EmitNothing(job);
    while i < |s|
      invariant i <= |s| && IsOutput(job, lines, s[..i])
      invariant 0 < i < |s| ==> s[i - 1].key != s[i].key
    {
      var j := i + 1;
      while j < |s| && s[j].key == s[i].key
        invariant i < j <= |s| && forall k | i <= k < j :: s[k].key == s[i].key
      {
        j := j + 1;
      }
      var key := s[i].key;
      var values: seq<string> := [];
      var k := i;
      while k < j
        invariant i <= k <= j && values == ValuesOf(s[i..k], key)
      {
        assert s[i..k + 1] == s[i..k] + [s[k]];
        ValuesSnoc(s[i..k], s[k], key);
        values := values + [s[k].value];
        k := k + 1;
      }
      EmitRun(job, lines, s, i, j);
      lines := lines + [Line(key, job.reducef(key, values))];
      i := j;
    }
    assert s[..i] == s;
  }

  lemma EmitNothing(job: Job)
    ensures IsOutput(job, [], [])
  {
  }

  /** Adding the line of the run s[i..j]. */
  lemma EmitRun(job: Job, lines: seq<Line>, s: seq<KV>, i: nat, j: nat)
    requires SortedByKey(s) && i < j <= |s| && IsOutput(job, lines, s[..i])
    requires 0 < i ==> s[i - 1].key != s[i].key
    requires forall k | i <= k < j :: s[k].key == s[i].key
    ensures IsOutput(job, lines + [Line(s[i].key, job.reducef(s[i].key, ValuesOf(s[i..j], s[i].key)))], s[..j])
  {
    hide Before, ValuesOf;
    var key := s[i].key;
    var more := lines + [Line(key, job.reducef(key, ValuesOf(s[i..j], key)))];
    assert s[..j] == s[..i] + s[i..j];
    RunKeys(s, i, j);
    forall x
      ensures x in LineKeys(more) <==> x in Keys(s[..j])
    {
      MoreKeys(lines, more[|lines|], x);
      KeysConcat(s[..i], s[i..j], x);
    }
    forall m | 0 <= m < |lines|
      ensures Before(lines[m].key, key)
      ensures ValuesOf(s[..j], lines[m].key) == ValuesOf(s[..i], lines[m].key)
    {
      assert lines[m] in lines;
      assert lines[m].key in Keys(s[..i]);
      EarlierKey(s, i, lines[m].key);
      BeforeIrreflexive(key);
      ValuesConcat(s[..i], s[i..j], lines[m].key);
      NoValues(s[i..j], lines[m].key);
    }
    ValuesConcat(s[..i], s[i..j], key);
    if key in Keys(s[..i]) {
      EarlierKey(s, i, key);
      BeforeIrreflexive(key);
    }
    NoValues(s[..i], key);
    var run := ValuesOf(s[i..j], key);
    assert [] + run == run;
    assert LineKeys(more) == Keys(s[..j]);
  }

  lemma MoreKeys(lines: seq<Line>, l: Line, x: string)
    ensures x in LineKeys(lines + [l]) <==> x in LineKeys(lines) || x == l.key
  {
    assert l in lines + [l];
    if x in LineKeys(lines) {
      var y :| y in lines && y.key == x;
      assert y in lines + [l];
    }
  }

  lemma RunKeys(s: seq<KV>, i: nat, j: nat)
    requires i < j <= |s| && forall k | i <= k < j :: s[k].key == s[i].key
    ensures forall x :: x in Keys(s[i..j]) <==> x == s[i].key
  {
    assert s[i] in s[i..j] by {
      assert s[i..j][0] == s[i];
    }
  }

  /** Keys of earlier runs come before the key of the run that starts at i. */
  lemma EarlierKey(s: seq<KV>, i: nat, x: string)
    requires SortedByKey(s) && i < |s| && (0 < i ==> s[i - 1].key != s[i].key) && x in Keys(s[..i])
    ensures Before(x, s[i].key)
  {
    hide Before;
    var y :| y in s[..i] && y.key == x;
    var m := IndexOf(s[..i], y);
    BeforeTotal(x, s[i].key);
    BeforeTotal(s[i - 1].key, s[i].key);
    assert m == i - 1 || !Before(s[i - 1].key, s[m].key);
  }

  lemma {:induction false} NoValues(s: seq<KV>, key: string)
    requires key !in Keys(s)
    ensures ValuesOf(s, key) == []
  {
    if s != [] {
      var n := |s| - 1;
      assert s == s[..n] + [s[n]];
      KeysConcat(s[..n], [s[n]], key);
      NoValues(s[..n], key);
    }
  }

  // ---------------------------------------------------------------- the programs

  /** The sequential program. */
  method Sequential(job: Job) returns (lines: seq<Line>)
    requires OrderInsensitive(job)
    ensures IsOutput(job, lines, Emitted(job, |job.files|))
  {
    var intermediate: seq<KV> := [];
    var m := 0;
    while m < |job.files|
      invariant m <= |job.files| && intermediate == Emitted(job, m)
    {
      intermediate := intermediate + job.mapf(job.files[m].name, job.files[m].content);
      m := m + 1;
    }
    var sorted := SortByKey(intermediate);
    lines := Emit(job, sorted);
    OutputPermute(job, lines, sorted, intermediate);
  }

  /** The files (m, q) with q < r hold what map task m emits for them; the others are as before. */
  ghost predicate Wrote(job: Job, before: map<(nat, nat), seq<KV>>, now: map<(nat, nat), seq<KV>>, m: nat, r: nat)
    requires job.nreduce > 0 && m < |job.files|
  {
    && (forall q: nat | q < r :: (m, q) in now && now[(m, q)] == Part(job, MapOutput(job, m), q))
    && (forall f | f in before && !(f.0 == m && f.1 < r) :: f in now && now[f] == before[f])
    && (forall f | f in now && !(f.0 == m && f.1 < r) :: f in before)
  }

  lemma WroteNext(job: Job, before: map<(nat, nat), seq<KV>>, now: map<(nat, nat), seq<KV>>, m: nat, r: nat)
    requires job.nreduce > 0 && m < |job.files| && Wrote(job, before, now, m, r)
    ensures Wrote(job, before, now[(m, r) := Part(job, MapOutput(job, m), r)], m, r + 1)
  {
    hide Part;
  }

  /** executeMapTask: one file for each reduce task, or an error if the input cannot be read. */
  method ExecuteMapTask(job: Job, disk: Disk, m: nat) returns (ok: bool)
    requires job.nreduce > 0 && m < |job.files| && disk.Serves(job)
    modifies disk`inter
    ensures ok <==> job.files[m].name in disk.inputs
    ensures ok ==> Wrote(job, old(disk.inter), disk.inter, m, job.nreduce)
    ensures !ok ==> disk.inter == old(disk.inter)
  {
    var name := job.files[m].name;
    if name !in disk.inputs {
      return false;
    }
    var kva := job.mapf(name, disk.inputs[name]);
    var buckets := FillBuckets(job, kva);
    hide Part;
    var r := 0;
    while r < job.nreduce
      invariant r <= job.nreduce && Wrote(job, old(disk.inter), disk.inter, m, r)
    {
      hide Wrote;
      WroteNext(job, old(disk.inter), disk.inter, m, r);
      disk.inter := disk.inter[(m, r) := buckets[r]];
      r := r + 1;
    }
    ok := true;
  }

  method FillBuckets(job: Job, kva: seq<KV>) returns (buckets: seq<seq<KV>>)
    requires job.nreduce > 0
    ensures |buckets| == job.nreduce && forall r | 0 <= r < job.nreduce :: buckets[r] == Part(job, kva, r)
  {
    buckets := seq(job.nreduce, _ => []);
    var i := 0;
    while i < |kva|
      invariant i <= |kva| && |buckets| == job.nreduce
      invariant forall r | 0 <= r < job.nreduce :: buckets[r] == Part(job, kva[..i], r)
    {
      var r := PartOf(job, kva[i].key);
      assert kva[..i + 1][..i] == kva[..i];
      buckets := buckets[r := buckets[r] + [kva[i]]];
      i := i + 1;
    }
    assert kva[..i] == kva;
  }

  /** The intermediate files hold what the map tasks emit. */
  ghost predicate Sound(job: Job, inter: map<(nat, nat), seq<KV>>)
    requires job.nreduce > 0
  {
    forall m: nat, r: nat | m < |job.files| && (m, r) in inter :: inter[(m, r)] == Part(job, MapOutput(job, m), r)
  }

  /** executeReduceTask: the output of part r, after which its inputs are removed; if an input is
      missing, nothing is written. */
  method ExecuteReduceTask(job: Job, disk: Disk, r: nat) returns (ok: bool)
    requires job.nreduce > 0 && r < job.nreduce && OrderInsensitive(job) && Sound(job, disk.inter)
    modifies disk`inter, disk`outs
    ensures ok <==> forall m: nat | m < |job.files| :: (m, r) in old(disk.inter)
    ensures ok ==>
              && r in disk.outs && disk.outs == old(disk.outs)[r := disk.outs[r]]
              && IsOutput(job, disk.outs[r], Part(job, Emitted(job, |job.files|), r))
              && disk.inter == old(disk.inter) - set m: nat | m < |job.files| :: (m, r)
    ensures !ok ==> disk.inter == old(disk.inter) && disk.outs == old(disk.outs)
  {
    var read, intermediate := ReadInputs(job, disk, r);
    if !read {
      return false;
    }
    var sorted := SortByKey(intermediate);
    var lines := Emit(job, sorted);
    OutputPermute(job, lines, sorted, intermediate);
    hide IsOutput, Part, Emitted, SortedByKey;
    disk.outs := disk.outs[r := lines];
    RemoveInputs(job, disk, r);
    ok := true;
  }

  method ReadInputs(job: Job, disk: Disk, r: nat) returns (ok: bool, intermediate: seq<KV>)
    requires job.nreduce > 0 && r < job.nreduce && Sound(job, disk.inter)
    ensures ok <==> forall m: nat | m < |job.files| :: (m, r) in disk.inter
    ensures ok ==> intermediate == Part(job, Emitted(job, |job.files|), r)
  {
    intermediate := [];
    var m := 0;
    while m < |job.files|
      invariant m <= |job.files| && intermediate == Part(job, Emitted(job, m), r)
      invariant forall k: nat | k < m :: (k, r) in disk.inter
    {
      if (m, r) !in disk.inter {
        return false, [];
      }
      PartConcat(job, Emitted(job, m), MapOutput(job, m), r);
      intermediate := intermediate + disk.inter[(m, r)];
      m := m + 1;
    }
    ok := true;
  }

  method RemoveInputs(job: Job, disk: Disk, r: nat)
    modifies disk`inter
    ensures disk.inter == old(disk.inter) - set m: nat | m < |job.files| :: (m, r)
  {
    var m := 0;
    while m < |job.files|
      invariant m <= |job.files|
      invariant disk.inter == old(disk.inter) - set k: nat | k < m :: (k, r)
    {
      disk.inter := disk.inter - {(m, r)};
      m := m + 1;
    }
  }
}
