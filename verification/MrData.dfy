/** What a MapReduce job computes (src/mr/worker.go, src/main/mrsequential.go): the output lines
    of a set of key/value pairs, and how the outputs of the parts make up that of the whole. */
module MrData {

  datatype KV = KV(key: string, value: string)

  datatype Line = Line(key: string, result: string)

  /** mapf and reducef are taken to be deterministic functions and hash stands for ihash. */
  datatype Job = Job(
    files: seq<File>,
    mapf: (string, string) -> seq<KV>,
    reducef: (string, seq<string>) -> string,
    hash: string -> nat,
    nreduce: nat)

  datatype File = File(name: string, content: string)

  /** reducef does not care in which order it is given the values of a key. */
  ghost predicate OrderInsensitive(job: Job) {
    forall key: string, a: seq<string>, b: seq<string> | multiset(a) == multiset(b) ::
        job.reducef(key, a) == job.reducef(key, b)
  }

  // ---------------------------------------------------------------- the order of keys

  /** The order of strings. */
  predicate Before(a: string, b: string) {
    b != [] && (a == [] || a[0] < b[0] || (a[0] == b[0] && Before(a[1..], b[1..])))
  }

  lemma {:induction false} BeforeIrreflexive(a: string)
    ensures !Before(a, a)
  {
    if a != [] {
      BeforeIrreflexive(a[1..]);
    }
  }

  lemma {:induction false} BeforeTransitive(a: string, b: string, c: string)
    requires Before(a, b) && Before(b, c)
    ensures Before(a, c)
  {
    if a != [] && a[0] == b[0] == c[0] {
      BeforeTransitive(a[1..], b[1..], c[1..]);
    }
  }

  lemma {:induction false} BeforeTotal(a: string, b: string)
    ensures Before(a, b) || a == b || Before(b, a)
  {
    if a != [] && b != [] && a[0] == b[0] {
      BeforeTotal(a[1..], b[1..]);
      assert a == [a[0]] + a[1..] && b == [b[0]] + b[1..];
    }
  }

  ghost predicate SortedByKey(s: seq<KV>) {
    forall i, j | 0 <= i < j < |s| :: !Before(s[j].key, s[i].key)
  }

  // ---------------------------------------------------------------- pairs

  function Keys(s: seq<KV>): set<string> {
    set x | x in s :: x.key
  }

  /** The values of one key, in order. */
  function ValuesOf(s: seq<KV>, key: string): seq<string> {
    if s == [] then []
    else
      var n := |s| - 1;
      ValuesOf(s[..n], key) + if s[n].key == key then [s[n].value] else []
  }

  function PartOf(job: Job, key: string): nat
    requires job.nreduce > 0
  {
    job.hash(key) % job.nreduce
  }

  /** The pairs that go to reduce task r, in order. */
  function Part(job: Job, s: seq<KV>, r: nat): seq<KV>
    requires job.nreduce > 0
  {
    if s == [] then []
    else
      var n := |s| - 1;
      Part(job, s[..n], r) + if PartOf(job, s[n].key) == r then [s[n]] else []
  }

  /** Everything the map tasks m < k emit. */
  function Emitted(job: Job, k: nat): seq<KV>
    requires k <= |job.files|
  {
    if k == 0 then []
    else Emitted(job, k - 1) + MapOutput(job, k - 1)
  }

  function MapOutput(job: Job, m: nat): seq<KV>
    requires m < |job.files|
  {
    job.mapf(job.files[m].name, job.files[m].content)
  }

  lemma {:induction false} PartConcat(job: Job, a: seq<KV>, b: seq<KV>, r: nat)
    requires job.nreduce > 0
    ensures Part(job, a + b, r) == Part(job, a, r) + Part(job, b, r)
  {
    if b == [] {
      assert a + b == a;
    } else {
      var n := |b| - 1;
      PartConcat(job, a, b[..n], r);
      assert (a + b)[..|a + b| - 1] == a + b[..n];
    }
  }

  lemma {:induction false} ValuesConcat(a: seq<KV>, b: seq<KV>, key: string)
    ensures ValuesOf(a + b, key) == ValuesOf(a, key) + ValuesOf(b, key)
  {
    if b == [] {
      assert a + b == a;
    } else {
      var n := |b| - 1;
      ValuesConcat(a, b[..n], key);
      assert (a + b)[..|a + b| - 1] == a + b[..n];
    }
  }

  lemma {:induction false} PartKeys(job: Job, s: seq<KV>, r: nat, key: string)
    requires job.nreduce > 0
    ensures key in Keys(Part(job, s, r)) <==> key in Keys(s) && PartOf(job, key) == r
  {
    if s != [] {
      var n := |s| - 1;
      PartKeys(job, s[..n], r, key);
      KeysConcat(s[..n], [s[n]], key);
      KeysConcat(Part(job, s[..n], r), [s[n]], key);
      assert s == s[..n] + [s[n]];
    }
  }

  lemma ValuesSnoc(s: seq<KV>, x: KV, key: string)
    ensures ValuesOf(s + [x], key) == if x.key == key then ValuesOf(s, key) + [x.value] else ValuesOf(s, key)
  {
    assert (s + [x])[..|s|] == s;
  }

  lemma {:induction false} PartValues(job: Job, s: seq<KV>, r: nat, key: string)
    requires job.nreduce > 0 && PartOf(job, key) == r
    ensures ValuesOf(Part(job, s, r), key) == ValuesOf(s, key)
  {
    if s != [] {
      var n := |s| - 1;
      PartValues(job, s[..n], r, key);
      hide ValuesOf;
      assert s == s[..n] + [s[n]];
      ValuesSnoc(s[..n], s[n], key);
      var front := Part(job, s[..n], r);
      ValuesSnoc(front, s[n], key);
      assert Part(job, s, r) == if PartOf(job, s[n].key) == r then front + [s[n]] else front;
    }
  }

  lemma KeysConcat(a: seq<KV>, b: seq<KV>, key: string)
    ensures key in Keys(a + b) <==> key in Keys(a) || key in Keys(b)
    ensures |b| == 1 ==> (key in Keys(b) <==> b[0].key == key)
  {
    if key in Keys(a) {
      var x :| x in a && x.key == key;
      assert x in a + b;
    }
    if key in Keys(b) {
      var x :| x in b && x.key == key;
      assert x in a + b;
    }
    if |b| == 1 {
      assert b[0] in b;
    }
  }

  lemma WithoutOne(b: seq<KV>, i: nat, key: string)
    requires i < |b|
    ensures multiset(b[..i] + b[i + 1..]) + multiset{b[i]} == multiset(b)
    ensures multiset(ValuesOf(b, key)) ==
              multiset(ValuesOf(b[..i] + b[i + 1..], key))
              + if b[i].key == key then multiset{b[i].value} else multiset{}
  {
    var x, front, back := b[i], b[..i], b[i + 1..];
    assert b == front + ([x] + back);
    ValuesConcat(front, back, key);
    ValuesConcat(front, [x] + back, key);
    ValuesConcat([x], back, key);
    assert ValuesOf([x], key) == if x.key == key then [x.value] else [];
  }

  /** Reordering pairs reorders the values of each key. */
  lemma {:induction false} ValuesPermute(a: seq<KV>, b: seq<KV>, key: string)
    requires multiset(a) == multiset(b)
    ensures multiset(ValuesOf(a, key)) == multiset(ValuesOf(b, key))
    decreases |a|
  {
    if a == [] {
      assert |multiset(b)| == 0;
    } else {
      hide ValuesOf;
      var n := |a| - 1;
      var x := a[n];
      assert x in multiset(a);
      var i := IndexOf(b, x);
      WithoutOne(a, n, key);
      WithoutOne(b, i, key);
      assert a[..n] + a[n + 1..] == a[..n];
      Cancel(multiset(a[..n]), multiset(b[..i] + b[i + 1..]), x);
      ValuesPermute(a[..n], b[..i] + b[i + 1..], key);
    }
  }

  lemma IndexOf<T>(s: seq<T>, x: T) returns (i: nat)
    requires x in multiset(s)
    ensures i < |s| && s[i] == x
  {
    i :| 0 <= i < |s| && s[i] == x;
  }

  lemma Cancel<T>(a: multiset<T>, b: multiset<T>, x: T)
    requires a + multiset{x} == b + multiset{x}
    ensures a == b
  {
    assert a == (a + multiset{x}) - multiset{x};
    assert b == (b + multiset{x}) - multiset{x};
  }

  lemma SameKeys(a: seq<KV>, b: seq<KV>)
    requires multiset(a) == multiset(b)
    ensures Keys(a) == Keys(b)
  {
    forall x ensures x in a <==> x in b {
      assert x in multiset(a) <==> x in multiset(b);
    }
  }

  // ---------------------------------------------------------------- output

  function LineKeys(lines: seq<Line>): set<string> {
    set x | x in lines :: x.key
  }

  /** One line for each key, in order, with what reducef makes of the key's values. */
  ghost predicate IsOutput(job: Job, lines: seq<Line>, data: seq<KV>) {
    && (forall i, j | 0 <= i < j < |lines| :: Before(lines[i].key, lines[j].key))
    && LineKeys(lines) == Keys(data)
    && forall i | 0 <= i < |lines| :: lines[i].result == job.reducef(lines[i].key, ValuesOf(data, lines[i].key))
  }

  /** Ordered lines are determined by their keys and what they say of each. */
  lemma {:induction false} LinesUnique(a: seq<Line>, b: seq<Line>)
    requires forall i, j | 0 <= i < j < |a| :: Before(a[i].key, a[j].key)
    requires forall i, j | 0 <= i < j < |b| :: Before(b[i].key, b[j].key)
    requires LineKeys(a) == LineKeys(b)
    requires forall x, y | x in a && y in b && x.key == y.key :: x == y
    ensures a == b
    decreases |a|
  {
    if a == [] || b == [] {
      SomeLine(a);
      SomeLine(b);
    } else {
      FirstKeys(a, b);
      assert a[0] in a && b[0] in b;
      TailKeys(a);
      TailKeys(b);
      LinesUnique(a[1..], b[1..]);
      assert a == [a[0]] + a[1..] && b == [b[0]] + b[1..];
    }
  }

  lemma SomeLine(a: seq<Line>)
    ensures a != [] <==> LineKeys(a) != {}
  {
    if a != [] {
      assert a[0] in a && a[0].key in LineKeys(a);
    }
  }

  lemma FirstKeys(a: seq<Line>, b: seq<Line>)
    requires a != [] && b != [] && LineKeys(a) == LineKeys(b)
    requires forall i, j | 0 <= i < j < |a| :: Before(a[i].key, a[j].key)
    requires forall i, j | 0 <= i < j < |b| :: Before(b[i].key, b[j].key)
    ensures a[0].key == b[0].key
  {
    assert a[0] in a && b[0] in b;
    assert a[0].key in LineKeys(b) && b[0].key in LineKeys(a);
    var y :| y in b && y.key == a[0].key;
    var x :| x in a && x.key == b[0].key;
    var j :| 0 <= j < |b| && b[j] == y;
    var i :| 0 <= i < |a| && a[i] == x;
    if i > 0 && j > 0 {
      BeforeTransitive(a[0].key, a[i].key, b[j].key);
      BeforeIrreflexive(a[0].key);
    }
  }

  lemma TailKeys(a: seq<Line>)
    requires a != [] && forall i, j | 0 <= i < j < |a| :: Before(a[i].key, a[j].key)
    ensures LineKeys(a[1..]) == LineKeys(a) - {a[0].key}
  {
    BeforeIrreflexive(a[0].key);
    forall key
      ensures key in LineKeys(a[1..]) <==> key in LineKeys(a) && key != a[0].key
    {
      if key in LineKeys(a[1..]) {
        var x :| x in a[1..] && x.key == key;
        var i :| 0 <= i < |a[1..]| && a[1..][i] == x;
        assert a[i + 1] == x && x in a;
      }
      if key in LineKeys(a) && key != a[0].key {
        var x :| x in a && x.key == key;
        var i :| 0 <= i < |a| && a[i] == x;
        assert a[1..][i - 1] == x && x in a[1..];
      }
    }
  }

  /** The output of pairs in one order is their output in any order. */
  lemma OutputPermute(job: Job, lines: seq<Line>, s: seq<KV>, t: seq<KV>)
    requires OrderInsensitive(job) && IsOutput(job, lines, s) && multiset(s) == multiset(t)
    ensures IsOutput(job, lines, t)
  {
    hide ValuesOf;
    SameKeys(s, t);
    forall i | 0 <= i < |lines|
      ensures lines[i].result == job.reducef(lines[i].key, ValuesOf(t, lines[i].key))
    {
      ValuesPermute(s, t, lines[i].key);
    }
  }

  /** The output depends only on which pairs there are. */
  lemma OutputUnique(job: Job, a: seq<Line>, b: seq<Line>, s: seq<KV>, t: seq<KV>)
    requires OrderInsensitive(job) && IsOutput(job, a, s) && IsOutput(job, b, t) && multiset(s) == multiset(t)
    ensures a == b
  {
    OutputPermute(job, a, s, t);
    LinesUnique(a, b);
  }

  /** The lines of the keys of part r. */
  function LinesOf(job: Job, lines: seq<Line>, r: nat): seq<Line>
    requires job.nreduce > 0
  {
    if lines == [] then []
    else
      var n := |lines| - 1;
      LinesOf(job, lines[..n], r) + if PartOf(job, lines[n].key) == r then [lines[n]] else []
  }

  lemma {:induction false} LinesOfSound(job: Job, lines: seq<Line>, r: nat)
    requires job.nreduce > 0
    requires forall i, j | 0 <= i < j < |lines| :: Before(lines[i].key, lines[j].key)
    ensures var part := LinesOf(job, lines, r);
            && (forall x :: x in part <==> x in lines && PartOf(job, x.key) == r)
            && forall i, j | 0 <= i < j < |part| :: Before(part[i].key, part[j].key)
  {
    if lines != [] {
      var n := |lines| - 1;
      LinesOfSound(job, lines[..n], r);
      var front := LinesOf(job, lines[..n], r);
      assert lines == lines[..n] + [lines[n]];
      forall i | 0 <= i < |front|
        ensures Before(front[i].key, lines[n].key)
      {
        assert front[i] in front;
        var k :| 0 <= k < n && lines[..n][k] == front[i];
      }
    }
  }

  /** A part's own output is that part of the whole output. */
  lemma PartOutput(job: Job, whole: seq<Line>, part: seq<Line>, data: seq<KV>, r: nat)
    requires job.nreduce > 0 && IsOutput(job, whole, data) && IsOutput(job, part, Part(job, data, r))
    ensures part == LinesOf(job, whole, r)
  {
    var mine := LinesOf(job, whole, r);
    LinesOfSound(job, whole, r);
    forall key
      ensures key in LineKeys(mine) <==> key in LineKeys(part)
    {
      PartKeys(job, data, r, key);
      if key in LineKeys(part) {
        assert key in LineKeys(whole);
        var x :| x in whole && x.key == key;
        assert x in mine;
      }
      if key in LineKeys(mine) {
        var x :| x in mine && x.key == key;
        assert key in LineKeys(whole);
      }
    }
    forall x, y | x in part && y in mine && x.key == y.key
      ensures x == y
    {
      PartValues(job, data, r, x.key);
      assert y in whole;
    }
    LinesUnique(part, mine);
  }
}
