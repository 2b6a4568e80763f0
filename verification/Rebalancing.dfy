/** The rebalancing of src/shardkv1/shardcfg/shardcfg.go as a function of the assignment and the
    groups, and what it promises: a balanced assignment that moves as few shards as possible. */
module Rebalancing {

  // ---------------------------------------------------------------- counting

  /** The number of shards that both assignments give to g. */
  function Both(a: seq<int>, b: seq<int>, g: int): nat
    requires |a| == |b|
  {
    if a == [] then 0
    else
      var n := |a| - 1;
      Both(a[..n], b[..n], g) + if a[n] == g && b[n] == g then 1 else 0
  }

  function Count(s: seq<int>, g: int): nat {
    Both(s, s, g)
  }

  /** The number of shards on which two assignments agree. */
  function Agree(a: seq<int>, b: seq<int>): nat
    requires |a| == |b|
  {
    if a == [] then 0
    else
      var n := |a| - 1;
      Agree(a[..n], b[..n]) + if a[n] == b[n] then 1 else 0
  }

  function One(b: bool): nat { if b then 1 else 0 }

  lemma {:induction false} BothUpdate(a: seq<int>, b: seq<int>, p: nat, x: int, y: int, g: int)
    requires p < |a| == |b|
    ensures Both(a[p := x], b[p := y], g) + One(a[p] == g && b[p] == g) == Both(a, b, g) + One(x == g && y == g)
  {
    var n := |a| - 1;
    if p < n {
      BothUpdate(a[..n], b[..n], p, x, y, g);
      assert a[p := x][..n] == a[..n][p := x] && b[p := y][..n] == b[..n][p := y];
    } else {
      assert a[p := x][..n] == a[..n] && b[p := y][..n] == b[..n];
    }
  }

  lemma {:induction false} AgreeUpdate(a: seq<int>, b: seq<int>, p: nat, y: int)
    requires p < |a| == |b|
    ensures Agree(a, b[p := y]) + One(a[p] == b[p]) == Agree(a, b) + One(a[p] == y)
  {
    var n := |a| - 1;
    if p < n {
      AgreeUpdate(a[..n], b[..n], p, y);
      assert b[p := y][..n] == b[..n][p := y];
    } else {
      assert b[p := y][..n] == b[..n];
    }
  }

  /** Moving shard p to y. */
  lemma CountMove(a: seq<int>, s: seq<int>, p: nat, y: int, g: int)
    requires p < |a| == |s|
    ensures Count(s[p := y], g) + One(s[p] == g) == Count(s, g) + One(y == g)
    ensures Both(a, s[p := y], g) + One(a[p] == g && s[p] == g) == Both(a, s, g) + One(a[p] == g && y == g)
  {
    BothUpdate(s, s, p, y, y, g);
    BothUpdate(a, s, p, a[p], y, g);
    assert a[p := a[p]] == a;
  }

  lemma {:induction false} BothBounds(a: seq<int>, b: seq<int>, g: int)
    requires |a| == |b|
    ensures Both(a, b, g) <= Count(a, g) && Both(a, b, g) <= Count(b, g)
    ensures Both(a, b, g) == Count(b, g) ==> forall p | 0 <= p < |b| && b[p] == g :: a[p] == g
    ensures Both(a, b, g) == Count(a, g) ==> forall p | 0 <= p < |a| && a[p] == g :: b[p] == g
  {
    if a != [] {
      var n := |a| - 1;
      BothBounds(a[..n], b[..n], g);
      forall p | 0 <= p < n ensures a[p] == a[..n][p] && b[p] == b[..n][p] {}
    }
  }

  lemma {:induction false} BothAll(a: seq<int>, b: seq<int>, g: int)
    requires |a| == |b| && forall p | 0 <= p < |a| && a[p] == g :: b[p] == g
    ensures Both(a, b, g) == Count(a, g)
  {
    if a != [] {
      var n := |a| - 1;
      forall p | 0 <= p < n && a[..n][p] == g ensures b[..n][p] == g { assert a[p] == a[..n][p]; }
      BothAll(a[..n], b[..n], g);
    }
  }

  lemma {:induction false} CountRange(s: seq<int>, g: int)
    ensures Count(s, g) <= |s|
    ensures Count(s, g) > 0 ==> g in s
  {
    if s != [] {
      CountRange(s[..|s| - 1], g);
    }
  }

  // ---------------------------------------------------------------- sums over the groups

  function Sum(l: seq<int>, f: int -> int): int {
    if l == [] then 0 else f(l[0]) + Sum(l[1..], f)
  }

  ghost predicate Distinct(l: seq<int>) {
    forall i, j | 0 <= i < j < |l| :: l[i] != l[j]
  }

  lemma {:induction false} SumOrder(l: seq<int>, f: int -> int, h: int -> int)
    requires forall g | g in l :: f(g) <= h(g)
    ensures Sum(l, f) <= Sum(l, h)
    ensures (exists g | g in l :: f(g) < h(g)) ==> Sum(l, f) < Sum(l, h)
  {
    if l != [] {
      var x := l[0];
      assert x in l && f(x) <= h(x);
      SumOrder(l[1..], f, h);
      if exists g | g in l :: f(g) < h(g) {
        var g :| g in l && f(g) < h(g);
        assert g == l[0] || g in l[1..];
      }
    }
  }

  /** Adding one at x. */
  lemma {:induction false} SumBump(l: seq<int>, f: int -> int, h: int -> int, x: int)
    requires Distinct(l) && forall g | g in l :: h(g) == f(g) + One(g == x)
    ensures Sum(l, h) == Sum(l, f) + One(x in l)
  {
    if l != [] {
      SumBump(l[1..], f, h, x);
      assert x in l <==> x == l[0] || x in l[1..];
      assert x in l[1..] ==> x != l[0];
    }
  }

  lemma {:induction false} SumSplit(l: seq<int>, f: int -> int, h: int -> int, k: int -> int, m: int -> int)
    requires forall g | g in l :: f(g) - h(g) <= k(g) - m(g)
    ensures Sum(l, f) - Sum(l, h) <= Sum(l, k) - Sum(l, m)
  {
    if l != [] {
      var x := l[0];
      assert x in l && f(x) - h(x) <= k(x) - m(x);
      SumSplit(l[1..], f, h, k, m);
    }
  }

  function BothOf(a: seq<int>, b: seq<int>): int -> int
    requires |a| == |b|
  {
    g => Both(a, b, g)
  }

  lemma {:induction false} SumBoth(l: seq<int>, a: seq<int>, b: seq<int>)
    requires Distinct(l) && |a| == |b| && forall p | 0 <= p < |b| :: b[p] in l
    ensures Sum(l, BothOf(a, b)) == Agree(a, b)
  {
    if a == [] {
      SumZero(l, BothOf(a, b));
    } else {
      var n := |a| - 1;
      SumBoth(l, a[..n], b[..n]);
      var f, h := BothOf(a[..n], b[..n]), BothOf(a, b);
      if a[n] == b[n] {
        SumBump(l, f, h, b[n]);
      } else {
        SumOrder(l, f, h);
        SumOrder(l, h, f);
      }
    }
  }

  lemma {:induction false} SumZero(l: seq<int>, f: int -> int)
    requires forall g | g in l :: f(g) == 0
    ensures Sum(l, f) == 0
  {
    if l != [] {
      var x := l[0];
      assert x in l && f(x) == 0;
      SumZero(l[1..], f);
    }
  }

  lemma {:induction false} AgreeSelf(s: seq<int>)
    ensures Agree(s, s) == |s|
  {
    if s != [] {
      AgreeSelf(s[..|s| - 1]);
    }
  }

  lemma Member<T>(G: set<T>) returns (g: T)
    requires G != {}
    ensures g in G
  {
    g :| g in G;
  }

  lemma {:induction false} Listing(G: set<int>) returns (l: seq<int>)
    ensures Distinct(l) && forall g :: g in l <==> g in G
  {
    if G == {} {
      l := [];
    } else {
      var g := Member(G);
      var rest := Listing(G - {g});
      l := rest + [g];
      forall i, j | 0 <= i < j < |l| ensures l[i] != l[j] { assert l[i] in rest; }
    }
  }

  // ---------------------------------------------------------------- most and least loaded

  /** The group with the fewest shards, the smallest name first. */
  ghost predicate IsLeast(s: seq<int>, G: set<int>, g: int) {
    g in G && forall h | h in G && h != g :: Count(s, g) < Count(s, h) || (Count(s, g) == Count(s, h) && g < h)
  }

  /** The group with the most shards, the smallest name first. */
  ghost predicate IsMost(s: seq<int>, G: set<int>, g: int) {
    g in G && forall h | h in G && h != g :: Count(s, g) > Count(s, h) || (Count(s, g) == Count(s, h) && g < h)
  }

  lemma {:induction false} LeastExists(s: seq<int>, G: set<int>)
    requires G != {}
    ensures exists g :: IsLeast(s, G, g)
    decreases |G|
  {
    var x := Member(G);
    var rest := G - {x};
    if rest == {} {
      assert G == {x} + rest;
      assert IsLeast(s, G, x);
    } else {
      LeastExists(s, rest);
      var g :| IsLeast(s, rest, g);
      if Count(s, x) < Count(s, g) || (Count(s, x) == Count(s, g) && x < g) {
        assert IsLeast(s, G, x);
      } else {
        assert IsLeast(s, G, g);
      }
    }
  }

  lemma {:induction false} MostExists(s: seq<int>, G: set<int>)
    requires G != {}
    ensures exists g :: IsMost(s, G, g)
    decreases |G|
  {
    var x := Member(G);
    var rest := G - {x};
    if rest == {} {
      assert G == {x} + rest;
      assert IsMost(s, G, x);
    } else {
      MostExists(s, rest);
      var g :| IsMost(s, rest, g);
      if Count(s, x) > Count(s, g) || (Count(s, x) == Count(s, g) && x < g) {
        assert IsMost(s, G, x);
      } else {
        assert IsMost(s, G, g);
      }
    }
  }

  ghost function Least(s: seq<int>, G: set<int>): (g: int)
    requires G != {}
    ensures IsLeast(s, G, g)
  {
    LeastExists(s, G);
    var g :| IsLeast(s, G, g);
    g
  }

  ghost function Most(s: seq<int>, G: set<int>): (g: int)
    requires G != {}
    ensures IsMost(s, G, g)
  {
    MostExists(s, G);
    var g :| IsMost(s, G, g);
    g
  }

  function First(s: seq<int>, g: int): (p: nat)
    requires g in s
    ensures p < |s| && s[p] == g && forall k | 0 <= k < p :: s[k] != g
  {
    if s[0] == g then 0 else 1 + First(s[1..], g)
  }

  /** Every choice is determined: nobody has more shards than the group that gives and nobody fewer
      than the group that receives, of several such groups it is the one with the smallest name,
      and the shard that moves is the giver's first. */
  lemma ChoicesDetermined(s: seq<int>, G: set<int>)
    requires G != {}
    ensures Most(s, G) in G && Least(s, G) in G
    ensures forall h | h in G :: Count(s, h) <= Count(s, Most(s, G)) && Count(s, Least(s, G)) <= Count(s, h)
    ensures forall h | h in G && Count(s, h) == Count(s, Most(s, G)) :: Most(s, G) <= h
    ensures forall h | h in G && Count(s, h) == Count(s, Least(s, G)) :: Least(s, G) <= h
    ensures forall k: nat | k < |s| && s[k] == Most(s, G) :: First(s, Most(s, G)) <= k
  {
    hide Both;
  }

  // ---------------------------------------------------------------- the function

  ghost predicate Assigned(s: seq<int>, G: set<int>) {
    forall p | 0 <= p < |s| :: s[p] in G
  }

  ghost predicate Balanced(s: seq<int>, G: set<int>) {
    forall g, h | g in G && h in G :: Count(s, g) <= Count(s, h) + 1
  }

  /** A group that has more shards than at first was the least loaded when it got the last one. */
  ghost predicate GainedLow(s0: seq<int>, s: seq<int>, G: set<int>) {
    forall h, g | h in G && g in G && Count(s, h) > Count(s0, h) :: Count(s, h) <= Count(s, g) + 1
  }

  /** What holds while shards from outside the groups are being assigned. */
  ghost predicate Filling(s0: seq<int>, s: seq<int>, G: set<int>, k: nat) {
    && |s| == |s0| && k <= |s|
    && (forall p | 0 <= p < k :: s[p] in G)
    && (forall p | k <= p < |s| :: s[p] == s0[p])
    && (forall p | 0 <= p < |s| && s0[p] in G :: s[p] == s0[p])
    && GainedLow(s0, s, G)
  }

  /** What holds while shards are moved from the most to the least loaded group: no group both
      gained and lost, the groups that gained are low, those that lost are high. */
  ghost predicate Leveling(s0: seq<int>, s: seq<int>, G: set<int>) {
    && |s| == |s0| && Assigned(s, G)
    && (forall g | g in G :: Both(s0, s, g) == Count(s0, g) || Both(s0, s, g) == Count(s, g))
    && GainedLow(s0, s, G)
    && (forall g, h | g in G && h in G && Count(s, g) < Count(s0, g) :: Count(s, h) <= Count(s, g) + 1)
    && (forall g, h | g in G && h in G && Count(s, g) < Count(s0, g) && Count(s, h) > Count(s0, h) ::
          Count(s, h) <= Count(s, g))
  }

  ghost function Fill(s0: seq<int>, s: seq<int>, G: set<int>, k: nat): (r: seq<int>)
    requires G != {} && Filling(s0, s, G, k)
    ensures |r| == |s0|
    decreases |s0| - k
  {
    if k == |s| then s
    else if s[k] in G then Fill(s0, s, G, k + 1)
    else
      FillStep(s0, s, G, k);
      Fill(s0, s[k := Least(s, G)], G, k + 1)
  }

  ghost function Level(s0: seq<int>, s: seq<int>, G: set<int>): (r: seq<int>)
    requires G != {} && Leveling(s0, s, G)
    ensures |r| == |s0|
    decreases Agree(s0, s)
  {
    var mg, lg := Most(s, G), Least(s, G);
    if Count(s, mg) < Count(s, lg) + 2 then s
    else
      LevelStep(s0, s, G);
      Level(s0, s[First(s, mg) := lg], G)
  }

  lemma FillStep(s0: seq<int>, s: seq<int>, G: set<int>, k: nat)
    requires G != {} && Filling(s0, s, G, k) && k < |s| && s[k] !in G
    ensures Filling(s0, s[k := Least(s, G)], G, k + 1)
  {
    var lg := Least(s, G);
    forall g ensures Count(s[k := lg], g) + One(s[k] == g) == Count(s, g) + One(lg == g) {
      CountMove(s0, s, k, lg, g);
    }
  }

  /** The most loaded group never gained a shard, nor did the least loaded ever lose one. */
  lemma GiverNeverGained(s0: seq<int>, s: seq<int>, G: set<int>)
    requires G != {} && Leveling(s0, s, G) && Count(s, Most(s, G)) >= Count(s, Least(s, G)) + 2
    ensures var (mg, lg) := (Most(s, G), Least(s, G));
            && Count(s, mg) <= Count(s0, mg) && Both(s0, s, mg) == Count(s, mg)
            && Count(s, lg) >= Count(s0, lg) && Both(s0, s, lg) == Count(s0, lg)
            && mg in s && forall p | 0 <= p < |s| && s[p] == mg :: s0[p] == mg
  {
    hide Both;
    var mg, lg := Most(s, G), Least(s, G);
    CountRange(s, mg);
    BothBounds(s0, s, mg);
    BothBounds(s0, s, lg);
  }

  /** The shard that is moved still was where it was at first, so it moves for the first time. */
  lemma LevelStep(s0: seq<int>, s: seq<int>, G: set<int>)
    requires G != {} && Leveling(s0, s, G) && Count(s, Most(s, G)) >= Count(s, Least(s, G)) + 2
    ensures Most(s, G) in s
    ensures var (p, lg) := (First(s, Most(s, G)), Least(s, G));
            && s0[p] == s[p] && s[p] != lg
            && Leveling(s0, s[p := lg], G) && Agree(s0, s[p := lg]) == Agree(s0, s) - 1
  {
    hide Both, Agree;
    var mg, lg := Most(s, G), Least(s, G);
    GiverNeverGained(s0, s, G);
    var p := First(s, mg);
    var t := s[p := lg];
    AgreeUpdate(s0, s, p, lg);
    forall g
      ensures Moved(s0, s, t, mg, lg, g)
    {
      CountMove(s0, s, p, lg, g);
    }
    Leveled(s0, s, t, G, mg, lg);
  }

  ghost predicate Moved(s0: seq<int>, s: seq<int>, t: seq<int>, mg: int, lg: int, g: int)
    requires |s0| == |s| == |t|
  {
    && Count(t, g) + One(mg == g) == Count(s, g) + One(lg == g)
    && Both(s0, t, g) + One(mg == g) == Both(s0, s, g)
  }

  lemma Leveled(s0: seq<int>, s: seq<int>, t: seq<int>, G: set<int>, mg: int, lg: int)
    requires Leveling(s0, s, G) && |t| == |s| == |s0| && Assigned(t, G) && IsMost(s, G, mg) && IsLeast(s, G, lg)
    requires Count(s, mg) >= Count(s, lg) + 2
    requires Count(s, mg) <= Count(s0, mg) && Both(s0, s, mg) == Count(s, mg)
    requires Count(s, lg) >= Count(s0, lg) && Both(s0, s, lg) == Count(s0, lg)
    requires forall g :: Moved(s0, s, t, mg, lg, g)
    ensures Leveling(s0, t, G)
  {
    hide Both, Count, Moved, Leveling, IsMost, IsLeast;
    forall g | g in G
      ensures Both(s0, t, g) == Count(s0, g) || Both(s0, t, g) == Count(t, g)
    {
      LeveledBoth(s0, s, t, G, mg, lg, g);
    }
    forall g, h | g in G && h in G
      ensures LeveledTo(s0, t, g, h)
    {
      LeveledPair(s0, s, t, G, mg, lg, g, h);
    }
    LevelingPairs(s0, t, G);
  }

  /** The pairwise part of Leveling. */
  ghost predicate LeveledTo(s0: seq<int>, s: seq<int>, g: int, h: int) {
    && (Count(s, h) > Count(s0, h) ==> Count(s, h) <= Count(s, g) + 1)
    && (Count(s, g) < Count(s0, g) ==> Count(s, h) <= Count(s, g) + 1)
    && (Count(s, g) < Count(s0, g) && Count(s, h) > Count(s0, h) ==> Count(s, h) <= Count(s, g))
  }

  lemma LevelingPairs(s0: seq<int>, s: seq<int>, G: set<int>)
    requires |s| == |s0| && Assigned(s, G)
    requires forall g | g in G :: Both(s0, s, g) == Count(s0, g) || Both(s0, s, g) == Count(s, g)
    requires forall g, h | g in G && h in G :: LeveledTo(s0, s, g, h)
    ensures Leveling(s0, s, G)
  {
    hide Both, Count;
    forall h, g | h in G && g in G && Count(s, h) > Count(s0, h)
      ensures Count(s, h) <= Count(s, g) + 1
    {
      assert LeveledTo(s0, s, g, h);
    }
    forall g, h | g in G && h in G && Count(s, g) < Count(s0, g)
      ensures Count(s, h) <= Count(s, g) + 1
      ensures Count(s, h) > Count(s0, h) ==> Count(s, h) <= Count(s, g)
    {
      assert LeveledTo(s0, s, g, h);
    }
  }

  lemma PairLeveled(s0: seq<int>, s: seq<int>, G: set<int>, g: int, h: int)
    requires Leveling(s0, s, G) && g in G && h in G
    ensures LeveledTo(s0, s, g, h)
    ensures Both(s0, s, g) == Count(s0, g) || Both(s0, s, g) == Count(s, g)
  {
    hide Both, Count;
  }

  lemma Extremes(s: seq<int>, G: set<int>, mg: int, lg: int, g: int)
    requires IsMost(s, G, mg) && IsLeast(s, G, lg) && g in G
    ensures Count(s, lg) <= Count(s, g) <= Count(s, mg)
    ensures mg in G && lg in G
  {
  }

  lemma LeveledBoth(s0: seq<int>, s: seq<int>, t: seq<int>, G: set<int>, mg: int, lg: int, g: int)
    requires Leveling(s0, s, G) && |t| == |s| == |s0| && g in G && mg != lg && Moved(s0, s, t, mg, lg, g)
    requires Both(s0, s, mg) == Count(s, mg) && Both(s0, s, lg) == Count(s0, lg)
    ensures Both(s0, t, g) == Count(s0, g) || Both(s0, t, g) == Count(t, g)
  {
    hide Both, Count, Leveling;
    PairLeveled(s0, s, G, g, g);
  }

  lemma LeveledPair(s0: seq<int>, s: seq<int>, t: seq<int>, G: set<int>, mg: int, lg: int, g: int, h: int)
    requires Leveling(s0, s, G) && |t| == |s| == |s0| && IsMost(s, G, mg) && IsLeast(s, G, lg) && g in G && h in G
    requires Count(s, mg) >= Count(s, lg) + 2
    requires Count(s, mg) <= Count(s0, mg) && Count(s, lg) >= Count(s0, lg)
    requires Moved(s0, s, t, mg, lg, g) && Moved(s0, s, t, mg, lg, h)
    ensures LeveledTo(s0, t, g, h)
  {
    hide Both, Count, Leveling, IsMost, IsLeast;
    Extremes(s, G, mg, lg, g);
    Extremes(s, G, mg, lg, h);
    PairLeveled(s0, s, G, g, h);
    PairLeveled(s0, s, G, lg, h);
    PairLeveled(s0, s, G, g, mg);
  }

  lemma FilledLevel(s0: seq<int>, s: seq<int>, G: set<int>)
    requires Filling(s0, s, G, |s0|)
    ensures Leveling(s0, s, G)
  {
    forall g | g in G
      ensures Both(s0, s, g) == Count(s0, g) && Count(s0, g) <= Count(s, g)
    {
      BothAll(s0, s, g);
      BothBounds(s0, s, g);
    }
  }

  lemma StartFilling(s0: seq<int>, G: set<int>)
    ensures Filling(s0, s0, G, 0)
  {
  }

  lemma {:induction false} FillFills(s0: seq<int>, s: seq<int>, G: set<int>, k: nat)
    requires G != {} && Filling(s0, s, G, k)
    ensures Filling(s0, Fill(s0, s, G, k), G, |s0|)
    decreases |s0| - k
  {
    hide GainedLow, Least;
    if k < |s| {
      if s[k] in G {
        FillFills(s0, s, G, k + 1);
      } else {
        FillStep(s0, s, G, k);
        FillFills(s0, s[k := Least(s, G)], G, k + 1);
      }
    }
  }

  lemma {:induction false} LevelLevels(s0: seq<int>, s: seq<int>, G: set<int>)
    requires G != {} && Leveling(s0, s, G)
    ensures Leveling(s0, Level(s0, s, G), G) && Balanced(Level(s0, s, G), G)
    decreases Agree(s0, s)
  {
    hide Leveling, Both;
    var mg, lg := Most(s, G), Least(s, G);
    if Count(s, mg) < Count(s, lg) + 2 {
      forall g, h | g in G && h in G
        ensures Count(s, g) <= Count(s, h) + 1
      {
        Extremes(s, G, mg, lg, g);
        Extremes(s, G, mg, lg, h);
      }
    } else {
      LevelStep(s0, s, G);
      LevelLevels(s0, s[First(s, mg) := lg], G);
    }
  }

  /** The assignment after Rebalance. */
  ghost function Rebalanced(s0: seq<int>, G: set<int>): (r: seq<int>)
    ensures |r| == |s0|
  {
    if G == {} then seq(|s0|, _ => 0)
    else
      StartFilling(s0, G);
      FillFills(s0, s0, G, 0);
      FilledLevel(s0, Fill(s0, s0, G, 0), G);
      Level(s0, Fill(s0, s0, G, 0), G)
  }

  // ---------------------------------------------------------------- what it promises

  /** From any assignment to any groups, every shard ends with a member, evenly; without groups
      every shard is unassigned. */
  lemma RebalancedIsBalanced(s0: seq<int>, G: set<int>)
    ensures var r := Rebalanced(s0, G);
            && |r| == |s0|
            && (G != {} ==> Assigned(r, G) && Balanced(r, G))
            && (G == {} ==> forall p | 0 <= p < |r| :: r[p] == 0)
  {
    if G != {} {
      RebalancedLeveling(s0, G);
    }
  }

  lemma RebalancedLeveling(s0: seq<int>, G: set<int>)
    requires G != {}
    ensures Leveling(s0, Rebalanced(s0, G), G) && Balanced(Rebalanced(s0, G), G)
  {
    hide Fill, Level, Filling, Leveling, Balanced;
    StartFilling(s0, G);
    FillFills(s0, s0, G, 0);
    FilledLevel(s0, Fill(s0, s0, G, 0), G);
    LevelLevels(s0, Fill(s0, s0, G, 0), G);
  }

  /** An assignment that needs no change gets none. */
  lemma BalancedStays(s0: seq<int>, G: set<int>)
    requires G != {} && Assigned(s0, G) && Balanced(s0, G)
    ensures Rebalanced(s0, G) == s0
  {
    RebalancedIsOptimal(s0, G, s0);
    AgreeSelf(s0);
    AgreeAll(s0, Rebalanced(s0, G));
  }

  lemma {:induction false} AgreeAll(a: seq<int>, b: seq<int>)
    requires |a| == |b|
    ensures Agree(a, b) <= |a| && (Agree(a, b) == |a| ==> a == b)
  {
    if a != [] {
      var n := |a| - 1;
      AgreeAll(a[..n], b[..n]);
      assert a == a[..n] + [a[n]] && b == b[..n] + [b[n]];
    }
  }

  /** No group both gives up a shard it had and receives one it did not have. */
  lemma ReceiversKeep(s0: seq<int>, G: set<int>, g: int, p: nat, q: nat)
    requires g in G && p < |s0| && q < |s0|
    requires s0[p] != g && Rebalanced(s0, G)[p] == g
    ensures s0[q] == g ==> Rebalanced(s0, G)[q] == g
  {
    var r := Rebalanced(s0, G);
    RebalancedLeveling(s0, G);
    BothBounds(s0, r, g);
  }

  /** Optimality: among all balanced assignments to the groups, Rebalance picks one that leaves
      the most shards where they are. */
  lemma RebalancedIsOptimal(s0: seq<int>, G: set<int>, t: seq<int>)
    requires G != {} && |t| == |s0|
    ensures Assigned(t, G) && Balanced(t, G) ==> Agree(s0, t) <= Agree(s0, Rebalanced(s0, G))
  {
    if Assigned(t, G) && Balanced(t, G) {
      KeepsTheMost(s0, G, t);
    }
  }

  lemma KeepsTheMost(s0: seq<int>, G: set<int>, t: seq<int>)
    requires G != {} && |t| == |s0| && Assigned(t, G) && Balanced(t, G)
    ensures Agree(s0, t) <= Agree(s0, Rebalanced(s0, G))
  {
    hide Rebalanced, Leveling, Both, Agree, Balanced, Assigned, Sum;
    var r := Rebalanced(s0, G);
    RebalancedIsBalanced(s0, G);
    RebalancedLeveling(s0, G);
    var l := Listing(G);
    LevelingAssigned(s0, r, G);
    Listed(r, G, l);
    Listed(t, G, l);
    SumBoth(l, s0, r);
    SumBoth(l, s0, t);
    SumBoth(l, r, r);
    SumBoth(l, t, t);
    AgreeSelf(r);
    AgreeSelf(t);
    SameLevels(r, t, G, l);
    KeepsMore(s0, r, t, G, l);
  }

  lemma LevelingAssigned(s0: seq<int>, s: seq<int>, G: set<int>)
    requires Leveling(s0, s, G)
    ensures Assigned(s, G)
  {
  }

  lemma Listed(s: seq<int>, G: set<int>, l: seq<int>)
    requires Assigned(s, G) && forall g :: g in l <==> g in G
    ensures forall p | 0 <= p < |s| :: s[p] in l
  {
    forall p | 0 <= p < |s|
      ensures s[p] in l
    {
      var x := s[p];
      assert x in G;
    }
  }

  /** Two balanced assignments of equally many shards use the same two levels. */
  lemma SameLevels(r: seq<int>, t: seq<int>, G: set<int>, l: seq<int>)
    requires G != {} && |r| == |t| && Balanced(r, G) && Balanced(t, G) && forall g :: g in l <==> g in G
    requires Sum(l, BothOf(r, r)) == Sum(l, BothOf(t, t))
    ensures forall g | g in G :: Count(r, Least(r, G)) <= Count(t, g) <= Count(r, Least(r, G)) + 1
  {
    hide Both;
    var low := Least(r, G);
    var m := Count(r, low);
    if g :| g in G && Count(t, g) > m + 1 {
      assert forall h | h in G :: BothOf(r, r)(h) <= BothOf(t, t)(h);
      assert BothOf(r, r)(low) < BothOf(t, t)(low);
      SumOrder(l, BothOf(r, r), BothOf(t, t));
    }
    if g :| g in G && Count(t, g) < m {
      assert forall h | h in G :: BothOf(t, t)(h) <= BothOf(r, r)(h);
      assert BothOf(t, t)(g) < BothOf(r, r)(g);
      SumOrder(l, BothOf(t, t), BothOf(r, r));
    }
  }

  lemma KeepsMore(s0: seq<int>, r: seq<int>, t: seq<int>, G: set<int>, l: seq<int>)
    requires G != {} && |r| == |t| == |s0| && Balanced(r, G) && Leveling(s0, r, G)
    requires Sum(l, BothOf(r, r)) == Sum(l, BothOf(t, t)) && forall g :: g in l <==> g in G
    requires forall g | g in G :: Count(r, Least(r, G)) <= Count(t, g) <= Count(r, Least(r, G)) + 1
    ensures Sum(l, BothOf(s0, t)) <= Sum(l, BothOf(s0, r))
  {
    hide Both;
    var m := Count(r, Least(r, G));
    forall g | g in G
      ensures Both(s0, t, g) <= Count(s0, g) && Both(s0, t, g) <= Count(t, g)
    {
      BothBounds(s0, t, g);
      BothBounds(s0, r, g);
    }
    forall g | g in G
      ensures Both(s0, r, g) <= Count(s0, g) && Both(s0, r, g) <= Count(r, g)
    {
      BothBounds(s0, r, g);
    }
    if x :| x in G && Count(r, x) == m && Count(r, x) < Count(s0, x) {
      forall g | g in l
        ensures BothOf(s0, t)(g) - BothOf(s0, r)(g) <= BothOf(t, t)(g) - BothOf(r, r)(g)
      {
        if Count(r, g) > m {
          assert Count(r, g) <= Count(s0, g);
        }
      }
      SumSplit(l, BothOf(s0, t), BothOf(s0, r), BothOf(t, t), BothOf(r, r));
    } else {
      forall g | g in l
        ensures BothOf(s0, t)(g) <= BothOf(s0, r)(g)
      {
      }
      SumOrder(l, BothOf(s0, t), BothOf(s0, r));
    }
  }
}
