/** The shard configuration object of src/shardkv1/shardcfg/shardcfg.go. */
module ShardConfig {
  import opened Rebalancing

  /** What analyze's sentinel 257 allows for; the repository has 12 shards. */
  const MAX_SHARDS := 256
  const NO_COUNT := 257

  /** How a configuration change ends; Fatal stands for log.Fatalf. */
  datatype Outcome = Done(changed: bool) | Fatal

  ghost predicate Sorted(l: seq<int>) {
    forall i, j | 0 <= i < j < |l| :: l[i] < l[j]
  }

  lemma OneLeast(s: seq<int>, G: set<int>, g: int)
    requires IsLeast(s, G, g)
    ensures G != {} && g == Least(s, G)
  {
  }

  lemma OneMost(s: seq<int>, G: set<int>, g: int)
    requires IsMost(s, G, g)
    ensures G != {} && g == Most(s, G)
  {
  }

  lemma CountAppend(s: seq<int>, x: int)
    ensures forall g :: Count(s + [x], g) == Count(s, g) + One(g == x)
  {
    assert (s + [x])[..|s|] == s;
  }

  function Lookup(counts: map<int, nat>, g: int): nat {
    if g in counts then counts[g] else 0
  }

  /** Two server lists have a server in common. */
  predicate Share(a: seq<string>, b: seq<string>) {
    exists i, j | 0 <= i < |a| && 0 <= j < |b| :: a[i] == b[j]
  }

  /** The servers of the new groups can be joined to the old ones. */
  ghost predicate Joinable(groups: map<int, seq<string>>, servers: map<int, seq<string>>) {
    && servers != map[]
    && (forall g | g in servers :: g !in groups)
    && (forall g, x | g in servers && x in groups :: !Share(groups[x], servers[g]))
    && (forall g, x | g in servers && x in servers && g != x :: !Share(servers[x], servers[g]))
  }

  /** Where Join is when only the groups in rest are still to be added. */
  ghost predicate Joining(before: map<int, seq<string>>, now: map<int, seq<string>>, servers: map<int, seq<string>>,
                          rest: set<int>) {
    && rest <= servers.Keys
    && now.Keys == before.Keys + (servers.Keys - rest)
    && (forall g | g in before :: now[g] == before[g])
    && (forall g | g in servers && g !in rest :: g !in before && now[g] == servers[g])
    && (forall g, x | g in servers && g !in rest && x in now && x != g :: !Share(now[x], servers[g]))
  }

  lemma ShareSymmetric(a: seq<string>, b: seq<string>)
    ensures Share(a, b) <==> Share(b, a)
  {
  }

  lemma JoinStart(before: map<int, seq<string>>, servers: map<int, seq<string>>)
    ensures Joining(before, before, servers, servers.Keys)
  {
    hide Share;
  }

  lemma JoinNext(before: map<int, seq<string>>, now: map<int, seq<string>>, servers: map<int, seq<string>>,
                 rest: set<int>, gid: int)
    requires Joining(before, now, servers, rest) && gid in rest
    requires gid !in now && gid in servers && forall x | x in now :: !Share(now[x], servers[gid])
    ensures Joining(before, now[gid := servers[gid]], servers, rest - {gid})
  {
    hide Share;
    forall a: seq<string>, b: seq<string> ensures Share(a, b) <==> Share(b, a) { ShareSymmetric(a, b); }
  }

  /** Join refuses the group gid: one of that name is there, or one that shares a server. */
  lemma JoinRefused(before: map<int, seq<string>>, now: map<int, seq<string>>, servers: map<int, seq<string>>,
                    rest: set<int>, gid: int)
    requires Joining(before, now, servers, rest) && gid in rest && gid in servers
    requires gid in now || exists x :: x in now && Share(now[x], servers[gid])
    ensures !Joinable(before, servers) && (gid in now ==> gid in before)
  {
    hide Share;
    forall a: seq<string>, b: seq<string> ensures Share(a, b) <==> Share(b, a) { ShareSymmetric(a, b); }
  }

  /** Whatever Join has added so far is asked for, and the groups that were there stay. */
  lemma JoinKeeps(before: map<int, seq<string>>, now: map<int, seq<string>>, servers: map<int, seq<string>>,
                  rest: set<int>)
    requires Joining(before, now, servers, rest)
    ensures rest <= servers.Keys
    ensures forall g | g in before :: g in now && now[g] == before[g]
    ensures forall g | g in now && g !in before :: g in servers && now[g] == servers[g]
  {
    hide Share;
  }

  lemma JoinEnd(before: map<int, seq<string>>, now: map<int, seq<string>>, servers: map<int, seq<string>>)
    requires Joining(before, now, servers, {})
    ensures now == before + servers
    ensures Joinable(before, servers) <==> servers.Keys != {}
  {
    hide Share;
    assert servers.Keys == {} <==> servers == map[];
    var both := before + servers;
    assert now.Keys == both.Keys;
    forall g | g in now
      ensures now[g] == both[g]
    {
      if g !in servers {
        assert g in before;
      }
    }
    assert forall g, x | g in servers && x in now && x != g :: !Share(now[x], servers[g]);
  }

  function Named(gids: seq<int>, k: nat): set<int>
    requires k <= |gids|
  {
    set i | 0 <= i < k :: gids[i]
  }

  /** The first k of gids are groups and differ from one another. */
  ghost predicate Removable(groups: map<int, seq<string>>, gids: seq<int>, k: nat)
    requires k <= |gids|
  {
    && (forall i | 0 <= i < k :: gids[i] in groups)
    && (forall i, j | 0 <= i < j < k :: gids[i] != gids[j])
  }

  lemma FillNext(s0: seq<int>, s: seq<int>, G: set<int>, k: nat)
    requires G != {} && Filling(s0, s, G, k)
    ensures |s| == |s0|
    ensures k == |s| ==> Fill(s0, s, G, k) == s
    ensures k < |s| && s[k] in G ==> Filling(s0, s, G, k + 1) && Fill(s0, s, G, k + 1) == Fill(s0, s, G, k)
    ensures k < |s| && s[k] !in G ==>
              var t := s[k := Least(s, G)];
              Filling(s0, t, G, k + 1) && Fill(s0, t, G, k + 1) == Fill(s0, s, G, k) && Agree(s0, t) + 1 == Agree(s0, s)
  {
    hide Both, Agree, Least, GainedLow;
    if k < |s| && s[k] !in G {
      FillStep(s0, s, G, k);
      AgreeUpdate(s0, s, k, Least(s, G));
    }
  }

  lemma LevelNext(s0: seq<int>, s: seq<int>, G: set<int>)
    requires G != {} && Leveling(s0, s, G)
    ensures |s| == |s0|
    ensures Count(s, Most(s, G)) < Count(s, Least(s, G)) + 2 ==> Level(s0, s, G) == s
    ensures Count(s, Most(s, G)) >= Count(s, Least(s, G)) + 2 ==>
              && Most(s, G) in s
              && var t := s[First(s, Most(s, G)) := Least(s, G)];
                 Leveling(s0, t, G) && Level(s0, t, G) == Level(s0, s, G) && Agree(s0, t) + 1 == Agree(s0, s)
  {
    hide Both, Agree, Least, Most;
    if Count(s, Most(s, G)) >= Count(s, Least(s, G)) + 2 {
      LevelStep(s0, s, G);
    }
  }

  class ShardConfig {
    var num: nat
    const shards: array<int>
    var groups: map<int, seq<string>>

    ghost predicate Valid()
      reads this
    {
      shards.Length <= MAX_SHARDS
    }

    /** MakeShardConfig. */
    constructor (n: nat)
      requires n <= MAX_SHARDS
      ensures Valid() && num == 0 && groups == map[] && fresh(shards) && shards[..] == seq(n, _ => 0)
    {
      num := 0;
      shards := new int[n](_ => 0);
      groups := map[];
    }

    /** The groups in order, from a map that is walked in any order. */
    method SortedGroups() returns (l: seq<int>)
      ensures Sorted(l) && (forall g :: g in l <==> g in groups)
    {
      l := [];
      var rest := groups.Keys;
      while rest != {}
        invariant rest <= groups.Keys && Sorted(l)
        invariant forall g :: g in l <==> g in groups && g !in rest
        decreases |rest|
      {
        var g := PickGroup(rest);
        l := InsertSorted(l, g);
        rest := rest - {g};
      }
    }

    static method PickGroup<T>(G: set<T>) returns (g: T)
      requires G != {}
      ensures g in G
    {
      g :| g in G;
    }

    static method InsertSorted(l: seq<int>, g: int) returns (r: seq<int>)
      requires Sorted(l) && g !in l
      ensures Sorted(r) && forall x :: x in r <==> x == g || x in l
    {
      var i := 0;
      while i < |l| && l[i] < g
        invariant i <= |l| && forall k | 0 <= k < i :: l[k] < g
      {
        i := i + 1;
      }
      assert l == l[..i] + l[i..];
      r := l[..i] + [g] + l[i..];
    }

    /** The number of shards of each group. */
    method CountShards() returns (counts: map<int, nat>)
      ensures forall g :: Lookup(counts, g) == Count(shards[..], g)
    {
      counts := map[];
      var i := 0;
      while i < shards.Length
        invariant i <= shards.Length
        invariant forall g :: Lookup(counts, g) == Count(shards[..i], g)
      {
        assert shards[..i + 1] == shards[..i] + [shards[i]];
        CountAppend(shards[..i], shards[i]);
        counts := counts[shards[i] := Lookup(counts, shards[i]) + 1];
        i := i + 1;
      }
      assert shards[..i] == shards[..];
    }

    /** The most and the least loaded group with their loads; among equals the smallest. */
    method Analyze() returns (mg: int, mn: int, lg: int, ln: int)
      requires Valid()
      ensures groups != map[] ==>
                && IsMost(shards[..], groups.Keys, mg) && mn == Count(shards[..], mg)
                && IsLeast(shards[..], groups.Keys, lg) && ln == Count(shards[..], lg)
    {
      hide Both;
      var counts := CountShards();
      mn, mg, ln, lg := -1, -1, NO_COUNT, -1;
      var order := SortedGroups();
      ghost var s := shards[..];
      var i := 0;
      while i < |order|
        invariant i <= |order|
        invariant i == 0 ==> mn == -1 && ln == NO_COUNT
        invariant i > 0 ==> mg in order[..i] && mn == Count(s, mg) && lg in order[..i] && ln == Count(s, lg)
        invariant forall k | 0 <= k < i && order[k] != mg ::
                  mn > Count(s, order[k]) || (mn == Count(s, order[k]) && mg < order[k])
        invariant forall k | 0 <= k < i && order[k] != lg ::
                  ln < Count(s, order[k]) || (ln == Count(s, order[k]) && lg < order[k])
      {
        var g := order[i];
        var c := Lookup(counts, g);
        CountRange(s, g);
        assert order[..i + 1][i] == g;
        if c < ln {
          ln, lg := c, g;
        }
        if c > mn {
          mn, mg := c, g;
        }
        i := i + 1;
      }
      assert order[..i] == order;
      if groups != map[] {
        ghost var x := Member(groups.Keys);
        assert x in order;
      }
    }

    /** Rebalance computes Rebalanced, whatever order the map of groups is walked in.  moves: how
        often a shard was given away or moved. */
    method Rebalance() returns (ghost moves: nat)
      requires Valid()
      modifies shards
      ensures shards[..] == Rebalanced(old(shards[..]), groups.Keys)
      ensures groups != map[] ==> moves + Agree(old(shards[..]), shards[..]) == shards.Length
    {
      hide Fill, Level, Filling, Leveling, Count, Agree, IsMost, IsLeast;
      ghost var s0, G := shards[..], groups.Keys;
      moves := 0;
      if |groups| < 1 {
        var s := 0;
        while s < shards.Length
          invariant s <= shards.Length && forall k | 0 <= k < s :: shards[k] == 0
        {
          shards[s] := 0;
          s := s + 1;
        }
        return;
      }
      StartFilling(s0, G);
      AgreeSelf(s0);
      assert |G| == |groups|;
      var s := 0;
      while s < shards.Length
        invariant s <= shards.Length && Filling(s0, shards[..], G, s)
        invariant Fill(s0, shards[..], G, s) == Fill(s0, s0, G, 0)
        invariant moves + Agree(s0, shards[..]) == shards.Length
      {
        ghost var now := shards[..];
        FillNext(s0, now, G, s);
        if shards[s] !in groups {
          var mg, mn, lg, ln := Analyze();
          OneLeast(now, G, lg);
          shards[s] := lg;
          moves := moves + 1;
          assert shards[..] == now[s := lg];
        }
        s := s + 1;
      }
      ghost var filled := shards[..];
      FillNext(s0, filled, G, s);
      FilledLevel(s0, filled, G);
      while true
        invariant Leveling(s0, shards[..], G) && Level(s0, shards[..], G) == Level(s0, filled, G)
        invariant moves + Agree(s0, shards[..]) == shards.Length
        decreases Agree(s0, shards[..])
      {
        var mg, mn, lg, ln := Analyze();
        ghost var now := shards[..];
        OneLeast(now, G, lg);
        OneMost(now, G, mg);
        LevelNext(s0, now, G);
        if mn < ln + 2 {
          break;
        }
        MoveOne(mg, lg);
        moves := moves + 1;
      }
    }

    /** Gives the first shard of mg to lg. */
    method MoveOne(mg: int, lg: int)
      requires mg in shards[..]
      modifies shards
      ensures shards[..] == old(shards[..])[First(old(shards[..]), mg) := lg]
    {
      ghost var p := First(shards[..], mg);
      var s := 0;
      while s < shards.Length
        invariant s <= p && shards[..] == old(shards[..])
      {
        if shards[s] == mg {
          shards[s] := lg;
          break;
        }
        s := s + 1;
      }
    }

    /** Join: all groups are added, or the call is refused.  A refused call leaves behind the
        groups it added before it came to the one it refused. */
    method Join(servers: map<int, seq<string>>) returns (r: Outcome)
      modifies this
      ensures r == Done(true) <==> Joinable(old(groups), servers)
      ensures r == Done(true) ==> groups == old(groups) + servers && num == old(num) + 1
      ensures r != Done(true) ==> num == old(num)
      ensures r == Done(false) ==> exists g :: g in servers && g in old(groups)
      ensures forall g | g in old(groups) :: g in groups && groups[g] == old(groups)[g]
      ensures forall g | g in groups && g !in old(groups) :: g in servers && groups[g] == servers[g]
    {
      hide Share, Joinable, Joining;
      JoinStart(groups, servers);
      var rest := servers.Keys;
      var changed := false;
      while rest != {}
        invariant num == old(num) && Joining(old(groups), groups, servers, rest)
        invariant changed <==> rest != servers.Keys
        decreases |rest|
      {
        JoinKeeps(old(groups), groups, servers, rest);
        var gid := PickGroup(rest);
        if gid in groups {
          JoinRefused(old(groups), groups, servers, rest, gid);
          return Done(false);
        }
        var shares := SharesServer(servers[gid]);
        if shares {
          JoinRefused(old(groups), groups, servers, rest, gid);
          return Fatal;
        }
        JoinNext(old(groups), groups, servers, rest, gid);
        groups := groups[gid := servers[gid]];
        changed := true;
        rest := rest - {gid};
      }
      JoinKeeps(old(groups), groups, servers, rest);
      JoinEnd(old(groups), groups, servers);
      if !changed {
        return Fatal;
      }
      num := num + 1;
      r := Done(true);
    }

    method SharesServer(servers: seq<string>) returns (found: bool)
      ensures found <==> exists x :: x in groups && Share(groups[x], servers)
    {
      var rest := groups.Keys;
      while rest != {}
        invariant rest <= groups.Keys
        invariant forall x | x in groups && x !in rest :: !Share(groups[x], servers)
        decreases |rest|
      {
        var xgid := PickGroup(rest);
        var xservers := groups[xgid];
        for i := 0 to |xservers|
          invariant forall k, j | 0 <= k < i && 0 <= j < |servers| :: xservers[k] != servers[j]
        {
          for j := 0 to |servers|
            invariant forall k | 0 <= k < j :: xservers[i] != servers[k]
          {
            if xservers[i] == servers[j] {
              return true;
            }
          }
        }
        rest := rest - {xgid};
      }
      found := false;
    }

    /** Leave, in the order of gids: it stops at the first that is not, or no longer, a group. */
    method Leave(gids: seq<int>) returns (r: Outcome)
      modifies this
      ensures r == Fatal <==> gids == []
      ensures r == Done(true) <==> gids != [] && Removable(old(groups), gids, |gids|)
      ensures r == Done(true) ==> groups == old(groups) - Named(gids, |gids|) && num == old(num) + 1
      ensures r != Done(true) ==> num == old(num)
      ensures r == Fatal ==> groups == old(groups)
      ensures r == Done(false) ==>
                exists k :: 0 <= k < |gids| && Removable(old(groups), gids, k)
                  && !Removable(old(groups), gids, k + 1) && groups == old(groups) - Named(gids, k)
    {
      var changed := false;
      var i := 0;
      while i < |gids|
        invariant i <= |gids| && num == old(num) && (changed <==> i > 0)
        invariant Removable(old(groups), gids, i) && groups == old(groups) - Named(gids, i)
      {
        var gid := gids[i];
        if gid !in groups {
          assert Removable(old(groups), gids, i) && !Removable(old(groups), gids, i + 1);
          return Done(false);
        }
        groups := groups - {gid};
        changed := true;
        i := i + 1;
      }
      if !changed {
        return Fatal;
      }
      num := num + 1;
      r := Done(true);
    }

    method JoinBalance(servers: map<int, seq<string>>) returns (r: Outcome)
      requires Valid()
      modifies this, shards
      ensures r == Done(true) <==> Joinable(old(groups), servers)
      ensures r == Done(true) ==>
                && groups == old(groups) + servers && num == old(num) + 1
                && shards[..] == Rebalanced(old(shards[..]), groups.Keys)
      ensures r != Done(true) ==> num == old(num) && shards[..] == old(shards[..])
      ensures r == Done(false) ==> exists g :: g in servers && g in old(groups)
      ensures forall g | g in old(groups) :: g in groups && groups[g] == old(groups)[g]
      ensures forall g | g in groups && g !in old(groups) :: g in servers && groups[g] == servers[g]
    {
      r := Join(servers);
      if r == Done(true) {
        ghost var moves := Rebalance();
      }
    }

    method LeaveBalance(gids: seq<int>) returns (r: Outcome)
      requires Valid()
      modifies this, shards
      ensures r == Done(true) <==> gids != [] && Removable(old(groups), gids, |gids|)
      ensures r == Done(true) ==>
                && groups == old(groups) - Named(gids, |gids|) && num == old(num) + 1
                && shards[..] == Rebalanced(old(shards[..]), groups.Keys)
      ensures r != Done(true) ==> num == old(num) && shards[..] == old(shards[..])
      ensures r == Fatal ==> gids == [] && groups == old(groups)
      ensures r == Done(false) ==>
                exists k :: 0 <= k < |gids| && Removable(old(groups), gids, k)
                  && !Removable(old(groups), gids, k + 1) && groups == old(groups) - Named(gids, k)
    {
      r := Leave(gids);
      if r == Done(true) {
        ghost var moves := Rebalance();
      }
    }
  }
}
