/**
 With ten shards, a group that joins an even configuration takes shards and nobody else does
 (src/db_files/shard-controller/server.go).
 */
module JoinMoves {
  import opened R = Rebalance
  import opened ShardController

  /** Shards that move, move to the new group. */
  ghost predicate OnlyTo(a: seq<int>, b: seq<int>, new_: int) {
    |a| == |b| && forall i :: 0 <= i < |a| ==> b[i] == a[i] || b[i] == new_
  }

  ghost predicate Calm(p: Plan, gs: seq<int>) {
    Sound(p, gs) && 0 !in gs && Load(p.ct, 0) == 0
  }

  /** The loads lie in a range of two. */
  ghost predicate Within(p: Plan, gs: seq<int>, lo: nat) {
    forall g :: g in gs ==> lo <= Load(p.ct, g) <= lo + 1
  }

  lemma Settled(p: Plan, gs: seq<int>, lo: nat)
    requires Calm(p, gs) && Within(p, gs, lo)
    ensures Settle(p, gs) == p
  {
    ScanFacts(p, gs, gs);
    hide Scan, Agrees;
  }

  /** If the new group is lighter than all others, a round moves shards from a heaviest group to it. */
  lemma RoundToNew(p: Plan, gs: seq<int>, x: int, hi: nat) returns (q: Plan, m: int)
    requires Calm(p, gs) && x in gs && Load(p.ct, x) + 1 < hi
    requires forall g :: g in gs && g != x ==> Load(p.ct, x) < Load(p.ct, g) <= hi
    requires exists g :: g in gs && Load(p.ct, g) == hi
    ensures Calm(q, gs) && Settle(p, gs) == Settle(q, gs) && OnlyTo(p.shards, q.shards, x)
    ensures m in gs && m != x && Load(p.ct, m) == hi
    ensures var c := (hi - Load(p.ct, x)) / 2; Load(q.ct, m) == hi - c && Load(q.ct, x) == Load(p.ct, x) + c
    ensures forall g :: g in gs && g != x && g != m ==> Load(q.ct, g) == Load(p.ct, g)
  {
    var e := MaxMin(p.ct, gs);
    ScanFacts(p, gs, gs);
    var top :| top in gs && Load(p.ct, top) == hi;
    assert e.max == hi && e.mini == x && e.min == Load(p.ct, x);
    m := e.maxi;
    RoundDue(p, gs);
    RoundSound(p, gs, e);
    RoundShrinks(p, gs, e);
    MovedFacts(p, gs, e);
    q := Round(p, e);
    hide Agrees, Scan;
  }

  // ---------------------------------------------------------------- how ten shards can be spread evenly

  lemma TwoGroups(shards: seq<int>, g: int, h: int)
    requires g != h
    ensures |Owned(shards, g)| + |Owned(shards, h)| <= |shards|
    ensures (forall i :: 0 <= i < |shards| ==> shards[i] in {g, h}) ==>
      |Owned(shards, g)| + |Owned(shards, h)| == |shards|
  {
    var both := Owned(shards, g) + Owned(shards, h);
    assert |both| == |Owned(shards, g)| + |Owned(shards, h)|;
    AllPlaces(|shards|, both);
  }

  lemma ThreeGroups(shards: seq<int>, g: int, h: int, k: int)
    requires g != h && g != k && h != k
    ensures |Owned(shards, g)| + |Owned(shards, h)| + |Owned(shards, k)| <= |shards|
  {
    var two := Owned(shards, g) + Owned(shards, h);
    var all := two + Owned(shards, k);
    assert |two| == |Owned(shards, g)| + |Owned(shards, h)|;
    assert |all| == |two| + |Owned(shards, k)|;
    AllPlaces(|shards|, all);
  }

  lemma {:induction false} AllPlaces(n: nat, places: set<nat>)
    requires forall i: nat :: i in places ==> i < n
    ensures |places| <= n
    ensures (forall i: nat :: i < n ==> i in places) ==> |places| == n
  {
    if n == 0 {
      assert places == {};
    } else {
      AllPlaces(n - 1, places - {n - 1});
    }
  }

  /** Group x has nothing yet, all shards are on the others, and those are even with a heaviest one m. */
  ghost predicate Joining(p: Plan, gs: seq<int>, x: int, m: int) {
    && Calm(p, gs) && |p.shards| == N_SHARDS && x in gs && m in gs && m != x && Load(p.ct, x) == 0
    && (forall i :: 0 <= i < |p.shards| ==> p.shards[i] in gs && p.shards[i] != x)
    && (forall g :: g in gs && g != x ==> Load(p.ct, m) - 1 <= Load(p.ct, g) <= Load(p.ct, m))
  }

  ghost predicate Others(p: Plan, gs: seq<int>, x: int, m: int, lo: nat, hi: nat) {
    forall g :: g in gs && g != x && g != m ==> lo <= Load(p.ct, g) <= hi
  }

  lemma Weights(p: Plan, gs: seq<int>, x: int, m: int, h: int)
    requires Joining(p, gs, x, m) && h in gs && h != x && h != m
    ensures Load(p.ct, m) + Load(p.ct, h) <= N_SHARDS
    ensures (forall g :: g in gs ==> g in {x, m, h}) ==> Load(p.ct, m) + Load(p.ct, h) == N_SHARDS
  {
    LoadIsOwned(p, m);
    LoadIsOwned(p, h);
    TwoGroups(p.shards, m, h);
  }

  lemma ThirdWeight(p: Plan, gs: seq<int>, x: int, m: int, h: int, k: int)
    requires Joining(p, gs, x, m) && h in gs && h != x && h != m && k in gs && k != x && k != m && k != h
    ensures Load(p.ct, m) + Load(p.ct, h) + Load(p.ct, k) <= N_SHARDS
  {
    LoadIsOwned(p, m);
    LoadIsOwned(p, h);
    LoadIsOwned(p, k);
    ThreeGroups(p.shards, m, h, k);
  }

  lemma Alone(p: Plan, gs: seq<int>, x: int, m: int)
    requires Joining(p, gs, x, m) && forall g :: g in gs ==> g in {x, m}
    ensures Load(p.ct, m) == N_SHARDS
  {
    LoadIsOwned(p, m);
    AllPlaces(N_SHARDS, Owned(p.shards, m));
  }

  /** Beside these two there is one more group, and no other. */
  ghost predicate ThirdOnly(gs: seq<int>, x: int, m: int) {
    exists h :: h in gs && h != x && h != m && forall g :: g in gs ==> g in {x, m, h}
  }

  /** The ways ten shards can lie. */
  lemma TenShards(p: Plan, gs: seq<int>, x: int, m: int)
    requires Joining(p, gs, x, m)
    ensures var hi := Load(p.ct, m);
      || hi <= 3
      || (hi == 4 && Others(p, gs, x, m, 3, 3))
      || (hi == 5 && Others(p, gs, x, m, 5, 5) && ThirdOnly(gs, x, m))
      || (hi == 10 && forall g :: g in gs ==> g in {x, m})
  {
    hide Agrees, Sound;
    if forall g :: g in gs ==> g in {x, m} {
      Alone(p, gs, x, m);
    } else {
      var h :| h in gs && h !in {x, m};
      Weights(p, gs, x, m, h);
      if !(forall g :: g in gs ==> g in {x, m, h}) {
        var k :| k in gs && k !in {x, m, h};
        ThirdWeight(p, gs, x, m, h, k);
        forall g | g in gs && g != x && g != m && Load(p.ct, m) == 4
          ensures Load(p.ct, g) == 3
        {
          ThirdWeight(p, gs, x, m, g, if g == h then k else h);
        }
      }
    }
  }

  lemma SettlesFive(p: Plan, gs: seq<int>, x: int, m: int, h: int)
    requires Joining(p, gs, x, m) && Load(p.ct, m) == 5 && h in gs && h != x && h != m && Load(p.ct, h) == 5
    requires forall g :: g in gs ==> g in {x, m, h}
    ensures OnlyTo(p.shards, Settle(p, gs).shards, x)
  {
    hide Sound, Settle;
    var q, a := RoundToNew(p, gs, x, 5);
    var r, b := RoundToNew(q, gs, x, 5);
    Settled(r, gs, 3);
  }

  lemma SettlesThree(p: Plan, gs: seq<int>, x: int, m: int)
    requires Joining(p, gs, x, m) && Load(p.ct, m) == 3
    ensures OnlyTo(p.shards, Settle(p, gs).shards, x)
  {
    hide Sound, Settle;
    var q, a := RoundToNew(p, gs, x, 3);
    if exists g :: g in gs && Load(q.ct, g) == 3 {
      var r, b := RoundToNew(q, gs, x, 3);
      Settled(r, gs, 2);
    } else {
      Settled(q, gs, 1);
    }
  }

  /** The rounds after a join move shards to the new group only. */
  lemma JoinSettles(p: Plan, gs: seq<int>, x: int, m: int)
    requires Joining(p, gs, x, m)
    ensures OnlyTo(p.shards, Settle(p, gs).shards, x)
  {
    TenShards(p, gs, x, m);
    hide Sound, Settle;
    var hi := Load(p.ct, m);
    if hi <= 1 {
      Settled(p, gs, 0);
    } else if hi == 3 {
      SettlesThree(p, gs, x, m);
    } else if hi == 5 {
      var h :| h in gs && h != x && h != m && forall g :: g in gs ==> g in {x, m, h};
      SettlesFive(p, gs, x, m, h);
    } else {
      var q, a := RoundToNew(p, gs, x, hi);
      Settled(q, gs, if hi == 2 then 1 else if hi == 4 then 2 else 5);
    }
  }

  /** Joining one new group to an even configuration moves shards to the new group only. */
  lemma JoinMovesToNew(c: Config, cmd: Command, x: int)
    requires Sized(c) && Assigned(c) && Even(c.shards, c.groups.Keys) && c.groups.Keys != {}
    requires cmd.Join? && Legal(cmd) && cmd.servers.Keys == {x} && x !in c.groups
    ensures OnlyTo(c.shards, Changed(c, cmd).shards, x)
  {
    var groups := c.groups.Keys + {x};
    assert (c.groups + cmd.servers).Keys == groups;
    var p, gs := Plan(Tally(c.shards, groups), c.shards), InOrder(groups);
    StartSound(c.shards, groups);
    InOrderFacts(groups);
    hide Tally, InOrder, Settle, Agrees, Scan;
    var m := Heaviest(p, c.groups.Keys);
    StartJoining(c.shards, c.groups.Keys, x, p, gs, m);
    JoinSettles(p, gs, x, m);
  }

  lemma StartJoining(shards: seq<int>, old_: set<int>, x: int, p: Plan, gs: seq<int>, m: int)
    requires |shards| == N_SHARDS && Even(shards, old_) && x !in old_ && 0 !in old_ && x != 0
      && (forall i :: 0 <= i < |shards| ==> shards[i] in old_)
    requires p.shards == shards && Sound(p, gs) && (forall g :: g in gs <==> g in old_ || g == x)
    requires m in old_ && forall g :: g in old_ ==> Load(p.ct, g) <= Load(p.ct, m)
    ensures Joining(p, gs, x, m)
  {
    hide Owned, Agrees;
    LoadIsOwned(p, m);
    forall g | g in gs && g != x
      ensures Load(p.ct, m) - 1 <= Load(p.ct, g) <= Load(p.ct, m)
    {
      LoadIsOwned(p, g);
      assert |Owned(shards, m)| <= |Owned(shards, g)| + 1;
    }
    LoadIsOwned(p, x);
    LoadIsOwned(p, 0);
    OwnsNothing(shards, x);
    OwnsNothing(shards, 0);
  }

  lemma OwnsNothing(shards: seq<int>, g: int)
    requires forall i :: 0 <= i < |shards| ==> shards[i] != g
    ensures |Owned(shards, g)| == 0
  {
  }

  lemma {:induction false} Heaviest(p: Plan, groups: set<int>) returns (m: int)
    requires groups != {}
    ensures m in groups && forall g :: g in groups ==> Load(p.ct, g) <= Load(p.ct, m)
    decreases |groups|
  {
    NonEmpty(groups);
    m :| m in groups;
    if groups != {m} {
      var k := Heaviest(p, groups - {m});
      assert forall g :: g in groups <==> g in groups - {m} || g == m;
      m := if Load(p.ct, k) > Load(p.ct, m) then k else m;
    }
  }
}
