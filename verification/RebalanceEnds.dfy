/**
 When rebalance of src/db_files/shard-controller/server.go comes to an end. The pool of unassigned shards goes under
 gid 0, so a group of that name shares its list with the pool, and the loop may carry shards to it and away for ever.
 */
module RebalanceEnds {
  import opened Common
  import opened R = Rebalance

  /** The loop ends here: the loads differ by at most one. */
  predicate Ended(p: Plan, gs: seq<int>) {
    MaxMin(p.ct, gs).max - MaxMin(p.ct, gs).min <= 1
  }

  /** A turn of the loop would not slice beyond a list. */
  predicate Turns(p: Plan, e: Extremes) {
    e.max - e.min > 1 && e.maxi in p.ct && e.mini in p.ct && (e.max - e.min) / 2 <= |p.ct[e.maxi]|
  }

  /** The plan after k turns of the loop; it stays once the loop has ended. */
  function Rounds(p: Plan, gs: seq<int>, k: nat): Plan {
    if k == 0 then p
    else
      var q := Rounds(p, gs, k - 1);
      var e := MaxMin(q.ct, gs);
      if Turns(q, e) then Round(q, e) else q
  }

  /** What the loop starts from. */
  ghost function Start(shards: seq<int>, groups: set<int>): Plan {
    Plan(Tally(shards, groups), shards)
  }

  ghost predicate Ends(shards: seq<int>, groups: set<int>) {
    exists k: nat :: Ended(Rounds(Start(shards, groups), InOrder(groups), k), InOrder(groups))
  }

  // ---------------------------------------------------------------- it ends if the pool drains

  lemma {:induction false} RoundsShift(p: Plan, gs: seq<int>, k: nat)
    ensures Rounds(Rounds(p, gs, 1), gs, k) == Rounds(p, gs, k + 1)
  {
    if k > 0 {
      RoundsShift(p, gs, k - 1);
    }
  }

  lemma FirstRound(p: Plan, gs: seq<int>)
    requires Sound(p, gs) && !Ended(p, gs)
    ensures Sound(Rounds(p, gs, 1), gs)
    ensures Shrinks(p.ct, Rounds(p, gs, 1).ct, gs)
  {
    var e := MaxMin(p.ct, gs);
    RoundDue(p, gs);
    RoundSound(p, gs, e);
    RoundShrinks(p, gs, e);
    hide MaxMin, Round, Shrinks, Tabled, Drains;
    assert Rounds(p, gs, 0) == p;
  }

  lemma {:induction false} SoundEnds(p: Plan, gs: seq<int>) returns (k: nat)
    requires Sound(p, gs)
    ensures Ended(Rounds(p, gs, k), gs)
    decreases Major(p.ct, gs), Minor(p.ct, gs)
  {
    if Ended(p, gs) {
      k := 0;
    } else {
      FirstRound(p, gs);
      hide Sound, Ended, Rounds, Major, Minor;
      var j := SoundEnds(Rounds(p, gs, 1), gs);
      RoundsShift(p, gs, j);
      k := j + 1;
    }
  }

  // ---------------------------------------------------------------- and only then

  lemma {:induction false} FewShards(ct: Table, gs: seq<int>)
    requires forall g :: g in gs ==> Load(ct, g) <= 1
    ensures Total(ct, gs) <= |gs| && ((exists g :: g in gs && Load(ct, g) == 0) ==> Total(ct, gs) < |gs|)
    decreases |gs|
  {
    if gs != [] {
      var last := |gs| - 1;
      assert gs == gs[..last] + [gs[last]];
      FewShards(ct, gs[..last]);
    }
  }

  /** At the end the pool is empty; if it is a group, no group has more than one shard. */
  lemma EndedDrains(p: Plan, gs: seq<int>)
    requires Tabled(p, gs) && Ended(p, gs)
    ensures Drains(p.shards, Elements(gs))
  {
    ScanFacts(p, gs, gs);
    MembersAreTotal(p, gs);
    ElementsSize(gs);
    hide Scan, Agrees, Total;
    if 0 in gs {
      LoadBounded(p, gs, Scan(p.ct, gs).mini);
      FewShards(p.ct, gs);
    }
  }

  /** If the pool is a group and the lightest, a turn takes all its shards and gives them back to it. */
  lemma TurnInPlace(p: Plan, gs: seq<int>)
    requires Tabled(p, gs) && Load(p.ct, 0) > 0 && Scan(p.ct, gs).min < MAX_INT && Scan(p.ct, gs).mini == 0
    ensures var e := MaxMin(p.ct, gs); Turns(p, e) && Round(p, e) == p
  {
    var e := MaxMin(p.ct, gs);
    var q := Round(p, e);
    hide Scan;
    assert Moved(p, e) == p.ct[0] && p.ct[0][|p.ct[0]|..] == [];
    assert ListOk(p, 0);
    assert q.ct[0] == [] + p.ct[0] == p.ct[0];
    assert q.ct.Keys == p.ct.Keys;
    assert q.ct == p.ct;
    assert q.shards == p.shards;
  }

  /** If the pool is a group, no turn changes which shards belong to groups. */
  lemma TurnKeeps(p: Plan, gs: seq<int>)
    requires Tabled(p, gs) && 0 in gs && !Ended(p, gs)
    ensures var e := MaxMin(p.ct, gs);
      && Turns(p, e) && Tabled(Round(p, e), gs)
      && Members(Round(p, e).shards, Elements(gs)) == Members(p.shards, Elements(gs))
  {
    TurnDue(p, gs);
    var e := MaxMin(p.ct, gs);
    hide Scan, Agrees, Round;
    if Due(p, gs, e) {
      RoundTabled(p, gs, e);
      RoundKeepsMembers(p, gs, e);
    } else {
      TurnInPlace(p, gs);
    }
  }

  lemma {:induction false} RoundsKeep(p: Plan, gs: seq<int>, k: nat)
    requires Tabled(p, gs) && 0 in gs
    ensures Tabled(Rounds(p, gs, k), gs)
    ensures Members(Rounds(p, gs, k).shards, Elements(gs)) == Members(p.shards, Elements(gs))
  {
    if k > 0 {
      RoundsKeep(p, gs, k - 1);
      var q := Rounds(p, gs, k - 1);
      if !Ended(q, gs) {
        TurnKeeps(q, gs);
      }
      hide Tabled, Members, MaxMin, Round;
    }
  }

  // ---------------------------------------------------------------- exactly when

  /**
   Rebalancing ends if and only if 0 is no group or there are more groups than shards that belong to them, the
   unassigned ones included.
   */
  lemma EndsExactly(shards: seq<int>, groups: set<int>)
    requires |shards| < MAX_INT
    ensures Ends(shards, groups) <==> Drains(shards, groups)
  {
    var p, gs := Start(shards, groups), InOrder(groups);
    StartTabled(shards, groups);
    hide Tabled, Drains, Ended, Rounds, Start, InOrder;
    if Drains(shards, groups) {
      var k := SoundEnds(p, gs);
    }
    if Ends(shards, groups) && 0 in groups {
      var k: nat :| Ended(Rounds(p, gs, k), gs);
      RoundsKeep(p, gs, k);
      EndedDrains(Rounds(p, gs, k), gs);
      SameDrains(Rounds(p, gs, k).shards, p.shards, groups);
    }
  }

  lemma SameDrains(a: seq<int>, b: seq<int>, groups: set<int>)
    requires Members(a, groups) == Members(b, groups) && Drains(a, groups)
    ensures Drains(b, groups)
  {
  }

  lemma StartTabled(shards: seq<int>, groups: set<int>)
    requires |shards| < MAX_INT
    ensures var gs := InOrder(groups);
      Tabled(Start(shards, groups), gs) && Elements(gs) == groups && (0 in gs <==> 0 in groups)
    ensures Start(shards, groups).shards == shards && (0 !in groups ==> Drains(shards, groups))
  {
    TallyAgrees(shards, groups);
    InOrderFacts(groups);
    hide Tally, Agrees, InOrder;
    SameElements(InOrder(groups), groups);
  }

  lemma AllMembers(shards: seq<int>, groups: set<int>)
    requires forall i :: 0 <= i < |shards| ==> shards[i] in groups
    ensures |Members(shards, groups)| == |shards|
  {
    assert Members(shards, groups) == Ids(|shards|);
  }

  /**
   Two calls that never return: ten unassigned shards with groups 0 and 5, where 5 is the lightest, and ten shards
   of group -1 with groups -1 and 0, where nothing is unassigned.
   */
  lemma GroupZeroHangs()
    ensures !Ends(seq(10, _ => 0), {0, 5}) && !Ends(seq(10, _ => -1), {-1, 0})
  {
    AllMembers(seq(10, _ => 0), {0, 5});
    AllMembers(seq(10, _ => -1), {-1, 0});
    EndsExactly(seq(10, _ => 0), {0, 5});
    EndsExactly(seq(10, _ => -1), {-1, 0});
  }
}
