/** Spreading shards over groups: rebalance and maxmin of src/db_files/shard-controller/server.go. */
module Rebalance {

  const MAX_INT := 0x7fff_ffff_ffff_ffff

  /** For each gid the shards it has, in the order they were given to it. */
  type Table = map<int, seq<nat>>

  datatype Plan = Plan(ct: Table, shards: seq<int>)

  datatype Extremes = Extremes(max: int, maxi: int, min: int, mini: int)

  function Load(ct: Table, g: int): nat {
    if g in ct then |ct[g]| else 0
  }

  /** The running maximum and minimum over the groups, first one wins. */
  function Scan(ct: Table, gs: seq<int>): Extremes {
    if gs == [] then Extremes(0, 0, MAX_INT, 0)
    else
      var last := |gs| - 1;
      Include(Scan(ct, gs[..last]), Load(ct, gs[last]), gs[last])
  }

  function Include(e: Extremes, l: nat, g: int): Extremes {
    var up := if l > e.max then e.(max := l, maxi := g) else e;
    if l < e.min then up.(min := l, mini := g) else up
  }

  /** Unassigned shards count as the heaviest load. */
  function MaxMin(ct: Table, gs: seq<int>): Extremes {
    var e := Scan(ct, gs);
    if Load(ct, 0) > 0 then
      if e.min == MAX_INT then Extremes(0, 0, 0, 0) else Extremes(Load(ct, 0) * 2, 0, 0, e.mini)
    else e
  }

  function Reassign(shards: seq<int>, ts: seq<nat>, g: int): (r: seq<int>)
    ensures |r| == |shards| && forall i :: 0 <= i < |r| ==> r[i] == if i in ts then g else shards[i]
  {
    seq(|shards|, i requires 0 <= i < |shards| => if i in ts then g else shards[i])
  }

  // ---------------------------------------------------------------- the table and the assignment

  ghost predicate Distinct<T>(s: seq<T>) {
    forall i, j :: 0 <= i < j < |s| ==> s[i] != s[j]
  }

  /** The table lists each shard once, under the gid it is assigned to. */
  ghost predicate Agrees(p: Plan) {
    && (forall i :: 0 <= i < |p.shards| ==> Listed(p, i))
    && (forall g :: g in p.ct ==> ListOk(p, g))
  }

  ghost predicate Listed(p: Plan, i: nat)
    requires i < |p.shards|
  {
    p.shards[i] in p.ct && i in p.ct[p.shards[i]]
  }

  ghost predicate ListOk(p: Plan, g: int)
    requires g in p.ct
  {
    Distinct(p.ct[g]) && forall k :: 0 <= k < |p.ct[g]| ==> p.ct[g][k] < |p.shards| && p.shards[p.ct[g][k]] == g
  }

  /** Table and assignment are in step, and the table has a list for each group and for the pool. */
  ghost predicate Tabled(p: Plan, gs: seq<int>) {
    && Agrees(p)
    && |p.shards| < MAX_INT
    && Distinct(gs) && 0 in p.ct
    && forall g :: g in gs ==> g in p.ct
  }

  function Elements(gs: seq<int>): set<int> {
    set g | g in gs
  }

  /** The shards that belong to groups. */
  ghost function Members(shards: seq<int>, groups: set<int>): set<nat> {
    set i | 0 <= i < |shards| && shards[i] in groups
  }

  /** If 0 is a group, so that the pool is one too, there are fewer shards in groups than groups. */
  ghost predicate Drains(shards: seq<int>, groups: set<int>) {
    0 in groups ==> |Members(shards, groups)| < |groups|
  }

  ghost predicate Sound(p: Plan, gs: seq<int>) {
    Tabled(p, gs) && Drains(p.shards, Elements(gs))
  }

  lemma {:induction false} DistinctBounded(s: seq<nat>, n: nat)
    requires Distinct(s) && forall k :: 0 <= k < |s| ==> s[k] < n
    ensures |s| <= n
    decreases n
  {
    if s != [] {
      assert s[0] < n;
      if n - 1 in s {
        var p :| 0 <= p < |s| && s[p] == n - 1;
        var rest := s[..p] + s[p + 1..];
        DistinctBounded(rest, n - 1);
      } else {
        DistinctBounded(s, n - 1);
      }
    }
  }

  lemma LoadBounded(p: Plan, gs: seq<int>, g: int)
    requires Tabled(p, gs)
    ensures Load(p.ct, g) < MAX_INT
  {
    if g in p.ct {
      assert ListOk(p, g);
      DistinctBounded(p.ct[g], |p.shards|);
    }
  }

  /** What the scan finds. */
  ghost predicate ScanOk(ct: Table, gs: seq<int>, e: Extremes) {
    && (forall g :: g in gs ==> e.min <= Load(ct, g) <= e.max)
    && 0 <= e.max && e.min <= MAX_INT
    && (e.max > 0 ==> e.maxi in gs && Load(ct, e.maxi) == e.max)
    && (gs != [] ==> e.mini in gs && Load(ct, e.mini) == e.min)
    && (gs == [] ==> e.min == MAX_INT)
  }

  lemma {:induction false} ScanFacts(p: Plan, gs: seq<int>, part: seq<int>)
    requires Tabled(p, gs) && part <= gs
    ensures ScanOk(p.ct, part, Scan(p.ct, part))
    decreases |part|
  {
    if part != [] {
      var last := |part| - 1;
      ScanFacts(p, gs, part[..last]);
      LoadBounded(p, gs, part[last]);
      assert part == part[..last] + [part[last]];
    }
  }

  /** The group at k is the first one with this load, and those before it have less. */
  ghost predicate FirstHighest(ct: Table, gs: seq<int>, k: nat, l: int) {
    k < |gs| && Load(ct, gs[k]) == l && forall j :: 0 <= j < k ==> Load(ct, gs[j]) < l
  }

  ghost predicate FirstLowest(ct: Table, gs: seq<int>, k: nat, l: int) {
    k < |gs| && Load(ct, gs[k]) == l && forall j :: 0 <= j < k ==> Load(ct, gs[j]) > l
  }

  ghost predicate AllBetween(ct: Table, gs: seq<int>, e: Extremes) {
    forall j :: 0 <= j < |gs| ==> e.min <= Load(ct, gs[j]) <= e.max
  }

  lemma BetweenOneMore(ct: Table, rest: seq<int>, g: int, e: Extremes)
    requires AllBetween(ct, rest, e)
    ensures AllBetween(ct, rest + [g], Include(e, Load(ct, g), g))
  {
    hide Load;
  }

  lemma HighestOneMore(ct: Table, rest: seq<int>, g: int, e: Extremes, k: nat)
    requires AllBetween(ct, rest, e) && IsFirstHighest(ct, rest, k, e) && e.max >= 0
    ensures var f := Include(e, Load(ct, g), g);
      IsFirstHighest(ct, rest + [g], if f.max != e.max then |rest| else k, f)
  {
  }

  lemma LowestOneMore(ct: Table, rest: seq<int>, g: int, e: Extremes, k: nat)
    requires AllBetween(ct, rest, e) && IsFirstLowest(ct, rest, k, e) && e.min <= MAX_INT
    ensures var f := Include(e, Load(ct, g), g);
      IsFirstLowest(ct, rest + [g], if f.min != e.min then |rest| else k, f)
  {
  }

  lemma ScanEmpty(ct: Table)
    ensures AllBetween(ct, [], Scan(ct, [])) && Scan(ct, []) == Extremes(0, 0, MAX_INT, 0)
  {
  }

  lemma ScanOneMore(ct: Table, gs: seq<int>)
    requires gs != []
    ensures var last := |gs| - 1; Scan(ct, gs) == Include(Scan(ct, gs[..last]), Load(ct, gs[last]), gs[last])
  {
  }

  ghost predicate IsFirstHighest(ct: Table, gs: seq<int>, k: nat, e: Extremes) {
    e.max > 0 ==> FirstHighest(ct, gs, k, e.max) && gs[k] == e.maxi
  }

  ghost predicate IsFirstLowest(ct: Table, gs: seq<int>, k: nat, e: Extremes) {
    e.min < MAX_INT ==> FirstLowest(ct, gs, k, e.min) && gs[k] == e.mini
  }

  lemma IncludeBounds(e: Extremes, l: nat, g: int)
    ensures e.max >= 0 ==> Include(e, l, g).max >= 0
    ensures e.min <= MAX_INT ==> Include(e, l, g).min <= MAX_INT
  {
  }

  /** Of several groups with the same load the scan takes the one that comes first. */
  lemma {:induction false} ScanFirst(ct: Table, gs: seq<int>) returns (a: nat, b: nat)
    ensures var e := Scan(ct, gs);
      AllBetween(ct, gs, e) && 0 <= e.max && e.min <= MAX_INT && IsFirstHighest(ct, gs, a, e)
        && IsFirstLowest(ct, gs, b, e)
    decreases |gs|
  {
    hide Scan, Include, Load, AllBetween, FirstHighest, FirstLowest;
    a, b := 0, 0;
    if gs == [] {
      ScanEmpty(ct);
    } else {
      hide IsFirstHighest, IsFirstLowest;
      var last := |gs| - 1;
      var rest := gs[..last];
      ScanOneMore(ct, gs);
      a, b := ScanFirst(ct, rest);
      var e, f := Scan(ct, rest), Scan(ct, gs);
      IncludeBounds(e, Load(ct, gs[last]), gs[last]);
      BetweenOneMore(ct, rest, gs[last], e);
      HighestOneMore(ct, rest, gs[last], e, a);
      LowestOneMore(ct, rest, gs[last], e, b);
      assert gs == rest + [gs[last]];
      a, b := if f.max != e.max then last else a, if f.min != e.min then last else b;
    }
  }

  // ---------------------------------------------------------------- how many shards there are

  ghost function Owned(shards: seq<int>, g: int): set<nat> {
    set i | 0 <= i < |shards| && shards[i] == g
  }

  lemma {:induction false} ListSize(s: seq<nat>, owned: set<nat>)
    requires Distinct(s) && forall i: nat :: i in s <==> i in owned
    ensures |s| == |owned|
    decreases |s|
  {
    if s == [] {
      assert owned == {};
    } else {
      var last := |s| - 1;
      assert s == s[..last] + [s[last]];
      ListSize(s[..last], owned - {s[last]});
    }
  }

  lemma LoadIsOwned(p: Plan, g: int)
    requires Agrees(p) && g in p.ct
    ensures Load(p.ct, g) == |Owned(p.shards, g)|
  {
    assert ListOk(p, g);
    forall i: nat
      ensures i in p.ct[g] <==> i in Owned(p.shards, g)
    {
      if i < |p.shards| {
        assert Listed(p, i);
      }
    }
    ListSize(p.ct[g], Owned(p.shards, g));
  }

  function Total(ct: Table, gs: seq<int>): nat {
    if gs == [] then 0 else Total(ct, gs[..|gs| - 1]) + Load(ct, gs[|gs| - 1])
  }

  lemma MembersOneMore(shards: seq<int>, gs: seq<int>)
    requires gs != [] && Distinct(gs)
    ensures var last := |gs| - 1;
      |Members(shards, Elements(gs))| == |Members(shards, Elements(gs[..last]))| + |Owned(shards, gs[last])|
  {
    var last := |gs| - 1;
    var before, more := Members(shards, Elements(gs[..last])), Owned(shards, gs[last]);
    assert gs == gs[..last] + [gs[last]] && gs[last] !in gs[..last];
    assert Members(shards, Elements(gs)) == before + more;
    assert before * more == {};
  }

  lemma {:induction false} MembersAreTotal(p: Plan, gs: seq<int>)
    requires Agrees(p) && Distinct(gs) && forall g :: g in gs ==> g in p.ct
    ensures |Members(p.shards, Elements(gs))| == Total(p.ct, gs)
    decreases |gs|
  {
    if gs == [] {
      assert Members(p.shards, Elements(gs)) == {};
    } else {
      var last := |gs| - 1;
      hide Agrees;
      MembersAreTotal(p, gs[..last]);
      MembersOneMore(p.shards, gs);
      LoadIsOwned(p, gs[last]);
    }
  }

  lemma {:induction false} ElementsSize(gs: seq<int>)
    requires Distinct(gs)
    ensures |Elements(gs)| == |gs|
    decreases |gs|
  {
    if gs == [] {
      assert Elements(gs) == {};
    } else {
      var last := |gs| - 1;
      ElementsSize(gs[..last]);
      assert gs == gs[..last] + [gs[last]] && gs[last] !in gs[..last];
      assert Elements(gs) == Elements(gs[..last]) + {gs[last]};
    }
  }

  lemma {:induction false} AllLoaded(ct: Table, gs: seq<int>)
    requires forall g :: g in gs ==> Load(ct, g) >= 1
    ensures Total(ct, gs) >= |gs|
    decreases |gs|
  {
    if gs != [] {
      assert gs[|gs| - 1] in gs;
      AllLoaded(ct, gs[..|gs| - 1]);
    }
  }

  /** With the pool a group, and shards in it, some group has none. */
  lemma SomeEmpty(p: Plan, gs: seq<int>)
    requires Sound(p, gs) && 0 in gs
    ensures exists g :: g in gs && Load(p.ct, g) == 0
  {
    MembersAreTotal(p, gs);
    ElementsSize(gs);
    hide Agrees;
    if forall g :: g in gs ==> Load(p.ct, g) >= 1 {
      AllLoaded(p.ct, gs);
    }
  }

  // ---------------------------------------------------------------- one round

  /** The shards of one round: half the difference, from the front of the heaviest list. */
  function Moved(p: Plan, e: Extremes): seq<nat>
    requires e.maxi in p.ct && 0 <= e.max - e.min && (e.max - e.min) / 2 <= |p.ct[e.maxi]|
  {
    p.ct[e.maxi][..(e.max - e.min) / 2]
  }

  function Round(p: Plan, e: Extremes): Plan
    requires e.maxi in p.ct && e.mini in p.ct && 0 <= e.max - e.min && (e.max - e.min) / 2 <= |p.ct[e.maxi]|
  {
    var ts := Moved(p, e);
    var taken := p.ct[e.maxi := p.ct[e.maxi][|ts|..]];
    Plan(taken[e.mini := taken[e.mini] + ts], Reassign(p.shards, ts, e.mini))
  }

  /** A round is due: it takes some but not all of the difference from one gid to a different group. */
  ghost predicate Due(p: Plan, gs: seq<int>, e: Extremes) {
    && e.max - e.min > 1
    && e.maxi in p.ct && e.mini in gs && e.mini != e.maxi
    && (e.max - e.min) / 2 <= |p.ct[e.maxi]|
    && (if Load(p.ct, 0) > 0 then e.maxi == 0 && (e.max - e.min) / 2 == Load(p.ct, 0)
        else e.maxi in gs && e.max == Load(p.ct, e.maxi) && e.min == Load(p.ct, e.mini))
  }

  /** If the pool is a group, what leaves it goes where there is nothing. */
  ghost predicate ToEmpty(p: Plan, gs: seq<int>, e: Extremes) {
    Load(p.ct, 0) > 0 && 0 in gs ==> Load(p.ct, e.mini) == 0
  }

  lemma TurnDue(p: Plan, gs: seq<int>)
    requires Tabled(p, gs) && MaxMin(p.ct, gs).max - MaxMin(p.ct, gs).min > 1
    ensures var e := MaxMin(p.ct, gs); Due(p, gs, e) || (Load(p.ct, 0) > 0 && e.maxi == e.mini == 0)
    ensures MaxMin(p.ct, gs).mini in gs && Scan(p.ct, gs).min < MAX_INT
  {
    ScanFacts(p, gs, gs);
    hide Scan, Agrees;
    if gs != [] {
      LoadBounded(p, gs, Scan(p.ct, gs).mini);
    }
  }

  lemma RoundDue(p: Plan, gs: seq<int>)
    requires Sound(p, gs) && MaxMin(p.ct, gs).max - MaxMin(p.ct, gs).min > 1
    ensures Due(p, gs, MaxMin(p.ct, gs)) && ToEmpty(p, gs, MaxMin(p.ct, gs))
  {
    TurnDue(p, gs);
    ScanFacts(p, gs, gs);
    if 0 in gs {
      SomeEmpty(p, gs);
    }
    hide Scan, Agrees, Drains;
  }

  lemma MovedFacts(p: Plan, gs: seq<int>, e: Extremes)
    requires Tabled(p, gs) && Due(p, gs, e)
    ensures var ts := Moved(p, e);
      && Distinct(ts) && |ts| == (e.max - e.min) / 2
      && (forall k :: 0 <= k < |ts| ==> ts[k] < |p.shards| && p.shards[ts[k]] == e.maxi)
      && (forall i: nat :: i in p.ct[e.maxi] <==> i in ts || i in p.ct[e.maxi][|ts|..])
      && (forall k :: |ts| <= k < |p.ct[e.maxi]| ==> p.ct[e.maxi][k] !in ts)
  {
  }

  lemma RoundListed(p: Plan, gs: seq<int>, e: Extremes, i: nat)
    requires Tabled(p, gs) && Due(p, gs, e) && i < |p.shards|
    ensures Listed(Round(p, e), i)
  {
    MovedFacts(p, gs, e);
    hide Moved, Due;
    assert Listed(p, i);
  }

  lemma RoundListOk(p: Plan, gs: seq<int>, e: Extremes, g: int)
    requires Tabled(p, gs) && Due(p, gs, e) && g in p.ct
    ensures ListOk(Round(p, e), g)
  {
    MovedFacts(p, gs, e);
    var ts, q := Moved(p, e), Round(p, e);
    hide Moved;
    assert ListOk(p, g);
    if g == e.mini {
      AppendDistinct(p.ct[g], ts);
    }
    forall k | 0 <= k < |q.ct[g]|
      ensures q.ct[g][k] < |q.shards| && q.shards[q.ct[g][k]] == g
    {
      if g == e.mini && k >= |p.ct[g]| {
        assert q.ct[g][k] == ts[k - |p.ct[g]|];
      } else if g == e.maxi {
        assert q.ct[g][k] == p.ct[g][|ts| + k];
      }
    }
  }

  lemma RoundTabled(p: Plan, gs: seq<int>, e: Extremes)
    requires Tabled(p, gs) && Due(p, gs, e)
    ensures Tabled(Round(p, e), gs)
  {
    var q := Round(p, e);
    forall i | 0 <= i < |q.shards|
      ensures Listed(q, i)
    {
      RoundListed(p, gs, e, i);
    }
    forall g | g in q.ct
      ensures ListOk(q, g)
    {
      RoundListOk(p, gs, e, g);
    }
  }

  /** No shard leaves the groups, and from the pool none joins them if the pool is a group itself. */
  lemma RoundKeepsMembers(p: Plan, gs: seq<int>, e: Extremes)
    requires Tabled(p, gs) && Due(p, gs, e) && 0 in gs
    ensures Members(Round(p, e).shards, Elements(gs)) == Members(p.shards, Elements(gs))
  {
    MovedFacts(p, gs, e);
    hide Moved, Agrees;
  }

  /** A round keeps the table and the assignment in step. */
  lemma RoundSound(p: Plan, gs: seq<int>, e: Extremes)
    requires Sound(p, gs) && Due(p, gs, e)
    ensures Sound(Round(p, e), gs)
  {
    RoundTabled(p, gs, e);
    if 0 in gs {
      RoundKeepsMembers(p, gs, e);
    }
  }

  lemma AppendDistinct(a: seq<nat>, b: seq<nat>)
    requires Distinct(a) && Distinct(b) && forall k :: 0 <= k < |b| ==> b[k] !in a
    ensures Distinct(a + b)
  {
  }

  // ---------------------------------------------------------------- why the rounds come to an end

  function Squares(ct: Table, gs: seq<int>): nat {
    if gs == [] then 0 else Squares(ct, gs[..|gs| - 1]) + Load(ct, gs[|gs| - 1]) * Load(ct, gs[|gs| - 1])
  }

  lemma {:induction false} SquaresUpdate(ct: Table, gs: seq<int>, g: int, list: seq<nat>)
    requires Distinct(gs)
    ensures Squares(ct[g := list], gs) == if g in gs then Squares(ct, gs) - Load(ct, g) * Load(ct, g) + |list| * |list|
      else Squares(ct, gs)
    decreases |gs|
  {
    if gs != [] {
      var last := |gs| - 1;
      SquaresUpdate(ct, gs[..last], g, list);
      assert gs == gs[..last] + [gs[last]];
      assert gs[last] !in gs[..last];
    }
  }

  lemma EvenedOut(max: int, min: int, c: int)
    requires c == (max - min) / 2 && max - min > 1
    ensures (max - c) * (max - c) + (min + c) * (min + c) < max * max + min * min
  {
  }

  /** What falls with every round: first the pool and then the squares, or the squares first if the pool is a group. */
  function Major(ct: Table, gs: seq<int>): nat {
    if 0 in gs then Squares(ct, gs) else Load(ct, 0)
  }

  function Minor(ct: Table, gs: seq<int>): nat {
    if 0 in gs then Load(ct, 0) else Squares(ct, gs)
  }

  ghost predicate Shrinks(a: Table, b: Table, gs: seq<int>) {
    Major(b, gs) < Major(a, gs) || (Major(b, gs) == Major(a, gs) && Minor(b, gs) < Minor(a, gs))
  }

  /** The squares of the loads after a round. */
  lemma RoundSquares(p: Plan, gs: seq<int>, e: Extremes)
    requires Tabled(p, gs) && Due(p, gs, e) && ToEmpty(p, gs, e)
    ensures Load(p.ct, 0) == 0 ==> Squares(Round(p, e).ct, gs) < Squares(p.ct, gs)
    ensures Load(p.ct, 0) > 0 && 0 in gs ==> Squares(Round(p, e).ct, gs) == Squares(p.ct, gs)
  {
    MovedFacts(p, gs, e);
    var ts := Moved(p, e);
    hide Moved, Agrees;
    var taken := p.ct[e.maxi := p.ct[e.maxi][|ts|..]];
    SquaresUpdate(p.ct, gs, e.maxi, p.ct[e.maxi][|ts|..]);
    SquaresUpdate(taken, gs, e.mini, taken[e.mini] + ts);
    if Load(p.ct, 0) == 0 {
      EvenedOut(e.max, e.min, |ts|);
    }
  }

  /**
   A round empties the unassigned pool or, with nothing unassigned, lowers the sum of squared loads; if the pool is a
   group it may fill again, but to empty it leaves the squares as they are.
   */
  lemma RoundShrinks(p: Plan, gs: seq<int>, e: Extremes)
    requires Sound(p, gs) && Due(p, gs, e) && ToEmpty(p, gs, e)
    ensures Shrinks(p.ct, Round(p, e).ct, gs)
    ensures Load(p.ct, 0) > 0 || 0 !in gs ==> Load(Round(p, e).ct, 0) == 0
  {
    RoundSquares(p, gs, e);
    MovedFacts(p, gs, e);
    hide Moved, Agrees, Squares;
  }

  /** Rounds until the loads differ by at most one. */
  function Settle(p: Plan, gs: seq<int>): Plan
    requires Sound(p, gs)
    decreases Major(p.ct, gs), Minor(p.ct, gs)
  {
    var e := MaxMin(p.ct, gs);
    if e.max - e.min > 1 then
      RoundDue(p, gs);
      RoundSound(p, gs, e);
      RoundShrinks(p, gs, e);
      Settle(Round(p, e), gs)
    else p
  }

  // ---------------------------------------------------------------- what the rounds achieve

  /** Shards leave only the pool or a group, and go only to groups. */
  ghost predicate MovesWithin(a: seq<int>, b: seq<int>, gs: seq<int>) {
    |a| == |b| && forall i :: 0 <= i < |a| ==> a[i] == b[i] || ((a[i] == 0 || a[i] in gs) && b[i] in gs)
  }

  ghost predicate Balanced(p: Plan, gs: seq<int>) {
    forall g, h :: g in gs && h in gs ==> Load(p.ct, g) <= Load(p.ct, h) + 1
  }

  lemma RoundMoves(p: Plan, gs: seq<int>, e: Extremes)
    requires Sound(p, gs) && Due(p, gs, e)
    ensures MovesWithin(p.shards, Round(p, e).shards, gs)
  {
  }

  lemma Finished(p: Plan, gs: seq<int>)
    requires Sound(p, gs) && MaxMin(p.ct, gs).max - MaxMin(p.ct, gs).min <= 1
    ensures Balanced(p, gs) && (gs != [] ==> Load(p.ct, 0) == 0)
  {
    ScanFacts(p, gs, gs);
    hide Scan, Agrees;
    if gs != [] {
      LoadBounded(p, gs, Scan(p.ct, gs).mini);
    }
  }

  lemma {:induction false} SettleFacts(p: Plan, gs: seq<int>)
    requires Sound(p, gs)
    ensures var q := Settle(p, gs);
      Sound(q, gs) && Balanced(q, gs) && (gs != [] ==> Load(q.ct, 0) == 0) && MovesWithin(p.shards, q.shards, gs)
    decreases Major(p.ct, gs), Minor(p.ct, gs)
  {
    var e := MaxMin(p.ct, gs);
    if e.max - e.min > 1 {
      RoundDue(p, gs);
      RoundSound(p, gs, e);
      RoundShrinks(p, gs, e);
      RoundMoves(p, gs, e);
      hide Sound, Balanced, Due, Round, Squares, MaxMin;
      SettleFacts(Round(p, e), gs);
    } else {
      Finished(p, gs);
    }
  }

  // ---------------------------------------------------------------- the table to start from

  /** An empty list for the pool and for each group. */
  function NoShards(groups: set<int>): Table {
    map g | g in groups + {0} :: []
  }

  function Give(ct: Table, g: int, i: nat): Table {
    ct[g := (if g in ct then ct[g] else []) + [i]]
  }

  /** Every shard under its gid, in order. */
  function Tally(shards: seq<int>, groups: set<int>): Table {
    if shards == [] then NoShards(groups)
    else
      var last := |shards| - 1;
      Give(Tally(shards[..last], groups), shards[last], last)
  }

  lemma {:induction false} TallyAgrees(shards: seq<int>, groups: set<int>)
    ensures Agrees(Plan(Tally(shards, groups), shards)) && groups + {0} <= Tally(shards, groups).Keys
    decreases |shards|
  {
    if shards != [] {
      var last := |shards| - 1;
      var before := Plan(Tally(shards[..last], groups), shards[..last]);
      TallyAgrees(shards[..last], groups);
      GiveAgrees(before, shards[last]);
      assert shards == shards[..last] + [shards[last]];
    }
  }

  lemma GiveAgrees(p: Plan, g: int)
    requires Agrees(p)
    ensures Agrees(Plan(Give(p.ct, g, |p.shards|), p.shards + [g]))
  {
    var q := Plan(Give(p.ct, g, |p.shards|), p.shards + [g]);
    forall i | 0 <= i < |q.shards|
      ensures Listed(q, i)
    {
      if i < |p.shards| {
        assert Listed(p, i);
      }
    }
    forall x | x in q.ct
      ensures ListOk(q, x)
    {
      if x in p.ct {
        assert ListOk(p, x);
      }
    }
  }

  // ---------------------------------------------------------------- the gids in order

  ghost predicate Ascending(gs: seq<int>) {
    forall i, j :: 0 <= i < j < |gs| ==> gs[i] < gs[j]
  }

  lemma NonEmpty(s: set<int>)
    requires s != {}
    ensures exists y :: y in s
  {
    if forall y :: y !in s {
    }
  }

  lemma {:induction false} ThereIsLeast(s: set<int>) returns (m: int)
    requires s != {}
    ensures m in s && forall x :: x in s ==> m <= x
    decreases |s|
  {
    NonEmpty(s);
    var y :| y in s;
    m := y;
    if s != {y} {
      var k := ThereIsLeast(s - {y});
      m := if k < y then k else y;
      assert forall z :: z in s <==> z in s - {y} || z == y;
    }
  }

  ghost function Least(s: set<int>): (m: int)
    requires s != {}
    ensures m in s && forall x :: x in s ==> m <= x
  {
    assert exists m :: m in s && forall x :: x in s ==> m <= x by {
      var m := ThereIsLeast(s);
    }
    var m :| m in s && forall x :: x in s ==> m <= x;
    m
  }

  /** The elements in ascending order. */
  ghost function InOrder(s: set<int>): seq<int>
    decreases |s|
  {
    if s == {} then [] else [Least(s)] + InOrder(s - {Least(s)})
  }

  /** There is only one way to put a set in order, so the order a map is walked in does not matter. */
  lemma {:induction false} OrderIsUnique(gs: seq<int>, s: set<int>)
    requires Ascending(gs) && forall g :: g in gs <==> g in s
    ensures gs == InOrder(s)
    decreases |gs|
  {
    if gs == [] {
      assert forall g :: g !in s;
    } else {
      assert gs[0] in s && Least(s) in gs;
      assert Least(s) == gs[0];
      var rest := s - {gs[0]};
      forall g
        ensures g in gs[1..] <==> g in rest
      {
        assert gs == [gs[0]] + gs[1..];
      }
      OrderIsUnique(gs[1..], rest);
    }
  }

  lemma {:induction false} InOrderFacts(s: set<int>)
    ensures Ascending(InOrder(s)) && forall g :: g in InOrder(s) <==> g in s
    decreases |s|
  {
    if s != {} {
      var rest := s - {Least(s)};
      InOrderFacts(rest);
      LeastInFront(Least(s), InOrder(rest), rest);
      hide InOrder, Ascending;
      assert forall g :: g in s <==> g in rest || g == Least(s);
    }
  }

  lemma LeastInFront(m: int, gs: seq<int>, rest: set<int>)
    requires Ascending(gs) && (forall g :: g in gs <==> g in rest) && forall g :: g in rest ==> m < g
    ensures Ascending([m] + gs) && forall g :: g in [m] + gs <==> g in rest || g == m
  {
    forall i | 0 <= i < |gs|
      ensures m < gs[i]
    {
      assert gs[i] in gs;
    }
  }

  // ---------------------------------------------------------------- the assignment after rebalancing

  lemma StartSound(shards: seq<int>, groups: set<int>)
    requires Drains(shards, groups) && |shards| < MAX_INT
    ensures Sound(Plan(Tally(shards, groups), shards), InOrder(groups))
  {
    TallyAgrees(shards, groups);
    InOrderFacts(groups);
    hide Tally, Agrees, InOrder;
    SameElements(InOrder(groups), groups);
  }

  lemma SameElements(gs: seq<int>, groups: set<int>)
    requires forall g :: g in gs <==> g in groups
    ensures Elements(gs) == groups
  {
    assert forall g :: g in Elements(gs) <==> g in groups;
  }

  ghost function Rebalanced(shards: seq<int>, groups: set<int>): seq<int>
    requires Drains(shards, groups) && |shards| < MAX_INT
  {
    StartSound(shards, groups);
    Settle(Plan(Tally(shards, groups), shards), InOrder(groups)).shards
  }

  /** Every group has the same number of shards, give or take one. */
  ghost predicate Even(shards: seq<int>, groups: set<int>) {
    forall g, h :: g in groups && h in groups ==> |Owned(shards, g)| <= |Owned(shards, h)| + 1
  }

  /** Afterwards the groups are even; only pooled shards and shards of groups moved, and only to groups. */
  lemma RebalanceLaw(shards: seq<int>, groups: set<int>)
    requires Drains(shards, groups) && |shards| < MAX_INT
    ensures var r := Rebalanced(shards, groups);
      && |r| == |shards| && Even(r, groups)
      && (forall i :: 0 <= i < |r| ==> shards[i] in groups || (shards[i] == 0 && groups != {}) ==> r[i] in groups)
      && (forall i :: 0 <= i < |r| ==> !(shards[i] in groups || (shards[i] == 0 && groups != {})) ==> r[i] == shards[i])
  {
    var p, gs := Plan(Tally(shards, groups), shards), InOrder(groups);
    StartSound(shards, groups);
    InOrderFacts(groups);
    SettleFacts(p, gs);
    var q := Settle(p, gs);
    hide Settle, Tally, InOrder;
    forall g, h | g in groups && h in groups
      ensures |Owned(q.shards, g)| <= |Owned(q.shards, h)| + 1
    {
      LoadIsOwned(q, g);
      LoadIsOwned(q, h);
    }
    forall i | 0 <= i < |shards| && shards[i] == 0 && groups != {}
      ensures q.shards[i] in groups
    {
      var g :| g in groups;
      assert Listed(q, i);
    }
  }

  /** An even assignment with nothing in the pool stays as it is. */
  lemma EvenStays(shards: seq<int>, groups: set<int>)
    requires Drains(shards, groups) && |shards| < MAX_INT && Even(shards, groups) && 0 !in shards
    ensures Rebalanced(shards, groups) == shards
  {
    var p, gs := Plan(Tally(shards, groups), shards), InOrder(groups);
    StartSound(shards, groups);
    InOrderFacts(groups);
    ScanFacts(p, gs, gs);
    hide Tally, InOrder, Scan;
    var e := Scan(p.ct, gs);
    assert Load(p.ct, 0) == 0 by {
      LoadIsOwned(p, 0);
      assert Owned(shards, 0) == {};
    }
    if e.max > 0 {
      LoadIsOwned(p, e.maxi);
      LoadIsOwned(p, e.mini);
    }
  }

  // ---------------------------------------------------------------- the loops

  method FindMaxMin(ct: Table, gs: seq<int>) returns (e: Extremes)
    ensures e == MaxMin(ct, gs)
  {
    var max, maxi, min, mini := 0, 0, MAX_INT, 0;
    for i := 0 to |gs|
      invariant Extremes(max, maxi, min, mini) == Scan(ct, gs[..i])
    {
      var g := gs[i];
      assert gs[..i + 1][..i] == gs[..i];
      var l := if g in ct then |ct[g]| else 0;
      if l > max {
        max, maxi := l, g;
      }
      if l < min {
        min, mini := l, g;
      }
    }
    assert gs[..|gs|] == gs;
    var pool := if 0 in ct then |ct[0]| else 0;
    if pool > 0 {
      if min == MAX_INT {
        return Extremes(0, 0, 0, 0);
      } else {
        return Extremes(pool * 2, 0, 0, mini);
      }
    } else {
      return Extremes(max, maxi, min, mini);
    }
  }

  method Assign(shards: array<int>, ts: seq<nat>, g: int)
    requires forall k :: 0 <= k < |ts| ==> ts[k] < shards.Length
    modifies shards
    ensures shards[..] == Reassign(old(shards[..]), ts, g)
  {
    for k := 0 to |ts|
      invariant forall i :: 0 <= i < shards.Length ==> shards[i] == if i in ts[..k] then g else old(shards[i])
    {
      assert ts[..k + 1] == ts[..k] + [ts[k]];
      shards[ts[k]] := g;
    }
    assert ts[..|ts|] == ts;
  }

  lemma InsertedAt(r: seq<int>, j: nat, x: int)
    requires Ascending(r) && j <= |r| && (forall k :: 0 <= k < j ==> r[k] < x) && (j < |r| ==> x < r[j])
    ensures Ascending(r[..j] + [x] + r[j..]) && forall g :: g in r[..j] + [x] + r[j..] <==> g in r || g == x
  {
  }

  method InsertInt(r: seq<int>, x: int) returns (r': seq<int>)
    requires Ascending(r) && x !in r
    ensures Ascending(r') && forall g :: g in r' <==> g in r || g == x
  {
    var j := 0;
    while j < |r| && r[j] < x
      invariant 0 <= j <= |r| && forall k :: 0 <= k < j ==> r[k] < x
    {
      j := j + 1;
    }
    assert j < |r| ==> r[j] in r;
    InsertedAt(r, j, x);
    r' := r[..j] + [x] + r[j..];
  }

  method SortInts(s: seq<int>) returns (r: seq<int>)
    requires Distinct(s)
    ensures Ascending(r) && forall g :: g in r <==> g in s
  {
    r := [];
    for i := 0 to |s|
      invariant Ascending(r) && forall g :: g in r <==> g in s[..i]
    {
      hide Ascending;
      assert s[..i + 1] == s[..i] + [s[i]];
      assert s[i] !in s[..i];
      r := InsertInt(r, s[i]);
    }
    assert s[..|s|] == s;
  }

  /** Collects the gids by walking the map in any order, and sorts them. */
  method GroupList(groups: set<int>) returns (gs: seq<int>, ct: Table)
    ensures gs == InOrder(groups) && ct == NoShards(groups)
  {
    hide Distinct, Ascending, InOrder;
    ct := map[0 := []];
    var list: seq<int>, left := [], groups;
    EmptyDistinct();
    while left != {}
      invariant left <= groups && Distinct(list)
      invariant forall g :: g in list <==> g in groups - left
      invariant ct == NoShards(groups - left)
      decreases |left|
    {
      NonEmpty(left);
      var gid :| gid in left;
      assert groups - (left - {gid}) == (groups - left) + {gid};
      assert NoShards((groups - left) + {gid}) == NoShards(groups - left)[gid := []];
      ct := ct[gid := []];
      OneMoreDistinct(list, gid);
      list, left := list + [gid], left - {gid};
    }
    assert groups - left == groups;
    gs := SortInts(list);
    OrderIsUnique(gs, groups);
  }

  lemma EmptyDistinct()
    ensures Distinct<int>([])
  {
  }

  lemma OneMoreDistinct(s: seq<int>, x: int)
    requires Distinct(s) && x !in s
    ensures Distinct(s + [x])
  {
  }

  lemma TallyOneMore(shards: seq<int>, groups: set<int>, i: nat)
    requires i < |shards|
    ensures Tally(shards[..i + 1], groups) == Give(Tally(shards[..i], groups), shards[i], i)
  {
    assert shards[..i + 1][..i] == shards[..i];
  }

  /** The shards under their gids, on top of the empty lists. */
  method GiveAll(shards: array<int>, groups: set<int>, empty: Table) returns (ct: Table)
    requires empty == NoShards(groups)
    ensures ct == Tally(shards[..], groups)
  {
    hide Tally;
    ct := empty;
    NoneGiven(shards[..], groups);
    for i := 0 to shards.Length
      invariant ct == Tally(shards[..][..i], groups)
    {
      TallyOneMore(shards[..], groups, i);
      var gid := shards[i];
      ct := Give(ct, gid, i);
    }
    assert shards[..][..shards.Length] == shards[..];
  }

  /** Rebalances the assignment in place; the result does not depend on the order the map of groups is walked in. */
  method Rebalance(shards: array<int>, groups: set<int>)
    requires Drains(shards[..], groups) && shards.Length < MAX_INT
    modifies shards
    ensures shards[..] == Rebalanced(old(shards[..]), groups)
  {
    hide *;
    ghost var start := shards[..];
    var gs: seq<int>, ct: Table := GroupList(groups);
    ct := GiveAll(shards, groups, ct);
    StartSound(start, groups);
    RebalancedIs(start, groups);
    var e := FindMaxMin(ct, gs);
    while e.max - e.min > 1
      invariant e == MaxMin(ct, gs) && shards.Length == |start|
      invariant Sound(Plan(ct, shards[..]), gs)
      invariant Settle(Plan(ct, shards[..]), gs).shards == Rebalanced(start, groups)
      decreases Major(ct, gs), Minor(ct, gs)
    {
      ghost var p := Plan(ct, shards[..]);
      RoundFacts(p, gs, e);
      var c := (e.max - e.min) / 2;
      var ts := ct[e.maxi][..c];
      ct := ct[e.maxi := ct[e.maxi][c..]];
      ct := ct[e.mini := ct[e.mini] + ts];
      Assign(shards, ts, e.mini);
      e := FindMaxMin(ct, gs);
    }
    SettleEnd(Plan(ct, shards[..]), gs);
  }

  lemma NoneGiven(shards: seq<int>, groups: set<int>)
    ensures Tally(shards[..0], groups) == NoShards(groups)
  {
  }

  lemma RebalancedIs(shards: seq<int>, groups: set<int>)
    requires Drains(shards, groups) && |shards| < MAX_INT && Sound(Plan(Tally(shards, groups), shards), InOrder(groups))
    ensures Settle(Plan(Tally(shards, groups), shards), InOrder(groups)).shards == Rebalanced(shards, groups)
  {
  }

  lemma SettleEnd(p: Plan, gs: seq<int>)
    requires Sound(p, gs) && MaxMin(p.ct, gs).max - MaxMin(p.ct, gs).min <= 1
    ensures Settle(p, gs) == p
  {
  }

  lemma RoundFacts(p: Plan, gs: seq<int>, e: Extremes)
    requires Sound(p, gs) && e == MaxMin(p.ct, gs) && e.max - e.min > 1
    ensures e.maxi in p.ct && e.mini in p.ct && (e.max - e.min) / 2 <= |p.ct[e.maxi]|
    ensures var ts := p.ct[e.maxi][..(e.max - e.min) / 2];
      var taken := p.ct[e.maxi := p.ct[e.maxi][(e.max - e.min) / 2..]];
      var q := Plan(taken[e.mini := taken[e.mini] + ts], Reassign(p.shards, ts, e.mini));
      && (forall k :: 0 <= k < |ts| ==> ts[k] < |p.shards|)
      && Sound(q, gs) && Settle(q, gs) == Settle(p, gs)
      && Major(q.ct, gs) <= Major(p.ct, gs)
      && (Major(q.ct, gs) == Major(p.ct, gs) ==> Minor(q.ct, gs) < Minor(p.ct, gs))
  {
    RoundDue(p, gs);
    RoundSound(p, gs, e);
    RoundShrinks(p, gs, e);
    MovedFacts(p, gs, e);
    hide MaxMin, Squares, Agrees, Reassign;
  }
}
