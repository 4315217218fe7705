/**
 What every command does to the configurations of the shard controller (src/db_files/shard-controller/server.go), by
 places in the log: which commands take effect, and what an effective one changes.
 */
module ShardLaws {
  import opened R = Rebalance
  import opened ShardController

  /** Delivery i comes in order. */
  ghost predicate Fresh(log: seq<Delivery>, i: nat)
    requires AllLegal(log) && i < |log|
  {
    log[i].index > Run(log[..i]).lastApplied
  }

  lemma FreshBefore(log: seq<Delivery>, n: nat)
    requires AllLegal(log) && n <= |log|
    ensures AllLegal(log[..n])
    ensures forall j: nat :: j < n ==> (Fresh(log[..n], j) <==> Fresh(log, j))
  {
    hide Run;
    forall j: nat | j < n
      ensures Fresh(log[..n], j) <==> Fresh(log, j)
    {
      assert log[..n][..j] == log[..j];
    }
  }

  /** Queries are remembered under client 0. */
  function ClientOf(cmd: Command): int {
    if cmd.Query? then 0 else cmd.clientId
  }

  /** A retry: a join of a join, a leave of a leave or a move of a move, with its request number. */
  predicate Repeats(a: Command, b: Command) {
    match a
    case Join(_, _, r) => b.Join? && b.requestId == r
    case Leave(_, _, r) => b.Leave? && b.requestId == r
    case Move(_, _, _, r) => b.Move? && b.requestId == r
    case Query(_) => false
  }

  /** Place of the client's last delivery that came in order, or the length of the log. */
  ghost function LastOf(log: seq<Delivery>, client: int): (p: nat)
    requires AllLegal(log)
    ensures p <= |log|
  {
    if log == [] then 0
    else
      var last := |log| - 1;
      if Fresh(log, last) && ClientOf(log[last].cmd) == client then last
      else
        var p := LastOf(log[..last], client);
        if p < last then p else |log|
  }

  lemma LastOfStep(log: seq<Delivery>, client: int)
    requires AllLegal(log) && log != []
    ensures var last := |log| - 1;
      var p := LastOf(log[..last], client);
      AllLegal(log[..last]) && LastOf(log, client) == if IsOf(log, last, client) then last else if p < last then p
        else |log|
  {
  }

  lemma {:induction false} LastOfFacts(log: seq<Delivery>, client: int)
    requires AllLegal(log)
    ensures var p := LastOf(log, client);
      && (p < |log| ==> IsOf(log, p, client))
      && forall j: nat :: (p < j || p == |log|) && j < |log| ==> !IsOf(log, j, client)
    decreases |log|
  {
    hide Run, Fresh, Legal, AllLegal, LastOf, IsOf;
    if log != [] {
      var last := |log| - 1;
      LastOfStep(log, client);
      OfBefore(log, last, client);
      LastOfFacts(log[..last], client);
    }
  }

  ghost predicate IsOf(log: seq<Delivery>, i: nat, client: int)
    requires AllLegal(log) && i < |log|
  {
    Fresh(log, i) && ClientOf(log[i].cmd) == client
  }

  lemma OfBefore(log: seq<Delivery>, n: nat, client: int)
    requires AllLegal(log) && n <= |log|
    ensures AllLegal(log[..n])
    ensures forall j: nat :: j < n ==> (IsOf(log[..n], j, client) <==> IsOf(log, j, client))
  {
    hide Run, Fresh;
    FreshBefore(log, n);
  }

  /** Delivery i takes effect: it comes in order, is no query, and does not repeat its client's last one. */
  ghost predicate Effective(log: seq<Delivery>, i: nat)
    requires AllLegal(log) && i < |log|
  {
    && Fresh(log, i) && !log[i].cmd.Query?
    && var p := LastOf(log[..i], ClientOf(log[i].cmd));
    p < i ==> !Repeats(log[i].cmd, log[p].cmd)
  }

  lemma RunTo(log: seq<Delivery>, i: nat)
    requires AllLegal(log) && i < |log|
    ensures AllLegal(log[..i]) && AllLegal(log[..i + 1]) && Numbered(Run(log[..i])) && Legal(log[i].cmd)
    ensures Run(log[..i + 1]) == Apply(Run(log[..i]), log[i].index, log[i].cmd)
  {
    hide Run, Apply, Numbered;
    RunLast(log[..i + 1]);
    assert log[..i + 1][..i] == log[..i];
  }

  lemma ApplyRemembers(s: State, d: Delivery, cmd: Command)
    requires s.configs != [] && Sized(Tail(s)) && Legal(d.cmd) && !cmd.Query?
    ensures Duplicate(Apply(s, d.index, d.cmd).dedup, cmd) <==>
      if d.index > s.lastApplied && ClientOf(d.cmd) == cmd.clientId then Repeats(cmd, d.cmd)
        else Duplicate(s.dedup, cmd)
  {
    hide Changed;
  }

  /** What is remembered of a client is its last delivery that came in order, up to retries of it. */
  lemma {:induction false} RememberedIsLast(log: seq<Delivery>, cmd: Command)
    requires AllLegal(log) && !cmd.Query?
    ensures Duplicate(Run(log).dedup, cmd) <==>
      var p := LastOf(log, cmd.clientId); p < |log| && Repeats(cmd, log[p].cmd)
    decreases |log|
  {
    hide Run, Apply, Numbered, Duplicate, Repeats, LastOf, AllLegal, Legal;
    if log == [] {
      NothingRemembered(cmd);
    } else {
      var last := |log| - 1;
      RunLast(log);
      LastOfStep(log, cmd.clientId);
      RememberedIsLast(log[..last], cmd);
      var s := Run(log[..last]);
      NumberedTail(s);
      ApplyRemembers(s, log[last], cmd);
      var p := LastOf(log[..last], cmd.clientId);
      assert p < last ==> log[..last][p] == log[p];
    }
  }

  lemma NothingRemembered(cmd: Command)
    requires !cmd.Query?
    ensures !Duplicate(Run([]).dedup, cmd) && LastOf([], cmd.clientId) == 0
  {
  }

  lemma NumberedTail(s: State)
    requires Numbered(s)
    ensures s.configs != [] && Sized(Tail(s)) && Tail(s).num == |s.configs| - 1
  {
  }

  /** Which delivery takes effect, in terms of the state it meets. */
  lemma EffectiveIs(log: seq<Delivery>, i: nat)
    requires AllLegal(log) && i < |log| && AllLegal(log[..i])
    ensures Effective(log, i) <==>
      var s := Run(log[..i]);
      !log[i].cmd.Query? && log[i].index > s.lastApplied && !Duplicate(s.dedup, log[i].cmd)
  {
    if !log[i].cmd.Query? {
      RememberedIsLast(log[..i], log[i].cmd);
    }
    hide Run, Duplicate, LastOf, Repeats;
    assert forall p :: 0 <= p < i ==> log[..i][p] == log[p];
  }

  /**
   A delivery that takes effect adds exactly one configuration, made from the latest one, and moves lastApplied; any
   other leaves the configurations alone.
   */
  lemma EffectLaw(log: seq<Delivery>, i: nat)
    requires AllLegal(log) && i < |log|
    ensures AllLegal(log[..i]) && AllLegal(log[..i + 1])
    ensures var s, t := Run(log[..i]), Run(log[..i + 1]);
      && s.configs <= t.configs
      && |t.configs| == |s.configs| + (if Effective(log, i) then 1 else 0)
      && t.lastApplied == if Effective(log, i) || (Fresh(log, i) && log[i].cmd.Query?) then log[i].index
        else s.lastApplied
  {
    RunTo(log, i);
    NumberedTail(Run(log[..i]));
    EffectiveIs(log, i);
    hide Run, Numbered, Changed, Duplicate, Effective;
  }

  ghost function Effects(log: seq<Delivery>): set<nat>
    requires AllLegal(log)
  {
    set i: nat | i < |log| && Effective(log, i)
  }

  lemma EffectiveBefore(log: seq<Delivery>, n: nat, i: nat)
    requires AllLegal(log) && i < n <= |log| && AllLegal(log[..n])
    ensures Effective(log[..n], i) <==> Effective(log, i)
  {
    assert log[..n][..i] == log[..i] && log[..n][i] == log[i];
  }

  /** There are as many configurations as deliveries that took effect, and the first one. */
  lemma {:induction false} OneEach(log: seq<Delivery>)
    requires AllLegal(log)
    ensures |Run(log).configs| == 1 + |Effects(log)|
    decreases |log|
  {
    if log == [] {
      assert Effects(log) == {};
    } else {
      var last := |log| - 1;
      hide Run, Effective, Effects;
      OneEach(log[..last]);
      EffectLaw(log, last);
      assert log[..last + 1] == log;
      EffectsOneMore(log);
    }
  }

  lemma EffectsOneMore(log: seq<Delivery>)
    requires AllLegal(log) && log != []
    ensures var last := |log| - 1; |Effects(log)| == |Effects(log[..last])| + if Effective(log, last) then 1 else 0
  {
    hide Effective, Run;
    var last := |log| - 1;
    forall i: nat | i < last
      ensures Effective(log[..last], i) <==> Effective(log, i)
    {
      EffectiveBefore(log, last, i);
    }
    assert Effects(log) == if Effective(log, last) then Effects(log[..last]) + {last} else Effects(log[..last]);
  }

  /** The first delivery of a request takes effect, if it comes in order. */
  lemma FirstTakesEffect(log: seq<Delivery>, i: nat)
    requires AllLegal(log) && i < |log| && Fresh(log, i) && !log[i].cmd.Query?
    requires forall j :: 0 <= j < i && ClientOf(log[j].cmd) == log[i].cmd.clientId ==> !Repeats(log[i].cmd, log[j].cmd)
    ensures Effective(log, i)
  {
    hide Run, Fresh;
    LastOfFacts(log[..i], log[i].cmd.clientId);
    assert forall j :: 0 <= j < i ==> log[..i][j] == log[j];
  }

  // ---------------------------------------------------------------- what an effective command changes

  /** The latest configuration before delivery i, and after it. */
  ghost function Before(log: seq<Delivery>, i: nat): Config
    requires AllLegal(log) && i < |log|
  {
    Tail(Run(log[..i]))
  }

  ghost function After(log: seq<Delivery>, i: nat): Config
    requires AllLegal(log) && i < |log|
  {
    Tail(Run(log[..i + 1]))
  }

  lemma Made(log: seq<Delivery>, i: nat)
    requires AllLegal(log) && i < |log| && Effective(log, i)
    ensures Sized(Before(log, i)) && Legal(log[i].cmd) && !log[i].cmd.Query?
    ensures After(log, i) == Changed(Before(log, i), log[i].cmd)
  {
    RunTo(log, i);
    NumberedTail(Run(log[..i]));
    EffectiveIs(log, i);
    hide Run, Numbered, Changed, Duplicate, Effective;
  }

  /** A move changes the owner of exactly the named shard, and no group. */
  lemma MoveLaw(log: seq<Delivery>, i: nat)
    requires AllLegal(log) && i < |log| && Effective(log, i) && log[i].cmd.Move?
    ensures var was, now, cmd := Before(log, i), After(log, i), log[i].cmd;
      && now.num == was.num + 1 && now.groups == was.groups
      && |now.shards| == |was.shards| == N_SHARDS && 0 <= cmd.shard < N_SHARDS
      && now.shards[cmd.shard] == cmd.gid
      && forall j :: 0 <= j < N_SHARDS && j != cmd.shard ==> now.shards[j] == was.shards[j]
  {
    hide Run, Effective;
    Made(log, i);
  }

  /** Every shard that had a group, or nobody while there are groups, has one now; the others are as before. */
  ghost predicate Resettled(was: seq<int>, now: seq<int>, groups: set<int>) {
    && |now| == |was| && Even(now, groups)
    && forall j :: 0 <= j < |was| ==>
         if was[j] in groups || (was[j] == 0 && groups != {}) then now[j] in groups else now[j] == was[j]
  }

  /** A join adds exactly the given groups, with the given servers, keeps all others, and spreads the shards evenly. */
  lemma JoinLaw(log: seq<Delivery>, i: nat)
    requires AllLegal(log) && i < |log| && Effective(log, i) && log[i].cmd.Join?
    ensures var was, now, cmd := Before(log, i), After(log, i), log[i].cmd;
      && now.num == was.num + 1
      && (forall g :: g in now.groups <==> g in was.groups || g in cmd.servers)
      && (forall g :: g in now.groups ==>
            now.groups[g] == if g in cmd.servers then cmd.servers[g] else was.groups[g])
      && Resettled(was.shards, now.shards, now.groups.Keys)
  {
    hide Run, Effective;
    Made(log, i);
    RebalanceLaw(Before(log, i).shards, (Before(log, i).groups + log[i].cmd.servers).Keys);
    hide Rebalanced, Even;
  }

  /**
   A leave removes exactly the named groups and keeps the servers of the others; no shard is left on a group that left,
   and the rest are spread evenly.
   */
  lemma LeaveLaw(log: seq<Delivery>, i: nat)
    requires AllLegal(log) && i < |log| && Effective(log, i) && log[i].cmd.Leave?
    ensures var was, now, cmd := Before(log, i), After(log, i), log[i].cmd;
      && now.num == was.num + 1
      && (forall g :: g in now.groups <==> g in was.groups && g !in cmd.gids)
      && (forall g :: g in now.groups ==> now.groups[g] == was.groups[g])
      && (forall j :: 0 <= j < |now.shards| ==> now.shards[j] in cmd.gids ==> now.shards[j] == 0)
      && |now.shards| == |was.shards| && Even(now.shards, now.groups.Keys)
      && forall j :: 0 <= j < |was.shards| ==>
           var left := was.shards[j] == 0 || was.shards[j] in cmd.gids;
           if was.shards[j] in now.groups || (left && now.groups.Keys != {}) then now.shards[j] in now.groups
           else now.shards[j] == if left then 0 else was.shards[j]
  {
    hide Run, Effective;
    Made(log, i);
    var was, gids := Before(log, i), log[i].cmd.gids;
    RebalanceLaw(Vacated(was.shards, gids), (was.groups - (set g | g in gids)).Keys);
    hide Rebalanced, Even;
  }

  /** Configuration 0 has no groups, and nobody has a shard. */
  lemma FirstConfig(log: seq<Delivery>)
    requires AllLegal(log)
    ensures Run(log).configs != []
    ensures var c := Run(log).configs[0];
      c.num == 0 && c.groups == map[] && |c.shards| == N_SHARDS && forall j :: 0 <= j < N_SHARDS ==> c.shards[j] == 0
  {
    RunExtends(log, 0);
    assert log[..0] == [];
  }
}
