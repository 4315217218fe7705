/** The shard controller's numbered configurations: conf and apply of src/db_files/shard-controller/server.go. */
module ShardController {
  import opened R = Rebalance

  const N_SHARDS := 10

  datatype Config = Config(num: int, shards: seq<int>, groups: map<int, seq<string>>)

  datatype Command =
    | Join(servers: map<int, seq<string>>, clientId: int, requestId: int)
    | Leave(gids: seq<int>, clientId: int, requestId: int)
    | Move(shard: int, gid: int, clientId: int, requestId: int)
    | Query(num: int)

  datatype State = State(configs: seq<Config>, dedup: map<int, Command>, lastApplied: int)

  function Initial(): State {
    State([Config(0, seq(N_SHARDS, i => 0), map[])], map[], 0)
  }

  function Tail(s: State): Config
    requires s.configs != []
  {
    s.configs[|s.configs| - 1]
  }

  /** The last command of this client was of the same kind with the same request number. */
  predicate Duplicate(dedup: map<int, Command>, cmd: Command) {
    !cmd.Query? && cmd.clientId in dedup && SameRequest(cmd, dedup[cmd.clientId])
  }

  predicate SameRequest(a: Command, b: Command) {
    ((a.Join? && b.Join?) || (a.Leave? && b.Leave?) || (a.Move? && b.Move?)) && a.requestId == b.requestId
  }

  function Vacated(shards: seq<int>, gids: seq<int>): seq<int> {
    seq(|shards|, i requires 0 <= i < |shards| => if shards[i] in gids then 0 else shards[i])
  }

  /** No group is called 0, and a shard that is moved exists. */
  predicate Legal(cmd: Command) {
    (cmd.Join? ==> 0 !in cmd.servers) && (cmd.Move? ==> 0 <= cmd.shard < N_SHARDS)
  }

  predicate Sized(c: Config) {
    |c.shards| == N_SHARDS && 0 !in c.groups
  }

  ghost function Changed(c: Config, cmd: Command): (r: Config)
    requires Sized(c) && Legal(cmd) && !cmd.Query?
    ensures r.num == c.num + 1
  {
    match cmd
    case Join(servers, _, _) =>
      var groups := c.groups + servers;
      Config(c.num + 1, Rebalanced(c.shards, groups.Keys), groups)
    case Leave(gids, _, _) =>
      var groups := c.groups - (set g | g in gids);
      Config(c.num + 1, Rebalanced(Vacated(c.shards, gids), groups.Keys), groups)
    case Move(shard, gid, _, _) =>
      Config(c.num + 1, c.shards[shard := gid], c.groups)
  }

  ghost function Apply(s: State, index: int, cmd: Command): State
    requires s.configs != [] && Sized(Tail(s)) && Legal(cmd)
  {
    if index <= s.lastApplied || Duplicate(s.dedup, cmd) then s
    else if cmd.Query? then State(s.configs, s.dedup[0 := cmd], index)
    else State(s.configs + [Changed(Tail(s), cmd)], s.dedup[cmd.clientId := cmd], index)
  }

  // ---------------------------------------------------------------- what every command keeps

  /** Shards belong to groups if there are any, and to nobody if there are none. */
  ghost predicate Assigned(c: Config) {
    forall i :: 0 <= i < |c.shards| ==> Takes(c, c.shards[i])
  }

  ghost predicate Numbered(s: State) {
    && s.configs != []
    && forall n :: 0 <= n < |s.configs| ==> s.configs[n].num == n && Sized(s.configs[n])
  }

  ghost predicate HistoryOk(s: State) {
    Numbered(s) && forall n :: 0 <= n < |s.configs| ==> Assigned(s.configs[n])
  }

  /** A move that takes effect goes to a group of the current configuration, or to nobody if it has none. */
  ghost predicate MoveOk(s: State, index: int, cmd: Command)
    requires s.configs != []
  {
    cmd.Move? && index > s.lastApplied && !Duplicate(s.dedup, cmd) ==> Takes(Tail(s), cmd.gid)
  }

  ghost predicate Takes(c: Config, gid: int) {
    if c.groups.Keys == {} then gid == 0 else gid in c.groups
  }

  lemma ChangedSized(c: Config, cmd: Command)
    requires Sized(c) && Legal(cmd) && !cmd.Query?
    ensures Sized(Changed(c, cmd))
    ensures cmd.Join? || cmd.Leave? ==> Even(Changed(c, cmd).shards, Changed(c, cmd).groups.Keys)
  {
    if cmd.Join? {
      RebalanceLaw(c.shards, (c.groups + cmd.servers).Keys);
    } else if cmd.Leave? {
      RebalanceLaw(Vacated(c.shards, cmd.gids), (c.groups - (set g | g in cmd.gids)).Keys);
    }
  }

  lemma ChangedAssigned(c: Config, cmd: Command)
    requires Sized(c) && Assigned(c) && Legal(cmd) && !cmd.Query?
    ensures Assigned(Changed(c, cmd)) <==> (cmd.Move? ==> Takes(c, cmd.gid))
  {
    hide Rebalanced, Even;
    if cmd.Join? {
      RebalanceLaw(c.shards, (c.groups + cmd.servers).Keys);
    } else if cmd.Leave? {
      RebalanceLaw(Vacated(c.shards, cmd.gids), (c.groups - (set g | g in cmd.gids)).Keys);
    } else {
      assert Changed(c, cmd).shards[cmd.shard] == cmd.gid;
    }
  }

  /** Earlier configurations never change, and a command adds at most one, with the next number. */
  lemma ApplyNumbered(s: State, index: int, cmd: Command)
    requires Numbered(s) && Legal(cmd)
    ensures Numbered(Apply(s, index, cmd)) && s.configs <= Apply(s, index, cmd).configs
    ensures |Apply(s, index, cmd).configs| <= |s.configs| + 1
  {
    if !cmd.Query? {
      ChangedSized(Tail(s), cmd);
    }
  }

  /** The code does not check where a move goes: ownership survives a command if and only if it is no stray move. */
  lemma ApplyKeeps(s: State, index: int, cmd: Command)
    requires HistoryOk(s) && Legal(cmd)
    ensures HistoryOk(Apply(s, index, cmd)) <==> MoveOk(s, index, cmd)
  {
    ApplyNumbered(s, index, cmd);
    hide Changed, Assigned;
    if !cmd.Query? {
      ChangedAssigned(Tail(s), cmd);
      var t := Apply(s, index, cmd);
      if index > s.lastApplied && !Duplicate(s.dedup, cmd) {
        assert t.configs[|s.configs|] == Changed(Tail(s), cmd);
      }
    }
  }

  // ---------------------------------------------------------------- whole runs

  datatype Delivery = Delivery(index: int, cmd: Command)

  ghost predicate AllLegal(log: seq<Delivery>) {
    forall i :: 0 <= i < |log| ==> Legal(log[i].cmd)
  }

  /** The state after the deliveries, from the initial one. */
  ghost function Run(log: seq<Delivery>): (s: State)
    requires AllLegal(log)
    ensures Numbered(s)
  {
    if log == [] then Initial()
    else
      var s := Run(log[..|log| - 1]);
      var d := log[|log| - 1];
      ApplyNumbered(s, d.index, d.cmd);
      Apply(s, d.index, d.cmd)
  }

  ghost predicate MovesOk(log: seq<Delivery>)
    requires AllLegal(log)
  {
    forall i :: 0 <= i < |log| ==> MoveOk(Run(log[..i]), log[i].index, log[i].cmd)
  }

  lemma RunLast(log: seq<Delivery>)
    requires AllLegal(log) && log != []
    ensures var last := |log| - 1;
      && AllLegal(log[..last]) && Numbered(Run(log[..last])) && Legal(log[last].cmd)
      && Run(log) == Apply(Run(log[..last]), log[last].index, log[last].cmd)
  {
  }

  lemma MovesOkBefore(log: seq<Delivery>)
    requires AllLegal(log) && log != []
    ensures var last := |log| - 1;
      && AllLegal(log[..last])
      && (MovesOk(log) <==> MovesOk(log[..last]) && MoveOk(Run(log[..last]), log[last].index, log[last].cmd))
  {
    hide Run, MoveOk;
    var last := |log| - 1;
    var rest := log[..last];
    assert forall i :: 0 <= i < last ==> rest[..i] == log[..i] && rest[i] == log[i];
    if MovesOk(rest) && MoveOk(Run(rest), log[last].index, log[last].cmd) {
      forall i | 0 <= i < |log|
        ensures MoveOk(Run(log[..i]), log[i].index, log[i].cmd)
      {
        if i < last {
          assert MoveOk(Run(rest[..i]), rest[i].index, rest[i].cmd);
        }
      }
    }
    if MovesOk(log) {
      forall i | 0 <= i < last
        ensures MoveOk(Run(rest[..i]), rest[i].index, rest[i].cmd)
      {
        assert MoveOk(Run(log[..i]), log[i].index, log[i].cmd);
      }
    }
  }

  lemma HistoryBefore(s: State, index: int, cmd: Command)
    requires Numbered(s) && Legal(cmd) && HistoryOk(Apply(s, index, cmd))
    ensures HistoryOk(s)
  {
    ApplyNumbered(s, index, cmd);
    hide Apply, Assigned;
    var t := Apply(s, index, cmd);
    assert forall n :: 0 <= n < |s.configs| ==> s.configs[n] == t.configs[n];
  }

  /** In a run all shards are assigned to groups of their configurations if and only if it has no stray move. */
  lemma {:induction false} RunAssigned(log: seq<Delivery>)
    requires AllLegal(log)
    ensures HistoryOk(Run(log)) <==> MovesOk(log)
    decreases |log|
  {
    if log != [] {
      hide *;
      var last := |log| - 1;
      RunLast(log);
      MovesOkBefore(log);
      RunAssigned(log[..last]);
      if HistoryOk(Run(log)) {
        HistoryBefore(Run(log[..last]), log[last].index, log[last].cmd);
      }
      if HistoryOk(Run(log[..last])) {
        ApplyKeeps(Run(log[..last]), log[last].index, log[last].cmd);
      }
    }
  }

  /** Configurations once made are there, unchanged, in every longer run. */
  lemma {:induction false} RunExtends(log: seq<Delivery>, n: nat)
    requires AllLegal(log) && n <= |log|
    ensures AllLegal(log[..n]) && Run(log[..n]).configs <= Run(log).configs
    decreases |log|
  {
    hide Run, Apply, Numbered;
    if n == |log| {
      assert log[..n] == log;
    } else {
      var last := |log| - 1;
      RunLast(log);
      RunExtends(log[..last], n);
      assert log[..last][..n] == log[..n];
      ApplyNumbered(Run(log[..last]), log[last].index, log[last].cmd);
    }
  }

  /** The number a query asks for, or the latest if there is none such. */
  function Resolve(s: State, num: int): int
    requires s.configs != []
  {
    if num < 0 || num > Tail(s).num then Tail(s).num else num
  }

  /**
   A query is answered with the configuration of the number asked for if there is one, and never differently later.
   */
  lemma QueryLaw(log: seq<Delivery>, n: nat, num: int)
    requires AllLegal(log) && n <= |log|
    ensures AllLegal(log[..n])
    ensures var s, t := Run(log[..n]), Run(log);
      && 0 <= Resolve(s, num) < |s.configs|
      && s.configs[Resolve(s, num)].num == Resolve(s, num)
      && (0 <= num < |s.configs| ==> Resolve(s, num) == num && t.configs[Resolve(t, num)] == s.configs[num])
      && (!(0 <= num < |s.configs|) ==> Resolve(s, num) == |s.configs| - 1)
  {
    RunExtends(log, n);
  }

  // ---------------------------------------------------------------- retries

  /** Nobody else's command, nor a query if the client is 0, replaces what is remembered of a client. */
  predicate Keeps(cmd: Command, clientId: int) {
    if cmd.Query? then clientId != 0 else cmd.clientId != clientId
  }

  lemma {:induction false} Remembered(log: seq<Delivery>, n: nat, cmd: Command)
    requires AllLegal(log) && n <= |log| && AllLegal(log[..n]) && !cmd.Query?
    requires Duplicate(Run(log[..n]).dedup, cmd)
    requires forall i :: n <= i < |log| ==> Keeps(log[i].cmd, cmd.clientId)
    ensures Duplicate(Run(log).dedup, cmd)
    decreases |log|
  {
    hide Changed, Numbered;
    if n == |log| {
      assert log[..n] == log;
    } else {
      var last := |log| - 1;
      assert log[..last][..n] == log[..n];
      Remembered(log[..last], n, cmd);
    }
  }

  lemma AppliedIsDuplicate(s: State, index: int, cmd: Command)
    requires Numbered(s) && Legal(cmd) && !cmd.Query? && index > s.lastApplied
    ensures Duplicate(Apply(s, index, cmd).dedup, cmd)
  {
  }

  /** A command delivered again, wherever it lands before the client's next one, changes nothing. */
  lemma {:induction false} RetryIgnored(log: seq<Delivery>, n: nat, again: int)
    requires AllLegal(log) && n < |log| && !log[n].cmd.Query?
    requires AllLegal(log[..n]) && log[n].index > Run(log[..n]).lastApplied
    requires forall i :: n < i < |log| ==> Keeps(log[i].cmd, log[n].cmd.clientId)
    ensures var more := log + [Delivery(again, log[n].cmd)]; AllLegal(more) && Run(more) == Run(log)
  {
    RunOneMore(log, Delivery(again, log[n].cmd));
    RunOneMore(log[..n], log[n]);
    AppliedIsDuplicate(Run(log[..n]), log[n].index, log[n].cmd);
    hide Run, Changed, Numbered;
    assert log[..n] + [log[n]] == log[..n + 1];
    Remembered(log, n + 1, log[n].cmd);
  }

  lemma RunOneMore(log: seq<Delivery>, d: Delivery)
    requires AllLegal(log) && Legal(d.cmd)
    ensures AllLegal(log + [d]) && Run(log + [d]) == Apply(Run(log), d.index, d.cmd)
  {
  }
}
