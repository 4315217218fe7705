/**
 The controller object, whose methods update configs, dedup and lastApplied in place
 (src/db_files/shard-controller/server.go).
 */
module ShardCtrlerObject {
  import opened S = ShardController
  import R = Rebalance

  class ShardCtrler {
    var configs: seq<Config>
    var dedup: map<int, Command>
    var lastApplied: int

    ghost function Model(): State
      reads this
    {
      State(configs, dedup, lastApplied)
    }

    ghost predicate Valid()
      reads this
    {
      Numbered(Model())
    }

    constructor ()
      ensures Valid() && Model() == Initial()
    {
      configs := [Config(0, seq(N_SHARDS, i => 0), map[])];
      dedup := map[];
      lastApplied := 0;
    }

    /** A fresh copy of the latest configuration's assignment. */
    method CopyShards() returns (shards: array<int>)
      requires Valid()
      ensures fresh(shards) && shards[..] == Tail(Model()).shards
    {
      var tail := configs[|configs| - 1];
      shards := new int[N_SHARDS];
      for i := 0 to N_SHARDS
        invariant forall j :: 0 <= j < i ==> shards[j] == tail.shards[j]
      {
        shards[i] := tail.shards[i];
      }
      assert shards[..] == tail.shards;
    }

    method Apply(index: int, cmd: Command)
      requires Valid() && Legal(cmd)
      modifies this
      ensures Valid() && Model() == S.Apply(old(Model()), index, cmd)
    {
      ApplyNumbered(Model(), index, cmd);
      hide R.Rebalanced, Numbered, Changed;
      if index <= lastApplied {
        return;
      }
      var args := 0;
      if !cmd.Query? {
        args := cmd.clientId;
        if cmd.clientId in dedup {
          var dup := dedup[cmd.clientId];
          if SameRequest(cmd, dup) {
            return;
          }
        }
        Reconfigure(cmd);
      }
      dedup := dedup[args := cmd];
      lastApplied := index;
    }

    /** Appends the configuration a command leads to. */
    method Reconfigure(cmd: Command)
      requires Valid() && Legal(cmd) && !cmd.Query?
      modifies `configs
      ensures old(configs) != [] && configs == old(configs) + [Changed(Tail(old(Model())), cmd)]
    {
      hide R.Rebalanced;
      var shards := CopyShards();
      var tail := configs[|configs| - 1];
      var groups := tail.groups;
      if cmd.Join? {
        groups := groups + cmd.servers;
        R.Rebalance(shards, groups.Keys);
      } else if cmd.Leave? {
        groups := Vacate(shards, cmd.gids, groups);
        R.Rebalance(shards, groups.Keys);
      } else {
        shards[cmd.shard] := cmd.gid;
      }
      configs := configs + [Config(tail.num + 1, shards[..], groups)];
    }

    /** The configuration a query is answered with. */
    method Answer(num: int) returns (c: Config)
      requires Valid()
      ensures 0 <= Resolve(Model(), num) < |configs| && c == configs[Resolve(Model(), num)]
    {
      var n := num;
      if n < 0 || n > configs[|configs| - 1].num {
        n := configs[|configs| - 1].num;
      }
      c := configs[n];
    }
  }

  /** Takes the groups that leave out of the map and their shards back into the pool. */
  method Vacate(shards: array<int>, gids: seq<int>, groups: map<int, seq<string>>) returns (rest: map<int, seq<string>>)
    modifies shards
    ensures shards[..] == Vacated(old(shards[..]), gids)
    ensures rest == groups - (set g | g in gids)
  {
    rest := groups;
    for k := 0 to |gids|
      invariant forall i :: 0 <= i < shards.Length ==>
        shards[i] == if old(shards[i]) in gids[..k] then 0 else old(shards[i])
      invariant rest == groups - (set g | g in gids[..k])
    {
      assert gids[..k + 1] == gids[..k] + [gids[k]];
      label Before:
      for i := 0 to shards.Length
        invariant forall j :: 0 <= j < shards.Length ==>
          shards[j] == if j < i && old@Before(shards[j]) == gids[k] then 0 else old@Before(shards[j])
      {
        if shards[i] == gids[k] {
          shards[i] := 0;
        }
      }
      rest := rest - {gids[k]};
    }
    assert gids[..|gids|] == gids;
  }
}
