/** The server object, whose methods update kv, dedup and lastApplied in place (src/db_files/raft-db/server.go). */
module KvServerObject {
  import opened Common
  import opened S = KvState

  datatype Data = Data(kv: map<string, string>, dedup: map<int, Command>)

  datatype Snapshot = Snapshot(index: int, data: Data)

  lemma {:induction false} HandleAllOneMore(s: Store, msgs: seq<Message>, msg: Message)
    ensures HandleAll(s, msgs + [msg]) == Handle(HandleAll(s, msgs), msg)
    decreases |msgs|
  {
    if msgs == [] {
      assert (msgs + [msg])[1..] == [];
    } else {
      assert (msgs + [msg])[1..] == msgs[1..] + [msg];
      HandleAllOneMore(Handle(s, msgs[0]), msgs[1..], msg);
    }
  }

  /** What a waiting client is sent: the value it asked for, or that its write is done. */
  datatype Reply = Got(value: string) | Done

  /** What message i is answered with: for a get, the value in the state after it. */
  ghost function Answered(s: Store, msgs: seq<Message>, i: nat, leads: bool): Option<Reply>
    requires i < |msgs|
  {
    if !msgs[i].Deliver? || !leads then None
    else if msgs[i].cmd.Get? then Some(Got(Value(HandleAll(s, msgs[..i + 1]).kv, msgs[i].cmd.key)))
    else Some(Done)
  }

  class KVServer {
    var kv: map<string, string>
    var dedup: map<int, Command>
    var lastApplied: int

    ghost function Model(): Store
      reads this
    {
      Store(kv, dedup, lastApplied)
    }

    /** Starts from what the persister holds, or empty; lastApplied starts at 0 either way. */
    constructor (persisted: Option<Data>)
      ensures Model() == if persisted.Some? then Store(persisted.value.kv, persisted.value.dedup, 0) else EMPTY
    {
      kv := if persisted.Some? then persisted.value.kv else map[];
      dedup := if persisted.Some? then persisted.value.dedup else map[];
      lastApplied := 0;
    }

    /** Applies an entry; if the log has grown too large a snapshot goes with it, unless the entry was rejected. */
    method Apply(index: int, cmd: Command, full: bool) returns (snapshot: Option<Snapshot>)
      modifies this
      ensures Model() == S.Apply(old(Model()), index, cmd)
      ensures snapshot == if full && TakesSnapshot(old(Model()), index) then Some(Snapshot(index, Data(kv, dedup)))
        else None
    {
      if index <= lastApplied {
        return None;
      }
      match cmd {
        case Get(_) =>
          lastApplied := index;
        case Write(append, key, value, clientId, requestId) =>
          if !(clientId in dedup && dedup[clientId].Write? && dedup[clientId].requestId == requestId) {
            if append {
              kv := kv[key := (if key in kv then kv[key] else "") + value];
            } else {
              kv := kv[key := value];
            }
            dedup := dedup[clientId := cmd];
            lastApplied := index;
          }
      }
      if full {
        return Some(Snapshot(index, Data(kv, dedup)));
      }
      return None;
    }

    /** Handles messages until killed; a leader answers each entry, a get with the value it then finds. */
    method DoApply(msgs: seq<Message>, killed: nat -> bool, full: nat -> bool, leader: nat -> bool)
      returns (n: nat, answers: seq<Option<Reply>>)
      modifies this
      ensures n <= |msgs| && (n < |msgs| ==> killed(n)) && |answers| == n
      ensures Model() == HandleAll(old(Model()), msgs[..n])
      ensures forall i :: 0 <= i < n ==> answers[i] == Answered(old(Model()), msgs, i, leader(i))
    {
      n, answers := 0, [];
      while n < |msgs|
        invariant n <= |msgs| && |answers| == n
        invariant Model() == HandleAll(old(Model()), msgs[..n])
        invariant forall i :: 0 <= i < n ==> answers[i] == Answered(old(Model()), msgs, i, leader(i))
      {
        if killed(n) {
          return;
        }
        HandleAllOneMore(old(Model()), msgs[..n], msgs[n]);
        assert msgs[..n + 1] == msgs[..n] + [msgs[n]];
        hide HandleAll;
        var answer: Option<Reply> := None;
        match msgs[n] {
          case Deliver(index, cmd) =>
            var snapshot := Apply(index, cmd, full(n));
            if leader(n) {
              match cmd {
                case Get(key) => answer := Some(Got(if key in kv then kv[key] else ""));
                case Write(_, _, _, _, _) => answer := Some(Done);
              }
            }
          case Install(index, data, dups, accepted) =>
            if accepted {
              lastApplied, kv, dedup := index, data, dups;
            }
        }
        answers := answers + [answer];
        n := n + 1;
      }
    }
  }
}
