/** The replicated key-value state machine: apply and readSnapshot of src/db_files/raft-db/server.go. */
module KvState {

  datatype Command =
    | Get(key: string)
    | Write(append: bool, key: string, value: string, clientId: int, requestId: int)

  datatype Store = Store(kv: map<string, string>, dedup: map<int, Command>, lastApplied: int)

  const EMPTY := Store(map[], map[], 0)

  function Value(kv: map<string, string>, key: string): string {
    if key in kv then kv[key] else ""
  }

  function Effect(kv: map<string, string>, cmd: Command): map<string, string>
    requires cmd.Write?
  {
    kv[cmd.key := if cmd.append then Value(kv, cmd.key) + cmd.value else cmd.value]
  }

  /** The last write remembered of this client has the same request number. */
  predicate Duplicate(dedup: map<int, Command>, cmd: Command) {
    cmd.Write? && cmd.clientId in dedup && dedup[cmd.clientId].Write? && dedup[cmd.clientId].requestId == cmd.requestId
  }

  /** A duplicate does not even move lastApplied. */
  function Apply(s: Store, index: int, cmd: Command): Store {
    if index <= s.lastApplied || Duplicate(s.dedup, cmd) then s
    else if cmd.Get? then s.(lastApplied := index)
    else Store(Effect(s.kv, cmd), s.dedup[cmd.clientId := cmd], index)
  }

  // ---------------------------------------------------------------- replaying a log

  type Log = seq<Command>

  /** The state after the log has been delivered from the start; the first entry has index 1. */
  ghost function Replay(log: Log): (s: Store)
    ensures s.lastApplied <= |log|
  {
    if log == [] then EMPTY else Apply(Replay(log[..|log| - 1]), |log|, log[|log| - 1])
  }

  lemma ReplayOneMore(log: Log, n: nat)
    requires n < |log|
    ensures Replay(log[..n + 1]) == Apply(Replay(log[..n]), n + 1, log[n])
  {
    assert log[..n + 1][..n] == log[..n];
  }

  /** Entry i is executed when its turn comes. */
  ghost predicate Executes(log: Log, i: nat)
    requires i < |log|
  {
    log[i].Write? && !Duplicate(Replay(log[..i]).dedup, log[i])
  }

  predicate SameClient(a: Command, b: Command) {
    a.Write? && b.Write? && a.clientId == b.clientId
  }

  predicate SameRequest(a: Command, b: Command) {
    SameClient(a, b) && a.requestId == b.requestId
  }

  /** Entry i is the first copy of its request. */
  ghost predicate IsFirst(log: Log, i: nat)
    requires i < |log|
  {
    log[i].Write? && forall j :: 0 <= j < i ==> !SameRequest(log[j], log[i])
  }

  /** Place of the client's last write in the log, or the length of the log. */
  ghost function LastOf(log: Log, cmd: Command): (p: nat)
    ensures p <= |log|
    ensures p < |log| ==> SameClient(log[p], cmd) && forall j :: p < j < |log| ==> !SameClient(log[j], cmd)
    ensures p == |log| ==> forall j :: 0 <= j < |log| ==> !SameClient(log[j], cmd)
  {
    if log == [] then 0
    else
      var last := |log| - 1;
      if SameClient(log[last], cmd) then last
      else
        var p := LastOf(log[..last], cmd);
        if p < last then p else |log|
  }

  /** What is remembered of a client is the request of its last write in the log. */
  lemma {:induction false} DedupIsLast(log: Log, cmd: Command)
    requires cmd.Write?
    ensures Duplicate(Replay(log).dedup, cmd) <==> var p := LastOf(log, cmd); p < |log| && SameRequest(log[p], cmd)
    decreases |log|
  {
    if log != [] {
      var last := |log| - 1;
      var rest := log[..last];
      DedupIsLast(rest, cmd);
      var p := LastOf(rest, cmd);
      assert p < last ==> rest[p] == log[p];
    }
  }

  /** No request of a client shows up again after another one of the same client. */
  ghost predicate NoReturn(log: Log) {
    forall i, k, j :: 0 <= i < k < j < |log| && SameRequest(log[i], log[j]) && SameClient(log[i], log[k]) ==>
      SameRequest(log[i], log[k])
  }

  lemma ExecutesIffChanged(log: Log, i: nat)
    requires i < |log| && log[i].Write?
    ensures var p := LastOf(log[..i], log[i]); Executes(log, i) <==> p == i || !SameRequest(log[p], log[i])
  {
    DedupIsLast(log[..i], log[i]);
  }

  /** The first copy of a request is always executed. */
  lemma FirstExecutes(log: Log, i: nat)
    requires i < |log| && IsFirst(log, i)
    ensures Executes(log, i)
  {
    ExecutesIffChanged(log, i);
  }

  lemma NoReturnMeansOnce(log: Log, i: nat)
    requires NoReturn(log) && i < |log| && Executes(log, i)
    ensures IsFirst(log, i)
  {
    ExecutesIffChanged(log, i);
    var p := LastOf(log[..i], log[i]);
    forall j | 0 <= j < i
      ensures !SameRequest(log[j], log[i])
    {
      if p < i {
        assert log[..i][p] == log[p] && log[..i][j] == log[j];
      }
    }
  }

  /** A request that comes back after another one of its client is executed a second time. */
  lemma {:induction false} ReturnIsRepeated(log: Log, i: nat, k: nat, j: nat) returns (again: nat)
    requires i < k < j < |log| && SameRequest(log[i], log[j]) && SameClient(log[i], log[k])
      && !SameRequest(log[i], log[k])
    ensures again < |log| && Executes(log, again) && !IsFirst(log, again)
    decreases j
  {
    ExecutesIffChanged(log, j);
    var p := LastOf(log[..j], log[j]);
    assert log[..j][k] == log[k];
    if SameRequest(log[p], log[j]) {
      again := ReturnIsRepeated(log, i, k, p);
    } else {
      again := j;
    }
  }

  /** Each request is executed exactly once if and only if no request comes back after another one of its client. */
  lemma ExactlyOnce(log: Log)
    ensures NoReturn(log) <==> forall i :: 0 <= i < |log| ==> (Executes(log, i) <==> IsFirst(log, i))
  {
    if NoReturn(log) {
      forall i | 0 <= i < |log|
        ensures Executes(log, i) <==> IsFirst(log, i)
      {
        if Executes(log, i) {
          NoReturnMeansOnce(log, i);
        }
        if IsFirst(log, i) {
          FirstExecutes(log, i);
        }
      }
    } else {
      var i, k, j :| 0 <= i < k < j < |log| && SameRequest(log[i], log[j]) && SameClient(log[i], log[k])
        && !SameRequest(log[i], log[k]);
      var again := ReturnIsRepeated(log, i, k, j);
    }
  }

  /** The map after the first copy of each request has been executed, and nothing else. */
  ghost function Ideal(log: Log): map<string, string> {
    if log == [] then map[]
    else
      var last := |log| - 1;
      if IsFirst(log, last) then Effect(Ideal(log[..last]), log[last]) else Ideal(log[..last])
  }

  lemma {:induction false} ReplayIsIdeal(log: Log)
    requires NoReturn(log)
    ensures Replay(log).kv == Ideal(log)
    decreases |log|
  {
    if log != [] {
      var last := |log| - 1;
      assert forall i :: 0 <= i < last ==> log[..last][i] == log[i];
      ReplayIsIdeal(log[..last]);
      if IsFirst(log, last) {
        FirstExecutes(log, last);
      } else if Executes(log, last) {
        NoReturnMeansOnce(log, last);
      }
    }
  }

  lemma Appended(kv: map<string, string>, cmd: Command, was: string, now: string)
    requires cmd.Write? && cmd.append && cmd.key == "x" && Value(kv, "x") == was && was + cmd.value == now
      && kv.Keys <= {"x"}
    ensures Effect(kv, cmd) == map["x" := now]
  {
  }

  /** Without that condition it fails: an append that comes back is made twice. */
  lemma RepeatedAppend()
    ensures var a, b := Write(true, "x", "a", 1, 7), Write(true, "x", "b", 1, 8);
      !NoReturn([a, b, a]) && Replay([a, b, a]).kv == map["x" := "aba"] && Ideal([a, b, a]) == map["x" := "ab"]
  {
    var a, b := Write(true, "x", "a", 1, 7), Write(true, "x", "b", 1, 8);
    var log := [a, b, a];
    assert SameRequest(log[0], log[2]) && SameClient(log[0], log[1]) && !SameRequest(log[0], log[1]);
    assert [a][..0] == [] && [a, b][..1] == [a] && log[..2] == [a, b];
    Appended(map[], a, "", "a");
    assert Replay([a]) == Apply(EMPTY, 1, a) == Store(map["x" := "a"], map[1 := a], 1);
    Appended(map["x" := "a"], b, "a", "ab");
    assert map[1 := a][1 := b] == map[1 := b];
    assert Replay([a, b]) == Store(map["x" := "ab"], map[1 := b], 2);
    Appended(map["x" := "ab"], a, "ab", "aba");
    assert IsFirst([a], 0) && IsFirst([a, b], 1);
    assert Ideal([a]) == map["x" := "a"];
    assert Ideal([a, b]) == map["x" := "ab"];
  }

  // ---------------------------------------------------------------- deliveries, redeliveries and snapshots

  ghost predicate SameData(a: Store, b: Store) {
    a.kv == b.kv && a.dedup == b.dedup
  }

  /**
   The store has the first n entries; entries above floor may be delivered again, and those past lastApplied were
   duplicates.
   */
  ghost predicate Follows(s: Store, log: Log, floor: nat, n: nat) {
    && floor <= n <= |log| && s.lastApplied <= n
    && SameData(s, Replay(log[..n]))
    && forall i :: floor <= i < n && s.lastApplied <= i ==> Duplicate(s.dedup, log[i])
  }

  datatype Message =
    | Deliver(index: int, cmd: Command)
    | Install(index: int, kv: map<string, string>, dedup: map<int, Command>, accepted: bool)

  function Handle(s: Store, msg: Message): Store {
    match msg
    case Deliver(index, cmd) => Apply(s, index, cmd)
    case Install(index, kv, dedup, accepted) => if accepted then Store(kv, dedup, index) else s
  }

  /** Entries come in order or again; an accepted snapshot holds the state at its index and does not go back. */
  ghost predicate Expected(msg: Message, log: Log, floor: nat, n: nat) {
    match msg
    case Deliver(index, cmd) => floor < index <= n + 1 && index <= |log| && cmd == log[index - 1]
    case Install(index, kv, dedup, accepted) =>
      accepted ==> n <= index <= |log| && SameData(Store(kv, dedup, 0), Replay(log[..index]))
  }

  ghost function Position(msg: Message, n: nat): nat {
    match msg
    case Deliver(index, _) => if index > n then index else n
    case Install(index, _, _, accepted) => if accepted && index > n then index else n
  }

  /** Delivering an entry again changes nothing at all, although duplicates do not move lastApplied. */
  lemma RedeliveryIgnored(s: Store, log: Log, floor: nat, n: nat, j: nat)
    requires Follows(s, log, floor, n) && floor < j <= n
    ensures Apply(s, j, log[j - 1]) == s
  {
  }

  lemma NextEntry(s: Store, log: Log, floor: nat, n: nat)
    requires Follows(s, log, floor, n) && n < |log|
    ensures Follows(Apply(s, n + 1, log[n]), log, floor, n + 1)
  {
    ReplayOneMore(log, n);
  }

  lemma HandleFollows(s: Store, log: Log, floor: nat, n: nat, msg: Message)
    requires Follows(s, log, floor, n) && Expected(msg, log, floor, n)
    ensures Follows(Handle(s, msg), log, floor, Position(msg, n))
  {
    if msg.Deliver? {
      if msg.index == n + 1 {
        NextEntry(s, log, floor, n);
      } else {
        RedeliveryIgnored(s, log, floor, n, msg.index);
      }
    }
  }

  ghost function HandleAll(s: Store, msgs: seq<Message>): Store
    decreases |msgs|
  {
    if msgs == [] then s else HandleAll(Handle(s, msgs[0]), msgs[1..])
  }

  ghost function PositionAfter(msgs: seq<Message>, n: nat): nat {
    if msgs == [] then n else PositionAfter(msgs[1..], Position(msgs[0], n))
  }

  ghost predicate AllExpected(msgs: seq<Message>, log: Log, floor: nat, n: nat) {
    msgs == [] || (Expected(msgs[0], log, floor, n) && AllExpected(msgs[1..], log, floor, Position(msgs[0], n)))
  }

  /**
   After any run of deliveries, redeliveries and snapshots the store is the replay of the log up to where the run
   got.
   */
  lemma {:induction false} RunFollows(s: Store, log: Log, floor: nat, n: nat, msgs: seq<Message>)
    requires Follows(s, log, floor, n) && AllExpected(msgs, log, floor, n)
    ensures Follows(HandleAll(s, msgs), log, floor, PositionAfter(msgs, n))
    decreases |msgs|
  {
    if msgs != [] {
      HandleFollows(s, log, floor, n, msgs[0]);
      RunFollows(Handle(s, msgs[0]), log, floor, Position(msgs[0], n), msgs[1..]);
    }
  }

  // ---------------------------------------------------------------- restarting from a snapshot

  ghost function ReplayFrom(s: Store, log: Log, n: nat): Store
    requires n <= |log|
    decreases |log| - n
  {
    if n == |log| then s else ReplayFrom(Apply(s, n + 1, log[n]), log, n + 1)
  }

  lemma {:induction false} ReplayFromFollows(s: Store, log: Log, floor: nat, n: nat)
    requires Follows(s, log, floor, n)
    ensures SameData(ReplayFrom(s, log, n), Replay(log))
    decreases |log| - n
  {
    if n == |log| {
      assert log[..n] == log;
    } else {
      NextEntry(s, log, floor, n);
      ReplayFromFollows(Apply(s, n + 1, log[n]), log, floor, n + 1);
    }
  }

  lemma {:induction false} DuplicatesPass(s: Store, log: Log, i: nat, n: nat)
    requires i <= n <= |log| && forall k :: i <= k < n ==> Duplicate(s.dedup, log[k])
    ensures ReplayFrom(s, log, i) == ReplayFrom(s, log, n)
    decreases n - i
  {
    if i < n {
      DuplicatesPass(s, log, i + 1, n);
    }
  }

  /**
   A snapshot is taken when an entry has been applied and not rejected; the entry may be a duplicate delivered again.
   */
  ghost predicate TakesSnapshot(s: Store, index: int) {
    index > s.lastApplied
  }

  /** Restarting from any snapshot taken and replaying the entries after it gives what replaying the whole log gives. */
  lemma SnapshotLaw(s: Store, log: Log, floor: nat, n: nat, index: nat)
    requires Follows(s, log, floor, n) && 0 < index <= |log| && Expected(Deliver(index, log[index - 1]), log, floor, n)
    requires TakesSnapshot(s, index)
    ensures var t := Apply(s, index, log[index - 1]);
      SameData(ReplayFrom(Store(t.kv, t.dedup, 0), log, index), Replay(log))
  {
    var msg := Deliver(index, log[index - 1]);
    var t := Handle(s, msg);
    var m := Position(msg, n);
    HandleFollows(s, log, floor, n, msg);
    var restored := Store(t.kv, t.dedup, 0);
    DuplicatesPass(restored, log, index, m);
    assert Follows(restored, log, m, m);
    ReplayFromFollows(restored, log, m, m);
  }
}
