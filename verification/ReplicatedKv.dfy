/**
 The key-value servers of a cluster (src/db_files/raft-db/server.go) on top of consensus (src/db_files/raft/raft.go).

 Every server runs its own store, step by step with its Raft server: the store changes only by the code's own
 apply and readSnapshot, and a snapshot carries the sender's two maps, not the commands it stands for.
 */
module ReplicatedKv {
  import opened Common
  import T = RaftTypes
  import R = RaftServer
  import C = RaftCluster
  import H = RaftHistory
  import I = RaftInvariant
  import Safety = RaftSafety
  import Snapshots = RaftSnapshots
  import opened KvState
  import opened KvServerObject

  type Decoder = T.Command -> Command

  /** Snapshots, with the maps they carry. */
  type Copies = set<(R.SnapshotArgs, Data)>

  /** What a server answers a get at the given index with, and how far it had got by then. */
  datatype Answer = Answer(server: nat, index: nat, position: nat, key: string, value: string)

  datatype System = System(
    cluster: C.Cluster,
    stores: seq<Store>,
    disks: seq<Data>,                           // the maps in the persister's snapshot
    carried: Copies,                            // the snapshots sent
    answers: set<Answer>)

  /** A step of a server; data says which of the maps sent with a snapshot are the ones installed. */
  datatype Move = Move(step: C.Step, data: Data)

  function Saved(s: Store): Data {
    Data(s.kv, s.dedup)
  }

  function Loaded(data: Data, index: int): Store {
    Store(data.kv, data.dedup, index)
  }

  predicate Shaped(sys: System) {
    C.Sane(sys.cluster) && |sys.stores| == |sys.disks| == |sys.cluster.hosts|
  }

  // ---------------------------------------------------------------- what the services do in a step

  /** The service applies the entry, and answers it if it is a get. */
  function Applied(sys: System, i: nat, decode: Decoder): System
    requires Shaped(sys) && i < |sys.stores|
  {
    var x := sys.cluster.hosts[i];
    match x.inflight
    case None => sys
    case Some(e) =>
      var cmd := decode(e.command);
      var s := Apply(sys.stores[i], e.index, cmd);
      var position := if e.index <= |x.applied| then |x.applied| else |x.applied| + 1;
      sys.(stores := sys.stores[i := s],
           answers := if cmd.Get? then sys.answers + {Answer(i, e.index, position, cmd.key, Value(s.kv, cmd.key))}
                      else sys.answers)
  }

  /** The maps go into the persister, if the log has the entry at the snapshot's index. */
  function Persisted(sys: System, i: nat): System
    requires Shaped(sys) && i < |sys.stores|
  {
    var x := sys.cluster.hosts[i];
    if R.At(x.raft.log, |x.applied|).Some? then sys.(disks := sys.disks[i := Saved(sys.stores[i])]) else sys
  }

  predicate Sends(sys: System, i: nat, peer: nat)
    requires Shaped(sys) && i < |sys.stores|
  {
    sys.cluster.hosts[i].raft.role == R.Leader && peer != i && peer < |sys.stores|
  }

  /** A snapshot goes out with the maps the persister holds. */
  function SentOut(sys: System, i: nat, peer: nat): System
    requires Shaped(sys) && i < |sys.stores|
  {
    if !Sends(sys, i, peer) then sys
    else
      match R.Replicate(sys.cluster.hosts[i].raft, peer)
      case Some(Install(args)) => sys.(carried := sys.carried + {(args, sys.disks[i])})
      case _ => sys
  }

  predicate Accepts(x: C.Host, a: R.SnapshotArgs)
    requires R.WellFormed(x.raft)
  {
    a in x.installs
    && var r := R.CondInstallSnapshot(x.raft, a.lastIncludedTerm, a.lastIncludedIndex, a.data); r.Some? && r.value.1
  }

  /** A snapshot the Raft server accepts replaces the maps, in the store and in the persister. */
  function Switched(sys: System, i: nat, a: R.SnapshotArgs, data: Data): System
    requires Shaped(sys) && i < |sys.stores|
  {
    if !Accepts(sys.cluster.hosts[i], a) then sys
    else sys.(stores := sys.stores[i := Loaded(data, a.lastIncludedIndex)], disks := sys.disks[i := data])
  }

  /** A new process reads the persister's snapshot, with lastApplied 0. */
  function Reloaded(sys: System, i: nat): System
    requires Shaped(sys) && i < |sys.stores|
  {
    sys.(stores := sys.stores[i := Loaded(sys.disks[i], 0)])
  }

  function Beside(sys: System, m: Move, decode: Decoder): (r: System)
    requires Shaped(sys)
    ensures |r.stores| == |r.disks| == |sys.stores|
  {
    if m.step.Receive? || m.step.i >= |sys.stores| then sys
    else
      match m.step
      case Deliver(i) => Applied(sys, i, decode)
      case TakeSnapshot(i) => Persisted(sys, i)
      case SendTo(i, peer) => SentOut(sys, i, peer)
      case InstallNow(i, a) => Switched(sys, i, a, m.data)
      case Crash(i) => Reloaded(sys, i)
      case _ => sys
  }

  /** The maps a server installs were sent with the snapshot it received. */
  predicate Enabled(sys: System, m: Move)
    requires Shaped(sys)
  {
    m.step.InstallNow? && m.step.i < |sys.stores| && m.step.snapshot in sys.cluster.hosts[m.step.i].installs ==>
      (m.step.snapshot, m.data) in sys.carried
  }

  /** One step of the Raft server and of the service on top of it. */
  function Go(sys: System, m: Move, decode: Decoder): (r: Option<System>)
    requires Shaped(sys)
    ensures r.Some? ==> Shaped(r.value) && |r.value.stores| == |sys.stores|
  {
    if !Enabled(sys, m) then Some(sys)
    else
      match C.Take(sys.cluster, m.step)
      case Panicked => None
      case Running(c) => Some(Beside(sys, m, decode).(cluster := c))
  }

  function Start(n: nat): (r: System)
    ensures Shaped(r) && |r.stores| == n
  {
    System(C.Boot(n), seq(n, _ => EMPTY), seq(n, _ => Saved(EMPTY)), {}, {})
  }

  function Run(n: nat, moves: seq<Move>, decode: Decoder): (r: Option<System>)
    ensures r.Some? ==> Shaped(r.value) && |r.value.stores| == n
  {
    if moves == [] then Some(Start(n))
    else
      match Run(n, moves[..|moves| - 1], decode)
      case None => None
      case Some(sys) => Go(sys, moves[|moves| - 1], decode)
  }

  /** The steps of the Raft servers in a run; a move that is not enabled is a step of no server. */
  ghost function Steps(n: nat, moves: seq<Move>, decode: Decoder): (r: seq<C.Step>)
    ensures |r| == |moves|
  {
    if moves == [] then []
    else
      var rest, m := moves[..|moves| - 1], moves[|moves| - 1];
      var sys := Run(n, rest, decode);
      Steps(n, rest, decode) + [if sys.Some? && Enabled(sys.value, m) then m.step else C.Timeout(n)]
  }

  // ---------------------------------------------------------------- what holds of every server

  ghost function Decoded(commands: seq<T.Command>, decode: Decoder): (log: Log)
    ensures |log| == |commands| && forall i :: 0 <= i < |log| ==> log[i] == decode(commands[i])
  {
    seq(|commands|, i requires 0 <= i < |commands| => decode(commands[i]))
  }

  /** The maps a server has after executing the commands, one by one and from the start. */
  ghost function MapsOf(commands: seq<T.Command>, decode: Decoder): Data {
    Saved(Replay(Decoded(commands, decode)))
  }

  ghost predicate ServesOk(x: C.Host, s: Store, disk: Data, decode: Decoder) {
    && Saved(s) == MapsOf(x.applied, decode)
    && disk == MapsOf(x.raft.snapshot, decode)
    && s.lastApplied <= |x.applied|
    && (x.inflight.Some? && x.inflight.value.index <= |x.applied| ==> x.inflight.value.index <= s.lastApplied)
  }

  ghost predicate CarriedOk(carried: Copies, decode: Decoder) {
    forall p :: p in carried ==> p.1 == MapsOf(p.0.data, decode)
  }

  ghost predicate SystemOk(sys: System, decode: Decoder) {
    && Shaped(sys)
    && (forall i :: 0 <= i < |sys.stores| ==> ServesOk(sys.cluster.hosts[i], sys.stores[i], sys.disks[i], decode))
    && CarriedOk(sys.carried, decode)
  }

  // ---------------------------------------------------------------- steps that do not reach the service

  predicate SameService(x: C.Host, y: C.Host) {
    y.applied == x.applied && y.inflight == x.inflight && y.raft.snapshot == x.raft.snapshot
  }

  ghost predicate SameServices(c: C.Cluster, d: C.Cluster) {
    |c.hosts| == |d.hosts| && forall i :: 0 <= i < |c.hosts| ==> SameService(c.hosts[i], d.hosts[i])
  }

  lemma ReceivedVote(c: C.Cluster, m: C.Message)
    requires C.Sane(c) && m in c.net && (m.VoteRequest? || m.VoteResponse?)
    ensures C.DoReceive(c, m).Running? && SameServices(c, C.DoReceive(c, m).cluster)
  {
  }

  lemma ReceivedAppend(c: C.Cluster, m: C.Message)
    requires C.Sane(c) && m in c.net && m.AppendRequest?
    ensures C.DoReceive(c, m).Running? && SameServices(c, C.DoReceive(c, m).cluster)
  {
  }

  lemma ReceivedResponse(c: C.Cluster, m: C.Message)
    requires C.Sane(c) && m in c.net && m.AppendResponse? && C.DoReceive(c, m).Running?
    ensures SameServices(c, C.DoReceive(c, m).cluster)
  {
  }

  lemma ReceivedSnapshot(c: C.Cluster, m: C.Message)
    requires C.Sane(c) && m in c.net && (m.SnapshotRequest? || m.SnapshotResponse?)
    ensures C.DoReceive(c, m).Running? && SameServices(c, C.DoReceive(c, m).cluster)
  {
  }

  predicate Quiet(step: C.Step) {
    step.Receive? || step.Timeout? || step.SendTo? || step.Submit?
  }

  lemma StoodSame(c: C.Cluster, i: nat)
    requires C.Sane(c) && i < |c.hosts|
    ensures SameServices(c, C.DoTimeout(c, i))
  {
  }

  lemma QuietStep(c: C.Cluster, step: C.Step)
    requires C.Sane(c) && Quiet(step) && C.Take(c, step).Running?
    ensures SameServices(c, C.Take(c, step).cluster)
  {
    hide C.DoReceive, C.DoTimeout;
    if step.Timeout? && step.i < |c.hosts| {
      StoodSame(c, step.i);
    }
    if step.Receive? && step.m in c.net {
      match step.m
      case VoteRequest(_, _) => ReceivedVote(c, step.m);
      case VoteResponse(_, _, _, _) => ReceivedVote(c, step.m);
      case AppendRequest(_, _) => ReceivedAppend(c, step.m);
      case AppendResponse(_, _, _, _) => ReceivedResponse(c, step.m);
      case SnapshotRequest(_, _) => ReceivedSnapshot(c, step.m);
      case SnapshotResponse(_, _, _, _) => ReceivedSnapshot(c, step.m);
    }
  }

  // ---------------------------------------------------------------- steps that do

  lemma DecodedMore(commands: seq<T.Command>, command: T.Command, decode: Decoder)
    ensures var log := Decoded(commands + [command], decode);
      |log| == |commands| + 1 && log[..|commands|] == Decoded(commands, decode) && log[|commands|] == decode(command)
  {
  }

  /** Applying the next entry follows the replay, whatever lastApplied is. */
  lemma AppliedNext(s: Store, commands: seq<T.Command>, command: T.Command, decode: Decoder)
    requires Saved(s) == MapsOf(commands, decode) && s.lastApplied <= |commands|
    ensures var t := Apply(s, |commands| + 1, decode(command));
      Saved(t) == MapsOf(commands + [command], decode) && t.lastApplied <= |commands| + 1
  {
    var log := Decoded(commands + [command], decode);
    DecodedMore(commands, command, decode);
    NextEntry(s, log, |commands|, |commands|);
    assert log[..|commands| + 1] == log;
  }

  lemma Delivering(h: H.History, sys: System, i: nat, decode: Decoder)
    requires I.Inv(h, sys.cluster) && SystemOk(sys, decode) && i < |sys.stores|
    ensures var r := Applied(sys, i, decode);
      ServesOk(C.DoDeliver(sys.cluster, i).hosts[i], r.stores[i], r.disks[i], decode)
  {
    hide I.Inv, Apply;
    var x := sys.cluster.hosts[i];
    if x.inflight.Some? {
      Snapshots.InFlight(h, sys.cluster, i);
      var e := x.inflight.value;
      if e.index <= |x.applied| {
        Overtaken(sys.stores[i], e.index, decode(e.command));
      } else {
        AppliedNext(sys.stores[i], x.applied, e.command, decode);
      }
    }
  }

  lemma Overtaken(s: Store, index: int, cmd: Command)
    requires index <= s.lastApplied
    ensures Apply(s, index, cmd) == s
  {
  }

  /** The entry the delivery loop takes lies beyond what the service has. */
  lemma PulledBeyond(h: H.History, x: C.Host, i: nat)
    requires i < |h.terms| == |h.logs| == |h.committed| && I.HostOk(h, x, i) && R.WellFormed(x.raft) && x.inflight.None?
    ensures R.ApplyNext(x.raft).Some? ==>
      var (s, e) := R.ApplyNext(x.raft).value;
      s.snapshot == x.raft.snapshot && (e.Some? ==> e.value.index > |x.applied|)
  {
    hide I.KnownOk, I.LeaderOk, I.CandidateOk, I.SnapshotOk;
  }

  lemma Pulling(h: H.History, sys: System, i: nat, decode: Decoder)
    requires I.Inv(h, sys.cluster) && SystemOk(sys, decode) && i < |sys.stores| && C.DoPull(sys.cluster, i).Running?
    ensures ServesOk(C.DoPull(sys.cluster, i).cluster.hosts[i], sys.stores[i], sys.disks[i], decode)
  {
    hide I.Inv, I.HostOk, R.ApplyNext, MapsOf;
    I.HostFacts(h, sys.cluster, i);
    var x := sys.cluster.hosts[i];
    if x.inflight.None? {
      PulledBeyond(h, x, i);
    }
  }

  lemma Saving(sys: System, i: nat, decode: Decoder)
    requires SystemOk(sys, decode) && i < |sys.stores|
    ensures var r := Persisted(sys, i);
      ServesOk(C.DoTakeSnapshot(sys.cluster, i).hosts[i], r.stores[i], r.disks[i], decode)
  {
  }

  lemma Installing(h: H.History, sys: System, i: nat, a: R.SnapshotArgs, data: Data, decode: Decoder)
    requires I.Inv(h, sys.cluster) && SystemOk(sys, decode) && i < |sys.stores|
    requires C.DoInstallNow(sys.cluster, i, a).Running?
    requires a in sys.cluster.hosts[i].installs ==> (a, data) in sys.carried
    ensures var r := Switched(sys, i, a, data);
      ServesOk(C.DoInstallNow(sys.cluster, i, a).cluster.hosts[i], r.stores[i], r.disks[i], decode)
  {
    hide I.Inv, I.HostOk, MapsOf;
    I.HostFacts(h, sys.cluster, i);
    if a in sys.cluster.hosts[i].installs {
      WaitingLength(h, sys.cluster.hosts[i], i, a);
      assert (a, data).1 == MapsOf((a, data).0.data, decode);
    }
  }

  lemma WaitingLength(h: H.History, x: C.Host, i: nat, a: R.SnapshotArgs)
    requires i < |h.terms| == |h.logs| == |h.committed| && I.HostOk(h, x, i) && a in x.installs
    ensures |a.data| == a.lastIncludedIndex
  {
    hide I.KnownOk, I.LeaderOk, I.CandidateOk, I.ServiceOk, H.InCommitted;
    assert I.SnapshotOk(h, x.raft.term, a);
  }

  lemma Restarting(sys: System, i: nat, decode: Decoder)
    requires SystemOk(sys, decode) && i < |sys.stores|
    ensures ServesOk(C.DoCrash(sys.cluster, i).hosts[i], Reloaded(sys, i).stores[i], sys.disks[i], decode)
  {
  }

  // ---------------------------------------------------------------- every move keeps it

  /** Only server i and its service have moved. */
  ghost predicate Alone(sys: System, r: System, i: nat)
    requires Shaped(sys) && Shaped(r)
  {
    && |r.stores| == |sys.stores|
    && r.carried == sys.carried
    && forall j :: 0 <= j < |sys.stores| && j != i ==>
         r.cluster.hosts[j] == sys.cluster.hosts[j] && r.stores[j] == sys.stores[j] && r.disks[j] == sys.disks[j]
  }

  lemma AloneKeeps(sys: System, r: System, i: nat, decode: Decoder)
    requires SystemOk(sys, decode) && Shaped(r) && Alone(sys, r, i) && i < |sys.stores|
    requires ServesOk(r.cluster.hosts[i], r.stores[i], r.disks[i], decode)
    ensures SystemOk(r, decode)
  {
    hide ServesOk, CarriedOk;
  }

  lemma LocalStep(sys: System, m: Move, decode: Decoder)
    requires Shaped(sys) && Enabled(sys, m) && !Quiet(m.step) && m.step.i < |sys.stores| && Go(sys, m, decode).Some?
    ensures Alone(sys, Go(sys, m, decode).value, m.step.i)
  {
    hide R.ApplyNext, R.CondInstallSnapshot, R.Compact, Apply;
  }

  lemma LocalKeeps(h: H.History, sys: System, m: Move, decode: Decoder)
    requires I.Inv(h, sys.cluster) && SystemOk(sys, decode) && Enabled(sys, m)
    requires !Quiet(m.step) && m.step.i < |sys.stores| && Go(sys, m, decode).Some?
    ensures SystemOk(Go(sys, m, decode).value, decode)
  {
    LocalStep(sys, m, decode);
    hide I.Inv, ServesOk, CarriedOk, Alone, C.DoPull, C.DoDeliver, C.DoTakeSnapshot, C.DoInstallNow, C.DoCrash;
    match m.step {
      case Pull(i) => Pulling(h, sys, i, decode);
      case Deliver(i) => Delivering(h, sys, i, decode);
      case TakeSnapshot(i) => Saving(sys, i, decode);
      case InstallNow(i, a) => Installing(h, sys, i, a, m.data, decode);
      case Crash(i) => Restarting(sys, i, decode);
    }
    AloneKeeps(sys, Go(sys, m, decode).value, m.step.i, decode);
  }

  lemma SentOutOk(sys: System, i: nat, peer: nat, decode: Decoder)
    requires SystemOk(sys, decode) && i < |sys.stores|
    ensures var r := SentOut(sys, i, peer);
      CarriedOk(r.carried, decode) && r.stores == sys.stores && r.disks == sys.disks
  {
    hide MapsOf;
  }

  lemma QuietKeeps(sys: System, m: Move, decode: Decoder)
    requires SystemOk(sys, decode) && Enabled(sys, m) && Go(sys, m, decode).Some?
    requires Quiet(m.step) || m.step.i >= |sys.stores|
    ensures SystemOk(Go(sys, m, decode).value, decode)
  {
    hide C.Take, MapsOf, SentOut;
    if Quiet(m.step) {
      QuietStep(sys.cluster, m.step);
      if m.step.SendTo? && m.step.i < |sys.stores| {
        SentOutOk(sys, m.step.i, m.step.peer, decode);
      }
    } else {
      StepOfNobody(sys.cluster, m.step);
    }
  }

  lemma StepOfNobody(c: C.Cluster, step: C.Step)
    requires C.Sane(c) && !step.Receive? && step.i >= |c.hosts|
    ensures C.Take(c, step) == C.Running(c)
  {
  }

  lemma MoveKeeps(h: H.History, sys: System, m: Move, decode: Decoder) returns (k: H.History)
    requires I.Inv(h, sys.cluster) && SystemOk(sys, decode)
    ensures Go(sys, m, decode).Some? && SystemOk(Go(sys, m, decode).value, decode)
    ensures I.Inv(k, Go(sys, m, decode).value.cluster)
  {
    hide I.Inv, ServesOk, CarriedOk, C.Take, Beside;
    k := h;
    if Enabled(sys, m) {
      k := Safety.StepKeeps(h, sys.cluster, m.step);
      if Quiet(m.step) || m.step.i >= |sys.stores| {
        QuietKeeps(sys, m, decode);
      } else {
        LocalKeeps(h, sys, m, decode);
      }
    }
  }

  lemma StartOk(n: nat, decode: Decoder)
    ensures SystemOk(Start(n), decode)
  {
    assert Decoded([], decode) == [];
  }

  /** The Raft servers of a run make a run of their own, and every store follows its server. */
  lemma {:induction false} RunKeeps(n: nat, moves: seq<Move>, decode: Decoder) returns (h: H.History)
    ensures Run(n, moves, decode).Some? && SystemOk(Run(n, moves, decode).value, decode)
    ensures I.Inv(h, Run(n, moves, decode).value.cluster)
    ensures C.Run(n, Steps(n, moves, decode)) == C.Running(Run(n, moves, decode).value.cluster)
    decreases |moves|
  {
    hide I.Inv, SystemOk, Go, C.Take, Enabled;
    if moves == [] {
      StartOk(n, decode);
      h := Safety.RunKeeps(n, []);
    } else {
      var rest, m := moves[..|moves| - 1], moves[|moves| - 1];
      var g := RunKeeps(n, rest, decode);
      var sys := Run(n, rest, decode).value;
      h := MoveKeeps(g, sys, m, decode);
      MoveIsStep(n, sys, m, decode);
      var steps := Steps(n, moves, decode);
      assert steps[..|steps| - 1] == Steps(n, rest, decode);
    }
  }

  lemma MoveIsStep(n: nat, sys: System, m: Move, decode: Decoder)
    requires Shaped(sys) && |sys.stores| == n && Go(sys, m, decode).Some?
    ensures C.Take(sys.cluster, if Enabled(sys, m) then m.step else C.Timeout(n))
         == C.Running(Go(sys, m, decode).value.cluster)
  {
    hide Enabled, Beside;
    StepOfNobody(sys.cluster, C.Timeout(n));
    hide C.Take;
  }

  // ---------------------------------------------------------------- over every run

  lemma OneOfAll(sys: System, i: nat, decode: Decoder)
    requires SystemOk(sys, decode) && i < |sys.stores|
    ensures ServesOk(sys.cluster.hosts[i], sys.stores[i], sys.disks[i], decode)
  {
    hide ServesOk, CarriedOk;
  }

  /**
   However a server came to its state, by deliveries, received snapshots and restarts, its maps are those of
   executing its commands one by one; the maps in its persister are those of the commands its snapshot stands for.
   */
  lemma StoreIsReplay(n: nat, moves: seq<Move>, i: nat, decode: Decoder)
    requires i < n
    ensures Run(n, moves, decode).Some?
    ensures var sys := Run(n, moves, decode).value;
      && SameData(sys.stores[i], Replay(Decoded(sys.cluster.hosts[i].applied, decode)))
      && sys.disks[i] == Saved(Replay(Decoded(sys.cluster.hosts[i].raft.snapshot, decode)))
      && sys.stores[i].lastApplied <= |sys.cluster.hosts[i].applied|
  {
    hide Run, SystemOk, I.Inv, Steps, C.Run;
    var _ := RunKeeps(n, moves, decode);
    OneOfAll(Run(n, moves, decode).value, i, decode);
  }

  lemma {:induction false} StepsPrefix(n: nat, moves: seq<Move>, j: nat, decode: Decoder)
    requires j <= |moves|
    ensures Steps(n, moves, decode)[..j] == Steps(n, moves[..j], decode)
    decreases |moves|
  {
    if j == |moves| {
      assert moves[..j] == moves;
    } else {
      var rest := moves[..|moves| - 1];
      StepsPrefix(n, rest, j, decode);
      assert rest[..j] == moves[..j];
      assert Steps(n, moves, decode)[..j] == Steps(n, rest, decode)[..j];
    }
  }

  /** What two services have executed at two moments of a run agrees as far as both got. */
  lemma ExecutedAgree(n: nat, moves: seq<Move>, j: nat, a: nat, b: nat, decode: Decoder)
    requires j <= |moves| && a < n && b < n
    ensures Run(n, moves[..j], decode).Some? && Run(n, moves, decode).Some?
    ensures var x := Run(n, moves[..j], decode).value.cluster.hosts[a].applied;
      var y := Run(n, moves, decode).value.cluster.hosts[b].applied;
      (|x| <= |y| ==> x <= y) && (|y| <= |x| ==> y <= x)
  {
    hide Run, Steps, SystemOk, I.Inv, C.Run;
    var _ := RunKeeps(n, moves[..j], decode);
    var _ := RunKeeps(n, moves, decode);
    StepsPrefix(n, moves, j, decode);
    Safety.ServicesAgree(n, Steps(n, moves, decode), j, a, b);
  }

  /** Executing what is missing takes the store of a server to that of one further on. */
  lemma CatchUp(s: Store, x: seq<T.Command>, t: Store, y: seq<T.Command>, decode: Decoder)
    requires x <= y && SameData(s, Replay(Decoded(x, decode))) && SameData(t, Replay(Decoded(y, decode)))
    requires s.lastApplied <= |x|
    ensures SameData(ReplayFrom(s, Decoded(y, decode), |x|), t)
    ensures |x| == |y| ==> SameData(s, t)
  {
    hide Replay, ReplayFrom;
    var log := Decoded(y, decode);
    assert log[..|x|] == Decoded(x, decode);
    ReplayFromFollows(s, log, |x|, |x|);
    if |x| == |y| {
      assert x == y;
    }
  }

  /**
   The stores of any two servers, at any two moments of any run: the one less far on becomes the other by
   executing what it misses, and equally far ones hold equal maps.
   */
  lemma ReplicasAgree(n: nat, moves: seq<Move>, j: nat, a: nat, b: nat, decode: Decoder)
    requires j <= |moves| && a < n && b < n
    ensures Run(n, moves[..j], decode).Some? && Run(n, moves, decode).Some?
    ensures var before, now := Run(n, moves[..j], decode).value, Run(n, moves, decode).value;
      var x, y := before.cluster.hosts[a].applied, now.cluster.hosts[b].applied;
      && (|x| <= |y| ==> SameData(ReplayFrom(before.stores[a], Decoded(y, decode), |x|), now.stores[b]))
      && (|y| <= |x| ==> SameData(ReplayFrom(now.stores[b], Decoded(x, decode), |y|), before.stores[a]))
      && (|x| == |y| ==> SameData(before.stores[a], now.stores[b]))
  {
    hide Run, Replay, ReplayFrom;
    ExecutedAgree(n, moves, j, a, b, decode);
    StoreIsReplay(n, moves[..j], a, decode);
    StoreIsReplay(n, moves, b, decode);
    var before, now := Run(n, moves[..j], decode).value, Run(n, moves, decode).value;
    var x, y := before.cluster.hosts[a].applied, now.cluster.hosts[b].applied;
    if |x| <= |y| {
      CatchUp(before.stores[a], x, now.stores[b], y, decode);
    }
    if |y| <= |x| {
      CatchUp(now.stores[b], y, before.stores[a], x, decode);
    }
  }

  // ---------------------------------------------------------------- answers to gets

  /** The server has just answered: from its store, to a get that is in what it has executed. */
  ghost predicate JustAnswered(sys: System, ans: Answer, decode: Decoder) {
    && Shaped(sys)
    && ans.server < |sys.stores|
    && var x := sys.cluster.hosts[ans.server];
    && 1 <= ans.index <= ans.position == |x.applied|
    && decode(x.applied[ans.index - 1]) == Get(ans.key)
    && ans.value == Value(sys.stores[ans.server].kv, ans.key)
  }

  lemma AnswerNew(h: H.History, sys: System, m: Move, ans: Answer, decode: Decoder)
    requires I.Inv(h, sys.cluster) && Shaped(sys) && Go(sys, m, decode).Some?
    requires ans in Go(sys, m, decode).value.answers && ans !in sys.answers
    ensures JustAnswered(Go(sys, m, decode).value, ans, decode)
  {
    hide I.Inv, Apply, R.Replicate, R.CondInstallSnapshot;
    if Enabled(sys, m) && !m.step.Receive? && m.step.i < |sys.stores| && m.step.Deliver? {
      var i := m.step.i;
      if sys.cluster.hosts[i].inflight.Some? {
        Snapshots.InFlight(h, sys.cluster, i);
      }
    }
  }

  lemma {:induction false} AnswerMade(n: nat, moves: seq<Move>, ans: Answer, decode: Decoder) returns (j: nat)
    requires Run(n, moves, decode).Some? && ans in Run(n, moves, decode).value.answers
    ensures j <= |moves| && Run(n, moves[..j], decode).Some?
    ensures JustAnswered(Run(n, moves[..j], decode).value, ans, decode)
    decreases |moves|
  {
    hide I.Inv, SystemOk, Go, Steps, JustAnswered;
    var rest, m := moves[..|moves| - 1], moves[|moves| - 1];
    var h := RunKeeps(n, rest, decode);
    if ans in Run(n, rest, decode).value.answers {
      j := AnswerMade(n, rest, ans, decode);
      assert rest[..j] == moves[..j];
    } else {
      AnswerNew(h, Run(n, rest, decode).value, m, ans, decode);
      j := |moves|;
      assert moves[..j] == moves;
    }
  }

  /** Every get that reaches a service is answered, with the value the service then has. */
  lemma GetsAnswered(sys: System, i: nat, data: Data, decode: Decoder)
    requires Shaped(sys) && i < |sys.stores| && sys.cluster.hosts[i].inflight.Some?
    requires decode(sys.cluster.hosts[i].inflight.value.command).Get?
    ensures Go(sys, Move(C.Deliver(i), data), decode).Some?
    ensures var e := sys.cluster.hosts[i].inflight.value;
      var r := Go(sys, Move(C.Deliver(i), data), decode).value;
      var key := decode(e.command).key;
      exists position :: Answer(i, e.index, position, key, Value(r.stores[i].kv, key)) in r.answers
  {
    hide KvState.Apply;
    var x := sys.cluster.hosts[i];
    var e := x.inflight.value;
    var r := Go(sys, Move(C.Deliver(i), data), decode).value;
    var position := if e.index <= |x.applied| then |x.applied| else |x.applied| + 1;
    assert Answer(i, e.index, position, decode(e.command).key,
      Value(r.stores[i].kv, decode(e.command).key)) in r.answers;
  }

  /**
   A get is answered with the value its log position gives: that of executing the commands up to the position the
   answering server had reached, which is not before the get.
   */
  lemma AnswersFollowLog(n: nat, moves: seq<Move>, ans: Answer, b: nat, decode: Decoder)
    requires Run(n, moves, decode).Some? && ans in Run(n, moves, decode).value.answers && b < n
    requires ans.position <= |Run(n, moves, decode).value.cluster.hosts[b].applied|
    ensures var y := Run(n, moves, decode).value.cluster.hosts[b].applied;
      && 1 <= ans.index <= ans.position
      && decode(y[ans.index - 1]) == Get(ans.key)
      && ans.value == Value(Replay(Decoded(y[..ans.position], decode)).kv, ans.key)
  {
    hide Run, Replay;
    var j := AnswerMade(n, moves, ans, decode);
    ExecutedAgree(n, moves, j, ans.server, b, decode);
    StoreIsReplay(n, moves[..j], ans.server, decode);
    var x := Run(n, moves[..j], decode).value.cluster.hosts[ans.server].applied;
    var y := Run(n, moves, decode).value.cluster.hosts[b].applied;
    assert x == y[..ans.position];
  }

  // ---------------------------------------------------------------- no run of the Raft servers is left out

  ghost predicate HasCopy(carried: Copies, a: R.SnapshotArgs) {
    exists data :: (a, data) in carried
  }

  /** Every snapshot under way or waiting was sent with some maps. */
  ghost predicate CopiesOk(sys: System) {
    && (forall m :: m in sys.cluster.net && m.SnapshotRequest? ==> HasCopy(sys.carried, m.snapshotArgs))
    && (forall i, a :: 0 <= i < |sys.cluster.hosts| && a in sys.cluster.hosts[i].installs ==> HasCopy(sys.carried, a))
  }

  /** A step adds no snapshot request, and nothing to what waits but snapshots from requests. */
  ghost predicate NoSnapshotSent(c: C.Cluster, d: C.Cluster) {
    && |c.hosts| == |d.hosts|
    && (forall m :: m in d.net && m.SnapshotRequest? ==> m in c.net)
    && (forall i, a :: 0 <= i < |c.hosts| && a in d.hosts[i].installs ==>
          a in c.hosts[i].installs || C.SnapshotRequest(i, a) in c.net)
  }

  lemma ReceivesNoSnapshot(c: C.Cluster, m: C.Message)
    requires C.Sane(c) && m in c.net && C.DoReceive(c, m).Running?
    ensures NoSnapshotSent(c, C.DoReceive(c, m).cluster)
  {
    hide R.RequestVote, R.VoteReplied, R.AppendEntries, R.AppendReplied, R.InstallSnapshot, R.SnapshotReplied;
  }

  lemma TimeoutNoSnapshot(c: C.Cluster, i: nat)
    requires C.Sane(c) && i < |c.hosts|
    ensures NoSnapshotSent(c, C.DoTimeout(c, i))
  {
    hide R.StartElection, R.WellFormed, C.Sane;
  }

  lemma LogStepNoSnapshot(c: C.Cluster, step: C.Step)
    requires C.Sane(c) && (step.Submit? || step.Crash?) && step.i < |c.hosts|
    ensures C.Take(c, step).Running? && NoSnapshotSent(c, C.Take(c, step).cluster)
  {
    hide R.Start, R.Restart, R.WellFormed;
  }

  lemma ServiceStepNoSnapshot(c: C.Cluster, step: C.Step)
    requires C.Sane(c) && (step.Pull? || step.Deliver? || step.TakeSnapshot? || step.InstallNow?) && step.i < |c.hosts|
    requires C.Take(c, step).Running?
    ensures NoSnapshotSent(c, C.Take(c, step).cluster)
  {
    hide R.ApplyNext, R.Compact, R.CondInstallSnapshot, R.WellFormed;
  }

  lemma SameNoSnapshot(c: C.Cluster)
    ensures NoSnapshotSent(c, c)
  {
  }

  lemma StepsNoSnapshot(c: C.Cluster, step: C.Step)
    requires C.Sane(c) && !step.SendTo? && !step.Receive? && C.Take(c, step).Running?
    ensures NoSnapshotSent(c, C.Take(c, step).cluster)
  {
    hide C.DoTimeout, C.DoSubmit, C.DoCrash, C.DoPull, C.DoDeliver, C.DoTakeSnapshot, C.DoInstallNow, NoSnapshotSent;
    if step.i >= |c.hosts| {
      SameNoSnapshot(c);
    } else if step.Timeout? {
      TimeoutNoSnapshot(c, step.i);
    } else if step.Submit? || step.Crash? {
      LogStepNoSnapshot(c, step);
    } else {
      ServiceStepNoSnapshot(c, step);
    }
  }

  lemma CopiesKept(sys: System, r: System)
    requires CopiesOk(sys) && NoSnapshotSent(sys.cluster, r.cluster) && sys.carried <= r.carried
    ensures CopiesOk(r)
  {
    forall m | m in r.cluster.net && m.SnapshotRequest?
      ensures HasCopy(r.carried, m.snapshotArgs)
    {
      var data :| (m.snapshotArgs, data) in sys.carried;
      assert (m.snapshotArgs, data) in r.carried;
    }
    forall i, a | 0 <= i < |r.cluster.hosts| && a in r.cluster.hosts[i].installs
      ensures HasCopy(r.carried, a)
    {
      assert a !in sys.cluster.hosts[i].installs ==> C.SnapshotRequest(i, a).snapshotArgs == a;
      assert HasCopy(sys.carried, a);
      var data :| (a, data) in sys.carried;
      assert (a, data) in r.carried;
    }
  }

  lemma SendCopies(sys: System, i: nat, peer: nat, r: System)
    requires Shaped(sys) && i < |sys.stores| && CopiesOk(sys) && C.DoSendTo(sys.cluster, i, peer).Running?
    requires r == SentOut(sys, i, peer).(cluster := C.DoSendTo(sys.cluster, i, peer).cluster)
    ensures CopiesOk(r)
  {
    hide R.Replicate;
    forall m | m in r.cluster.net && m.SnapshotRequest?
      ensures HasCopy(r.carried, m.snapshotArgs)
    {
      if m in sys.cluster.net {
        var data :| (m.snapshotArgs, data) in sys.carried;
        assert (m.snapshotArgs, data) in r.carried;
      } else {
        assert (m.snapshotArgs, sys.disks[i]) in r.carried;
      }
    }
    forall k, a | 0 <= k < |r.cluster.hosts| && a in r.cluster.hosts[k].installs
      ensures HasCopy(r.carried, a)
    {
      assert a in sys.cluster.hosts[k].installs && HasCopy(sys.carried, a);
      var data :| (a, data) in sys.carried;
      assert (a, data) in r.carried;
    }
  }

  lemma MoveCopies(sys: System, m: Move, decode: Decoder)
    requires Shaped(sys) && CopiesOk(sys) && Go(sys, m, decode).Some?
    ensures CopiesOk(Go(sys, m, decode).value)
  {
    hide CopiesOk, C.DoSendTo, C.DoReceive, Applied, Persisted, SentOut, Switched, Reloaded, NoSnapshotSent;
    if Enabled(sys, m) {
      var r := Go(sys, m, decode).value;
      if m.step.SendTo? && m.step.i < |sys.stores| {
        SendCopies(sys, m.step.i, m.step.peer, r);
      } else {
        OnlySendingCarries(sys, m, decode);
        if m.step.Receive? && m.step.m in sys.cluster.net {
          ReceivesNoSnapshot(sys.cluster, m.step.m);
          CopiesKept(sys, r);
        } else if !m.step.Receive? && !m.step.SendTo? {
          StepsNoSnapshot(sys.cluster, m.step);
          CopiesKept(sys, r);
        } else {
          SameCopies(sys, r);
        }
      }
    }
  }

  lemma SameCopies(sys: System, r: System)
    requires CopiesOk(sys) && r.cluster == sys.cluster && r.carried == sys.carried
    ensures CopiesOk(r)
  {
  }

  lemma OnlySendingCarries(sys: System, m: Move, decode: Decoder)
    requires Shaped(sys) && !(m.step.SendTo? && m.step.i < |sys.stores|)
    ensures Beside(sys, m, decode).carried == sys.carried
  {
  }

  /** Every run of the Raft servers is that of a run of the system. */
  lemma {:induction false} EveryRunServed(n: nat, steps: seq<C.Step>, decode: Decoder) returns (moves: seq<Move>)
    ensures Steps(n, moves, decode) == steps && Run(n, moves, decode).Some? && CopiesOk(Run(n, moves, decode).value)
    decreases |steps|
  {
    hide I.Inv, SystemOk, Go, C.Take, Enabled, CopiesOk;
    if steps == [] {
      moves := [];
      StartCopies(n);
    } else {
      var rest := EveryRunServed(n, steps[..|steps| - 1], decode);
      var sys := Run(n, rest, decode).value;
      var m := Enabling(sys, steps[|steps| - 1]);
      moves := rest + [m];
      assert moves[..|moves| - 1] == rest;
      var _ := RunKeeps(n, moves, decode);
      MoveCopies(sys, m, decode);
    }
  }

  lemma StartCopies(n: nat)
    ensures CopiesOk(Start(n))
  {
  }

  lemma Enabling(sys: System, step: C.Step) returns (m: Move)
    requires Shaped(sys) && CopiesOk(sys)
    ensures m.step == step && Enabled(sys, m)
  {
    m := Move(step, Saved(EMPTY));
    if !Enabled(sys, m) {
      assert HasCopy(sys.carried, step.snapshot);
      var data :| (step.snapshot, data) in sys.carried;
      m := Move(step, data);
    }
  }
}
