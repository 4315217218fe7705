/**
 A cluster of Raft servers over an unreliable network.

 A step is one critical section of one server. The network keeps every message ever sent: a message may be
 received at any time, in any order, any number of times, or never. A server may crash and restart between
 any two steps. A run is any list of steps; a step that is not enabled leaves the cluster as it is.
 */
module RaftCluster {
  import opened Common
  import opened RaftTypes
  import opened RaftServer

  datatype Message =
    | VoteRequest(to: nat, voteArgs: VoteArgs)
    | VoteResponse(to: nat, from: nat, voteArgs: VoteArgs, voteReply: VoteReply)
    | AppendRequest(to: nat, appendArgs: AppendArgs)
    | AppendResponse(to: nat, from: nat, appendArgs: AppendArgs, appendReply: AppendReply)
    | SnapshotRequest(to: nat, snapshotArgs: SnapshotArgs)
    | SnapshotResponse(to: nat, from: nat, snapshotArgs: SnapshotArgs, replyTerm: nat)

  /** A server and what surrounds it in its process. */
  datatype Host = Host(
    raft: Server,
    granted: set<nat>,              // votes counted by the running election
    inflight: Option<Entry>,        // entry the delivery loop is handing to the service
    installs: set<SnapshotArgs>,    // received snapshots waiting for the service
    applied: seq<Command>)          // commands whose effect the service holds

  /** What an observer records. */
  datatype Event =
    | Voted(term: nat, voter: nat, candidate: nat)
    | Elected(term: nat, leader: nat)
    | Submitted(term: nat, index: nat, command: Command)
    | Committed(term: nat, index: nat, entry: Entry)
    | Delivered(server: nat, entry: Entry)
    | Installed(server: nat, index: nat, data: seq<Command>)

  datatype Cluster = Cluster(hosts: seq<Host>, net: set<Message>, events: set<Event>)

  datatype Step =
    | Timeout(i: nat)
    | Receive(m: Message)
    | SendTo(i: nat, peer: nat)
    | Submit(i: nat, command: Command)
    | Pull(i: nat)
    | Deliver(i: nat)
    | TakeSnapshot(i: nat)
    | InstallNow(i: nat, snapshot: SnapshotArgs)
    | Crash(i: nat)

  datatype Outcome = Running(cluster: Cluster) | Panicked

  // ---------------------------------------------------------------- shape

  predicate SaneMessage(n: nat, m: Message) {
    && m.to < n
    && (m.VoteResponse? || m.AppendResponse? || m.SnapshotResponse? ==> m.from < n)
    && (m.AppendRequest? || m.AppendResponse? ==> m.appendArgs.leaderId < n && Follows(m.appendArgs))
    && (m.SnapshotRequest? || m.SnapshotResponse? ==> m.snapshotArgs.leaderId < n)
    && (m.VoteRequest? || m.VoteResponse? ==> m.voteArgs.candidateId < n)
  }

  /** Every log has contiguous indices, and every message is addressed within the cluster. */
  predicate Sane(c: Cluster) {
    && (forall i :: 0 <= i < |c.hosts| ==>
          WellFormed(c.hosts[i].raft) && c.hosts[i].raft.me == i && c.hosts[i].raft.peers == |c.hosts|)
    && (forall m :: m in c.net ==> SaneMessage(|c.hosts|, m))
  }

  function Put(c: Cluster, i: nat, x: Host, sent: set<Message>, seen: set<Event>): (r: Cluster)
    requires Sane(c) && i < |c.hosts|
    requires WellFormed(x.raft) && x.raft.me == i && x.raft.peers == |c.hosts|
    requires forall m :: m in sent ==> SaneMessage(|c.hosts|, m)
    ensures Sane(r) && |r.hosts| == |c.hosts|
  {
    Cluster(c.hosts[i := x], c.net + sent, c.events + seen)
  }

  function Host0(i: nat, n: nat): Host
    requires i < n
  {
    Host(Fresh(i, n), {}, None, {}, [])
  }

  function Boot(n: nat): (r: Cluster)
    ensures Sane(r) && |r.hosts| == n
  {
    Cluster(seq(n, i requires 0 <= i < n => Host0(i, n)), {}, {})
  }

  // ---------------------------------------------------------------- steps

  function DoTimeout(c: Cluster, i: nat): (r: Cluster)
    requires Sane(c) && i < |c.hosts|
    ensures Sane(r) && |r.hosts| == |c.hosts|
  {
    var x := c.hosts[i];
    if x.raft.role == Leader then c
    else
      var (s, args) := StartElection(x.raft);
      var sent := set p | p in Ids(|c.hosts|) && p != i :: VoteRequest(p, args);
      Put(c, i, x.(raft := s, granted := {i}), sent, {Voted(s.term, i, i)})
  }

  function DoVoteRequest(c: Cluster, i: nat, args: VoteArgs): (r: Cluster)
    requires Sane(c) && i < |c.hosts| && args.candidateId < |c.hosts|
    ensures Sane(r) && |r.hosts| == |c.hosts|
  {
    var (s, reply) := RequestVote(c.hosts[i].raft, args);
    Put(c, i, c.hosts[i].(raft := s), {VoteResponse(args.candidateId, i, args, reply)},
        if reply.granted then {Voted(args.term, i, args.candidateId)} else {})
  }

  /** The reply of one peer is counted at most once in an election. */
  function DoVoteResponse(c: Cluster, i: nat, from: nat, args: VoteArgs, reply: VoteReply): (r: Cluster)
    requires Sane(c) && i < |c.hosts|
    ensures Sane(r) && |r.hosts| == |c.hosts|
  {
    var x := c.hosts[i];
    if from in x.granted then c
    else
      var (s, granted) := VoteReplied(x.raft, x.granted, from, args, reply);
      Put(c, i, x.(raft := s, granted := granted), {},
          if x.raft.role != Leader && s.role == Leader then {Elected(s.term, i)} else {})
  }

  function DoAppendRequest(c: Cluster, i: nat, args: AppendArgs): (r: Cluster)
    requires Sane(c) && i < |c.hosts| && args.leaderId < |c.hosts| && Follows(args)
    ensures Sane(r) && |r.hosts| == |c.hosts|
  {
    var (s, reply) := AppendEntries(c.hosts[i].raft, args);
    Put(c, i, c.hosts[i].(raft := s), {AppendResponse(args.leaderId, i, args, reply)}, {})
  }

  /**
   The entries the server has just learned to be committed. The reply handler moves the commit index only in the term
   of the server's own request, so only where it leads that term, or did before a restart.
   */
  function CommittedNow(s: Server, before: nat): set<Event>
    requires s.log != []
  {
    set n: nat | before < n <= s.commitIndex && At(s.log, n).Some? :: Committed(s.term, n, At(s.log, n).value)
  }

  function DoAppendResponse(c: Cluster, i: nat, from: nat, args: AppendArgs, reply: AppendReply): (r: Outcome)
    requires Sane(c) && i < |c.hosts| && from < |c.hosts|
    ensures r.Running? ==> Sane(r.cluster) && |r.cluster.hosts| == |c.hosts|
  {
    var x := c.hosts[i];
    match AppendReplied(x.raft, from, args, reply)
    case None => Panicked
    case Some(s) =>
      Running(Put(c, i, x.(raft := s), {}, CommittedNow(s, x.raft.commitIndex)))
  }

  function DoSnapshotRequest(c: Cluster, i: nat, args: SnapshotArgs): (r: Cluster)
    requires Sane(c) && i < |c.hosts| && args.leaderId < |c.hosts|
    ensures Sane(r) && |r.hosts| == |c.hosts|
  {
    var x := c.hosts[i];
    var (s, passOn) := InstallSnapshot(x.raft, args);
    Put(c, i, x.(raft := s, installs := if passOn then x.installs + {args} else x.installs),
        {SnapshotResponse(args.leaderId, i, args, x.raft.term)}, {})
  }

  function DoSnapshotResponse(c: Cluster, i: nat, from: nat, args: SnapshotArgs, term: nat): (r: Cluster)
    requires Sane(c) && i < |c.hosts| && from < |c.hosts|
    ensures Sane(r) && |r.hosts| == |c.hosts|
  {
    Put(c, i, c.hosts[i].(raft := SnapshotReplied(c.hosts[i].raft, from, args, term)), {}, {})
  }

  function DoReceive(c: Cluster, m: Message): (r: Outcome)
    requires Sane(c) && m in c.net
    ensures r.Running? ==> Sane(r.cluster) && |r.cluster.hosts| == |c.hosts|
  {
    match m
    case VoteRequest(to, args) => Running(DoVoteRequest(c, to, args))
    case VoteResponse(to, from, args, reply) => Running(DoVoteResponse(c, to, from, args, reply))
    case AppendRequest(to, args) => Running(DoAppendRequest(c, to, args))
    case AppendResponse(to, from, args, reply) => DoAppendResponse(c, to, from, args, reply)
    case SnapshotRequest(to, args) => Running(DoSnapshotRequest(c, to, args))
    case SnapshotResponse(to, from, args, term) => Running(DoSnapshotResponse(c, to, from, args, term))
  }

  /** A leader sends a peer its log from the peer's next index on, or its snapshot. */
  function DoSendTo(c: Cluster, i: nat, peer: nat): (r: Outcome)
    requires Sane(c) && i < |c.hosts|
    ensures r.Running? ==> Sane(r.cluster) && |r.cluster.hosts| == |c.hosts|
  {
    var x := c.hosts[i];
    if x.raft.role != Leader || peer == i || peer >= |c.hosts| then Running(c)
    else
      match Replicate(x.raft, peer)
      case None => Panicked
      case Some(Append(args)) => Running(Put(c, i, x, {AppendRequest(peer, args)}, {}))
      case Some(Install(args)) => Running(Put(c, i, x, {SnapshotRequest(peer, args)}, {}))
  }

  function DoSubmit(c: Cluster, i: nat, command: Command): (r: Cluster)
    requires Sane(c) && i < |c.hosts|
    ensures Sane(r) && |r.hosts| == |c.hosts|
  {
    var (s, index) := Start(c.hosts[i].raft, command);
    Put(c, i, c.hosts[i].(raft := s), {}, if index.Some? then {Submitted(s.term, index.value, command)} else {})
  }

  /** The delivery loop takes the next committed entry; it holds one entry at a time. */
  function DoPull(c: Cluster, i: nat): (r: Outcome)
    requires Sane(c) && i < |c.hosts|
    ensures r.Running? ==> Sane(r.cluster) && |r.cluster.hosts| == |c.hosts|
  {
    var x := c.hosts[i];
    if x.inflight.Some? then Running(c)
    else
      match ApplyNext(x.raft)
      case None => Panicked
      case Some((s, e)) => Running(Put(c, i, x.(raft := s, inflight := e), {}, {}))
  }

  /** The service applies the entry, unless a snapshot has overtaken it. */
  function DoDeliver(c: Cluster, i: nat): (r: Cluster)
    requires Sane(c) && i < |c.hosts|
    ensures Sane(r) && |r.hosts| == |c.hosts|
  {
    var x := c.hosts[i];
    match x.inflight
    case None => c
    case Some(e) =>
      if e.index <= |x.applied| then Put(c, i, x.(inflight := None), {}, {})
      else Put(c, i, x.(inflight := None, applied := x.applied + [e.command]), {}, {Delivered(i, e)})
  }

  /** The service hands the server a snapshot of everything it has applied. */
  function DoTakeSnapshot(c: Cluster, i: nat): (r: Cluster)
    requires Sane(c) && i < |c.hosts|
    ensures Sane(r) && |r.hosts| == |c.hosts|
  {
    var x := c.hosts[i];
    Put(c, i, x.(raft := Compact(x.raft, |x.applied|, x.applied)), {}, {})
  }

  /** The service takes a received snapshot and asks the server to switch to it. */
  function DoInstallNow(c: Cluster, i: nat, a: SnapshotArgs): (r: Outcome)
    requires Sane(c) && i < |c.hosts|
    ensures r.Running? ==> Sane(r.cluster) && |r.cluster.hosts| == |c.hosts|
  {
    var x := c.hosts[i];
    if a !in x.installs then Running(c)
    else
      match CondInstallSnapshot(x.raft, a.lastIncludedTerm, a.lastIncludedIndex, a.data)
      case None => Panicked
      case Some((s, done)) =>
        var y := x.(raft := s, installs := x.installs - {a});
        if done then Running(Put(c, i, y.(applied := a.data), {}, {Installed(i, a.lastIncludedIndex, a.data)}))
        else Running(Put(c, i, y, {}, {}))
  }

  function DoCrash(c: Cluster, i: nat): (r: Cluster)
    requires Sane(c) && i < |c.hosts|
    ensures Sane(r) && |r.hosts| == |c.hosts|
  {
    var s := Restart(c.hosts[i].raft);
    Put(c, i, Host(s, {}, None, {}, s.snapshot), {}, {})
  }

  function Take(c: Cluster, step: Step): (r: Outcome)
    requires Sane(c)
    ensures r.Running? ==> Sane(r.cluster) && |r.cluster.hosts| == |c.hosts|
  {
    if step.Receive? then (if step.m in c.net then DoReceive(c, step.m) else Running(c))
    else if step.i >= |c.hosts| then Running(c)
    else
      match step
      case Timeout(i) => Running(DoTimeout(c, i))
      case SendTo(i, peer) => DoSendTo(c, i, peer)
      case Submit(i, command) => Running(DoSubmit(c, i, command))
      case Pull(i) => DoPull(c, i)
      case Deliver(i) => Running(DoDeliver(c, i))
      case TakeSnapshot(i) => Running(DoTakeSnapshot(c, i))
      case InstallNow(i, a) => DoInstallNow(c, i, a)
      case Crash(i) => Running(DoCrash(c, i))
  }

  /** The outcome of a run of n servers. */
  function Run(n: nat, steps: seq<Step>): (r: Outcome)
    ensures r.Running? ==> Sane(r.cluster) && |r.cluster.hosts| == n
  {
    if steps == [] then Running(Boot(n))
    else
      match Run(n, steps[..|steps| - 1])
      case Panicked => Panicked
      case Running(c) => Take(c, steps[|steps| - 1])
  }
}
