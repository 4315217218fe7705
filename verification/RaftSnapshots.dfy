/** Steps that take, send and install snapshots, and delivery to the service, keep the invariant. */
module RaftSnapshots {
  import opened Common
  import opened RaftTypes
  import opened RaftServer
  import opened RaftCluster
  import opened RaftHistory
  import opened RaftProgress
  import opened RaftLogs
  import opened RaftInvariant
  import opened RaftVotes
  import opened RaftElections
  import opened RaftAcks

  /** A step of one host that leaves the history and its ballot alone. */
  lemma QuietKeeps(h: History, c: Cluster, i: nat, y: Host, sent: set<Message>, seen: set<Event>)
    requires Inv(h, c) && i < |c.hosts|
    requires WellFormed(y.raft) && y.raft.me == i && y.raft.peers == |c.hosts| && BallotOf(y) == BallotOf(c.hosts[i])
    requires |h.logs| == |h.terms| == |h.committed| && HostOk(h, y, i)
    requires forall m :: m in sent ==> SaneMessage(|c.hosts|, m) && MessageOk(h, m)
    requires forall e :: e in seen ==> EventOk(h, e)
    ensures Inv(h, Put(c, i, y, sent, seen))
  {
    hide LeadersOk, AcksOk, ClaimsOk, GrantsOk, Complete, CommitsOk, VotesOk;
    SameHistory(h);
    assert Ballots(c)[i := BallotOf(y)] == Ballots(c);
    Assemble(h, c, h, i, y, sent, seen);
  }

  // ---------------------------------------------------------------- a snapshot travels

  lemma SnapshotRequestKeeps(h: History, c: Cluster, i: nat, args: SnapshotArgs) returns (k: History)
    requires Inv(h, c) && SnapshotRequest(i, args) in c.net
    ensures Inv(k, DoSnapshotRequest(c, i, args)) && Evolves(h, k)
  {
    hide *;
    var m := SnapshotRequest(i, args);
    MessageFacts(h, c, m);
    SnapshotMessageFacts(h, c, m);
    HostFacts(h, c, i);
    SnapshotRequestShape(c, i, args);
    if args.term < c.hosts[i].raft.term {
      NoChangeKeeps(h, c, i, {SnapshotResponse(args.leaderId, i, args, c.hosts[i].raft.term)});
      k := h;
    } else {
      SnapshotPassedOn(h, c, i, args, DoSnapshotRequest(c, i, args));
      k := Raised(h, i, args.term);
    }
  }

  lemma SnapshotMessageFacts(h: History, c: Cluster, m: Message)
    requires MessageOk(h, m) && SaneMessage(|c.hosts|, m) && (m.SnapshotRequest? || m.SnapshotResponse?)
    ensures m.to < |c.hosts| && m.snapshotArgs.leaderId < |c.hosts| && InstallOk(h, m.snapshotArgs)
    ensures m.SnapshotResponse? ==> m.from < |c.hosts| && m.to == m.snapshotArgs.leaderId
    ensures forall i: nat, t: nat :: i < |c.hosts| ==>
      var r := SnapshotResponse(m.snapshotArgs.leaderId, i, m.snapshotArgs, t);
      SaneMessage(|c.hosts|, r) && MessageOk(h, r)
  {
  }

  lemma SnapshotRequestShape(c: Cluster, i: nat, args: SnapshotArgs)
    requires Sane(c) && i < |c.hosts| && args.leaderId < |c.hosts|
    ensures var x := c.hosts[i];
      var sent := {SnapshotResponse(args.leaderId, i, args, x.raft.term)};
      DoSnapshotRequest(c, i, args) ==
      (if args.term < x.raft.term then Put(c, i, x, sent, {})
       else Put(c, i, x.(raft := ObserveLeader(x.raft, args.term), installs := x.installs + {args}), sent, {}))
  {
  }

  lemma SnapshotPassedOn(h: History, c: Cluster, i: nat, args: SnapshotArgs, r: Cluster)
    requires Sane(c) && i < |c.hosts| && args.leaderId < |c.hosts| && args.term >= c.hosts[i].raft.term
    requires var x := c.hosts[i];
      r == Put(c, i, x.(raft := ObserveLeader(x.raft, args.term), installs := x.installs + {args}),
               {SnapshotResponse(args.leaderId, i, args, x.raft.term)}, {})
    requires Inv(h, c) && InstallOk(h, args)
    ensures Inv(Raised(h, i, args.term), r) && Evolves(h, Raised(h, i, args.term))
  {
    hide *;
    HostFacts(h, c, i);
    var x := c.hosts[i];
    var y := x.(raft := ObserveLeader(x.raft, args.term));
    var z := y.(installs := x.installs + {args});
    var sent := SnapshotResponse(args.leaderId, i, args, x.raft.term);
    var k := Raised(h, i, args.term);
    InstallFacts(h, args);
    ObserveKeeps(h, c, i, args.term);
    ObservedShape(c, i, args.term);
    var d := Observed(c, i, args.term);
    HostFacts(k, d, i);
    InstallOkRaised(h, i, args);
    InstallFacts(k, args);
    AddInstall(k, y, i, args);
    ResponseOk(k, |c.hosts|, i, args, x.raft.term);
    QuietKeeps(k, d, i, z, {sent}, {});
    PutTwice(c, i, y, z, {sent}, {});
  }

  lemma ResponseOk(h: History, n: nat, i: nat, args: SnapshotArgs, term: nat)
    requires i < n && args.leaderId < n && InstallOk(h, args)
    ensures SaneMessage(n, SnapshotResponse(args.leaderId, i, args, term))
    ensures MessageOk(h, SnapshotResponse(args.leaderId, i, args, term))
  {
  }

  lemma ObservedShape(c: Cluster, i: nat, t: nat)
    requires Sane(c) && i < |c.hosts| && t >= c.hosts[i].raft.term
    ensures var d := Observed(c, i, t);
      var y := c.hosts[i].(raft := ObserveLeader(c.hosts[i].raft, t));
      && |d.hosts| == |c.hosts| && d.hosts[i] == y && Sane(d)
      && WellFormed(y.raft) && y.raft.me == i && y.raft.peers == |c.hosts| && d == Put(c, i, y, {}, {})
      && forall installs :: BallotOf(y.(installs := installs)) == BallotOf(y)
  {
  }

  lemma InstallOkRaised(h: History, i: nat, args: SnapshotArgs)
    requires i < |h.terms| && InstallOk(h, args)
    ensures InstallOk(Raised(h, i, args.term), args)
  {
    var k := Raised(h, i, args.term);
    var log :| IsSnapshotOf(h, args.term, args, log);
    assert InCommitted(k, args.term, log) by {
      var u, n :| (u, n) in h.commits && u <= args.term && OwnEntry(h, u, n) && log <= h.leaderLog[u][..n];
      assert (u, n) in k.commits && OwnEntry(k, u, n);
    }
    assert IsSnapshotOf(k, args.term, args, log);
  }

  lemma InstallFacts(h: History, args: SnapshotArgs)
    requires InstallOk(h, args)
    ensures args.term in h.leaderLog && SnapshotOk(h, args.term, args)
  {
  }

  lemma AddInstall(h: History, y: Host, i: nat, args: SnapshotArgs)
    requires i < |h.terms| == |h.logs| == |h.committed| && HostOk(h, y, i) && SnapshotOk(h, y.raft.term, args)
    ensures HostOk(h, y.(installs := y.installs + {args}), i)
  {
  }

  lemma SnapshotResponseKeeps(h: History, c: Cluster, i: nat, from: nat, args: SnapshotArgs, term: nat)
    returns (k: History)
    requires Inv(h, c) && SnapshotResponse(i, from, args, term) in c.net
    ensures Inv(k, DoSnapshotResponse(c, i, from, args, term)) && Evolves(h, k)
  {
    hide *;
    var m := SnapshotResponse(i, from, args, term);
    MessageFacts(h, c, m);
    SnapshotMessageFacts(h, c, m);
    HostFacts(h, c, i);
    var s := c.hosts[i].raft;
    SnapshotResponseShape(c, i, from, args, term);
    SameHistory(h);
    k := h;
    if s.term != args.term {
      NoChangeKeeps(h, c, i, {});
    } else if term > s.term {
      LowerKeeps(h, c, i, term);
      k := RaiseTerm(h, i, term);
    } else {
      CountersFacts(h, c.hosts[i], i, from, args);
      CountersKeep(h, c, i, s.matchIndex, s.nextIndex[from := args.lastIncludedIndex + 1]);
    }
  }

  lemma SnapshotResponseShape(c: Cluster, i: nat, from: nat, args: SnapshotArgs, term: nat)
    requires Sane(c) && i < |c.hosts| && from < |c.hosts|
    ensures var x := c.hosts[i];
      DoSnapshotResponse(c, i, from, args, term) ==
      (if x.raft.term != args.term then Put(c, i, x, {}, {})
       else if term > x.raft.term then Put(c, i, Lowered(x, term), {}, {})
       else
         var nexts := x.raft.nextIndex[from := args.lastIncludedIndex + 1];
         Put(c, i, x.(raft := x.raft.(matchIndex := x.raft.matchIndex, nextIndex := nexts)), {}, {}))
  {
  }

  /** The leader's counters after a peer has answered an installation. */
  lemma CountersFacts(h: History, x: Host, i: nat, from: nat, args: SnapshotArgs)
    requires i < |h.terms| == |h.logs| == |h.committed| && HostOk(h, x, i) && x.raft.peers == |h.terms|
      && WellFormed(x.raft)
    requires InstallOk(h, args) && x.raft.term == args.term && i == args.leaderId && from < |h.terms|
    ensures var s := x.raft;
      var nexts := s.nextIndex[from := args.lastIncludedIndex + 1];
      && |s.matchIndex| == |h.terms| == |s.nextIndex|
      && (Owns(h, s.term, i) ==> forall p :: 0 <= p < |s.matchIndex| ==> MatchOk(h, s.term, p, s.matchIndex[p]))
      && (s.role == Leader ==> forall p :: 0 <= p < |nexts| ==> 1 <= nexts[p] <= |h.logs[i]| + 1)
  {
  }

  // ---------------------------------------------------------------- a snapshot is taken

  /** A log compacted to an index it has stands for the same full log. */
  lemma CompactedRepresents(s: Server, full: Log, n: nat, data: seq<Command>)
    requires WellFormed(s) && Represents(s.log, full) && s.log[0].index <= n <= |full|
    ensures Represents(Compact(s, n, data).log, full)
    ensures Compact(s, n, data).log[0].index == n && Compact(s, n, data).log[0].term == s.log[n - s.log[0].index].term
  {
  }

  lemma CompactedHostOk(h: History, x: Host, i: nat)
    requires i < |h.terms| == |h.logs| == |h.committed| && HostOk(h, x, i) && WellFormed(x.raft)
    ensures HostOk(h, x.(raft := Compact(x.raft, |x.applied|, x.applied)), i)
  {
    hide CandidateOk, LeaderOk, SnapshotOk, InCommitted;
    var s := x.raft;
    var n := |x.applied|;
    var r := Compact(s, n, x.applied);
    CompactedRepresents(s, h.logs[i], n, x.applied);
    if n > s.log[0].index {
      AtFull(s.log, h.logs[i], n);
      assert h.committed[i][n - 1] == h.logs[i][n - 1];
    }
    AtBeyond(s.log, h.logs[i], n);
    CompactLeader(h, s, r, i);
    CompactCandidate(h, x, x.(raft := r), i);
  }

  lemma CompactLeader(h: History, s: Server, r: Server, i: nat)
    requires i < |h.logs| && LeaderOk(h, s, i, h.logs[i]) && r == s.(log := r.log, snapshot := r.snapshot)
    ensures LeaderOk(h, r, i, h.logs[i])
  {
  }

  lemma CompactCandidate(h: History, x: Host, y: Host, i: nat)
    requires i < |h.terms| == |h.logs| && CandidateOk(h, x, i) && y.raft.role == x.raft.role && y.granted == x.granted
    ensures CandidateOk(h, y, i)
  {
  }

  lemma TakeSnapshotKeeps(h: History, c: Cluster, i: nat)
    requires Inv(h, c) && i < |c.hosts|
    ensures Inv(h, DoTakeSnapshot(c, i))
  {
    hide LeadersOk, AcksOk, ClaimsOk, GrantsOk, Complete, CommitsOk, LogsOk, VotesOk, HostOk;
    LogFromLeaders(h, i);
    var x := c.hosts[i];
    CompactedHostOk(h, x, i);
    QuietKeeps(h, c, i, x.(raft := Compact(x.raft, |x.applied|, x.applied)), {}, {});
  }

  // ---------------------------------------------------------------- a snapshot is installed

  /** History after server i has switched to the snapshot of a committed log. */
  function AfterInstall(h: History, i: nat, log: Log): History
    requires i < |h.terms| == |h.logs| == |h.committed|
  {
    Learn(if |log| >= |h.logs[i]| then Replace(h, i, log) else h, i, log)
  }

  lemma AfterInstallOk(h: History, i: nat, log: Log)
    requires Ok(h) && i < |h.terms| && InCommitted(h, h.terms[i], log)
    ensures Ok(AfterInstall(h, i, log)) && Evolves(h, AfterInstall(h, i, log))
    ensures SameElections(h, AfterInstall(h, i, log)) && OtherHosts(h, AfterInstall(h, i, log), i)
  {
    hide LeadersOk, AcksOk, ClaimsOk, GrantsOk, Complete, CommitsOk, InCommitted, SameElections, OtherHosts, Evolves;
    var l := if |log| >= |h.logs[i]| then Replace(h, i, log) else h;
    if |log| >= |h.logs[i]| {
      ReplaceOk(h, i, log);
    }
    LearnOk(l, i, log);
    AfterInstallFrame(h, i, log);
    AfterInstallEvolves(h, i, log);
  }

  lemma AfterInstallFrame(h: History, i: nat, log: Log)
    requires i < |h.terms| == |h.logs| == |h.committed|
    ensures SameElections(h, AfterInstall(h, i, log)) && OtherHosts(h, AfterInstall(h, i, log), i)
  {
  }

  lemma AfterInstallEvolves(h: History, i: nat, log: Log)
    requires i < |h.terms| == |h.logs| == |h.committed|
    ensures Evolves(h, AfterInstall(h, i, log))
  {
    hide Evolves;
    var k := AfterInstall(h, i, log);
    OnlyLogsChange(h, k, k.logs, k.committed);
  }

  /** The logs and what is known to be committed are not part of what a history only adds to. */
  lemma OnlyLogsChange(h: History, k: History, logs: seq<Log>, committed: seq<Log>)
    requires k == h.(logs := logs, committed := committed)
    ensures Evolves(h, k)
  {
  }

  /**
   Installing keeps whatever suffix the log has, without comparing terms; the full log remembers where it came from.
   */
  lemma InstalledRepresents(h: History, k: History, s: Server, i: nat, log: Log, term: nat, data: seq<Command>)
    requires i < |h.terms| == |h.logs| == |h.committed| && k == AfterInstall(h, i, log)
    requires WellFormed(s) && Represents(s.log, h.logs[i]) && Placed(h.logs[i])
    requires |log| >= s.commitIndex >= s.log[0].index
    ensures CondInstallSnapshot(s, term, |log|, data).Some? && CondInstallSnapshot(s, term, |log|, data).value.1
    ensures var r := CondInstallSnapshot(s, term, |log|, data).value.0;
            Represents(r.log, k.logs[i]) && r.log[0] == Entry(term, |log|, NoCommand)
  {
  }

  lemma InstalledKnownOk(h: History, k: History, s: Server, i: nat, log: Log, a: SnapshotArgs)
    requires i < |h.terms| == |h.logs| == |h.committed| && k == AfterInstall(h, i, log) && Evolves(h, k)
    requires WellFormed(s) && Represents(s.log, h.logs[i]) && Placed(h.logs[i])
      && KnownOk(h, s, h.logs[i], h.committed[i])
    requires IsSnapshotOf(h, s.term, a, log) && a.lastIncludedIndex >= s.commitIndex
    requires CondInstallSnapshot(s, a.lastIncludedTerm, a.lastIncludedIndex, a.data).Some?
    ensures KnownOk(k, CondInstallSnapshot(s, a.lastIncludedTerm, a.lastIncludedIndex, a.data).value.0, k.logs[i], log)
  {
    InCommittedStable(h, k, s.term, s.term, log);
    InstalledRepresents(h, k, s, i, log, a.lastIncludedTerm, a.data);
  }

  lemma InstalledLeaderOk(h: History, k: History, s: Server, r: Server, i: nat, log: Log)
    requires i < |h.terms| == |h.logs| == |h.committed| && k == AfterInstall(h, i, log) && Evolves(h, k)
    requires Complete(h) && CommitsOk(h) && LeaderOk(h, s, i, h.logs[i]) && InCommitted(h, s.term, log)
    requires r == s.(log := r.log, commitIndex := r.commitIndex, lastApplied := r.lastApplied, snapshot := r.snapshot)
    ensures LeaderOk(k, r, i, k.logs[i])
  {
    hide Complete, CommitsOk, InCommitted, MatchOk, Evolves;
    if Owns(h, s.term, i) {
      CoveredInLeader(h, s.term, log);
      assert k.logs[i] == h.logs[i];
    }
    LeaderStable(h, k, s, i, h.logs[i]);
  }

  lemma InstalledCandidateOk(h: History, k: History, x: Host, y: Host, i: nat, log: Log)
    requires i < |h.terms| == |h.logs| == |h.committed| && k == AfterInstall(h, i, log) && Evolves(h, k)
    requires CandidateOk(h, x, i) && InCommitted(h, h.terms[i], log) && y.raft.role == x.raft.role
      && y.granted == x.granted
    ensures CandidateOk(k, y, i)
  {
    InCommittedStable(h, k, h.terms[i], h.terms[i], log);
    if InCommitted(h, h.terms[i], h.logs[i]) {
      InCommittedStable(h, k, h.terms[i], h.terms[i], h.logs[i]);
    }
  }

  lemma InstalledServiceOk(x: Host, y: Host, known: Log, log: Log)
    requires ServiceOk(x, known) && known <= log
    requires y.applied == Commands(log) && y.raft.lastApplied == |log| && y.inflight == x.inflight
    requires y.raft.log != [] && y.raft.log[0].index == |log| && y.raft.snapshot == Commands(log)
    ensures ServiceOk(y, log)
  {
  }

  lemma InstalledHostOk(h: History, k: History, x: Host, i: nat, log: Log, a: SnapshotArgs)
    requires i < |h.terms| == |h.logs| == |h.committed| && k == AfterInstall(h, i, log) && Evolves(h, k)
    requires Complete(h) && CommitsOk(h) && FromLeaders(h, h.logs[i]) && HostOk(h, x, i) && WellFormed(x.raft)
    requires IsSnapshotOf(h, x.raft.term, a, log) && a.lastIncludedIndex >= x.raft.commitIndex
    ensures var r := CondInstallSnapshot(x.raft, a.lastIncludedTerm, a.lastIncludedIndex, a.data);
            r.Some? && r.value.1 && HostOk(k, x.(raft := r.value.0, installs := x.installs - {a}, applied := a.data), i)
  {
    hide Complete, CommitsOk, Represents, Evolves, LeaderOk, CandidateOk, SnapshotOk, InCommitted, ServiceOk;
    var s := x.raft;
    InstalledRepresents(h, k, s, i, log, a.lastIncludedTerm, a.data);
    var r := CondInstallSnapshot(s, a.lastIncludedTerm, a.lastIncludedIndex, a.data).value.0;
    var y := x.(raft := r, installs := x.installs - {a}, applied := a.data);
    InstalledKnownOk(h, k, s, i, log, a);
    InstalledLeaderOk(h, k, s, r, i, log);
    InstalledCandidateOk(h, k, x, y, i, log);
    CommittedChain(h, s.term, h.committed[i], s.term, log);
    InstalledServiceOk(x, y, h.committed[i], log);
    InstallsStable(h, k, s.term, s.term, x.installs);
  }

  lemma DropInstall(h: History, x: Host, i: nat, a: SnapshotArgs)
    requires i < |h.terms| == |h.logs| == |h.committed| && HostOk(h, x, i)
    ensures HostOk(h, x.(installs := x.installs - {a}), i)
  {
  }

  lemma InstallNowKeeps(h: History, c: Cluster, i: nat, a: SnapshotArgs) returns (k: History)
    requires Inv(h, c) && i < |c.hosts|
    ensures DoInstallNow(c, i, a).Running? && Inv(k, DoInstallNow(c, i, a).cluster) && Evolves(h, k)
  {
    hide *;
    HostFacts(h, c, i);
    SameHistory(h);
    var x := c.hosts[i];
    k := h;
    if a !in x.installs {
      NotWaiting(c, i, a);
    } else if a.lastIncludedIndex < x.raft.commitIndex {
      DropInstall(h, x, i, a);
      DropShape(c, i, a);
      QuietKeeps(h, c, i, x.(installs := x.installs - {a}), {}, {});
    } else {
      k := InstallKeeps(h, c, i, a);
    }
  }

  lemma NotWaiting(c: Cluster, i: nat, a: SnapshotArgs)
    requires Sane(c) && i < |c.hosts| && a !in c.hosts[i].installs
    ensures DoInstallNow(c, i, a) == Running(c)
  {
  }

  lemma DropShape(c: Cluster, i: nat, a: SnapshotArgs)
    requires Sane(c) && i < |c.hosts| && a in c.hosts[i].installs && a.lastIncludedIndex < c.hosts[i].raft.commitIndex
    ensures var y := c.hosts[i].(installs := c.hosts[i].installs - {a});
      DoInstallNow(c, i, a) == Running(Put(c, i, y, {}, {})) && BallotOf(y) == BallotOf(c.hosts[i])
  {
  }

  lemma InstallKeeps(h: History, c: Cluster, i: nat, a: SnapshotArgs) returns (k: History)
    requires Inv(h, c) && i < |c.hosts| && a in c.hosts[i].installs
      && a.lastIncludedIndex >= c.hosts[i].raft.commitIndex
    ensures DoInstallNow(c, i, a).Running? && Inv(k, DoInstallNow(c, i, a).cluster) && Evolves(h, k)
  {
    hide *;
    HostFacts(h, c, i);
    var x := c.hosts[i];
    var log := WaitingIsSnapshot(h, x, i, a);
    k := AfterInstall(h, i, log);
    AfterInstallOk(h, i, log);
    InstalledHostOk(h, k, x, i, log, a);
    InstallShape(c, i, a);
    var y := x.(raft := CondInstallSnapshot(x.raft, a.lastIncludedTerm, a.lastIncludedIndex, a.data).value.0,
                installs := x.installs - {a}, applied := a.data);
    VotesSame(h, k, Ballots(c));
    SameBallot(c, i, y);
    InstallWitnessed(h, k, x.raft.term, i, log, a);
    InstallSeen(h, c, k, i, log, a);
    AssembleNew(h, c, k, i, y, {}, {Installed(i, a.lastIncludedIndex, a.data)});
  }

  lemma WaitingIsSnapshot(h: History, x: Host, i: nat, a: SnapshotArgs) returns (log: Log)
    requires i < |h.terms| == |h.logs| == |h.committed| && HostOk(h, x, i) && a in x.installs
    ensures IsSnapshotOf(h, x.raft.term, a, log) && InCommitted(h, h.terms[i], log)
  {
    hide KnownOk, Represents, LeaderOk, CandidateOk, ServiceOk, InCommitted;
    assert SnapshotOk(h, x.raft.term, a);
    log :| IsSnapshotOf(h, x.raft.term, a, log);
  }

  lemma InstallShape(c: Cluster, i: nat, a: SnapshotArgs)
    requires Sane(c) && i < |c.hosts| && a in c.hosts[i].installs
    requires var r := CondInstallSnapshot(c.hosts[i].raft, a.lastIncludedTerm, a.lastIncludedIndex, a.data);
      r.Some? && r.value.1
    ensures var x := c.hosts[i];
      var s := CondInstallSnapshot(x.raft, a.lastIncludedTerm, a.lastIncludedIndex, a.data).value.0;
      var y := x.(raft := s, installs := x.installs - {a}, applied := a.data);
      && WellFormed(s) && s.me == i && s.peers == |c.hosts| && s.votedFor == x.raft.votedFor && s.role == x.raft.role
      && DoInstallNow(c, i, a) == Running(Put(c, i, y, {}, {Installed(i, a.lastIncludedIndex, a.data)}))
  {
  }

  lemma InstallWitnessed(h: History, k: History, t: nat, i: nat, log: Log, a: SnapshotArgs)
    requires IsSnapshotOf(h, t, a, log) && Evolves(h, k)
    ensures EventOk(k, Installed(i, a.lastIncludedIndex, a.data))
  {
    InCommittedStable(h, k, t, t, log);
    hide InCommitted, Evolves;
    assert WitnessedBy(k, Installed(i, a.lastIncludedIndex, a.data), t, log);
  }

  lemma InstallSeen(h: History, c: Cluster, k: History, i: nat, log: Log, a: SnapshotArgs)
    requires Inv(h, c) && i < |c.hosts| == |h.logs| == |h.committed| && |h.terms| == |h.logs|
      && k == AfterInstall(h, i, log)
    ensures var events := c.events + {Installed(i, a.lastIncludedIndex, a.data)};
      |k.logs| == |k.committed| == |c.hosts| && LeadersSeen(k, events) && WholeOk(k, events, i)
  {
    hide VotesOk, MessageOk, EventOk, HostOk, Ok;
    assert Installed(i, a.lastIncludedIndex, a.data) in c.events + {Installed(i, a.lastIncludedIndex, a.data)};
  }

  // ---------------------------------------------------------------- delivery

  lemma PulledHostOk(h: History, x: Host, i: nat)
    requires i < |h.terms| == |h.logs| == |h.committed| && HostOk(h, x, i) && WellFormed(x.raft) && x.inflight.None?
    requires Placed(h.logs[i])
    ensures ApplyNext(x.raft).Some?
    ensures var (s, e) := ApplyNext(x.raft).value; HostOk(h, x.(raft := s, inflight := e), i)
  {
    hide CandidateOk, LeaderOk, SnapshotOk, InCommitted;
    var s := x.raft;
    var (r, e) := if s.commitIndex > s.lastApplied then
      (s.(lastApplied := s.lastApplied + 1), Some(h.logs[i][s.lastApplied])) else (s, None);
    if s.commitIndex > s.lastApplied {
      AtFull(s.log, h.logs[i], s.lastApplied + 1);
      assert h.committed[i][s.lastApplied] == h.logs[i][s.lastApplied];
    }
    CompactCandidate(h, x, x.(raft := r, inflight := e), i);
    PulledLeader(h, s, r, i);
  }

  lemma PulledLeader(h: History, s: Server, r: Server, i: nat)
    requires i < |h.logs| && LeaderOk(h, s, i, h.logs[i]) && r == s.(lastApplied := r.lastApplied)
    ensures LeaderOk(h, r, i, h.logs[i])
  {
  }

  lemma PullKeeps(h: History, c: Cluster, i: nat)
    requires Inv(h, c) && i < |c.hosts|
    ensures DoPull(c, i).Running? && Inv(h, DoPull(c, i).cluster)
  {
    hide LeadersOk, AcksOk, ClaimsOk, GrantsOk, Complete, CommitsOk, LogsOk, VotesOk, HostOk;
    LogFromLeaders(h, i);
    var x := c.hosts[i];
    if x.inflight.None? {
      PulledHostOk(h, x, i);
      var (s, e) := ApplyNext(x.raft).value;
      QuietKeeps(h, c, i, x.(raft := s, inflight := e), {}, {});
    }
  }

  function Taken(x: Host): Host
    requires x.inflight.Some?
  {
    var e := x.inflight.value;
    if e.index <= |x.applied| then x.(inflight := None)
    else x.(inflight := None, applied := x.applied + [e.command])
  }

  lemma DeliveredHostOk(h: History, x: Host, i: nat)
    requires i < |h.terms| == |h.logs| == |h.committed| && HostOk(h, x, i) && x.inflight.Some?
    ensures HostOk(h, Taken(x), i)
  {
    hide LeaderOk, SnapshotOk, InCommitted;
  }

  lemma DeliverKeeps(h: History, c: Cluster, i: nat)
    requires Inv(h, c) && i < |c.hosts|
    ensures Inv(h, DoDeliver(c, i))
  {
    hide Inv, Ok, VotesOk, HostOk, EventOk, LeadersOk, Complete, CommitsOk, FromLeaders, WellFormed;
    HostFacts(h, c, i);
    var x := c.hosts[i];
    if x.inflight.Some? {
      var e := x.inflight.value;
      DeliveredHostOk(h, x, i);
      if e.index <= |x.applied| {
        QuietKeeps(h, c, i, Taken(x), {}, {});
      } else {
        DeliveryWitnessed(h, x, i);
        QuietKeeps(h, c, i, Taken(x), {}, {Delivered(i, e)});
      }
    }
  }

  lemma DeliveryWitnessed(h: History, x: Host, i: nat)
    requires i < |h.terms| == |h.logs| == |h.committed| && HostOk(h, x, i) && x.inflight.Some?
    ensures EventOk(h, Delivered(i, x.inflight.value))
  {
    hide LeaderOk, CandidateOk, SnapshotOk, Represents, InCommitted;
    assert WitnessedBy(h, Delivered(i, x.inflight.value), x.raft.term, h.committed[i]);
  }

  /** The entry in flight is the next one of the service, or one it has. */
  lemma InFlight(h: History, c: Cluster, i: nat)
    requires Inv(h, c) && i < |c.hosts| && c.hosts[i].inflight.Some?
    ensures var x := c.hosts[i];
      var e := x.inflight.value;
      1 <= e.index <= |x.applied| + 1 && (e.index <= |x.applied| ==> x.applied[e.index - 1] == e.command)
  {
    hide *;
    HostFacts(h, c, i);
    InFlightHost(h, c.hosts[i], i);
  }

  lemma InFlightHost(h: History, x: Host, i: nat)
    requires i < |h.terms| == |h.logs| == |h.committed| && HostOk(h, x, i) && x.inflight.Some?
    ensures var e := x.inflight.value;
      1 <= e.index <= |x.applied| + 1 && (e.index <= |x.applied| ==> x.applied[e.index - 1] == e.command)
  {
    hide KnownOk, LeaderOk, CandidateOk, SnapshotOk;
  }
}
