/** Steps that send, store, acknowledge and commit entries keep the invariant. */
module RaftReplication {
  import opened RaftTypes
  import opened RaftServer
  import opened RaftCluster
  import opened RaftHistory
  import opened RaftProgress
  import opened RaftLogs
  import opened RaftInvariant
  import opened RaftVotes
  import opened RaftElections

  // ---------------------------------------------------------------- a client command

  lemma SubmitKeeps(h: History, c: Cluster, i: nat, command: Command) returns (k: History)
    requires Inv(h, c) && i < |c.hosts|
    ensures Inv(k, DoSubmit(c, i, command)) && Evolves(h, k)
  {
    hide *;
    HostFacts(h, c, i);
    SubmitShape(c, i, command);
    k := h;
    if c.hosts[i].raft.role != Leader {
      NoChangeKeeps(h, c, i, {});
    } else {
      k := Extend(h, i, command);
      SubmitLeads(h, c, i, command);
    }
  }

  lemma SubmitShape(c: Cluster, i: nat, command: Command)
    requires Sane(c) && i < |c.hosts|
    ensures var x := c.hosts[i];
      DoSubmit(c, i, command) ==
      if x.raft.role != Leader then Put(c, i, x, {}, {})
      else
        var (s, index) := Start(x.raft, command);
        Put(c, i, x.(raft := s), {}, {Submitted(s.term, index.value, command)})
  {
  }

  lemma SubmitLeads(h: History, c: Cluster, i: nat, command: Command)
    requires Inv(h, c) && i < |c.hosts| && c.hosts[i].raft.role == Leader
    ensures Start(c.hosts[i].raft, command).1.Some?
    ensures var (s, index) := Start(c.hosts[i].raft, command);
      Inv(Extend(h, i, command), Put(c, i, c.hosts[i].(raft := s), {}, {Submitted(s.term, index.value, command)}))
    ensures Evolves(h, Extend(h, i, command))
  {
    hide *;
    HostFacts(h, c, i);
    var x := c.hosts[i];
    var y := x.(raft := Start(x.raft, command).0);
    var k := Extend(h, i, command);
    LeaderFacts(h, x, i);
    ExtendOk(h, i, command);
    ExtendOnlyHost(h, i, command);
    VotesSame(h, k, Ballots(c));
    StartKeepsBallot(x.raft, command);
    SameBallot(c, i, y);
    ExtendedHostOk(h, k, x, i, command);
    StartSeen(h, x, i, command);
    Assemble(h, c, k, i, y, {}, {Submitted(y.raft.term, Start(x.raft, command).1.value, command)});
  }

  lemma StartSeen(h: History, x: Host, i: nat, command: Command)
    requires i < |h.terms| == |h.logs| == |h.committed| && HostOk(h, x, i) && WellFormed(x.raft)
      && x.raft.role == Leader
    requires FromLeaders(h, h.logs[i])
    ensures var (s, index) := Start(x.raft, command);
      index.Some? && s.term == x.raft.term && EventOk(Extend(h, i, command), Submitted(s.term, index.value, command))
  {
    HostParts(h, x, i);
    TailOfFull(h, x.raft, h.logs[i], h.committed[i]);
    hide HostOk, KnownOk, Represents, FromLeaders;
  }

  lemma LeaderFacts(h: History, x: Host, i: nat)
    requires i < |h.terms| == |h.logs| == |h.committed| && HostOk(h, x, i) && x.raft.role == Leader
    ensures h.terms[i] in h.leaderLog && h.leaderLog[h.terms[i]] == h.logs[i] && Owns(h, h.terms[i], i)
  {
  }

  lemma StartKeepsBallot(s: Server, command: Command)
    requires WellFormed(s)
    ensures var r := Start(s, command).0;
      r.votedFor == s.votedFor && r.role == s.role && r.me == s.me && r.peers == s.peers
  {
  }

  lemma ExtendOnlyHost(h: History, i: nat, command: Command)
    requires |h.logs| == |h.terms| == |h.committed| && i < |h.terms| && Owns(h, h.terms[i], i)
    ensures OnlyHost(h, Extend(h, i, command), i) && SameElections(h, Extend(h, i, command))
  {
  }

  lemma ExtendedHostOk(h: History, k: History, x: Host, i: nat, command: Command)
    requires i < |h.terms| == |h.logs| == |h.committed| && HostOk(h, x, i) && WellFormed(x.raft)
    requires x.raft.me == i && x.raft.peers == |h.terms| && x.raft.role == Leader && FromLeaders(h, h.logs[i])
    requires k == Extend(h, i, command) && Evolves(h, k)
    ensures HostOk(k, x.(raft := Start(x.raft, command).0), i)
  {
    hide InCommitted, Evolves, KnownOk, LeaderOk, Represents, CandidateOk, SnapshotOk;
    var s := Start(x.raft, command).0;
    ExtendedLogOk(h, k, x.raft, i, command, h.committed[i]);
    ExtendedLeaderOk(h, k, x.raft, s, i, command);
    CandidateNotLeader(k, x.(raft := s), i);
    InstallsStable(h, k, s.term, s.term, x.installs);
  }

  lemma CandidateNotLeader(k: History, x: Host, i: nat)
    requires i < |k.terms| == |k.logs| && x.raft.role != Candidate
    ensures CandidateOk(k, x, i)
  {
  }

  lemma ExtendedLogOk(h: History, k: History, r: Server, i: nat, command: Command, known: Log)
    requires i < |h.terms| == |h.logs| && WellFormed(r) && r.term == h.terms[i] && r.role == Leader
    requires Represents(r.log, h.logs[i]) && FromLeaders(h, h.logs[i]) && KnownOk(h, r, h.logs[i], known)
    requires k == Extend(h, i, command) && Evolves(h, k)
    ensures Represents(Start(r, command).0.log, k.logs[i]) && KnownOk(k, Start(r, command).0, k.logs[i], known)
    ensures Start(r, command).0.log[0] == r.log[0]
  {
    var s := Start(r, command).0;
    var entry := Entry(r.term, |h.logs[i]| + 1, command);
    TailOfFull(h, r, h.logs[i], known);
    assert s.log == r.log + [entry] && k.logs[i] == h.logs[i] + [entry];
    assert s.log[1..] == r.log[1..] + [entry];
    assert k.logs[i][s.log[0].index..] == h.logs[i][s.log[0].index..] + [entry];
    KnownStable(h, k, r, h.logs[i], known);
  }

  lemma ExtendedLeaderOk(h: History, k: History, r: Server, s: Server, i: nat, command: Command)
    requires i < |h.terms| == |h.logs| && WellFormed(r) && r.me == i && r.term == h.terms[i] && r.role == Leader
    requires LeaderOk(h, r, i, h.logs[i]) && k == Extend(h, i, command) && Evolves(h, k) && s == Start(r, command).0
    ensures LeaderOk(k, s, i, k.logs[i])
  {
  }

  // ---------------------------------------------------------------- the leader sends

  lemma KnownCovered(h: History, t: nat, known: Log)
    requires InCommitted(h, t, known)
    ensures Covered(h, t, |known|)
  {
  }

  /** The foot of a log whose known prefix is in the leader's log agrees with that log. */
  lemma FootAgrees(h: History, s: Server, full: Log, known: Log, t: nat)
    requires Complete(h) && CommitsOk(h) && KnownOk(h, s, full, known) && s.term <= t && t in h.leaderLog
    ensures known <= h.leaderLog[t]
    ensures s.log[0].index >= 1 ==> s.log[0].term == h.leaderLog[t][s.log[0].index - 1].term
  {
    if known != [] {
      var u, n :| (u, n) in h.commits && u <= s.term && OwnEntry(h, u, n) && known <= h.leaderLog[u][..n];
      assert InCommitted(h, t, known);
      CoveredInLeader(h, t, known);
    }
  }

  lemma SentAppendOk(h: History, s: Server, i: nat, full: Log, known: Log, peer: nat)
    requires Complete(h) && CommitsOk(h) && FromLeaders(h, full) && WellFormed(s) && s.me == i
      && peer < s.peers == |h.terms|
    requires Represents(s.log, full) && KnownOk(h, s, full, known) && LeaderOk(h, s, i, full) && s.role == Leader
    requires s.nextIndex[peer] > s.log[0].index
    ensures Replicate(s, peer).Some? && Replicate(s, peer).value.Append? && AppendOk(h, Replicate(s, peer).value.append)
    ensures Replicate(s, peer).value.append.leaderId == i
  {
    hide Complete, CommitsOk, FromLeaders, MatchOk, InCommitted, Covered;
    var next := s.nextIndex[peer];
    FromLeadersPlaced(h, full);
    SentShape(s, full, peer);
    SuffixOfFull(s.log, full, next);
    FootAgrees(h, s, full, known, s.term);
    KnownCovered(h, s.term, known);
  }

  lemma FromLeadersPlaced(h: History, full: Log)
    requires FromLeaders(h, full)
    ensures Placed(full)
  {
  }

  /** What a leader sends when the peer's next index is above the foot of its log. */
  lemma SentShape(s: Server, full: Log, peer: nat)
    requires WellFormed(s) && peer < s.peers && Represents(s.log, full) && Placed(full)
    requires s.log[0].index < s.nextIndex[peer] <= |full| + 1
    ensures var next := s.nextIndex[peer];
      && Replicate(s, peer).Some? && Replicate(s, peer).value.Append?
      && var a := Replicate(s, peer).value.append;
      && a.term == s.term && a.leaderId == s.me && a.prevLogIndex == next - 1 && a.leaderCommit == s.commitIndex
      && a.entries == s.log[next - s.log[0].index..]
      && a.prevLogTerm == if next - 1 == s.log[0].index then s.log[0].term else full[next - 2].term
  {
  }

  lemma SuffixOfFull(log: Log, full: Log, next: nat)
    requires Represents(log, full) && log[0].index < next <= |full| + 1
    ensures Sent(full, next - 1, log[next - log[0].index..], next - 1 + |log[next - log[0].index..]|)
  {
  }

  lemma SentSnapshotOk(h: History, s: Server, i: nat, x: Host, full: Log, known: Log, peer: nat)
    requires WellFormed(s) && x.raft == s && s.me == i && peer < s.peers == |h.terms|
    requires KnownOk(h, s, full, known) && LeaderOk(h, s, i, full) && ServiceOk(x, known) && s.role == Leader
    requires s.nextIndex[peer] <= s.log[0].index
    ensures Replicate(s, peer).Some? && Replicate(s, peer).value.Install?
      && InstallOk(h, Replicate(s, peer).value.install)
    ensures Replicate(s, peer).value.install.leaderId == i
  {
    var a := Replicate(s, peer).value.install;
    var log := known[..s.log[0].index];
    PrefixCommitted(h, s.term, known, s.log[0].index);
    assert Commands(log) == Commands(known)[..s.log[0].index];
    assert IsSnapshotOf(h, s.term, a, log);
  }

  lemma SendKeeps(h: History, c: Cluster, i: nat, peer: nat)
    requires Inv(h, c) && i < |c.hosts|
    ensures DoSendTo(c, i, peer).Running? && Inv(h, DoSendTo(c, i, peer).cluster)
  {
    hide Inv, Replicate, LeadersOk, Ok, Complete, CommitsOk, VotesOk, HostOk, FromLeaders, MessageOk;
    HostFacts(h, c, i);
    var x := c.hosts[i];
    if x.raft.role == Leader && peer != i && peer < |c.hosts| {
      SentOk(h, x, i, peer);
      NoChangeKeeps(h, c, i, {SentMessage(x.raft, peer)});
    }
  }

  /** What a leader sends to a peer. */
  function SentMessage(s: Server, peer: nat): Message
    requires WellFormed(s) && peer < s.peers && Replicate(s, peer).Some?
  {
    match Replicate(s, peer).value
    case Append(args) => AppendRequest(peer, args)
    case Install(args) => SnapshotRequest(peer, args)
  }

  lemma SentOk(h: History, x: Host, i: nat, peer: nat)
    requires i < |h.terms| == |h.logs| == |h.committed| && HostOk(h, x, i) && WellFormed(x.raft)
    requires Complete(h) && CommitsOk(h) && FromLeaders(h, h.logs[i])
    requires x.raft.me == i && x.raft.peers == |h.terms| && x.raft.role == Leader && peer < |h.terms| && peer != i
    ensures Replicate(x.raft, peer).Some?
    ensures SaneMessage(|h.terms|, SentMessage(x.raft, peer)) && MessageOk(h, SentMessage(x.raft, peer))
  {
    hide Complete, CommitsOk, FromLeaders, KnownOk, Represents, CandidateOk, SnapshotOk;
    if x.raft.nextIndex[peer] <= x.raft.log[0].index {
      SentSnapshotOk(h, x.raft, i, x, h.logs[i], h.committed[i], peer);
    } else {
      SentAppendOk(h, x.raft, i, h.logs[i], h.committed[i], peer);
    }
  }

  // ---------------------------------------------------------------- a follower stores

  /** The check on the previous entry is made against the full log. */
  lemma CheckedFull(h: History, s: Server, full: Log, args: AppendArgs)
    requires Represents(s.log, full) && AppendOk(h, args) && Consistent(s.log, args)
    ensures Checked(s.log, full, h.leaderLog[args.term], args.prevLogIndex)
    ensures args.prevLogIndex <= |full|
  {
  }

  /** History after server i has stored the entries of a request that reach above the foot of its log. */
  function AfterStore(h: History, i: nat, base: nat, m: nat): History
    requires i < |h.terms| && |h.logs| == |h.terms| && h.terms[i] in h.leaderLog && m <= |h.leaderLog[h.terms[i]]|
  {
    if m > base then Store(h, i, m) else h
  }

  function MergedLog(s: Server, args: AppendArgs): Log
    requires WellFormed(s) && Follows(args) && Consistent(s.log, args)
  {
    if args.entries == [] then s.log else Merge(s.log, args.entries)
  }

  /** Whether or not entries were sent, the log now stands for the stored prefix. */
  lemma MergedRepresents(h: History, s: Server, full: Log, known: Log, args: AppendArgs)
    requires WellFormed(s) && Follows(args) && AppendOk(h, args) && Consistent(s.log, args)
    requires Complete(h) && CommitsOk(h) && LeadersOk(h) && FromLeaders(h, full)
    requires Represents(s.log, full) && KnownOk(h, s, full, known) && s.term == args.term
    ensures var m := args.prevLogIndex + |args.entries|;
            var base := s.log[0].index;
            && Represents(MergedLog(s, args), if m > base then Stored(full, h.leaderLog[args.term][..m]) else full)
            && MergedLog(s, args)[0] == s.log[0]
  {
    var leader := h.leaderLog[args.term];
    FootAgrees(h, s, full, known, args.term);
    LogsComparable(h, s.log, full, leader);
    CheckedFull(h, s, full, args);
    MergedStands(s, full, leader, args);
  }

  lemma MergedStands(s: Server, full: Log, leader: Log, args: AppendArgs)
    requires WellFormed(s) && Follows(args) && Consistent(s.log, args)
    requires Represents(s.log, full) && Placed(full) && Placed(leader) && Comparable(s.log, full, leader)
    requires Sent(leader, args.prevLogIndex, args.entries, args.prevLogIndex + |args.entries|)
    requires Checked(s.log, full, leader, args.prevLogIndex) && args.prevLogIndex <= |full|
    ensures var m := args.prevLogIndex + |args.entries|;
            && Represents(MergedLog(s, args), if m > s.log[0].index then Stored(full, leader[..m]) else full)
            && MergedLog(s, args)[0] == s.log[0]
  {
    hide Merge, Represents, Comparable, Consistent, Sent;
    var m := args.prevLogIndex + |args.entries|;
    RepresentsContiguous(s.log, full);
    if args.entries == [] {
      if m > s.log[0].index {
        AlreadyStored(s.log, full, leader, m);
      }
    } else {
      assert Contiguous(args.entries);
      MergeKeepsFoot(s.log, full, leader, args.prevLogIndex, args.entries, m);
      if m <= s.log[0].index {
        MergeNeedsNothing(s.log, full, leader, args.prevLogIndex, args.entries, m);
      } else {
        MergeStores(s.log, full, leader, args.prevLogIndex, args.entries, m);
      }
    }
  }

  lemma AlreadyStored(log: Log, full: Log, leader: Log, m: nat)
    requires Comparable(log, full, leader) && Checked(log, full, leader, m) && m > log[0].index
    ensures m <= |leader| && Stored(full, leader[..m]) == full
  {
    assert full[..m - 1 + 1] == leader[..m - 1 + 1];
  }

  lemma MergeKeepsFoot(log: Log, full: Log, leader: Log, prev: nat, entries: seq<Entry>, m: nat)
    requires Represents(log, full) && Placed(full) && Sent(leader, prev, entries, m) && Placed(leader)
    requires Comparable(log, full, leader) && entries != []
    requires Contiguous(log) && Contiguous(entries) && entries[0].index <= Tail(log).index + 1
    ensures Merge(log, entries)[0] == log[0]
  {
    SentFollow(leader, prev, entries, m);
    var c := FirstConflict(log, entries);
    if c < |entries| {
      ConflictPlace(log, full, leader, prev, entries, m, c);
    }
  }

  lemma StoredHostOk(h: History, k: History, x: Host, i: nat, args: AppendArgs)
    requires i < |h.terms| == |h.logs| == |h.committed| && HostOk(h, x, i) && WellFormed(x.raft) && Follows(args)
    requires LeadersOk(h) && Complete(h) && CommitsOk(h) && FromLeaders(h, h.logs[i])
    requires AppendOk(h, args) && args.leaderId != i && x.raft.term == args.term && x.raft.role == Follower
    requires Consistent(x.raft.log, args)
    requires k == AfterStore(h, i, x.raft.log[0].index, args.prevLogIndex + |args.entries|) && Evolves(h, k)
    ensures HostOk(k, x.(raft := x.raft.(log := MergedLog(x.raft, args))), i)
  {
    var s := x.raft;
    hide LeadersOk, Complete, CommitsOk, FromLeaders, Evolves, KnownOk, Represents, ServiceOk, SnapshotOk;
    MergedRepresents(h, s, h.logs[i], h.committed[i], args);
    FootAgrees(h, s, h.logs[i], h.committed[i], args.term);
    StoredKnownOk(h, k, s, h.logs[i], h.committed[i], args);
    ServiceSameFoot(x, x.(raft := s.(log := MergedLog(s, args))), h.committed[i]);
    InstallsStable(h, k, s.term, s.term, x.installs);
    StoreKeepsOwner(h, i, s.log[0].index, args);
  }

  lemma StoreKeepsOwner(h: History, i: nat, base: nat, args: AppendArgs)
    requires i < |h.terms| == |h.logs| && h.terms[i] == args.term && AppendOk(h, args) && args.leaderId != i
    ensures !Owns(AfterStore(h, i, base, args.prevLogIndex + |args.entries|), args.term, i)
  {
  }

  lemma ServiceSameFoot(x: Host, y: Host, known: Log)
    requires ServiceOk(x, known) && y == x.(raft := x.raft.(log := y.raft.log))
    requires y.raft.log != [] && y.raft.log[0] == x.raft.log[0]
    ensures ServiceOk(y, known)
  {
  }

  lemma StoredKnownOk(h: History, k: History, s: Server, full: Log, known: Log, args: AppendArgs)
    requires WellFormed(s) && Follows(args) && Consistent(s.log, args) && AppendOk(h, args) && Evolves(h, k)
    requires KnownOk(h, s, full, known) && known <= h.leaderLog[args.term]
    requires MergedLog(s, args)[0] == s.log[0]
    ensures var m := args.prevLogIndex + |args.entries|;
            KnownOk(k, s.(log := MergedLog(s, args)),
                    if m > s.log[0].index then Stored(full, h.leaderLog[args.term][..m]) else full, known)
  {
    hide InCommitted, Covered, Consistent, Merge;
    var m := args.prevLogIndex + |args.entries|;
    InCommittedStable(h, k, s.term, s.term, known);
    hide Evolves;
    if m > s.log[0].index && s.commitIndex > s.log[0].index {
      StoredKeepsShared(full, h.leaderLog[args.term], m, known);
    }
  }

  lemma StoreOnlyHost(h: History, i: nat, base: nat, m: nat)
    requires |h.logs| == |h.terms| == |h.committed| && i < |h.terms|
    requires h.terms[i] in h.leaderLog && m <= |h.leaderLog[h.terms[i]]| && h.committed[i] <= h.leaderLog[h.terms[i]]
    ensures OnlyHost(h, AfterStore(h, i, base, m), i) && SameElections(h, AfterStore(h, i, base, m))
  {
    if h.committed[i] <= h.logs[i] {
      StoredKeepsShared(h.logs[i], h.leaderLog[h.terms[i]], m, h.committed[i]);
    }
  }

  lemma AppendFacts(h: History, args: AppendArgs)
    requires AppendOk(h, args)
    ensures args.term in h.leaderLog && args.prevLogIndex + |args.entries| <= |h.leaderLog[args.term]|
  {
  }

  lemma AfterStoreOk(h: History, i: nat, base: nat, m: nat)
    requires Ok(h) && i < |h.terms| && h.terms[i] in h.leaderLog && m <= |h.leaderLog[h.terms[i]]|
    requires |h.logs| == |h.terms|
    ensures Ok(AfterStore(h, i, base, m)) && Evolves(h, AfterStore(h, i, base, m))
  {
    hide LeadersOk, AcksOk, ClaimsOk, GrantsOk, Complete, CommitsOk, Evolves, OnlyHost;
    if m > base {
      StoreOk(h, i, m);
    } else {
      SameHistory(h);
    }
  }

  lemma MergedWellFormed(s: Server, args: AppendArgs)
    requires WellFormed(s) && Follows(args) && Consistent(s.log, args)
    ensures WellFormed(s.(log := MergedLog(s, args)))
  {
  }

  lemma StoreKeeps(h: History, c: Cluster, i: nat, args: AppendArgs)
    requires Inv(h, c) && i < |c.hosts| && Follows(args) && AppendOk(h, args) && args.leaderId != i
    requires c.hosts[i].raft.term == args.term && c.hosts[i].raft.role == Follower
      && Consistent(c.hosts[i].raft.log, args)
    ensures Inv(AfterStore(h, i, c.hosts[i].raft.log[0].index, args.prevLogIndex + |args.entries|),
                Put(c, i, c.hosts[i].(raft := c.hosts[i].raft.(log := MergedLog(c.hosts[i].raft, args))), {}, {}))
    ensures Evolves(h, AfterStore(h, i, c.hosts[i].raft.log[0].index, args.prevLogIndex + |args.entries|))
  {
    hide *;
    HostFacts(h, c, i);
    AppendFacts(h, args);
    var x := c.hosts[i];
    var y := x.(raft := x.raft.(log := MergedLog(x.raft, args)));
    var m := args.prevLogIndex + |args.entries|;
    var base := x.raft.log[0].index;
    var k := AfterStore(h, i, base, m);
    HostParts(h, x, i);
    FootAgrees(h, x.raft, h.logs[i], h.committed[i], args.term);
    StoreOnlyHost(h, i, base, m);
    AfterStoreOk(h, i, base, m);
    VotesSame(h, k, Ballots(c));
    SameBallot(c, i, y);
    StoredHostOk(h, k, x, i, args);
    MergedWellFormed(x.raft, args);
    Assemble(h, c, k, i, y, {}, {});
  }

  // ---------------------------------------------------------------- a server learns what is committed

  lemma LearnedHostOk(h: History, k: History, x: Host, i: nat, log: Log)
    requires i < |h.terms| == |h.logs| == |h.committed| && HostOk(h, x, i) && Evolves(h, k)
    requires k == Learn(h, i, log) && InCommitted(h, x.raft.term, log)
    requires h.committed[i] <= log <= h.logs[i]
    ensures HostOk(k, x.(raft := x.raft.(commitIndex := |log|)), i)
  {
    hide Evolves, SnapshotOk, LeaderOk, Represents, CandidateOk, ServiceOk;
    var s := x.raft;
    var y := x.(raft := s.(commitIndex := |log|));
    InCommittedStable(h, k, s.term, s.term, log);
    LearnedLeaderOk(h, k, s, i, log);
    LearnedCandidateOk(h, k, x, i, log);
    LearnedServiceOk(x, h.committed[i], log);
    InstallsStable(h, k, s.term, s.term, x.installs);
  }

  lemma LearnedLeaderOk(h: History, k: History, s: Server, i: nat, log: Log)
    requires i < |h.terms| == |h.logs| == |h.committed| && LeaderOk(h, s, i, h.logs[i]) && Evolves(h, k)
      && k == Learn(h, i, log)
    ensures LeaderOk(k, s.(commitIndex := |log|), i, k.logs[i])
  {
  }

  lemma LearnedCandidateOk(h: History, k: History, x: Host, i: nat, log: Log)
    requires i < |h.terms| == |h.logs| == |h.committed| && CandidateOk(h, x, i) && Evolves(h, k)
      && k == Learn(h, i, log)
    ensures CandidateOk(k, x.(raft := x.raft.(commitIndex := |log|)), i)
  {
  }

  lemma LearnedServiceOk(x: Host, known: Log, log: Log)
    requires ServiceOk(x, known) && known <= log
    ensures ServiceOk(x.(raft := x.raft.(commitIndex := |log|)), log)
  {
  }

  lemma LearnKeeps(h: History, c: Cluster, i: nat, log: Log, sent: set<Message>, seen: set<Event>)
    requires Inv(h, c) && i < |c.hosts| && InCommitted(h, c.hosts[i].raft.term, log)
    requires h.committed[i] <= log <= h.logs[i]
    requires forall m :: m in sent ==> SaneMessage(|c.hosts|, m) && MessageOk(h, m)
    requires forall e :: e in seen ==> EventOk(h, e)
    ensures Inv(Learn(h, i, log), Put(c, i, c.hosts[i].(raft := c.hosts[i].raft.(commitIndex := |log|)), sent, seen))
    ensures Evolves(h, Learn(h, i, log))
  {
    hide LeadersOk, AcksOk, ClaimsOk, GrantsOk, Complete, CommitsOk, Evolves, VotesOk;
    var x := c.hosts[i];
    var y := x.(raft := x.raft.(commitIndex := |log|));
    var k := Learn(h, i, log);
    LearnOk(h, i, log);
    LearnOnlyHost(h, i, log);
    VotesSame(h, k, Ballots(c));
    assert Ballots(c)[i := BallotOf(y)] == Ballots(c);
    LearnedHostOk(h, k, x, i, log);
    forall m | m in sent
      ensures MessageOk(k, m)
    {
      MessageStable(h, k, m);
    }
    forall e | e in seen
      ensures EventOk(k, e)
    {
      EventStable(h, k, e);
    }
    Assemble(h, c, k, i, y, sent, seen);
  }
}
