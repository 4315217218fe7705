/** Validity: nothing is stored, committed or executed in a cluster that no client submitted to one of its leaders. */
module RaftValidity {
  import opened Common
  import opened RaftTypes
  import opened RaftServer
  import opened RaftCluster
  import opened RaftHistory
  import opened RaftInvariant
  import opened RaftSnapshots
  import opened RaftSafety

  /** A leader took this very entry from a client. */
  predicate Given(events: set<Event>, e: Entry) {
    Submitted(e.term, e.index, e.command) in events
  }

  ghost predicate AllGiven(events: set<Event>, entries: seq<Entry>) {
    forall j :: 0 <= j < |entries| ==> Given(events, entries[j])
  }

  /** A leader took the command from a client, and told it this index. */
  ghost predicate GivenAt(events: set<Event>, index: nat, command: Command) {
    exists t :: Submitted(t, index, command) in events
  }

  /** Some server has delivered the command at this index. */
  ghost predicate DoneAt(events: set<Event>, index: nat, command: Command) {
    exists p, t :: Delivered(p, Entry(t, index, command)) in events
  }

  ghost predicate DataGiven(events: set<Event>, data: seq<Command>) {
    forall j: nat :: j < |data| ==> DoneAt(events, j + 1, data[j])
  }

  ghost predicate HostGiven(events: set<Event>, x: Host) {
    && x.raft.log != [] && AllGiven(events, x.raft.log[1..])
    && DataGiven(events, x.raft.snapshot) && DataGiven(events, x.applied)
    && (x.inflight.Some? ==> Given(events, x.inflight.value))
    && (forall a :: a in x.installs ==> DataGiven(events, a.data))
  }

  ghost predicate MessageGiven(events: set<Event>, m: Message) {
    && (m.AppendRequest? ==> AllGiven(events, m.appendArgs.entries))
    && (m.SnapshotRequest? ==> DataGiven(events, m.snapshotArgs.data))
  }

  ghost predicate EventGiven(events: set<Event>, e: Event) {
    && (e.Committed? ==> e.entry.index == e.index && Given(events, e.entry))
    && (e.Delivered? ==> Given(events, e.entry))
    && (e.Installed? ==> e.index == |e.data| && DataGiven(events, e.data))
  }

  ghost predicate ClusterGiven(c: Cluster) {
    && (forall i :: 0 <= i < |c.hosts| ==> HostGiven(c.events, c.hosts[i]))
    && (forall m :: m in c.net ==> MessageGiven(c.events, m))
    && (forall e :: e in c.events ==> EventGiven(c.events, e))
  }

  // ---------------------------------------------------------------- more events, more given

  lemma DataMore(events: set<Event>, seen: set<Event>, data: seq<Command>)
    requires DataGiven(events, data)
    ensures DataGiven(events + seen, data)
  {
    forall j: nat | j < |data|
      ensures DoneAt(events + seen, j + 1, data[j])
    {
      assert DoneAt(events, j + 1, data[j]);
      var p, t :| Delivered(p, Entry(t, j + 1, data[j])) in events;
      assert Delivered(p, Entry(t, j + 1, data[j])) in events + seen;
    }
  }

  lemma HostMore(events: set<Event>, seen: set<Event>, x: Host)
    requires HostGiven(events, x)
    ensures HostGiven(events + seen, x)
  {
    hide DataGiven;
    DataMore(events, seen, x.raft.snapshot);
    DataMore(events, seen, x.applied);
    forall a | a in x.installs
      ensures DataGiven(events + seen, a.data)
    {
      DataMore(events, seen, a.data);
    }
  }

  lemma MessageMore(events: set<Event>, seen: set<Event>, m: Message)
    requires MessageGiven(events, m)
    ensures MessageGiven(events + seen, m)
  {
    hide DataGiven;
    if m.SnapshotRequest? {
      DataMore(events, seen, m.snapshotArgs.data);
    }
  }

  lemma EventMore(events: set<Event>, seen: set<Event>, e: Event)
    requires EventGiven(events, e)
    ensures EventGiven(events + seen, e)
  {
    hide DataGiven;
    if e.Installed? {
      DataMore(events, seen, e.data);
    }
  }

  /** A step of one host keeps validity when its new state, and what it sends and shows, are given. */
  lemma PutGiven(c: Cluster, i: nat, x: Host, sent: set<Message>, seen: set<Event>, d: Cluster)
    requires ClusterGiven(c) && i < |c.hosts|
    requires d == Cluster(c.hosts[i := x], c.net + sent, c.events + seen)
    requires HostGiven(d.events, x)
    requires forall m :: m in sent ==> MessageGiven(d.events, m)
    requires forall e :: e in seen ==> EventGiven(d.events, e)
    ensures ClusterGiven(d)
  {
    hide HostGiven, MessageGiven, EventGiven;
    forall j | 0 <= j < |d.hosts|
      ensures HostGiven(d.events, d.hosts[j])
    {
      if j != i {
        HostMore(c.events, seen, c.hosts[j]);
      }
    }
    forall m | m in d.net
      ensures MessageGiven(d.events, m)
    {
      if m in c.net {
        MessageMore(c.events, seen, m);
      }
    }
    forall e | e in d.events
      ensures EventGiven(d.events, e)
    {
      if e in c.events {
        EventMore(c.events, seen, e);
      }
    }
  }

  // ---------------------------------------------------------------- steps

  /** The log of a server, its snapshot and what its service has are those of before. */
  predicate SameContent(x: Host, y: Host) {
    && y.raft.log == x.raft.log && y.raft.snapshot == x.raft.snapshot
    && y.applied == x.applied && y.inflight == x.inflight
  }

  lemma SameGiven(events: set<Event>, x: Host, y: Host)
    requires HostGiven(events, x) && SameContent(x, y)
    requires forall a :: a in y.installs ==> a in x.installs || DataGiven(events, a.data)
    ensures HostGiven(events, y)
  {
  }

  lemma SplicedGiven(events: set<Event>, log: Log, entries: seq<Entry>, c: nat)
    requires Contiguous(log) && Contiguous(entries) && c < |entries|
    requires log[0].index <= entries[c].index <= Tail(log).index + 1
    requires AllGiven(events, log[1..]) && AllGiven(events, entries)
    ensures AllGiven(events, Spliced(log, entries, c)[1..])
  {
    var r, k := Spliced(log, entries, c), entries[c].index - log[0].index;
    forall j | 0 <= j < |r[1..]|
      ensures Given(events, r[1..][j])
    {
      if j + 1 < k {
        assert r[1..][j] == log[1..][j];
      } else {
        assert r[1..][j] == entries[c + (j + 1 - k)];
      }
    }
  }

  lemma MergeGiven(events: set<Event>, log: Log, entries: seq<Entry>)
    requires Contiguous(log) && Contiguous(entries) && entries[0].index <= Tail(log).index + 1
    requires AllGiven(events, log[1..]) && AllGiven(events, entries)
    ensures AllGiven(events, Merge(log, entries)[1..])
  {
    hide AllGiven, FirstConflict;
    var c := FirstConflict(log, entries);
    if Tail(entries).index >= log[0].index {
      if c < |entries| {
        SplicedGiven(events, log, entries, c);
      } else if Tail(entries).index > Tail(log).index {
        SplicedGiven(events, log, entries, Tail(log).index + 1 - entries[0].index);
      }
    }
  }

  lemma AppendGiven(events: set<Event>, s: Server, args: AppendArgs)
    requires WellFormed(s) && Follows(args) && AllGiven(events, s.log[1..]) && AllGiven(events, args.entries)
    ensures var r := AppendEntries(s, args).0;
      r.log != [] && AllGiven(events, r.log[1..]) && r.snapshot == s.snapshot
  {
    hide AllGiven, Merge, Conflict;
    var r := ObserveLeader(s, args.term);
    if args.term >= s.term && Consistent(r.log, args) && args.entries != [] {
      MergeGiven(events, r.log, args.entries);
    }
  }

  lemma AppendRequestGiven(c: Cluster, i: nat, args: AppendArgs)
    requires Sane(c) && ClusterGiven(c) && AppendRequest(i, args) in c.net
    ensures ClusterGiven(DoAppendRequest(c, i, args))
  {
    assert SaneMessage(|c.hosts|, AppendRequest(i, args)) && MessageGiven(c.events, AppendRequest(i, args));
    var x := c.hosts[i];
    assert HostGiven(c.events, x);
    AppendGiven(c.events, x.raft, args);
    var (s, reply) := AppendEntries(x.raft, args);
    hide AppendEntries, ClusterGiven, AllGiven, DataGiven, Sane;
    assert c.events + {} == c.events;
    PutGiven(c, i, x.(raft := s), {AppendResponse(args.leaderId, i, args, reply)}, {}, DoAppendRequest(c, i, args));
  }

  lemma SubmitGiven(c: Cluster, i: nat, command: Command)
    requires Sane(c) && ClusterGiven(c) && i < |c.hosts|
    ensures ClusterGiven(DoSubmit(c, i, command))
  {
    var x := c.hosts[i];
    var (s, index) := Start(x.raft, command);
    var seen := if index.Some? then {Submitted(s.term, index.value, command)} else {};
    HostMore(c.events, seen, x);
    assert s.log[1..] == if index.Some? then x.raft.log[1..] + [Entry(s.term, index.value, command)]
      else x.raft.log[1..];
    hide ClusterGiven, DataGiven, Sane;
    PutGiven(c, i, x.(raft := s), {}, seen, DoSubmit(c, i, command));
  }

  lemma SendGiven(c: Cluster, i: nat, peer: nat)
    requires Sane(c) && ClusterGiven(c) && i < |c.hosts| && DoSendTo(c, i, peer).Running?
    ensures ClusterGiven(DoSendTo(c, i, peer).cluster)
  {
    var x := c.hosts[i];
    assert HostGiven(c.events, x);
    if x.raft.role == Leader && peer != i && peer < |c.hosts| {
      var request := Replicate(x.raft, peer).value;
      var sent := if request.Append? then {AppendRequest(peer, request.append)}
        else {SnapshotRequest(peer, request.install)};
      SentGiven(c.events, x.raft, peer);
      hide Replicate, ClusterGiven, HostGiven, AllGiven, DataGiven, Sane;
      assert c.events + {} == c.events;
      PutGiven(c, i, x, sent, {}, DoSendTo(c, i, peer).cluster);
    }
  }

  lemma SentGiven(events: set<Event>, s: Server, peer: nat)
    requires WellFormed(s) && peer < s.peers && AllGiven(events, s.log[1..]) && DataGiven(events, s.snapshot)
    requires Replicate(s, peer).Some?
    ensures var r := Replicate(s, peer).value;
      (r.Append? ==> AllGiven(events, r.append.entries)) && (r.Install? ==> DataGiven(events, r.install.data))
  {
    hide DataGiven;
    var r := Replicate(s, peer).value;
    if r.Append? {
      var k := s.nextIndex[peer] - s.log[0].index;
      assert forall j :: 0 <= j < |r.append.entries| ==> r.append.entries[j] == s.log[1..][k - 1 + j];
    }
  }

  // ---------------------------------------------------------------- steps that bring no command anywhere

  /** Server i has moved, but its content is that of before, and nothing it sends or shows carries a command. */
  ghost predicate Empty(c: Cluster, i: nat, y: Host, sent: set<Message>, seen: set<Event>, d: Cluster)
    requires i < |c.hosts|
  {
    && d == Cluster(c.hosts[i := y], c.net + sent, c.events + seen)
    && SameContent(c.hosts[i], y) && y.installs <= c.hosts[i].installs
    && (forall m :: m in sent ==> !m.AppendRequest? && !m.SnapshotRequest?)
    && (forall e :: e in seen ==> !e.Committed? && !e.Delivered? && !e.Installed?)
  }

  lemma EmptyGiven(c: Cluster, i: nat, y: Host, sent: set<Message>, seen: set<Event>, d: Cluster)
    requires ClusterGiven(c) && i < |c.hosts| && Empty(c, i, y, sent, seen, d)
    ensures ClusterGiven(d)
  {
    HostMore(c.events, seen, c.hosts[i]);
    SameGiven(c.events + seen, c.hosts[i], y);
    hide HostGiven, ClusterGiven, SameContent;
    PutGiven(c, i, y, sent, seen, d);
  }

  lemma VoteRequestGiven(c: Cluster, i: nat, args: VoteArgs)
    requires Sane(c) && ClusterGiven(c) && i < |c.hosts| && args.candidateId < |c.hosts|
    ensures ClusterGiven(DoVoteRequest(c, i, args))
  {
    hide ClusterGiven, WellFormed;
    var (s, reply) := RequestVote(c.hosts[i].raft, args);
    var sent := {VoteResponse(args.candidateId, i, args, reply)};
    var seen := if reply.granted then {Voted(args.term, i, args.candidateId)} else {};
    EmptyGiven(c, i, c.hosts[i].(raft := s), sent, seen, DoVoteRequest(c, i, args));
  }

  lemma VoteResponseGiven(c: Cluster, i: nat, from: nat, args: VoteArgs, reply: VoteReply)
    requires Sane(c) && ClusterGiven(c) && i < |c.hosts|
    ensures ClusterGiven(DoVoteResponse(c, i, from, args, reply))
  {
    hide ClusterGiven, WellFormed;
    var x := c.hosts[i];
    if from !in x.granted {
      var (s, granted) := VoteReplied(x.raft, x.granted, from, args, reply);
      var seen := if x.raft.role != Leader && s.role == Leader then {Elected(s.term, i)} else {};
      EmptyGiven(c, i, x.(raft := s, granted := granted), {}, seen, DoVoteResponse(c, i, from, args, reply));
    }
  }

  lemma TimeoutGiven(c: Cluster, i: nat)
    requires Sane(c) && ClusterGiven(c) && i < |c.hosts|
    ensures ClusterGiven(DoTimeout(c, i))
  {
    hide ClusterGiven;
    var d := DoTimeout(c, i);
    assert Empty(c, i, d.hosts[i], d.net - c.net, d.events - c.events, d);
    EmptyGiven(c, i, d.hosts[i], d.net - c.net, d.events - c.events, d);
  }

  lemma SnapshotAnswerGiven(c: Cluster, i: nat, from: nat, args: SnapshotArgs, term: nat)
    requires Sane(c) && ClusterGiven(c) && i < |c.hosts| && from < |c.hosts|
    ensures ClusterGiven(DoSnapshotResponse(c, i, from, args, term))
  {
    hide ClusterGiven;
    var d := DoSnapshotResponse(c, i, from, args, term);
    assert Empty(c, i, d.hosts[i], {}, {}, d);
    EmptyGiven(c, i, d.hosts[i], {}, {}, d);
  }

  // ---------------------------------------------------------------- snapshots

  lemma SnapshotRequestGiven(c: Cluster, i: nat, args: SnapshotArgs)
    requires Sane(c) && ClusterGiven(c) && SnapshotRequest(i, args) in c.net
    ensures ClusterGiven(DoSnapshotRequest(c, i, args))
  {
    assert SaneMessage(|c.hosts|, SnapshotRequest(i, args)) && MessageGiven(c.events, SnapshotRequest(i, args));
    var x, d := c.hosts[i], DoSnapshotRequest(c, i, args);
    assert HostGiven(c.events, x);
    SameGiven(c.events, x, d.hosts[i]);
    hide ClusterGiven, HostGiven, DataGiven;
    assert c.events + {} == c.events;
    PutGiven(c, i, d.hosts[i], {SnapshotResponse(args.leaderId, i, args, x.raft.term)}, {}, d);
  }

  lemma TakeSnapshotGiven(c: Cluster, i: nat)
    requires Sane(c) && ClusterGiven(c) && i < |c.hosts|
    ensures ClusterGiven(DoTakeSnapshot(c, i))
  {
    var x, d := c.hosts[i], DoTakeSnapshot(c, i);
    assert HostGiven(c.events, x);
    CompactGiven(c.events, x);
    hide ClusterGiven, HostGiven, Compact;
    assert c.events + {} == c.events;
    PutGiven(c, i, d.hosts[i], {}, {}, d);
  }

  lemma SuffixGiven(events: set<Event>, log: Log, k: nat, foot: Entry)
    requires k < |log| && AllGiven(events, log[1..])
    ensures AllGiven(events, ([foot] + log[k..][1..])[1..])
  {
    var r := ([foot] + log[k..][1..])[1..];
    assert forall j :: 0 <= j < |r| ==> r[j] == log[1..][k + j];
  }

  lemma CompactGiven(events: set<Event>, x: Host)
    requires HostGiven(events, x) && WellFormed(x.raft)
    ensures HostGiven(events, x.(raft := Compact(x.raft, |x.applied|, x.applied)))
  {
    hide AllGiven, DataGiven;
    var s := x.raft;
    if At(s.log, |x.applied|).Some? {
      var k := |x.applied| - s.log[0].index;
      SuffixGiven(events, s.log, k, s.log[k..][0].(command := NoCommand));
    }
  }

  lemma InstalledGiven(events: set<Event>, s: Server, a: SnapshotArgs)
    requires WellFormed(s) && AllGiven(events, s.log[1..])
    requires CondInstallSnapshot(s, a.lastIncludedTerm, a.lastIncludedIndex, a.data).Some?
    ensures var (r, done) := CondInstallSnapshot(s, a.lastIncludedTerm, a.lastIncludedIndex, a.data).value;
      r.log != [] && AllGiven(events, r.log[1..]) && r.snapshot == if done then a.data else s.snapshot
  {
    hide AllGiven;
    var foot := Entry(a.lastIncludedTerm, a.lastIncludedIndex, NoCommand);
    if s.commitIndex <= a.lastIncludedIndex && s.log[0].index <= a.lastIncludedIndex {
      if a.lastIncludedIndex >= Tail(s.log).index {
        NothingKept(events, s.log, foot);
      } else {
        SuffixGiven(events, s.log, a.lastIncludedIndex - s.log[0].index, foot);
      }
    }
  }

  lemma NothingKept(events: set<Event>, log: Log, foot: Entry)
    requires log != []
    ensures AllGiven(events, ([foot] + log[..1][1..])[1..])
  {
  }

  lemma InstallGiven(h: History, c: Cluster, i: nat, a: SnapshotArgs)
    requires Inv(h, c) && ClusterGiven(c) && i < |c.hosts| && DoInstallNow(c, i, a).Running?
    ensures ClusterGiven(DoInstallNow(c, i, a).cluster)
  {
    hide Inv;
    HostFacts(h, c, i);
    var x, d := c.hosts[i], DoInstallNow(c, i, a).cluster;
    if a in x.installs {
      var log := WaitingIsSnapshot(h, x, i, a);
      hide HostOk;
      assert HostGiven(c.events, x);
      InstalledGiven(c.events, x.raft, a);
      var done := CondInstallSnapshot(x.raft, a.lastIncludedTerm, a.lastIncludedIndex, a.data).value.1;
      var seen := if done then {Installed(i, a.lastIncludedIndex, a.data)} else {};
      assert HostGiven(c.events, d.hosts[i]);
      HostMore(c.events, seen, d.hosts[i]);
      DataMore(c.events, seen, a.data);
      hide ClusterGiven, HostGiven, DataGiven, CondInstallSnapshot, InCommitted;
      PutGiven(c, i, d.hosts[i], {}, seen, d);
    }
  }

  lemma CrashGiven(c: Cluster, i: nat)
    requires Sane(c) && ClusterGiven(c) && i < |c.hosts|
    ensures ClusterGiven(DoCrash(c, i))
  {
    var x, d := c.hosts[i], DoCrash(c, i);
    assert HostGiven(c.events, x);
    assert HostGiven(c.events, d.hosts[i]);
    hide ClusterGiven, HostGiven;
    assert c.events + {} == c.events;
    PutGiven(c, i, d.hosts[i], {}, {}, d);
  }

  // ---------------------------------------------------------------- delivery and commitment

  lemma EntryGiven(events: set<Event>, log: Log, n: nat)
    requires Contiguous(log) && AllGiven(events, log[1..]) && n > log[0].index && At(log, n).Some?
    ensures Given(events, At(log, n).value) && At(log, n).value.index == n
  {
    assert log[1..][n - log[0].index - 1] == At(log, n).value;
  }

  /** What is known to be committed begins above the foot. */
  lemma FootBelow(h: History, c: Cluster, i: nat)
    requires Inv(h, c) && i < |c.hosts|
    ensures var s := c.hosts[i].raft; WellFormed(s) && s.log[0].index <= s.lastApplied <= s.commitIndex
  {
    hide Inv;
    HostFacts(h, c, i);
    HostParts(h, c.hosts[i], i);
  }

  lemma PullGiven(h: History, c: Cluster, i: nat)
    requires Inv(h, c) && Sane(c) && ClusterGiven(c) && i < |c.hosts| && DoPull(c, i).Running?
    ensures ClusterGiven(DoPull(c, i).cluster)
  {
    hide Inv;
    FootBelow(h, c, i);
    var x, d := c.hosts[i], DoPull(c, i).cluster;
    assert HostGiven(c.events, x);
    if x.inflight.None? {
      if x.raft.lastApplied < x.raft.commitIndex {
        EntryGiven(c.events, x.raft.log, x.raft.lastApplied + 1);
      }
      assert HostGiven(c.events, d.hosts[i]);
      hide ClusterGiven, HostGiven, ApplyNext;
      assert c.events + {} == c.events;
      PutGiven(c, i, d.hosts[i], {}, {}, d);
    }
  }

  lemma OneMoreGiven(events: set<Event>, data: seq<Command>, e: Entry, p: nat)
    requires DataGiven(events, data) && Delivered(p, e) in events && e.index == |data| + 1
    ensures DataGiven(events, data + [e.command])
  {
    assert e == Entry(e.term, |data| + 1, e.command);
    assert DoneAt(events, |data| + 1, e.command);
    forall j: nat | j < |data + [e.command]|
      ensures DoneAt(events, j + 1, (data + [e.command])[j])
    {
      if j < |data| {
        assert DoneAt(events, j + 1, data[j]);
      }
    }
  }

  lemma DeliverGiven(h: History, c: Cluster, i: nat)
    requires Inv(h, c) && Sane(c) && ClusterGiven(c) && i < |c.hosts|
    ensures ClusterGiven(DoDeliver(c, i))
  {
    hide Inv, DataGiven;
    var x, d := c.hosts[i], DoDeliver(c, i);
    assert HostGiven(c.events, x);
    if x.inflight.Some? {
      InFlight(h, c, i);
      var e := x.inflight.value;
      var seen := if e.index <= |x.applied| then {} else {Delivered(i, e)};
      HostMore(c.events, seen, x);
      if e.index > |x.applied| {
        OneMoreGiven(c.events + seen, x.applied, e, i);
      }
      assert HostGiven(c.events + seen, d.hosts[i]);
      hide ClusterGiven, HostGiven;
      PutGiven(c, i, d.hosts[i], {}, seen, d);
    }
  }

  lemma AnswerGiven(h: History, c: Cluster, i: nat, from: nat, args: AppendArgs, reply: AppendReply)
    requires Inv(h, c) && Sane(c) && ClusterGiven(c) && i < |c.hosts| && from < |c.hosts|
    requires DoAppendResponse(c, i, from, args, reply).Running?
    ensures ClusterGiven(DoAppendResponse(c, i, from, args, reply).cluster)
  {
    hide Inv, ScanCommit, BackUp, DataGiven;
    FootBelow(h, c, i);
    var x, d := c.hosts[i], DoAppendResponse(c, i, from, args, reply).cluster;
    var s := AppendReplied(x.raft, from, args, reply).value;
    assert SameContent(x, x.(raft := s)) && s.log == x.raft.log;
    var seen := CommittedNow(s, x.raft.commitIndex);
    HostMore(c.events, seen, x);
    SameGiven(c.events + seen, x, x.(raft := s));
    forall e | e in seen
      ensures EventGiven(c.events + seen, e)
    {
      EntryGiven(c.events + seen, s.log, e.index);
    }
    hide ClusterGiven, HostGiven, EventGiven, AppendReplied, CommittedNow;
    PutGiven(c, i, x.(raft := s), {}, seen, d);
  }

  // ---------------------------------------------------------------- the observer misses nothing

  /** A leader takes every command it is given, and that is recorded with the place it has in the log. */
  lemma SubmissionSeen(c: Cluster, i: nat, command: Command)
    requires Sane(c) && i < |c.hosts| && c.hosts[i].raft.role == Leader
    ensures var s := c.hosts[i].raft;
      var d := DoSubmit(c, i, command);
      && d.events == c.events + {Submitted(s.term, Tail(s.log).index + 1, command)}
      && At(d.hosts[i].raft.log, Tail(s.log).index + 1) == Some(Entry(s.term, Tail(s.log).index + 1, command))
  {
  }

  /** Whatever a reply makes a server commit is recorded, entry by entry. */
  lemma CommitmentSeen(c: Cluster, i: nat, from: nat, args: AppendArgs, reply: AppendReply, n: nat)
    requires Sane(c) && i < |c.hosts| && from < |c.hosts| && DoAppendResponse(c, i, from, args, reply).Running?
    requires var s := DoAppendResponse(c, i, from, args, reply).cluster.hosts[i].raft;
      c.hosts[i].raft.commitIndex < n <= s.commitIndex && At(s.log, n).Some?
    ensures var d := DoAppendResponse(c, i, from, args, reply).cluster;
      Committed(c.hosts[i].raft.term, n, At(c.hosts[i].raft.log, n).value) in d.events
  {
    hide ScanCommit, BackUp;
  }

  /** The change of what a service has executed, with its record. */
  ghost predicate Recorded(i: nat, x: Host, now: seq<Command>, events: set<Event>) {
    || (x.inflight.Some? && now == x.applied + [x.inflight.value.command]
        && Delivered(i, x.inflight.value) in events)
    || exists n :: Installed(i, n, now) in events
  }

  /** Whatever changes what a running service has executed is recorded. */
  lemma ExecutionSeen(c: Cluster, step: Step, i: nat)
    requires Sane(c) && i < |c.hosts| && Take(c, step).Running? && !step.Crash?
    requires Take(c, step).cluster.hosts[i].applied != c.hosts[i].applied
    ensures Recorded(i, c.hosts[i], Take(c, step).cluster.hosts[i].applied, Take(c, step).cluster.events)
  {
    if step.Deliver? {
      DeliverySeen(c, step.i, i);
    } else if step.InstallNow? {
      InstallationSeen(c, step.i, step.snapshot, i);
    } else {
      OthersExecuteNothing(c, step, i);
      assert false;
    }
  }

  lemma DeliverySeen(c: Cluster, j: nat, i: nat)
    requires Sane(c) && i < |c.hosts| && Take(c, Deliver(j)).Running?
    requires Take(c, Deliver(j)).cluster.hosts[i].applied != c.hosts[i].applied
    ensures Recorded(i, c.hosts[i], Take(c, Deliver(j)).cluster.hosts[i].applied, Take(c, Deliver(j)).cluster.events)
  {
  }

  lemma InstallationSeen(c: Cluster, j: nat, a: SnapshotArgs, i: nat)
    requires Sane(c) && i < |c.hosts| && Take(c, InstallNow(j, a)).Running?
    requires Take(c, InstallNow(j, a)).cluster.hosts[i].applied != c.hosts[i].applied
    ensures var d := Take(c, InstallNow(j, a)).cluster; Recorded(i, c.hosts[i], d.hosts[i].applied, d.events)
  {
    hide CondInstallSnapshot;
    assert Installed(i, a.lastIncludedIndex, a.data) in Take(c, InstallNow(j, a)).cluster.events;
  }

  lemma OthersExecuteNothing(c: Cluster, step: Step, i: nat)
    requires Sane(c) && i < |c.hosts| && Take(c, step).Running?
    requires !step.Deliver? && !step.InstallNow? && !step.Crash?
    ensures Take(c, step).cluster.hosts[i].applied == c.hosts[i].applied
  {
    hide DoReceive, DoTimeout, DoSendTo, DoPull, WellFormed, Sane;
    if step.Receive? {
      ReceivesExecuteNothing(c, step.m, i);
    } else if step.i < |c.hosts| {
      match step
      case Timeout(j) => TimeoutExecutesNothing(c, j, i);
      case SendTo(j, peer) => SendExecutesNothing(c, j, peer, i);
      case Pull(j) => PullExecutesNothing(c, j, i);
      case _ =>
    }
  }

  lemma TimeoutExecutesNothing(c: Cluster, j: nat, i: nat)
    requires Sane(c) && i < |c.hosts| && j < |c.hosts|
    ensures DoTimeout(c, j).hosts[i].applied == c.hosts[i].applied
  {
    hide StartElection;
  }

  lemma SendExecutesNothing(c: Cluster, j: nat, peer: nat, i: nat)
    requires Sane(c) && i < |c.hosts| && j < |c.hosts| && DoSendTo(c, j, peer).Running?
    ensures DoSendTo(c, j, peer).cluster.hosts[i].applied == c.hosts[i].applied
  {
    hide Replicate;
  }

  lemma PullExecutesNothing(c: Cluster, j: nat, i: nat)
    requires Sane(c) && i < |c.hosts| && j < |c.hosts| && DoPull(c, j).Running?
    ensures DoPull(c, j).cluster.hosts[i].applied == c.hosts[i].applied
  {
    hide ApplyNext;
  }

  lemma ReceivesExecuteNothing(c: Cluster, m: Message, i: nat)
    requires Sane(c) && i < |c.hosts| && Take(c, Receive(m)).Running?
    ensures Take(c, Receive(m)).cluster.hosts[i].applied == c.hosts[i].applied
  {
    hide RequestVote, VoteReplied, AppendEntries, AppendReplied, CommittedNow, InstallSnapshot, SnapshotReplied;
  }

  // ---------------------------------------------------------------- over every run

  lemma ReceiveGiven(h: History, c: Cluster, m: Message)
    requires Inv(h, c) && Sane(c) && ClusterGiven(c) && m in c.net && DoReceive(c, m).Running?
    ensures ClusterGiven(DoReceive(c, m).cluster)
  {
    hide Inv, ClusterGiven, DoVoteRequest, DoVoteResponse, DoAppendRequest, DoAppendResponse, DoSnapshotRequest,
         DoSnapshotResponse;
    assert SaneMessage(|c.hosts|, m);
    match m
    case VoteRequest(to, args) => VoteRequestGiven(c, to, args);
    case VoteResponse(to, from, args, reply) => VoteResponseGiven(c, to, from, args, reply);
    case AppendRequest(to, args) => AppendRequestGiven(c, to, args);
    case AppendResponse(to, from, args, reply) => AnswerGiven(h, c, to, from, args, reply);
    case SnapshotRequest(to, args) => SnapshotRequestGiven(c, to, args);
    case SnapshotResponse(to, from, args, term) => SnapshotAnswerGiven(c, to, from, args, term);
  }

  lemma StepGiven(h: History, c: Cluster, step: Step)
    requires Inv(h, c) && Sane(c) && ClusterGiven(c) && Take(c, step).Running?
    ensures ClusterGiven(Take(c, step).cluster)
  {
    hide Inv, ClusterGiven, Sane, DoReceive, DoTimeout, DoSendTo, DoSubmit, DoPull, DoDeliver, DoTakeSnapshot,
         DoInstallNow,
         DoCrash;
    if step.Receive? {
      if step.m in c.net {
        ReceiveGiven(h, c, step.m);
      }
    } else if step.i < |c.hosts| {
      match step
      case Timeout(i) => TimeoutGiven(c, i);
      case SendTo(i, peer) => SendGiven(c, i, peer);
      case Submit(i, command) => SubmitGiven(c, i, command);
      case Pull(i) => PullGiven(h, c, i);
      case Deliver(i) => DeliverGiven(h, c, i);
      case TakeSnapshot(i) => TakeSnapshotGiven(c, i);
      case InstallNow(i, a) => InstallGiven(h, c, i, a);
      case Crash(i) => CrashGiven(c, i);
    }
  }

  lemma BootGiven(n: nat)
    ensures ClusterGiven(Boot(n))
  {
  }

  lemma {:induction false} RunGiven(n: nat, steps: seq<Step>)
    ensures Run(n, steps).Running? && ClusterGiven(Run(n, steps).cluster)
    decreases |steps|
  {
    hide Inv, ClusterGiven, Take;
    if steps == [] {
      BootGiven(n);
    } else {
      var rest := steps[..|steps| - 1];
      RunGiven(n, rest);
      var h := RunKeeps(n, rest);
      var _ := StepKeeps(h, Run(n, rest).cluster, steps[|steps| - 1]);
      StepGiven(h, Run(n, rest).cluster, steps[|steps| - 1]);
    }
  }

  lemma DoneWasGiven(c: Cluster, index: nat, command: Command)
    requires ClusterGiven(c) && DoneAt(c.events, index, command)
    ensures GivenAt(c.events, index, command)
  {
    var p, t :| Delivered(p, Entry(t, index, command)) in c.events;
    assert EventGiven(c.events, Delivered(p, Entry(t, index, command)));
  }

  /** Validity: whatever a service is given, by a delivery or within a snapshot, was submitted at that index. */
  lemma Validity(n: nat, steps: seq<Step>, e: Event, index: nat, command: Command)
    requires Run(n, steps).Running? && e in Run(n, steps).cluster.events && Says(e, index, command)
    ensures GivenAt(Run(n, steps).cluster.events, index, command)
  {
    hide Run;
    RunGiven(n, steps);
    var events := Run(n, steps).cluster.events;
    assert EventGiven(events, e);
    if e.Delivered? {
      assert Given(events, e.entry);
    } else {
      assert DoneAt(events, index - 1 + 1, e.data[index - 1]);
      DoneWasGiven(Run(n, steps).cluster, index, command);
    }
  }

  /** What a service has executed, however it got it, has been delivered as a log entry somewhere, at its index. */
  lemma ExecutedWasDelivered(n: nat, steps: seq<Step>, i: nat, index: nat) returns (entry: Entry)
    requires Run(n, steps).Running? && i < n && 1 <= index <= |Run(n, steps).cluster.hosts[i].applied|
    ensures entry.index == index && entry.command == Run(n, steps).cluster.hosts[i].applied[index - 1]
    ensures exists p :: Delivered(p, entry) in Run(n, steps).cluster.events
    ensures Submitted(entry.term, index, entry.command) in Run(n, steps).cluster.events
  {
    hide Run;
    RunGiven(n, steps);
    var c := Run(n, steps).cluster;
    assert HostGiven(c.events, c.hosts[i]);
    var command := c.hosts[i].applied[index - 1];
    assert DoneAt(c.events, index - 1 + 1, command);
    var p, t :| Delivered(p, Entry(t, index, command)) in c.events;
    entry := Entry(t, index, command);
    assert EventGiven(c.events, Delivered(p, entry));
  }

  /**
   A client that was told an index by a leader of a term finds its command there: an entry of that term that is
   committed at the index, by whichever leader, carries it.
   */
  lemma CommittedIsSubmitted(n: nat, steps: seq<Step>, t: nat, index: nat, command: Command, u: nat, entry: Entry)
    requires Run(n, steps).Running? && Submitted(t, index, command) in Run(n, steps).cluster.events
    requires Committed(u, index, entry) in Run(n, steps).cluster.events && entry.term == t
    ensures entry == Entry(t, index, command)
  {
    hide Run, Inv, Complete, CommitsOk, LeadersOk, Ok, FromLeaders, Covered;
    var h := RunKeeps(n, steps);
    var c := Run(n, steps).cluster;
    EventFacts(h, c, Submitted(t, index, command));
    EventFacts(h, c, Committed(u, index, entry));
    OneEntry(h, t, u, index, entry);
  }

  lemma OneEntry(h: History, t: nat, u: nat, index: nat, entry: Entry)
    requires LeadersOk(h) && t in h.leaderLog && u in h.leaderLog && 1 <= index <= |h.leaderLog[t]|
    requires index <= |h.leaderLog[u]| && h.leaderLog[u][index - 1] == entry && entry.term == t
    ensures h.leaderLog[t][index - 1] == entry
  {
    var log := h.leaderLog[u];
    assert FromLeaders(h, log);
    assert log[..index - 1 + 1][index - 1] == h.leaderLog[t][index - 1];
  }
}
