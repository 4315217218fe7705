/** Runs of src/db_files/raft/raft.go in which a textbook property fails, step by step. */
module RaftRuns {
  import opened Common
  import opened RaftTypes
  import opened RaftServer
  import opened RaftCluster
  import opened RaftHistory
  import opened RaftSuffix

  /** Where a run has got: all hosts, and some of what has been sent and observed. */
  datatype Scene = Scene(steps: seq<Step>, hosts: seq<Host>, sent: set<Message>, seen: set<Event>)

  ghost predicate Holds(n: nat, z: Scene) {
    && Run(n, z.steps).Running?
    && Run(n, z.steps).cluster.hosts == z.hosts
    && z.sent <= Run(n, z.steps).cluster.net
    && z.seen <= Run(n, z.steps).cluster.events
  }

  function With(z: Scene, step: Step, i: nat, x: Host, sent: set<Message>, seen: set<Event>): Scene
    requires i < |z.hosts|
  {
    Scene(z.steps + [step], z.hosts[i := x], z.sent + sent, z.seen + seen)
  }

  lemma OnBoot(n: nat) returns (w: Scene)
    ensures w == Scene([], Boot(n).hosts, {}, {}) && Holds(n, w)
  {
    w := Scene([], Boot(n).hosts, {}, {});
  }

  lemma RunOneMore(n: nat, steps: seq<Step>, step: Step)
    requires Run(n, steps).Running?
    ensures Run(n, steps + [step]) == Take(Run(n, steps).cluster, step)
  {
    assert (steps + [step])[..|steps|] == steps;
  }

  // ---------------------------------------------------------------- one step of a run, by its kind

  lemma Stands(c: Cluster, i: nat, s: Server, args: VoteArgs)
    requires Sane(c) && i < |c.hosts| && c.hosts[i].raft.role != Leader && StartElection(c.hosts[i].raft) == (s, args)
    ensures Take(c, Timeout(i)) == Running(Cluster(
      c.hosts[i := c.hosts[i].(raft := s, granted := {i})],
      c.net + (set p | p in Ids(|c.hosts|) && p != i :: VoteRequest(p, args)),
      c.events + {Voted(s.term, i, i)}))
  {
    hide StartElection;
  }

  /** A server stands; sent is some of the requests it sends. */
  lemma OnTimeout(n: nat, z: Scene, i: nat, s: Server, args: VoteArgs, sent: set<Message>) returns (w: Scene)
    requires Holds(n, z) && i < n && z.hosts[i].raft.role != Leader && WellFormed(z.hosts[i].raft)
    requires StartElection(z.hosts[i].raft) == (s, args)
    requires forall m :: m in sent ==> m.to < n && m.to != i && m == VoteRequest(m.to, args)
    ensures Holds(n, w)
    ensures w == With(z, Timeout(i), i, z.hosts[i].(raft := s, granted := {i}), sent, {Voted(s.term, i, i)})
  {
    hide StartElection, Take, Run, WellFormed, Sane;
    w := With(z, Timeout(i), i, z.hosts[i].(raft := s, granted := {i}), sent, {Voted(s.term, i, i)});
    RunOneMore(n, z.steps, Timeout(i));
    Stands(Run(n, z.steps).cluster, i, s, args);
    forall m | m in sent ensures m in Run(n, w.steps).cluster.net {
      assert m.to in Ids(n);
    }
  }

  lemma OnVoteRequest(n: nat, z: Scene, i: nat, args: VoteArgs, s: Server, reply: VoteReply) returns (w: Scene)
    requires Holds(n, z) && i < n && VoteRequest(i, args) in z.sent && WellFormed(z.hosts[i].raft)
    requires RequestVote(z.hosts[i].raft, args) == (s, reply) && reply.granted
    ensures Holds(n, w) && w == With(z, Receive(VoteRequest(i, args)), i, z.hosts[i].(raft := s),
      {VoteResponse(args.candidateId, i, args, reply)}, {Voted(args.term, i, args.candidateId)})
  {
    hide RequestVote;
    w := With(z, Receive(VoteRequest(i, args)), i, z.hosts[i].(raft := s),
      {VoteResponse(args.candidateId, i, args, reply)}, {Voted(args.term, i, args.candidateId)});
    RunOneMore(n, z.steps, Receive(VoteRequest(i, args)));
    assert SaneMessage(n, VoteRequest(i, args));
  }

  lemma OnVoteResponse(n: nat, z: Scene, i: nat, from: nat, args: VoteArgs, reply: VoteReply, s: Server,
        votes: set<nat>)
    returns (w: Scene)
    requires Holds(n, z) && i < n && VoteResponse(i, from, args, reply) in z.sent && WellFormed(z.hosts[i].raft)
    requires from !in z.hosts[i].granted
    requires VoteReplied(z.hosts[i].raft, z.hosts[i].granted, from, args, reply) == (s, votes)
    ensures Holds(n, w) && w == With(z, Receive(VoteResponse(i, from, args, reply)), i,
      z.hosts[i].(raft := s, granted := votes), {}, {})
  {
    hide VoteReplied;
    w := With(z, Receive(VoteResponse(i, from, args, reply)), i, z.hosts[i].(raft := s, granted := votes), {}, {});
    RunOneMore(n, z.steps, Receive(VoteResponse(i, from, args, reply)));
    assert SaneMessage(n, VoteResponse(i, from, args, reply));
  }

  /** A server votes for the candidate, which counts the vote. */
  lemma OnVote(n: nat, z: Scene, i: nat, from: nat, args: VoteArgs, voter: Server, reply: VoteReply, s: Server)
    returns (w: Scene)
    requires Holds(n, z) && i < n && from < n && i != from && args.candidateId == i
    requires VoteRequest(from, args) in z.sent && from !in z.hosts[i].granted
    requires WellFormed(z.hosts[from].raft) && RequestVote(z.hosts[from].raft, args) == (voter, reply) && reply.granted
    requires WellFormed(z.hosts[i].raft)
    requires VoteReplied(z.hosts[i].raft, z.hosts[i].granted, from, args, reply) == (s, z.hosts[i].granted + {from})
    ensures Holds(n, w) && z.sent <= w.sent && z.seen <= w.seen
    ensures w.hosts == z.hosts[from := z.hosts[from].(raft := voter)]
      [i := z.hosts[i].(raft := s, granted := z.hosts[i].granted + {from})]
  {
    hide RequestVote;
    hide VoteReplied;
    w := OnVoteRequest(n, z, from, args, voter, reply);
    w := OnVoteResponse(n, w, i, from, args, reply, s, z.hosts[i].granted + {from});
  }

  function AsMessage(peer: nat, request: Request): Message {
    match request
    case Append(args) => AppendRequest(peer, args)
    case Install(args) => SnapshotRequest(peer, args)
  }

  lemma OnSend(n: nat, z: Scene, i: nat, peer: nat, request: Request) returns (w: Scene)
    requires Holds(n, z) && i < n && peer < n && peer != i && z.hosts[i].raft.role == Leader
    requires WellFormed(z.hosts[i].raft) && z.hosts[i].raft.peers == n
    requires Replicate(z.hosts[i].raft, peer) == Some(request)
    ensures Holds(n, w) && w == With(z, SendTo(i, peer), i, z.hosts[i], {AsMessage(peer, request)}, {})
  {
    hide Replicate;
    w := With(z, SendTo(i, peer), i, z.hosts[i], {AsMessage(peer, request)}, {});
    RunOneMore(n, z.steps, SendTo(i, peer));
  }

  lemma OnAppendRequest(n: nat, z: Scene, i: nat, args: AppendArgs, s: Server, reply: AppendReply) returns (w: Scene)
    requires Holds(n, z) && i < n && AppendRequest(i, args) in z.sent && WellFormed(z.hosts[i].raft) && Follows(args)
    requires AppendEntries(z.hosts[i].raft, args) == (s, reply)
    ensures Holds(n, w) && w == With(z, Receive(AppendRequest(i, args)), i, z.hosts[i].(raft := s),
      {AppendResponse(args.leaderId, i, args, reply)}, {})
  {
    hide AppendEntries;
    w := With(z, Receive(AppendRequest(i, args)), i, z.hosts[i].(raft := s),
      {AppendResponse(args.leaderId, i, args, reply)}, {});
    RunOneMore(n, z.steps, Receive(AppendRequest(i, args)));
    assert SaneMessage(n, AppendRequest(i, args));
  }

  lemma OnAppendResponse(n: nat, z: Scene, i: nat, from: nat, args: AppendArgs, reply: AppendReply, s: Server)
    returns (w: Scene)
    requires Holds(n, z) && i < n && from < n && AppendResponse(i, from, args, reply) in z.sent
    requires WellFormed(z.hosts[i].raft) && z.hosts[i].raft.peers == n
    requires AppendReplied(z.hosts[i].raft, from, args, reply) == Some(s)
    ensures Holds(n, w)
    ensures w == With(z, Receive(AppendResponse(i, from, args, reply)), i, z.hosts[i].(raft := s), {}, {})
  {
    hide AppendReplied, CommittedNow;
    w := With(z, Receive(AppendResponse(i, from, args, reply)), i, z.hosts[i].(raft := s), {}, {});
    RunOneMore(n, z.steps, Receive(AppendResponse(i, from, args, reply)));
  }

  lemma OnSubmit(n: nat, z: Scene, i: nat, command: Command, s: Server) returns (w: Scene)
    requires Holds(n, z) && i < n && WellFormed(z.hosts[i].raft) && Start(z.hosts[i].raft, command).0 == s
    ensures Holds(n, w) && w == With(z, Submit(i, command), i, z.hosts[i].(raft := s), {}, {})
  {
    hide Start;
    hide WellFormed;
    w := With(z, Submit(i, command), i, z.hosts[i].(raft := s), {}, {});
    RunOneMore(n, z.steps, Submit(i, command));
  }

  lemma OnPull(n: nat, z: Scene, i: nat, s: Server, e: Entry) returns (w: Scene)
    requires Holds(n, z) && i < n && z.hosts[i].inflight.None? && WellFormed(z.hosts[i].raft)
    requires ApplyNext(z.hosts[i].raft) == Some((s, Some(e)))
    ensures Holds(n, w) && w == With(z, Pull(i), i, z.hosts[i].(raft := s, inflight := Some(e)), {}, {})
  {
    hide ApplyNext;
    w := With(z, Pull(i), i, z.hosts[i].(raft := s, inflight := Some(e)), {}, {});
    RunOneMore(n, z.steps, Pull(i));
  }

  lemma OnDeliver(n: nat, z: Scene, i: nat) returns (w: Scene)
    requires Holds(n, z) && i < n && z.hosts[i].inflight.Some?
    requires z.hosts[i].inflight.value.index > |z.hosts[i].applied|
    ensures var x := z.hosts[i];
      Holds(n, w) && w == With(z, Deliver(i), i,
        x.(inflight := None, applied := x.applied + [x.inflight.value.command]), {}, {})
  {
    var x := z.hosts[i];
    w := With(z, Deliver(i), i, x.(inflight := None, applied := x.applied + [x.inflight.value.command]), {}, {});
    RunOneMore(n, z.steps, Deliver(i));
  }

  lemma OnCompact(n: nat, z: Scene, i: nat, s: Server) returns (w: Scene)
    requires Holds(n, z) && i < n && WellFormed(z.hosts[i].raft)
    requires Compact(z.hosts[i].raft, |z.hosts[i].applied|, z.hosts[i].applied) == s
    ensures Holds(n, w) && w == With(z, TakeSnapshot(i), i, z.hosts[i].(raft := s), {}, {})
  {
    hide Compact;
    w := With(z, TakeSnapshot(i), i, z.hosts[i].(raft := s), {}, {});
    RunOneMore(n, z.steps, TakeSnapshot(i));
  }

  lemma OnSnapshotRequest(n: nat, z: Scene, i: nat, args: SnapshotArgs, s: Server) returns (w: Scene)
    requires Holds(n, z) && i < n && SnapshotRequest(i, args) in z.sent
    requires InstallSnapshot(z.hosts[i].raft, args) == (s, true)
    ensures Holds(n, w) && w == With(z, Receive(SnapshotRequest(i, args)), i,
      z.hosts[i].(raft := s, installs := z.hosts[i].installs + {args}), {}, {})
  {
    hide InstallSnapshot;
    w := With(z, Receive(SnapshotRequest(i, args)), i,
      z.hosts[i].(raft := s, installs := z.hosts[i].installs + {args}), {}, {});
    RunOneMore(n, z.steps, Receive(SnapshotRequest(i, args)));
    assert SaneMessage(n, SnapshotRequest(i, args));
  }

  lemma OnInstall(n: nat, z: Scene, i: nat, a: SnapshotArgs, s: Server) returns (w: Scene)
    requires Holds(n, z) && i < n && a in z.hosts[i].installs && WellFormed(z.hosts[i].raft)
    requires CondInstallSnapshot(z.hosts[i].raft, a.lastIncludedTerm, a.lastIncludedIndex, a.data) == Some((s, true))
    ensures var x := z.hosts[i];
      Holds(n, w) && w == With(z, InstallNow(i, a), i,
        x.(raft := s, installs := x.installs - {a}, applied := a.data), {}, {})
  {
    hide CondInstallSnapshot;
    var x := z.hosts[i];
    w := With(z, InstallNow(i, a), i, x.(raft := s, installs := x.installs - {a}, applied := a.data), {}, {});
    RunOneMore(n, z.steps, InstallNow(i, a));
  }

  // ---------------------------------------------------------------- one voter, one term, two candidates

  ghost predicate VotesTwice(n: nat, steps: seq<Step>, t: nat, p: nat, a: nat, b: nat) {
    && Run(n, steps).Running?
    && a != b
    && Voted(t, p, a) in Run(n, steps).cluster.events
    && Voted(t, p, b) in Run(n, steps).cluster.events
  }

  /** Of three servers, 0 and 1 stand in term 1; 2 votes for 1, which leads. */
  lemma OneLeads() returns (w: Scene)
    ensures Holds(3, w) && |w.hosts| == 3 && Voted(1, 0, 0) in w.seen
    ensures VoteRequest(0, VoteArgs(1, 1, 0, 0)) in w.sent
    ensures w.hosts[0].raft == Fresh(0, 3).(term := 1, role := Candidate, votedFor := 0)
    ensures w.hosts[1].raft == BecomeLeader(Fresh(1, 3).(term := 1, role := Candidate, votedFor := 1))
  {
    hide Holds;
    hide Run;
    var ask := VoteArgs(1, 1, 0, 0);
    var stood0 := Fresh(0, 3).(term := 1, role := Candidate, votedFor := 0);
    var stood1 := Fresh(1, 3).(term := 1, role := Candidate, votedFor := 1);
    w := OnBoot(3);
    w := OnTimeout(3, w, 0, stood0, VoteArgs(1, 0, 0, 0), {});
    w := OnTimeout(3, w, 1, stood1, ask, {VoteRequest(0, ask), VoteRequest(2, ask)});
    w := OnVote(3, w, 1, 2, ask, Fresh(2, 3).(term := 1, votedFor := 1), VoteReply(0, true), BecomeLeader(stood1));
  }

  /** Server 0 hears the leader of term 1, forgets its vote, and grants it again. */
  lemma VoteCanBeRepeated()
    ensures exists steps :: VotesTwice(3, steps, 1, 0, 0, 1)
  {
    hide Run;
    var beat := AppendArgs(1, 1, 0, 0, [], 0);
    var w := OneLeads();
    w := OnSend(3, w, 1, 0, Append(beat));
    w := OnAppendRequest(3, w, 0, beat, Fresh(0, 3).(term := 1), AppendReply(1, true, 0, 0));
    w := OnVoteRequest(3, w, 0, VoteArgs(1, 1, 0, 0), Fresh(0, 3).(term := 1, votedFor := 1), VoteReply(1, true));
    assert VotesTwice(3, w.steps, 1, 0, 0, 1);
  }

  // ---------------------------------------------------------------- a log whose terms fall

  const FOOT := Entry(0, 0, NoCommand)
  const OLD1 := Entry(1, 1, Op([1]))
  const OLD2 := Entry(1, 2, Op([2]))
  const NEW1 := Entry(2, 1, Op([3]))
  const NEW2 := Entry(2, 2, Op([4]))

  function Waiting(s: Server): Host {
    Host(s, {}, None, {}, [])
  }

  function Stood(i: nat, term: nat): (r: Server)
    requires i < 5
    ensures WellFormed(r)
  {
    Fresh(i, 5).(term := term, role := Candidate, votedFor := i)
  }

  lemma GivesVote(i: nat, from: nat, term: nat, s: Server)
    requires i < 5 && from < 5 && i != from && term > 0 && s == Fresh(from, 5)
    ensures RequestVote(s, VoteArgs(term, i, 0, 0)) == (s.(term := term, votedFor := i), VoteReply(0, true))
  {
  }

  lemma CountsVotes(i: nat, p: nat, q: nat, term: nat)
    requires i < 5 && p != i && q != i && p != q && term > 0
    ensures VoteReplied(Stood(i, term), {i}, p, VoteArgs(term, i, 0, 0), VoteReply(0, true)) ==
      (Stood(i, term), {i} + {p})
    ensures VoteReplied(Stood(i, term), {i} + {p}, q, VoteArgs(term, i, 0, 0), VoteReply(0, true))
         == (BecomeLeader(Stood(i, term)), {i} + {p} + {q})
  {
    hide BecomeLeader;
    assert |{i} + {p}| == 2 && |{i} + {p} + {q}| == 3;
  }

  /** Of five servers, 0 stands in term 1, has the votes of 1 and 4, and leads. */
  lemma ZeroLeads() returns (w: Scene)
    ensures Holds(5, w) && |w.hosts| == 5
    ensures w.hosts[0].raft == BecomeLeader(Stood(0, 1)) && w.hosts[0].installs == {}
    ensures w.hosts[1] == Waiting(Fresh(1, 5).(term := 1, votedFor := 0))
    ensures w.hosts[2] == Waiting(Fresh(2, 5)) && w.hosts[3] == Waiting(Fresh(3, 5))
    ensures w.hosts[4] == Waiting(Fresh(4, 5).(term := 1, votedFor := 0))
  {
    hide Holds, Run, RequestVote, VoteReplied, BecomeLeader;
    var ask, yes := VoteArgs(1, 0, 0, 0), VoteReply(0, true);
    GivesVote(0, 1, 1, Fresh(1, 5));
    GivesVote(0, 4, 1, Fresh(4, 5));
    CountsVotes(0, 1, 4, 1);
    w := OnBoot(5);
    w := OnTimeout(5, w, 0, Stood(0, 1), ask, {VoteRequest(1, ask), VoteRequest(4, ask)});
    w := OnVote(5, w, 0, 1, ask, Fresh(1, 5).(term := 1, votedFor := 0), yes, Stood(0, 1));
    w := OnVote(5, w, 0, 4, ask, Fresh(4, 5).(term := 1, votedFor := 0), yes, BecomeLeader(Stood(0, 1)));
  }

  /** Servers 0 and 4 hold the two commands of term 1, and neither knows of a commitment. */
  ghost predicate OldLogs(w: Scene) {
    && |w.hosts| == 5
    && WellFormed(w.hosts[0].raft)
    && w.hosts[0].raft.role == Leader
    && w.hosts[0].raft.term == 1
    && w.hosts[0].raft.commitIndex == 0
    && w.hosts[0].raft.log == w.hosts[4].raft.log == [FOOT, OLD1, OLD2]
    && w.hosts[0].installs == {}
  }

  /** The leader of term 1 takes two commands and reaches only server 4. */
  lemma ZeroWrites() returns (w: Scene)
    ensures Holds(5, w) && OldLogs(w)
    ensures w.hosts[1] == Waiting(Fresh(1, 5).(term := 1, votedFor := 0))
    ensures w.hosts[2] == Waiting(Fresh(2, 5)) && w.hosts[3] == Waiting(Fresh(3, 5))
  {
    hide Holds;
    hide Run;
    w := ZeroLeads();
    var s := w.hosts[0].raft;
    var s1 := s.(log := [FOOT, OLD1], matchIndex := s.matchIndex[0 := 1]);
    var s2 := s.(log := [FOOT, OLD1, OLD2], matchIndex := s.matchIndex[0 := 2]);
    var args := AppendArgs(1, 0, 0, 0, [OLD1, OLD2], 0);
    w := OnSubmit(5, w, 0, OLD1.command, s1);
    w := OnSubmit(5, w, 0, OLD2.command, s2);
    w := OnSend(5, w, 0, 4, Append(args));
    assert Merge([FOOT], [OLD1, OLD2]) == [FOOT, OLD1, OLD2];
    w := OnAppendRequest(5, w, 4, args, w.hosts[4].raft.(log := [FOOT, OLD1, OLD2]), AppendReply(1, true, 0, 0));
  }

  /** Server 1 stands in term 2, has the votes of 2 and 3, and leads. */
  lemma OneFollows() returns (w: Scene)
    ensures Holds(5, w) && OldLogs(w)
    ensures w.hosts[1].raft == BecomeLeader(Stood(1, 2)) && w.hosts[1].inflight == None && w.hosts[1].applied == []
    ensures w.hosts[2] == Waiting(Voter(2, [FOOT])) && w.hosts[3] == Waiting(Voter(3, [FOOT]))
  {
    hide Holds, Run, RequestVote, VoteReplied, BecomeLeader;
    w := ZeroWrites();
    var ask, yes := VoteArgs(2, 1, 0, 0), VoteReply(0, true);
    GivesVote(1, 2, 2, Fresh(2, 5));
    GivesVote(1, 3, 2, Fresh(3, 5));
    CountsVotes(1, 2, 3, 2);
    w := OnTimeout(5, w, 1, Stood(1, 2), ask, {VoteRequest(2, ask), VoteRequest(3, ask)});
    w := OnVote(5, w, 1, 2, ask, Voter(2, [FOOT]), yes, Stood(1, 2));
    w := OnVote(5, w, 1, 3, ask, Voter(3, [FOOT]), yes, BecomeLeader(Stood(1, 2)));
  }

  /** The leader sends a peer its log, and the peer stores it. */
  lemma OnStore(n: nat, z: Scene, i: nat, peer: nat, args: AppendArgs, s: Server, reply: AppendReply) returns (w: Scene)
    requires Holds(n, z) && i < n && peer < n && peer != i && z.hosts[i].raft.role == Leader && args.leaderId == i
    requires WellFormed(z.hosts[i].raft) && z.hosts[i].raft.peers == n
    requires Replicate(z.hosts[i].raft, peer) == Some(Append(args))
    requires WellFormed(z.hosts[peer].raft) && Follows(args) && AppendEntries(z.hosts[peer].raft, args) == (s, reply)
    ensures Holds(n, w) && z.sent <= w.sent && AppendResponse(i, peer, args, reply) in w.sent
    ensures w.hosts == z.hosts[peer := z.hosts[peer].(raft := s)]
  {
    hide Replicate;
    hide AppendEntries;
    w := OnSend(n, z, i, peer, Append(args));
    w := OnAppendRequest(n, w, peer, args, s, reply);
  }

  /** What the leader of term 2 sends to servers 2 and 3, and to server 0. */
  const SHORT := AppendArgs(2, 1, 0, 0, [NEW1], 0)
  const LONG := AppendArgs(2, 1, 0, 0, [NEW1, NEW2], 0)

  /** The leader of term 2 with a given log. */
  function Second(log: Log, counts: seq<nat>, commit: nat): Server {
    BecomeLeader(Stood(1, 2)).(log := log, matchIndex := counts, commitIndex := commit)
  }

  /** A server that voted in term 2, with a given log. */
  function Voter(i: nat, log: Log): Server
    requires i < 5
  {
    Fresh(i, 5).(term := 2, votedFor := 1, log := log)
  }

  lemma SecondSubmits()
    ensures BecomeLeader(Stood(1, 2)) == Second([FOOT], [0, 0, 0, 0, 0], 0)
    ensures Start(Second([FOOT], [0, 0, 0, 0, 0], 0), NEW1.command).0 == Second([FOOT, NEW1], [0, 1, 0, 0, 0], 0)
    ensures Start(Second([FOOT, NEW1], [0, 1, 0, 0, 0], 0), NEW2.command).0
         == Second([FOOT, NEW1, NEW2], [0, 2, 0, 0, 0], 0)
  {
  }

  lemma SecondSends(peer: nat)
    requires peer < 5
    ensures Replicate(Second([FOOT, NEW1], [0, 1, 0, 0, 0], 0), peer) == Some(Append(SHORT))
    ensures Replicate(Second([FOOT, NEW1, NEW2], [0, 2, 0, 0, 0], 0), peer) == Some(Append(LONG))
  {
  }

  lemma VoterStores(i: nat)
    requires i < 5
    ensures AppendEntries(Voter(i, [FOOT]), SHORT) == (Voter(i, [FOOT, NEW1]), AppendReply(2, true, 0, 0))
  {
    assert Merge([FOOT], [NEW1]) == [FOOT, NEW1];
  }

  /** The leader of term 2 has servers 2 and 3 store a command, takes another, and sends both to server 0. */
  lemma OneWrites() returns (w: Scene)
    ensures Holds(5, w) && OldLogs(w) && AppendRequest(0, LONG) in w.sent
    ensures AppendResponse(1, 2, SHORT, AppendReply(2, true, 0, 0)) in w.sent
    ensures AppendResponse(1, 3, SHORT, AppendReply(2, true, 0, 0)) in w.sent
    ensures w.hosts[1].raft == Second([FOOT, NEW1, NEW2], [0, 2, 0, 0, 0], 0)
    ensures w.hosts[1].inflight == None && w.hosts[1].applied == []
  {
    hide Holds, Run, Start, Replicate, AppendEntries;
    w := OneFollows();
    SecondSubmits();
    SecondSends(2);
    SecondSends(3);
    SecondSends(0);
    VoterStores(2);
    VoterStores(3);
    var stored := AppendReply(2, true, 0, 0);
    w := OnSubmit(5, w, 1, NEW1.command, Second([FOOT, NEW1], [0, 1, 0, 0, 0], 0));
    w := OnStore(5, w, 1, 2, SHORT, Voter(2, [FOOT, NEW1]), stored);
    w := OnStore(5, w, 1, 3, SHORT, Voter(3, [FOOT, NEW1]), stored);
    w := OnSubmit(5, w, 1, NEW2.command, Second([FOOT, NEW1, NEW2], [0, 2, 0, 0, 0], 0));
    w := OnSend(5, w, 1, 0, Append(LONG));
  }

  lemma CountOneMore(counts: seq<nat>, x: nat, i: nat)
    ensures CountAtLeast(counts + [x], i) == CountAtLeast(counts, i) + (if x >= i then 1 else 0)
  {
    assert (counts + [x])[..|counts|] == counts;
  }

  /** Servers 1 and 2, then also 3, are known to hold the command at index 1. */
  lemma Counted(d: nat, i: nat)
    ensures CountAtLeast([0, 2, 1, d, 0], i) ==
      if i == 0 then 5 else (if i <= 2 then 1 else 0) + (if i <= 1 then 1 else 0) + (if i <= d then 1 else 0)
  {
    CountOneMore([], 0, i);
    CountOneMore([0], 2, i);
    CountOneMore([0, 2], 1, i);
    CountOneMore([0, 2, 1], d, i);
    CountOneMore([0, 2, 1, d], 0, i);
    assert [] + [0] == [0] && [0] + [2] == [0, 2] && [0, 2] + [1] == [0, 2, 1];
    assert [0, 2, 1] + [d] == [0, 2, 1, d] && [0, 2, 1, d] + [0] == [0, 2, 1, d, 0];
  }

  /** A server whose log is stored up to index 1, as the leader of term 2 learns from 2 and then from 3. */
  function Told(counts: seq<nat>, next: seq<nat>, commit: nat): Server {
    Second([FOOT, NEW1, NEW2], counts, commit).(nextIndex := next)
  }

  lemma SecondLearns()
    ensures AppendReplied(Second([FOOT, NEW1, NEW2], [0, 2, 0, 0, 0], 0), 2, SHORT, AppendReply(2, true, 0, 0))
         == Some(Told([0, 2, 1, 0, 0], [1, 1, 2, 1, 1], 0))
  {
    Counted(0, 0);
    Counted(0, 1);
    var s := Told([0, 2, 1, 0, 0], [1, 1, 2, 1, 1], 0);
    assert [0, 2, 0, 0, 0][2 := 1] == [0, 2, 1, 0, 0] && BecomeLeader(Stood(1, 2)).nextIndex[2 := 2] == s.nextIndex;
    assert ScanCommit(s, 2, 1, 0) == Some(0) && ScanCommit(s, 1, 1, 0) == Some(0);
    assert ScanCommit(s, 0, 1, 0) == Some(0);
  }

  lemma SecondCommits()
    ensures AppendReplied(Told([0, 2, 1, 0, 0], [1, 1, 2, 1, 1], 0), 3, SHORT, AppendReply(2, true, 0, 0))
         == Some(Told([0, 2, 1, 1, 0], [1, 1, 2, 2, 1], 1))
  {
    Counted(1, 0);
    Counted(1, 1);
    var s := Told([0, 2, 1, 1, 0], [1, 1, 2, 2, 1], 0);
    assert [0, 2, 1, 0, 0][3 := 1] == [0, 2, 1, 1, 0] && [1, 1, 2, 1, 1][3 := 2] == [1, 1, 2, 2, 1];
    assert ScanCommit(s, 2, 1, 1) == Some(1) && ScanCommit(s, 1, 1, 0) == Some(1);
    assert ScanCommit(s, 0, 1, 0) == Some(1);
  }

  /** The snapshot of the leader of term 2, which stands for its first command. */
  const SNAPSHOT := SnapshotArgs(2, 1, 1, 2, [Op([3])])

  /** The leader of term 2 commits its first command. */
  lemma OneCommits() returns (w: Scene)
    ensures Holds(5, w) && OldLogs(w) && AppendRequest(0, LONG) in w.sent
    ensures w.hosts[1].raft == Told([0, 2, 1, 1, 0], [1, 1, 2, 2, 1], 1)
    ensures w.hosts[1].inflight == None && w.hosts[1].applied == []
  {
    hide Holds, Run, AppendReplied;
    w := OneWrites();
    SecondLearns();
    SecondCommits();
    var stored := AppendReply(2, true, 0, 0);
    w := OnAppendResponse(5, w, 1, 2, SHORT, stored, Told([0, 2, 1, 0, 0], [1, 1, 2, 1, 1], 0));
    w := OnAppendResponse(5, w, 1, 3, SHORT, stored, Told([0, 2, 1, 1, 0], [1, 1, 2, 2, 1], 1));
  }

  /** The leader of term 2 delivers the command, compacts its log and sends server 0 the snapshot. */
  lemma OneCompacts() returns (w: Scene)
    ensures Holds(5, w) && OldLogs(w) && AppendRequest(0, LONG) in w.sent && SnapshotRequest(0, SNAPSHOT) in w.sent
  {
    hide Holds, Run;
    w := OneCommits();
    var s := Told([0, 2, 1, 1, 0], [1, 1, 2, 2, 1], 1);
    w := OnPull(5, w, 1, s.(lastApplied := 1), NEW1);
    w := OnDeliver(5, w, 1);
    w := OnCompact(5, w, 1, s.(lastApplied := 1, log := [Entry(2, 1, NoCommand), NEW2], snapshot := [Op([3])]));
    w := OnSend(5, w, 1, 0, Install(SNAPSHOT));
  }

  /** Server 0 receives the snapshot; its longer log has an entry of another term at the snapshot's index. */
  lemma ZeroReceives() returns (w: Scene)
    ensures Holds(5, w) && |w.hosts| == 5 && AppendRequest(0, LONG) in w.sent
    ensures w.hosts[0].raft.term == 2 && w.hosts[0].raft.log == [FOOT, OLD1, OLD2] && w.hosts[0].raft.commitIndex == 0
    ensures SNAPSHOT in w.hosts[0].installs && WellFormed(w.hosts[0].raft) && w.hosts[4].raft.log == [FOOT, OLD1, OLD2]
  {
    hide Holds, Run;
    w := OneCompacts();
    var s := w.hosts[0].raft.(role := Follower, term := 2, votedFor := -1);
    w := OnSnapshotRequest(5, w, 0, SNAPSHOT, s);
  }

  /** It installs the snapshot, and keeps the rest of its log. */
  lemma ZeroInstalls() returns (v: Scene, w: Scene)
    ensures Holds(5, v) && |v.hosts| == 5 && Holds(5, w) && |w.hosts| == 5
    ensures v.hosts[0].raft.log == [FOOT, OLD1, OLD2] && v.hosts[0].raft.commitIndex == 0
    ensures w.steps == v.steps + [InstallNow(0, SNAPSHOT)] && SNAPSHOT in v.hosts[0].installs
    ensures w.hosts[0].raft.term == 2 && w.hosts[0].raft.log == [Entry(2, 1, NoCommand), OLD2]
    ensures w.hosts[4].raft.log == [FOOT, OLD1, OLD2] && AppendRequest(0, LONG) in w.sent
  {
    hide Holds, Run;
    v := ZeroReceives();
    var s := v.hosts[0].raft;
    assert [Entry(2, 1, NoCommand)] + s.log[1..][1..] == [Entry(2, 1, NoCommand), OLD2];
    w := OnInstall(5, v, 0, SNAPSHOT, s.(log := [Entry(2, 1, NoCommand), OLD2], commitIndex := 1, lastApplied := 1,
                                         snapshot := [Op([3])]));
  }

  // ---------------------------------------------------------------- what such a run shows

  /** The terms of a server's log can fall. */
  ghost predicate Falls(n: nat, steps: seq<Step>, i: nat) {
    && Run(n, steps).Running?
    && i < n
    && !Sorted(Run(n, steps).cluster.hosts[i].raft.log)
  }

  /** Two logs can hold an entry of one term at one index, and differ in the terms of the entry before it. */
  ghost predicate Mismatch(n: nat, steps: seq<Step>, a: nat, b: nat, j: nat) {
    && Run(n, steps).Running?
    && a < n && b < n
    && var la, lb := Run(n, steps).cluster.hosts[a].raft.log, Run(n, steps).cluster.hosts[b].raft.log;
    && la != [] && lb != []
    && At(la, j).Some? && At(lb, j).Some? && At(la, j).value.term != At(lb, j).value.term
    && At(la, j + 1).Some? && At(lb, j + 1).Some? && At(la, j + 1).value.term == At(lb, j + 1).value.term
  }

  lemma InstallCanLowerTerms()
    ensures exists steps :: Falls(5, steps, 0) && Mismatch(5, steps, 0, 4, 1)
  {
    var _, w := ZeroInstalls();
    hide Run;
    var log := w.hosts[0].raft.log;
    assert log[1].term < log[0].term;
    assert Falls(5, w.steps, 0) && Mismatch(5, w.steps, 0, 4, 1);
  }

  /**
   Step j leaves a suffix across another term, and a request is on its way that the server accepts and that goes past
   the foot.
   */
  ghost predicate Reached(n: nat, steps: seq<Step>, j: nat, i: nat, a: SnapshotArgs, args: AppendArgs) {
    && LeavesStranger(n, steps, j, i, a) && StillThere(n, steps, j, i, a)
    && AppendRequest(i, args) in Run(n, steps).cluster.net
    && var s := Run(n, steps).cluster.hosts[i].raft;
    && args.term >= s.term && Consistent(s.log, args) && args.prevLogIndex + |args.entries| > s.log[0].index
  }

  lemma KeptSuffixOccurs()
    ensures exists steps, j :: Reached(5, steps, j, 0, SNAPSHOT, LONG) && Falls(5, steps, 0)
  {
    var v, w := ZeroInstalls();
    hide Run;
    var steps, j, log := w.steps, |v.steps|, w.hosts[0].raft.log;
    assert steps[..j] == v.steps;
    assert log[1].term < log[0].term;
    FirstThere(5, steps, j, 0, SNAPSHOT);
    assert Reached(5, steps, j, 0, SNAPSHOT, LONG);
  }
}
