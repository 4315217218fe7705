/** When a server goes back on its vote within a term (src/db_files/raft/raft.go), and when it does not. */
module RaftVoting {
  import opened RaftServer
  import opened RaftCluster
  import opened RaftHistory
  import opened RaftInvariant
  import opened RaftReplication
  import opened RaftAcks
  import opened RaftSafety

  /** Within its term the server has gone back on its vote. */
  ghost predicate FreesVote(x: Server, y: Server) {
    y.term == x.term && x.votedFor != -1 && y.votedFor != x.votedFor
  }

  /** The step makes server p handle a request of the leader of its own term. */
  ghost predicate HearsLeader(c: Cluster, step: Step, p: nat)
    requires p < |c.hosts|
  {
    && step.Receive? && step.m in c.net && step.m.to == p
    && match step.m
       case AppendRequest(_, args) => args.term == c.hosts[p].raft.term
       case SnapshotRequest(_, args) => args.term == c.hosts[p].raft.term
       case _ => false
  }

  // ---------------------------------------------------------------- one critical section

  lemma ObserveFrees(s: Server, t: nat)
    requires t >= s.term
    ensures FreesVote(s, ObserveLeader(s, t)) <==> t == s.term && s.role == Candidate && s.votedFor != -1
  {
  }

  lemma AppendFrees(s: Server, args: AppendArgs)
    requires WellFormed(s) && Follows(args)
    ensures FreesVote(s, AppendEntries(s, args).0) <==> args.term == s.term && s.role == Candidate && s.votedFor != -1
  {
    hide AppendEntries, Consistent, MergedLog, Conflict;
    AppendEntriesCases(s, args);
    if args.term >= s.term {
      ObserveFrees(s, args.term);
    }
  }

  lemma RequestVoteKeeps(s: Server, args: VoteArgs)
    requires WellFormed(s)
    ensures !FreesVote(s, RequestVote(s, args).0)
  {
  }

  lemma RepliesKeep(s: Server, peer: nat, granted: set<nat>, va: VoteArgs, vr: VoteReply, aa: AppendArgs,
        ar: AppendReply)
    requires WellFormed(s) && peer < s.peers
    ensures !FreesVote(s, VoteReplied(s, granted, peer, va, vr).0)
    ensures AppendReplied(s, peer, aa, ar).Some? ==> !FreesVote(s, AppendReplied(s, peer, aa, ar).value)
  {
    hide ScanCommit, BackUp;
  }

  lemma SnapshotReplyKeeps(s: Server, peer: nat, args: SnapshotArgs, term: nat)
    requires WellFormed(s) && peer < s.peers
    ensures !FreesVote(s, SnapshotReplied(s, peer, args, term))
  {
  }

  // ---------------------------------------------------------------- one message

  ghost predicate OwnVote(c: Cluster, p: nat)
    requires p < |c.hosts|
  {
    c.hosts[p].raft.role == Candidate ==> c.hosts[p].raft.votedFor == p
  }

  ghost predicate FreedExactly(c: Cluster, d: Cluster, step: Step, p: nat)
    requires p < |c.hosts| == |d.hosts|
  {
    FreesVote(c.hosts[p].raft, d.hosts[p].raft) <==> c.hosts[p].raft.role == Candidate && HearsLeader(c, step, p)
  }

  lemma VoteMessage(c: Cluster, m: Message, p: nat)
    requires Sane(c) && m in c.net && p < |c.hosts| && (m.VoteRequest? || m.VoteResponse?)
    ensures DoReceive(c, m).Running? && FreedExactly(c, DoReceive(c, m).cluster, Receive(m), p)
  {
    hide RequestVote, VoteReplied;
    assert SaneMessage(|c.hosts|, m);
    var x := c.hosts[m.to];
    if m.VoteRequest? {
      RequestVoteKeeps(x.raft, m.voteArgs);
    } else {
      RepliesKeep(x.raft, m.from, x.granted, m.voteArgs, m.voteReply, NoAppend(), AppendReply(0, false, 0, 0));
    }
  }

  function NoAppend(): AppendArgs {
    AppendArgs(0, 0, 0, 0, [], 0)
  }

  lemma AppendMessage(c: Cluster, m: Message, p: nat)
    requires Sane(c) && m in c.net && p < |c.hosts| && (m.AppendRequest? || m.AppendResponse?) && OwnVote(c, p)
    requires DoReceive(c, m).Running?
    ensures FreedExactly(c, DoReceive(c, m).cluster, Receive(m), p)
  {
    hide AppendEntries, AppendReplied, CommittedNow;
    assert SaneMessage(|c.hosts|, m);
    var s := c.hosts[m.to].raft;
    if m.AppendRequest? {
      AppendFrees(s, m.appendArgs);
    } else {
      RepliesKeep(s, m.from, {}, VoteArgs(0, 0, 0, 0), VoteReply(0, false), m.appendArgs, m.appendReply);
    }
  }

  lemma SnapshotMessage(c: Cluster, m: Message, p: nat)
    requires Sane(c) && m in c.net && p < |c.hosts| && (m.SnapshotRequest? || m.SnapshotResponse?) && OwnVote(c, p)
    ensures DoReceive(c, m).Running? && FreedExactly(c, DoReceive(c, m).cluster, Receive(m), p)
  {
    hide ObserveLeader, SnapshotReplied;
    assert SaneMessage(|c.hosts|, m);
    var s := c.hosts[m.to].raft;
    if m.SnapshotResponse? {
      SnapshotReplyKeeps(s, m.from, m.snapshotArgs, m.replyTerm);
    } else if m.snapshotArgs.term >= s.term {
      ObserveFrees(s, m.snapshotArgs.term);
    }
  }

  lemma TermStep(c: Cluster, step: Step, p: nat)
    requires Sane(c) && p < |c.hosts| && (step.Timeout? || step.Crash? || step.Submit?) && step.i < |c.hosts|
    ensures Take(c, step).Running? && FreedExactly(c, Take(c, step).cluster, step, p)
  {
    hide Tail;
  }

  lemma DeliveryStep(c: Cluster, step: Step, p: nat)
    requires Sane(c) && p < |c.hosts| && (step.SendTo? || step.Pull? || step.Deliver?) && step.i < |c.hosts|
    requires Take(c, step).Running?
    ensures FreedExactly(c, Take(c, step).cluster, step, p)
  {
    hide Replicate, At;
  }

  lemma SnapshotStep(c: Cluster, step: Step, p: nat)
    requires Sane(c) && p < |c.hosts| && (step.TakeSnapshot? || step.InstallNow?) && step.i < |c.hosts|
    requires Take(c, step).Running?
    ensures FreedExactly(c, Take(c, step).cluster, step, p)
  {
    hide At, Tail;
  }

  lemma OtherStep(c: Cluster, step: Step, p: nat)
    requires Sane(c) && p < |c.hosts| && !step.Receive? && Take(c, step).Running?
    ensures FreedExactly(c, Take(c, step).cluster, step, p)
  {
    if step.i >= |c.hosts| {
      assert Take(c, step).cluster == c;
    } else {
      hide Take, FreedExactly;
      if step.Timeout? || step.Crash? || step.Submit? {
        TermStep(c, step, p);
      } else if step.TakeSnapshot? || step.InstallNow? {
        SnapshotStep(c, step, p);
      } else {
        DeliveryStep(c, step, p);
      }
    }
  }

  lemma StepFrees(c: Cluster, step: Step, p: nat)
    requires Sane(c) && p < |c.hosts| && OwnVote(c, p) && Take(c, step).Running?
    ensures FreedExactly(c, Take(c, step).cluster, step, p)
  {
    hide DoReceive, FreedExactly;
    if !step.Receive? {
      OtherStep(c, step, p);
    } else if step.m !in c.net {
      NothingReceived(c, step, p);
    } else if step.m.VoteRequest? || step.m.VoteResponse? {
      VoteMessage(c, step.m, p);
    } else if step.m.AppendRequest? || step.m.AppendResponse? {
      AppendMessage(c, step.m, p);
    } else {
      SnapshotMessage(c, step.m, p);
    }
  }

  lemma NothingReceived(c: Cluster, step: Step, p: nat)
    requires Sane(c) && p < |c.hosts| && step.Receive? && step.m !in c.net
    ensures FreedExactly(c, c, step, p)
  {
  }

  // ---------------------------------------------------------------- every run

  /**
   In every run a server goes back on a vote within its term exactly when it is a candidate and handles an append or
   snapshot request of that term; what it goes back on is its vote for itself.
   */
  lemma VoteFreed(n: nat, steps: seq<Step>, step: Step, p: nat)
    requires p < n && Run(n, steps).Running?
    ensures Take(Run(n, steps).cluster, step).Running?
    ensures var c := Run(n, steps).cluster;
      var x, y := c.hosts[p].raft, Take(c, step).cluster.hosts[p].raft;
      && (FreesVote(x, y) <==> x.role == Candidate && HearsLeader(c, step, p))
      && (FreesVote(x, y) ==> x.votedFor == p)
  {
    hide Inv, Ok, HostOk, VotesOk, Take, Run, HearsLeader;
    var h := RunKeeps(n, steps);
    var c := Run(n, steps).cluster;
    HostFacts(h, c, p);
    CandidatesVoteForThemselves(h, c, p);
    var k := StepKeeps(h, c, step);
    StepFrees(c, step, p);
  }

  lemma CandidatesVoteForThemselves(h: History, c: Cluster, p: nat)
    requires VotesOk(h, Ballots(c)) && p < |c.hosts|
    ensures OwnVote(c, p)
  {
    assert Ballots(c)[p] == BallotOf(c.hosts[p]);
  }
}
