/** What every run says about the logs of servers: matching and repair. */
module RaftLogSafety {
  import opened RaftTypes
  import opened RaftServer
  import opened RaftCluster
  import opened RaftHistory
  import opened RaftLogs
  import opened RaftInvariant
  import opened RaftElections
  import opened RaftReplication
  import opened RaftAcks
  import opened RaftSafety

  // ---------------------------------------------------------------- log matching

  /** Log matching: above the feet of both logs, an equal term at an index means equal entries up to it. */
  lemma LogMatching(n: nat, steps: seq<Step>, a: nat, b: nat, i: nat, j: nat)
    requires Run(n, steps).Running? && a < n && b < n
    requires var c := Run(n, steps).cluster;
             var la, lb := c.hosts[a].raft.log, c.hosts[b].raft.log;
             && la[0].index < j <= i && lb[0].index < j
             && At(la, i).Some? && At(lb, i).Some? && At(la, i).value.term == At(lb, i).value.term
    ensures var c := Run(n, steps).cluster;
            At(c.hosts[a].raft.log, j).Some? && At(c.hosts[a].raft.log, j) == At(c.hosts[b].raft.log, j)
  {
    hide Inv, Complete, CommitsOk, LeadersOk, FromLeaders;
    var h := RunKeeps(n, steps);
    var c := Run(n, steps).cluster;
    HostFacts(h, c, a);
    HostFacts(h, c, b);
    EqualUpTo(h, c.hosts[a].raft.log, h.logs[a], c.hosts[b].raft.log, h.logs[b], i, j);
  }

  lemma EqualUpTo(h: History, la: Log, fa: Log, lb: Log, fb: Log, i: nat, j: nat)
    requires Represents(la, fa) && Represents(lb, fb) && FromLeaders(h, fa) && FromLeaders(h, fb)
    requires la[0].index < j <= i && lb[0].index < j && At(la, i).Some? && At(lb, i).Some?
    requires At(la, i).value.term == At(lb, i).value.term
    ensures At(la, j).Some? && At(la, j) == At(lb, j)
  {
    AtBeyond(la, fa, i);
    AtBeyond(lb, fb, i);
    AtFull(la, fa, i);
    AtFull(lb, fb, i);
    AtFull(la, fa, j);
    AtFull(lb, fb, j);
    LogsMatch(h, fa, fb, i - 1);
    assert fa[..i - 1 + 1][j - 1] == fb[..i - 1 + 1][j - 1];
  }

  /** Between servers that have installed no snapshot it holds at the feet too, where only index and term are left. */
  lemma LogMatchingAtFeet(n: nat, steps: seq<Step>, a: nat, b: nat, i: nat, j: nat)
    requires Run(n, steps).Running? && a < n && b < n
    requires var c := Run(n, steps).cluster;
             var la, lb := c.hosts[a].raft.log, c.hosts[b].raft.log;
             && !HasInstalled(c.events, a) && !HasInstalled(c.events, b)
             && la[0].index <= j <= i && lb[0].index <= j
             && At(la, i).Some? && At(lb, i).Some? && At(la, i).value.term == At(lb, i).value.term
    ensures var c := Run(n, steps).cluster;
            var la, lb := c.hosts[a].raft.log, c.hosts[b].raft.log;
            At(la, j).Some? && At(lb, j).Some? && At(la, j).value.term == At(lb, j).value.term
  {
    hide Inv, Ok, VotesOk, HostOk, Complete, CommitsOk, LeadersOk, FromLeaders, HasInstalled, Run;
    var h := RunKeeps(n, steps);
    var c := Run(n, steps).cluster;
    HostFacts(h, c, a);
    HostFacts(h, c, b);
    TermsOfFull(h, c, a, i);
    TermsOfFull(h, c, a, j);
    TermsOfFull(h, c, b, i);
    TermsOfFull(h, c, b, j);
    if j > 0 {
      LogsMatch(h, h.logs[a], h.logs[b], i - 1);
      assert h.logs[a][..i - 1 + 1][j - 1] == h.logs[b][..i - 1 + 1][j - 1];
    }
  }

  /** The terms a server that has installed nothing shows, at its foot and above, are those of its full log. */
  lemma TermsOfFull(h: History, c: Cluster, i: nat, j: nat)
    requires Inv(h, c) && i < |c.hosts| == |h.logs| && |h.committed| == |h.logs| && !HasInstalled(c.events, i)
    requires c.hosts[i].raft.log != [] && c.hosts[i].raft.log[0].index <= j
    ensures At(c.hosts[i].raft.log, j).Some? <==> j <= |h.logs[i]|
    ensures j <= |h.logs[i]| ==> At(c.hosts[i].raft.log, j).value.term == if j == 0 then 0 else h.logs[i][j - 1].term
  {
    hide VotesOk, Ok, MessageOk, EventOk, LeaderOk, CandidateOk, ServiceOk, SnapshotOk, InCommitted;
    var log := c.hosts[i].raft.log;
    assert HostOk(h, c.hosts[i], i) && WholeOk(h, c.events, i);
    AtBeyond(log, h.logs[i], j);
    if log[0].index < j <= |h.logs[i]| {
      AtFull(log, h.logs[i], j);
    }
  }

  // ---------------------------------------------------------------- one request, one reply

  /**
   A follower that accepts a request has the leader's commit index, unless it was further already; it never moves past
   the last entry of the request.
   */
  lemma CommitStaysVerified(n: nat, steps: seq<Step>, i: nat, args: AppendArgs)
    requires Run(n, steps).Running? && AppendRequest(i, args) in Run(n, steps).cluster.net
    ensures var s := Run(n, steps).cluster.hosts[i].raft;
            var (r, reply) := AppendEntries(s, args);
            && r.commitIndex == (if reply.success then Max(s.commitIndex, args.leaderCommit) else s.commitIndex)
            && (r.commitIndex != s.commitIndex ==> r.commitIndex <= args.prevLogIndex + |args.entries|)
  {
    hide Inv, AppendEntries, AppendOk, Consistent, Accepted;
    var h := RunKeeps(n, steps);
    var c := Run(n, steps).cluster;
    MessageFacts(h, c, AppendRequest(i, args));
    CommitObserved(h, c, i, args);
  }

  lemma CommitObserved(h: History, c: Cluster, i: nat, args: AppendArgs)
    requires Inv(h, c) && i < |c.hosts| && Follows(args) && AppendOk(h, args) && args.leaderId != i
    ensures var s := c.hosts[i].raft;
            var (r, reply) := AppendEntries(s, args);
            && r.commitIndex == (if reply.success then Max(s.commitIndex, args.leaderCommit) else s.commitIndex)
            && (r.commitIndex != s.commitIndex ==> r.commitIndex <= args.prevLogIndex + |args.entries|)
  {
    hide Inv, Ok, VotesOk, AppendEntries, HostOk, LeadersOk, Complete, CommitsOk, FromLeaders, Consistent,
         MergedLog, Evolves;
    var x := c.hosts[i];
    HostFacts(h, c, i);
    AppendEntriesCases(x.raft, args);
    CommitWithin(h, args);
    if args.term >= x.raft.term {
      var y := x.(raft := ObserveLeader(x.raft, args.term));
      assert y.raft.commitIndex == x.raft.commitIndex;
      if Consistent(y.raft.log, args) && args.leaderCommit > x.raft.commitIndex {
        ObserveKeeps(h, c, i, args.term);
        NotLeading(h, x, i, args);
        AppendOkRaised(h, i, args);
        CommitReaches(Raised(h, i, args.term), Put(c, i, y, {}, {}), i, args);
      }
    }
  }

  lemma CommitWithin(h: History, args: AppendArgs)
    requires AppendOk(h, args)
    ensures args.leaderCommit <= args.prevLogIndex + |args.entries|
  {
  }

  lemma CommitReaches(h: History, c: Cluster, i: nat, args: AppendArgs)
    requires Inv(h, c) && i < |c.hosts| && Follows(args) && AppendOk(h, args) && args.leaderId != i
    requires c.hosts[i].raft.term == args.term && c.hosts[i].raft.role == Follower
      && Consistent(c.hosts[i].raft.log, args)
    requires args.leaderCommit > c.hosts[i].raft.commitIndex
    ensures Accepted(c.hosts[i].raft, args).commitIndex == args.leaderCommit
  {
    hide Inv, LeadersOk, Complete, CommitsOk, Represents, KnownOk, LeaderOk, CandidateOk, ServiceOk, SnapshotOk,
         FromLeaders, InCommitted, Consistent;
    HostFacts(h, c, i);
    var x := c.hosts[i];
    var y := x.(raft := x.raft.(log := MergedLog(x.raft, args)));
    var d := Put(c, i, y, {}, {});
    var k := AfterStore(h, i, x.raft.log[0].index, args.prevLogIndex + |args.entries|);
    StoreKeeps(h, c, i, args);
    HostFacts(k, d, i);
    AcceptedCommit(h, k, x.raft, y.raft, i, args);
  }

  /** The index found by the backward scan is that of an entry of the term above the foot of the log. */
  lemma {:induction false} LastWithTermIsThere(log: Log, term: nat)
    requires LastWithTerm(log, term).Some?
    ensures exists j :: 1 <= j < |log| && log[j].term == term && log[j].index == LastWithTerm(log, term).value
  {
    var last := |log| - 1;
    if log[last].term != term {
      LastWithTermIsThere(log[..last], term);
      var j :| 1 <= j < last && log[..last][j].term == term
        && log[..last][j].index == LastWithTerm(log[..last], term).value;
      assert log[j] == log[..last][j];
    }
  }

  /**
   Fast back-up converges: a rejection of the current request strictly lowers the next index, and keeps it at least
   1.
   */
  lemma BackUpConverges(n: nat, steps: seq<Step>, i: nat, from: nat, args: AppendArgs, reply: AppendReply)
    requires Run(n, steps).Running? && AppendResponse(i, from, args, reply) in Run(n, steps).cluster.net
    requires var s := Run(n, steps).cluster.hosts[i].raft;
             !reply.success && s.role == Leader && s.term == args.term == reply.term
               && s.nextIndex[from] == args.prevLogIndex + 1
    ensures var s := Run(n, steps).cluster.hosts[i].raft;
            var r := AppendReplied(s, from, args, reply);
            r.Some? && 1 <= r.value.nextIndex[from] < s.nextIndex[from]
  {
    hide Inv, Complete, CommitsOk, LeadersOk, FromLeaders, HostOk, MessageOk, AppendReplied;
    var h := RunKeeps(n, steps);
    var c := Run(n, steps).cluster;
    MessageFacts(h, c, AppendResponse(i, from, args, reply));
    HostFacts(h, c, i);
    BackUpAt(h, c.hosts[i], i, from, args, reply);
  }

  lemma BackUpAt(h: History, x: Host, i: nat, from: nat, args: AppendArgs, reply: AppendReply)
    requires i < |h.terms| == |h.logs| == |h.committed| && HostOk(h, x, i) && FromLeaders(h, h.logs[i])
    requires WellFormed(x.raft) && from < x.raft.peers && MessageOk(h, AppendResponse(i, from, args, reply))
    requires !reply.success && x.raft.role == Leader && x.raft.term == args.term == reply.term
    requires x.raft.nextIndex[from] == args.prevLogIndex + 1
    ensures var r := AppendReplied(x.raft, from, args, reply);
            r.Some? && 1 <= r.value.nextIndex[from] < x.raft.nextIndex[from]
  {
    hide KnownOk, CandidateOk, ServiceOk, SnapshotOk, FromLeaders, ScanCommit, BackUp;
    assert args.prevLogIndex >= 1;
    BackUpLowers(h, x.raft.log, h.logs[i], x.raft.nextIndex[from], args, reply);
  }

  lemma BackUpLowers(h: History, log: Log, full: Log, next: nat, args: AppendArgs, reply: AppendReply)
    requires Represents(log, full) && FromLeaders(h, full) && RejectionOk(h, args, reply)
    requires next == args.prevLogIndex + 1 && args.prevLogIndex <= |full|
    requires full[args.prevLogIndex - 1].term == args.prevLogTerm
    ensures 1 <= BackUp(log, next, reply) < next
  {
    var t := reply.conflictingTerm;
    var prev := args.prevLogIndex;
    if t > 0 && LastWithTerm(log, t).Some? {
      LastWithTermIsThere(log, t);
      var j :| 1 <= j < |log| && log[j].term == t && log[j].index == LastWithTerm(log, t).value;
      var v := log[0].index + j;
      AtFull(log, full, v);
      assert full[v - 1].term == t && full[..v - 1 + 1] <= h.leaderLog[t];
    }
  }

  /** Step j of the run is the rejection of the leader's current request to a peer. */
  ghost predicate Rejected(n: nat, steps: seq<Step>, j: nat, i: nat, from: nat) {
    && j < |steps| && i < n && from < n && Run(n, steps[..j]).Running?
    && var c := Run(n, steps[..j]).cluster;
    && steps[j].Receive? && steps[j].m in c.net && steps[j].m.AppendResponse? && steps[j].m.to == i
      && steps[j].m.from == from
    && var s, args, reply := c.hosts[i].raft, steps[j].m.appendArgs, steps[j].m.appendReply;
    !reply.success && s.role == Leader && s.term == args.term == reply.term
      && s.nextIndex[from] == args.prevLogIndex + 1
  }

  /** The leader's next index for a peer after the first j steps. */
  ghost function NextOf(n: nat, steps: seq<Step>, j: nat, i: nat, from: nat): nat
    requires j <= |steps| && i < n && from < n
  {
    NeverPanics(n, steps[..j]);
    Run(n, steps[..j]).cluster.hosts[i].raft.nextIndex[from]
  }

  lemma RejectionLowers(n: nat, steps: seq<Step>, j: nat, i: nat, from: nat)
    requires Rejected(n, steps, j, i, from)
    ensures 1 <= NextOf(n, steps, j + 1, i, from) < NextOf(n, steps, j, i, from)
  {
    hide AppendReplied;
    var m := steps[j].m;
    BackUpConverges(n, steps[..j], i, from, m.appendArgs, m.appendReply);
    assert steps[..j + 1][..j] == steps[..j];
    NeverPanics(n, steps[..j + 1]);
  }

  /**
   So a leader runs into finitely many rejections before a request matches: a series of rejections of its current
   request to a peer, with nothing else moving the next index in between, is shorter than the first next index.
   */
  lemma {:induction false} RejectionsEnd(n: nat, steps: seq<Step>, i: nat, from: nat, at: seq<nat>)
    requires i < n && from < n && at != [] && forall k :: 0 <= k < |at| ==> at[k] < |steps|
    requires forall k :: 0 <= k < |at| ==> Rejected(n, steps, at[k], i, from)
    requires forall k :: 0 <= k < |at| - 1 ==>
      NextOf(n, steps, at[k] + 1, i, from) == NextOf(n, steps, at[k + 1], i, from)
    ensures |at| < NextOf(n, steps, at[0], i, from)
    decreases |at|
  {
    hide NextOf, Rejected;
    RejectionLowers(n, steps, at[0], i, from);
    if |at| > 1 {
      assert Rejected(n, steps, at[1], i, from);
      RejectionsEnd(n, steps, i, from, at[1..]);
    }
  }
}
