/**
 What single critical sections of src/db_files/raft/raft.go, and two of them in a row, achieve: the scans over the log,
 the votes, the counters of a leader, and how a server that is behind learns so.
 */
module RaftLaws {
  import opened Common
  import opened RaftTypes
  import opened RaftServer
  import opened RaftCluster
  import opened RaftAcks

  // ---------------------------------------------------------------- counting

  /** Two sets of n servers that are one short of a majority need not meet. */
  lemma MajorityIsLeast(n: nat)
    requires n > 0
    ensures exists a: set<nat>, b: set<nat> ::
      a <= Ids(n) && b <= Ids(n) && a * b == {} && |a| == |b| == Majority(n) - 1
  {
    var k := Majority(n) - 1;
    var a, b := Ids(k), set p | p in Ids(2 * k) && p >= k;
    assert Ids(2 * k) == a + b;
    assert a * b == {} && |a + b| == |a| + |b|;
    assert a <= Ids(n) && b <= Ids(n);
  }

  /** The servers known to have stored the index. */
  ghost function Holders(counts: seq<nat>, i: nat): set<nat> {
    set p: nat | p < |counts| && counts[p] >= i
  }

  lemma {:induction false} CountIsSize(counts: seq<nat>, i: nat)
    ensures CountAtLeast(counts, i) == |Holders(counts, i)|
  {
    if counts == [] {
      assert Holders(counts, i) == {};
    } else {
      var last := |counts| - 1;
      CountIsSize(counts[..last], i);
      var before := Holders(counts[..last], i);
      assert Holders(counts, i) == if counts[last] >= i then before + {last} else before;
    }
  }

  /**
   The commit rule: the new commit index is the highest index from the old one up to last that more than half of the
   servers hold and that is of the leader's own term, or the old one if there is none.
   */
  lemma CommitRule(s: Server, last: nat)
    requires s.log != [] && forall j: nat :: s.commitIndex <= j <= last ==> At(s.log, j).Some?
    ensures var r := ScanCommit(s, s.commitIndex, last, s.commitIndex);
      && r.Some? && r.value >= s.commitIndex
      && (r.value != s.commitIndex ==> r.value <= last && Committable(s, r.value))
      && forall j: nat :: r.value < j <= last ==> !Committable(s, j)
  {
    ScanFinds(s, s.commitIndex, last, s.commitIndex);
    forall j: nat
      ensures StoredByMajority(s, j) <==> Committable(s, j)
    {
      CountIsSize(s.matchIndex, j);
    }
    hide ScanCommit, StoredByMajority, Committable;
  }

  ghost predicate Committable(s: Server, i: nat)
    requires s.log != []
  {
    2 * |Holders(s.matchIndex, i)| > s.peers && At(s.log, i).Some? && At(s.log, i).value.term == s.term
  }

  // ---------------------------------------------------------------- the scans over a log

  /** The index of the first entry of the term. */
  lemma {:induction false} FirstWithTermLaw(log: Log, term: nat) returns (j: nat)
    requires exists k :: 0 <= k < |log| && log[k].term == term
    ensures j < |log| && log[j].term == term && FirstWithTerm(log, term) == log[j].index
    ensures forall k :: 0 <= k < j ==> log[k].term != term
  {
    if log[0].term == term {
      j := 0;
    } else {
      var k :| 0 <= k < |log| && log[k].term == term;
      assert log[1..][k - 1] == log[k];
      var i := FirstWithTermLaw(log[1..], term);
      j := i + 1;
      forall m | 0 <= m < j
        ensures log[m].term != term
      {
        if m > 0 {
          assert log[1..][m - 1] == log[m];
        }
      }
    }
  }

  /** The index of the last entry of the term above the foot, if there is one. */
  lemma {:induction false} LastWithTermLaw(log: Log, term: nat)
    ensures LastWithTerm(log, term).None? <==> forall k :: 1 <= k < |log| ==> log[k].term != term
    ensures LastWithTerm(log, term).Some? ==>
      exists j: nat :: IsLastWithTerm(log, term, j) && LastWithTerm(log, term).value == log[j].index
    decreases |log|
  {
    if |log| > 1 && log[|log| - 1].term != term {
      var rest := log[..|log| - 1];
      LastWithTermLaw(rest, term);
      if LastWithTerm(rest, term).Some? {
        var j: nat :| IsLastWithTerm(rest, term, j) && LastWithTerm(rest, term).value == rest[j].index;
        assert IsLastWithTerm(log, term, j);
      }
    } else if |log| > 1 {
      assert IsLastWithTerm(log, term, |log| - 1);
    }
  }

  ghost predicate IsLastWithTerm(log: Log, term: nat, j: nat) {
    && 1 <= j < |log| && log[j].term == term
    && forall k :: j < k < |log| ==> log[k].term != term
  }

  /** The hint of a rejecting follower: the term it has at the previous index and where that begins, or its tail. */
  lemma ConflictLaw(term: nat, log: Log, prev: nat)
    requires Contiguous(log)
    ensures var r := Conflict(term, log, prev);
      && !r.success && r.term == term
      && (At(log, prev).None? ==> r.conflictingTerm == 0 && r.conflictingIndex == Tail(log).index)
      && (At(log, prev).Some? ==>
            && r.conflictingTerm == At(log, prev).value.term && r.conflictingIndex <= prev
            && At(log, r.conflictingIndex).Some? && At(log, r.conflictingIndex).value.term == r.conflictingTerm
            && forall k :: 0 <= k < |log| && log[k].index < r.conflictingIndex ==> log[k].term != r.conflictingTerm)
  {
    if At(log, prev).Some? {
      assert log[prev - log[0].index].term == At(log, prev).value.term;
      var j := FirstWithTermLaw(log, At(log, prev).value.term);
    }
  }

  /**
   Where a leader resumes after a rejection: behind its own last entry of the conflicting term, if it has one above
   its foot, else at the index it was told; never further than before, and never at 0.
   */
  lemma BackUpLaw(log: Log, next: nat, reply: AppendReply)
    requires Contiguous(log) && next >= 1
    ensures var r := BackUp(log, next, reply);
      if reply.conflictingTerm > 0 && exists j: nat :: IsLastWithTerm(log, reply.conflictingTerm, j) then
        exists j: nat :: IsLastWithTerm(log, reply.conflictingTerm, j)
          && r <= next && r <= log[j].index + 1 && (r == next || r == log[j].index + 1)
      else 1 <= r <= next && (r == next || r == Max(reply.conflictingIndex, 1)) && r <= Max(reply.conflictingIndex, 1)
  {
    LastWithTermLaw(log, reply.conflictingTerm);
  }

  // ---------------------------------------------------------------- votes

  /** A log that ends in a later term, or in the same one and no earlier, is at least as up to date. */
  ghost predicate NoOlder(term: nat, index: nat, than: Entry) {
    term > than.term || (term == than.term && index >= than.index)
  }

  /**
   A vote is given exactly to a candidate of the server's term or a later one whose log is no older, if in that term
   the server has voted for nobody else; then it has voted for the candidate in that term.
   */
  lemma VoteLaw(s: Server, args: VoteArgs)
    requires WellFormed(s)
    ensures var (r, reply) := RequestVote(s, args);
      && (reply.granted <==>
            && args.term >= s.term
            && (args.term == s.term ==> s.votedFor == -1 || s.votedFor == args.candidateId)
            && NoOlder(args.lastLogTerm, args.lastLogIndex, Tail(s.log)))
      && (reply.granted && args.term == s.term ==> r == s.(votedFor := args.candidateId))
      && (reply.granted && args.term > s.term ==>
            r == s.(role := Follower, term := args.term, votedFor := args.candidateId))
      && (!reply.granted && args.term <= s.term ==> r == s)
      && (!reply.granted && args.term > s.term ==> r == s.(role := Follower, term := args.term, votedFor := -1))
  {
  }

  // ---------------------------------------------------------------- a new leader

  /** The server has just begun to lead: it has heard of nobody's log but its own, and tries its tail with everybody. */
  ghost predicate JustLeads(s: Server) {
    && WellFormed(s)
    && forall p :: 0 <= p < s.peers ==>
         s.nextIndex[p] == Tail(s.log).index + 1 && s.matchIndex[p] == if p == s.me then Tail(s.log).index else 0
  }

  lemma VotesMakeLeader(s: Server, granted: Votes, from: nat, args: VoteArgs, reply: VoteReply)
    requires WellFormed(s) && s.role != Leader && VoteReplied(s, granted, from, args, reply).0.role == Leader
    ensures JustLeads(VoteReplied(s, granted, from, args, reply).0)
    ensures s.role == Candidate && reply.granted && args.term == s.term
    ensures |granted + {from}| >= Majority(s.peers) && VoteReplied(s, granted, from, args, reply).1 == granted + {from}
  {
  }

  /** A candidate that counts a granted vote of its term leads as soon as it has a majority. */
  lemma MajorityMakesLeader(s: Server, granted: Votes, from: nat, args: VoteArgs, reply: VoteReply)
    requires WellFormed(s) && s.role == Candidate && s.term == args.term && reply.term <= s.term && reply.granted
    ensures VoteReplied(s, granted, from, args, reply).0.role == Leader <==> |granted + {from}| >= Majority(s.peers)
    ensures VoteReplied(s, granted, from, args, reply).1 == granted + {from}
  {
  }

  lemma ReceivesKeepRole(c: Cluster, m: Message, i: nat)
    requires Sane(c) && m in c.net && i < |c.hosts| && !m.VoteResponse? && DoReceive(c, m).Running?
    requires DoReceive(c, m).cluster.hosts[i].raft.role == Leader
    ensures c.hosts[i].raft.role == Leader
  {
    hide Merge, Consistent, Conflict, ScanCommit, BackUp, Follows;
  }

  lemma StepsKeepRole(c: Cluster, step: Step, i: nat)
    requires Sane(c) && !step.Receive? && i < |c.hosts| && Take(c, step).Running?
    requires Take(c, step).cluster.hosts[i].raft.role == Leader
    ensures c.hosts[i].raft.role == Leader
  {
    hide Replicate;
  }

  /** In every run a server that begins to lead is seen to be elected, and starts from its own log with everybody. */
  lemma LeadersStartAtTail(n: nat, steps: seq<Step>, step: Step, i: nat)
    requires i < n && Run(n, steps).Running? && Take(Run(n, steps).cluster, step).Running?
    requires Run(n, steps).cluster.hosts[i].raft.role != Leader
    requires Take(Run(n, steps).cluster, step).cluster.hosts[i].raft.role == Leader
    ensures var d := Take(Run(n, steps).cluster, step).cluster;
      JustLeads(d.hosts[i].raft) && Elected(d.hosts[i].raft.term, i) in d.events
  {
    hide Run;
    var c := Run(n, steps).cluster;
    if step.Receive? {
      if step.m in c.net && step.m.VoteResponse? && step.m.to == i && step.m.from !in c.hosts[i].granted {
        VotesMakeLeader(c.hosts[i].raft, c.hosts[i].granted, step.m.from, step.m.voteArgs, step.m.voteReply);
        hide VoteReplied;
      } else if step.m in c.net && !step.m.VoteResponse? {
        ReceivesKeepRole(c, step.m, i);
        assert false;
      }
    } else {
      StepsKeepRole(c, step, i);
      assert false;
    }
  }

  // ---------------------------------------------------------------- a client command

  /** The index the client is told is that of its command, in the leader's term, and new to the log. */
  lemma StartLaw(s: Server, command: Command)
    requires WellFormed(s)
    ensures var (r, index) := Start(s, command);
      && (index.Some? <==> s.role == Leader)
      && (index.None? ==> r == s)
      && (index.Some? ==>
            && At(r.log, index.value) == Some(Entry(s.term, index.value, command)) && At(s.log, index.value).None?
            && (forall k: nat :: k != index.value ==> At(r.log, k) == At(s.log, k))
            && r == s.(log := r.log, matchIndex := s.matchIndex[s.me := s.matchIndex[s.me] + 1]))
  {
  }

  // ---------------------------------------------------------------- a leader and one peer

  /** A leader sends a peer everything from the peer's next index to its tail, right after the entry it names. */
  lemma SendsAll(s: Server, peer: nat)
    requires WellFormed(s) && peer < s.peers && s.log[0].index < s.nextIndex[peer] <= Tail(s.log).index + 1
    ensures var r := Replicate(s, peer);
      && r.Some? && r.value.Append?
      && var a := r.value.append;
      && a.term == s.term && a.leaderId == s.me && a.leaderCommit == s.commitIndex
      && a.prevLogIndex + 1 == s.nextIndex[peer]
      && At(s.log, a.prevLogIndex).Some? && At(s.log, a.prevLogIndex).value.term == a.prevLogTerm
      && a.prevLogIndex + |a.entries| == Tail(s.log).index
      && forall k :: 0 <= k < |a.entries| ==> At(s.log, s.nextIndex[peer] + k) == Some(a.entries[k])
  {
  }

  /** To a peer that is behind the foot it sends its snapshot, with the foot's index and term. */
  lemma SendsSnapshot(s: Server, peer: nat)
    requires WellFormed(s) && peer < s.peers && s.nextIndex[peer] <= s.log[0].index
    ensures Replicate(s, peer) ==
      Some(Install(SnapshotArgs(s.term, s.me, s.log[0].index, s.log[0].term, s.snapshot)))
  {
  }

  /** After a peer has taken a snapshot, the next request to it begins right behind the snapshot. */
  lemma SnapshotThenEntries(s: Server, peer: nat, args: SnapshotArgs, term: nat)
    requires WellFormed(s) && peer < s.peers && s.term == args.term && term <= s.term
    requires s.log[0].index <= args.lastIncludedIndex <= Tail(s.log).index
    ensures var r := Replicate(SnapshotReplied(s, peer, args, term), peer);
      r.Some? && r.value.Append? && r.value.append.prevLogIndex == args.lastIncludedIndex
  {
  }

  /** After a peer has stored entries, it counts for all of them, and the next request begins right behind them. */
  lemma AckedThenRest(s: Server, peer: nat, args: AppendArgs, reply: AppendReply)
    requires WellFormed(s) && peer < s.peers && s.term == args.term && reply.term <= s.term && reply.success
    requires args.entries != [] && s.log[0].index <= Tail(args.entries).index <= Tail(s.log).index
    requires AppendReplied(s, peer, args, reply).Some?
    ensures var r := AppendReplied(s, peer, args, reply).value;
      && r.matchIndex == s.matchIndex[peer := Tail(args.entries).index] && r.log == s.log
      && Replicate(r, peer).Some? && Replicate(r, peer).value.Append?
      && Replicate(r, peer).value.append.prevLogIndex == Tail(args.entries).index
  {
    hide ScanCommit;
  }

  // ---------------------------------------------------------------- who is behind learns so

  /** A leader whose request meets a later term gives up and adopts that term. */
  lemma StaleLeaderLearns(s: Server, peer: nat, r: Server, args: AppendArgs)
    requires WellFormed(s) && peer < s.peers && WellFormed(r) && Follows(args) && s.term == args.term < r.term
    ensures var (after, reply) := AppendEntries(r, args);
      && after == r && !reply.success
      && AppendReplied(s, peer, args, reply) == Some(s.(role := Follower, term := r.term, votedFor := -1))
  {
  }

  /** So does one that sends a snapshot: it is told the later term, and that makes it give up. */
  lemma StaleSenderLearns(c: Cluster, peer: nat, args: SnapshotArgs)
    requires Sane(c) && SnapshotRequest(peer, args) in c.net && args.leaderId != peer
    requires c.hosts[args.leaderId].raft.term == args.term < c.hosts[peer].raft.term
    ensures var d := DoSnapshotRequest(c, peer, args);
      var later := c.hosts[peer].raft.term;
      var s := c.hosts[args.leaderId].raft;
      && SnapshotResponse(args.leaderId, peer, args, later) in d.net && d.hosts[peer] == c.hosts[peer]
      && DoSnapshotResponse(d, args.leaderId, peer, args, later).hosts[args.leaderId].raft ==
           s.(role := Follower, term := later, votedFor := -1)
  {
  }

  /** So does a candidate. */
  lemma StaleCandidateLearns(s: Server, granted: Votes, from: nat, r: Server, args: VoteArgs)
    requires WellFormed(s) && WellFormed(r) && s.role == Candidate && s.term == args.term < r.term
    ensures var (after, reply) := RequestVote(r, args);
      && after == r && !reply.granted
      && VoteReplied(s, granted, from, args, reply).0 == s.(role := Follower, term := r.term, votedFor := -1)
  {
  }
}
