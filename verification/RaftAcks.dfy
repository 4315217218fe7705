/** Append requests and their replies, step by step. */
module RaftAcks {
  import opened RaftTypes
  import opened RaftServer
  import opened RaftCluster
  import opened RaftHistory
  import opened RaftProgress
  import opened RaftLogs
  import opened RaftInvariant
  import opened RaftVotes
  import opened RaftElections
  import opened RaftReplication

  // ---------------------------------------------------------------- an append request arrives

  lemma EntryOfLeader(h: History, full: Log, n: nat)
    requires LeadersOk(h) && FromLeaders(h, full) && 1 <= n <= |full|
    ensures var t := full[n - 1].term;
      t > 0 && t in h.leaderLog && n <= |h.leaderLog[t]| && h.leaderLog[t][n - 1] == full[n - 1]
  {
    assert full[..n - 1 + 1][n - 1] == h.leaderLog[full[n - 1].term][n - 1];
  }

  /** The leader's log agrees with the foot of any log it meets, so only requests beyond the foot are rejected. */
  lemma RejectedBeyondFoot(h: History, s: Server, full: Log, known: Log, args: AppendArgs)
    requires Complete(h) && CommitsOk(h) && AppendOk(h, args)
    requires Represents(s.log, full) && KnownOk(h, s, full, known) && s.term <= args.term && !Consistent(s.log, args)
    ensures args.prevLogIndex > s.log[0].index && args.prevLogIndex <= |h.leaderLog[args.term]|
  {
    hide Complete, CommitsOk, InCommitted, Covered, Represents;
    FootAgrees(h, s, full, known, args.term);
  }

  /** A rejected log either ends below the previous index, or holds another leader's entry there. */
  lemma RejectionFacts(h: History, s: Server, full: Log, known: Log, args: AppendArgs, term: nat)
    requires LeadersOk(h) && Complete(h) && CommitsOk(h) && FromLeaders(h, full) && AppendOk(h, args)
    requires Represents(s.log, full) && KnownOk(h, s, full, known) && s.term <= args.term && !Consistent(s.log, args)
    ensures RejectionOk(h, args, Conflict(term, s.log, args.prevLogIndex))
  {
    hide LeadersOk, Complete, CommitsOk, Covered, FirstWithTerm, KnownOk, AppendOk;
    var prev := args.prevLogIndex;
    RejectedBeyondFoot(h, s, full, known, args);
    RepresentsContiguous(s.log, full);
    hide FromLeaders;
    AtBeyond(s.log, full, prev);
    if prev <= |full| {
      AtFull(s.log, full, prev);
      EntryOfLeader(h, full, prev);
      FirstWithTermBelow(s.log, full[prev - 1].term, prev - s.log[0].index);
    }
  }

  lemma {:induction false} FirstWithTermBelow(log: Log, term: nat, j: nat)
    requires Contiguous(log) && j < |log| && log[j].term == term
    ensures FirstWithTerm(log, term) <= log[j].index
  {
    if log[0].term != term {
      assert log[1..][j - 1] == log[j];
      FirstWithTermBelow(log[1..], term, j - 1);
    }
  }

  lemma StoredMatches(h: History, k: History, s: Server, i: nat, known: Log, args: AppendArgs)
    requires i < |h.terms| == |h.logs| && h.terms[i] == args.term == s.term && AppendOk(h, args)
    requires KnownOk(h, s, h.logs[i], known)
    requires k == AfterStore(h, i, s.log[0].index, args.prevLogIndex + |args.entries|)
    ensures MatchOk(k, args.term, i, args.prevLogIndex + |args.entries|) && AppendOk(k, args)
  {
  }

  lemma NotLeading(h: History, x: Host, i: nat, args: AppendArgs)
    requires i < |h.terms| == |h.logs| == |h.committed| && HostOk(h, x, i) && AppendOk(h, args) && args.leaderId != i
    requires args.term >= x.raft.term
    ensures ObserveLeader(x.raft, args.term).role == Follower
  {
  }

  lemma AppendEntriesCases(s: Server, args: AppendArgs)
    requires WellFormed(s) && Follows(args)
    ensures AppendEntries(s, args).0.me == s.me && AppendEntries(s, args).0.peers == s.peers
    ensures args.term < s.term ==> AppendEntries(s, args) == (s, AppendReply(s.term, false, 0, 0))
    ensures args.term >= s.term ==>
              var r := ObserveLeader(s, args.term);
              WellFormed(r) && AppendEntries(s, args) ==
              (if Consistent(r.log, args) then (Accepted(r, args), AppendReply(s.term, true, 0, 0))
               else (r, Conflict(s.term, r.log, args.prevLogIndex)))
  {
  }

  lemma AppendRequestKeeps(h: History, c: Cluster, i: nat, args: AppendArgs) returns (k: History)
    requires Inv(h, c) && AppendRequest(i, args) in c.net
    ensures Inv(k, DoAppendRequest(c, i, args)) && Evolves(h, k)
  {
    hide LeadersOk, AcksOk, ClaimsOk, GrantsOk, Complete, CommitsOk, LogsOk, VotesOk, HostOk, AppendEntries, Accepted,
         Conflict, Consistent, Evolves;
    var x := c.hosts[i];
    assert MessageOk(h, AppendRequest(i, args)) && SaneMessage(|c.hosts|, AppendRequest(i, args));
    LogFromLeaders(h, i);
    AppendEntriesCases(x.raft, args);
    var (s, reply) := AppendEntries(x.raft, args);
    var sent := AppendResponse(args.leaderId, i, args, reply);
    if args.term < x.raft.term {
      NoChangeKeeps(h, c, i, {sent});
      assert x.(raft := s) == x;
      k := h;
    } else {
      var y := x.(raft := ObserveLeader(x.raft, args.term));
      var d := Put(c, i, y, {}, {});
      var l := Raised(h, i, args.term);
      ObserveKeeps(h, c, i, args.term);
      NotLeading(h, x, i, args);
      AppendOkRaised(h, i, args);
      if Consistent(y.raft.log, args) {
        k := AcceptKeeps(l, d, i, args, reply, Put(d, i, x.(raft := s), {sent}, {}));
        EvolvesOn(h, l, k);
      } else {
        RejectKeeps(l, d, i, args, x.raft.term, Put(d, i, y, {sent}, {}));
        k := l;
      }
      PutTwice(c, i, y, x.(raft := s), {sent}, {});
    }
  }

  lemma AppendOkRaised(h: History, i: nat, args: AppendArgs)
    requires i < |h.terms| && AppendOk(h, args)
    ensures AppendOk(Raised(h, i, args.term), args)
  {
  }

  lemma RejectKeeps(h: History, c: Cluster, i: nat, args: AppendArgs, term: nat, r: Cluster)
    requires Sane(c) && i < |c.hosts| && args.leaderId < |c.hosts| && Follows(args)
    requires c.hosts[i].raft.term == args.term && !Consistent(c.hosts[i].raft.log, args) && args.leaderId != i
    requires r == Put(c, i, c.hosts[i],
                      {AppendResponse(args.leaderId, i, args, Conflict(term, c.hosts[i].raft.log, args.prevLogIndex))},
                        {})
    requires Inv(h, c) && AppendOk(h, args)
    ensures Inv(h, r)
  {
    hide LeadersOk, AcksOk, ClaimsOk, GrantsOk, Complete, CommitsOk, LogsOk, VotesOk, FromLeaders, Consistent,
         FirstWithTerm, AppendOk, RejectionOk;
    var x := c.hosts[i];
    LogFromLeaders(h, i);
    RejectionFacts(h, x.raft, h.logs[i], h.committed[i], args, term);
    NoChangeKeeps(h, c, i, {AppendResponse(args.leaderId, i, args, Conflict(term, x.raft.log, args.prevLogIndex))});
  }

  /** The effect of accepting a request on the server: entries first, then the commit index. */
  function Accepted(s: Server, args: AppendArgs): (r: Server)
    requires WellFormed(s) && Follows(args) && Consistent(s.log, args)
    ensures WellFormed(r)
  {
    var log := MergedLog(s, args);
    s.(log := log, commitIndex := if args.leaderCommit > s.commitIndex then Min(args.leaderCommit, Tail(log).index)
      else s.commitIndex)
  }

  lemma AcceptKeeps(h: History, c: Cluster, i: nat, args: AppendArgs, reply: AppendReply, r: Cluster)
    returns (k: History)
    requires Sane(c) && i < |c.hosts| && args.leaderId < |c.hosts| && Follows(args)
    requires args.leaderId != i && c.hosts[i].raft.term == args.term && c.hosts[i].raft.role == Follower
    requires Consistent(c.hosts[i].raft.log, args) && reply.success
    requires r == Put(c, i, c.hosts[i].(raft := Accepted(c.hosts[i].raft, args)),
      {AppendResponse(args.leaderId, i, args, reply)}, {})
    requires Inv(h, c) && AppendOk(h, args)
    ensures Inv(k, r) && Evolves(h, k)
  {
    hide Inv, Ok, HostOk, LeadersOk, Complete, CommitsOk, VotesOk, Represents, KnownOk, LeaderOk, FromLeaders,
         InCommitted, MergedLog, Consistent, Evolves, AfterStore, MatchOk, Covered;
    var x := c.hosts[i];
    var m := args.prevLogIndex + |args.entries|;
    var y := x.(raft := x.raft.(log := MergedLog(x.raft, args)));
    var z := x.(raft := Accepted(x.raft, args));
    var d := Put(c, i, y, {}, {});
    var sent := AppendResponse(args.leaderId, i, args, reply);
    HostFacts(h, c, i);
    HostParts(h, x, i);
    k := AfterStore(h, i, x.raft.log[0].index, m);
    StoreKeeps(h, c, i, args);
    StoredMatches(h, k, x.raft, i, h.committed[i], args);
    HostFacts(k, d, i);
    HostParts(k, d.hosts[i], i);
    if args.leaderCommit > x.raft.commitIndex {
      var log := k.leaderLog[args.term][..args.leaderCommit];
      AcceptedCommit(h, k, x.raft, y.raft, i, args);
      LearnKeeps(k, d, i, log, {sent}, {});
      assert z == y.(raft := y.raft.(commitIndex := |log|));
      EvolvesOn(h, k, Learn(k, i, log));
      k := Learn(k, i, log);
    } else {
      NoChangeKeeps(k, d, i, {sent});
      assert z == y;
    }
    PutTwice(c, i, y, z, {sent}, {});
  }

  lemma LogFromLeaders(h: History, i: nat)
    requires LogsOk(h) && i < |h.terms|
    ensures FromLeaders(h, h.logs[i]) && |h.logs| == |h.terms| == |h.committed|
  {
  }

  /** The follower's commit index stops at the last entry the request verified: the leader's commit index. */
  lemma AcceptedCommit(h: History, k: History, s: Server, r: Server, i: nat, args: AppendArgs)
    requires i < |h.terms| == |h.logs| == |h.committed| && h.terms[i] == args.term == s.term && AppendOk(h, args)
    requires KnownOk(h, s, h.logs[i], h.committed[i]) && args.leaderCommit > s.commitIndex
    requires k == AfterStore(h, i, s.log[0].index, args.prevLogIndex + |args.entries|)
    requires Complete(k) && CommitsOk(k) && FromLeaders(k, k.logs[i])
    requires Represents(r.log, k.logs[i]) && KnownOk(k, r, k.logs[i], k.committed[i]) && r.term == s.term
    ensures InCommitted(k, args.term, k.leaderLog[args.term][..args.leaderCommit])
    ensures k.committed[i] <= k.leaderLog[args.term][..args.leaderCommit] <= k.logs[i]
    ensures Min(args.leaderCommit, Tail(r.log).index) == args.leaderCommit
  {
    var t := args.term;
    var log := k.leaderLog[t][..args.leaderCommit];
    CoveredIsCommitted(k, t, args.leaderCommit);
    CoveredInLeader(k, t, k.committed[i]);
    TailOfFull(k, r, k.logs[i], k.committed[i]);
    hide Complete, CommitsOk, FromLeaders, InCommitted;
    PrefixesOfOneLog(k.committed[i], log, k.leaderLog[t]);
    PrefixOfPrefix(log, k.leaderLog[t][..args.prevLogIndex + |args.entries|], k.logs[i]);
  }

  // ---------------------------------------------------------------- the leader counts

  lemma CountersKeep(h: History, c: Cluster, i: nat, matches: seq<nat>, nexts: seq<nat>)
    requires Inv(h, c) && i < |c.hosts| == |matches| == |nexts|
    requires Owns(h, c.hosts[i].raft.term, i) ==>
               forall p :: 0 <= p < |matches| ==> MatchOk(h, c.hosts[i].raft.term, p, matches[p])
    requires c.hosts[i].raft.role == Leader ==>
               forall p :: 0 <= p < |nexts| ==> 1 <= nexts[p] <= |h.logs[i]| + 1
    requires matches[i] == c.hosts[i].raft.matchIndex[i]
    ensures Inv(h, Put(c, i, c.hosts[i].(raft := c.hosts[i].raft.(matchIndex := matches, nextIndex := nexts)), {}, {}))
  {
    hide *;
    HostFacts(h, c, i);
    var y := c.hosts[i].(raft := c.hosts[i].raft.(matchIndex := matches, nextIndex := nexts));
    SameHistory(h);
    SameBallot(c, i, y);
    CountersHostOk(h, c.hosts[i], i, matches, nexts);
    Assemble(h, c, h, i, y, {}, {});
  }

  lemma CountersHostOk(h: History, x: Host, i: nat, matches: seq<nat>, nexts: seq<nat>)
    requires i < |h.terms| == |h.logs| == |h.committed| == |matches| == |nexts| && HostOk(h, x, i)
    requires WellFormed(x.raft) && x.raft.peers == |h.terms|
    requires Owns(h, x.raft.term, i) ==> forall p :: 0 <= p < |matches| ==> MatchOk(h, x.raft.term, p, matches[p])
    requires x.raft.role == Leader ==> forall p :: 0 <= p < |nexts| ==> 1 <= nexts[p] <= |h.logs[i]| + 1
    requires matches[i] == x.raft.matchIndex[i]
    ensures HostOk(h, x.(raft := x.raft.(matchIndex := matches, nextIndex := nexts)), i)
    ensures WellFormed(x.raft.(matchIndex := matches, nextIndex := nexts))
  {
  }

  /** The servers counted for an index. */
  lemma {:induction false} CountedServers(matches: seq<nat>, i: nat) returns (q: set<nat>)
    ensures |q| == CountAtLeast(matches, i)
    ensures forall p :: p in q ==> p < |matches| && matches[p] >= i
  {
    if matches == [] {
      q := {};
    } else {
      var last := |matches| - 1;
      q := CountedServers(matches[..last], i);
      if matches[last] >= i {
        q := q + {last};
      }
    }
  }

  /** The scan returns its start, or an index of the server's own term that a majority has stored. */
  lemma {:induction false} ScanFinds(s: Server, i: nat, last: nat, commit: nat)
    requires s.log != [] && commit <= i && forall j: nat :: i <= j <= last ==> At(s.log, j).Some?
    ensures var r := ScanCommit(s, i, last, commit);
            && r.Some?
            && (r.value == commit || (i <= r.value <= last && StoredByMajority(s, r.value)))
            && forall j: nat :: i <= j <= last && r.value < j ==> !StoredByMajority(s, j)
    decreases last + 1 - i
  {
    if i <= last {
      var next := if StoredByMajority(s, i) then i else commit;
      ScanFinds(s, i + 1, last, next);
    }
  }

  ghost predicate StoredByMajority(s: Server, i: nat)
    requires s.log != []
  {
    CountAtLeast(s.matchIndex, i) >= Majority(s.peers) && At(s.log, i).Some? && At(s.log, i).value.term == s.term
  }

  lemma CoveredBelow(h: History, t: nat, n: nat, m: nat)
    requires Covered(h, t, m) && n <= m
    ensures Covered(h, t, n)
  {
  }

  /** What a majority has stored in the leader's own term is committed, if it is not already. */
  lemma MajorityCommits(h: History, s: Server, i: nat, full: Log, n: nat) returns (q: set<nat>)
    requires s.log != [] && LeaderOk(h, s, i, full) && Owns(h, s.term, i) && s.peers == |h.terms|
    requires StoredByMajority(s, n)
    ensures Covered(h, s.term, n) || ChosenBy(h, s.term, n, q)
  {
    q := CountedServers(s.matchIndex, n);
    if p :| p in q && Covered(h, s.term, s.matchIndex[p]) {
      CoveredBelow(h, s.term, n, s.matchIndex[p]);
    } else {
      forall p | p in q
        ensures Ack(h, s.term, p) >= n
      {
        assert MatchOk(h, s.term, p, s.matchIndex[p]);
      }
    }
  }

  lemma CommitTouchesNoHost(h: History, t: nat, n: nat)
    requires |h.logs| == |h.terms| == |h.committed|
    ensures SameElections(h, Commit(h, t, n))
    ensures forall j: nat :: j < |h.terms| ==> Untouched(h, Commit(h, t, n), j) && OnlyHost(h, Commit(h, t, n), j)
  {
  }

  lemma CommitKeeps(h: History, c: Cluster, i: nat, t: nat, n: nat, q: set<nat>)
    requires Inv(h, c) && i < |c.hosts| && OwnEntry(h, t, n) && ChosenBy(h, t, n, q)
    ensures Inv(Commit(h, t, n), Put(c, i, c.hosts[i], {}, {})) && Evolves(h, Commit(h, t, n))
  {
    hide LeadersOk, AcksOk, ClaimsOk, GrantsOk, Complete, CommitsOk, VotesOk, Evolves, HostOk;
    var k := Commit(h, t, n);
    CommitOk(h, t, n, q);
    CommitTouchesNoHost(h, t, n);
    VotesSame(h, k, Ballots(c));
    assert Ballots(c)[i := BallotOf(c.hosts[i])] == Ballots(c);
    HostStable(h, k, c.hosts[i], i);
    Assemble(h, c, k, i, c.hosts[i], {}, {});
  }

  /** The leader moves its commit index to n. */
  lemma AdvanceKeeps(h: History, c: Cluster, i: nat, n: nat) returns (k: History)
    requires Inv(h, c) && i < |c.hosts| && Owns(h, c.hosts[i].raft.term, i)
    requires StoredByMajority(c.hosts[i].raft, n) && c.hosts[i].raft.commitIndex < n <= |h.logs[i]|
    ensures var s := c.hosts[i].raft;
      Inv(k, Put(c, i, c.hosts[i].(raft := s.(commitIndex := n)), {},
        CommittedNow(s.(commitIndex := n), s.commitIndex)))
    ensures Evolves(h, k)
  {
    hide *;
    HostFacts(h, c, i);
    var x := c.hosts[i];
    HostParts(h, x, i);
    var t := x.raft.term;
    OwnEntryAt(h, x, i, n);
    var q := MajorityCommits(h, x.raft, i, h.logs[i], n);
    if Covered(h, t, n) {
      k := LearnCovered(h, c, i, n);
    } else {
      var d := Put(c, i, x, {}, {});
      k := Commit(h, t, n);
      CommitKeeps(h, c, i, t, n, q);
      JustCommitted(h, c, i, t, n);
      var l := k;
      k := LearnCovered(l, d, i, n);
      EvolvesOn(h, l, k);
      var r := x.raft.(commitIndex := n);
      PutTwice(c, i, x, x.(raft := r), {}, CommittedNow(r, x.raft.commitIndex));
    }
  }

  lemma OwnEntryAt(h: History, x: Host, i: nat, n: nat)
    requires i < |h.terms| == |h.logs| == |h.committed| && Represents(x.raft.log, h.logs[i])
      && LeaderOk(h, x.raft, i, h.logs[i])
    requires x.raft.log != [] && Owns(h, x.raft.term, i) && StoredByMajority(x.raft, n)
      && KnownOk(h, x.raft, h.logs[i], h.committed[i])
    requires x.raft.commitIndex < n <= |h.logs[i]|
    ensures At(x.raft.log, n).Some? && OwnEntry(h, x.raft.term, n)
  {
    hide MatchOk, InCommitted;
    AtFull(x.raft.log, h.logs[i], n);
  }

  lemma JustCommitted(h: History, c: Cluster, i: nat, t: nat, n: nat)
    requires Sane(c) && i < |c.hosts|
    ensures var d := Put(c, i, c.hosts[i], {}, {}); |d.hosts| == |c.hosts| && d.hosts[i] == c.hosts[i]
    ensures var k := Commit(h, t, n);
      k.logs == h.logs && Covered(k, t, n) && forall i :: Owns(h, t, i) ==> Owns(k, t, i)
  {
    assert (t, n) in Commit(h, t, n).commits;
  }

  /** The leader moves its commit index to a position that is covered by a commit. */
  lemma LearnCovered(h: History, c: Cluster, i: nat, n: nat) returns (k: History)
    requires Inv(h, c) && i < |c.hosts| && Owns(h, c.hosts[i].raft.term, i) && Covered(h, c.hosts[i].raft.term, n)
    requires c.hosts[i].raft.commitIndex < n <= |h.logs[i]|
    ensures c.hosts[i].raft.log != []
    ensures var s := c.hosts[i].raft;
      Inv(k, Put(c, i, c.hosts[i].(raft := s.(commitIndex := n)), {},
        CommittedNow(s.(commitIndex := n), s.commitIndex)))
    ensures Evolves(h, k)
  {
    hide *;
    HostFacts(h, c, i);
    var x := c.hosts[i];
    HostParts(h, x, i);
    var t := x.raft.term;
    CommittedEventsOk(h, x, i, n);
    var log := h.leaderLog[t][..n];
    AdvanceFacts(h, x.raft, i, n);
    LearnKeeps(h, c, i, log, {}, CommittedNow(x.raft.(commitIndex := n), x.raft.commitIndex));
    k := Learn(h, i, log);
  }

  /** Every entry between the old commit index and the new one is a committed entry of the leader's log. */
  lemma CommittedEventsOk(h: History, x: Host, i: nat, n: nat)
    requires i < |h.terms| == |h.logs| == |h.committed| && Represents(x.raft.log, h.logs[i])
      && LeaderOk(h, x.raft, i, h.logs[i])
    requires x.raft.log != [] && Owns(h, x.raft.term, i) && Covered(h, x.raft.term, n)
      && KnownOk(h, x.raft, h.logs[i], h.committed[i])
    requires x.raft.commitIndex < n <= |h.logs[i]|
    ensures x.raft.term in h.leaderLog && h.leaderLog[x.raft.term] == h.logs[i]
    ensures forall e :: e in CommittedNow(x.raft.(commitIndex := n), x.raft.commitIndex) ==> EventOk(h, e)
  {
    hide MatchOk, Covered, InCommitted;
    forall m: nat | x.raft.commitIndex < m <= n && At(x.raft.log, m).Some?
      ensures EventOk(h, Committed(x.raft.term, m, At(x.raft.log, m).value))
    {
      AtFull(x.raft.log, h.logs[i], m);
      CoveredBelow(h, x.raft.term, m, n);
    }
  }

  lemma AdvanceFacts(k: History, s: Server, i: nat, n: nat)
    requires Complete(k) && CommitsOk(k) && i < |k.terms| == |k.logs| == |k.committed|
    requires s.term == k.terms[i] && KnownOk(k, s, k.logs[i], k.committed[i])
    requires Owns(k, s.term, i) && k.leaderLog[s.term] == k.logs[i] && Covered(k, s.term, n)
    requires s.commitIndex < n <= |k.logs[i]|
    ensures InCommitted(k, s.term, k.leaderLog[s.term][..n])
    ensures k.committed[i] <= k.leaderLog[s.term][..n] <= k.logs[i]
  {
    CoveredIsCommitted(k, s.term, n);
    CoveredInLeader(k, s.term, k.committed[i]);
  }

  lemma NextInRange(log: Log, full: Log, next: nat, reply: AppendReply)
    requires Represents(log, full) && 1 <= next <= |full| + 1
    ensures 1 <= BackUp(log, next, reply) <= |full| + 1
  {
  }

  function Acknowledged(s: Server, from: nat, last: nat): (r: Server)
    requires WellFormed(s) && from < s.peers
    ensures WellFormed(r) && r.me == s.me && r.peers == s.peers
  {
    s.(matchIndex := s.matchIndex[from := last], nextIndex := s.nextIndex[from := last + 1])
  }

  function Advanced(c: Cluster, i: nat, r: Server, n: nat): Cluster
    requires Sane(c) && i < |c.hosts| && WellFormed(r) && r.me == i && r.peers == |c.hosts|
  {
    Put(c, i, c.hosts[i].(raft := r.(commitIndex := n)), {},
      CommittedNow(r.(commitIndex := n), c.hosts[i].raft.commitIndex))
  }

  /** A positive reply: the peer's counters move, and the commit index may follow. */
  lemma SuccessKeeps(h: History, c: Cluster, i: nat, from: nat, args: AppendArgs, r: Server) returns (k: History)
    requires Inv(h, c) && i < |c.hosts| && from < |c.hosts| && AppendOk(h, args) && Follows(args)
    requires args.leaderId == i != from && args.entries != [] && c.hosts[i].raft.term == args.term
    requires MatchOk(h, args.term, from, args.prevLogIndex + |args.entries|)
    requires r == Acknowledged(c.hosts[i].raft, from, Tail(args.entries).index)
    ensures ScanCommit(r, r.commitIndex, Tail(args.entries).index, r.commitIndex).Some?
    ensures Inv(k, Advanced(c, i, r, ScanCommit(r, r.commitIndex, Tail(args.entries).index, r.commitIndex).value))
    ensures Evolves(h, k)
  {
    hide *;
    HostFacts(h, c, i);
    var x := c.hosts[i];
    AckFacts(h, x, i, from, args, r);
    CountersKeep(h, c, i, r.matchIndex, r.nextIndex);
    var last := Tail(args.entries).index;
    ScanFinds(r, r.commitIndex, last, r.commitIndex);
    var n := ScanCommit(r, r.commitIndex, last, r.commitIndex).value;
    AdvancedShape(c, i, r, n);
    if n > r.commitIndex {
      var d := Put(c, i, x.(raft := r), {}, {});
      k := AdvanceKeeps(h, d, i, n);
      PutTwice(c, i, x.(raft := r), x.(raft := r.(commitIndex := n)), {},
        CommittedNow(r.(commitIndex := n), r.commitIndex));
    } else {
      k := h;
      SameHistory(h);
    }
  }

  lemma AckFacts(h: History, x: Host, i: nat, from: nat, args: AppendArgs, r: Server)
    requires i < |h.terms| == |h.logs| == |h.committed| && HostOk(h, x, i) && WellFormed(x.raft)
      && x.raft.peers == |h.terms|
    requires from < |h.terms| && AppendOk(h, args) && Follows(args) && args.leaderId == i != from && args.entries != []
    requires x.raft.term == args.term && MatchOk(h, args.term, from, args.prevLogIndex + |args.entries|)
    requires r == Acknowledged(x.raft, from, Tail(args.entries).index)
    ensures r == x.raft.(matchIndex := r.matchIndex, nextIndex := r.nextIndex) && r.log != []
    ensures Owns(h, x.raft.term, i) && |r.matchIndex| == |r.nextIndex| == |h.terms|
      && Tail(args.entries).index <= |h.logs[i]| && r.matchIndex[i] == x.raft.matchIndex[i]
    ensures forall p :: 0 <= p < |r.matchIndex| ==> MatchOk(h, x.raft.term, p, r.matchIndex[p])
    ensures x.raft.role == Leader ==> forall p :: 0 <= p < |r.nextIndex| ==> 1 <= r.nextIndex[p] <= |h.logs[i]| + 1
    ensures forall j: nat :: r.commitIndex <= j <= Tail(args.entries).index ==> At(r.log, j).Some?
  {
    hide MatchOk, Covered, InCommitted, CandidateOk, ServiceOk, SnapshotOk;
    assert Tail(args.entries).index == args.prevLogIndex + |args.entries|;
    forall j: nat | r.commitIndex <= j <= Tail(args.entries).index
      ensures At(r.log, j).Some?
    {
      AtBeyond(r.log, h.logs[i], j);
    }
  }

  lemma AdvancedShape(c: Cluster, i: nat, r: Server, n: nat)
    requires Sane(c) && i < |c.hosts| && WellFormed(r) && r.me == i && r.peers == |c.hosts|
    requires r.commitIndex == c.hosts[i].raft.commitIndex && r.log != []
    ensures Put(c, i, c.hosts[i].(raft := r), {}, {}).hosts[i] == c.hosts[i].(raft := r)
    ensures Advanced(c, i, r, n) ==
      Put(c, i, c.hosts[i].(raft := r.(commitIndex := n)), {}, CommittedNow(r.(commitIndex := n), r.commitIndex))
    ensures n == r.commitIndex ==> Advanced(c, i, r, n) == Put(c, i, c.hosts[i].(raft := r), {}, {})
  {
    if n == r.commitIndex {
      assert CommittedNow(r, r.commitIndex) == {};
    }
  }

  lemma FailureKeeps(h: History, c: Cluster, i: nat, from: nat, reply: AppendReply)
    requires Inv(h, c) && i < |c.hosts| && from < |c.hosts| && from != i
    ensures var s := c.hosts[i].raft;
            var nexts := s.nextIndex[from := BackUp(s.log, s.nextIndex[from], reply)];
            var r := s.(matchIndex := s.matchIndex[from := 0], nextIndex := nexts);
            Inv(h, Put(c, i, c.hosts[i].(raft := r), {}, {}))
  {
    hide LeadersOk, AcksOk, ClaimsOk, GrantsOk, Complete, CommitsOk, LogsOk, VotesOk, ServiceOk, CandidateOk,
         SnapshotOk, BackUp;
    LogFromLeaders(h, i);
    var s := c.hosts[i].raft;
    if s.role == Leader {
      NextInRange(s.log, h.logs[i], s.nextIndex[from], reply);
    }
    CountersKeep(h, c, i, s.matchIndex[from := 0], s.nextIndex[from := BackUp(s.log, s.nextIndex[from], reply)]);
  }

  lemma AppendResponseKeeps(h: History, c: Cluster, i: nat, from: nat, args: AppendArgs, reply: AppendReply)
    returns (k: History)
    requires Inv(h, c) && AppendResponse(i, from, args, reply) in c.net
    ensures DoAppendResponse(c, i, from, args, reply).Running?
      && Inv(k, DoAppendResponse(c, i, from, args, reply).cluster)
    ensures Evolves(h, k)
  {
    hide *;
    MessageFacts(h, c, AppendResponse(i, from, args, reply));
    AppendResponseFacts(h, |c.hosts|, i, from, args, reply);
    HostFacts(h, c, i);
    var s := c.hosts[i].raft;
    SameHistory(h);
    k := h;
    if s.term == args.term && reply.term <= s.term && reply.success && args.entries != [] {
      k := SuccessKeeps(h, c, i, from, args, Acknowledged(s, from, Tail(args.entries).index));
    } else if s.term == args.term && reply.term == s.term && !reply.success {
      FailureKeeps(h, c, i, from, reply);
    } else if s.term == args.term && reply.term > s.term {
      LowerKeeps(h, c, i, reply.term);
      k := RaiseTerm(h, i, reply.term);
    } else {
      NoChangeKeeps(h, c, i, {});
    }
    AppendResponseShape(c, i, from, args, reply);
  }

  lemma AppendResponseFacts(h: History, n: nat, i: nat, from: nat, args: AppendArgs, reply: AppendReply)
    requires MessageOk(h, AppendResponse(i, from, args, reply)) && SaneMessage(n, AppendResponse(i, from, args, reply))
    ensures i < n && from < n && i == args.leaderId != from && Follows(args) && AppendOk(h, args)
    ensures reply.success && args.entries != [] ==> MatchOk(h, args.term, from, args.prevLogIndex + |args.entries|)
  {
    hide AppendOk, MatchOk, RejectionOk;
  }

  lemma AppendResponseShape(c: Cluster, i: nat, from: nat, args: AppendArgs, reply: AppendReply)
    requires Sane(c) && i < |c.hosts| && from < |c.hosts| && Follows(args)
    ensures var x := c.hosts[i];
      var s := x.raft;
      var r := DoAppendResponse(c, i, from, args, reply);
      if s.term == args.term && reply.term <= s.term && reply.success && args.entries != [] then
        var a := Acknowledged(s, from, Tail(args.entries).index);
        var n := ScanCommit(a, a.commitIndex, Tail(args.entries).index, a.commitIndex);
        n.Some? ==> r == Running(Advanced(c, i, a, n.value))
      else if s.term == args.term && reply.term == s.term && !reply.success then
        var nexts := s.nextIndex[from := BackUp(s.log, s.nextIndex[from], reply)];
        r == Running(Put(c, i, x.(raft := s.(matchIndex := s.matchIndex[from := 0], nextIndex := nexts)), {}, {}))
      else if s.term == args.term && reply.term > s.term then r == Running(Put(c, i, Lowered(x, reply.term), {}, {}))
      else r == Running(Put(c, i, x, {}, {}))
  {
    hide ScanCommit, BackUp;
    forall s: Server, n: nat | s.log != [] && s.commitIndex <= n
      ensures CommittedNow(s, n) == {}
    {
    }
  }
}
