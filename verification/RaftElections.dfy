/** Steps that change terms, votes and roles keep the invariant. */
module RaftElections {
  import opened Common
  import opened RaftTypes
  import opened RaftServer
  import opened RaftCluster
  import opened RaftHistory
  import opened RaftProgress
  import opened RaftLogs
  import opened RaftInvariant
  import opened RaftVotes

  /** Two updates of one host in a row are one update. */
  lemma PutTwice(c: Cluster, i: nat, x: Host, y: Host, sent: set<Message>, seen: set<Event>)
    requires Sane(c) && i < |c.hosts|
    requires WellFormed(x.raft) && x.raft.me == i && x.raft.peers == |c.hosts|
    requires WellFormed(y.raft) && y.raft.me == i && y.raft.peers == |c.hosts|
    requires forall m :: m in sent ==> SaneMessage(|c.hosts|, m)
    ensures Put(Put(c, i, x, {}, {}), i, y, sent, seen) == Put(c, i, y, sent, seen)
  {
  }

  /** The last entry of the compacted log has the index and term of the last entry of the full log. */
  lemma TailOfFull(h: History, s: Server, full: Log, known: Log)
    requires Represents(s.log, full) && FromLeaders(h, full) && KnownOk(h, s, full, known)
    ensures Tail(s.log).index == |full| && Tail(s.log).term == LastTerm(full)
  {
  }

  // ---------------------------------------------------------------- a later term

  /** The same server, in a later term in which it has done nothing, and not leading it. */
  lemma HostInLaterTerm(h: History, k: History, x: Host, y: Host, i: nat)
    requires i < |h.terms| == |h.logs| == |h.committed| && HostOk(h, x, i) && Evolves(h, k)
    requires i < |k.logs| == |k.terms| == |k.committed| && k.logs[i] == h.logs[i] && k.committed[i] == h.committed[i]
    requires k.terms[i] == y.raft.term >= x.raft.term && !Owns(k, y.raft.term, i)
    requires y.raft == x.raft.(term := y.raft.term, role := y.raft.role, votedFor := y.raft.votedFor)
    requires y.raft.role != Leader && CandidateOk(k, y, i)
    requires y.inflight == x.inflight && y.applied == x.applied && y.installs == x.installs
    ensures HostOk(k, y, i)
  {
    InCommittedStable(h, k, x.raft.term, y.raft.term, h.committed[i]);
    InstallsStable(h, k, x.raft.term, y.raft.term, x.installs);
  }

  lemma RaisedOnlyHost(h: History, i: nat, t: nat)
    requires |h.logs| == |h.terms| == |h.committed| && i < |h.terms|
    ensures OnlyHost(h, RaiseTerm(h, i, t), i)
  {
  }

  function Lowered(x: Host, t: nat): Host {
    x.(raft := StepDown(x.raft, t))
  }

  lemma LowerKeeps(h: History, c: Cluster, i: nat, t: nat)
    requires Inv(h, c) && i < |c.hosts| && t > c.hosts[i].raft.term
    ensures Inv(RaiseTerm(h, i, t), Put(c, i, Lowered(c.hosts[i], t), {}, {})) && Evolves(h, RaiseTerm(h, i, t))
  {
    var k := RaiseTerm(h, i, t);
    var x := c.hosts[i];
    LaterTermUnused(h, i, t);
    RaiseTermOk(h, i, t);
    RaisedOnlyHost(h, i, t);
    VotesRaised(h, Ballots(c), i, t, Ballot(-1, false));
    assert !Owns(k, t, i);
    HostInLaterTerm(h, k, x, Lowered(x, t), i);
    Assemble(h, c, k, i, Lowered(x, t), {}, {});
  }

  /** History after server i has seen term t. */
  function Raised(h: History, i: nat, t: nat): History
    requires i < |h.terms|
  {
    if t > h.terms[i] then RaiseTerm(h, i, t) else h
  }

  function Observed(c: Cluster, i: nat, t: nat): Cluster
    requires Sane(c) && i < |c.hosts| && t >= c.hosts[i].raft.term
  {
    Put(c, i, c.hosts[i].(raft := ObserveLeader(c.hosts[i].raft, t)), {}, {})
  }

  lemma ObserveKeeps(h: History, c: Cluster, i: nat, t: nat)
    requires Inv(h, c) && i < |c.hosts| && t >= c.hosts[i].raft.term && t in h.leaderLog
    ensures Inv(Raised(h, i, t), Observed(c, i, t)) && Evolves(h, Raised(h, i, t))
    ensures ObserveLeader(c.hosts[i].raft, t).term == t
  {
    hide LeadersOk, AcksOk, ClaimsOk, GrantsOk, Complete, CommitsOk, Evolves, OnlyHost;
    var x := c.hosts[i];
    var y := x.(raft := ObserveLeader(x.raft, t));
    SameHistory(h);
    if t > x.raft.term {
      LowerKeeps(h, c, i, t);
      assert y == Lowered(x, t);
    } else {
      if x.raft.role == Candidate {
        ResetKeeps(h, c, i);
      } else {
        assert y == x;
        NoChangeKeeps(h, c, i, {});
      }
    }
  }

  /** A server may always use its vote or give up its candidacy. */
  lemma HostBallot(h: History, x: Host, y: Host, i: nat)
    requires i < |h.terms| == |h.logs| == |h.committed| && HostOk(h, x, i)
    requires y == x.(raft := x.raft.(role := y.raft.role, votedFor := y.raft.votedFor))
    requires y.raft.role == x.raft.role || y.raft.role == Follower
    ensures HostOk(h, y, i)
  {
  }

  lemma ResetKeeps(h: History, c: Cluster, i: nat)
    requires Inv(h, c) && i < |c.hosts| && c.hosts[i].raft.term in h.leaderLog && c.hosts[i].raft.role == Candidate
    ensures Inv(h, Put(c, i, c.hosts[i].(raft := c.hosts[i].raft.(role := Follower, votedFor := -1)), {}, {}))
  {
    hide LeadersOk, AcksOk, ClaimsOk, GrantsOk, Complete, CommitsOk, Evolves;
    var x := c.hosts[i];
    var y := x.(raft := x.raft.(role := Follower, votedFor := -1));
    SameHistory(h);
    VotesReset(h, Ballots(c), i);
    HostBallot(h, x, y, i);
    Assemble(h, c, h, i, y, {}, {});
  }

  // ---------------------------------------------------------------- elections

  lemma TimeoutKeeps(h: History, c: Cluster, i: nat) returns (k: History)
    requires Inv(h, c) && i < |c.hosts|
    ensures Inv(k, DoTimeout(c, i)) && Evolves(h, k)
  {
    hide Inv, Ok, HostOk, LeadersOk, Complete, CommitsOk, FromLeaders, Evolves, VotesOk, OnlyHost, EventOk,
         VoteRequestOk,
         Ask, Unused, WellFormed;
    HostFacts(h, c, i);
    var x := c.hosts[i];
    SameHistory(h);
    if x.raft.role == Leader {
      k := h;
    } else {
      var (s, args) := StartElection(x.raft);
      var y := x.(raft := s, granted := {i});
      var sent := set p | p in Ids(|c.hosts|) && p != i :: VoteRequest(p, args);
      k := Ask(RaiseTerm(h, i, s.term), i);
      AskedOk(h, Ballots(c), i, s.term);
      NewCandidateOk(h, x, i);
      NewBallot(c, i, y);
      RequestsOk(k, |c.hosts|, i, args);
      hide MessageOk, SaneMessage, BallotOf;
      Assemble(h, c, k, i, y, sent, {Voted(s.term, i, i)});
    }
  }

  lemma RequestsOk(k: History, n: nat, i: nat, args: VoteArgs)
    requires VoteRequestOk(k, args) && args.candidateId == i < n
    ensures forall m :: m in (set p | p in Ids(n) && p != i :: VoteRequest(p, args)) ==>
      SaneMessage(n, m) && MessageOk(k, m)
  {
  }

  lemma NewBallot(c: Cluster, i: nat, y: Host)
    requires i < |c.hosts| && y.raft.role == Candidate && y.raft.votedFor == i
    ensures Ballots(c)[i := BallotOf(y)] == Ballots(c)[i := Ballot(i, true)]
  {
  }

  lemma NewCandidateOk(h: History, x: Host, i: nat)
    requires i < |h.terms| == |h.logs| == |h.committed| && HostOk(h, x, i) && WellFormed(x.raft)
    requires x.raft.me == i && FromLeaders(h, h.logs[i]) && Unused(h, i, x.raft.term + 1)
    requires Evolves(h, Ask(RaiseTerm(h, i, x.raft.term + 1), i))
    ensures HostOk(Ask(RaiseTerm(h, i, x.raft.term + 1), i), x.(raft := StartElection(x.raft).0, granted := {i}), i)
    ensures VoteRequestOk(Ask(RaiseTerm(h, i, x.raft.term + 1), i), StartElection(x.raft).1)
    ensures EventOk(Ask(RaiseTerm(h, i, x.raft.term + 1), i), Voted(x.raft.term + 1, i, i))
  {
    var (s, args) := StartElection(x.raft);
    var k := Ask(RaiseTerm(h, i, s.term), i);
    var y := x.(raft := s, granted := {i});
    assert CandidateOk(k, y, i);
    HostInLaterTerm(h, k, x, y, i);
    TailOfFull(h, x.raft, h.logs[i], h.committed[i]);
  }

  lemma AskedOk(h: History, b: seq<Ballot>, i: nat, t: nat)
    requires Ok(h) && VotesOk(h, b) && i < |h.terms| && h.terms[i] < t
    ensures Ok(Ask(RaiseTerm(h, i, t), i)) && Evolves(h, Ask(RaiseTerm(h, i, t), i)) && Unused(h, i, t)
    ensures OnlyHost(h, Ask(RaiseTerm(h, i, t), i), i)
    ensures VotesOk(Ask(RaiseTerm(h, i, t), i), b[i := Ballot(i, true)])
  {
    LaterTermUnused(h, i, t);
    hide LeadersOk, AcksOk, ClaimsOk, GrantsOk, Complete, CommitsOk, Evolves, VotesOk, OnlyHost;
    RaiseTermOk(h, i, t);
    AskOk(RaiseTerm(h, i, t), i);
    AskedEvolves(h, i, t);
    VotesAsked(h, b, i, t);
  }

  lemma AskedEvolves(h: History, i: nat, t: nat)
    requires |h.logs| == |h.terms| == |h.committed| && i < |h.terms| && h.terms[i] < t && (t, i) !in h.claims
    ensures Evolves(h, Ask(RaiseTerm(h, i, t), i)) && OnlyHost(h, Ask(RaiseTerm(h, i, t), i), i)
  {
  }

  /** The comparison the voter makes is the one between the full logs. */
  lemma VoterCompares(h: History, s: Server, full: Log, known: Log, args: VoteArgs)
    requires Represents(s.log, full) && FromLeaders(h, full) && KnownOk(h, s, full, known) && VoteRequestOk(h, args)
    ensures IsAtLeastUpToDate(s.log, args) <==> UpToDate(h.claims[(args.term, args.candidateId)], full)
  {
  }

  lemma GrantKeeps(h: History, c: Cluster, i: nat, args: VoteArgs, reply: VoteReply)
    requires Inv(h, c) && i < |c.hosts| && args.candidateId < |c.hosts| && VoteRequestOk(h, args)
    requires c.hosts[i].raft.term == args.term && IsAtLeastUpToDate(c.hosts[i].raft.log, args)
    requires c.hosts[i].raft.votedFor == -1 || c.hosts[i].raft.votedFor == args.candidateId
    ensures Inv(Grant(h, i, args.candidateId),
                Put(c, i, c.hosts[i].(raft := c.hosts[i].raft.(votedFor := args.candidateId)),
                    {VoteResponse(args.candidateId, i, args, reply)}, {Voted(args.term, i, args.candidateId)}))
    ensures Evolves(h, Grant(h, i, args.candidateId))
  {
    hide Inv, Ok, LeadersOk, Complete, CommitsOk, FromLeaders, Evolves, HostOk, KnownOk, LeaderOk, Represents, VotesOk,
         IsAtLeastUpToDate, UpToDate;
    HostFacts(h, c, i);
    var x := c.hosts[i];
    HostParts(h, x, i);
    var d := args.candidateId;
    var k := Grant(h, i, d);
    var y := x.(raft := x.raft.(votedFor := d));
    VoterCompares(h, x.raft, h.logs[i], h.committed[i], args);
    GrantOk(h, i, d);
    GrantTouchesNoHost(h, i, d);
    VotesGranted(h, Ballots(c), i, d);
    assert BallotOf(y) == Ballots(c)[i].(votedFor := d);
    HostStable(h, k, x, i);
    HostBallot(k, x, y, i);
    Assemble(h, c, k, i, y, {VoteResponse(d, i, args, reply)}, {Voted(args.term, i, d)});
  }

  lemma GrantTouchesNoHost(h: History, p: nat, c: nat)
    requires |h.logs| == |h.terms| == |h.committed| && p < |h.terms|
    ensures Untouched(h, Grant(h, p, c), p) && OnlyHost(h, Grant(h, p, c), p)
  {
  }

  lemma NoChangeKeeps(h: History, c: Cluster, i: nat, sent: set<Message>)
    requires Inv(h, c) && i < |c.hosts|
    requires forall m :: m in sent ==> SaneMessage(|c.hosts|, m) && MessageOk(h, m)
    ensures Inv(h, Put(c, i, c.hosts[i], sent, {})) && Evolves(h, h)
  {
    hide *;
    HostFacts(h, c, i);
    SameHistory(h);
    SameBallot(c, i, c.hosts[i]);
    Assemble(h, c, h, i, c.hosts[i], sent, {});
  }

  lemma VoteRequestKeeps(h: History, c: Cluster, i: nat, args: VoteArgs) returns (k: History)
    requires Inv(h, c) && VoteRequest(i, args) in c.net
    ensures Inv(k, DoVoteRequest(c, i, args)) && Evolves(h, k)
  {
    hide Inv, Ok, LeadersOk, Complete, CommitsOk, VotesOk, HostOk, FromLeaders, Evolves;
    MessageFacts(h, c, VoteRequest(i, args));
    HostFacts(h, c, i);
    var x := c.hosts[i];
    var (s, reply) := RequestVote(x.raft, args);
    var sent := {VoteResponse(args.candidateId, i, args, reply)};
    var seen := if reply.granted then {Voted(args.term, i, args.candidateId)} else {};
    if args.term > x.raft.term {
      var y := Lowered(x, args.term);
      var d := Put(c, i, y, {}, {});
      var l := RaiseTerm(h, i, args.term);
      LowerKeeps(h, c, i, args.term);
      assert VoteRequestOk(l, args);
      k := VoteCastKeeps(l, d, i, args, reply);
      EvolvesOn(h, l, k);
      PutTwice(c, i, y, x.(raft := s), sent, seen);
    } else if args.term < x.raft.term {
      k := h;
      NoChangeKeeps(h, c, i, sent);
      assert x.(raft := s) == x;
    } else {
      k := VoteCastKeeps(h, c, i, args, reply);
    }
  }

  lemma VoteCastKeeps(h: History, c: Cluster, i: nat, args: VoteArgs, reply: VoteReply) returns (k: History)
    requires Inv(h, c) && i < |c.hosts| && args.candidateId < |c.hosts| && VoteRequestOk(h, args)
    requires c.hosts[i].raft.term == args.term && reply.granted == RequestVote(c.hosts[i].raft, args).1.granted
    ensures Inv(k, Put(c, i, c.hosts[i].(raft := RequestVote(c.hosts[i].raft, args).0),
                       {VoteResponse(args.candidateId, i, args, reply)},
                       if reply.granted then {Voted(args.term, i, args.candidateId)} else {}))
    ensures Evolves(h, k)
  {
    hide Inv, Evolves;
    HostFacts(h, c, i);
    var x := c.hosts[i];
    var s := RequestVote(x.raft, args).0;
    if reply.granted {
      GrantKeeps(h, c, i, args, reply);
      assert s == x.raft.(votedFor := args.candidateId);
      k := Grant(h, i, args.candidateId);
    } else {
      NoChangeKeeps(h, c, i, {VoteResponse(args.candidateId, i, args, reply)});
      assert x.(raft := s) == x;
      k := h;
    }
  }

  lemma VoteResponseKeeps(h: History, c: Cluster, i: nat, from: nat, args: VoteArgs, reply: VoteReply)
    returns (k: History)
    requires Inv(h, c) && VoteResponse(i, from, args, reply) in c.net
    ensures Inv(k, DoVoteResponse(c, i, from, args, reply)) && Evolves(h, k)
  {
    hide Inv, Ok, LeadersOk, Complete, CommitsOk, VotesOk, HostOk, FromLeaders, Evolves, OnlyHost;
    MessageFacts(h, c, VoteResponse(i, from, args, reply));
    HostFacts(h, c, i);
    SameHistory(h);
    var x := c.hosts[i];
    var s := x.raft;
    if from in x.granted {
      k := h;
    } else if s.role != Candidate || s.term != args.term {
      NoChangeKeeps(h, c, i, {});
      assert x.(raft := s, granted := x.granted) == x;
      k := h;
    } else if reply.term > s.term {
      LowerKeeps(h, c, i, reply.term);
      assert x.(raft := StepDown(s, reply.term), granted := x.granted) == Lowered(x, reply.term);
      k := RaiseTerm(h, i, reply.term);
    } else if !reply.granted {
      NoChangeKeeps(h, c, i, {});
      assert x.(raft := s, granted := x.granted) == x;
      k := h;
    } else {
      k := CountKeeps(h, c, i, from);
    }
  }

  /** A granted vote is counted, and a majority makes the candidate leader. */
  lemma CountKeeps(h: History, c: Cluster, i: nat, from: nat) returns (k: History)
    requires Inv(h, c) && i < |c.hosts| && c.hosts[i].raft.role == Candidate && (h.terms[i], from, i) in h.grants
    ensures var x := c.hosts[i];
            var votes := x.granted + {from};
            Inv(k, if |votes| >= Majority(|c.hosts|)
                   then Put(c, i, x.(raft := BecomeLeader(x.raft), granted := votes), {}, {Elected(x.raft.term, i)})
                   else Put(c, i, x.(granted := votes), {}, {}))
    ensures Evolves(h, k)
  {
    hide LeadersOk, AcksOk, ClaimsOk, GrantsOk, Complete, CommitsOk, Evolves, OnlyHost;
    SameHistory(h);
    var x := c.hosts[i];
    var votes := x.granted + {from};
    CountedKeeps(h, c, i, votes);
    k := h;
    if |votes| >= Majority(|c.hosts|) {
      var y := x.(granted := votes);
      k := ElectedKeeps(h, Put(c, i, y, {}, {}), i, votes);
      PutTwice(c, i, y, x.(raft := BecomeLeader(x.raft), granted := votes), {}, {Elected(x.raft.term, i)});
    }
  }

  lemma CountedKeeps(h: History, c: Cluster, i: nat, votes: set<nat>)
    requires Inv(h, c) && i < |c.hosts| && c.hosts[i].raft.role == Candidate
    requires i in votes && AllGranted(h, h.terms[i], i, votes)
    ensures Inv(h, Put(c, i, c.hosts[i].(granted := votes), {}, {}))
  {
    hide *;
    HostFacts(h, c, i);
    var y := c.hosts[i].(granted := votes);
    SameHistory(h);
    SameBallot(c, i, y);
    CountedHostOk(h, c.hosts[i], i, votes);
    Assemble(h, c, h, i, y, {}, {});
  }

  lemma CountedHostOk(h: History, x: Host, i: nat, votes: set<nat>)
    requires i < |h.terms| == |h.logs| == |h.committed| && HostOk(h, x, i) && x.raft.role == Candidate
    requires i in votes && AllGranted(h, h.terms[i], i, votes)
    ensures HostOk(h, x.(granted := votes), i)
  {
  }

  lemma VotersAreServers(h: History, t: nat, c: nat, votes: set<nat>)
    requires GrantsOk(h) && AllGranted(h, t, c, votes) && |votes| >= Majority(|h.terms|)
    ensures IsQuorum(|h.terms|, votes)
  {
  }

  lemma ElectedKeeps(h: History, c: Cluster, i: nat, votes: set<nat>) returns (k: History)
    requires Inv(h, c) && i < |c.hosts| && c.hosts[i].raft.role == Candidate && c.hosts[i].granted == votes
    requires |votes| >= Majority(|c.hosts|)
    ensures Inv(k, Put(c, i, c.hosts[i].(raft := BecomeLeader(c.hosts[i].raft)), {},
      {Elected(c.hosts[i].raft.term, i)}))
    ensures Evolves(h, k)
  {
    hide LeadersOk, AcksOk, ClaimsOk, GrantsOk, Complete, CommitsOk, Evolves;
    var x := c.hosts[i];
    var y := x.(raft := BecomeLeader(x.raft));
    var t := x.raft.term;
    k := Elect(h, i, votes);
    ElectionSucceeds(h, c, i, votes);
    ElectedOnlyHost(h, i, votes);
    NewLeaderOk(h, k, x, i, votes);
    ElectionSeen(h, c, i, votes);
    AssembleNew(h, c, k, i, y, {}, {Elected(t, i)});
  }

  lemma ElectionSucceeds(h: History, c: Cluster, i: nat, votes: set<nat>)
    requires Inv(h, c) && i < |c.hosts| && c.hosts[i].raft.role == Candidate && c.hosts[i].granted == votes
    requires |votes| >= Majority(|c.hosts|)
    ensures Ok(Elect(h, i, votes)) && Evolves(h, Elect(h, i, votes)) && Owns(Elect(h, i, votes), h.terms[i], i)
    ensures VotesOk(Elect(h, i, votes), Ballots(c)[i := Ballots(c)[i].(candidate := false)])
  {
    assert CandidateOk(h, c.hosts[i], i);
    VotersAreServers(h, h.terms[i], i, votes);
    assert Ballots(c)[i].candidate;
    NoEarlierLeader(h, Ballots(c), i, votes);
    ElectOk(h, i, votes);
    VotesElected(h, Ballots(c), i, votes);
  }

  lemma ElectedOnlyHost(h: History, i: nat, votes: set<nat>)
    requires |h.logs| == |h.terms| == |h.committed| && i < |h.terms|
    ensures OtherHosts(h, Elect(h, i, votes), i)
  {
  }

  lemma ElectionSeen(h: History, c: Cluster, i: nat, votes: set<nat>)
    requires Inv(h, c) && i < |c.hosts|
    ensures |h.logs| == |h.committed| == |c.hosts| == |h.terms|
    ensures LeadersSeen(Elect(h, i, votes), c.events + {Elected(c.hosts[i].raft.term, i)})
    ensures WholeOk(Elect(h, i, votes), c.events + {Elected(c.hosts[i].raft.term, i)}, i)
  {
    hide VotesOk, MessageOk, EventOk, LeadersOk, AcksOk, ClaimsOk, GrantsOk, Complete, CommitsOk;
    assert WholeOk(h, c.events, i);
    if HasInstalled(c.events, i) {
      var n, data :| Installed(i, n, data) in c.events;
      assert Installed(i, n, data) in c.events + {Elected(c.hosts[i].raft.term, i)};
    }
  }

  lemma NewLeaderOk(h: History, k: History, x: Host, i: nat, votes: set<nat>)
    requires i < |h.terms| == |h.logs| == |h.committed| && HostOk(h, x, i) && WellFormed(x.raft)
    requires FromLeaders(h, h.logs[i]) && k == Elect(h, i, votes) && Evolves(h, k)
    requires x.raft.me == i && x.raft.peers == |h.terms|
    ensures HostOk(k, x.(raft := BecomeLeader(x.raft)), i)
  {
    hide Evolves, InCommitted, MatchOk, Represents, SnapshotOk, FromLeaders;
    var t := x.raft.term;
    NewLeaderCounters(h, k, x.raft, i, votes, h.committed[i]);
    KnownStable(h, k, x.raft, h.logs[i], h.committed[i]);
    InstallsStable(h, k, t, t, x.installs);
  }

  lemma NewLeaderCounters(h: History, k: History, s: Server, i: nat, votes: set<nat>, known: Log)
    requires i < |h.terms| == |h.logs| && WellFormed(s) && s.me == i && s.peers == |h.terms| && s.term == h.terms[i]
    requires Represents(s.log, h.logs[i]) && FromLeaders(h, h.logs[i]) && KnownOk(h, s, h.logs[i], known)
    requires k == Elect(h, i, votes)
    ensures LeaderOk(k, BecomeLeader(s), i, k.logs[i])
  {
  }

  // ---------------------------------------------------------------- crash and restart

  lemma PrefixCommitted(h: History, t: nat, log: Log, n: nat)
    requires InCommitted(h, t, log) && n <= |log|
    ensures InCommitted(h, t, log[..n])
  {
  }

  lemma CrashKeeps(h: History, c: Cluster, i: nat) returns (k: History)
    requires Inv(h, c) && i < |c.hosts|
    ensures Inv(k, DoCrash(c, i)) && Evolves(h, k)
  {
    hide LeadersOk, AcksOk, ClaimsOk, GrantsOk, Complete, CommitsOk, Evolves;
    var x := c.hosts[i];
    var s := Restart(x.raft);
    var y := Host(s, {}, None, {}, s.snapshot);
    var base := x.raft.log[0].index;
    var known := h.committed[i][..base];
    k := Learn(h, i, known);
    LearnOk(h, i, known);
    LearnOnlyHost(h, i, known);
    VotesSame(h, k, Ballots(c));
    VotesDropCandidacy(k, Ballots(c), i);
    assert BallotOf(y) == Ballots(c)[i].(candidate := false);
    RestartedOk(h, k, x, y, i);
    Assemble(h, c, k, i, y, {}, {});
  }

  lemma LearnOnlyHost(h: History, i: nat, known: Log)
    requires |h.logs| == |h.terms| == |h.committed| && i < |h.terms|
    requires h.committed[i] <= h.logs[i] ==> known <= h.logs[i]
    ensures OnlyHost(h, Learn(h, i, known), i)
  {
  }

  lemma RestartedOk(h: History, k: History, x: Host, y: Host, i: nat)
    requires i < |h.terms| == |h.logs| == |h.committed| && HostOk(h, x, i) && WellFormed(x.raft)
    requires x.raft.me == i && x.raft.peers == |h.terms| && Evolves(h, k)
    requires k == Learn(h, i, h.committed[i][..x.raft.log[0].index])
    requires y == Host(Restart(x.raft), {}, None, {}, Restart(x.raft).snapshot)
    ensures HostOk(k, y, i)
  {
    var known := h.committed[i];
    var base := x.raft.log[0].index;
    PrefixCommitted(h, x.raft.term, known, base);
    InCommittedStable(h, k, x.raft.term, x.raft.term, known[..base]);
    assert Commands(known[..base]) == Commands(known)[..base];
    if Owns(k, y.raft.term, i) {
      forall p | 0 <= p < |h.terms|
        ensures MatchOk(k, y.raft.term, p, y.raft.matchIndex[p])
      {
      }
    }
  }
}
