/** What ties the servers, messages and observations of a cluster to its history. */
module RaftInvariant {
  import opened RaftTypes
  import opened RaftServer
  import opened RaftCluster
  import opened RaftHistory
  import opened RaftProgress
  import opened RaftLogs

  // ---------------------------------------------------------------- one host

  /** base <= lastApplied <= commitIndex <= tail; everything up to commitIndex is committed. */
  ghost predicate KnownOk(h: History, s: Server, full: Log, known: Log) {
    && s.log != []
    && |known| == s.commitIndex && InCommitted(h, s.term, known)
    && s.log[0].index <= s.lastApplied <= s.commitIndex <= |full|
    && s.log[0].term == (if s.log[0].index == 0 then 0 else known[s.log[0].index - 1].term)
    && (s.commitIndex == s.log[0].index || known <= full)
    && (|full| == s.log[0].index ==> full == known)
  }

  /** m entries of the leader's log are stored at p, or committed anyway. */
  ghost predicate MatchOk(h: History, t: nat, p: nat, m: nat) {
    t in h.leaderLog && m <= |h.leaderLog[t]| && (m <= Ack(h, t, p) || Covered(h, t, m))
  }

  ghost predicate Owns(h: History, t: nat, i: nat) {
    t in h.leaderLog && t in h.owner && h.owner[t] == i
  }

  ghost predicate LeaderOk(h: History, s: Server, i: nat, full: Log) {
    && |s.matchIndex| == |h.terms| && |s.nextIndex| == |h.terms|
    && (Owns(h, s.term, i) ==>
          h.leaderLog[s.term] == full && forall p :: 0 <= p < |h.terms| ==> MatchOk(h, s.term, p, s.matchIndex[p]))
    && (s.role == Leader ==>
          && Owns(h, s.term, i)
          && i < |s.matchIndex| && s.matchIndex[i] == |full|
          && forall p :: 0 <= p < |h.terms| ==> 1 <= s.nextIndex[p] <= |full| + 1)
  }

  ghost predicate CandidateOk(h: History, x: Host, i: nat)
    requires i < |h.terms| == |h.logs|
  {
    x.raft.role == Candidate ==>
      && h.terms[i] >= 1
      && StillClaims(h, i) && i in x.granted && AllGranted(h, h.terms[i], i, x.granted)
  }

  /** The service holds a prefix of what is known to be committed. */
  ghost predicate ServiceOk(x: Host, known: Log) {
    && x.raft.log != []
    && x.raft.log[0].index <= |x.applied| <= x.raft.lastApplied <= |known|
    && x.applied <= Commands(known)
    && x.raft.snapshot == Commands(known)[..x.raft.log[0].index]
    && (x.inflight.None? ==> |x.applied| == x.raft.lastApplied)
    && (x.inflight.Some? ==>
          var e := x.inflight.value;
          && 1 <= e.index <= |known| && e == known[e.index - 1]
          && (e.index <= |x.applied| == x.raft.lastApplied || e.index == |x.applied| + 1 == x.raft.lastApplied))
  }

  /** The snapshot stands for a committed prefix. */
  ghost predicate SnapshotOk(h: History, t: nat, a: SnapshotArgs) {
    exists log :: IsSnapshotOf(h, t, a, log)
  }

  ghost predicate IsSnapshotOf(h: History, t: nat, a: SnapshotArgs, log: Log) {
    && InCommitted(h, t, log) && |log| == a.lastIncludedIndex >= 1
    && log[|log| - 1].term == a.lastIncludedTerm && a.data == Commands(log)
  }

  ghost predicate HostOk(h: History, x: Host, i: nat)
    requires i < |h.terms| == |h.logs| == |h.committed|
  {
    && x.raft.term == h.terms[i]
    && Represents(x.raft.log, h.logs[i])
    && KnownOk(h, x.raft, h.logs[i], h.committed[i])
    && LeaderOk(h, x.raft, i, h.logs[i])
    && CandidateOk(h, x, i)
    && ServiceOk(x, h.committed[i])
    && (forall a :: a in x.installs ==> SnapshotOk(h, x.raft.term, a))
  }

  // ---------------------------------------------------------------- votes

  /** The part of a server's state that decides elections. */
  datatype Ballot = Ballot(votedFor: int, candidate: bool)

  function BallotOf(x: Host): Ballot {
    Ballot(x.raft.votedFor, x.raft.role == Candidate)
  }

  function Ballots(c: Cluster): (r: seq<Ballot>)
    ensures |r| == |c.hosts| && forall i :: 0 <= i < |r| ==> r[i] == BallotOf(c.hosts[i])
  {
    seq(|c.hosts|, i requires 0 <= i < |c.hosts| => BallotOf(c.hosts[i]))
  }

  /**
   A vote is given once in a term that has no leader yet, and kept by those who elected the leader of one that has.
   */
  ghost predicate VotesOk(h: History, b: seq<Ballot>) {
    && |b| == |h.terms|
    && (forall t, p, c :: (t, p, c) in h.grants && t !in h.leaderLog && p < |b| && h.terms[p] == t ==>
      b[p].votedFor == c)
    && (forall t, p, c, d :: (t, p, c) in h.grants && (t, p, d) in h.grants && t !in h.leaderLog ==> c == d)
    && (forall t, p, c :: (t, p, c) in h.grants && Elector(h, t, p) ==> c == h.owner[t])
    && (forall t: nat, p: nat :: Elector(h, t, p) && p < |b| && h.terms[p] == t ==> b[p] == Ballot(h.owner[t], false))
    && (forall p :: 0 <= p < |b| && b[p].candidate ==> b[p].votedFor == p)
    && OneForeignVote(h, b)
  }

  /** In one term a server votes for at most one other server, and then neither takes that back nor stands itself. */
  ghost predicate OneForeignVote(h: History, b: seq<Ballot>)
    requires |b| == |h.terms|
  {
    && (forall t, p, c :: (t, p, c) in h.grants && c != p && p < |b| && h.terms[p] == t ==> b[p] == Ballot(c, false))
    && (forall t, p, c, d :: (t, p, c) in h.grants && (t, p, d) in h.grants && c != p && d != p ==> c == d)
  }

  ghost predicate Elector(h: History, t: nat, p: nat) {
    t in h.leaderLog && t in h.owner && t in h.quorum && p in h.quorum[t]
  }

  // ---------------------------------------------------------------- messages and observations

  ghost predicate VoteRequestOk(h: History, a: VoteArgs) {
    var key := (a.term, a.candidateId);
    key in h.claims && a.lastLogIndex == |h.claims[key]| && a.lastLogTerm == LastTerm(h.claims[key])
  }

  /** An append request carries the leader's log from its previous index to its end. */
  ghost predicate AppendOk(h: History, a: AppendArgs) {
    && Owns(h, a.term, a.leaderId)
    && Sent(h.leaderLog[a.term], a.prevLogIndex, a.entries, a.prevLogIndex + |a.entries|)
    && (a.prevLogIndex > 0 ==> a.prevLogTerm == h.leaderLog[a.term][a.prevLogIndex - 1].term)
    && a.leaderCommit <= a.prevLogIndex + |a.entries|
    && Covered(h, a.term, a.leaderCommit)
  }

  /** A rejection points below the previous index, or to a term the rejecting log holds there. */
  ghost predicate RejectionOk(h: History, a: AppendArgs, r: AppendReply) {
    && a.prevLogIndex >= 1
    && (r.conflictingTerm == 0 ==> r.conflictingIndex < a.prevLogIndex)
    && (r.conflictingTerm > 0 ==>
          && r.conflictingIndex <= a.prevLogIndex
          && r.conflictingTerm != a.prevLogTerm
          && r.conflictingTerm in h.leaderLog
          && a.prevLogIndex <= |h.leaderLog[r.conflictingTerm]|
          && h.leaderLog[r.conflictingTerm][a.prevLogIndex - 1].term == r.conflictingTerm)
  }

  ghost predicate InstallOk(h: History, a: SnapshotArgs) {
    && Owns(h, a.term, a.leaderId)
    && a.lastIncludedIndex <= |h.leaderLog[a.term]|
    && SnapshotOk(h, a.term, a)
  }

  ghost predicate MessageOk(h: History, m: Message) {
    match m
    case VoteRequest(to, a) => to != a.candidateId && VoteRequestOk(h, a)
    case VoteResponse(to, from, a, r) => to == a.candidateId && (r.granted ==> (a.term, from, to) in h.grants)
    case AppendRequest(to, a) => to != a.leaderId && AppendOk(h, a)
    case AppendResponse(to, from, a, r) =>
      && to == a.leaderId && from != to && AppendOk(h, a)
      && (r.success && a.entries != [] ==> MatchOk(h, a.term, from, a.prevLogIndex + |a.entries|))
      && (!r.success && r.term <= a.term ==> RejectionOk(h, a, r))
    case SnapshotRequest(to, a) => to != a.leaderId && InstallOk(h, a)
    case SnapshotResponse(to, from, a, t) => to == a.leaderId && InstallOk(h, a)
  }

  ghost predicate WitnessedBy(h: History, e: Event, t: nat, log: Log) {
    && InCommitted(h, t, log)
    && match e
       case Delivered(_, entry) => 1 <= entry.index <= |log| && log[entry.index - 1] == entry
       case Installed(_, n, data) => n == |log| && data == Commands(log)
       case Voted(_, _, _) => true
       case Elected(_, _) => true
       case Submitted(_, _, _) => true
       case Committed(_, _, _) => true
  }

  ghost predicate EventOk(h: History, e: Event) {
    match e
    case Voted(t, p, c) => (t, p, c) in h.grants
    case Elected(t, i) => Owns(h, t, i)
    case Submitted(t, n, command) =>
      t in h.leaderLog && 1 <= n <= |h.leaderLog[t]| && h.leaderLog[t][n - 1] == Entry(t, n, command)
    case Committed(t, n, entry) =>
      t in h.leaderLog && 1 <= n <= |h.leaderLog[t]| && Covered(h, t, n) && h.leaderLog[t][n - 1] == entry
    case Delivered(_, _) => exists t, log :: WitnessedBy(h, e, t, log)
    case Installed(_, _, _) => exists t, log :: WitnessedBy(h, e, t, log)
  }

  /** Every leader's election has been observed. */
  ghost predicate LeadersSeen(h: History, events: set<Event>) {
    forall t :: t in h.leaderLog ==> t in h.owner && Elected(t, h.owner[t]) in events
  }

  ghost predicate HasInstalled(events: set<Event>, i: nat) {
    exists n, data :: Installed(i, n, data) in events
  }

  /** A server that has installed no snapshot has all it knows to be committed in its own log. */
  ghost predicate WholeOk(h: History, events: set<Event>, i: nat)
    requires i < |h.logs| == |h.committed|
  {
    h.committed[i] <= h.logs[i] || HasInstalled(events, i)
  }

  // ---------------------------------------------------------------- the cluster

  ghost predicate Inv(h: History, c: Cluster) {
    && Ok(h) && Sane(c) && |c.hosts| == |h.terms|
    && VotesOk(h, Ballots(c))
    && (forall i :: 0 <= i < |c.hosts| ==> HostOk(h, c.hosts[i], i))
    && (forall m :: m in c.net ==> MessageOk(h, m))
    && (forall e :: e in c.events ==> EventOk(h, e))
    && LeadersSeen(h, c.events)
    && (forall i :: 0 <= i < |c.hosts| ==> WholeOk(h, c.events, i))
  }

  lemma HostFacts(h: History, c: Cluster, i: nat)
    requires Inv(h, c) && i < |c.hosts|
    ensures Sane(c) && |h.logs| == |h.terms| == |h.committed| == |c.hosts| && HostOk(h, c.hosts[i], i)
    ensures Ok(h) && FromLeaders(h, h.logs[i]) && LeadersOk(h) && Complete(h) && CommitsOk(h) && VotesOk(h, Ballots(c))
    ensures WellFormed(c.hosts[i].raft) && c.hosts[i].raft.me == i && c.hosts[i].raft.peers == |c.hosts|
    ensures c.hosts[i].raft.term == h.terms[i] && c.hosts[i].raft.log != []
  {
  }

  lemma MessageFacts(h: History, c: Cluster, m: Message)
    requires Inv(h, c) && m in c.net
    ensures MessageOk(h, m) && SaneMessage(|c.hosts|, m)
  {
  }

  lemma HostParts(h: History, x: Host, i: nat)
    requires i < |h.terms| == |h.logs| == |h.committed| && HostOk(h, x, i)
    ensures x.raft.term == h.terms[i] && x.raft.log != []
    ensures Represents(x.raft.log, h.logs[i]) && KnownOk(h, x.raft, h.logs[i], h.committed[i])
      && LeaderOk(h, x.raft, i, h.logs[i])
  {
    hide KnownOk, LeaderOk, CandidateOk, ServiceOk, SnapshotOk;
  }

  lemma SameBallot(c: Cluster, i: nat, y: Host)
    requires i < |c.hosts| && y.raft.votedFor == c.hosts[i].raft.votedFor
    requires (y.raft.role == Candidate) == (c.hosts[i].raft.role == Candidate)
    ensures Ballots(c)[i := BallotOf(y)] == Ballots(c)
  {
  }

  // ---------------------------------------------------------------- stability

  lemma MatchStable(h: History, k: History, t: nat, p: nat, m: nat)
    requires Evolves(h, k) && MatchOk(h, t, p, m)
    ensures MatchOk(k, t, p, m)
  {
  }

  lemma SnapshotStable(h: History, k: History, t: nat, u: nat, a: SnapshotArgs)
    requires Evolves(h, k) && SnapshotOk(h, t, a) && t <= u
    ensures SnapshotOk(k, u, a)
  {
    var log :| IsSnapshotOf(h, t, a, log);
    InCommittedStable(h, k, t, u, log);
    assert IsSnapshotOf(k, u, a, log);
  }

  lemma InstallsStable(h: History, k: History, t: nat, u: nat, installs: set<SnapshotArgs>)
    requires Evolves(h, k) && t <= u && forall a :: a in installs ==> SnapshotOk(h, t, a)
    ensures forall a :: a in installs ==> SnapshotOk(k, u, a)
  {
    forall a | a in installs
      ensures SnapshotOk(k, u, a)
    {
      SnapshotStable(h, k, t, u, a);
    }
  }

  lemma AppendStable(h: History, k: History, a: AppendArgs)
    requires Evolves(h, k) && AppendOk(h, a)
    ensures AppendOk(k, a)
  {
  }

  lemma MessageStable(h: History, k: History, m: Message)
    requires Evolves(h, k) && MessageOk(h, m)
    ensures MessageOk(k, m)
  {
    match m
    case VoteRequest(to, a) =>
    case VoteResponse(to, from, a, r) =>
    case AppendRequest(to, a) =>
      AppendStable(h, k, a);
    case AppendResponse(to, from, a, r) =>
      AppendStable(h, k, a);
      if r.success && a.entries != [] {
        MatchStable(h, k, a.term, from, a.prevLogIndex + |a.entries|);
      }
    case SnapshotRequest(to, a) =>
      SnapshotStable(h, k, a.term, a.term, a);
    case SnapshotResponse(to, from, a, t) =>
      SnapshotStable(h, k, a.term, a.term, a);
  }

  lemma EventStable(h: History, k: History, e: Event)
    requires Evolves(h, k) && EventOk(h, e)
    ensures EventOk(k, e)
  {
    match e
    case Voted(_, _, _) =>
    case Elected(_, _) =>
    case Submitted(_, _, _) =>
    case Committed(t, n, entry) =>
      CoveredStable(h, k, t, t, n);
    case Delivered(_, _) =>
      var t, log :| WitnessedBy(h, e, t, log);
      InCommittedStable(h, k, t, t, log);
      assert WitnessedBy(k, e, t, log);
    case Installed(_, _, _) =>
      var t, log :| WitnessedBy(h, e, t, log);
      InCommittedStable(h, k, t, t, log);
      assert WitnessedBy(k, e, t, log);
  }

  /** The history of server i is untouched by a step of another. */
  ghost predicate Untouched(h: History, k: History, i: nat) {
    && i < |h.terms| == |h.logs| == |h.committed|
    && |k.terms| == |h.terms| && |k.logs| == |h.logs| && |k.committed| == |h.committed|
    && k.terms[i] == h.terms[i] && k.logs[i] == h.logs[i] && k.committed[i] == h.committed[i]
    && (Owns(k, h.terms[i], i) ==> Owns(h, h.terms[i], i) && k.leaderLog[h.terms[i]] == h.leaderLog[h.terms[i]])
  }

  lemma KnownStable(h: History, k: History, s: Server, full: Log, known: Log)
    requires Evolves(h, k) && KnownOk(h, s, full, known)
    ensures KnownOk(k, s, full, known)
  {
  }

  lemma LeaderStable(h: History, k: History, s: Server, i: nat, full: Log)
    requires Evolves(h, k) && LeaderOk(h, s, i, full)
    requires Owns(k, s.term, i) ==> Owns(h, s.term, i) && k.leaderLog[s.term] == h.leaderLog[s.term]
    ensures LeaderOk(k, s, i, full)
  {
  }

  lemma CandidateStable(h: History, k: History, x: Host, i: nat)
    requires Evolves(h, k) && Untouched(h, k, i) && CandidateOk(h, x, i)
    ensures CandidateOk(k, x, i)
  {
  }

  lemma HostStable(h: History, k: History, x: Host, i: nat)
    requires Evolves(h, k) && Untouched(h, k, i) && HostOk(h, x, i)
    ensures HostOk(k, x, i)
  {
    KnownStable(h, k, x.raft, h.logs[i], h.committed[i]);
    LeaderStable(h, k, x.raft, i, h.logs[i]);
    CandidateStable(h, k, x, i);
    InstallsStable(h, k, x.raft.term, x.raft.term, x.installs);
  }

  ghost predicate OtherHosts(h: History, k: History, i: nat) {
    forall j: nat :: j < |h.terms| && j != i ==> Untouched(h, k, j)
  }

  ghost predicate NoNewLeader(h: History, k: History) {
    forall t :: t in k.leaderLog ==> t in h.leaderLog
  }

  ghost predicate StaysWhole(h: History, k: History, i: nat) {
    && i < |h.logs| == |h.committed| == |k.logs| == |k.committed|
    && (h.committed[i] <= h.logs[i] ==> k.committed[i] <= k.logs[i])
  }

  /** Nothing but the history of host i has changed, and not by an election or an installation. */
  ghost predicate OnlyHost(h: History, k: History, i: nat) {
    OtherHosts(h, k, i) && NoNewLeader(h, k) && StaysWhole(h, k, i)
  }

  /** A step of host i keeps the invariant when what it changed, sent and showed is in order. */
  lemma Assemble(h: History, c: Cluster, k: History, i: nat, x: Host, sent: set<Message>, seen: set<Event>)
    requires Inv(h, c) && Ok(k) && Evolves(h, k) && OnlyHost(h, k, i) && i < |c.hosts|
    requires WellFormed(x.raft) && x.raft.me == i && x.raft.peers == |c.hosts|
    requires HostOk(k, x, i) && VotesOk(k, Ballots(c)[i := BallotOf(x)])
    requires forall m :: m in sent ==> SaneMessage(|c.hosts|, m) && MessageOk(k, m)
    requires forall e :: e in seen ==> EventOk(k, e)
    ensures Inv(k, Put(c, i, x, sent, seen))
  {
    hide HostOk, VotesOk, MessageOk, EventOk, Evolves, OtherHosts, Sane;
    QuietEvents(h, c, k, i, seen);
    AssembleNew(h, c, k, i, x, sent, seen);
  }

  lemma QuietEvents(h: History, c: Cluster, k: History, i: nat, seen: set<Event>)
    requires Inv(h, c) && Evolves(h, k) && NoNewLeader(h, k) && StaysWhole(h, k, i) && i < |c.hosts|
    ensures LeadersSeen(k, c.events + seen) && WholeOk(k, c.events + seen, i)
  {
    hide HostOk, VotesOk, MessageOk, EventOk, Ok;
    if !(h.committed[i] <= h.logs[i]) {
      assert WholeOk(h, c.events, i);
      var n, data :| Installed(i, n, data) in c.events;
      assert Installed(i, n, data) in c.events + seen;
    }
  }

  /** The same for a step that may show an election or an installation. */
  lemma AssembleNew(h: History, c: Cluster, k: History, i: nat, x: Host, sent: set<Message>, seen: set<Event>)
    requires Inv(h, c) && Ok(k) && Evolves(h, k) && OtherHosts(h, k, i) && i < |c.hosts|
    requires WellFormed(x.raft) && x.raft.me == i && x.raft.peers == |c.hosts|
    requires HostOk(k, x, i) && VotesOk(k, Ballots(c)[i := BallotOf(x)])
    requires forall m :: m in sent ==> SaneMessage(|c.hosts|, m) && MessageOk(k, m)
    requires forall e :: e in seen ==> EventOk(k, e)
    requires LeadersSeen(k, c.events + seen) && |k.logs| == |k.committed| == |c.hosts| && WholeOk(k, c.events + seen, i)
    ensures Inv(k, Put(c, i, x, sent, seen))
  {
    hide Evolves;
    var d := Put(c, i, x, sent, seen);
    assert Ballots(d) == Ballots(c)[i := BallotOf(x)];
    forall j | 0 <= j < |d.hosts|
      ensures HostOk(k, d.hosts[j], j) && WholeOk(k, d.events, j)
    {
      if j != i {
        assert Untouched(h, k, j);
        HostStable(h, k, c.hosts[j], j);
        OthersWhole(h, k, c.events, seen, j);
      }
    }
    forall m | m in d.net
      ensures MessageOk(k, m)
    {
      if m in c.net {
        MessageStable(h, k, m);
      }
    }
    forall e | e in d.events
      ensures EventOk(k, e)
    {
      if e in c.events {
        EventStable(h, k, e);
      }
    }
  }

  lemma OthersWhole(h: History, k: History, events: set<Event>, seen: set<Event>, j: nat)
    requires Untouched(h, k, j) && WholeOk(h, events, j)
    ensures WholeOk(k, events + seen, j)
  {
    if HasInstalled(events, j) {
      var n, data :| Installed(j, n, data) in events;
      assert Installed(j, n, data) in events + seen;
    }
  }

  /** A step that leaves the history alone. */
  lemma SameHistory(h: History)
    requires Ok(h)
    ensures Evolves(h, h) && forall i: nat :: i < |h.terms| ==> OnlyHost(h, h, i)
  {
    hide LeadersOk, AcksOk, ClaimsOk, GrantsOk, Complete, CommitsOk;
  }

  lemma EvolvesOn(h: History, k: History, l: History)
    requires Evolves(h, k) && Evolves(k, l)
    ensures Evolves(h, l)
  {
    forall t | t in h.leaderLog
      ensures t in l.leaderLog && h.leaderLog[t] <= l.leaderLog[t]
    {
      PrefixOfPrefix(h.leaderLog[t], k.leaderLog[t], l.leaderLog[t]);
    }
    forall t, p | 0 <= p < |h.terms| && t < h.terms[p]
      ensures Ack(l, t, p) == Ack(h, t, p)
    {
      assert Ack(k, t, p) == Ack(h, t, p);
    }
    forall t, p
      ensures Ack(h, t, p) <= Ack(l, t, p)
    {
      assert Ack(h, t, p) <= Ack(k, t, p);
    }
  }
}
