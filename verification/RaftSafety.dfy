/** The safety theorems of src/db_files/raft/raft.go, over every run of a cluster. */
module RaftSafety {
  import opened Common
  import opened RaftTypes
  import opened RaftServer
  import opened RaftCluster
  import opened RaftHistory
  import opened RaftLogs
  import opened RaftInvariant
  import opened RaftVotes
  import opened RaftElections
  import opened RaftReplication
  import opened RaftAcks
  import opened RaftSnapshots

  // ---------------------------------------------------------------- every run keeps the invariant

  function NoHistory(n: nat): History {
    History(seq(n, _ => 0), seq(n, _ => []), map[], map[], map[], map[], map[], map[], {}, seq(n, _ => []))
  }

  lemma BootKeeps(n: nat)
    ensures Inv(NoHistory(n), Boot(n))
  {
    var h := NoHistory(n);
    var c := Boot(n);
    forall i | 0 <= i < n
      ensures HostOk(h, c.hosts[i], i)
    {
      assert c.hosts[i] == Host0(i, n);
      assert Commands([])[..0] == [];
    }
  }

  lemma ReceiveKeeps(h: History, c: Cluster, m: Message) returns (k: History)
    requires Inv(h, c) && m in c.net
    ensures DoReceive(c, m).Running? && Inv(k, DoReceive(c, m).cluster) && Evolves(h, k)
  {
    hide Inv, Evolves;
    match m
    case VoteRequest(to, args) => k := VoteRequestKeeps(h, c, to, args);
    case VoteResponse(to, from, args, reply) => k := VoteResponseKeeps(h, c, to, from, args, reply);
    case AppendRequest(to, args) => k := AppendRequestKeeps(h, c, to, args);
    case AppendResponse(to, from, args, reply) => k := AppendResponseKeeps(h, c, to, from, args, reply);
    case SnapshotRequest(to, args) => k := SnapshotRequestKeeps(h, c, to, args);
    case SnapshotResponse(to, from, args, term) => k := SnapshotResponseKeeps(h, c, to, from, args, term);
  }

  lemma StepKeeps(h: History, c: Cluster, step: Step) returns (k: History)
    requires Inv(h, c)
    ensures Take(c, step).Running? && Inv(k, Take(c, step).cluster) && Evolves(h, k)
  {
    hide Inv, Evolves, OnlyHost, Ok, DoReceive, DoTimeout, DoSendTo, DoSubmit, DoPull, DoDeliver, DoTakeSnapshot,
         DoInstallNow, DoCrash;
    k := h;
    InvOk(h, c);
    SameHistory(h);
    if step.Receive? {
      if step.m in c.net {
        k := ReceiveKeeps(h, c, step.m);
      }
    } else if step.i < |c.hosts| {
      match step
      case Timeout(i) => k := TimeoutKeeps(h, c, i);
      case SendTo(i, peer) => SendKeeps(h, c, i, peer);
      case Submit(i, command) => k := SubmitKeeps(h, c, i, command);
      case Pull(i) => PullKeeps(h, c, i);
      case Deliver(i) => DeliverKeeps(h, c, i);
      case TakeSnapshot(i) => TakeSnapshotKeeps(h, c, i);
      case InstallNow(i, a) => k := InstallNowKeeps(h, c, i, a);
      case Crash(i) => k := CrashKeeps(h, c, i);
    }
  }

  lemma InvOk(h: History, c: Cluster)
    requires Inv(h, c)
    ensures Ok(h)
  {
  }

  lemma {:induction false} RunKeeps(n: nat, steps: seq<Step>) returns (h: History)
    ensures Run(n, steps).Running? && Inv(h, Run(n, steps).cluster)
  {
    hide Inv;
    if steps == [] {
      BootKeeps(n);
      h := NoHistory(n);
    } else {
      h := RunKeeps(n, steps[..|steps| - 1]);
      h := StepKeeps(h, Run(n, steps[..|steps| - 1]).cluster, steps[|steps| - 1]);
    }
  }

  /** The history at an earlier moment of a run, and one that has grown from it at the end. */
  lemma {:induction false} RunEvolves(n: nat, steps: seq<Step>, j: nat) returns (g: History, h: History)
    requires j <= |steps|
    ensures Run(n, steps[..j]).Running? && Inv(g, Run(n, steps[..j]).cluster)
    ensures Run(n, steps).Running? && Inv(h, Run(n, steps).cluster) && Evolves(g, h)
    decreases |steps|
  {
    hide Inv, Evolves, OnlyHost, Ok, Take;
    if j == |steps| {
      assert steps[..j] == steps;
      g := RunKeeps(n, steps);
      h := g;
      InvOk(h, Run(n, steps).cluster);
      SameHistory(h);
    } else {
      var last := |steps| - 1;
      g, h := RunEvolves(n, steps[..last], j);
      assert steps[..last][..j] == steps[..j];
      var k := StepKeeps(h, Run(n, steps[..last]).cluster, steps[last]);
      EvolvesOn(g, h, k);
      h := k;
    }
  }

  // ---------------------------------------------------------------- what the invariant says

  lemma EventFacts(h: History, c: Cluster, e: Event)
    requires Inv(h, c) && e in c.events
    ensures EventOk(h, e) && LeadersOk(h) && Complete(h) && CommitsOk(h)
  {
  }

  // ---------------------------------------------------------------- theorems

  /** No run reaches a panic, a nil dereference or a slice out of range. */
  lemma NeverPanics(n: nat, steps: seq<Step>)
    ensures Run(n, steps).Running?
  {
    var h := RunKeeps(n, steps);
  }

  /** Election safety: over a whole run, no term ever has two leaders. */
  lemma ElectionSafety(n: nat, steps: seq<Step>, t: nat, a: nat, b: nat)
    requires Run(n, steps).Running?
    requires Elected(t, a) in Run(n, steps).cluster.events && Elected(t, b) in Run(n, steps).cluster.events
    ensures a == b
  {
    hide Inv, Complete, CommitsOk;
    var h := RunKeeps(n, steps);
    EventFacts(h, Run(n, steps).cluster, Elected(t, a));
    EventFacts(h, Run(n, steps).cluster, Elected(t, b));
  }

  /** Whoever believes to lead a term is the one leader of it. */
  lemma OneLeader(n: nat, steps: seq<Step>, a: nat, b: nat)
    requires Run(n, steps).Running? && a < n && b < n
    requires var c := Run(n, steps).cluster;
             c.hosts[a].raft.role == Leader && c.hosts[b].raft.role == Leader
               && c.hosts[a].raft.term == c.hosts[b].raft.term
    ensures a == b
  {
    hide Inv, Complete, CommitsOk, LeadersOk;
    var h := RunKeeps(n, steps);
    HostFacts(h, Run(n, steps).cluster, a);
    HostFacts(h, Run(n, steps).cluster, b);
  }

  /**
   One vote per server and term fails, but only so: of two votes of one server for different candidates in one term
   one is for itself, and some other server has been elected in that term.
   */
  lemma TwoVotesNeedLeader(n: nat, steps: seq<Step>, t: nat, p: nat, a: nat, b: nat)
    requires Run(n, steps).Running? && a != b
    requires Voted(t, p, a) in Run(n, steps).cluster.events && Voted(t, p, b) in Run(n, steps).cluster.events
    ensures p == a || p == b
    ensures exists l :: l != p && Elected(t, l) in Run(n, steps).cluster.events
  {
    hide *;
    var h := RunKeeps(n, steps);
    var c := Run(n, steps).cluster;
    VoteFacts(h, c, t, p, a);
    VoteFacts(h, c, t, p, b);
    TwoGrants(h, Ballots(c), t, p, a, b);
    LeaderWasSeen(h, c, t);
  }

  lemma VoteFacts(h: History, c: Cluster, t: nat, p: nat, a: nat)
    requires Inv(h, c) && Voted(t, p, a) in c.events
    ensures LeadersOk(h) && VotesOk(h, Ballots(c)) && (t, p, a) in h.grants
  {
    hide VotesOk, HostOk, LeadersOk;
    assert EventOk(h, Voted(t, p, a));
  }

  lemma LeaderWasSeen(h: History, c: Cluster, t: nat)
    requires Inv(h, c) && t in h.leaderLog && t in h.owner
    ensures Elected(t, h.owner[t]) in c.events
  {
    hide VotesOk, HostOk, Ok;
  }

  /**
   Leader completeness: an entry a leader has committed at any time of a run is in the log, or in the snapshot, of
   every server at every moment at which it leads a later term, be that before or after the commit was noticed.
   */
  lemma LeaderCompleteness(n: nat, steps: seq<Step>, j: nat, t: nat, index: nat, entry: Entry, b: nat)
    requires Run(n, steps).Running? && Committed(t, index, entry) in Run(n, steps).cluster.events
    requires j <= |steps| && b < n && Run(n, steps[..j]).Running?
    requires var s := Run(n, steps[..j]).cluster.hosts[b].raft; s.role == Leader && s.term > t
    ensures var s := Run(n, steps[..j]).cluster.hosts[b].raft;
            if index > s.log[0].index then At(s.log, index) == Some(entry)
            else 1 <= index <= |s.snapshot| && s.snapshot[index - 1] == entry.command
  {
    hide Inv, Evolves, Ok, Complete, CommitsOk, LeadersOk, FromLeaders, HostOk, EventOk, VotesOk, Run;
    var g, h := RunEvolves(n, steps, j);
    var c := Run(n, steps[..j]).cluster;
    HostFacts(g, c, b);
    EventFacts(h, Run(n, steps).cluster, Committed(t, index, entry));
    InvAcks(g, c);
    CompleteAt(g, h, c.hosts[b], b, t, index, entry);
  }

  lemma InvAcks(h: History, c: Cluster)
    requires Inv(h, c)
    ensures AcksOk(h)
  {
    hide VotesOk, HostOk, AcksOk;
  }

  lemma CompleteAt(g: History, h: History, x: Host, b: nat, t: nat, index: nat, entry: Entry)
    requires b < |g.terms| == |g.logs| == |g.committed| && HostOk(g, x, b)
    requires LeadersOk(g) && AcksOk(g) && Complete(g) && CommitsOk(g) && Complete(h) && CommitsOk(h) && Evolves(g, h)
    requires EventOk(h, Committed(t, index, entry)) && x.raft.role == Leader && x.raft.term > t
    ensures var s := x.raft;
            if index > s.log[0].index then At(s.log, index) == Some(entry)
            else 1 <= index <= |s.snapshot| && s.snapshot[index - 1] == entry.command
  {
    hide Complete, CommitsOk, LeadersOk, AcksOk, Evolves, CandidateOk, SnapshotOk, MatchOk, InCommitted;
    var s := x.raft;
    CoveredIsCommitted(h, t, index);
    HeldByLaterLeader(g, h, t, s.term, index);
    CoveredInLeader(g, s.term, g.committed[b]);
    if index > s.log[0].index {
      AtFull(s.log, g.logs[b], index);
    } else {
      assert g.committed[b][index - 1] == entry;
    }
  }

  /** Whatever is committed in a term before u, now or later, is in the log that the leader of u has now. */
  lemma HeldByLaterLeader(g: History, h: History, t: nat, u: nat, n: nat)
    requires LeadersOk(g) && AcksOk(g) && Complete(g) && CommitsOk(h) && Evolves(g, h) && u in g.leaderLog && t < u
    requires t in h.leaderLog && 1 <= n <= |h.leaderLog[t]| && InCommitted(h, t, h.leaderLog[t][..n])
    ensures n <= |g.leaderLog[u]| && g.leaderLog[u][n - 1] == h.leaderLog[t][n - 1]
  {
    var log := h.leaderLog[t][..n];
    var v, m :| (v, m) in h.commits && v <= t && OwnEntry(h, v, m) && log <= h.leaderLog[v][..m];
    assert Chosen(h, v, m);
    var q :| ChosenBy(h, v, m, q);
    hide Complete, CommitsOk;
    WrittenBefore(g, h, v, m, u, q);
    KeptByThen(g, h, v, m, u);
    PrefixOfPrefix(log, h.leaderLog[v][..m], g.leaderLog[u]);
    assert log[n - 1] == g.leaderLog[u][n - 1];
  }

  /** The entry was there when u got its leader: a server of both majorities has acknowledged nothing for v since. */
  lemma WrittenBefore(g: History, h: History, v: nat, m: nat, u: nat, q: set<nat>)
    requires LeadersOk(g) && AcksOk(g) && Evolves(g, h) && u in g.leaderLog && v < u && OwnEntry(h, v, m)
      && ChosenBy(h, v, m, q)
    ensures OwnEntry(g, v, m) && h.leaderLog[v][..m] == g.leaderLog[v][..m]
  {
    var p := QuorumsMeet(|g.terms|, q, g.quorum[u]);
    assert Ack(h, v, p) == Ack(g, v, p) >= m;
    assert (v, p) in g.acked;
    assert g.leaderLog[v] <= h.leaderLog[v];
  }

  lemma KeptByThen(g: History, h: History, v: nat, m: nat, u: nat)
    requires Complete(g) && Evolves(g, h) && u in g.leaderLog && v < u && OwnEntry(g, v, m) && Chosen(h, v, m)
    requires OwnEntry(h, v, m) && h.leaderLog[v][..m] == g.leaderLog[v][..m]
    ensures h.leaderLog[v][..m] <= g.leaderLog[u]
  {
    assert Safe(g, g.leaderLog[u], u);
    assert Keeps(g, g.leaderLog[u], v, m);
    hide Evolves, Complete, Chosen;
    if Never(g, v, m) {
      NeverStable(g, h, v, m);
      ChosenNotNever(h, v, m);
    }
  }

  /** What an observation says about the committed sequence of commands. */
  ghost predicate Says(e: Event, index: nat, command: Command) {
    match e
    case Delivered(_, entry) => entry.index == index && entry.command == command
    case Installed(_, n, data) => n == |data| && 1 <= index <= n && data[index - 1] == command
    case Voted(_, _, _) => false
    case Elected(_, _) => false
    case Submitted(_, _, _) => false
    case Committed(_, _, _) => false
  }

  /**
   State machine safety: over a whole run, with loss, reordering, crashes and snapshots, no two deliveries or
   installed snapshots, at whatever servers, ever put different commands at one index.
   */
  lemma StateMachineSafety(n: nat, steps: seq<Step>, e: Event, f: Event, index: nat, x: Command, y: Command)
    requires Run(n, steps).Running? && e in Run(n, steps).cluster.events && f in Run(n, steps).cluster.events
    requires Says(e, index, x) && Says(f, index, y)
    ensures x == y
  {
    hide *;
    var h := RunKeeps(n, steps);
    EventFacts(h, Run(n, steps).cluster, e);
    EventFacts(h, Run(n, steps).cluster, f);
    SayTheSame(h, e, f, index, x, y);
  }

  lemma SayTheSame(h: History, e: Event, f: Event, index: nat, x: Command, y: Command)
    requires Complete(h) && CommitsOk(h) && EventOk(h, e) && EventOk(h, f) && Says(e, index, x) && Says(f, index, y)
    ensures x == y
  {
    hide Complete, CommitsOk, InCommitted;
    var t, a :| WitnessedBy(h, e, t, a);
    var u, b :| WitnessedBy(h, f, u, b);
    if |a| <= |b| {
      CommittedChain(h, t, a, u, b);
    } else {
      CommittedChain(h, u, b, t, a);
    }
  }

  /**
   At any two moments of a run the services of two servers have executed the same commands, one of them perhaps
   fewer.
   */
  lemma ServicesAgree(n: nat, steps: seq<Step>, j: nat, a: nat, b: nat)
    requires j <= |steps| && Run(n, steps).Running? && Run(n, steps[..j]).Running? && a < n && b < n
    ensures var x, y := Run(n, steps[..j]).cluster.hosts[a].applied, Run(n, steps).cluster.hosts[b].applied;
      (|x| <= |y| ==> x <= y) && (|y| <= |x| ==> y <= x)
  {
    hide *;
    var g, h := RunEvolves(n, steps, j);
    var c, d := Run(n, steps[..j]).cluster, Run(n, steps).cluster;
    HostFacts(g, c, a);
    HostFacts(h, d, b);
    ExecutedCommitted(g, c.hosts[a], a);
    ExecutedCommitted(h, d.hosts[b], b);
    InCommittedStable(g, h, g.terms[a], g.terms[a], g.committed[a]);
    SameOrFewer(h, g.terms[a], g.committed[a], c.hosts[a].applied, h.terms[b], h.committed[b], d.hosts[b].applied);
  }

  lemma ExecutedCommitted(h: History, x: Host, i: nat)
    requires i < |h.terms| == |h.logs| == |h.committed| && HostOk(h, x, i)
    ensures InCommitted(h, h.terms[i], h.committed[i]) && x.applied <= Commands(h.committed[i])
  {
    hide LeaderOk, CandidateOk, SnapshotOk, Represents, InCommitted;
  }

  lemma SameOrFewer(h: History, t: nat, a: Log, x: seq<Command>, u: nat, b: Log, y: seq<Command>)
    requires Complete(h) && CommitsOk(h) && InCommitted(h, t, a) && InCommitted(h, u, b)
    requires x <= Commands(a) && y <= Commands(b)
    ensures (|x| <= |y| ==> x <= y) && (|y| <= |x| ==> y <= x)
  {
    hide Complete, CommitsOk, InCommitted;
    if |a| <= |b| {
      CommittedChain(h, t, a, u, b);
    } else {
      CommittedChain(h, u, b, t, a);
    }
  }

  /**
   The indices of every server stay in order; a leader's next indices stay within reach of its log, and it counts
   itself as far as its log goes.
   */
  lemma IndicesInOrder(n: nat, steps: seq<Step>, i: nat)
    requires Run(n, steps).Running? && i < n
    ensures var s := Run(n, steps).cluster.hosts[i].raft;
            && s.log[0].index <= s.lastApplied <= s.commitIndex <= Tail(s.log).index
            && |s.snapshot| == s.log[0].index
            && (s.role == Leader ==> forall p :: 0 <= p < n ==> 1 <= s.nextIndex[p] <= Tail(s.log).index + 1)
            && (s.role == Leader ==> s.matchIndex[i] == Tail(s.log).index)
  {
    hide Inv, Complete, CommitsOk, LeadersOk, FromLeaders, InCommitted;
    var h := RunKeeps(n, steps);
    var x := Run(n, steps).cluster.hosts[i];
    HostFacts(h, Run(n, steps).cluster, i);
    TailOfFull(h, x.raft, h.logs[i], h.committed[i]);
  }
}
