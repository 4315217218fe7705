/**
 The suffix that a conditional installation of src/db_files/raft/raft.go may leave behind, and why it does no harm: the
 code keeps what follows the snapshot's index without comparing the terms there.
 */
module RaftSuffix {
  import opened RaftTypes
  import opened RaftServer
  import opened RaftCluster
  import opened RaftHistory
  import opened RaftProgress
  import opened RaftLogs
  import opened RaftInvariant
  import opened RaftReplication
  import opened RaftSnapshots
  import opened RaftSafety

  // ---------------------------------------------------------------- the suffix an installed snapshot leaves behind

  /** The server holds a suffix that does not belong to what it knows to be committed. */
  ghost predicate HoldsStranger(h: History, i: nat) {
    i < |h.logs| == |h.committed| && !(h.committed[i] <= h.logs[i])
  }

  /** A server that does not lead and has committed nothing above its foot. */
  ghost predicate Idle(s: Server) {
    s.role != Leader && s.log != [] && s.commitIndex == s.log[0].index
  }

  /** If the server accepts a request past its foot, what it then has there is exactly what was sent. */
  ghost predicate TakesWhatIsSent(s: Server, args: AppendArgs)
    requires WellFormed(s) && Follows(args)
  {
    Consistent(s.log, args) ==>
      && args.prevLogIndex <= s.log[0].index
      && (args.prevLogIndex + |args.entries| > s.log[0].index ==>
            MergedLog(s, args)[1..] == args.entries[s.log[0].index - args.prevLogIndex..])
  }

  /** A suffix kept across a snapshot it does not belong to is not led with, and nothing of it is committed. */
  lemma StrangerIsIdle(h: History, c: Cluster, i: nat)
    requires Inv(h, c) && i < |c.hosts| && HoldsStranger(h, i)
    ensures Idle(c.hosts[i].raft)
  {
    hide Inv, Ok, VotesOk, Complete, CommitsOk, LeadersOk, FromLeaders, InCommitted, Represents;
    HostFacts(h, c, i);
    HostParts(h, c.hosts[i], i);
    hide HostOk;
    var s := c.hosts[i].raft;
    if s.role == Leader {
      CoveredInLeader(h, s.term, h.committed[i]);
    }
  }

  /** Whatever request its server accepts next either ends at the snapshot or replaces it. */
  lemma KeptSuffixIsDead(h: History, c: Cluster, i: nat, args: AppendArgs)
    requires Inv(h, c) && i < |c.hosts| && HoldsStranger(h, i)
    requires Follows(args) && AppendOk(h, args) && args.term >= c.hosts[i].raft.term
    ensures WellFormed(c.hosts[i].raft) && TakesWhatIsSent(c.hosts[i].raft, args)
  {
    hide Inv, Ok, VotesOk, Complete, CommitsOk, LeadersOk, FromLeaders, InCommitted, MergedLog, Consistent;
    HostFacts(h, c, i);
    HostParts(h, c.hosts[i], i);
    hide HostOk;
    var s := c.hosts[i].raft;
    FootAgrees(h, s, h.logs[i], h.committed[i], args.term);
    if Consistent(s.log, args) {
      DeadSuffixGoes(h, s, h.logs[i], h.committed[i], args);
      assert Sent(h.leaderLog[args.term], args.prevLogIndex, args.entries, args.prevLogIndex + |args.entries|);
    }
  }

  lemma DeadSuffixGoes(h: History, s: Server, full: Log, known: Log, args: AppendArgs)
    requires LeadersOk(h) && FromLeaders(h, full) && AppendOk(h, args) && WellFormed(s) && Follows(args)
    requires Represents(s.log, full) && KnownOk(h, s, full, known) && known <= h.leaderLog[args.term]
    requires s.log[0].index >= 1 ==> s.log[0].term == h.leaderLog[args.term][s.log[0].index - 1].term
    requires Consistent(s.log, args) && !(known <= full)
    ensures var m := args.prevLogIndex + |args.entries|;
            && args.prevLogIndex <= s.log[0].index
            && (m > s.log[0].index ==> MergedLog(s, args)[1..] == h.leaderLog[args.term][s.log[0].index..m])
  {
    hide LeadersOk, Comparable, Merge, Consistent, InCommitted, Covered;
    var leader := h.leaderLog[args.term];
    LeaderLogs(h, args.term);
    LogsComparable(h, s.log, full, leader);
    CheckedFull(h, s, full, args);
    MatchedIsAlive(full, leader, known, args.prevLogIndex, s.log);
    if args.prevLogIndex + |args.entries| > s.log[0].index {
      MergedStands(s, full, leader, args);
      var m := args.prevLogIndex + |args.entries|;
      assert !(leader[..m] <= full) by {
        StoredIsAlive(full, leader, known, m);
      }
      assert leader[..m][s.log[0].index..] == leader[s.log[0].index..m];
      assert MergedLog(s, args)[1..] == leader[..m][s.log[0].index..];
    }
  }

  lemma LeaderLogs(h: History, t: nat)
    requires LeadersOk(h) && t in h.leaderLog
    ensures FromLeaders(h, h.leaderLog[t])
  {
  }

  /** A log whose terms fall somewhere has been left so by an installation, and does not hold what is committed. */
  lemma FallingTerms(h: History, c: Cluster, i: nat)
    requires Inv(h, c) && i < |c.hosts| == |h.logs| && |h.committed| == |h.logs| && !Sorted(c.hosts[i].raft.log)
    ensures !(h.committed[i] <= h.logs[i])
  {
    hide Inv, Ok, VotesOk, Complete, CommitsOk, LeadersOk, FromLeaders, Represents;
    HostFacts(h, c, i);
    HostParts(h, c.hosts[i], i);
    hide HostOk, LeaderOk, InCommitted;
    if h.committed[i] <= h.logs[i] {
      TermsSorted(h, h.logs[i]);
      FollowsFull(c.hosts[i].raft.log, h.logs[i], h.committed[i]);
    }
  }

  lemma FollowsFull(log: Log, full: Log, known: Log)
    requires Represents(log, full) && Sorted(full) && known <= full && log[0].index <= |known|
    requires log[0].term == (if log[0].index == 0 then 0 else known[log[0].index - 1].term)
    ensures Sorted(log)
  {
    forall i, j | 0 <= i <= j < |log|
      ensures log[i].term <= log[j].term
    {
      if j > 0 {
        AtFull(log, full, log[0].index + j);
      }
      if i > 0 {
        AtFull(log, full, log[0].index + i);
      }
    }
  }

  /** In every run a server along whose log the terms fall does not lead, and has committed nothing above its foot. */
  lemma FallingIsIdle(n: nat, steps: seq<Step>, i: nat)
    requires Run(n, steps).Running? && i < n && !Sorted(Run(n, steps).cluster.hosts[i].raft.log)
    ensures Idle(Run(n, steps).cluster.hosts[i].raft)
  {
    hide Inv, Ok, VotesOk, HostOk, Complete, CommitsOk, LeadersOk, FromLeaders, Run, Sorted, Idle;
    var h := RunKeeps(n, steps);
    HostFacts(h, Run(n, steps).cluster, i);
    FallingTerms(h, Run(n, steps).cluster, i);
    StrangerIsIdle(h, Run(n, steps).cluster, i);
  }

  /** And it takes from any request it accepts exactly what was sent. */
  lemma KeptSuffixOfRun(n: nat, steps: seq<Step>, i: nat, args: AppendArgs)
    requires Run(n, steps).Running? && AppendRequest(i, args) in Run(n, steps).cluster.net && i < n
    requires var s := Run(n, steps).cluster.hosts[i].raft; !Sorted(s.log) && args.term >= s.term
    ensures var s := Run(n, steps).cluster.hosts[i].raft;
            WellFormed(s) && Follows(args) && TakesWhatIsSent(s, args)
  {
    hide Inv, Ok, VotesOk, HostOk, Complete, CommitsOk, LeadersOk, FromLeaders, Run, Sorted, TakesWhatIsSent;
    var h := RunKeeps(n, steps);
    var c := Run(n, steps).cluster;
    HostFacts(h, c, i);
    MessageFacts(h, c, AppendRequest(i, args));
    FallingTerms(h, c, i);
    KeptSuffixIsDead(h, c, i, args);
  }

  /** Had the previous entry matched above the foot, the suffix would belong to the committed prefix. */
  lemma MatchedIsAlive(full: Log, leader: Log, known: Log, prev: nat, log: Log)
    requires Comparable(log, full, leader) && Checked(log, full, leader, prev) && known <= leader && !(known <= full)
    requires |known| == log[0].index
    ensures prev <= log[0].index
  {
  }

  lemma StoredIsAlive(full: Log, leader: Log, known: Log, m: nat)
    requires m <= |leader| && |known| <= m && known <= leader && !(known <= full)
    ensures !(leader[..m] <= full)
  {
  }

  /**
   Installing a snapshot keeps the terms of a log rising exactly when nothing is left behind it or that begins with
   no lower term.
   */
  lemma InstallKeepsSorted(s: Server, term: nat, index: nat, data: seq<Command>)
    requires WellFormed(s) && Sorted(s.log) && index >= s.commitIndex && index >= s.log[0].index
    ensures CondInstallSnapshot(s, term, index, data).Some?
    ensures Sorted(CondInstallSnapshot(s, term, index, data).value.0.log) <==>
            index >= Tail(s.log).index || term <= s.log[index - s.log[0].index + 1].term
  {
    var r := CondInstallSnapshot(s, term, index, data).value.0;
    if index < Tail(s.log).index {
      var p := index - s.log[0].index;
      assert forall j :: 1 <= j < |r.log| ==> r.log[j] == s.log[p + j];
      assert r.log[0].term == term && r.log[1] == s.log[p + 1];
    }
  }

  // ---------------------------------------------------------------- from an installation on

  /** What follows the snapshot's index in the log the server had, if its entry there is of another term. */
  ghost predicate Strange(s: Server, a: SnapshotArgs) {
    && Contiguous(s.log)
    && s.commitIndex <= a.lastIncludedIndex < Tail(s.log).index
    && At(s.log, a.lastIncludedIndex).Some? && At(s.log, a.lastIncludedIndex).value.term != a.lastIncludedTerm
  }

  /** Term of the first entry that a server keeps behind the snapshot. */
  ghost function KeptTerm(s: Server, a: SnapshotArgs): nat
    requires Strange(s, a)
  {
    s.log[a.lastIncludedIndex + 1 - s.log[0].index].term
  }

  lemma StrangeFull(h: History, s: Server, full: Log, known: Log, a: SnapshotArgs)
    requires WellFormed(s) && Represents(s.log, full) && FromLeaders(h, full) && KnownOk(h, s, full, known)
    requires s.log[0].index < a.lastIncludedIndex && s.commitIndex <= a.lastIncludedIndex
    ensures Strange(s, a) <==>
      a.lastIncludedIndex < |full| && full[a.lastIncludedIndex - 1].term != a.lastIncludedTerm
    ensures Strange(s, a) ==> KeptTerm(s, a) == full[a.lastIncludedIndex].term
  {
    RepresentsContiguous(s.log, full);
    hide KnownOk, FromLeaders, Represents;
    if a.lastIncludedIndex < |full| {
      AtFull(s.log, full, a.lastIncludedIndex);
      AtFull(s.log, full, a.lastIncludedIndex + 1);
    }
  }

  /** A committed prefix is in a log as soon as its last entry has the term of the log's entry there. */
  lemma CommittedInLog(h: History, t: nat, log: Log, full: Log)
    requires LeadersOk(h) && FromLeaders(h, full) && InCommitted(h, t, log) && 1 <= |log| <= |full|
    ensures log <= full <==> full[|log| - 1].term == log[|log| - 1].term
  {
    CommittedLogWellFormed(h, t, log);
    hide LeadersOk, FromLeaders, InCommitted;
    if full[|log| - 1].term == log[|log| - 1].term {
      LogsMatch(h, full, log, |log| - 1);
      assert log == log[..|log| - 1 + 1];
    }
  }

  /**
   After an installation the suffix left behind does not belong to the snapshot if and only if the entry at the
   snapshot's index was of another term, or the snapshot repeats the one at the foot and it did not belong to that.
   */
  lemma StrangeExactly(h: History, x: Host, i: nat, log: Log, a: SnapshotArgs)
    requires i < |h.terms| == |h.logs| == |h.committed| && HostOk(h, x, i) && WellFormed(x.raft)
    requires LeadersOk(h) && Complete(h) && CommitsOk(h) && FromLeaders(h, h.logs[i])
    requires IsSnapshotOf(h, x.raft.term, a, log) && a.lastIncludedIndex >= x.raft.commitIndex
    ensures HoldsStranger(AfterInstall(h, i, log), i) <==>
      Strange(x.raft, a) || (a.lastIncludedIndex == x.raft.log[0].index && HoldsStranger(h, i))
  {
    hide *;
    HostParts(h, x, i);
    SnapshotFacts(h, x.raft.term, a, log);
    KnownFacts(h, x.raft, h.logs[i], h.committed[i]);
    AfterInstallStranger(h, i, log);
    StrangerBefore(h, i);
    if a.lastIncludedIndex > x.raft.log[0].index {
      StrangeFull(h, x.raft, h.logs[i], h.committed[i], a);
      if |log| < |h.logs[i]| {
        CommittedInLog(h, x.raft.term, log, h.logs[i]);
      }
    } else {
      SameFoot(h, x.raft, h.logs[i], h.committed[i], log, a);
    }
  }

  lemma SnapshotFacts(h: History, t: nat, a: SnapshotArgs, log: Log)
    requires IsSnapshotOf(h, t, a, log)
    ensures InCommitted(h, t, log) && |log| == a.lastIncludedIndex >= 1
    ensures log[|log| - 1].term == a.lastIncludedTerm
  {
  }

  lemma KnownFacts(h: History, s: Server, full: Log, known: Log)
    requires KnownOk(h, s, full, known)
    ensures s.log != [] && s.log[0].index <= s.commitIndex == |known| <= |full| && InCommitted(h, s.term, known)
    ensures s.log[0].index >= 1 ==> s.log[0].term == known[s.log[0].index - 1].term
    ensures |full| == s.log[0].index ==> full == known
  {
  }

  lemma AfterInstallStranger(h: History, i: nat, log: Log)
    requires i < |h.terms| == |h.logs| == |h.committed|
    ensures HoldsStranger(AfterInstall(h, i, log), i) <==> |log| < |h.logs[i]| && !(log <= h.logs[i])
  {
  }

  lemma StrangerBefore(h: History, i: nat)
    requires i < |h.logs| == |h.committed|
    ensures HoldsStranger(h, i) <==> !(h.committed[i] <= h.logs[i])
  {
  }

  /** A snapshot at the foot is the one that is there. */
  lemma SameFoot(h: History, s: Server, full: Log, known: Log, log: Log, a: SnapshotArgs)
    requires Complete(h) && CommitsOk(h) && InCommitted(h, s.term, log) && InCommitted(h, s.term, known)
    requires WellFormed(s) && KnownOk(h, s, full, known)
    requires |log| == a.lastIncludedIndex == s.log[0].index == |known| && |log| >= 1
    requires log[|log| - 1].term == a.lastIncludedTerm
    ensures log == known && !Strange(s, a)
  {
    CommittedChain(h, s.term, known, s.term, log);
    hide Complete, CommitsOk, InCommitted;
  }

  /** Step j of a run installs a snapshot at server i and leaves such a suffix behind it. */
  ghost predicate LeavesStranger(n: nat, steps: seq<Step>, j: nat, i: nat, a: SnapshotArgs) {
    && j < |steps| && i < n && steps[j] == InstallNow(i, a)
    && Run(n, steps[..j]).Running?
    && a in Run(n, steps[..j]).cluster.hosts[i].installs
    && Strange(Run(n, steps[..j]).cluster.hosts[i].raft, a)
  }

  /** At the end of the run the suffix is still there: the foot is, and behind it an entry of the term it began with. */
  ghost predicate StillThere(n: nat, steps: seq<Step>, j: nat, i: nat, a: SnapshotArgs)
    requires LeavesStranger(n, steps, j, i, a)
  {
    && Run(n, steps).Running?
    && var log := Run(n, steps).cluster.hosts[i].raft.log;
    && |log| > 1 && log[0].index == a.lastIncludedIndex
    && log[1].term == KeptTerm(Run(n, steps[..j]).cluster.hosts[i].raft, a)
  }

  /** It is there right after the installation. */
  lemma FirstThere(n: nat, steps: seq<Step>, j: nat, i: nat, a: SnapshotArgs)
    requires LeavesStranger(n, steps, j, i, a) && |steps| == j + 1
    ensures StillThere(n, steps, j, i, a)
  {
    var c := Run(n, steps[..j]).cluster;
    var s := c.hosts[i].raft;
    assert steps[..|steps| - 1] == steps[..j];
    assert s.log[a.lastIncludedIndex - s.log[0].index..][1..][0] == s.log[a.lastIncludedIndex + 1 - s.log[0].index];
  }

  /** The leader of the term in which the kept suffix began never had the snapshot's last entry. */
  lemma StrangerLater(g: History, h: History, i: nat, x: Host, y: Host, a: SnapshotArgs)
    requires i < |g.terms| == |g.logs| == |g.committed| && i < |h.terms| == |h.logs| == |h.committed|
    requires Evolves(g, h) && HostOk(g, x, i) && HostOk(h, y, i) && WellFormed(x.raft)
    requires LeadersOk(g) && Complete(g) && CommitsOk(g) && FromLeaders(g, g.logs[i])
    requires Complete(h) && CommitsOk(h) && FromLeaders(h, h.logs[i])
    requires a in x.installs && Strange(x.raft, a)
    requires |y.raft.log| > 1 && y.raft.log[0].index == a.lastIncludedIndex
    requires y.raft.log[1].term == KeptTerm(x.raft, a)
    ensures HoldsStranger(h, i)
  {
    hide *;
    HostParts(g, x, i);
    HostParts(h, y, i);
    KnownFacts(g, x.raft, g.logs[i], g.committed[i]);
    KnownFacts(h, y.raft, h.logs[i], h.committed[i]);
    var log := WaitingIsSnapshot(g, x, i, a);
    SnapshotFacts(g, x.raft.term, a, log);
    StrangeShape(x.raft, a);
    if a.lastIncludedIndex == x.raft.log[0].index {
      SameFoot(g, x.raft, g.logs[i], g.committed[i], log, a);
      assert false;
    }
    StrangeFull(g, x.raft, g.logs[i], g.committed[i], a);
    InCommittedStable(g, h, x.raft.term, x.raft.term, log);
    CommittedChain(h, x.raft.term, log, y.raft.term, h.committed[i]);
    SecondEntry(y.raft.log, h.logs[i]);
    LeaderBefore(g, h, g.logs[i], h.logs[i], a.lastIncludedIndex);
    StrangerBefore(h, i);
  }

  lemma StrangeShape(s: Server, a: SnapshotArgs)
    requires Strange(s, a)
    ensures s.log != [] && s.log[0].index <= a.lastIncludedIndex && s.commitIndex <= a.lastIncludedIndex
  {
  }

  lemma SecondEntry(log: Log, full: Log)
    requires Represents(log, full) && |log| > 1
    ensures log[0].index < |full| && full[log[0].index] == log[1]
  {
    AtFull(log, full, log[0].index + 1);
  }

  /** Two logs of servers, at two moments, whose entries after n are of one term have the same entry at n. */
  lemma LeaderBefore(g: History, h: History, a: Log, b: Log, n: nat)
    requires Evolves(g, h) && FromLeaders(g, a) && FromLeaders(h, b)
    requires 1 <= n < |a| && n < |b| && a[n].term == b[n].term
    ensures a[n - 1] == b[n - 1]
  {
    var t := a[n].term;
    assert a[..n + 1] <= g.leaderLog[t] <= h.leaderLog[t];
    assert b[..n + 1] <= h.leaderLog[t];
    assert a[..n + 1][n - 1] == h.leaderLog[t][n - 1] == b[..n + 1][n - 1];
  }

  lemma StrangerOfRun(n: nat, steps: seq<Step>, j: nat, i: nat, a: SnapshotArgs) returns (h: History)
    requires LeavesStranger(n, steps, j, i, a) && StillThere(n, steps, j, i, a)
    ensures Inv(h, Run(n, steps).cluster) && HoldsStranger(h, i)
  {
    hide Inv, Ok, VotesOk, HostOk, Complete, CommitsOk, LeadersOk, FromLeaders, Evolves, Run, Strange, HoldsStranger;
    var g;
    g, h := RunEvolves(n, steps, j);
    var c, d := Run(n, steps[..j]).cluster, Run(n, steps).cluster;
    HostFacts(g, c, i);
    HostFacts(h, d, i);
    StrangerLater(g, h, i, c.hosts[i], d.hosts[i], a);
  }

  /**
   In every run: after an installation that kept a suffix across another term, and for as long as the suffix is there,
   the server does not lead and has committed nothing of it.
   */
  lemma StrangerNeverLeads(n: nat, steps: seq<Step>, j: nat, i: nat, a: SnapshotArgs)
    requires LeavesStranger(n, steps, j, i, a) && StillThere(n, steps, j, i, a)
    ensures Idle(Run(n, steps).cluster.hosts[i].raft)
  {
    hide *;
    var h := StrangerOfRun(n, steps, j, i, a);
    StrangerPlace(n, steps, j, i, a);
    StrangerIsIdle(h, Run(n, steps).cluster, i);
  }

  /** And the first request past the foot that it accepts leaves it with exactly what was sent. */
  lemma StrangerReplaced(n: nat, steps: seq<Step>, j: nat, i: nat, a: SnapshotArgs, args: AppendArgs)
    requires LeavesStranger(n, steps, j, i, a) && StillThere(n, steps, j, i, a)
    requires AppendRequest(i, args) in Run(n, steps).cluster.net
    requires args.term >= Run(n, steps).cluster.hosts[i].raft.term
    ensures var s := Run(n, steps).cluster.hosts[i].raft;
            WellFormed(s) && Follows(args) && TakesWhatIsSent(s, args)
  {
    hide Inv, MessageOk, Run, LeavesStranger, StillThere, HoldsStranger, TakesWhatIsSent;
    var h := StrangerOfRun(n, steps, j, i, a);
    StrangerPlace(n, steps, j, i, a);
    RequestFacts(h, Run(n, steps).cluster, i, args);
    KeptSuffixIsDead(h, Run(n, steps).cluster, i, args);
  }

  lemma StrangerPlace(n: nat, steps: seq<Step>, j: nat, i: nat, a: SnapshotArgs)
    requires LeavesStranger(n, steps, j, i, a) && StillThere(n, steps, j, i, a)
    ensures Run(n, steps).Running? && i < n == |Run(n, steps).cluster.hosts|
  {
  }

  lemma RequestFacts(h: History, c: Cluster, i: nat, args: AppendArgs)
    requires Inv(h, c) && AppendRequest(i, args) in c.net
    ensures Follows(args) && AppendOk(h, args)
  {
    hide Inv;
    MessageFacts(h, c, AppendRequest(i, args));
  }
}
