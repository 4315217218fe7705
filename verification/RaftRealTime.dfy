/** The order of the log and the order of time: what was delivered before a command was submitted lies before it. */
module RaftRealTime {
  import opened RaftTypes
  import opened RaftServer
  import opened RaftCluster
  import opened RaftHistory
  import opened RaftProgress
  import opened RaftInvariant
  import opened RaftElections
  import opened RaftSafety

  /** Once observed, observed for good. */
  lemma {:induction false} EventsGrow(n: nat, steps: seq<Step>, j: nat)
    requires j <= |steps| && Run(n, steps).Running? && Run(n, steps[..j]).Running?
    ensures Run(n, steps[..j]).cluster.events <= Run(n, steps).cluster.events
    decreases |steps|
  {
    if j == |steps| {
      assert steps[..j] == steps;
    } else {
      var rest := steps[..|steps| - 1];
      assert rest[..j] == steps[..j];
      EventsGrow(n, rest, j);
      StepAddsEvents(Run(n, rest).cluster, steps[|steps| - 1]);
    }
  }

  lemma StepAddsEvents(c: Cluster, step: Step)
    requires Sane(c) && Take(c, step).Running?
    ensures c.events <= Take(c, step).cluster.events
  {
    hide RequestVote, VoteReplied, AppendEntries, AppendReplied, CommittedNow, InstallSnapshot, SnapshotReplied,
         Replicate,
         Compact, Start, StartElection, ApplyNext, CondInstallSnapshot, Restart, WellFormed, Sane;
  }

  /** Step j of the run submits a command to server i, which leads and gives it this entry. */
  ghost predicate SubmittedAt(n: nat, steps: seq<Step>, j: nat, i: nat, entry: Entry) {
    && j < |steps| && i < n && steps[j] == Submit(i, entry.command)
    && Run(n, steps[..j]).Running?
    && var s := Run(n, steps[..j]).cluster.hosts[i].raft;
    && s.role == Leader && s.log != [] && entry.term == s.term && entry.index == Tail(s.log).index + 1
  }

  /** By then some server had handed the entry to its service. */
  ghost predicate DeliveredBy(n: nat, steps: seq<Step>, j: nat, entry: Entry) {
    && j <= |steps| && Run(n, steps[..j]).Running?
    && exists p :: Delivered(p, entry) in Run(n, steps[..j]).cluster.events
  }

  /**
   The log respects real time: if an entry had been delivered when another one that is delivered too was submitted,
   the first lies before the second in the log.
   */
  lemma RealTimeOrder(n: nat, steps: seq<Step>, j: nat, i: nat, first: Entry, second: Entry)
    requires Run(n, steps).Running? && SubmittedAt(n, steps, j, i, second)
    requires DeliveredBy(n, steps, j, first) && DeliveredBy(n, steps, |steps|, second)
    ensures first.index < second.index
  {
    hide Inv, Ok, HostOk, Evolves, Complete, CommitsOk, LeadersOk, FromLeaders, InCommitted, VotesOk, Run;
    assert steps[..|steps|] == steps;
    var g, h := RunEvolves(n, steps, j);
    var c, d := Run(n, steps[..j]).cluster, Run(n, steps).cluster;
    var p :| Delivered(p, first) in c.events;
    var q :| Delivered(q, second) in d.events;
    EventFacts(g, c, Delivered(p, first));
    EventFacts(h, d, Delivered(q, second));
    HostFacts(g, c, i);
    LeaderLength(g, c.hosts[i], i);
    CommittedEarlier(g, h, Delivered(p, first), Delivered(q, second));
  }

  lemma LeaderLength(h: History, x: Host, i: nat)
    requires i < |h.terms| == |h.logs| == |h.committed| && HostOk(h, x, i) && FromLeaders(h, h.logs[i])
    requires x.raft.role == Leader
    ensures x.raft.term in h.leaderLog && |h.leaderLog[x.raft.term]| == Tail(x.raft.log).index
  {
    HostParts(h, x, i);
    TailOfFull(h, x.raft, h.logs[i], h.committed[i]);
  }

  /** An entry that is ever committed, at an index that was committed before, was in the log of its leader then. */
  lemma CommittedEarlier(g: History, h: History, e: Event, f: Event)
    requires Evolves(g, h) && e.Delivered? && f.Delivered? && EventOk(g, e) && EventOk(h, f)
    requires LeadersOk(g) && Complete(h) && CommitsOk(h)
    ensures f.entry.index <= e.entry.index ==>
      f.entry.term in g.leaderLog && f.entry.index <= |g.leaderLog[f.entry.term]|
  {
    hide LeadersOk, Complete, CommitsOk, InCommitted, Evolves;
    var t, a :| WitnessedBy(g, e, t, a);
    var u, b :| WitnessedBy(h, f, u, b);
    if f.entry.index <= e.entry.index {
      InCommittedStable(g, h, t, t, a);
      if |a| <= |b| {
        CommittedChain(h, t, a, u, b);
      } else {
        CommittedChain(h, u, b, t, a);
      }
      assert a[f.entry.index - 1] == f.entry;
      CommittedLogWellFormed(g, t, a);
      assert |a[..f.entry.index - 1 + 1]| == f.entry.index;
    }
  }

  // ---------------------------------------------------------------- every submission has its moment

  lemma ReceivesSubmitNothing(c: Cluster, m: Message, t: nat, k: nat, command: Command)
    requires Sane(c) && m in c.net && DoReceive(c, m).Running?
    ensures Submitted(t, k, command) in DoReceive(c, m).cluster.events ==> Submitted(t, k, command) in c.events
  {
    hide RequestVote, VoteReplied, AppendEntries, AppendReplied, InstallSnapshot, SnapshotReplied, WellFormed, Sane;
  }

  lemma OthersSubmitNothing(c: Cluster, step: Step, t: nat, k: nat, command: Command)
    requires Sane(c) && !step.Receive? && !step.Submit? && Take(c, step).Running?
    ensures Submitted(t, k, command) in Take(c, step).cluster.events ==> Submitted(t, k, command) in c.events
  {
    hide Replicate, Compact, StartElection, ApplyNext, CondInstallSnapshot, Restart, WellFormed, Sane;
  }

  lemma NewSubmission(c: Cluster, step: Step, entry: Entry)
    requires Sane(c) && Take(c, step).Running?
    requires Submitted(entry.term, entry.index, entry.command) in Take(c, step).cluster.events
    requires Submitted(entry.term, entry.index, entry.command) !in c.events
    ensures step.Submit? && step.i < |c.hosts| && step.command == entry.command
    ensures var s := c.hosts[step.i].raft;
      s.role == Leader && s.log != [] && entry.term == s.term && entry.index == Tail(s.log).index + 1
  {
    if step.Receive? {
      if step.m in c.net {
        ReceivesSubmitNothing(c, step.m, entry.term, entry.index, entry.command);
      }
      assert false;
    } else if !step.Submit? {
      OthersSubmitNothing(c, step, entry.term, entry.index, entry.command);
      assert false;
    }
  }

  lemma {:induction false} WhenSubmitted(n: nat, steps: seq<Step>, entry: Entry) returns (j: nat, i: nat)
    requires Run(n, steps).Running?
    requires Submitted(entry.term, entry.index, entry.command) in Run(n, steps).cluster.events
    ensures SubmittedAt(n, steps, j, i, entry)
    decreases |steps|
  {
    hide Take;
    var last := |steps| - 1;
    var rest := steps[..last];
    if Submitted(entry.term, entry.index, entry.command) in Run(n, rest).cluster.events {
      j, i := WhenSubmitted(n, rest, entry);
      assert rest[..j] == steps[..j];
    } else {
      NewSubmission(Run(n, rest).cluster, steps[last], entry);
      j, i := last, steps[last].i;
    }
  }
}
