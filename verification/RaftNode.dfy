/**
 The mutable server of src/db_files/raft/raft.go. Each method is one critical section and is proved to have
 the effect its namesake in RaftServer specifies. Besides, each leaves the persister with the server's
 current term, vote and log, which is what lets a crash lose nothing but volatile state.
 */
module RaftNode {
  import opened Common
  import opened RaftTypes
  import S = RaftServer
  import opened RaftServer

  datatype Disk = Disk(term: nat, votedFor: int, log: Log, snapshot: seq<Command>)

  class Node {
    const me: nat
    const peers: nat
    var role: Role
    var term: nat
    var votedFor: int
    var log: Log
    var commitIndex: nat
    var lastApplied: nat
    var nextIndex: seq<nat>
    var matchIndex: seq<nat>
    var disk: Disk

    ghost function Model(): Server
      reads this
    {
      Server(me, peers, role, term, votedFor, log, commitIndex, lastApplied, nextIndex, matchIndex, disk.snapshot)
    }

    /** The persister holds the current term, vote and log. */
    ghost predicate Persisted()
      reads this
    {
      disk == Disk(term, votedFor, log, disk.snapshot)
    }

    ghost predicate Valid()
      reads this
    {
      WellFormed(Model()) && Persisted()
    }

    /** A server started on what a previous one left on disk, or on nothing. */
    constructor (me: nat, peers: nat, left: Option<Disk>)
      requires me < peers && (left.Some? ==> Contiguous(left.value.log))
      ensures Valid() && this.me == me && this.peers == peers
      ensures left.None? ==> Model() == Fresh(me, peers)
      ensures forall s: Server ::
                WellFormed(s) && s.me == me && s.peers == peers
                  && left == Some(Disk(s.term, s.votedFor, s.log, s.snapshot))
                ==> Model() == Restart(s)
    {
      this.me := me;
      this.peers := peers;
      role := Follower;
      nextIndex := seq(peers, _ => 1);
      matchIndex := seq(peers, _ => 0);
      var from := if left.Some? then left.value else Disk(0, -1, [Entry(0, 0, NoCommand)], []);
      term := from.term;
      votedFor := from.votedFor;
      log := from.log;
      commitIndex := from.log[0].index;
      lastApplied := from.log[0].index;
      disk := from;
    }

    method Persist()
      modifies this`disk
      ensures disk == Disk(term, votedFor, log, old(disk.snapshot))
    {
      disk := Disk(term, votedFor, log, disk.snapshot);
    }

    method ResetTerm(t: nat)
      modifies this`term, this`votedFor, this`disk
      ensures Model() == S.ResetTerm(old(Model()), t) && Persisted()
    {
      term := t;
      votedFor := -1;
      Persist();
    }

    method ObserveLeader(t: nat)
      requires Valid()
      modifies this
      ensures Valid() && Model() == S.ObserveLeader(old(Model()), t)
    {
      if role == Candidate && t >= term {
        role := Follower;
        ResetTerm(t);
      } else if role == Follower && t > term {
        ResetTerm(t);
      } else if role == Leader && t > term {
        role := Follower;
        ResetTerm(t);
      }
    }

    // -------------------------------------------------------------- elections

    method StartElection() returns (args: VoteArgs)
      requires Valid()
      modifies this
      ensures Valid() && (Model(), args) == S.StartElection(old(Model()))
    {
      ResetTerm(term + 1);
      role := Candidate;
      votedFor := me;
      Persist();
      args := VoteArgs(term, me, Tail(log).index, Tail(log).term);
    }

    method RequestVote(args: VoteArgs) returns (reply: VoteReply)
      requires Valid()
      modifies this
      ensures Valid() && (Model(), reply) == S.RequestVote(old(Model()), args)
    {
      var answer := term;
      if args.term < term {
        return VoteReply(answer, false);
      }
      if args.term > term {
        role := Follower;
        ResetTerm(args.term);
      }
      if (votedFor == -1 || votedFor == args.candidateId) && IsAtLeastUpToDate(log, args) {
        votedFor := args.candidateId;
        Persist();
        reply := VoteReply(answer, true);
      } else {
        reply := VoteReply(answer, false);
      }
    }

    method VoteReplied(granted: set<nat>, from: nat, args: VoteArgs, reply: VoteReply) returns (votes: set<nat>)
      requires Valid()
      modifies this
      ensures Valid() && (Model(), votes) == S.VoteReplied(old(Model()), granted, from, args, reply)
    {
      votes := granted;
      if role != Candidate || term != args.term {
        return;
      }
      if reply.term > term {
        role := Follower;
        ResetTerm(reply.term);
        return;
      }
      if reply.granted {
        votes := votes + {from};
        if |votes| >= Majority(peers) {
          BecomeLeader();
        }
      }
    }

    method BecomeLeader()
      requires Valid()
      modifies this`role, this`nextIndex, this`matchIndex
      ensures Valid() && Model() == S.BecomeLeader(old(Model()))
    {
      var last := Tail(log).index;
      for i := 0 to peers
        invariant |nextIndex| == |matchIndex| == peers
        invariant forall p :: 0 <= p < i ==> nextIndex[p] == last + 1 && matchIndex[p] == 0
      {
        nextIndex := nextIndex[i := last + 1];
        matchIndex := matchIndex[i := 0];
      }
      assert nextIndex == seq(peers, _ => last + 1);
      assert matchIndex == seq(peers, _ => 0);
      matchIndex := matchIndex[me := last];
      role := Leader;
    }

    // -------------------------------------------------------------- replication, follower side

    method AppendEntries(args: AppendArgs) returns (reply: AppendReply)
      requires Valid() && Follows(args)
      modifies this
      ensures Valid() && (Model(), reply) == S.AppendEntries(old(Model()), args)
    {
      var answer := term;
      if args.term < term {
        return AppendReply(answer, false, 0, 0);
      }
      ObserveLeader(args.term);
      if args.prevLogIndex > 0 && args.prevLogIndex >= log[0].index {
        var prev := At(log, args.prevLogIndex);
        if prev.None? || prev.value.term != args.prevLogTerm {
          if prev.Some? {
            var first := FindFirst(prev.value.term);
            return AppendReply(answer, false, prev.value.term, first);
          } else {
            return AppendReply(answer, false, 0, Tail(log).index);
          }
        }
      }
      if |args.entries| > 0 {
        MergeEntries(args.entries);
      }
      if args.leaderCommit > commitIndex {
        commitIndex := Min(args.leaderCommit, Tail(log).index);
      }
      reply := AppendReply(answer, true, 0, 0);
    }

    method FindFirst(t: nat) returns (index: nat)
      ensures index == FirstWithTerm(log, t)
    {
      index := 0;
      var i := 0;
      while i < |log|
        invariant 0 <= i <= |log|
        invariant FirstWithTerm(log, t) == FirstWithTerm(log[i..], t)
      {
        if log[i].term == t {
          return log[i].index;
        }
        assert log[i..][1..] == log[i + 1..];
        i := i + 1;
      }
    }

    method MergeEntries(entries: seq<Entry>)
      requires Valid() && Contiguous(entries) && entries[0].index <= Tail(log).index + 1
      modifies this`log, this`disk
      ensures Valid() && Model() == old(Model()).(log := Merge(old(log), entries))
    {
      ghost var merged := Merge(log, entries);
      if Tail(entries).index >= log[0].index {
        var left := CutAtConflict(entries);
        AppendFrom(entries, left);
      }
      assert log == merged;
      Persist();
    }

    method AppendFrom(entries: seq<Entry>, left: nat)
      requires left <= |entries|
      modifies this`log
      ensures log == old(log) + entries[left..]
    {
      var i := left;
      assert entries[left..left] == [];
      while i < |entries|
        invariant left <= i <= |entries| && log == old(log) + entries[left..i]
      {
        log := log + [entries[i]];
        assert entries[left..i + 1] == entries[left..i] + [entries[i]];
        i := i + 1;
      }
      assert entries[left..|entries|] == entries[left..];
    }

    /** Drops the local log from the first conflicting entry on; the sent entries from left on are to follow. */
    method CutAtConflict(entries: seq<Entry>) returns (left: nat)
      requires WellFormed(Model()) && Contiguous(entries) && entries[0].index <= Tail(log).index + 1
      requires Tail(entries).index >= log[0].index
      modifies this`log
      ensures left <= |entries| && log + entries[left..] == Merge(old(log), entries)
    {
      hide Merge, FirstConflict;
      ghost var all := log;
      var first, base, tail := entries[0].index, log[0].index, Tail(log).index;
      left := 0;
      var i := 0;
      while i < |entries|
        invariant 0 <= i <= |entries| && log == all
        invariant forall j :: 0 <= j < i ==> !Clashes(all, entries[j])
        invariant left == if first + i <= base then 0 else Min(i, tail + 1 - first)
      {
        var local := At(log, entries[i].index);
        if local.Some? {
          assert local.value.index == entries[i].index;
          if local.value.term != entries[i].term {
            ConflictAt(all, entries, i);
            log := log[..entries[i].index - log[0].index];
            left := i;
            return;
          }
          left := i + 1;
        }
        i := i + 1;
      }
      NoConflict(all, entries);
    }

    // -------------------------------------------------------------- replication, leader side

    method Start(command: Command) returns (index: Option<nat>)
      requires Valid()
      modifies this
      ensures Valid() && (Model(), index) == S.Start(old(Model()), command)
    {
      if role != Leader {
        return None;
      }
      var entry := Entry(term, Tail(log).index + 1, command);
      log := log + [entry];
      Persist();
      matchIndex := matchIndex[me := matchIndex[me] + 1];
      index := Some(entry.index);
    }

    /** None stands for the panic or nil dereference. */
    method Replicate(peer: nat) returns (request: Option<Request>)
      requires Valid() && peer < peers
      ensures request == S.Replicate(Model(), peer)
    {
      var next := nextIndex[peer];
      if next <= log[0].index {
        return Some(Install(SnapshotArgs(term, me, log[0].index, log[0].term, disk.snapshot)));
      }
      var entries: seq<Entry> := [];
      var j := next;
      while j <= Tail(log).index
        invariant next <= j && (j <= Tail(log).index + 1 || j == next)
        invariant j <= Tail(log).index + 1 ==> entries == log[next - log[0].index..j - log[0].index]
        invariant j > Tail(log).index + 1 ==> entries == []
      {
        var at := At(log, j);
        assert at.Some?;
        entries := entries + [at.value];
        j := j + 1;
      }
      var prev := At(log, next - 1);
      if prev.None? {
        return None;
      }
      assert log[next - log[0].index..|log|] == log[next - log[0].index..];
      request := Some(Append(AppendArgs(term, me, prev.value.index, prev.value.term, entries, commitIndex)));
    }

    method AppendReplied(peer: nat, args: AppendArgs, reply: AppendReply) returns (alive: bool)
      requires Valid() && peer < peers
      modifies this
      ensures alive <==> S.AppendReplied(old(Model()), peer, args, reply).Some?
      ensures alive ==> Valid() && Model() == S.AppendReplied(old(Model()), peer, args, reply).value
    {
      alive := true;
      if term != args.term {
        return;
      }
      if reply.term > term {
        role := Follower;
        ResetTerm(reply.term);
      } else if reply.success {
        if |args.entries| == 0 {
          return;
        }
        var last := Tail(args.entries).index;
        matchIndex := matchIndex[peer := last];
        nextIndex := nextIndex[peer := last + 1];
        var commit := HighestCommit(last);
        if commit.None? {
          return false;
        }
        commitIndex := commit.value;
      } else {
        if reply.term < term {
          return;
        }
        var next := nextIndex[peer];
        matchIndex := matchIndex[peer := 0];
        var found := FindLast(reply.conflictingTerm);
        if reply.conflictingTerm > 0 && found.Some? {
          nextIndex := nextIndex[peer := Min(next, found.value + 1)];
        } else {
          nextIndex := nextIndex[peer := Max(Min(next, reply.conflictingIndex), 1)];
        }
      }
    }

    method HighestCommit(last: nat) returns (commit: Option<nat>)
      requires Valid()
      ensures commit == ScanCommit(Model(), commitIndex, last, commitIndex)
    {
      var high: nat := commitIndex;
      var i := commitIndex;
      while i <= last
        invariant ScanCommit(Model(), commitIndex, last, commitIndex) == ScanCommit(Model(), i, last, high)
        decreases last + 1 - i
      {
        var count := CountStored(i);
        if count >= Majority(peers) {
          var entry := At(log, i);
          if entry.None? {
            return None;
          }
          if entry.value.term == term {
            high := i;
          }
        }
        i := i + 1;
      }
      commit := Some(high);
    }

    method CountStored(i: nat) returns (count: nat)
      requires Valid()
      ensures count == CountAtLeast(matchIndex, i)
    {
      count := 0;
      for p := 0 to peers
        invariant count == CountAtLeast(matchIndex[..p], i)
      {
        assert matchIndex[..p + 1][..p] == matchIndex[..p];
        if matchIndex[p] >= i {
          count := count + 1;
        }
      }
      assert matchIndex[..peers] == matchIndex;
    }

    method FindLast(t: nat) returns (index: Option<nat>)
      requires log != []
      ensures index == LastWithTerm(log, t)
    {
      var i := |log| - 1;
      assert log[..i + 1] == log;
      while i >= 1
        invariant 0 <= i < |log| && LastWithTerm(log, t) == LastWithTerm(log[..i + 1], t)
      {
        if log[i].term == t {
          return Some(log[i].index);
        }
        assert log[..i + 1][..i] == log[..i];
        i := i - 1;
      }
      index := None;
    }

    method SnapshotReplied(peer: nat, args: SnapshotArgs, t: nat)
      requires Valid() && peer < peers
      modifies this
      ensures Valid() && Model() == S.SnapshotReplied(old(Model()), peer, args, t)
    {
      if term != args.term {
        return;
      }
      if t > term {
        role := Follower;
        ResetTerm(t);
        return;
      }
      nextIndex := nextIndex[peer := args.lastIncludedIndex + 1];
    }

    // -------------------------------------------------------------- snapshots and delivery

    method InstallSnapshot(args: SnapshotArgs) returns (answer: nat, passOn: bool)
      requires Valid()
      modifies this
      ensures Valid() && answer == old(term) && (Model(), passOn) == S.InstallSnapshot(old(Model()), args)
    {
      answer := term;
      if args.term < term {
        return answer, false;
      }
      ObserveLeader(args.term);
      passOn := true;
    }

    method CondInstallSnapshot(t: nat, index: nat, data: seq<Command>) returns (alive: bool, done: bool)
      requires Valid()
      modifies this
      ensures alive <==> S.CondInstallSnapshot(old(Model()), t, index, data).Some?
      ensures alive ==> Valid() && (Model(), done) == S.CondInstallSnapshot(old(Model()), t, index, data).value
    {
      if index < commitIndex {
        return true, false;
      }
      if index >= Tail(log).index {
        log := log[..1];
      } else if index >= log[0].index {
        log := log[index - log[0].index..];
      } else {
        return false, false;
      }
      ghost var kept := log;
      log := log[0 := Entry(t, index, NoCommand)];
      assert log == [Entry(t, index, NoCommand)] + kept[1..];
      commitIndex := index;
      lastApplied := index;
      disk := Disk(term, votedFor, log, data);
      return true, true;
    }

    method Snapshot(index: nat, data: seq<Command>)
      requires Valid()
      modifies this
      ensures Valid() && Model() == Compact(old(Model()), index, data)
    {
      var i := 0;
      while i < |log|
        invariant 0 <= i <= |log| && log == old(log) && Valid() && Model() == old(Model())
        invariant forall j :: 0 <= j < i ==> log[j].index != index
      {
        if log[i].index == index {
          log := log[index - log[0].index..];
          log := log[0 := log[0].(command := NoCommand)];
          disk := Disk(term, votedFor, log, data);
          return;
        }
        i := i + 1;
      }
    }

    method ApplyNext() returns (alive: bool, entry: Option<Entry>)
      requires Valid()
      modifies this
      ensures alive <==> S.ApplyNext(old(Model())).Some?
      ensures alive ==> Valid() && (Model(), entry) == S.ApplyNext(old(Model())).value
    {
      entry := None;
      if commitIndex <= lastApplied {
        return true, None;
      }
      lastApplied := lastApplied + 1;
      entry := At(log, lastApplied);
      alive := entry.Some?;
    }
  }

  lemma ConflictAt(log: Log, entries: seq<Entry>, i: nat)
    requires Contiguous(log) && Contiguous(entries) && entries[0].index <= Tail(log).index + 1
    requires i < |entries| && Clashes(log, entries[i]) && forall j :: 0 <= j < i ==> !Clashes(log, entries[j])
    ensures Merge(log, entries) == log[..entries[i].index - log[0].index] + entries[i..]
  {
    var c := FirstConflict(log, entries);
    assert c == i;
  }

  lemma NoConflict(log: Log, entries: seq<Entry>)
    requires Contiguous(log) && Contiguous(entries) && entries[0].index <= Tail(log).index + 1
    requires Tail(entries).index >= log[0].index && forall j :: 0 <= j < |entries| ==> !Clashes(log, entries[j])
    ensures var left := Min(|entries|, Tail(log).index + 1 - entries[0].index);
            Merge(log, entries) == log + entries[left..]
  {
    var have := Tail(log).index + 1 - entries[0].index;
    assert FirstConflict(log, entries) == |entries|;
    if have < |entries| {
      assert log[..entries[have].index - log[0].index] == log;
    } else {
      assert log + entries[|entries|..] == log;
    }
  }
}
