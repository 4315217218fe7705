/**
 One Raft server as a value, and the effect of each critical section of src/db_files/raft/raft.go on it.

 Each function is the specification of the method of the same name in RaftNode. A result of None stands
 for the panic (or nil dereference) the Go code would run into.
 */
module RaftServer {
  import opened Common
  import opened RaftTypes

  datatype Role = Follower | Candidate | Leader

  datatype Server = Server(
    me: nat,
    peers: nat,
    role: Role,
    term: nat,
    votedFor: int,              // -1 when the vote of the term is unused
    log: Log,                   // log[0] is the foot of the compacted log
    commitIndex: nat,
    lastApplied: nat,
    nextIndex: seq<nat>,
    matchIndex: seq<nat>,
    snapshot: seq<Command>)     // what the persister holds: the commands the snapshot stands for

  datatype AppendArgs = AppendArgs(
    term: nat, leaderId: nat, prevLogIndex: nat, prevLogTerm: nat, entries: seq<Entry>, leaderCommit: nat)
  datatype AppendReply = AppendReply(term: nat, success: bool, conflictingTerm: nat, conflictingIndex: nat)
  datatype VoteArgs = VoteArgs(term: nat, candidateId: nat, lastLogIndex: nat, lastLogTerm: nat)
  datatype VoteReply = VoteReply(term: nat, granted: bool)
  datatype SnapshotArgs = SnapshotArgs(
    term: nat, leaderId: nat, lastIncludedIndex: nat, lastIncludedTerm: nat, data: seq<Command>)

  /** What a leader sends to one peer. */
  datatype Request = Append(append: AppendArgs) | Install(install: SnapshotArgs)

  type Votes = set<nat>

  /** A server after a conditional installation, and whether it took place. */
  type Installation = (Server, bool)

  /** A server after a turn of the delivery loop, and the entry it handed over, if any. */
  type Delivery = (Server, Option<Entry>)

  // ---------------------------------------------------------------- logs

  predicate Contiguous(log: Log) {
    log != [] && forall i :: 0 <= i < |log| ==> log[i].index == log[0].index + i
  }

  predicate WellFormed(s: Server) {
    Contiguous(s.log) && |s.nextIndex| == s.peers && |s.matchIndex| == s.peers && s.me < s.peers
  }

  function At(log: Log, index: nat): (r: Option<Entry>)
    requires log != []
  {
    if index < log[0].index then None
    else if index - log[0].index < |log| then Some(log[index - log[0].index])
    else None
  }

  function Tail(log: Log): Entry
    requires log != []
  {
    log[|log| - 1]
  }

  function Min(a: nat, b: nat): nat { if a > b then b else a }

  function Max(a: nat, b: nat): nat { if a > b then a else b }

  // ---------------------------------------------------------------- terms

  function ResetTerm(s: Server, term: nat): Server {
    s.(term := term, votedFor := -1)
  }

  /** A message of the leader of the given term, not older than the server's own, has arrived. */
  function ObserveLeader(s: Server, term: nat): Server {
    if s.role == Candidate && term >= s.term then ResetTerm(s.(role := Follower), term)
    else if s.role == Follower && term > s.term then ResetTerm(s, term)
    else if s.role == Leader && term > s.term then ResetTerm(s.(role := Follower), term)
    else s
  }

  /** A reply revealed a later term. */
  function StepDown(s: Server, term: nat): Server {
    ResetTerm(s.(role := Follower), term)
  }

  // ---------------------------------------------------------------- elections

  function StartElection(s: Server): (r: (Server, VoteArgs))
    requires WellFormed(s)
    ensures WellFormed(r.0)
  {
    var c := s.(term := s.term + 1, role := Candidate, votedFor := s.me);
    (c, VoteArgs(c.term, c.me, Tail(c.log).index, Tail(c.log).term))
  }

  predicate IsAtLeastUpToDate(log: Log, args: VoteArgs)
    requires log != []
  {
    if args.lastLogTerm == Tail(log).term then args.lastLogIndex >= Tail(log).index
    else args.lastLogTerm >= Tail(log).term
  }

  function RequestVote(s: Server, args: VoteArgs): (r: (Server, VoteReply))
    requires WellFormed(s)
    ensures WellFormed(r.0)
  {
    if args.term < s.term then (s, VoteReply(s.term, false))
    else
      var r := if args.term > s.term then ResetTerm(s.(role := Follower), args.term) else s;
      if (r.votedFor == -1 || r.votedFor == args.candidateId) && IsAtLeastUpToDate(r.log, args)
      then (r.(votedFor := args.candidateId), VoteReply(s.term, true))
      else (r, VoteReply(s.term, false))
  }

  function BecomeLeader(s: Server): (r: Server)
    requires WellFormed(s)
    ensures WellFormed(r)
  {
    var last := Tail(s.log).index;
    s.(role := Leader,
       nextIndex := seq(s.peers, _ => last + 1),
       matchIndex := seq(s.peers, _ => 0)[s.me := last])
  }

  /** granted holds the servers, the candidate among them, whose votes the running election has counted. */
  function VoteReplied(s: Server, granted: Votes, from: nat, args: VoteArgs, reply: VoteReply): (r: (Server, Votes))
    requires WellFormed(s)
    ensures WellFormed(r.0)
  {
    if s.role != Candidate || s.term != args.term then (s, granted)
    else if reply.term > s.term then (StepDown(s, reply.term), granted)
    else if !reply.granted then (s, granted)
    else
      var votes := granted + {from};
      (if |votes| >= Majority(s.peers) then BecomeLeader(s) else s, votes)
  }

  // ---------------------------------------------------------------- replication, follower side

  predicate Clashes(log: Log, entry: Entry)
    requires log != []
  {
    At(log, entry.index).Some? && At(log, entry.index).value.term != entry.term
  }

  /** Position of the first sent entry whose term differs from the local entry at its index, or |entries|. */
  function FirstConflict(log: Log, entries: seq<Entry>): (r: nat)
    requires log != []
    ensures r <= |entries|
    ensures r < |entries| ==> Clashes(log, entries[r])
    ensures forall i :: 0 <= i < r ==> !Clashes(log, entries[i])
  {
    if entries == [] then 0
    else if Clashes(log, entries[0]) then 0
    else 1 + FirstConflict(log, entries[1..])
  }

  /** Sent entries replace the local log from the first conflict on, or extend it past its tail. */
  function Merge(log: Log, entries: seq<Entry>): (r: Log)
    requires Contiguous(log) && Contiguous(entries) && entries[0].index <= Tail(log).index + 1
    ensures Contiguous(r) && r[0].index == log[0].index
  {
    if Tail(entries).index < log[0].index then log
    else
      var c := FirstConflict(log, entries);
      if c < |entries| then Spliced(log, entries, c)
      else if Tail(entries).index > Tail(log).index then Spliced(log, entries, Tail(log).index + 1 - entries[0].index)
      else log
  }

  /** The local log up to the given sent entry, and the sent entries from it on. */
  function Spliced(log: Log, entries: seq<Entry>, c: nat): (r: Log)
    requires Contiguous(log) && Contiguous(entries) && c < |entries|
    requires log[0].index <= entries[c].index <= Tail(log).index + 1
    ensures Contiguous(r) && r[0].index == log[0].index
  {
    log[..entries[c].index - log[0].index] + entries[c..]
  }

  function FirstWithTerm(log: Log, term: nat): (r: nat)
  {
    if log == [] then 0 else if log[0].term == term then log[0].index else FirstWithTerm(log[1..], term)
  }

  /** The server's hint where the logs part. */
  function Conflict(term: nat, log: Log, prevLogIndex: nat): AppendReply
    requires log != []
  {
    match At(log, prevLogIndex)
    case Some(prev) => AppendReply(term, false, prev.term, FirstWithTerm(log, prev.term))
    case None => AppendReply(term, false, 0, Tail(log).index)
  }

  predicate Consistent(log: Log, args: AppendArgs)
    requires log != []
  {
    args.prevLogIndex > 0 && args.prevLogIndex >= log[0].index ==>
      At(log, args.prevLogIndex).Some? && At(log, args.prevLogIndex).value.term == args.prevLogTerm
  }

  /** The entries a leader sends follow the entry it names as their predecessor. */
  predicate Follows(args: AppendArgs) {
    forall i :: 0 <= i < |args.entries| ==> args.entries[i].index == args.prevLogIndex + 1 + i
  }

  function AppendEntries(s: Server, args: AppendArgs): (r: (Server, AppendReply))
    requires WellFormed(s) && Follows(args)
    ensures WellFormed(r.0)
  {
    if args.term < s.term then (s, AppendReply(s.term, false, 0, 0))
    else
      var r := ObserveLeader(s, args.term);
      if !Consistent(r.log, args) then (r, Conflict(s.term, r.log, args.prevLogIndex))
      else
        var log := if args.entries == [] then r.log else Merge(r.log, args.entries);
        var commit := if args.leaderCommit > r.commitIndex then Min(args.leaderCommit, Tail(log).index)
          else r.commitIndex;
        (r.(log := log, commitIndex := commit), AppendReply(s.term, true, 0, 0))
  }

  // ---------------------------------------------------------------- replication, leader side

  function Start(s: Server, command: Command): (r: (Server, Option<nat>))
    requires WellFormed(s)
    ensures WellFormed(r.0)
  {
    if s.role != Leader then (s, None)
    else
      var entry := Entry(s.term, Tail(s.log).index + 1, command);
      (s.(log := s.log + [entry], matchIndex := s.matchIndex[s.me := s.matchIndex[s.me] + 1]), Some(entry.index))
  }

  function Replicate(s: Server, peer: nat): (r: Option<Request>)
    requires WellFormed(s) && peer < s.peers
    ensures r.Some? && r.value.Append? ==> Follows(r.value.append)
  {
    var next := s.nextIndex[peer];
    if next <= s.log[0].index then
      Some(Install(SnapshotArgs(s.term, s.me, s.log[0].index, s.log[0].term, s.snapshot)))
    else
      match At(s.log, next - 1)
      case None => None
      case Some(prev) =>
        Some(Append(AppendArgs(s.term, s.me, prev.index, prev.term, s.log[next - s.log[0].index..], s.commitIndex)))
  }

  function CountAtLeast(match_: seq<nat>, i: nat): (r: nat) {
    if match_ == [] then 0 else CountAtLeast(match_[..|match_| - 1], i) + (if match_[|match_| - 1] >= i then 1 else 0)
  }

  /** The commit rule: the highest index stored by a majority and created in the leader's own term. */
  function ScanCommit(s: Server, i: nat, last: nat, commit: nat): (r: Option<nat>)
    requires s.log != []
    decreases last + 1 - i
  {
    if i > last then Some(commit)
    else if CountAtLeast(s.matchIndex, i) >= Majority(s.peers) then
      match At(s.log, i)
      case None => None
      case Some(e) => ScanCommit(s, i + 1, last, if e.term == s.term then i else commit)
    else ScanCommit(s, i + 1, last, commit)
  }

  /** Index of the last entry of the term among log[1..]. */
  function LastWithTerm(log: Log, term: nat): (r: Option<nat>) {
    if |log| <= 1 then None
    else if log[|log| - 1].term == term then Some(log[|log| - 1].index)
    else LastWithTerm(log[..|log| - 1], term)
  }

  /** Where the leader resumes after a rejection. */
  function BackUp(log: Log, next: nat, reply: AppendReply): (r: nat) {
    var last := LastWithTerm(log, reply.conflictingTerm);
    if reply.conflictingTerm > 0 && last.Some? then Min(next, last.value + 1)
    else Max(Min(next, reply.conflictingIndex), 1)
  }

  function AppendReplied(s: Server, peer: nat, args: AppendArgs, reply: AppendReply): (r: Option<Server>)
    requires WellFormed(s) && peer < s.peers
    ensures r.Some? ==> WellFormed(r.value)
  {
    if s.term != args.term then Some(s)
    else if reply.term > s.term then Some(StepDown(s, reply.term))
    else if reply.success then
      if args.entries == [] then Some(s)
      else
        var last := Tail(args.entries).index;
        var r := s.(matchIndex := s.matchIndex[peer := last], nextIndex := s.nextIndex[peer := last + 1]);
        match ScanCommit(r, r.commitIndex, last, r.commitIndex)
        case None => None
        case Some(commit) => Some(r.(commitIndex := commit))
    else if reply.term < s.term then Some(s)
    else
      Some(s.(matchIndex := s.matchIndex[peer := 0],
              nextIndex := s.nextIndex[peer := BackUp(s.log, s.nextIndex[peer], reply)]))
  }

  function SnapshotReplied(s: Server, peer: nat, args: SnapshotArgs, term: nat): (r: Server)
    requires WellFormed(s) && peer < s.peers
    ensures WellFormed(r)
  {
    if s.term != args.term then s
    else if term > s.term then StepDown(s, term)
    else s.(nextIndex := s.nextIndex[peer := args.lastIncludedIndex + 1])
  }

  // ---------------------------------------------------------------- snapshots, delivery, restart

  /** The second result says whether the snapshot goes on to the service. */
  function InstallSnapshot(s: Server, args: SnapshotArgs): (r: (Server, bool)) {
    if args.term < s.term then (s, false) else (ObserveLeader(s, args.term), true)
  }

  function CondInstallSnapshot(s: Server, term: nat, index: nat, data: seq<Command>): (r: Option<Installation>)
    requires WellFormed(s)
    ensures r.Some? ==> WellFormed(r.value.0)
  {
    if index < s.commitIndex then Some((s, false))
    else if index < s.log[0].index then None
    else
      var kept := if index >= Tail(s.log).index then s.log[..1] else s.log[index - s.log[0].index..];
      Some((s.(log := [Entry(term, index, NoCommand)] + kept[1..], commitIndex := index, lastApplied := index,
               snapshot := data),
            true))
  }

  function Compact(s: Server, index: nat, data: seq<Command>): (r: Server)
    requires WellFormed(s)
    ensures WellFormed(r)
  {
    if At(s.log, index).None? then s
    else
      var kept := s.log[index - s.log[0].index..];
      s.(log := [kept[0].(command := NoCommand)] + kept[1..], snapshot := data)
  }

  /** One turn of the delivery loop; the second result is the entry handed to the service, if any. */
  function ApplyNext(s: Server): (r: Option<Delivery>)
    requires WellFormed(s)
    ensures r.Some? ==> WellFormed(r.value.0)
  {
    if s.commitIndex <= s.lastApplied then Some((s, None))
    else
      match At(s.log, s.lastApplied + 1)
      case None => None
      case Some(e) => Some((s.(lastApplied := s.lastApplied + 1), Some(e)))
  }

  function Fresh(me: nat, peers: nat): (r: Server)
    requires me < peers
    ensures WellFormed(r)
  {
    Server(me, peers, Follower, 0, -1, [Entry(0, 0, NoCommand)], 0, 0, seq(peers, _ => 1), seq(peers, _ => 0), [])
  }

  /** A crash keeps what the persister holds: term, vote, log and snapshot. */
  function Restart(s: Server): (r: Server)
    requires WellFormed(s)
    ensures WellFormed(r)
  {
    Fresh(s.me, s.peers).(
      term := s.term, votedFor := s.votedFor, log := s.log, snapshot := s.snapshot,
      commitIndex := s.log[0].index, lastApplied := s.log[0].index)
  }
}
