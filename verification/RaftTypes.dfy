/** Entities of the consensus layer (src/db_files/raft/raft.go). */
module RaftTypes {
  import opened Common

  /** A client command; the entry at the foot of a compacted log carries none. */
  datatype Command = NoCommand | Op(payload: seq<int>)

  datatype Entry = Entry(term: nat, index: nat, command: Command)

  type Log = seq<Entry>

  /** The commands of a log, in order: what a service that applied the whole log has executed. */
  function Commands(log: Log): (r: seq<Command>)
    ensures |r| == |log|
    ensures forall i :: 0 <= i < |r| ==> r[i] == log[i].command
  {
    seq(|log|, i requires 0 <= i < |log| => log[i].command)
  }

  function LastTerm(log: Log): nat {
    if log == [] then 0 else log[|log| - 1].term
  }

  /** The election restriction: a log ending in (term, length) is at least as up to date as another. */
  predicate UpToDate(candidate: Log, voter: Log) {
    if LastTerm(candidate) == LastTerm(voter) then |candidate| >= |voter| else LastTerm(candidate) >= LastTerm(voter)
  }

  /** More than half of n servers. */
  function Majority(n: nat): nat {
    n / 2 + 1
  }

  ghost predicate IsQuorum(n: nat, q: set<nat>) {
    (forall p :: p in q ==> p < n) && |q| >= Majority(n)
  }

  /** Any two majorities share a server. */
  lemma QuorumsMeet(n: nat, q: set<nat>, r: set<nat>) returns (p: nat)
    requires IsQuorum(n, q) && IsQuorum(n, r)
    ensures p in q && p in r
  {
    if q * r == {} {
      assert |q + r| == |q| + |r|;
      SubsetSize(q + r, Ids(n));
      assert false;
    }
    p :| p in q * r;
  }

  lemma PrefixOfPrefix(a: Log, b: Log, c: Log)
    requires a <= b && b <= c
    ensures a <= c
  {
  }

  lemma PrefixesOfOneLog(a: Log, b: Log, c: Log)
    requires a <= c && b <= c
    ensures |a| <= |b| ==> a <= b
  {
  }
}
