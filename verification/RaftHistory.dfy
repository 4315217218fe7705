/**
 Auxiliary history of a Raft cluster, and the invariants that carry its safety argument.

 The running servers of src/db_files/raft/raft.go forget: they compact logs, overwrite votes and move on
 to later terms. A History remembers. It is not part of the modelled system; the runs of RaftCluster are
 proved safe by exhibiting a history for each of their states.
 */
module RaftHistory {
  import opened RaftTypes

  datatype History = History(
    terms: seq<nat>,                        // current term of each server
    logs: seq<Log>,                         // full log of each server, entry i at position i - 1
    leaderLog: map<nat, Log>,               // full log of the leader of each term that has had one
    owner: map<nat, nat>,                   // that leader
    quorum: map<nat, set<nat>>,             // the servers whose votes elected it
    acked: map<(nat, nat), nat>,   // (term, server): longest prefix of the term's leader log it stored in that term
    claims: map<(nat, nat), Log>,           // (term, candidate): the candidate's log when it asked for votes
    grants: map<(nat, nat, nat), Log>,      // (term, voter, candidate): the voter's log when it granted its vote
    commits: set<(nat, nat)>,               // (term, length): prefixes of leader logs a majority stored
    committed: seq<Log>)                    // prefix each server knows to be committed

  // ---------------------------------------------------------------- vocabulary

  function Ack(h: History, t: nat, p: nat): nat {
    if (t, p) in h.acked then h.acked[(t, p)] else 0
  }

  /** Position n of the leader log of term t holds an entry created in term t itself. */
  ghost predicate OwnEntry(h: History, t: nat, n: nat) {
    t in h.leaderLog && 1 <= n <= |h.leaderLog[t]| && h.leaderLog[t][n - 1].term == t
  }

  ghost predicate BlockedBy(h: History, t: nat, n: nat, q: set<nat>) {
    && IsQuorum(|h.terms|, q)
    && forall p :: p in q ==> p < |h.terms| && h.terms[p] > t && Ack(h, t, p) < n
  }

  /** A majority has left term t without storing n entries of its leader: they can no longer be committed in term t. */
  ghost predicate Never(h: History, t: nat, n: nat) {
    exists q :: BlockedBy(h, t, n, q)
  }

  ghost predicate Keeps(h: History, log: Log, t: nat, n: nat)
    requires OwnEntry(h, t, n)
  {
    h.leaderLog[t][..n] <= log || Never(h, t, n)
  }

  /** The log holds every entry that was, or still may be, committed in a term before t. */
  ghost predicate Safe(h: History, log: Log, t: nat) {
    forall u: nat, n: nat :: OwnEntry(h, u, n) && u < t ==> Keeps(h, log, u, n)
  }

  /** The log holds whatever server p acknowledged in terms before t, unless it can no longer be committed. */
  ghost predicate KeepsAcks(h: History, log: Log, p: nat, t: nat) {
    forall u: nat, n: nat :: OwnEntry(h, u, n) && u < t && n <= Ack(h, u, p) ==> Keeps(h, log, u, n)
  }

  /** Every entry is at its index, and the log up to it is a prefix of the log of the leader that created it. */
  ghost predicate FromLeaders(h: History, log: Log) {
    forall i :: 0 <= i < |log| ==>
      && log[i].index == i + 1
      && log[i].term in h.leaderLog
      && log[..i + 1] <= h.leaderLog[log[i].term]
  }

  ghost predicate AtMost(log: Log, t: nat) {
    forall i :: 0 <= i < |log| ==> log[i].term <= t
  }

  ghost predicate Sorted(log: Log) {
    forall i, j :: 0 <= i <= j < |log| ==> log[i].term <= log[j].term
  }

  ghost predicate ChosenBy(h: History, t: nat, n: nat, q: set<nat>) {
    IsQuorum(|h.terms|, q) && forall p :: p in q ==> Ack(h, t, p) >= n
  }

  ghost predicate Chosen(h: History, t: nat, n: nat) {
    exists q :: ChosenBy(h, t, n, q)
  }

  /** The first k positions were committed in term t or earlier. */
  ghost predicate Covered(h: History, t: nat, k: nat) {
    k == 0 || exists u, n :: (u, n) in h.commits && u <= t && k <= n
  }

  /** The log is a prefix of one committed in term t or earlier. */
  ghost predicate InCommitted(h: History, t: nat, log: Log) {
    log == [] || exists u, n :: (u, n) in h.commits && u <= t && OwnEntry(h, u, n) && log <= h.leaderLog[u][..n]
  }

  // ---------------------------------------------------------------- invariants

  /** Only terms that have had a leader have an owner and a quorum. */
  ghost predicate TermsOk(h: History) {
    (forall t :: t in h.owner ==> t in h.leaderLog) && (forall t :: t in h.quorum ==> t in h.leaderLog)
  }

  ghost predicate LeadersOk(h: History) {
    forall t :: t in h.leaderLog ==>
      && t >= 1
      && t in h.owner && t in h.quorum
      && IsQuorum(|h.terms|, h.quorum[t]) && h.owner[t] in h.quorum[t]
      && (forall p :: p in h.quorum[t] ==> p < |h.terms| && h.terms[p] >= t)
      && FromLeaders(h, h.leaderLog[t]) && AtMost(h.leaderLog[t], t) && Sorted(h.leaderLog[t])
  }

  ghost predicate LogsOk(h: History) {
    && |h.logs| == |h.terms|
    && |h.committed| == |h.terms|
    && forall p :: 0 <= p < |h.logs| ==>
      && FromLeaders(h, h.logs[p]) && AtMost(h.logs[p], h.terms[p])
      && KeepsAcks(h, h.logs[p], p, h.terms[p] + 1)
  }

  ghost predicate AcksOk(h: History) {
    forall t, p :: (t, p) in h.acked ==>
      p < |h.terms| && t <= h.terms[p] && t in h.leaderLog && h.acked[(t, p)] <= |h.leaderLog[t]|
  }

  ghost predicate ClaimsOk(h: History) {
    forall t, c :: (t, c) in h.claims ==>
      c < |h.terms| && t <= h.terms[c] && FromLeaders(h, h.claims[(t, c)])
  }

  ghost predicate GrantsOk(h: History) {
    forall t, p, c :: (t, p, c) in h.grants ==>
      && p < |h.terms| && t <= h.terms[p] && (t, c) in h.claims
      && UpToDate(h.claims[(t, c)], h.grants[(t, p, c)])
      && FromLeaders(h, h.grants[(t, p, c)])
      && KeepsAcks(h, h.grants[(t, p, c)], p, t)
  }

  /** Leader completeness: the log of every leader is safe with respect to all earlier terms. */
  ghost predicate Complete(h: History) {
    forall t :: t in h.leaderLog ==> Safe(h, h.leaderLog[t], t)
  }

  ghost predicate CommitsOk(h: History) {
    forall t, n :: (t, n) in h.commits ==> OwnEntry(h, t, n) && Chosen(h, t, n)
  }

  ghost predicate Ok(h: History) {
    TermsOk(h) && LeadersOk(h) && LogsOk(h) && AcksOk(h) && ClaimsOk(h) && GrantsOk(h) && Complete(h) && CommitsOk(h)
  }

  /** Nothing a history records is ever lost, and no server acknowledges for a term it has left. */
  ghost predicate Evolves(h: History, k: History) {
    && |k.terms| == |h.terms|
    && (forall p :: 0 <= p < |h.terms| ==> h.terms[p] <= k.terms[p])
    && (forall t :: t in h.leaderLog ==> t in k.leaderLog && h.leaderLog[t] <= k.leaderLog[t])
    && (forall t :: t in h.owner ==> t in k.owner && h.owner[t] == k.owner[t])
    && (forall t :: t in h.quorum ==> t in k.quorum && h.quorum[t] == k.quorum[t])
    && (forall t, p :: Ack(h, t, p) <= Ack(k, t, p))
    && (forall t, p :: 0 <= p < |h.terms| && t < h.terms[p] ==> Ack(k, t, p) == Ack(h, t, p))
    && (forall x :: x in h.claims ==> x in k.claims && k.claims[x] == h.claims[x])
    && (forall x :: x in h.grants ==> x in k.grants)
    && h.commits <= k.commits
  }

  // ---------------------------------------------------------------- stability

  lemma NeverStable(h: History, k: History, t: nat, n: nat)
    requires Evolves(h, k) && Never(h, t, n)
    ensures Never(k, t, n)
  {
    var q :| BlockedBy(h, t, n, q);
    assert BlockedBy(k, t, n, q);
  }

  lemma KeepsStable(h: History, k: History, log: Log, t: nat, n: nat)
    requires Evolves(h, k) && OwnEntry(h, t, n) && Keeps(h, log, t, n)
    ensures OwnEntry(k, t, n) && Keeps(k, log, t, n)
  {
    assert h.leaderLog[t][..n] == k.leaderLog[t][..n];
    if Never(h, t, n) {
      NeverStable(h, k, t, n);
    }
  }

  lemma FromLeadersStable(h: History, k: History, log: Log)
    requires Evolves(h, k) && FromLeaders(h, log)
    ensures FromLeaders(k, log)
  {
    forall i | 0 <= i < |log|
      ensures log[..i + 1] <= k.leaderLog[log[i].term]
    {
      PrefixOfPrefix(log[..i + 1], h.leaderLog[log[i].term], k.leaderLog[log[i].term]);
    }
  }

  lemma KeepsAcksStable(h: History, k: History, log: Log, p: nat, t: nat)
    requires Evolves(h, k) && AcksOk(h) && KeepsAcks(h, log, p, t)
    requires forall u: nat :: u < t ==> Ack(k, u, p) == Ack(h, u, p)
    ensures KeepsAcks(k, log, p, t)
  {
    forall u: nat, n: nat | OwnEntry(k, u, n) && u < t && n <= Ack(k, u, p)
      ensures Keeps(k, log, u, n)
    {
      assert Ack(k, u, p) == Ack(h, u, p);
      assert (u, p) in h.acked;
      assert OwnEntry(h, u, n);
      KeepsStable(h, k, log, u, n);
    }
  }

  lemma ChosenStable(h: History, k: History, t: nat, n: nat)
    requires Evolves(h, k) && Chosen(h, t, n)
    ensures Chosen(k, t, n)
  {
    var q :| ChosenBy(h, t, n, q);
    assert ChosenBy(k, t, n, q);
  }

  lemma GrantsStable(h: History, k: History)
    requires Evolves(h, k) && AcksOk(h) && GrantsOk(h) && h.grants == k.grants
    ensures GrantsOk(k)
  {
    forall t, p, c | (t, p, c) in k.grants
      ensures FromLeaders(k, k.grants[(t, p, c)]) && KeepsAcks(k, k.grants[(t, p, c)], p, t)
    {
      FromLeadersStable(h, k, h.grants[(t, p, c)]);
      KeepsAcksStable(h, k, h.grants[(t, p, c)], p, t);
    }
  }

  lemma ClaimsStable(h: History, k: History)
    requires Evolves(h, k) && ClaimsOk(h) && h.claims == k.claims
    ensures ClaimsOk(k)
  {
    forall t, c | (t, c) in k.claims
      ensures FromLeaders(k, k.claims[(t, c)])
    {
      FromLeadersStable(h, k, h.claims[(t, c)]);
    }
  }

  lemma CommitsStable(h: History, k: History)
    requires Evolves(h, k) && CommitsOk(h) && h.commits == k.commits
    ensures CommitsOk(k)
  {
    forall t, n | (t, n) in k.commits
      ensures OwnEntry(k, t, n) && Chosen(k, t, n)
    {
      ChosenStable(h, k, t, n);
    }
  }

  /** Steps that leave the leader logs alone keep them complete. */
  lemma LeadersStable(h: History, k: History)
    requires Evolves(h, k) && LeadersOk(h) && Complete(h) && h.leaderLog == k.leaderLog
    ensures LeadersOk(k) && Complete(k)
  {
    forall t | t in k.leaderLog
      ensures FromLeaders(k, k.leaderLog[t]) && Safe(k, k.leaderLog[t], t)
    {
      FromLeadersStable(h, k, h.leaderLog[t]);
      forall u: nat, n: nat | OwnEntry(k, u, n) && u < t
        ensures Keeps(k, k.leaderLog[t], u, n)
      {
        assert OwnEntry(h, u, n);
        KeepsStable(h, k, h.leaderLog[t], u, n);
      }
    }
  }

  lemma CoveredStable(h: History, k: History, t: nat, u: nat, n: nat)
    requires Evolves(h, k) && Covered(h, t, n) && t <= u
    ensures Covered(k, u, n)
  {
    if n != 0 {
      var v, m :| (v, m) in h.commits && v <= t && n <= m;
      assert (v, m) in k.commits;
    }
  }

  lemma InCommittedStable(h: History, k: History, t: nat, u: nat, log: Log)
    requires Evolves(h, k) && InCommitted(h, t, log) && t <= u
    ensures InCommitted(k, u, log)
  {
    if log != [] {
      var v, m :| (v, m) in h.commits && v <= t && OwnEntry(h, v, m) && log <= h.leaderLog[v][..m];
      assert (v, m) in k.commits && OwnEntry(k, v, m) && h.leaderLog[v][..m] == k.leaderLog[v][..m];
    }
  }

  // ---------------------------------------------------------------- facts about one history

  lemma TermsSorted(h: History, log: Log)
    requires LeadersOk(h) && FromLeaders(h, log)
    ensures Sorted(log)
  {
    forall i, j | 0 <= i <= j < |log|
      ensures log[i].term <= log[j].term
    {
      var leader := h.leaderLog[log[j].term];
      assert log[..j + 1][i] == leader[i] && log[..j + 1][j] == leader[j];
    }
  }

  /** Log matching: two logs with an equal term at a position agree up to it. */
  lemma LogsMatch(h: History, a: Log, b: Log, i: nat)
    requires FromLeaders(h, a) && FromLeaders(h, b)
    requires i < |a| && i < |b| && a[i].term == b[i].term
    ensures a[..i + 1] == b[..i + 1]
  {
    PrefixesOfOneLog(a[..i + 1], b[..i + 1], h.leaderLog[a[i].term]);
  }

  /** A log that starts with an entry of term t ends in term t or later. */
  lemma HoldsTerm(h: History, log: Log, t: nat, n: nat)
    requires LeadersOk(h) && FromLeaders(h, log) && OwnEntry(h, t, n) && h.leaderLog[t][..n] <= log
    ensures LastTerm(log) >= t && |log| >= n
  {
    TermsSorted(h, log);
    assert log[n - 1] == h.leaderLog[t][..n][n - 1];
  }

  lemma ChosenNotNever(h: History, t: nat, n: nat)
    requires Chosen(h, t, n)
    ensures !Never(h, t, n)
  {
    var q :| ChosenBy(h, t, n, q);
    forall r | IsQuorum(|h.terms|, r)
      ensures !BlockedBy(h, t, n, r)
    {
      var p := QuorumsMeet(|h.terms|, q, r);
      assert Ack(h, t, p) >= n;
    }
  }

  /** A committed prefix is in the leader log of every term from its own on. */
  lemma CommittedInLeader(h: History, u: nat, n: nat, t: nat)
    requires Complete(h) && CommitsOk(h) && (u, n) in h.commits && u <= t && t in h.leaderLog
    ensures h.leaderLog[u][..n] <= h.leaderLog[t]
  {
    if u < t {
      assert Keeps(h, h.leaderLog[t], u, n);
      ChosenNotNever(h, u, n);
    }
  }

  lemma CoveredInLeader(h: History, t: nat, log: Log)
    requires Complete(h) && CommitsOk(h) && t in h.leaderLog && InCommitted(h, t, log)
    ensures log <= h.leaderLog[t]
  {
    if log != [] {
      var u, n :| (u, n) in h.commits && u <= t && OwnEntry(h, u, n) && log <= h.leaderLog[u][..n];
      CommittedInLeader(h, u, n, t);
      PrefixOfPrefix(log, h.leaderLog[u][..n], h.leaderLog[t]);
    }
  }

  /** A covered length cuts every leader log at a committed prefix. */
  lemma CoveredIsCommitted(h: History, t: nat, k: nat)
    requires Complete(h) && CommitsOk(h) && t in h.leaderLog && Covered(h, t, k) && k <= |h.leaderLog[t]|
    ensures InCommitted(h, t, h.leaderLog[t][..k])
  {
    if k > 0 {
      var u, n :| (u, n) in h.commits && u <= t && k <= n;
      CommittedInLeader(h, u, n, t);
      assert h.leaderLog[t][..k] <= h.leaderLog[u][..n];
    }
  }

  /** Committed prefixes, of whatever term, are prefixes of one another. */
  lemma CommittedChain(h: History, t: nat, a: Log, u: nat, b: Log)
    requires Complete(h) && CommitsOk(h) && InCommitted(h, t, a) && InCommitted(h, u, b) && |a| <= |b|
    ensures a <= b
  {
    if a != [] {
      var v, m :| (v, m) in h.commits && v <= t && OwnEntry(h, v, m) && a <= h.leaderLog[v][..m];
      var w, n :| (w, n) in h.commits && w <= u && OwnEntry(h, w, n) && b <= h.leaderLog[w][..n];
      var x := if v <= w then w else v;
      CommittedInLeader(h, v, m, x);
      CommittedInLeader(h, w, n, x);
      PrefixesOfOneLog(a, b, h.leaderLog[x]);
    }
  }

  /** What may still be committed agrees with what has been committed. */
  lemma KeptByCommitted(h: History, log: Log, t: nat, n: nat, u: nat, c: Log)
    requires Complete(h) && CommitsOk(h) && OwnEntry(h, t, n) && Keeps(h, log, t, n)
    requires InCommitted(h, u, c) && |log| <= |c|
    ensures Keeps(h, c, t, n)
  {
    if !Never(h, t, n) {
      var own := h.leaderLog[t][..n];
      var v, m :| (v, m) in h.commits && v <= u && OwnEntry(h, v, m) && c <= h.leaderLog[v][..m];
      if t < v {
        assert Keeps(h, h.leaderLog[v], t, n);
        PrefixesOfOneLog(own, c, h.leaderLog[v]);
      } else {
        CommittedInLeader(h, v, m, t);
        PrefixesOfOneLog(own, c, h.leaderLog[t]);
      }
    }
  }
}
