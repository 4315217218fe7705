/** The ways a history grows, one for each kind of protocol step, and the proof that each keeps it in order. */
module RaftProgress {
  import opened RaftTypes
  import opened RaftHistory

  /** Another server's log is untouched by a step. */
  ghost predicate SameServer(h: History, k: History, p: nat) {
    && p < |h.terms| && p < |h.logs| && p < |k.terms| && p < |k.logs|
    && h.terms[p] == k.terms[p] && h.logs[p] == k.logs[p]
    && forall u: nat :: Ack(h, u, p) == Ack(k, u, p)
  }

  lemma ServerLogStable(h: History, k: History, p: nat)
    requires Evolves(h, k) && AcksOk(h) && LogsOk(h) && SameServer(h, k, p)
    ensures FromLeaders(k, k.logs[p]) && AtMost(k.logs[p], k.terms[p]) && KeepsAcks(k, k.logs[p], p, k.terms[p] + 1)
  {
    FromLeadersStable(h, k, h.logs[p]);
    KeepsAcksStable(h, k, h.logs[p], p, h.terms[p] + 1);
  }

  ghost predicate OnlyServer(h: History, k: History, p: nat) {
    && |k.logs| == |h.logs| && |k.committed| == |h.committed|
    && forall q: nat :: q < |h.logs| && q != p ==> SameServer(h, k, q)
  }

  ghost predicate ServerLogOk(h: History, p: nat)
    requires p < |h.terms| && p < |h.logs|
  {
    FromLeaders(h, h.logs[p]) && AtMost(h.logs[p], h.terms[p]) && KeepsAcks(h, h.logs[p], p, h.terms[p] + 1)
  }

  /** After a step of server p only p's own log needs attention. */
  lemma LogsOkAfter(h: History, k: History, p: nat)
    requires Evolves(h, k) && AcksOk(h) && LogsOk(h) && OnlyServer(h, k, p)
    requires p < |h.terms| ==> ServerLogOk(k, p)
    ensures LogsOk(k)
  {
    forall q | 0 <= q < |k.logs|
      ensures FromLeaders(k, k.logs[q]) && AtMost(k.logs[q], k.terms[q]) && KeepsAcks(k, k.logs[q], q, k.terms[q] + 1)
    {
      if q != p {
        ServerLogStable(h, k, q);
      }
    }
  }

  /** Everything a step leaves alone stays in order. */
  lemma RestStable(h: History, k: History)
    requires Evolves(h, k) && Ok(h) && h.claims == k.claims && h.grants == k.grants && h.commits == k.commits
    ensures ClaimsOk(k) && GrantsOk(k) && CommitsOk(k)
  {
    ClaimsStable(h, k);
    GrantsStable(h, k);
    CommitsStable(h, k);
  }

  // ---------------------------------------------------------------- a server moves to a later term

  function RaiseTerm(h: History, p: nat, t: nat): (k: History)
    requires p < |h.terms|
  {
    h.(terms := h.terms[p := t])
  }

  lemma RaiseTermOk(h: History, p: nat, t: nat)
    requires Ok(h) && p < |h.terms| && h.terms[p] <= t
    ensures Ok(RaiseTerm(h, p, t)) && Evolves(h, RaiseTerm(h, p, t))
  {
    var k := RaiseTerm(h, p, t);
    RaiseTermEvolves(h, p, t);
    RaisedLogOk(h, p, t);
    LogsOkAfter(h, k, p);
    LeadersStable(h, k);
    RestStable(h, k);
  }

  lemma RaiseTermEvolves(h: History, p: nat, t: nat)
    requires AcksOk(h) && |h.logs| == |h.terms| && p < |h.terms| && h.terms[p] <= t
    ensures Evolves(h, RaiseTerm(h, p, t)) && OnlyServer(h, RaiseTerm(h, p, t), p) && AcksOk(RaiseTerm(h, p, t))
  {
  }

  lemma RaisedLogOk(h: History, p: nat, t: nat)
    requires AcksOk(h) && LogsOk(h) && p < |h.terms| && h.terms[p] <= t && Evolves(h, RaiseTerm(h, p, t))
    ensures ServerLogOk(RaiseTerm(h, p, t), p)
  {
    var k := RaiseTerm(h, p, t);
    FromLeadersStable(h, k, h.logs[p]);
    assert KeepsAcks(h, h.logs[p], p, t + 1) by {
      forall u: nat, n: nat | OwnEntry(h, u, n) && u < t + 1 && n <= Ack(h, u, p)
        ensures Keeps(h, h.logs[p], u, n)
      {
        assert (u, p) in h.acked;
      }
    }
    KeepsAcksStable(h, k, h.logs[p], p, t + 1);
  }

  // ---------------------------------------------------------------- a candidate asks for votes, a voter grants one

  function Ask(h: History, c: nat): (k: History)
    requires c < |h.terms| && |h.logs| == |h.terms|
  {
    var t := h.terms[c];
    h.(claims := h.claims[(t, c) := h.logs[c]], grants := h.grants[(t, c, c) := h.logs[c]])
  }

  lemma AskOk(h: History, c: nat)
    requires Ok(h) && c < |h.terms| && (h.terms[c], c) !in h.claims
    ensures Ok(Ask(h, c)) && Evolves(h, Ask(h, c))
  {
    var k := Ask(h, c);
    AskEvolves(h, c);
    LogsOkAfter(h, k, |h.logs|);
    LeadersStable(h, k);
    CommitsStable(h, k);
    ClaimsOkAfterAsk(h, c);
    GrantsOkAfterGrant(h, k, h.terms[c], c, c);
  }

  lemma AskEvolves(h: History, c: nat)
    requires |h.logs| == |h.terms| && c < |h.terms| && (h.terms[c], c) !in h.claims
    ensures Evolves(h, Ask(h, c)) && OnlyServer(h, Ask(h, c), |h.logs|)
  {
  }

  lemma ClaimsOkAfterAsk(h: History, c: nat)
    requires ClaimsOk(h) && LogsOk(h) && c < |h.terms| && Evolves(h, Ask(h, c))
    ensures ClaimsOk(Ask(h, c))
  {
  }

  lemma GrantsOkAfterGrant(h: History, k: History, t: nat, p: nat, c: nat)
    requires Evolves(h, k) && AcksOk(h) && LogsOk(h) && GrantsOk(h)
    requires p < |h.terms| && h.terms[p] == t == k.terms[p] && (t, c) in k.claims
    requires UpToDate(k.claims[(t, c)], h.logs[p])
    requires k.grants == h.grants[(t, p, c) := h.logs[p]]
    ensures GrantsOk(k)
  {
    forall u, q, d | (u, q, d) in k.grants
      ensures (u, d) in k.claims && UpToDate(k.claims[(u, d)], k.grants[(u, q, d)])
      ensures FromLeaders(k, k.grants[(u, q, d)]) && KeepsAcks(k, k.grants[(u, q, d)], q, u)
    {
      var log := k.grants[(u, q, d)];
      if (u, q, d) == (t, p, c) {
        assert KeepsAcks(h, log, q, u);
      }
      FromLeadersStable(h, k, log);
      KeepsAcksStable(h, k, log, q, u);
    }
  }

  function Grant(h: History, p: nat, c: nat): (k: History)
    requires p < |h.terms| && |h.logs| == |h.terms|
  {
    h.(grants := h.grants[(h.terms[p], p, c) := h.logs[p]])
  }

  lemma GrantEvolves(h: History, p: nat, c: nat)
    requires |h.logs| == |h.terms| && p < |h.terms|
    ensures Evolves(h, Grant(h, p, c)) && OnlyServer(h, Grant(h, p, c), |h.logs|)
  {
  }

  lemma GrantOk(h: History, p: nat, c: nat)
    requires Ok(h) && p < |h.terms| && (h.terms[p], c) in h.claims
    requires UpToDate(h.claims[(h.terms[p], c)], h.logs[p])
    ensures Ok(Grant(h, p, c)) && Evolves(h, Grant(h, p, c))
  {
    var k := Grant(h, p, c);
    GrantEvolves(h, p, c);
    LogsOkAfter(h, k, |h.logs|);
    LeadersStable(h, k);
    CommitsStable(h, k);
    ClaimsStable(h, k);
    GrantsOkAfterGrant(h, k, h.terms[p], p, c);
  }

  // ---------------------------------------------------------------- a candidate becomes leader

  ghost predicate AllGranted(h: History, t: nat, c: nat, votes: set<nat>) {
    forall p :: p in votes ==> (t, p, c) in h.grants
  }

  /** The votes of a majority make the log the candidate asked with safe. */
  lemma VotesMakeSafe(h: History, t: nat, c: nat, votes: set<nat>)
    requires Ok(h) && t !in h.leaderLog && IsQuorum(|h.terms|, votes) && AllGranted(h, t, c, votes)
    requires (t, c) in h.claims
    ensures Safe(h, h.claims[(t, c)], t)
  {
    var log := h.claims[(t, c)];
    forall u: nat, n: nat | OwnEntry(h, u, n) && u < t
      ensures Keeps(h, log, u, n)
    {
      if LastTerm(log) > u {
        KeptByLastLeader(h, log, u, n);
      } else if LastTerm(log) == u && |log| >= n {
        LogEndsIn(h, log, u, n);
      } else {
        OlderClaimBlocks(h, t, c, votes, u, n);
      }
    }
  }

  /** A log ending in a later term holds what the leader of that term held. */
  lemma KeptByLastLeader(h: History, log: Log, u: nat, n: nat)
    requires LeadersOk(h) && Complete(h) && FromLeaders(h, log) && OwnEntry(h, u, n) && LastTerm(log) > u
    ensures Keeps(h, log, u, n)
  {
  }

  lemma LogEndsIn(h: History, log: Log, u: nat, n: nat)
    requires LeadersOk(h) && FromLeaders(h, log) && OwnEntry(h, u, n) && LastTerm(log) == u && |log| >= n
    ensures h.leaderLog[u][..n] <= log
  {
  }

  /** If the claimed log is older than (u, n), no voter stored that much of term u. */
  lemma OlderClaimBlocks(h: History, t: nat, c: nat, votes: set<nat>, u: nat, n: nat)
    requires Ok(h) && IsQuorum(|h.terms|, votes) && AllGranted(h, t, c, votes) && (t, c) in h.claims
    requires OwnEntry(h, u, n) && u < t
    requires LastTerm(h.claims[(t, c)]) < u || (LastTerm(h.claims[(t, c)]) == u && |h.claims[(t, c)]| < n)
    ensures Never(h, u, n)
  {
    if p :| p in votes && Ack(h, u, p) >= n {
      var log := h.grants[(t, p, c)];
      assert Keeps(h, log, u, n);
      if h.leaderLog[u][..n] <= log {
        HoldsTerm(h, log, u, n);
        assert false;
      }
    } else {
      assert BlockedBy(h, u, n, votes);
    }
  }

  /** The candidate may have installed a snapshot since it asked for votes. */
  ghost predicate StillClaims(h: History, c: nat)
    requires c < |h.terms| && |h.logs| == |h.terms|
  {
    var key := (h.terms[c], c);
    && key in h.claims
    && (h.logs[c] == h.claims[key] || (InCommitted(h, h.terms[c], h.logs[c]) && |h.claims[key]| <= |h.logs[c]|))
  }

  function Elect(h: History, c: nat, votes: set<nat>): (k: History)
    requires c < |h.terms| && |h.logs| == |h.terms|
  {
    var t := h.terms[c];
    h.(leaderLog := h.leaderLog[t := h.logs[c]], owner := h.owner[t := c], quorum := h.quorum[t := votes],
       acked := h.acked[(t, c) := |h.logs[c]|])
  }

  lemma ElectedLogSafe(h: History, c: nat, votes: set<nat>)
    requires Ok(h) && c < |h.terms| && h.terms[c] !in h.leaderLog && StillClaims(h, c)
    requires IsQuorum(|h.terms|, votes) && AllGranted(h, h.terms[c], c, votes)
    ensures Safe(h, h.logs[c], h.terms[c])
  {
    var t := h.terms[c];
    var log := h.claims[(t, c)];
    VotesMakeSafe(h, t, c, votes);
    if h.logs[c] != log {
      forall u: nat, n: nat | OwnEntry(h, u, n) && u < t
        ensures Keeps(h, h.logs[c], u, n)
      {
        KeptByCommitted(h, log, u, n, t, h.logs[c]);
      }
    }
  }

  lemma ElectOk(h: History, c: nat, votes: set<nat>)
    requires Ok(h) && c < |h.terms| && h.terms[c] >= 1 && h.terms[c] !in h.leaderLog && StillClaims(h, c)
    requires IsQuorum(|h.terms|, votes) && c in votes && AllGranted(h, h.terms[c], c, votes)
    ensures Ok(Elect(h, c, votes)) && Evolves(h, Elect(h, c, votes))
  {
    hide TermsOk, LeadersOk, AcksOk, ClaimsOk, GrantsOk, Complete, CommitsOk, Evolves, StillClaims, AllGranted,
         IsQuorum, Safe, FromLeaders, OwnEntry, ServerLogOk;
    var k := Elect(h, c, votes);
    ElectEvolves(h, c, votes);
    ElectAddsNoOwnEntry(h, c, votes);
    ElectedLogSafe(h, c, votes);
    ElectLeadersOk(h, k, c, votes);
    ElectedOwnLogOk(h, c, votes);
    LogsOkAfter(h, k, c);
    RestStable(h, k);
  }

  lemma ElectEvolves(h: History, c: nat, votes: set<nat>)
    requires TermsOk(h) && AcksOk(h) && |h.logs| == |h.terms| && c < |h.terms| && h.terms[c] !in h.leaderLog
    ensures Evolves(h, Elect(h, c, votes)) && AcksOk(Elect(h, c, votes)) && TermsOk(Elect(h, c, votes))
  {
    assert (h.terms[c], c) !in h.acked;
  }

  lemma ElectAddsNoOwnEntry(h: History, c: nat, votes: set<nat>)
    requires |h.logs| == |h.terms| && c < |h.terms| && FromLeaders(h, h.logs[c]) && h.terms[c] !in h.leaderLog
    ensures forall u: nat, n: nat :: OwnEntry(Elect(h, c, votes), u, n) ==> OwnEntry(h, u, n)
  {
  }

  lemma ElectedOwnLogOk(h: History, c: nat, votes: set<nat>)
    requires Ok(h) && c < |h.terms| && Evolves(h, Elect(h, c, votes)) && Safe(h, h.logs[c], h.terms[c])
    requires forall u: nat, n: nat :: OwnEntry(Elect(h, c, votes), u, n) ==> OwnEntry(h, u, n)
    requires h.terms[c] !in h.leaderLog
    ensures ServerLogOk(Elect(h, c, votes), c)
  {
    var k := Elect(h, c, votes);
    FromLeadersStable(h, k, h.logs[c]);
    forall u: nat, n: nat | OwnEntry(k, u, n) && u < h.terms[c] + 1 && n <= Ack(k, u, c)
      ensures Keeps(k, k.logs[c], u, n)
    {
      KeepsStable(h, k, h.logs[c], u, n);
    }
  }

  lemma ElectLeadersOk(h: History, k: History, c: nat, votes: set<nat>)
    requires LeadersOk(h) && LogsOk(h) && GrantsOk(h) && Complete(h)
    requires c < |h.terms| && h.terms[c] >= 1 && k == Elect(h, c, votes) && Evolves(h, k)
    requires IsQuorum(|h.terms|, votes) && c in votes && AllGranted(h, h.terms[c], c, votes)
    requires Safe(h, h.logs[c], h.terms[c])
    requires forall u: nat, n: nat :: OwnEntry(k, u, n) ==> OwnEntry(h, u, n)
    ensures LeadersOk(k) && Complete(k)
  {
    TermsSorted(h, h.logs[c]);
    forall t | t in k.leaderLog
      ensures FromLeaders(k, k.leaderLog[t]) && Safe(k, k.leaderLog[t], t)
    {
      FromLeadersStable(h, k, k.leaderLog[t]);
      assert Safe(h, k.leaderLog[t], t);
      forall u: nat, n: nat | OwnEntry(k, u, n) && u < t
        ensures Keeps(k, k.leaderLog[t], u, n)
      {
        KeepsStable(h, k, k.leaderLog[t], u, n);
      }
    }
    assert forall p :: p in votes ==> (h.terms[c], p, c) in h.grants;
  }

  // ---------------------------------------------------------------- the leader of a term appends a command

  function Extend(h: History, c: nat, command: Command): (k: History)
    requires c < |h.terms| && |h.logs| == |h.terms|
  {
    var t := h.terms[c];
    var log := h.logs[c] + [Entry(t, |h.logs[c]| + 1, command)];
    h.(leaderLog := h.leaderLog[t := log], logs := h.logs[c := log], acked := h.acked[(t, c) := |log|])
  }

  lemma ExtendOk(h: History, c: nat, command: Command)
    requires Ok(h) && c < |h.terms| && h.terms[c] in h.leaderLog && h.leaderLog[h.terms[c]] == h.logs[c]
    ensures Ok(Extend(h, c, command)) && Evolves(h, Extend(h, c, command))
  {
    var k := Extend(h, c, command);
    ExtendEvolves(h, c, command);
    NewLogFromLeaders(h, k, h.logs[c], Entry(h.terms[c], |h.logs[c]| + 1, command));
    ExtendLeadersOk(h, k, c, command);
    ExtendLogsOk(h, k, c, command);
    RestStable(h, k);
  }

  lemma ExtendLogsOk(h: History, k: History, c: nat, command: Command)
    requires AcksOk(h) && LogsOk(h) && c < |h.terms|
    requires h.terms[c] in h.leaderLog && h.leaderLog[h.terms[c]] == h.logs[c]
    requires k == Extend(h, c, command) && Evolves(h, k) && FromLeaders(k, k.logs[c]) && AtMost(k.logs[c], h.terms[c])
    requires OnlyServer(h, k, c)
    ensures LogsOk(k)
  {
    ExtendOwnLogOk(h, k, c, command);
    LogsOkAfter(h, k, c);
  }

  lemma ExtendEvolves(h: History, c: nat, command: Command)
    requires AcksOk(h) && |h.logs| == |h.terms| && c < |h.terms|
    requires h.terms[c] in h.leaderLog && h.leaderLog[h.terms[c]] == h.logs[c]
    ensures Evolves(h, Extend(h, c, command)) && AcksOk(Extend(h, c, command))
    ensures OnlyServer(h, Extend(h, c, command), c)
  {
    assert Ack(h, h.terms[c], c) <= |h.logs[c]|;
  }

  lemma NewLogFromLeaders(h: History, k: History, log: Log, entry: Entry)
    requires Evolves(h, k) && FromLeaders(h, log) && AtMost(log, entry.term) && Sorted(log)
    requires entry.index == |log| + 1 && entry.term in k.leaderLog && k.leaderLog[entry.term] == log + [entry]
    ensures FromLeaders(k, log + [entry]) && AtMost(log + [entry], entry.term) && Sorted(log + [entry])
  {
  }

  lemma ExtendLeadersOk(h: History, k: History, c: nat, command: Command)
    requires LeadersOk(h) && AcksOk(h) && Complete(h) && |h.logs| == |h.terms| && c < |h.terms|
    requires h.terms[c] in h.leaderLog && h.leaderLog[h.terms[c]] == h.logs[c]
    requires k == Extend(h, c, command) && Evolves(h, k)
    requires FromLeaders(k, k.logs[c]) && AtMost(k.logs[c], h.terms[c]) && Sorted(k.logs[c])
    ensures LeadersOk(k) && Complete(k)
  {
    hide Never, AcksOk, IsQuorum, Keeps, Evolves, FromLeaders, AtMost, Sorted, OwnEntry;
    forall v | v in k.leaderLog
      ensures FromLeaders(k, k.leaderLog[v]) && Safe(k, k.leaderLog[v], v)
    {
      FromLeadersStable(h, k, h.leaderLog[v]);
      forall u: nat, n: nat | OwnEntry(k, u, n) && u < v
        ensures Keeps(k, k.leaderLog[v], u, n)
      {
        ExtendKeeps(h, k, c, command, v, u, n);
      }
    }
  }

  /** A later leader either holds the new entry's predecessors or was elected by servers that will never store it. */
  lemma ExtendKeeps(h: History, k: History, c: nat, command: Command, v: nat, u: nat, n: nat)
    requires LeadersOk(h) && AcksOk(h) && Complete(h) && |h.logs| == |h.terms| && c < |h.terms|
    requires h.terms[c] in h.leaderLog && h.leaderLog[h.terms[c]] == h.logs[c]
    requires k == Extend(h, c, command) && Evolves(h, k)
    requires v in h.leaderLog && OwnEntry(k, u, n) && u < v
    ensures Keeps(k, k.leaderLog[v], u, n)
  {
    if OwnEntry(h, u, n) {
      KeepsStable(h, k, h.leaderLog[v], u, n);
      if k.leaderLog[u][..n] <= h.leaderLog[v] {
        PrefixOfPrefix(k.leaderLog[u][..n], h.leaderLog[v], k.leaderLog[v]);
      }
    } else {
      assert u == h.terms[c] && n == |h.logs[c]| + 1;
      forall p | p in h.quorum[v]
        ensures p < |k.terms| && k.terms[p] > u && Ack(k, u, p) < n
      {
        assert Ack(h, u, p) < n;
      }
      assert BlockedBy(k, u, n, h.quorum[v]);
    }
  }

  lemma ExtendOwnLogOk(h: History, k: History, c: nat, command: Command)
    requires AcksOk(h) && LogsOk(h) && c < |h.terms|
    requires h.terms[c] in h.leaderLog && h.leaderLog[h.terms[c]] == h.logs[c]
    requires k == Extend(h, c, command) && Evolves(h, k) && FromLeaders(k, k.logs[c]) && AtMost(k.logs[c], h.terms[c])
    ensures ServerLogOk(k, c)
  {
    var t := h.terms[c];
    forall u: nat, n: nat | OwnEntry(k, u, n) && u < t + 1 && n <= Ack(k, u, c)
      ensures Keeps(k, k.logs[c], u, n)
    {
      if u < t {
        assert OwnEntry(h, u, n) by { assert (u, c) in h.acked; }
        KeepsStable(h, k, h.logs[c], u, n);
        if k.leaderLog[u][..n] <= h.logs[c] {
          PrefixOfPrefix(k.leaderLog[u][..n], h.logs[c], k.logs[c]);
        }
      }
    }
  }

  // ---------------------------------------------------------------- a server stores a prefix of its leader's log

  function Stored(log: Log, sent: Log): (r: Log) {
    if sent <= log then log else sent
  }

  function Store(h: History, p: nat, m: nat): (k: History)
    requires p < |h.terms| && |h.logs| == |h.terms|
    requires h.terms[p] in h.leaderLog && m <= |h.leaderLog[h.terms[p]]|
  {
    var t := h.terms[p];
    h.(logs := h.logs[p := Stored(h.logs[p], h.leaderLog[t][..m])],
       acked := h.acked[(t, p) := if Ack(h, t, p) > m then Ack(h, t, p) else m])
  }

  /** Storing the sent prefix keeps whatever the old log shares with the leader. */
  lemma StoredKeepsShared(log: Log, leader: Log, m: nat, shared: Log)
    requires m <= |leader| && shared <= log && shared <= leader
    ensures shared <= Stored(log, leader[..m])
  {
  }

  lemma StoreOk(h: History, p: nat, m: nat)
    requires Ok(h) && p < |h.terms| && h.terms[p] in h.leaderLog && m <= |h.leaderLog[h.terms[p]]|
    ensures Ok(Store(h, p, m)) && Evolves(h, Store(h, p, m))
  {
    var k := Store(h, p, m);
    StoreEvolves(h, p, m);
    LeadersStable(h, k);
    StoredLogOk(h, k, p, m);
    LogsOkAfter(h, k, p);
    RestStable(h, k);
  }

  lemma StoreEvolves(h: History, p: nat, m: nat)
    requires AcksOk(h) && |h.logs| == |h.terms| && p < |h.terms|
    requires h.terms[p] in h.leaderLog && m <= |h.leaderLog[h.terms[p]]|
    ensures Evolves(h, Store(h, p, m)) && AcksOk(Store(h, p, m)) && OnlyServer(h, Store(h, p, m), p)
  {
  }

  lemma StoredLogOk(h: History, k: History, p: nat, m: nat)
    requires LeadersOk(h) && LogsOk(h) && AcksOk(h) && Complete(h)
    requires p < |h.terms| && h.terms[p] in h.leaderLog && m <= |h.leaderLog[h.terms[p]]|
    requires k == Store(h, p, m) && Evolves(h, k)
    ensures ServerLogOk(k, p)
  {
    var t := h.terms[p];
    var leader := h.leaderLog[t];
    assert FromLeaders(h, leader[..m]) by {
      forall i | 0 <= i < m
        ensures leader[..m][..i + 1] <= h.leaderLog[leader[i].term]
      {
        assert leader[..m][..i + 1] == leader[..i + 1];
      }
    }
    FromLeadersStable(h, k, k.logs[p]);
    forall u: nat, n: nat | OwnEntry(k, u, n) && u < t + 1 && n <= Ack(k, u, p)
      ensures Keeps(k, k.logs[p], u, n)
    {
      assert OwnEntry(h, u, n);
      StoredKeeps(h, p, m, u, n);
      KeepsStable(h, k, k.logs[p], u, n);
    }
  }

  lemma StoredKeeps(h: History, p: nat, m: nat, u: nat, n: nat)
    requires LeadersOk(h) && LogsOk(h) && AcksOk(h) && Complete(h)
    requires p < |h.terms| && h.terms[p] in h.leaderLog && m <= |h.leaderLog[h.terms[p]]|
    requires OwnEntry(h, u, n) && u <= h.terms[p] && n <= Ack(Store(h, p, m), u, p)
    ensures Keeps(h, Stored(h.logs[p], h.leaderLog[h.terms[p]][..m]), u, n)
  {
    var t := h.terms[p];
    var leader := h.leaderLog[t];
    var own := h.leaderLog[u][..n];
    if u == t && n <= m {
      PrefixesOfOneLog(own, leader[..m], leader);
      PrefixOfPrefix(own, leader[..m], Stored(h.logs[p], leader[..m]));
    } else {
      assert n <= Ack(h, u, p);
      assert Keeps(h, h.logs[p], u, n);
      if !Never(h, u, n) {
        if u < t {
          assert Keeps(h, leader, u, n);
        }
        StoredKeepsShared(h.logs[p], leader, m, own);
      }
    }
  }

  // ---------------------------------------------------------------- a snapshot past the end of the log

  function Replace(h: History, p: nat, log: Log): (k: History)
    requires p < |h.terms| && |h.logs| == |h.terms|
  {
    h.(logs := h.logs[p := log])
  }

  lemma CommittedLogWellFormed(h: History, t: nat, log: Log)
    requires LeadersOk(h) && InCommitted(h, t, log)
    ensures FromLeaders(h, log) && AtMost(log, t)
  {
    if log != [] {
      var u, n :| (u, n) in h.commits && u <= t && OwnEntry(h, u, n) && log <= h.leaderLog[u][..n];
      var leader := h.leaderLog[u];
      forall i | 0 <= i < |log|
        ensures log[i] == leader[i] && log[..i + 1] <= h.leaderLog[log[i].term]
      {
        assert log[i] == leader[..n][i];
        assert log[..i + 1] == leader[..i + 1];
      }
    }
  }

  lemma ReplaceOk(h: History, p: nat, log: Log)
    requires Ok(h) && p < |h.terms| && InCommitted(h, h.terms[p], log) && |h.logs[p]| <= |log|
    ensures Ok(Replace(h, p, log)) && Evolves(h, Replace(h, p, log))
  {
    var k := Replace(h, p, log);
    ReplaceEvolves(h, p, log);
    LeadersStable(h, k);
    ReplacedLogOk(h, p, log);
    LogsOkAfter(h, k, p);
    RestStable(h, k);
  }

  lemma ReplaceEvolves(h: History, p: nat, log: Log)
    requires AcksOk(h) && |h.logs| == |h.terms| && p < |h.terms|
    ensures Evolves(h, Replace(h, p, log)) && AcksOk(Replace(h, p, log)) && OnlyServer(h, Replace(h, p, log), p)
  {
  }

  lemma ReplacedLogOk(h: History, p: nat, log: Log)
    requires LeadersOk(h) && LogsOk(h) && Complete(h) && CommitsOk(h) && p < |h.terms|
    requires Evolves(h, Replace(h, p, log)) && InCommitted(h, h.terms[p], log) && |h.logs[p]| <= |log|
    ensures ServerLogOk(Replace(h, p, log), p)
  {
    var k := Replace(h, p, log);
    CommittedLogWellFormed(h, h.terms[p], log);
    FromLeadersStable(h, k, log);
    forall u: nat, n: nat | OwnEntry(k, u, n) && u < k.terms[p] + 1 && n <= Ack(k, u, p)
      ensures Keeps(k, k.logs[p], u, n)
    {
      assert OwnEntry(h, u, n) && n <= Ack(h, u, p);
      KeptByCommitted(h, h.logs[p], u, n, h.terms[p], log);
      KeepsStable(h, k, log, u, n);
    }
  }

  // ---------------------------------------------------------------- a majority has stored a prefix

  function Commit(h: History, t: nat, n: nat): (k: History) {
    h.(commits := h.commits + {(t, n)})
  }

  lemma CommitOk(h: History, t: nat, n: nat, q: set<nat>)
    requires Ok(h) && OwnEntry(h, t, n) && ChosenBy(h, t, n, q)
    ensures Ok(Commit(h, t, n)) && Evolves(h, Commit(h, t, n))
  {
    var k := Commit(h, t, n);
    CommitEvolves(h, t, n);
    LeadersStable(h, k);
    LogsOkAfter(h, k, |h.logs|);
    ClaimsStable(h, k);
    GrantsStable(h, k);
    CommitAdded(h, t, n, q);
  }

  lemma CommitEvolves(h: History, t: nat, n: nat)
    requires AcksOk(h) && |h.logs| == |h.terms|
    ensures Evolves(h, Commit(h, t, n)) && AcksOk(Commit(h, t, n)) && OnlyServer(h, Commit(h, t, n), |h.logs|)
  {
  }

  lemma CommitAdded(h: History, t: nat, n: nat, q: set<nat>)
    requires CommitsOk(h) && OwnEntry(h, t, n) && ChosenBy(h, t, n, q) && Evolves(h, Commit(h, t, n))
    ensures CommitsOk(Commit(h, t, n))
  {
    var k := Commit(h, t, n);
    forall u, m | (u, m) in k.commits
      ensures OwnEntry(k, u, m) && Chosen(k, u, m)
    {
      assert OwnEntry(h, u, m) && Chosen(h, u, m);
      ChosenStable(h, k, u, m);
    }
  }

  // ---------------------------------------------------------------- what a server knows to be committed

  function Learn(h: History, p: nat, log: Log): (k: History)
    requires p < |h.committed|
  {
    h.(committed := h.committed[p := log])
  }

  lemma LearnEvolves(h: History, p: nat, log: Log)
    requires AcksOk(h) && |h.logs| == |h.terms| && p < |h.committed|
    ensures Evolves(h, Learn(h, p, log)) && AcksOk(Learn(h, p, log)) && OnlyServer(h, Learn(h, p, log), |h.logs|)
  {
  }

  lemma LearnOk(h: History, p: nat, log: Log)
    requires Ok(h) && p < |h.terms|
    ensures Ok(Learn(h, p, log)) && Evolves(h, Learn(h, p, log))
  {
    var k := Learn(h, p, log);
    LearnEvolves(h, p, log);
    LeadersStable(h, k);
    LogsOkAfter(h, k, |h.logs|);
    RestStable(h, k);
  }
}
