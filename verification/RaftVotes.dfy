/** Votes: how each step treats them, and why no term ever gets a second leader. */
module RaftVotes {
  import opened RaftTypes
  import opened RaftHistory
  import opened RaftProgress
  import opened RaftInvariant

  ghost predicate SameElections(h: History, k: History) {
    && k.terms == h.terms && k.grants == h.grants && k.owner == h.owner && k.quorum == h.quorum
    && forall t :: t in k.leaderLog <==> t in h.leaderLog
  }

  lemma VotesSame(h: History, k: History, b: seq<Ballot>)
    requires VotesOk(h, b) && SameElections(h, k)
    ensures VotesOk(k, b)
  {
  }

  /** Server i has taken no part in term t. */
  ghost predicate Unused(h: History, i: nat, t: nat) {
    (forall c :: (t, i, c) !in h.grants) && !Elector(h, t, i) && !Owns(h, t, i) && (t, i) !in h.claims
  }

  lemma LaterTermUnused(h: History, i: nat, t: nat)
    requires LeadersOk(h) && ClaimsOk(h) && GrantsOk(h) && i < |h.terms| && h.terms[i] < t
    ensures Unused(h, i, t)
  {
  }

  lemma VotesRaised(h: History, b: seq<Ballot>, i: nat, t: nat, vote: Ballot)
    requires VotesOk(h, b) && i < |b| && Unused(h, i, t) && (vote.candidate ==> vote.votedFor == i)
    ensures VotesOk(RaiseTerm(h, i, t), b[i := vote])
  {
  }

  lemma VotesAsked(h: History, b: seq<Ballot>, i: nat, t: nat)
    requires VotesOk(h, b) && i < |b| && |h.logs| == |h.terms| && Unused(h, i, t)
    ensures VotesOk(Ask(RaiseTerm(h, i, t), i), b[i := Ballot(i, true)])
  {
    var k := RaiseTerm(h, i, t);
    VotesRaised(h, b, i, t, Ballot(i, true));
    OwnVoteForeign(k, b[i := Ballot(i, true)], i);
    hide OneForeignVote;
    assert forall u: nat, p: nat :: Elector(k, u, p) <==> Elector(Ask(k, i), u, p);
  }

  lemma OwnVoteForeign(h: History, b: seq<Ballot>, i: nat)
    requires |b| == |h.terms| == |h.logs| && i < |b| && OneForeignVote(h, b)
    ensures OneForeignVote(Ask(h, i), b)
  {
  }

  lemma VotesGranted(h: History, b: seq<Ballot>, p: nat, c: nat)
    requires VotesOk(h, b) && p < |b| && |h.logs| == |h.terms| && (b[p].votedFor == -1 || b[p].votedFor == c)
    ensures VotesOk(Grant(h, p, c), b[p := b[p].(votedFor := c)])
  {
    var k := Grant(h, p, c);
    GrantForeign(h, b, p, c);
    hide OneForeignVote;
    assert forall u: nat, q: nat :: Elector(h, u, q) <==> Elector(k, u, q);
  }

  lemma GrantForeign(h: History, b: seq<Ballot>, p: nat, c: nat)
    requires VotesOk(h, b) && p < |b| && |h.logs| == |h.terms| && (b[p].votedFor == -1 || b[p].votedFor == c)
    ensures OneForeignVote(Grant(h, p, c), b[p := b[p].(votedFor := c)])
  {
  }

  /** A candidate that hears from the leader of its term gives its own vote back; it was not among the electors. */
  lemma VotesReset(h: History, b: seq<Ballot>, i: nat)
    requires VotesOk(h, b) && i < |b| && b[i].candidate && h.terms[i] in h.leaderLog
    ensures VotesOk(h, b[i := Ballot(-1, false)])
  {
  }

  lemma VotesDropCandidacy(h: History, b: seq<Ballot>, i: nat)
    requires VotesOk(h, b) && i < |b|
    ensures VotesOk(h, b[i := b[i].(candidate := false)])
  {
  }

  /** Two votes of one server in a term: one of them for itself, and another server was elected in that term. */
  lemma TwoGrants(h: History, b: seq<Ballot>, t: nat, p: nat, c: nat, d: nat)
    requires LeadersOk(h) && VotesOk(h, b) && (t, p, c) in h.grants && (t, p, d) in h.grants && c != d
    ensures (p == c || p == d) && t in h.leaderLog && t in h.owner && h.owner[t] != p
  {
    assert t in h.leaderLog;
    assert Elector(h, t, h.owner[t]);
  }

  /** A candidate with a majority of votes is the first leader of its term. */
  lemma NoEarlierLeader(h: History, b: seq<Ballot>, c: nat, votes: set<nat>)
    requires LeadersOk(h) && VotesOk(h, b) && c < |b| && b[c].candidate
    requires IsQuorum(|h.terms|, votes) && AllGranted(h, h.terms[c], c, votes)
    ensures h.terms[c] !in h.leaderLog
  {
    var t := h.terms[c];
    if t in h.leaderLog {
      var p := QuorumsMeet(|h.terms|, votes, h.quorum[t]);
      assert Elector(h, t, p) && (t, p, c) in h.grants;
      assert Elector(h, t, c);
    }
  }

  lemma VotesElected(h: History, b: seq<Ballot>, c: nat, votes: set<nat>)
    requires VotesOk(h, b) && c < |b| && |h.logs| == |h.terms| && h.terms[c] !in h.leaderLog && b[c].candidate
    requires c in votes && AllGranted(h, h.terms[c], c, votes)
    ensures VotesOk(Elect(h, c, votes), b[c := b[c].(candidate := false)])
  {
    var k := Elect(h, c, votes);
    var t := h.terms[c];
    forall u: nat, p: nat | Elector(k, u, p)
      ensures u != t ==> Elector(h, u, p)
      ensures u == t ==> p in votes
    {
    }
  }
}
