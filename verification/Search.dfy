/**
 What the depth-first search of src/test_files/porcupine/checker.go keeps: which orders it has entered and why it may
 skip others.
 */
module Search {
  import opened Common
  import opened Histories

  ghost predicate SameOperations(u: seq<nat>, v: seq<nat>) {
    forall id: nat :: id in u <==> id in v
  }

  /** The search has entered an order with the same operations and an equal state. */
  ghost predicate CoveredBy<S, I, O>(m: Model<S, I, O>, h: History<I, O>, order: seq<nat>, stand: seq<nat>) {
    && SameOperations(order, stand)
    && Replay(m, h, order).Some? && Replay(m, h, stand).Some?
    && m.equal(Replay(m, h, order).value, Replay(m, h, stand).value)
  }

  ghost predicate Covered<S, I, O>(m: Model<S, I, O>, h: History<I, O>, visited: set<seq<nat>>, order: seq<nat>) {
    exists stand :: stand in visited && CoveredBy(m, h, order, stand)
  }

  /** Every accepted operation that can follow has been followed up, as far as its call is before place k. */
  ghost predicate Tried<S, I, O>(m: Model<S, I, O>, h: History<I, O>, visited: set<seq<nat>>, order: seq<nat>, k: nat) {
    forall id: nat :: id < Count(h) && id !in order && CallOf(h, id) + 1 < k && Replay(m, h, order + [id]).Some? ==>
      Covered(m, h, visited, order + [id])
  }

  ghost predicate Explored<S, I, O>(m: Model<S, I, O>, h: History<I, O>, visited: set<seq<nat>>, order: seq<nat>) {
    forall id: nat :: Candidate(h, order, id) && Replay(m, h, order + [id]).Some? ==>
      Covered(m, h, visited, order + [id])
  }

  ghost predicate Complete<I, O>(h: History<I, O>, order: seq<nat>) {
    forall id: nat :: id < Count(h) ==> id in order
  }

  /** No operation outside the order returns before place k. */
  ghost predicate ReturnsAhead<I, O>(h: History<I, O>, order: seq<nat>, k: nat) {
    forall j: nat :: j < Count(h) && j !in order ==> k <= ReturnOf(h, j) + 1
  }

  /** The stack of the search: each frame had tried every candidate before the one it chose. */
  ghost predicate Path<S, I, O>(m: Model<S, I, O>, h: History<I, O>, visited: set<seq<nat>>, order: seq<nat>) {
    && Partial(m, h, order)
    && (forall i :: 0 <= i < |order| ==> Frame(m, h, visited, order, i))
  }

  ghost predicate Frame<S, I, O>(m: Model<S, I, O>, h: History<I, O>, visited: set<seq<nat>>, order: seq<nat>, i: nat)
    requires i < |order|
  {
    order[..i + 1] in visited && Tried(m, h, visited, order[..i], CallOf(h, order[i]) + 1)
  }

  ghost predicate VisitOk<S, I, O>(m: Model<S, I, O>, h: History<I, O>, visited: set<seq<nat>>, order: seq<nat>,
        v: seq<nat>) {
    && v != [] && Partial(m, h, v)
    && (v <= order || Explored(m, h, visited, v))
    && (Complete(h, v) ==> v == order)
  }

  ghost predicate VisitsOk<S, I, O>(m: Model<S, I, O>, h: History<I, O>, visited: set<seq<nat>>, order: seq<nat>) {
    forall v :: v in visited ==> VisitOk(m, h, visited, order, v)
  }

  /** The search stands at place k with the given stack. */
  ghost predicate Searching<S, I, O>(m: Model<S, I, O>, h: History<I, O>, visited: set<seq<nat>>, order: seq<nat>,
        k: nat) {
    && Path(m, h, visited, order)
    && VisitsOk(m, h, visited, order)
    && Tried(m, h, visited, order, k)
    && ReturnsAhead(h, order, k)
  }

  // ---------------------------------------------------------------- steps of the search

  lemma TriedStays<S, I, O>(m: Model<S, I, O>, h: History<I, O>, visited: set<seq<nat>>, more: set<seq<nat>>,
        order: seq<nat>, k: nat)
    requires Tried(m, h, visited, order, k) && visited <= more
    ensures Tried(m, h, more, order, k)
  {
  }

  /** At a return that is still open, all candidates lie behind. */
  lemma TriedAll<S, I, O>(m: Model<S, I, O>, h: History<I, O>, visited: set<seq<nat>>, order: seq<nat>, j: nat)
    requires j < Count(h) && j !in order && Tried(m, h, visited, order, ReturnOf(h, j) + 1)
    ensures Explored(m, h, visited, order)
  {
  }

  /** Between the two places everything is in the order. */
  ghost predicate Between<I, O>(h: History<I, O>, order: seq<nat>, lo: nat, hi: nat) {
    hi <= |h| + 1 && forall p :: lo <= p && p + 1 < hi ==> h[p].id in order
  }

  /** Going on to place k2 when the only call passed over has been followed up. */
  lemma Advance<S, I, O>(m: Model<S, I, O>, h: History<I, O>, visited: set<seq<nat>>, order: seq<nat>, id: nat,
        k: nat, k2: nat)
    requires WellFormed(h) && Tried(m, h, visited, order, k) && ReturnsAhead(h, order, k)
      && k == CallOf(h, id) + 1 <= |h|
    requires Replay(m, h, order + [id]).Some? ==> Covered(m, h, visited, order + [id])
    requires Between(h, order, k, k2)
    ensures Tried(m, h, visited, order, k2) && ReturnsAhead(h, order, k2)
  {
  }

  /** At the front of the list nothing lies behind. */
  lemma AtFront<S, I, O>(m: Model<S, I, O>, h: History<I, O>, visited: set<seq<nat>>, order: seq<nat>, k: nat)
    requires WellFormed(h) && Between(h, order, 0, k)
    ensures Tried(m, h, visited, order, k) && ReturnsAhead(h, order, k)
  {
  }

  /** An operation reached by walking over calls only is a candidate. */
  lemma ReachedIsCandidate<I, O>(h: History<I, O>, order: seq<nat>, id: nat)
    requires WellFormed(h) && id < Count(h) && id !in order && ReturnsAhead(h, order, CallOf(h, id) + 1)
    ensures Candidate(h, order, id)
  {
  }

  lemma PushedPath<S, I, O>(m: Model<S, I, O>, h: History<I, O>, visited: set<seq<nat>>, order: seq<nat>, id: nat)
    requires Path(m, h, visited, order) && Tried(m, h, visited, order, CallOf(h, id) + 1)
    requires Candidate(h, order, id) && Replay(m, h, order + [id]).Some?
    ensures Path(m, h, visited + {order + [id]}, order + [id])
  {
    hide CallOf, Candidate, Replay, Tried;
    var more, longer := visited + {order + [id]}, order + [id];
    PartialOneMore(m, h, order, id);
    forall i | 0 <= i < |longer|
      ensures Frame(m, h, more, longer, i)
    {
      assert longer[..i] == order[..i];
      if i < |order| {
        assert Frame(m, h, visited, order, i);
        assert longer[..i + 1] == order[..i + 1];
      } else {
        assert longer[..i + 1] == longer && order[..i] == order;
      }
      TriedStays(m, h, visited, more, order[..i], CallOf(h, longer[i]) + 1);
    }
  }

  lemma PushedVisits<S, I, O>(m: Model<S, I, O>, h: History<I, O>, visited: set<seq<nat>>, order: seq<nat>, id: nat)
    requires VisitsOk(m, h, visited, order) && Partial(m, h, order + [id]) && id < Count(h) && id !in order
    ensures VisitsOk(m, h, visited + {order + [id]}, order + [id])
  {
  }

  /** Choosing an operation: the order it gives is entered, and the walk restarts at the front. */
  lemma Pushed<S, I, O>(m: Model<S, I, O>, h: History<I, O>, visited: set<seq<nat>>, order: seq<nat>, id: nat,
        k: nat, k2: nat)
    requires WellFormed(h) && Searching(m, h, visited, order, k) && k == CallOf(h, id) + 1 && id < Count(h)
      && id !in order
    requires Replay(m, h, order + [id]).Some? && Between(h, order + [id], 0, k2)
    ensures Searching(m, h, visited + {order + [id]}, order + [id], k2)
  {
    hide CallOf, Count, Replay, VisitsOk, Tried, Partial, Candidate;
    ReachedIsCandidate(h, order, id);
    PushedPath(m, h, visited, order, id);
    PushedVisits(m, h, visited, order, id);
    AtFront(m, h, visited + {order + [id]}, order + [id], k2);
  }

  lemma PoppedPath<S, I, O>(m: Model<S, I, O>, h: History<I, O>, visited: set<seq<nat>>, order: seq<nat>)
    requires Path(m, h, visited, order) && order != []
    ensures Path(m, h, visited, order[..|order| - 1])
    ensures Tried(m, h, visited, order[..|order| - 1], CallOf(h, order[|order| - 1]) + 1) && order in visited
  {
    hide CallOf, Candidate, Replay, Tried;
    var shorter := order[..|order| - 1];
    PartialPrefix(m, h, order);
    assert Frame(m, h, visited, order, |order| - 1);
    assert order[..|order| - 1 + 1] == order;
    forall i | 0 <= i < |shorter|
      ensures Frame(m, h, visited, shorter, i)
    {
      assert Frame(m, h, visited, order, i);
      assert shorter[..i] == order[..i] && shorter[..i + 1] == order[..i + 1];
    }
  }

  lemma PoppedVisits<S, I, O>(m: Model<S, I, O>, h: History<I, O>, visited: set<seq<nat>>, order: seq<nat>)
    requires VisitsOk(m, h, visited, order) && order != [] && Explored(m, h, visited, order) && !Complete(h, order)
    ensures VisitsOk(m, h, visited, order[..|order| - 1])
  {
    hide Partial, Explored, Complete;
    forall v | v in visited
      ensures VisitOk(m, h, visited, order[..|order| - 1], v)
    {
      assert VisitOk(m, h, visited, order, v);
      if v <= order && v != order {
        assert v <= order[..|order| - 1];
      }
    }
  }

  /** The chosen operation is undone and walked past. */
  lemma Popped<S(!new), I(!new), O(!new)>(m: Model<S, I, O>, h: History<I, O>, visited: set<seq<nat>>,
        order: seq<nat>, j: nat, k2: nat)
    requires WellFormed(h) && Proper(m) && Searching(m, h, visited, order, ReturnOf(h, j) + 1) && j < Count(h)
      && j !in order && order != []
    requires Between(h, order[..|order| - 1], CallOf(h, order[|order| - 1]) + 1, k2)
    ensures Searching(m, h, visited, order[..|order| - 1], k2)
  {
    hide CallOf, ReturnOf, Count, Replay, VisitsOk, Tried, Path, Partial, Explored, ReturnsAhead, Between;
    var last := |order| - 1;
    var shorter, id := order[..last], order[last];
    TriedAll(m, h, visited, order, j);
    PoppedVisits(m, h, visited, order);
    PoppedPath(m, h, visited, order);
    CandidateIsReached(m, h, visited, order);
    assert shorter + [id] == order;
    CoversItself(m, h, visited, order);
    Advance(m, h, visited, shorter, id, CallOf(h, id) + 1, k2);
  }

  lemma CandidateIsReached<S, I, O>(m: Model<S, I, O>, h: History<I, O>, visited: set<seq<nat>>, order: seq<nat>)
    requires WellFormed(h) && Path(m, h, visited, order) && order != []
    ensures CallOf(h, order[|order| - 1]) < |h|
      && ReturnsAhead(h, order[..|order| - 1], CallOf(h, order[|order| - 1]) + 1)
  {
  }

  lemma CoversItself<S(!new), I(!new), O(!new)>(m: Model<S, I, O>, h: History<I, O>, visited: set<seq<nat>>,
        order: seq<nat>)
    requires Proper(m) && Path(m, h, visited, order) && order in visited
    ensures Covered(m, h, visited, order)
  {
  }

  // ---------------------------------------------------------------- what an exhausted search has shown

  ghost predicate Exhausted<S, I, O>(m: Model<S, I, O>, h: History<I, O>, visited: set<seq<nat>>) {
    && Explored(m, h, visited, [])
    && forall v :: v in visited ==> v != [] && Partial(m, h, v) && Explored(m, h, visited, v) && !Complete(h, v)
  }

  lemma StackEmpty<S, I, O>(m: Model<S, I, O>, h: History<I, O>, visited: set<seq<nat>>, j: nat)
    requires Searching(m, h, visited, [], ReturnOf(h, j) + 1) && j < Count(h)
    ensures Exhausted(m, h, visited)
  {
  }

  /** Two orders of the same operations with equal states go on alike. */
  lemma GoOnAlike<S(!new), I(!new), O(!new)>(m: Model<S, I, O>, h: History<I, O>, u: seq<nat>, v: seq<nat>, id: nat)
    requires Proper(m) && CoveredBy(m, h, u, v) && Replay(m, h, u + [id]).Some?
    ensures CoveredBy(m, h, u + [id], v + [id])
  {
  }

  lemma SameCandidates<I, O>(h: History<I, O>, u: seq<nat>, v: seq<nat>, id: nat)
    requires SameOperations(u, v) && Candidate(h, u, id)
    ensures Candidate(h, v, id)
  {
  }

  lemma CoveredChain<S(!new), I(!new), O(!new)>(m: Model<S, I, O>, h: History<I, O>, visited: set<seq<nat>>,
        u: seq<nat>, v: seq<nat>)
    requires Proper(m) && CoveredBy(m, h, u, v) && Covered(m, h, visited, v)
    ensures Covered(m, h, visited, u)
  {
  }

  /** Every partial linearization is matched by an order the search entered. */
  lemma {:induction false} AllCovered<S(!new), I(!new), O(!new)>(m: Model<S, I, O>, h: History<I, O>,
        visited: set<seq<nat>>, order: seq<nat>)
    requires Proper(m) && Exhausted(m, h, visited) && Partial(m, h, order) && order != []
    ensures Covered(m, h, visited, order)
    decreases |order|
  {
    hide Candidate, Partial, Replay;
    var last := |order| - 1;
    var shorter, id := order[..last], order[last];
    assert order == shorter + [id];
    PartialPrefix(m, h, order);
    PartialOneMore(m, h, shorter, id);
    if shorter != [] {
      AllCovered(m, h, visited, shorter);
      var u :| u in visited && CoveredBy(m, h, shorter, u);
      GoOnAlike(m, h, shorter, u, id);
      SameCandidates(h, shorter, u, id);
      CoveredChain(m, h, visited, order, u + [id]);
    }
  }

  /** So an exhausted search shows that there is no linearization. */
  lemma NoLinearization<S(!new), I(!new), O(!new)>(m: Model<S, I, O>, h: History<I, O>, visited: set<seq<nat>>)
    requires WellFormed(h) && Proper(m) && Exhausted(m, h, visited) && Count(h) > 0
    ensures !Linearizable(m, h)
  {
    hide Partial, Replay, Explored, Count;
    if Linearizable(m, h) {
      var order :| LinearizedBy(m, h, order);
      CompletePartial(m, h, order);
      assert 0 in order;
      AllCovered(m, h, visited, order);
    }
  }

  // ---------------------------------------------------------------- lengths, and how many orders there are

  ghost function Operations(order: seq<nat>): set<nat> {
    set id | id in order
  }

  lemma {:induction false} PartialSize<S, I, O>(m: Model<S, I, O>, h: History<I, O>, order: seq<nat>)
    requires Partial(m, h, order)
    ensures |order| == |Operations(order)| && Operations(order) <= Ids(Count(h))
    decreases |order|
  {
    hide Minimal, Replay, Partial, Count;
    if order != [] {
      var last := |order| - 1;
      PartialPrefix(m, h, order);
      PartialSize(m, h, order[..last]);
      assert order == order[..last] + [order[last]];
      assert Operations(order) == Operations(order[..last]) + {order[last]};
    }
  }

  lemma SameSize<S, I, O>(m: Model<S, I, O>, h: History<I, O>, u: seq<nat>, v: seq<nat>)
    requires Partial(m, h, u) && Partial(m, h, v) && SameOperations(u, v)
    ensures |u| == |v|
  {
    PartialSize(m, h, u);
    PartialSize(m, h, v);
    assert Operations(u) == Operations(v);
  }

  /** All sequences of at most len numbers below n. */
  ghost function Sequences(n: nat, len: nat): set<seq<nat>> {
    if len == 0 then {[]}
    else Sequences(n, len - 1) + set v: seq<nat>, id: nat | v in Sequences(n, len - 1) && id in Ids(n) :: v + [id]
  }

  lemma {:induction false} IsSequence(n: nat, len: nat, order: seq<nat>)
    requires |order| <= len && forall i :: 0 <= i < |order| ==> order[i] < n
    ensures order in Sequences(n, len)
  {
    if len > 0 {
      if order == [] {
        IsSequence(n, len - 1, order);
      } else {
        var last := |order| - 1;
        IsSequence(n, len - 1, order[..last]);
        assert order == order[..last] + [order[last]] && order[last] in Ids(n);
      }
    }
  }

  /** The orders the search can enter form a finite set. */
  lemma PartialBounded<S, I, O>(m: Model<S, I, O>, h: History<I, O>, order: seq<nat>)
    requires Partial(m, h, order)
    ensures order in Sequences(Count(h), Count(h)) && forall i :: 0 <= i < |order| ==> order[i] < Count(h)
  {
    PartialSize(m, h, order);
    SubsetSize(Operations(order), Ids(Count(h)));
    hide Minimal, Replay, Count;
    forall i | 0 <= i < |order|
      ensures order[i] < Count(h)
    {
      assert Candidate(h, order[..i], order[i]);
    }
    IsSequence(Count(h), Count(h), order);
  }

  // ---------------------------------------------------------------- the longest partial linearizations

  ghost predicate Witnesses<S, I, O>(m: Model<S, I, O>, h: History<I, O>, longest: seq<Option<seq<nat>>>) {
    && |longest| == Count(h)
    && (forall id: nat :: id < |longest| && longest[id].Some? ==>
      Partial(m, h, longest[id].value) && id in longest[id].value)
  }

  ghost predicate Reaches(longest: seq<Option<seq<nat>>>, order: seq<nat>) {
    forall id: nat :: id in order ==> id < |longest| && longest[id].Some? && |order| <= |longest[id].value|
  }

  /** Every order the search has left is reached by what is recorded for its operations. */
  ghost predicate Recorded(visited: set<seq<nat>>, order: seq<nat>, longest: seq<Option<seq<nat>>>) {
    forall v :: v in visited && !(v <= order) ==> Reaches(longest, v)
  }

  function Longer(known: Option<seq<nat>>, order: seq<nat>, id: nat): Option<seq<nat>> {
    if id in order && (known.None? || |order| > |known.value|) then Some(order) else known
  }

  ghost predicate Updated(was: seq<Option<seq<nat>>>, order: seq<nat>, now: seq<Option<seq<nat>>>) {
    |was| == |now| && forall id: nat :: id < |was| ==> now[id] == Longer(was[id], order, id)
  }

  lemma RecordedOneMore<S, I, O>(m: Model<S, I, O>, h: History<I, O>, visited: set<seq<nat>>, order: seq<nat>,
        was: seq<Option<seq<nat>>>, now: seq<Option<seq<nat>>>)
    requires Witnesses(m, h, was) && Recorded(visited, order, was) && Partial(m, h, order) && order != []
      && Updated(was, order, now)
    ensures Witnesses(m, h, now) && Recorded(visited, order[..|order| - 1], now)
  {
  }

  lemma RecordedPush(visited: set<seq<nat>>, order: seq<nat>, id: nat, longest: seq<Option<seq<nat>>>)
    requires Recorded(visited, order, longest)
    ensures Recorded(visited + {order + [id]}, order + [id], longest)
  {
  }

  /** An exhausted search has recorded a longest partial linearization through each operation. */
  lemma LongestFound<S(!new), I(!new), O(!new)>(m: Model<S, I, O>, h: History<I, O>, visited: set<seq<nat>>,
        longest: seq<Option<seq<nat>>>, order: seq<nat>)
    requires Proper(m) && Exhausted(m, h, visited) && Recorded(visited, [], longest) && Partial(m, h, order)
    ensures Reaches(longest, order)
  {
    hide Partial, Explored, Replay;
    if order != [] {
      AllCovered(m, h, visited, order);
      var v :| v in visited && CoveredBy(m, h, order, v);
      SameSize(m, h, order, v);
    }
  }
}
