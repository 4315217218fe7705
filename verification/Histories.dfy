/** Concurrent histories, sequential models and linearizability (src/test_files/porcupine/model.go and checker.go). */
module Histories {
  import opened Common

  /** A call or a return in a history, with the number of its operation. */
  datatype Entry<+I, +O> = Call(input: I, id: nat) | Return(output: O, id: nat)

  /** A sequential object: its initial state, whether it can take a step, and equality of its states. */
  datatype Model<!S, !I, !O> = Model(init: S, step: (S, I, O) -> (bool, S), equal: (S, S) -> bool)

  /** Equality of states is reflexive and transitive, and no step can tell equal states apart. */
  ghost predicate Proper<S(!new), I(!new), O(!new)>(m: Model<S, I, O>) {
    && (forall s :: m.equal(s, s))
    && (forall s, t, u {:trigger m.equal(s, t), m.equal(t, u)} :: m.equal(s, t) && m.equal(t, u) ==> m.equal(s, u))
    && (forall s, t, i, o {:trigger m.equal(s, t), m.step(s, i, o)} :: m.equal(s, t) ==>
          && m.step(s, i, o).0 == m.step(t, i, o).0
          && (m.step(s, i, o).0 ==> m.equal(m.step(s, i, o).1, m.step(t, i, o).1)))
  }

  // ---------------------------------------------------------------- histories

  type History<I, O> = seq<Entry<I, O>>

  /** Position of the call, or of the return, of operation id; the length of the history if there is none. */
  function CallOf<I, O>(h: History<I, O>, id: nat): (r: nat)
    ensures r <= |h|
    ensures r < |h| ==> h[r].Call? && h[r].id == id
  {
    if h == [] then 0 else if h[0].Call? && h[0].id == id then 0 else 1 + CallOf(h[1..], id)
  }

  function ReturnOf<I, O>(h: History<I, O>, id: nat): (r: nat)
    ensures r <= |h|
    ensures r < |h| ==> h[r].Return? && h[r].id == id
  {
    if h == [] then 0 else if h[0].Return? && h[0].id == id then 0 else 1 + ReturnOf(h[1..], id)
  }

  function Count<I, O>(h: History<I, O>): nat {
    |h| / 2
  }

  /** Operations are numbered from 0, and each is called once and later returns once. */
  ghost predicate WellFormed<I, O>(h: History<I, O>) {
    && |h| % 2 == 0
    && (forall id: nat :: id < Count(h) ==> CallOf(h, id) < ReturnOf(h, id) < |h|)
    && (forall k :: 0 <= k < |h| ==>
      h[k].id < Count(h) && k == (if h[k].Call? then CallOf(h, h[k].id) else ReturnOf(h, h[k].id)))
  }

  predicate Present<I, O>(h: History<I, O>, id: nat) {
    CallOf(h, id) < |h| && ReturnOf(h, id) < |h|
  }

  function Step<S, I, O>(m: Model<S, I, O>, h: History<I, O>, s: S, id: nat): (bool, S)
    requires Present(h, id)
  {
    m.step(s, h[CallOf(h, id)].input, h[ReturnOf(h, id)].output)
  }

  /** The state after the operations in the given order, if all of them are accepted. */
  ghost function Replay<S, I, O>(m: Model<S, I, O>, h: History<I, O>, order: seq<nat>): Option<S> {
    if order == [] then Some(m.init)
    else
      var last := |order| - 1;
      match Replay(m, h, order[..last])
      case None => None
      case Some(s) =>
        if Present(h, order[last]) && Step(m, h, s, order[last]).0 then Some(Step(m, h, s, order[last]).1) else None
  }

  /** The order holds every operation of the history once. */
  ghost predicate Arranges<I, O>(h: History<I, O>, order: seq<nat>) {
    && (forall i, j :: 0 <= i < j < |order| ==> order[i] != order[j])
    && (forall id: nat :: id in order <==> id < Count(h))
  }

  /** No operation comes before one that had returned when it was called. */
  ghost predicate RespectsTime<I, O>(h: History<I, O>, order: seq<nat>) {
    forall i, j :: 0 <= i < j < |order| ==> !(ReturnOf(h, order[j]) < CallOf(h, order[i]))
  }

  ghost predicate LinearizedBy<S, I, O>(m: Model<S, I, O>, h: History<I, O>, order: seq<nat>) {
    Arranges(h, order) && RespectsTime(h, order) && Replay(m, h, order).Some?
  }

  ghost predicate Linearizable<S, I, O>(m: Model<S, I, O>, h: History<I, O>) {
    exists order :: LinearizedBy(m, h, order)
  }

  // ---------------------------------------------------------------- partial linearizations

  /** Every operation not done yet returns after the call of this one. */
  ghost predicate Minimal<I, O>(h: History<I, O>, done: seq<nat>, id: nat) {
    forall j: nat :: j < Count(h) && j !in done ==> CallOf(h, id) < ReturnOf(h, j)
  }

  /** Operation id can come right after those done already, as far as time is concerned. */
  ghost predicate Candidate<I, O>(h: History<I, O>, done: seq<nat>, id: nat) {
    id < Count(h) && id !in done && Minimal(h, done, id)
  }

  /** An order of some operations, all accepted, that a linearization could start with as far as time is concerned. */
  ghost predicate Partial<S, I, O>(m: Model<S, I, O>, h: History<I, O>, order: seq<nat>) {
    (forall i :: 0 <= i < |order| ==> Candidate(h, order[..i], order[i])) && Replay(m, h, order).Some?
  }

  lemma PartialOneMore<S, I, O>(m: Model<S, I, O>, h: History<I, O>, order: seq<nat>, id: nat)
    ensures Partial(m, h, order + [id]) <==>
      Partial(m, h, order) && Candidate(h, order, id) && Replay(m, h, order + [id]).Some?
  {
    hide Candidate;
    var longer := order + [id];
    assert longer[..|order|] == order && longer[|order|] == id;
    assert forall i :: 0 <= i < |order| ==> longer[..i] == order[..i] && longer[i] == order[i];
    if Partial(m, h, longer) {
      assert forall i :: 0 <= i < |order| ==> Candidate(h, longer[..i], longer[i]);
    }
  }

  lemma PartialPrefix<S, I, O>(m: Model<S, I, O>, h: History<I, O>, order: seq<nat>)
    requires Partial(m, h, order) && order != []
    ensures Partial(m, h, order[..|order| - 1]) && Candidate(h, order[..|order| - 1], order[|order| - 1])
  {
    hide Candidate;
    var last := |order| - 1;
    assert order == order[..last] + [order[last]];
    PartialOneMore(m, h, order[..last], order[last]);
  }

  /** The linearizations are the partial ones that hold every operation. */
  lemma CompletePartial<S, I, O>(m: Model<S, I, O>, h: History<I, O>, order: seq<nat>)
    requires WellFormed(h)
    ensures LinearizedBy(m, h, order) <==> Partial(m, h, order) && forall id: nat :: id < Count(h) ==> id in order
  {
    hide CallOf, ReturnOf, Count, Replay;
    if LinearizedBy(m, h, order) {
      forall i | 0 <= i < |order|
        ensures Candidate(h, order[..i], order[i])
      {
        assert order[i] in order;
        StepIsCandidate(h, order, i);
      }
    }
    if Partial(m, h, order) && forall id: nat :: id < Count(h) ==> id in order {
      forall i, j | 0 <= i < j < |order|
        ensures order[i] != order[j] && !(ReturnOf(h, order[j]) < CallOf(h, order[i]))
      {
        assert Candidate(h, order[..i], order[i]) && Candidate(h, order[..j], order[j]);
        assert order[i] in order[..j];
        assert order[j] !in order[..i] by {
          assert forall x :: x in order[..i] ==> x in order[..j];
        }
      }
      assert forall id: nat :: id in order ==> id < Count(h) by {
        assert forall i :: 0 <= i < |order| ==> Candidate(h, order[..i], order[i]);
      }
    }
  }

  lemma StepIsCandidate<I, O>(h: History<I, O>, order: seq<nat>, i: nat)
    requires WellFormed(h) && Arranges(h, order) && RespectsTime(h, order) && i < |order|
    ensures Candidate(h, order[..i], order[i])
  {
    hide CallOf, ReturnOf, Count;
    assert order[i] in order;
    forall j: nat | j < Count(h) && j !in order[..i]
      ensures CallOf(h, order[i]) < ReturnOf(h, j)
    {
      assert j in order;
      var p :| 0 <= p < |order| && order[p] == j;
      CallIsNotReturn(h, order[i], j);
    }
  }

  lemma CallIsNotReturn<I, O>(h: History<I, O>, i: nat, j: nat)
    requires ReturnOf(h, j) < |h|
    ensures CallOf(h, i) != ReturnOf(h, j)
  {
  }
}
