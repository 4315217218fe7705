/** Linearizability checking by depth-first search, as in checkSingle of src/test_files/porcupine/checker.go. */
module Checker {
  import opened Common
  import opened Histories
  import opened LinkedEntries
  import opened Search
  import opened SearchCache
  import B = Bitset

  datatype CallsEntry<!S, !I, !O> = CallsEntry(entry: Node<I, O>, state: S)

  // ---------------------------------------------------------------- the list during the search

  /** The whole list: the head, then a node for each entry of the history. */
  ghost predicate ListOf<I, O>(all: seq<Node<I, O>>, h: History<I, O>) {
    all != [] && Holds(all[1..], h, 0)
  }

  /** Places of the calls and returns that are out of the list, in the order they were taken out. */
  ghost function Slots<I, O>(h: History<I, O>, order: seq<nat>): seq<nat> {
    if order == [] then []
    else
      var last := |order| - 1;
      Slots(h, order[..last]) + [CallOf(h, order[last]) + 1, ReturnOf(h, order[last]) + 1]
  }

  lemma SlotsOneMore<I, O>(h: History<I, O>, order: seq<nat>, id: nat)
    ensures Slots(h, order + [id]) == Slots(h, order) + [CallOf(h, id) + 1, ReturnOf(h, id) + 1]
  {
  }

  lemma {:induction false} SlotsAre<I, O>(h: History<I, O>, order: seq<nat>, k: nat)
    requires WellFormed(h) && Numbered(Count(h), order)
    ensures k in Slots(h, order) <==> 0 < k <= |h| && h[k - 1].id in order
    decreases |order|
  {
    hide CallOf, ReturnOf, Count;
    if order != [] {
      var last := |order| - 1;
      var id := order[last];
      SlotsAre(h, order[..last], k);
      assert order == order[..last] + [id];
      if 0 < k <= |h| && h[k - 1].id == id {
        assert k == CallOf(h, id) + 1 || k == ReturnOf(h, id) + 1;
      }
      assert k == CallOf(h, id) + 1 || k == ReturnOf(h, id) + 1 ==> 0 < k <= |h| && h[k - 1].id == id by {
        assert CallOf(h, id) < |h| && ReturnOf(h, id) < |h|;
      }
    }
  }

  /** Everything between an entry of the list and the next one is out of the list. */
  lemma NextBetween<I, O>(h: History<I, O>, order: seq<nat>, k: nat)
    requires WellFormed(h) && Numbered(Count(h), order) && k <= |h|
    ensures Between(h, order, k, Next(k, Slots(h, order), |h| + 1))
    ensures var r := Next(k, Slots(h, order), |h| + 1); r <= |h| ==> h[r - 1].id !in order
  {
    hide Next, Slots, Count, CallOf, ReturnOf, WellFormed, Numbered;
    var r := Next(k, Slots(h, order), |h| + 1);
    NextFacts(k, Slots(h, order), |h| + 1);
    forall p | k <= p && p + 1 < r
      ensures h[p].id in order
    {
      SlotsAre(h, order, p + 1);
    }
    SlotsAre(h, order, r);
  }

  lemma EntryAt<I, O>(all: seq<Node<I, O>>, h: History<I, O>, k: nat)
    requires ListOf(all, h) && 0 < k < |all|
    ensures |all| == |h| + 1 && all[k].value == Some(h[k - 1])
    ensures h[k - 1].Return? <==> all[k].partner == null
    ensures h[k - 1].Call? ==>
      var r := ReturnOf(h, h[k - 1].id); r < |h| && all[k].partner == all[r + 1] && all[r + 1].value == Some(h[r])
  {
    var rest := all[1..];
    assert HoldsAt(rest, h, 0, k - 1);
    if h[k - 1].Call? {
      var r := ReturnOf(h, h[k - 1].id);
      assert HoldsAt(rest, h, 0, r);
    }
  }

  /** The search stands at place k of the list from which the operations of the order have been taken. */
  ghost predicate Standing<I, O>(h: History<I, O>, all: seq<Node<I, O>>, order: seq<nat>, k: nat, entry: Node?<I, O>)
    reads all
  {
    && ListOf(all, h) && Numbered(Count(h), order) && Linked(all, Slots(h, order))
    && 0 < k <= |all| && (k <= |h| ==> h[k - 1].id !in order) && entry == NodeAt(all, k)
    && (k == |all| ==> all[0].next == null)
  }

  lemma StandingFacts<I, O>(h: History<I, O>, all: seq<Node<I, O>>, order: seq<nat>, k: nat, entry: Node?<I, O>)
    requires Standing(h, all, order, k, entry)
    ensures |all| == |h| + 1 && 0 < k <= |all| && entry == (if k < |all| then all[k] else null)
    ensures ListOf(all, h) && Numbered(Count(h), order) && Linked(all, Slots(h, order))
    ensures k <= |h| ==> h[k - 1].id !in order
    ensures k == |all| ==> all[0].next == null
  {
  }

  lemma ListLength<I, O>(h: History<I, O>, all: seq<Node<I, O>>)
    requires ListOf(all, h)
    ensures |all| == |h| + 1
  {
  }

  lemma NextNode<I, O>(h: History<I, O>, all: seq<Node<I, O>>, order: seq<nat>, k: nat)
    requires WellFormed(h) && ListOf(all, h) && Numbered(Count(h), order) && Linked(all, Slots(h, order))
    requires k <= |h| && (k > 0 ==> h[k - 1].id !in order)
    ensures |all| == |h| + 1 && all[k].next == NodeAt(all, Next(k, Slots(h, order), |h| + 1))
  {
    hide Slots, Next, Count, CallOf, ReturnOf, ListOf, WellFormed, Numbered;
    ListLength(h, all);
    SlotsAre(h, order, k);
    assert LinksAt(all, Nexts(all), Prevs(all), Slots(h, order), k);
    assert Nexts(all)[k] == all[k].next;
  }

  lemma OperationFacts<I, O>(h: History<I, O>, id: nat)
    requires WellFormed(h) && id < Count(h)
    ensures CallOf(h, id) < ReturnOf(h, id) < |h| && h[CallOf(h, id)].id == id && h[ReturnOf(h, id)].id == id
  {
  }

  /** The return of an operation still in the list lies ahead of its call. */
  lemma ReturnFollows<I, O>(h: History<I, O>, order: seq<nat>, id: nat)
    requires WellFormed(h) && Numbered(Count(h), order) && id < Count(h) && id !in order
    ensures Next(CallOf(h, id) + 1, Slots(h, order), |h| + 1) <= |h|
  {
    hide Next, Slots, Count, CallOf, ReturnOf, WellFormed, Numbered;
    OperationFacts(h, id);
    NextFacts(CallOf(h, id) + 1, Slots(h, order), |h| + 1);
    SlotsAre(h, order, ReturnOf(h, id) + 1);
  }

  lemma LiveCall<I, O>(h: History<I, O>, order: seq<nat>, k: nat)
    requires WellFormed(h) && Numbered(Count(h), order) && 0 < k <= |h| && h[k - 1].Call? && h[k - 1].id !in order
    ensures var id := h[k - 1].id;
      id < Count(h) && k == CallOf(h, id) + 1 && k < ReturnOf(h, id) + 1 <= |h| && Numbered(Count(h), order + [id]) &&
      k !in Slots(h, order) && ReturnOf(h, id) + 1 !in Slots(h, order)
  {
    hide Slots, CallOf, ReturnOf, Count;
    var id := h[k - 1].id;
    SlotsAre(h, order, k);
    OperationFacts(h, id);
    SlotsAre(h, order, ReturnOf(h, id) + 1);
  }

  /** The next entry of the list, if there is one. */
  lemma StandsAfter<I, O>(h: History<I, O>, all: seq<Node<I, O>>, order: seq<nat>, k: nat)
    requires WellFormed(h) && ListOf(all, h) && Numbered(Count(h), order) && Linked(all, Slots(h, order))
    requires 0 < k < |all| == |h| + 1 && h[k - 1].id !in order && Next(k, Slots(h, order), |h| + 1) <= |h|
    ensures var k2 := Next(k, Slots(h, order), |h| + 1);
      all[k].next != null && Standing(h, all, order, k2, all[k].next) && Between(h, order, k, k2)
  {
    hide Next, Slots, Count, CallOf, ReturnOf, ListOf, Between, Linked, WellFormed, Numbered;
    NextNode(h, all, order, k);
    NextBetween(h, order, k);
  }

  /** Walking past a call. */
  method WalkOn<I, O>(entry: Node<I, O>, h: History<I, O>, ghost all: seq<Node<I, O>>, ghost order: seq<nat>,
        ghost k: nat)
    returns (next: Node<I, O>, ghost k2: nat)
    requires WellFormed(h) && Standing(h, all, order, k, entry) && entry.partner != null && k < |all|
    ensures Standing(h, all, order, k2, next) && k < k2 < |all| && Between(h, order, k, k2)
  {
    hide *;
    StandingFacts(h, all, order, k, entry);
    ghost var id := h[k - 1].id;
    EntryAt(all, h, k);
    LiveCall(h, order, k);
    ReturnFollows(h, order, id);
    StandsAfter(h, all, order, k);
    k2 := Next(k, Slots(h, order), |h| + 1);
    next := entry.next;
  }

  lemma StandsAtFront<I, O>(h: History<I, O>, all: seq<Node<I, O>>, order: seq<nat>)
    requires WellFormed(h) && ListOf(all, h) && Numbered(Count(h), order) && Linked(all, Slots(h, order))
    ensures var k := Next(0, Slots(h, order), |h| + 1);
      Standing(h, all, order, k, all[0].next) && Between(h, order, 0, k)
  {
    hide Next, Slots, Count, CallOf, ReturnOf, ListOf, Between, Linked, WellFormed, Numbered;
    ListLength(h, all);
    NextNode(h, all, order, 0);
    NextBetween(h, order, 0);
  }

  /** Taking an operation out and going back to the front. */
  method Choose<I, O>(entry: Node<I, O>, head: Node<I, O>, h: History<I, O>, ghost all: seq<Node<I, O>>,
        ghost order: seq<nat>, ghost k: nat)
    returns (front: Node?<I, O>, ghost k2: nat)
    requires WellFormed(h) && Standing(h, all, order, k, entry) && entry.partner != null && k < |all| && head == all[0]
    modifies all
    ensures k <= |h| && Standing(h, all, order + [h[k - 1].id], k2, front) && Between(h, order + [h[k - 1].id], 0, k2)
  {
    hide *;
    StandingFacts(h, all, order, k, entry);
    ghost var id := h[k - 1].id;
    EntryAt(all, h, k);
    LiveCall(h, order, k);
    SlotsOneMore(h, order, id);
    Lift(entry, all, Slots(h, order), k, ReturnOf(h, id) + 1);
    StandsAtFront(h, all, order + [id]);
    k2 := Next(0, Slots(h, order + [id]), |h| + 1);
    front := head.next;
  }

  /** Putting the last operation taken back, and walking past its call. */
  method Undo<I, O>(entry: Node<I, O>, h: History<I, O>, ghost all: seq<Node<I, O>>, ghost order: seq<nat>,
        ghost id: nat)
    returns (next: Node<I, O>, ghost k2: nat)
    requires WellFormed(h) && ListOf(all, h) && Numbered(Count(h), order + [id]) && Linked(all, Slots(h, order + [id]))
    requires id !in order && |all| == |h| + 1 && CallOf(h, id) < |h| && entry == all[CallOf(h, id) + 1]
    modifies all
    ensures Standing(h, all, order, k2, next) && k2 < |all| && Between(h, order, CallOf(h, id) + 1, k2)
  {
    hide *;
    ghost var c := CallOf(h, id) + 1;
    OneFewer(h, order, id);
    OperationFacts(h, id);
    EntryIsCall(all, h, id);
    SlotsOneMore(h, order, id);
    Unlift(entry, all, Slots(h, order), c, ReturnOf(h, id) + 1);
    ReturnFollows(h, order, id);
    StandsAfter(h, all, order, c);
    k2 := Next(c, Slots(h, order), |h| + 1);
    next := entry.next;
  }

  lemma OneFewer<I, O>(h: History<I, O>, order: seq<nat>, id: nat)
    requires Numbered(Count(h), order + [id])
    ensures Numbered(Count(h), order) && id < Count(h)
  {
    hide Count;
    assert (order + [id])[|order|] == id;
    assert forall i :: 0 <= i < |order| ==> (order + [id])[i] == order[i];
  }

  lemma EntryIsCall<I, O>(all: seq<Node<I, O>>, h: History<I, O>, id: nat)
    requires ListOf(all, h) && |all| == |h| + 1 && CallOf(h, id) < |h|
    ensures ReturnOf(h, id) < |h| && all[CallOf(h, id) + 1].partner == all[ReturnOf(h, id) + 1]
  {
    EntryAt(all, h, CallOf(h, id) + 1);
  }

  // ---------------------------------------------------------------- the stack of calls

  ghost predicate CallsOk<S, I, O>(m: Model<S, I, O>, h: History<I, O>, all: seq<Node<I, O>>, order: seq<nat>,
        calls: seq<CallsEntry<S, I, O>>) {
    |calls| == |order| && forall i :: 0 <= i < |order| ==> CallOk(m, h, all, order, i, calls[i])
  }

  ghost predicate CallOk<S, I, O>(m: Model<S, I, O>, h: History<I, O>, all: seq<Node<I, O>>, order: seq<nat>, i: nat,
        c: CallsEntry<S, I, O>)
    requires i < |order|
  {
    && CallOf(h, order[i]) + 1 < |all| && c.entry == all[CallOf(h, order[i]) + 1]
    && c.entry.value.Some? && c.entry.value.value.id == order[i]
    && Replay(m, h, order[..i]) == Some(c.state)
  }

  lemma CallsPushed<S, I, O>(m: Model<S, I, O>, h: History<I, O>, all: seq<Node<I, O>>, order: seq<nat>,
        calls: seq<CallsEntry<S, I, O>>, id: nat, c: CallsEntry<S, I, O>)
    requires CallsOk(m, h, all, order, calls) && Replay(m, h, order) == Some(c.state)
    requires CallOf(h, id) + 1 < |all| && c.entry == all[CallOf(h, id) + 1] && c.entry.value.Some?
      && c.entry.value.value.id == id
    ensures CallsOk(m, h, all, order + [id], calls + [c])
  {
    hide CallOf, Replay;
    var longer := order + [id];
    forall i | 0 <= i < |longer|
      ensures CallOk(m, h, all, longer, i, (calls + [c])[i])
    {
      assert longer[..i] == order[..i];
      if i < |order| {
        assert CallOk(m, h, all, order, i, calls[i]);
      } else {
        assert order[..i] == order;
      }
    }
  }

  lemma CallsPopped<S, I, O>(m: Model<S, I, O>, h: History<I, O>, all: seq<Node<I, O>>, order: seq<nat>,
        calls: seq<CallsEntry<S, I, O>>)
    requires CallsOk(m, h, all, order, calls) && order != []
    ensures CallsOk(m, h, all, order[..|order| - 1], calls[..|calls| - 1])
    ensures CallOk(m, h, all, order, |order| - 1, calls[|calls| - 1])
  {
    hide CallOf, Replay;
    var last := |order| - 1;
    var shorter := order[..last];
    forall i | 0 <= i < last
      ensures CallOk(m, h, all, shorter, i, calls[..last][i])
    {
      assert CallOk(m, h, all, order, i, calls[i]);
      assert shorter[..i] == order[..i];
    }
  }

  method OrderOf<S, I, O>(calls: seq<CallsEntry<S, I, O>>) returns (ids: seq<nat>)
    requires forall i :: 0 <= i < |calls| ==> calls[i].entry.value.Some?
    ensures |ids| == |calls| && forall i :: 0 <= i < |calls| ==> ids[i] == calls[i].entry.value.value.id
  {
    ids := [];
    for i := 0 to |calls|
      invariant |ids| == i && forall j :: 0 <= j < i ==> ids[j] == calls[j].entry.value.value.id
    {
      ids := ids + [calls[i].entry.value.value.id];
    }
  }

  /** Records the current order for every operation on it for which nothing as long is known. */
  method Record(order: seq<nat>, longest: array<Option<seq<nat>>>)
    requires Numbered(longest.Length, order)
    modifies longest
    ensures Updated(old(longest[..]), order, longest[..])
  {
    for i := 0 to |order|
      invariant forall id: nat :: id < longest.Length ==>
        longest[id] == if id in order[..i] then Longer(old(longest[id]), order, id) else old(longest[id])
    {
      var id := order[i];
      assert order[..i + 1] == order[..i] + [id];
      if longest[id].None? || |order| > |longest[id].value| {
        longest[id] := Some(order);
      }
    }
    assert order[..|order|] == order;
  }

  // ---------------------------------------------------------------- the three moves of the search

  /** What the variables of the search say, apart from the list and the stack. */
  ghost predicate Consistent<S(!new), I, O>(m: Model<S, I, O>, h: History<I, O>, visited: set<seq<nat>>,
        order: seq<nat>, k: nat, cache: Cache<S>, state: S, linearized: B.Words) {
    && Searching(m, h, visited, order, k)
    && CacheOk(m, h, visited, cache)
    && visited <= Sequences(Count(h), Count(h))
    && EntryFor(m, h, order, CacheEntry(linearized, state))
  }

  lemma EntryOneMore<S, I, O>(m: Model<S, I, O>, h: History<I, O>, order: seq<nat>, id: nat, e: CacheEntry<S>)
    requires EntryFor(m, h, order, e) && id < Count(h) && Present(h, id) && Step(m, h, e.state, id).0
    ensures id < B.Capacity(e.linearized)
    ensures EntryFor(m, h, order + [id], CacheEntry(B.Set(e.linearized, id), Step(m, h, e.state, id).1))
  {
  }

  lemma Refused<S, I, O>(m: Model<S, I, O>, h: History<I, O>, order: seq<nat>, id: nat, state: S)
    requires Replay(m, h, order) == Some(state) && Present(h, id) && !Step(m, h, state, id).0
    ensures Replay(m, h, order + [id]).None?
  {
  }

  /** The model refuses the operation, or the cache knows where it leads. */
  lemma Skip<S(!new), I(!new), O(!new)>(m: Model<S, I, O>, h: History<I, O>, visited: set<seq<nat>>, order: seq<nat>,
        k: nat, cache: Cache<S>, state: S, linearized: B.Words, id: nat, k2: nat)
    requires WellFormed(h) && Consistent(m, h, visited, order, k, cache, state, linearized) && id < Count(h)
      && k == CallOf(h, id) + 1 && Present(h, id)
    requires id < B.Capacity(linearized)
    requires Step(m, h, state, id).0 ==>
      exists i :: Hit(m, cache, CacheEntry(B.Set(linearized, id), Step(m, h, state, id).1), i)
    requires Between(h, order, k, k2)
    ensures Consistent(m, h, visited, order, k2, cache, state, linearized)
  {
    hide CallOf, Count, Replay, CacheOk, Hit, Covered, Tried, ReturnsAhead, Between, Step, B.Set, B.Capacity, Marks;
    if Step(m, h, state, id).0 {
      var e := CacheEntry(B.Set(linearized, id), Step(m, h, state, id).1);
      EntryOneMore(m, h, order, id, CacheEntry(linearized, state));
      var i :| Hit(m, cache, e, i);
      HitCovers(m, h, visited, cache, order + [id], e, i);
    } else {
      Refused(m, h, order, id, state);
    }
    Advance(m, h, visited, order, id, k, k2);
  }

  /** The operation leads somewhere new. */
  lemma Enter<S(!new), I(!new), O(!new)>(m: Model<S, I, O>, h: History<I, O>, visited: set<seq<nat>>,
        order: seq<nat>, k: nat, cache: Cache<S>, state: S, linearized: B.Words, id: nat, k2: nat, e: CacheEntry<S>)
    requires WellFormed(h) && Proper(m) && Consistent(m, h, visited, order, k, cache, state, linearized)
    requires id < Count(h) && id !in order && k == CallOf(h, id) + 1 && Present(h, id) && Step(m, h, state, id).0
    requires id < B.Capacity(linearized) && e == CacheEntry(B.Set(linearized, id), Step(m, h, state, id).1)
    requires !exists i :: Hit(m, cache, e, i)
    requires Between(h, order + [id], 0, k2)
    ensures Consistent(m, h, visited + {order + [id]}, order + [id], k2, Store(cache, B.Hash(e.linearized), e), e.state,
      e.linearized)
    ensures order + [id] !in visited
  {
    hide CallOf, Count, CacheOk, Hit, Path, VisitsOk, Tried, ReturnsAhead, Between, Step, B.Set, B.Capacity, B.Hash,
         Marks, Store, Partial, Sequences;
    EntryOneMore(m, h, order, id, CacheEntry(linearized, state));
    if order + [id] in visited {
      KnownIsHit(m, h, visited, cache, order + [id], e);
    }
    hide Replay;
    Pushed(m, h, visited, order, id, k, k2);
    Stored(m, h, visited, cache, order + [id], e);
    PathIsPartial(m, h, visited + {order + [id]}, order + [id]);
    PartialBounded(m, h, order + [id]);
  }

  lemma PathIsPartial<S, I, O>(m: Model<S, I, O>, h: History<I, O>, visited: set<seq<nat>>, order: seq<nat>)
    requires Path(m, h, visited, order)
    ensures Partial(m, h, order)
  {
  }

  /** Everything that could follow has been followed up: back to the order before. */
  lemma Leave<S(!new), I(!new), O(!new)>(m: Model<S, I, O>, h: History<I, O>, visited: set<seq<nat>>,
        order: seq<nat>, j: nat, id: nat, cache: Cache<S>, state: S, linearized: B.Words, before: S, k2: nat)
    requires WellFormed(h) && Proper(m)
      && Consistent(m, h, visited, order + [id], ReturnOf(h, j) + 1, cache, state, linearized)
    requires j < Count(h) && j !in order + [id] && Replay(m, h, order) == Some(before)
    requires Between(h, order, CallOf(h, id) + 1, k2)
    ensures id < Count(h) && id !in order && id < B.Capacity(linearized)
    ensures Consistent(m, h, visited, order, k2, cache, before, B.Clear(linearized, id))
  {
    hide CallOf, ReturnOf, Count, CacheOk, Hit, Path, VisitsOk, Tried, ReturnsAhead, Between, Replay, Minimal, B.Set,
         B.Clear, B.Capacity, Marks, Partial, Sequences;
    var longer := order + [id];
    assert longer[..|longer| - 1] == order && longer[|longer| - 1] == id;
    PathIsPartial(m, h, visited, longer);
    PartialPrefix(m, h, longer);
    Popped(m, h, visited, longer, j, k2);
    PathIsPartial(m, h, visited, order);
    PartialBounded(m, h, order);
    MarksOneMore(Count(h), order, id);
  }

  // ---------------------------------------------------------------- the search

  lemma LiveReturn<I, O>(h: History<I, O>, k: nat)
    requires WellFormed(h) && 0 < k <= |h| && h[k - 1].Return?
    ensures h[k - 1].id < Count(h) && k == ReturnOf(h, h[k - 1].id) + 1
  {
  }

  /** An empty list means that every operation is on the stack. */
  lemma NothingLeft<I, O>(h: History<I, O>, all: seq<Node<I, O>>, order: seq<nat>)
    requires WellFormed(h) && ListOf(all, h) && Numbered(Count(h), order) && Linked(all, Slots(h, order))
      && all[0].next == null
    ensures Complete(h, order)
  {
    hide Next, Slots, Linked, ListOf, CallOf, ReturnOf, Count, WellFormed, Numbered;
    NextNode(h, all, order, 0);
    NextBetween(h, order, 0);
    forall id: nat | id < Count(h)
      ensures id in order
    {
      OperationFacts(h, id);
    }
  }

  /** What is known about the history when the search ends. */
  ghost predicate Outcome<S(!new), I(!new), O(!new)>(m: Model<S, I, O>, h: History<I, O>, computePartial: bool,
        killed: bool, ok: bool, longest: seq<Option<seq<nat>>>) {
    && Witnesses(m, h, longest)
    && (ok ==>
          exists order :: LinearizedBy(m, h, order) && forall i :: 0 <= i < |longest| ==> longest[i] == Some(order))
    && (!ok && !killed ==> !Linearizable(m, h))
    && (!ok && !killed && computePartial ==> forall order :: Partial(m, h, order) ==> Reaches(longest, order))
  }

  lemma Failed<S(!new), I(!new), O(!new)>(m: Model<S, I, O>, h: History<I, O>, visited: set<seq<nat>>, j: nat,
        longest: seq<Option<seq<nat>>>, computePartial: bool, killed: bool)
    requires WellFormed(h) && Proper(m) && Searching(m, h, visited, [], ReturnOf(h, j) + 1) && j < Count(h)
    requires Witnesses(m, h, longest) && (computePartial ==> Recorded(visited, [], longest))
    ensures Outcome(m, h, computePartial, killed, false, longest) && !Linearizable(m, h)
  {
    StackEmpty(m, h, visited, j);
    NoLinearization(m, h, visited);
    hide Partial, Reaches, Recorded, Exhausted, Witnesses, Linearizable, Searching, WellFormed, Count, ReturnOf;
    if computePartial {
      forall order | Partial(m, h, order)
        ensures Reaches(longest, order)
      {
        LongestFound(m, h, visited, longest, order);
      }
    }
  }

  lemma Succeeded<S(!new), I(!new), O(!new)>(m: Model<S, I, O>, h: History<I, O>, visited: set<seq<nat>>,
        order: seq<nat>, longest: seq<Option<seq<nat>>>, computePartial: bool, killed: bool)
    requires WellFormed(h) && Path(m, h, visited, order) && Complete(h, order)
    requires |longest| == Count(h) && forall i :: 0 <= i < |longest| ==> longest[i] == Some(order)
    ensures Outcome(m, h, computePartial, killed, true, longest) && Linearizable(m, h)
  {
    PathIsPartial(m, h, visited, order);
    CompletePartial(m, h, order);
  }

  lemma Started<S(!new), I, O>(m: Model<S, I, O>, h: History<I, O>, k: nat, n: nat)
    requires WellFormed(h) && Between(h, [], 0, k) && n == Count(h)
    ensures Consistent(m, h, {}, [], k, map[], m.init, B.Empty(n))
  {
  }

  /** The list with its head, and the number of operations. */
  method Prepare<I, O>(h: History<I, O>)
    returns (head: Node<I, O>, entry: Node?<I, O>, n: nat, ghost all: seq<Node<I, O>>)
    requires WellFormed(h)
    ensures all != [] && head == all[0] && entry == head.next && n == Count(h)
    ensures ListOf(all, h) && Linked(all, Slots(h, []))
    ensures forall i :: 0 <= i < |all| ==> fresh(all[i])
  {
    hide CallOf, ReturnOf, WellFormed, Linked;
    ghost var nodes;
    entry, nodes := MakeLinkedEntries(h);
    var len := Length(entry, nodes);
    n := len / 2;
    head := new Node(None, null);
    PutInFront(head, entry, nodes);
    all := [head] + nodes;
    assert all[1..] == nodes;
    assert ChainAt(all, 0);
    ChainLinked(all);
  }

  lemma NothingRecorded<S, I, O>(m: Model<S, I, O>, h: History<I, O>, longest: seq<Option<seq<nat>>>)
    requires |longest| == Count(h) && forall i :: 0 <= i < |longest| ==> longest[i] == None
    ensures Witnesses(m, h, longest) && Recorded({}, [], longest)
  {
  }

  lemma ZeroWords(n: nat, w: B.Words)
    requires |w| == B.Chunks(n) && forall i :: 0 <= i < |w| ==> w[i] == B.Word(0)
    ensures w == B.Empty(n)
  {
  }

  /** At a call, the node and its partner hold the input and the output of an operation that is not on the stack. */
  lemma CallFacts<S(!new), I, O>(m: Model<S, I, O>, h: History<I, O>, all: seq<Node<I, O>>, order: seq<nat>, k: nat,
        state: S, linearized: B.Words)
    requires WellFormed(h) && ListOf(all, h) && 0 < k < |all| == |h| + 1 && all[k].partner != null
      && h[k - 1].id !in order
    requires EntryFor(m, h, order, CacheEntry(linearized, state))
    ensures h[k - 1].Call? && all[k].value == Some(h[k - 1])
    ensures all[k].partner.value.Some? && all[k].partner.value.value.Return?
    ensures var id := h[k - 1].id;
      && id < Count(h) && k == CallOf(h, id) + 1 && Present(h, id) && id < B.Capacity(linearized)
      && Step(m, h, state, id) == m.step(state, h[k - 1].input, all[k].partner.value.value.output)
  {
    EntryAt(all, h, k);
    LiveCall(h, order, k);
    hide B.Capacity, WellFormed, ListOf, CallOf, ReturnOf;
  }

  lemma ReturnFacts<I, O>(h: History<I, O>, all: seq<Node<I, O>>, k: nat)
    requires WellFormed(h) && ListOf(all, h) && 0 < k < |all| == |h| + 1 && all[k].partner == null
    ensures h[k - 1].id < Count(h) && k == ReturnOf(h, h[k - 1].id) + 1
  {
    EntryAt(all, h, k);
    LiveReturn(h, k);
  }

  lemma ConsistentFacts<S(!new), I, O>(m: Model<S, I, O>, h: History<I, O>, visited: set<seq<nat>>, order: seq<nat>,
        k: nat, cache: Cache<S>, state: S, linearized: B.Words)
    requires Consistent(m, h, visited, order, k, cache, state, linearized)
    ensures EntryFor(m, h, order, CacheEntry(linearized, state)) && Replay(m, h, order) == Some(state)
      && Partial(m, h, order)
    ensures visited <= Sequences(Count(h), Count(h)) && Path(m, h, visited, order) && Searching(m, h, visited, order, k)
  {
  }

  lemma CallsLength<S, I, O>(m: Model<S, I, O>, h: History<I, O>, all: seq<Node<I, O>>, order: seq<nat>,
        calls: seq<CallsEntry<S, I, O>>)
    requires CallsOk(m, h, all, order, calls)
    ensures |calls| == |order|
    ensures forall i :: 0 <= i < |calls| ==> calls[i].entry.value.Some? && calls[i].entry.value.value.id == order[i]
  {
  }

  lemma Killed<S(!new), I(!new), O(!new)>(m: Model<S, I, O>, h: History<I, O>, longest: seq<Option<seq<nat>>>,
        computePartial: bool)
    requires Witnesses(m, h, longest)
    ensures Outcome(m, h, computePartial, true, false, longest)
  {
  }

  /** A copy of the bit set with one more bit. */
  method CopyWith(linearized: array<B.Word>, pos: nat) returns (w: B.Words)
    requires pos < B.Capacity(linearized[..])
    ensures w == B.Set(linearized[..], pos)
  {
    var copy := new B.Word[linearized.Length](i requires 0 <= i < linearized.Length reads linearized => linearized[i]);
    assert copy[..] == linearized[..];
    B.SetBit(copy, pos);
    w := copy[..];
  }

  /** The variables of the search agree with each other. */
  ghost predicate InSearch<S(!new), I, O>(m: Model<S, I, O>, h: History<I, O>, all: seq<Node<I, O>>,
        visited: set<seq<nat>>, order: seq<nat>, k: nat, entry: Node?<I, O>, state: S, cache: Cache<S>,
        calls: seq<CallsEntry<S, I, O>>, linearized: array<B.Word>)
    reads all, linearized
  {
    && Standing(h, all, order, k, entry)
    && Consistent(m, h, visited, order, k, cache, state, linearized[..])
    && CallsOk(m, h, all, order, calls)
  }

  /** One round at a call: walk past it, or choose it and start again at the front. */
  method TryCall<S(!new), I(!new), O(!new)>(m: Model<S, I, O>, h: History<I, O>, head: Node<I, O>,
        linearized: array<B.Word>, ghost all: seq<Node<I, O>>, entry: Node<I, O>, state: S, cache: Cache<S>,
        calls: seq<CallsEntry<S, I, O>>, ghost visited: set<seq<nat>>, ghost order: seq<nat>, ghost k: nat)
    returns (entry': Node?<I, O>, state': S, cache': Cache<S>, calls': seq<CallsEntry<S, I, O>>,
      ghost chosen: Option<nat>, ghost k': nat)
    requires WellFormed(h) && Proper(m) && all != [] && head == all[0] && entry.partner != null && k < |all|
    requires InSearch(m, h, all, visited, order, k, entry, state, cache, calls, linearized)
    modifies all, linearized
    ensures chosen.None? ==>
      k < k' && calls' == calls && InSearch(m, h, all, visited, order, k', entry', state', cache', calls', linearized)
    ensures chosen.Some? ==>
      var longer := order + [chosen.value];
      longer !in visited && InSearch(m, h, all, visited + {longer}, longer, k', entry', state', cache', calls',
        linearized)
  {
    hide *;
    hide InSearch;
    InSearchFacts(m, h, all, visited, order, k, entry, state, cache, calls, linearized);
    ConsistentFacts(m, h, visited, order, k, cache, state, linearized[..]);
    StandingFacts(h, all, order, k, entry);
    CallFacts(m, h, all, order, k, state, linearized[..]);
    ghost var id := h[k - 1].id;
    var matching := entry.partner;
    state', cache', calls', chosen := state, cache, calls, None;
    var (ok, newState) := m.step(state, entry.value.value.input, matching.value.value.output);
    if ok {
      var newLinearized := CopyWith(linearized, entry.value.value.id);
      var newCacheEntry := CacheEntry(newLinearized, newState);
      var found := CacheContains(m, cache, newCacheEntry);
      if !found {
        var hash := B.ComputeHash(newLinearized);
        cache' := Store(cache, hash, newCacheEntry);
        calls' := calls + [CallsEntry(entry, state)];
        CallsPushed(m, h, all, order, calls, id, CallsEntry(entry, state));
        state' := newState;
        B.SetBit(linearized, entry.value.value.id);
        entry', k' := Choose(entry, head, h, all, order, k);
        Enter(m, h, visited, order, k, cache, state, old(linearized[..]), id, k', newCacheEntry);
        chosen := Some(id);
        Assembled(m, h, all, visited + {order + [id]}, order + [id], k', entry', state', cache', calls', linearized);
        return;
      }
    }
    entry', k' := WalkOn(entry, h, all, order, k);
    Skip(m, h, visited, order, k, cache, state, linearized[..], id, k');
    Assembled(m, h, all, visited, order, k', entry', state', cache', calls', linearized);
  }

  lemma InSearchFacts<S(!new), I, O>(m: Model<S, I, O>, h: History<I, O>, all: seq<Node<I, O>>,
        visited: set<seq<nat>>, order: seq<nat>, k: nat, entry: Node?<I, O>, state: S, cache: Cache<S>,
        calls: seq<CallsEntry<S, I, O>>, linearized: array<B.Word>)
    requires InSearch(m, h, all, visited, order, k, entry, state, cache, calls, linearized)
    ensures Standing(h, all, order, k, entry)
    ensures Consistent(m, h, visited, order, k, cache, state, linearized[..])
    ensures CallsOk(m, h, all, order, calls)
  {
  }

  lemma Assembled<S(!new), I, O>(m: Model<S, I, O>, h: History<I, O>, all: seq<Node<I, O>>, visited: set<seq<nat>>,
        order: seq<nat>, k: nat, entry: Node?<I, O>, state: S, cache: Cache<S>, calls: seq<CallsEntry<S, I, O>>,
        linearized: array<B.Word>)
    requires Standing(h, all, order, k, entry)
    requires Consistent(m, h, visited, order, k, cache, state, linearized[..])
    requires CallsOk(m, h, all, order, calls)
    ensures InSearch(m, h, all, visited, order, k, entry, state, cache, calls, linearized)
  {
  }

  /** One round at a return: nothing is left to try, so the last operation chosen is undone. */
  method Backtrack<S(!new), I(!new), O(!new)>(m: Model<S, I, O>, h: History<I, O>, linearized: array<B.Word>,
        ghost all: seq<Node<I, O>>, ghost entry: Node<I, O>, ghost state: S, ghost cache: Cache<S>,
        calls: seq<CallsEntry<S, I, O>>, ghost visited: set<seq<nat>>, ghost order: seq<nat>, ghost k: nat)
    returns (entry': Node<I, O>, state': S, calls': seq<CallsEntry<S, I, O>>, ghost k': nat)
    requires WellFormed(h) && Proper(m) && entry.partner == null && k < |all| && calls != []
    requires InSearch(m, h, all, visited, order, k, entry, state, cache, calls, linearized)
    modifies all, linearized
    ensures order != [] && |calls'| < |calls|
    ensures InSearch(m, h, all, visited, order[..|order| - 1], k', entry', state', cache, calls', linearized)
  {
    hide *;
    hide InSearch;
    InSearchFacts(m, h, all, visited, order, k, entry, state, cache, calls, linearized);
    StandingFacts(h, all, order, k, entry);
    CallsLength(m, h, all, order, calls);
    ReturnFacts(h, all, k);
    ghost var shorter, id := order[..|order| - 1], order[|order| - 1];
    assert order == shorter + [id];
    CallsPopped(m, h, all, order, calls);
    var callsTop := calls[|calls| - 1];
    TopFacts(m, h, all, order, callsTop);
    calls' := calls[..|calls| - 1];
    state' := callsTop.state;
    LastIsNew(m, h, visited, order, k, cache, state, linearized[..]);
    entry', k' := Undo(callsTop.entry, h, all, shorter, id);
    Leave(m, h, visited, shorter, h[k - 1].id, id, cache, state, linearized[..], state', k');
    B.ClearBit(linearized, callsTop.entry.value.value.id);
    Assembled(m, h, all, visited, shorter, k', entry', state', cache, calls', linearized);
  }

  lemma TopFacts<S, I, O>(m: Model<S, I, O>, h: History<I, O>, all: seq<Node<I, O>>, order: seq<nat>,
        c: CallsEntry<S, I, O>)
    requires order != [] && CallOk(m, h, all, order, |order| - 1, c)
    ensures var id := order[|order| - 1];
      && CallOf(h, id) + 1 < |all| && c.entry == all[CallOf(h, id) + 1] && c.entry.value.Some?
        && c.entry.value.value.id == id
      && Replay(m, h, order[..|order| - 1]) == Some(c.state)
  {
  }

  lemma LastIsNew<S(!new), I, O>(m: Model<S, I, O>, h: History<I, O>, visited: set<seq<nat>>, order: seq<nat>,
        k: nat, cache: Cache<S>, state: S, linearized: B.Words)
    requires Consistent(m, h, visited, order, k, cache, state, linearized) && order != []
    ensures order[|order| - 1] !in order[..|order| - 1]
  {
  }

  lemma Begin<S(!new), I, O>(m: Model<S, I, O>, h: History<I, O>, all: seq<Node<I, O>>, linearized: array<B.Word>,
        n: nat)
    requires WellFormed(h) && ListOf(all, h) && Linked(all, Slots(h, [])) && n == Count(h)
      && linearized[..] == B.Empty(n)
    ensures InSearch(m, h, all, {}, [], Next(0, Slots(h, []), |h| + 1), all[0].next, m.init, map[], [], linearized)
  {
    StandsAtFront(h, all, []);
    hide Next, Slots;
    Started(m, h, Next(0, Slots(h, []), |h| + 1), n);
  }

  lemma SetShrinks(a: set<seq<nat>>, b: set<seq<nat>>, x: seq<nat>)
    requires x in a && x !in b
    ensures |a - (b + {x})| < |a - b|
  {
    assert a - b == (a - (b + {x})) + {x};
  }

  lemma AtRound<S(!new), I, O>(m: Model<S, I, O>, h: History<I, O>, all: seq<Node<I, O>>, visited: set<seq<nat>>,
        order: seq<nat>, k: nat, entry: Node?<I, O>, state: S, cache: Cache<S>, calls: seq<CallsEntry<S, I, O>>,
        linearized: array<B.Word>)
    requires InSearch(m, h, all, visited, order, k, entry, state, cache, calls, linearized) && all != []
      && all[0].next != null
    ensures entry != null && k < |all| && |calls| == |order| && Partial(m, h, order) && CallsOk(m, h, all, order, calls)
  {
  }

  lemma Entered<S(!new), I, O>(m: Model<S, I, O>, h: History<I, O>, all: seq<Node<I, O>>, visited: set<seq<nat>>,
        order: seq<nat>, k: nat, entry: Node?<I, O>, state: S, cache: Cache<S>, calls: seq<CallsEntry<S, I, O>>,
        linearized: array<B.Word>)
    requires InSearch(m, h, all, visited, order, k, entry, state, cache, calls, linearized) && order in visited
    ensures order in Sequences(Count(h), Count(h))
  {
    hide *;
    InSearchFacts(m, h, all, visited, order, k, entry, state, cache, calls, linearized);
    ConsistentFacts(m, h, visited, order, k, cache, state, linearized[..]);
  }

  lemma Fruitless<S(!new), I(!new), O(!new)>(m: Model<S, I, O>, h: History<I, O>, all: seq<Node<I, O>>,
        visited: set<seq<nat>>, order: seq<nat>, k: nat, entry: Node<I, O>, state: S, cache: Cache<S>,
        calls: seq<CallsEntry<S, I, O>>, linearized: array<B.Word>, longest: seq<Option<seq<nat>>>,
        computePartial: bool, killed: bool)
    requires WellFormed(h) && Proper(m)
      && InSearch(m, h, all, visited, order, k, entry, state, cache, calls, linearized)
    requires calls == [] && k < |all| && entry.partner == null
    requires Witnesses(m, h, longest) && (computePartial ==> Recorded(visited, order, longest))
    ensures Outcome(m, h, computePartial, killed, false, longest) && !Linearizable(m, h)
  {
    hide *;
    InSearchFacts(m, h, all, visited, order, k, entry, state, cache, calls, linearized);
    StandingFacts(h, all, order, k, entry);
    ConsistentFacts(m, h, visited, order, k, cache, state, linearized[..]);
    CallsLength(m, h, all, order, calls);
    ReturnFacts(h, all, k);
    assert order == [];
    Failed(m, h, visited, h[k - 1].id, longest, computePartial, killed);
  }

  /** The complete linearization is the longest one for every operation. */
  method RecordAll(order: seq<nat>, longest: array<Option<seq<nat>>>)
    modifies longest
    ensures forall i :: 0 <= i < longest.Length ==> longest[i] == Some(order)
  {
    for i := 0 to longest.Length
      invariant forall j :: 0 <= j < i ==> longest[j] == Some(order)
    {
      longest[i] := Some(order);
    }
  }

  /** Records the order on the stack before its last operation is undone. */
  method RecordCalls<S(!new), I, O>(m: Model<S, I, O>, h: History<I, O>, ghost all: seq<Node<I, O>>,
        calls: seq<CallsEntry<S, I, O>>, best: array<Option<seq<nat>>>, ghost visited: set<seq<nat>>,
        ghost order: seq<nat>)
    requires CallsOk(m, h, all, order, calls) && order != [] && Partial(m, h, order)
    requires Witnesses(m, h, best[..]) && Recorded(visited, order, best[..])
    modifies best
    ensures Witnesses(m, h, best[..]) && Recorded(visited, order[..|order| - 1], best[..])
  {
    hide *;
    CallsLength(m, h, all, order, calls);
    var ids := OrderOf(calls);
    assert ids == order;
    PartialBounded(m, h, order);
    WitnessCount(m, h, best[..]);
    ghost var was := best[..];
    NumberedBy(best.Length, order);
    Record(ids, best);
    RecordedOneMore(m, h, visited, order, was, best[..]);
  }

  lemma WitnessCount<S, I, O>(m: Model<S, I, O>, h: History<I, O>, longest: seq<Option<seq<nat>>>)
    requires Witnesses(m, h, longest)
    ensures |longest| == Count(h)
  {
  }

  lemma NumberedBy(n: nat, order: seq<nat>)
    requires forall i :: 0 <= i < |order| ==> order[i] < n
    ensures Numbered(n, order)
  {
  }

  lemma Exited<S(!new), I, O>(m: Model<S, I, O>, h: History<I, O>, all: seq<Node<I, O>>, visited: set<seq<nat>>,
        order: seq<nat>, k: nat, entry: Node?<I, O>, state: S, cache: Cache<S>, calls: seq<CallsEntry<S, I, O>>,
        linearized: array<B.Word>)
    requires WellFormed(h) && InSearch(m, h, all, visited, order, k, entry, state, cache, calls, linearized)
      && all != [] && all[0].next == null
    ensures Path(m, h, visited, order) && Complete(h, order)
    ensures |calls| == |order|
      && forall i :: 0 <= i < |calls| ==> calls[i].entry.value.Some? && calls[i].entry.value.value.id == order[i]
  {
    hide *;
    InSearchFacts(m, h, all, visited, order, k, entry, state, cache, calls, linearized);
    StandingFacts(h, all, order, k, entry);
    ConsistentFacts(m, h, visited, order, k, cache, state, linearized[..]);
    CallsLength(m, h, all, order, calls);
    NothingLeft(h, all, order);
  }

  /** Searches for a linearization; the kill flag is read once in each round. */
  method CheckSingle<S(!new), I(!new), O(!new)>(m: Model<S, I, O>, history: History<I, O>, computePartial: bool,
        kill: nat -> bool)
    returns (ok: bool, longest: seq<Option<seq<nat>>>)
    requires WellFormed(history) && Proper(m)
    ensures ok ==> Linearizable(m, history)
    ensures (forall round: nat :: !kill(round)) ==> (ok <==> Linearizable(m, history))
    ensures Outcome(m, history, computePartial, exists round: nat :: kill(round), ok, longest)
  {
    hide *;
    var head, entry, n, all := Prepare(history);
    var linearized := new B.Word[B.Chunks(n)](_ => B.Word(0));
    var cache: Cache<S> := map[];
    var calls: seq<CallsEntry<S, I, O>> := [];
    var best := new Option<seq<nat>>[n](_ => None);
    var state := m.init;
    ghost var order: seq<nat>, visited: set<seq<nat>>, k: nat := [], {}, Next(0, Slots(history, []), |history| + 1);
    ZeroWords(n, linearized[..]);
    NothingRecorded(m, history, best[..]);
    Begin(m, history, all, linearized, n);
    var round := 0;
    while head.next != null
      invariant InSearch(m, history, all, visited, order, k, entry, state, cache, calls, linearized)
      invariant Witnesses(m, history, best[..]) && (computePartial ==> Recorded(visited, order, best[..]))
      invariant fresh(linearized) && fresh(best) && forall i :: 0 <= i < |all| ==> fresh(all[i])
      decreases |Sequences(n, n) - visited|, |calls|, |all| - k
    {
      AtRound(m, history, all, visited, order, k, entry, state, cache, calls, linearized);
      if kill(round) {
        Killed(m, history, best[..], computePartial);
        return false, best[..];
      }
      round := round + 1;
      if entry.partner != null {
        ghost var chosen, next, was := None, k, visited;
        entry, state, cache, calls, chosen, next :=
          TryCall(m, history, head, linearized, all, entry, state, cache, calls, visited, order, k);
        k := next;
        if chosen.Some? {
          if computePartial {
            RecordedPush(visited, order, chosen.value, best[..]);
          }
          visited, order := visited + {order + [chosen.value]}, order + [chosen.value];
          Entered(m, history, all, visited, order, k, entry, state, cache, calls, linearized);
          SetShrinks(Sequences(n, n), was, order);
        }
      } else {
        if |calls| == 0 {
          Fruitless(m, history, all, visited, order, k, entry, state, cache, calls, linearized, best[..],
            computePartial, exists round: nat :: kill(round));
          return false, best[..];
        }
        if computePartial {
          RecordCalls(m, history, all, calls, best, visited, order);
        }
        ghost var next := k;
        entry, state, calls, next :=
          Backtrack(m, history, linearized, all, entry, state, cache, calls, visited, order, k);
        order, k := order[..|order| - 1], next;
      }
    }
    Exited(m, history, all, visited, order, k, entry, state, cache, calls, linearized);
    var ids := OrderOf(calls);
    assert ids == order;
    RecordAll(ids, best);
    Succeeded(m, history, visited, order, best[..], computePartial, exists round: nat :: kill(round));
    return true, best[..];
  }
}
