/**
 The cache of the linearizability search (src/test_files/porcupine/checker.go): bit sets of done operations with the
 state they led to.
 */
module SearchCache {
  import opened Common
  import opened Histories
  import opened Search
  import B = Bitset

  datatype CacheEntry<+S> = CacheEntry(linearized: B.Words, state: S)

  type Cache<S> = map<B.Word, seq<CacheEntry<S>>>

  ghost predicate Numbered(n: nat, order: seq<nat>) {
    forall i :: 0 <= i < |order| ==> order[i] < n
  }

  /** The bit set with one bit for each operation of the order. */
  ghost function Marks(n: nat, order: seq<nat>): (w: B.Words)
    requires Numbered(n, order)
    ensures B.Capacity(w) == B.Capacity(B.Empty(n)) >= n
  {
    if order == [] then B.Empty(n) else B.Set(Marks(n, order[..|order| - 1]), order[|order| - 1])
  }

  lemma {:induction false} MarksGet(n: nat, order: seq<nat>, id: nat)
    requires Numbered(n, order) && id < n
    ensures B.Get(Marks(n, order), id) <==> id in order
    decreases |order|
  {
    hide B.Get, B.Set, B.Empty, B.Capacity;
    if order == [] {
      B.EmptyHasNothing(n, id);
    } else {
      var last := |order| - 1;
      var rest, x := order[..last], order[last];
      assert order == rest + [x];
      MarksGet(n, rest, id);
      B.GetAfterSet(Marks(n, rest), x, id);
    }
  }

  lemma MarksOneMore(n: nat, order: seq<nat>, id: nat)
    requires Numbered(n, order) && id < n
    ensures Numbered(n, order + [id]) && Marks(n, order + [id]) == B.Set(Marks(n, order), id)
    ensures id !in order ==> B.Clear(Marks(n, order + [id]), id) == Marks(n, order)
  {
    hide B.Get, B.Set, B.Clear, B.Empty, B.Capacity;
    assert (order + [id])[..|order|] == order;
    MarksGet(n, order, id);
    if id !in order {
      B.ClearAfterSet(Marks(n, order), id);
    }
  }

  /** Equal bit sets come from the same operations. */
  lemma SameMarks(n: nat, u: seq<nat>, v: seq<nat>)
    requires Numbered(n, u) && Numbered(n, v) && Marks(n, u) == Marks(n, v)
    ensures SameOperations(u, v)
  {
    hide Marks, B.Get, B.Capacity;
    forall id: nat | id < n
      ensures id in u <==> id in v
    {
      MarksGet(n, u, id);
      MarksGet(n, v, id);
    }
  }

  // ---------------------------------------------------------------- entries and orders

  ghost predicate EntryFor<S, I, O>(m: Model<S, I, O>, h: History<I, O>, order: seq<nat>, e: CacheEntry<S>) {
    Numbered(Count(h), order) && Replay(m, h, order) == Some(e.state) && e.linearized == Marks(Count(h), order)
  }

  ghost predicate Contains<S>(cache: Cache<S>, e: CacheEntry<S>) {
    B.Hash(e.linearized) in cache && e in cache[B.Hash(e.linearized)]
  }

  /** The cache holds one entry for each order entered, in the bucket of its hash, and nothing else. */
  ghost predicate CacheOk<S(!new), I, O>(m: Model<S, I, O>, h: History<I, O>, visited: set<seq<nat>>, cache: Cache<S>) {
    && (forall v :: v in visited ==> exists e :: EntryFor(m, h, v, e) && Contains(cache, e))
    && (forall hash, i :: hash in cache && 0 <= i < |cache[hash]| ==>
      exists v :: v in visited && EntryFor(m, h, v, cache[hash][i]))
  }

  ghost predicate Hit<S, I, O>(m: Model<S, I, O>, cache: Cache<S>, e: CacheEntry<S>, i: nat) {
    var hash := B.Hash(e.linearized);
    hash in cache && i < |cache[hash]| && cache[hash][i].linearized == e.linearized
      && m.equal(e.state, cache[hash][i].state)
  }

  method CacheContains<S, I, O>(m: Model<S, I, O>, cache: Cache<S>, e: CacheEntry<S>) returns (found: bool)
    ensures found <==> exists i :: Hit(m, cache, e, i)
  {
    var hash := B.ComputeHash(e.linearized);
    var bucket := if hash in cache then cache[hash] else [];
    var i := 0;
    while i < |bucket|
      invariant 0 <= i <= |bucket|
      invariant forall j: nat :: j < i ==> !Hit(m, cache, e, j)
    {
      var elem := bucket[i];
      var same := B.Equals(e.linearized, elem.linearized);
      if same && m.equal(e.state, elem.state) {
        assert Hit(m, cache, e, i);
        return true;
      }
      i := i + 1;
    }
    return false;
  }

  lemma HitCovers<S(!new), I, O>(m: Model<S, I, O>, h: History<I, O>, visited: set<seq<nat>>, cache: Cache<S>,
        order: seq<nat>, e: CacheEntry<S>, i: nat)
    requires CacheOk(m, h, visited, cache) && EntryFor(m, h, order, e) && Hit(m, cache, e, i)
    ensures Covered(m, h, visited, order)
  {
    hide B.Hash, Count, Replay;
    var v :| v in visited && EntryFor(m, h, v, cache[B.Hash(e.linearized)][i]);
    SameMarks(Count(h), order, v);
    assert CoveredBy(m, h, order, v);
  }

  lemma KnownIsHit<S(!new), I(!new), O(!new)>(m: Model<S, I, O>, h: History<I, O>, visited: set<seq<nat>>,
        cache: Cache<S>, order: seq<nat>, e: CacheEntry<S>)
    requires Proper(m) && CacheOk(m, h, visited, cache) && EntryFor(m, h, order, e) && order in visited
    ensures exists i :: Hit(m, cache, e, i)
  {
    hide B.Hash, Count, Replay, Marks;
    var f :| EntryFor(m, h, order, f) && Contains(cache, f);
    assert e == f;
    var i :| 0 <= i < |cache[B.Hash(e.linearized)]| && cache[B.Hash(e.linearized)][i] == e;
    assert Hit(m, cache, e, i);
  }

  function Store<S>(cache: Cache<S>, hash: B.Word, e: CacheEntry<S>): Cache<S> {
    cache[hash := (if hash in cache then cache[hash] else []) + [e]]
  }

  lemma Stored<S(!new), I, O>(m: Model<S, I, O>, h: History<I, O>, visited: set<seq<nat>>, cache: Cache<S>,
        order: seq<nat>, e: CacheEntry<S>)
    requires CacheOk(m, h, visited, cache) && EntryFor(m, h, order, e)
    ensures CacheOk(m, h, visited + {order}, Store(cache, B.Hash(e.linearized), e))
  {
    hide B.Hash, EntryFor;
    var more, cache' := visited + {order}, Store(cache, B.Hash(e.linearized), e);
    forall f | Contains(cache, f) || f == e
      ensures Contains(cache', f)
    {
    }
    forall hash, i | hash in cache' && 0 <= i < |cache'[hash]|
      ensures exists v :: v in more && EntryFor(m, h, v, cache'[hash][i])
    {
      if hash in cache && i < |cache[hash]| {
        var v :| v in visited && EntryFor(m, h, v, cache[hash][i]);
        assert v in more;
      } else {
        assert order in more;
      }
    }
  }
}
