/**
 Operations with times, and linearizability of a keyed object part by part (the Partition law of
 src/test_files/porcupine/model.go).
 */
module Locality {
  import opened Common
  import opened Histories

  datatype Operation<+I, +O> = Operation(clientId: int, input: I, call: int, output: O, ret: int)

  type Trace<I, O> = seq<Operation<I, O>>

  ghost predicate Timely<I, O>(t: Trace<I, O>) {
    forall i :: 0 <= i < |t| ==> t[i].call <= t[i].ret
  }

  /** No operation comes before one that had returned when it was called. */
  ghost predicate InTime<I, O>(t: Trace<I, O>) {
    forall i, j :: 0 <= i < j < |t| ==> !(t[j].ret < t[i].call)
  }

  /** The state after the operations of the trace, if all of them are accepted. */
  ghost function Run<S, I, O>(m: Model<S, I, O>, t: Trace<I, O>, s: S): Option<S> {
    if t == [] then Some(s)
    else
      var (ok, s') := m.step(s, t[0].input, t[0].output);
      if ok then Run(m, t[1..], s') else None
  }

  ghost predicate Explains<S, I, O>(m: Model<S, I, O>, ops: Trace<I, O>, t: Trace<I, O>) {
    multiset(t) == multiset(ops) && InTime(t) && Run(m, t, m.init).Some?
  }

  /** Some order of the operations explains what was observed. */
  ghost predicate LinearizableOps<S, I(!new), O(!new)>(m: Model<S, I, O>, ops: Trace<I, O>) {
    exists t :: Explains(m, ops, t)
  }

  // ---------------------------------------------------------------- keyed objects

  function Lookup<K, S>(m: map<K, S>, k: K, default: S): S {
    if k in m then m[k] else default
  }

  /** One copy of the object for each key. */
  function Keyed<K, S, I, O>(m: Model<S, I, O>, keyOf: I -> K): Model<map<K, S>, I, O> {
    Model(map[],
          (st: map<K, S>, i, o) => var (ok, s) := m.step(Lookup(st, keyOf(i), m.init), i, o); (ok, st[keyOf(i) := s]),
          (a, b) => false)
  }

  /** The operations on one key, in their order. */
  function Restrict<K(==), I, O>(t: Trace<I, O>, keyOf: I -> K, k: K): Trace<I, O> {
    if t == [] then []
    else if keyOf(t[0].input) == k then [t[0]] + Restrict(t[1..], keyOf, k)
    else Restrict(t[1..], keyOf, k)
  }

  /** A trace runs on the keyed object exactly when each key's part runs on its own copy. */
  lemma {:induction false} RunByKey<K(!new), S, I, O>(m: Model<S, I, O>, keyOf: I -> K, t: Trace<I, O>, st: map<K, S>)
    ensures Run(Keyed(m, keyOf), t, st).Some? <==>
      forall k :: Run(m, Restrict(t, keyOf, k), Lookup(st, k, m.init)).Some?
  {
    if t != [] {
      var x := keyOf(t[0].input);
      var (ok, s) := m.step(Lookup(st, x, m.init), t[0].input, t[0].output);
      var st' := st[x := s];
      RunByKey(m, keyOf, t[1..], st');
      assert Restrict(t, keyOf, x) == [t[0]] + Restrict(t[1..], keyOf, x);
      assert Run(m, Restrict(t, keyOf, x), Lookup(st, x, m.init)) == if ok then Run(m, Restrict(t[1..], keyOf, x), s)
        else None;
      forall k
        ensures k != x ==>
          Lookup(st', k, m.init) == Lookup(st, k, m.init) && Restrict(t, keyOf, k) == Restrict(t[1..], keyOf, k)
      {
      }
      if ok && forall k :: Run(m, Restrict(t, keyOf, k), Lookup(st, k, m.init)).Some? {
        forall k
          ensures Run(m, Restrict(t[1..], keyOf, k), Lookup(st', k, m.init)).Some?
        {
          assert Run(m, Restrict(t, keyOf, k), Lookup(st, k, m.init)).Some?;
        }
      }
      if ok && forall k :: Run(m, Restrict(t[1..], keyOf, k), Lookup(st', k, m.init)).Some? {
        forall k
          ensures Run(m, Restrict(t, keyOf, k), Lookup(st, k, m.init)).Some?
        {
          assert Run(m, Restrict(t[1..], keyOf, k), Lookup(st', k, m.init)).Some?;
        }
      }
    }
  }

  lemma {:induction false} RestrictCounts<K, I, O>(t: Trace<I, O>, keyOf: I -> K, k: K, x: Operation<I, O>)
    ensures multiset(Restrict(t, keyOf, k))[x] == if keyOf(x.input) == k then multiset(t)[x] else 0
  {
    if t != [] {
      RestrictCounts(t[1..], keyOf, k, x);
      assert t == [t[0]] + t[1..];
    }
  }

  lemma {:induction false} RestrictInTime<K, I, O>(t: Trace<I, O>, keyOf: I -> K, k: K)
    requires InTime(t)
    ensures InTime(Restrict(t, keyOf, k))
  {
    if t != [] {
      var r := Restrict(t[1..], keyOf, k);
      RestrictInTime(t[1..], keyOf, k);
      forall j | 0 <= j < |r|
        ensures !(r[j].ret < t[0].call)
      {
        RestrictCounts(t[1..], keyOf, k, r[j]);
        assert r[j] in multiset(r);
        assert r[j] in t[1..];
      }
    }
  }

  // ---------------------------------------------------------------- merging two explanations

  ghost predicate Overtaken<I, O>(x: Operation<I, O>, t: Trace<I, O>) {
    exists j :: 0 <= j < |t| && t[j].ret < x.call
  }

  /** Takes the first operation of either trace that nothing on the other side has to precede. */
  ghost function Merge<I, O>(a: Trace<I, O>, b: Trace<I, O>): Trace<I, O>
    decreases |a| + |b|
  {
    if a == [] then b
    else if b == [] then a
    else if Overtaken(a[0], b) then [b[0]] + Merge(a, b[1..])
    else [a[0]] + Merge(a[1..], b)
  }

  lemma {:induction false} MergeCounts<I, O>(a: Trace<I, O>, b: Trace<I, O>)
    ensures multiset(Merge(a, b)) == multiset(a) + multiset(b)
    decreases |a| + |b|
  {
    if a != [] && b != [] {
      if Overtaken(a[0], b) {
        MergeCounts(a, b[1..]);
        assert b == [b[0]] + b[1..];
      } else {
        MergeCounts(a[1..], b);
        assert a == [a[0]] + a[1..];
      }
    }
  }

  /** If something in b must precede the head of a, nothing in a must precede the head of b. */
  lemma HeadsCannotBothWait<I, O>(a: Trace<I, O>, b: Trace<I, O>)
    requires Timely(a) && Timely(b) && InTime(a) && InTime(b) && a != [] && b != [] && Overtaken(a[0], b)
    ensures !Overtaken(b[0], a)
  {
  }

  lemma MergedAfter<I, O>(x: Operation<I, O>, a: Trace<I, O>, b: Trace<I, O>)
    requires InTime(Merge(a, b)) && !Overtaken(x, a) && !Overtaken(x, b)
    ensures InTime([x] + Merge(a, b))
  {
    var rest := Merge(a, b);
    MergeCounts(a, b);
    forall j | 0 <= j < |rest|
      ensures !(rest[j].ret < x.call)
    {
      assert rest[j] in multiset(rest);
      assert rest[j] in a || rest[j] in b;
    }
  }

  lemma {:induction false} MergeInTime<I, O>(a: Trace<I, O>, b: Trace<I, O>)
    requires Timely(a) && Timely(b) && InTime(a) && InTime(b)
    ensures InTime(Merge(a, b))
    decreases |a| + |b|
  {
    if a != [] && b != [] {
      if Overtaken(a[0], b) {
        HeadsCannotBothWait(a, b);
        MergeInTime(a, b[1..]);
        MergedAfter(b[0], a, b[1..]);
      } else {
        MergeInTime(a[1..], b);
        MergedAfter(a[0], a[1..], b);
      }
    }
  }

  ghost predicate Avoids<K, I, O>(t: Trace<I, O>, keyOf: I -> K, k: K) {
    forall i :: 0 <= i < |t| ==> keyOf(t[i].input) != k
  }

  ghost predicate Only<K, I, O>(t: Trace<I, O>, keyOf: I -> K, k: K) {
    forall i :: 0 <= i < |t| ==> keyOf(t[i].input) == k
  }

  lemma {:induction false} RestrictOnly<K, I, O>(t: Trace<I, O>, keyOf: I -> K, key: K, k: K)
    requires Only(t, keyOf, key)
    ensures Restrict(t, keyOf, k) == if k == key then t else []
  {
    if t != [] {
      RestrictOnly(t[1..], keyOf, key, k);
    }
  }

  lemma {:induction false} RestrictAvoids<K, I, O>(t: Trace<I, O>, keyOf: I -> K, k: K)
    requires Avoids(t, keyOf, k)
    ensures Restrict(t, keyOf, k) == []
  {
    if t != [] {
      RestrictAvoids(t[1..], keyOf, k);
    }
  }

  /** Merging in the operations of one more key leaves the part of every key as it was. */
  lemma {:induction false} RestrictMerge<K, I, O>(a: Trace<I, O>, b: Trace<I, O>, keyOf: I -> K, key: K, k: K)
    requires Avoids(a, keyOf, key) && Only(b, keyOf, key)
    ensures Restrict(Merge(a, b), keyOf, k) == if k == key then b else Restrict(a, keyOf, k)
    decreases |a| + |b|
  {
    if a == [] {
      RestrictOnly(b, keyOf, key, k);
    } else if b == [] {
      if k == key {
        RestrictAvoids(a, keyOf, key);
      }
    } else if Overtaken(a[0], b) {
      RestrictMerge(a, b[1..], keyOf, key, k);
      var rest := Merge(a, b[1..]);
      assert ([b[0]] + rest)[1..] == rest;
    } else {
      RestrictMerge(a[1..], b, keyOf, key, k);
      var rest := Merge(a[1..], b);
      assert ([a[0]] + rest)[1..] == rest;
    }
  }

  // ---------------------------------------------------------------- locality

  lemma {:induction false} RestrictConcat<K, I, O>(a: Trace<I, O>, b: Trace<I, O>, keyOf: I -> K, k: K)
    ensures Restrict(a + b, keyOf, k) == Restrict(a, keyOf, k) + Restrict(b, keyOf, k)
  {
    if a == [] {
      assert a + b == b;
    } else {
      assert (a + b)[1..] == a[1..] + b;
      RestrictConcat(a[1..], b, keyOf, k);
    }
  }

  lemma RemoveOne<T>(t: seq<T>, ops: seq<T>, p: nat)
    requires multiset(t) == multiset(ops) && t != [] && p < |ops| && ops[p] == t[0]
    ensures multiset(t[1..]) == multiset(ops[..p] + ops[p + 1..])
  {
    assert t == [t[0]] + t[1..];
    assert ops == ops[..p] + [ops[p]] + ops[p + 1..];
    assert multiset(t[1..]) == multiset(t) - multiset{t[0]};
    assert multiset(ops[..p] + ops[p + 1..]) == multiset(ops) - multiset{t[0]};
  }

  /** Rearranging the operations rearranges the part of each key. */
  lemma {:induction false} SameOpsRestrict<K, I, O>(t: Trace<I, O>, ops: Trace<I, O>, keyOf: I -> K, k: K)
    requires multiset(t) == multiset(ops)
    ensures multiset(Restrict(t, keyOf, k)) == multiset(Restrict(ops, keyOf, k))
  {
    if t == [] {
      assert |multiset(ops)| == 0;
    } else {
      var x := t[0];
      assert x in multiset(t);
      var p :| 0 <= p < |ops| && ops[p] == x;
      var a, b := ops[..p], ops[p + 1..];
      assert ops == a + ([x] + b);
      RemoveOne(t, ops, p);
      SameOpsRestrict(t[1..], a + b, keyOf, k);
      RestrictConcat(a, b, keyOf, k);
      RestrictConcat(a, [x] + b, keyOf, k);
      assert ([x] + b)[1..] == b;
    }
  }

  /** An explanation of the whole explains every part. */
  lemma WholeToParts<K(!new), S, I(!new), O(!new)>(m: Model<S, I, O>, keyOf: I -> K, ops: Trace<I, O>, k: K)
    requires LinearizableOps(Keyed(m, keyOf), ops)
    ensures LinearizableOps(m, Restrict(ops, keyOf, k))
  {
    var t :| Explains(Keyed(m, keyOf), ops, t);
    RunByKey(m, keyOf, t, map[]);
    assert Lookup(map[], k, m.init) == m.init;
    RestrictInTime(t, keyOf, k);
    SameOpsRestrict(t, ops, keyOf, k);
    assert Explains(m, Restrict(ops, keyOf, k), Restrict(t, keyOf, k));
  }

  /** The operations on some of the keys. */
  ghost function Within<K(!new), I, O>(t: Trace<I, O>, keyOf: I -> K, keys: set<K>): Trace<I, O> {
    if t == [] then []
    else if keyOf(t[0].input) in keys then [t[0]] + Within(t[1..], keyOf, keys)
    else Within(t[1..], keyOf, keys)
  }

  lemma {:induction false} WithinFacts<K(!new), I, O>(t: Trace<I, O>, keyOf: I -> K, keys: set<K>)
    ensures forall i :: 0 <= i < |Within(t, keyOf, keys)| ==> keyOf(Within(t, keyOf, keys)[i].input) in keys
    ensures (forall i :: 0 <= i < |t| ==> keyOf(t[i].input) in keys) ==> Within(t, keyOf, keys) == t
    ensures keys == {} ==> Within(t, keyOf, keys) == []
    ensures Timely(t) ==> Timely(Within(t, keyOf, keys))
  {
    if t != [] {
      WithinFacts(t[1..], keyOf, keys);
    }
  }

  lemma {:induction false} WithinOneMore<K(!new), I, O>(t: Trace<I, O>, keyOf: I -> K, keys: set<K>, k: K)
    requires k !in keys
    ensures multiset(Within(t, keyOf, keys + {k})) == multiset(Within(t, keyOf, keys)) + multiset(Restrict(t, keyOf, k))
  {
    if t != [] {
      WithinOneMore(t[1..], keyOf, keys, k);
    }
  }

  lemma {:induction false} RestrictWithin<K(!new), I, O>(t: Trace<I, O>, keyOf: I -> K, keys: set<K>, k: K)
    ensures Restrict(Within(t, keyOf, keys), keyOf, k) == if k in keys then Restrict(t, keyOf, k) else []
  {
    if t != [] {
      RestrictWithin(t[1..], keyOf, keys, k);
    }
  }

  lemma {:induction false} RestrictFacts<K, I, O>(t: Trace<I, O>, keyOf: I -> K, k: K)
    ensures Only(Restrict(t, keyOf, k), keyOf, k)
    ensures Timely(t) ==> Timely(Restrict(t, keyOf, k))
  {
    if t != [] {
      RestrictFacts(t[1..], keyOf, k);
    }
  }

  /** Having the same operations carries over what holds of each of them. */
  lemma SameOpsFacts<K, I, O>(t: Trace<I, O>, ops: Trace<I, O>, keyOf: I -> K, k: K)
    requires multiset(t) == multiset(ops)
    ensures Timely(ops) ==> Timely(t)
    ensures Only(ops, keyOf, k) ==> Only(t, keyOf, k)
    ensures Avoids(ops, keyOf, k) ==> Avoids(t, keyOf, k)
  {
    forall i | 0 <= i < |t|
      ensures t[i] in ops
    {
      assert t[i] in multiset(t);
    }
  }

  lemma AddKey<K(!new), S, I(!new), O(!new)>(m: Model<S, I, O>, keyOf: I -> K, ops: Trace<I, O>, keys: set<K>, k: K,
        a: Trace<I, O>, b: Trace<I, O>)
    requires Timely(ops) && k !in keys
    requires Explains(Keyed(m, keyOf), Within(ops, keyOf, keys), a) && Explains(m, Restrict(ops, keyOf, k), b)
    ensures Explains(Keyed(m, keyOf), Within(ops, keyOf, keys + {k}), Merge(a, b))
  {
    var part, before := Restrict(ops, keyOf, k), Within(ops, keyOf, keys);
    WithinFacts(ops, keyOf, keys);
    RestrictFacts(ops, keyOf, k);
    SameOpsFacts(a, before, keyOf, k);
    SameOpsFacts(b, part, keyOf, k);
    MergeCounts(a, b);
    WithinOneMore(ops, keyOf, keys, k);
    MergeInTime(a, b);
    RunByKey(m, keyOf, a, map[]);
    forall x
      ensures Run(m, Restrict(Merge(a, b), keyOf, x), Lookup(map[], x, m.init)).Some?
    {
      RestrictMerge(a, b, keyOf, k, x);
      assert Run(m, Restrict(a, keyOf, x), Lookup(map[], x, m.init)).Some?;
    }
    RunByKey(m, keyOf, Merge(a, b), map[]);
  }

  lemma {:induction false} PartsToWithin<K(!new), S, I(!new), O(!new)>(m: Model<S, I, O>, keyOf: I -> K,
        ops: Trace<I, O>, keys: set<K>)
    requires Timely(ops) && forall k :: k in keys ==> LinearizableOps(m, Restrict(ops, keyOf, k))
    ensures LinearizableOps(Keyed(m, keyOf), Within(ops, keyOf, keys))
    decreases |keys|
  {
    if keys == {} {
      WithinFacts(ops, keyOf, keys);
      assert Explains(Keyed(m, keyOf), [], []);
    } else {
      var k :| k in keys;
      var rest := keys - {k};
      PartsToWithin(m, keyOf, ops, rest);
      var a :| Explains(Keyed(m, keyOf), Within(ops, keyOf, rest), a);
      assert LinearizableOps(m, Restrict(ops, keyOf, k));
      var b :| Explains(m, Restrict(ops, keyOf, k), b);
      AddKey(m, keyOf, ops, rest, k, a, b);
      assert rest + {k} == keys;
    }
  }

  ghost function KeysOf<K, I, O>(t: Trace<I, O>, keyOf: I -> K): (r: set<K>)
    ensures forall i :: 0 <= i < |t| ==> keyOf(t[i].input) in r
  {
    set i | 0 <= i < |t| :: keyOf(t[i].input)
  }

  ghost predicate EachKey<K(!new), S, I(!new), O(!new)>(m: Model<S, I, O>, keyOf: I -> K, ops: Trace<I, O>) {
    forall k :: LinearizableOps(m, Restrict(ops, keyOf, k))
  }

  /** A keyed object is linearizable exactly when each of its keys is. */
  lemma LocalityLaw<K(!new), S, I(!new), O(!new)>(m: Model<S, I, O>, keyOf: I -> K, ops: Trace<I, O>)
    requires Timely(ops)
    ensures LinearizableOps(Keyed(m, keyOf), ops) <==> EachKey(m, keyOf, ops)
  {
    if LinearizableOps(Keyed(m, keyOf), ops) {
      forall k
        ensures LinearizableOps(m, Restrict(ops, keyOf, k))
      {
        WholeToParts(m, keyOf, ops, k);
      }
      assert EachKey(m, keyOf, ops);
    }
    if EachKey(m, keyOf, ops) {
      PartsToWithin(m, keyOf, ops, KeysOf(ops, keyOf));
      WithinFacts(ops, keyOf, KeysOf(ops, keyOf));
    }
  }
}
