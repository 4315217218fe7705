/** From operations with times to histories (makeEntries of src/test_files/porcupine/checker.go). */
module Entries {
  import opened Common
  import opened Histories
  import opened Locality
  import opened Search

  datatype Timed<+I, +O> = Timed(entry: Entry<I, O>, time: int)

  function Rank<I, O>(t: Timed<I, O>): int {
    2 * t.time + if t.entry.Call? then 0 else 1
  }

  /** Earlier first; at the same time calls before returns: a total preorder. */
  predicate Less<I, O>(a: Timed<I, O>, b: Timed<I, O>)
    ensures Less(a, b) <==> Rank(a) < Rank(b)
  {
    if a.time != b.time then a.time < b.time else a.entry.Call? && b.entry.Return?
  }

  function CallAt<I, O>(ops: Trace<I, O>, id: nat): Timed<I, O>
    requires id < |ops|
  {
    Timed(Call(ops[id].input, id), ops[id].call)
  }

  function ReturnAt<I, O>(ops: Trace<I, O>, id: nat): Timed<I, O>
    requires id < |ops|
  {
    Timed(Return(ops[id].output, id), ops[id].ret)
  }

  /** The entries before sorting. */
  function Raw<I, O>(ops: Trace<I, O>): seq<Timed<I, O>> {
    if ops == [] then []
    else
      var last := |ops| - 1;
      Raw(ops[..last]) + [CallAt(ops, last), ReturnAt(ops, last)]
  }

  ghost predicate Sorted<I, O>(ts: seq<Timed<I, O>>) {
    forall i, j :: 0 <= i < j < |ts| ==> !Less(ts[j], ts[i])
  }

  /** Any result a correct sort may leave. */
  ghost predicate EntriesOf<I, O>(ops: Trace<I, O>, ts: seq<Timed<I, O>>) {
    multiset(ts) == multiset(Raw(ops)) && Sorted(ts)
  }

  function Strip<I, O>(ts: seq<Timed<I, O>>): (h: History<I, O>)
    ensures |h| == |ts| && forall i :: 0 <= i < |ts| ==> h[i] == ts[i].entry
  {
    seq(|ts|, i requires 0 <= i < |ts| => ts[i].entry)
  }

  // ---------------------------------------------------------------- sorting

  method Insert<I, O>(ts: seq<Timed<I, O>>, x: Timed<I, O>) returns (r: seq<Timed<I, O>>)
    requires Sorted(ts)
    ensures Sorted(r) && multiset(r) == multiset(ts) + multiset{x}
  {
    var i := |ts|;
    while i > 0 && Less(x, ts[i - 1])
      invariant 0 <= i <= |ts|
      invariant forall j :: i <= j < |ts| ==> Less(x, ts[j])
    {
      i := i - 1;
    }
    r := ts[..i] + [x] + ts[i..];
    assert ts == ts[..i] + ts[i..];
    InsertedSorted(ts, i, x);
  }

  lemma InsertedSorted<I, O>(ts: seq<Timed<I, O>>, i: nat, x: Timed<I, O>)
    requires Sorted(ts) && i <= |ts| && (i > 0 ==> !Less(x, ts[i - 1])) && forall j :: i <= j < |ts| ==> Less(x, ts[j])
    ensures Sorted(ts[..i] + [x] + ts[i..])
  {
    hide Less, Rank;
    var r := ts[..i] + [x] + ts[i..];
    forall j, k | 0 <= j < k < |r|
      ensures !Less(r[k], r[j])
    {
      assert r[j] == if j < i then ts[j] else if j == i then x else ts[j - 1];
      assert r[k] == if k < i then ts[k] else if k == i then x else ts[k - 1];
    }
  }

  method Sort<I, O>(entries: seq<Timed<I, O>>) returns (ts: seq<Timed<I, O>>)
    ensures Sorted(ts) && multiset(ts) == multiset(entries)
  {
    ts := [];
    for i := 0 to |entries|
      invariant Sorted(ts) && multiset(ts) == multiset(entries[..i])
    {
      hide Sorted;
      assert entries[..i + 1] == entries[..i] + [entries[i]];
      ts := Insert(ts, entries[i]);
    }
    assert entries[..|entries|] == entries;
  }

  lemma RawOneMore<I, O>(ops: Trace<I, O>, id: nat)
    requires id < |ops|
    ensures Raw(ops[..id + 1]) == Raw(ops[..id]) + [CallAt(ops, id), ReturnAt(ops, id)]
  {
    assert ops[..id + 1][..id] == ops[..id];
  }

  /** The entries of the operations, sorted by time. */
  method MakeEntries<I, O>(ops: Trace<I, O>) returns (ts: seq<Timed<I, O>>)
    ensures EntriesOf(ops, ts)
  {
    var entries: seq<Timed<I, O>> := [];
    for id := 0 to |ops|
      invariant entries == Raw(ops[..id])
    {
      RawOneMore(ops, id);
      entries := entries + [CallAt(ops, id)];
      entries := entries + [ReturnAt(ops, id)];
    }
    assert ops[..|ops|] == ops;
    ts := Sort(entries);
  }

  // ---------------------------------------------------------------- what sorted entries look like

  ghost predicate IsRaw<I, O>(ops: Trace<I, O>, x: Timed<I, O>) {
    x.entry.id < |ops| && x == if x.entry.Call? then CallAt(ops, x.entry.id) else ReturnAt(ops, x.entry.id)
  }

  lemma {:induction false} RawCounts<I, O>(ops: Trace<I, O>, x: Timed<I, O>)
    ensures multiset(Raw(ops))[x] == if IsRaw(ops, x) then 1 else 0
    ensures |Raw(ops)| == 2 * |ops|
    decreases |ops|
  {
    if ops != [] {
      var last := |ops| - 1;
      RawCounts(ops[..last], x);
      assert CallAt(ops, last) != ReturnAt(ops, last);
    }
  }

  lemma Once<T>(s: seq<T>, i: nat, j: nat)
    requires i < j < |s| && s[i] == s[j]
    ensures multiset(s)[s[i]] >= 2
  {
    assert s == s[..i] + [s[i]] + s[i + 1..j] + [s[j]] + s[j + 1..];
  }

  lemma EntryFacts<I, O>(ops: Trace<I, O>, ts: seq<Timed<I, O>>, k: nat)
    requires EntriesOf(ops, ts) && k < |ts|
    ensures IsRaw(ops, ts[k]) && forall j :: 0 <= j < |ts| && ts[j] == ts[k] ==> j == k
  {
    RawCounts(ops, ts[k]);
    assert ts[k] in multiset(ts);
    forall j | 0 <= j < |ts| && ts[j] == ts[k]
      ensures j == k
    {
      if j < k {
        Once(ts, j, k);
      } else if k < j {
        Once(ts, k, j);
      }
    }
  }

  lemma EntryFound<I, O>(ops: Trace<I, O>, ts: seq<Timed<I, O>>, x: Timed<I, O>) returns (k: nat)
    requires EntriesOf(ops, ts) && IsRaw(ops, x)
    ensures k < |ts| && ts[k] == x
  {
    RawCounts(ops, x);
    assert x in multiset(ts);
    k :| 0 <= k < |ts| && ts[k] == x;
  }

  lemma {:induction false} CallOfAtMost<I, O>(h: History<I, O>, id: nat, p: nat)
    requires p < |h| && h[p].id == id
    ensures h[p].Call? ==> CallOf(h, id) <= p
    ensures h[p].Return? ==> ReturnOf(h, id) <= p
  {
    if p > 0 {
      CallOfAtMost(h[1..], id, p - 1);
    }
  }

  lemma Places<I, O>(ops: Trace<I, O>, ts: seq<Timed<I, O>>, id: nat)
    requires EntriesOf(ops, ts) && id < |ops|
    ensures CallOf(Strip(ts), id) < |ts| && ts[CallOf(Strip(ts), id)] == CallAt(ops, id)
    ensures ReturnOf(Strip(ts), id) < |ts| && ts[ReturnOf(Strip(ts), id)] == ReturnAt(ops, id)
  {
    var h := Strip(ts);
    var c := EntryFound(ops, ts, CallAt(ops, id));
    var r := EntryFound(ops, ts, ReturnAt(ops, id));
    CallOfAtMost(h, id, c);
    CallOfAtMost(h, id, r);
    EntryFacts(ops, ts, CallOf(h, id));
    EntryFacts(ops, ts, ReturnOf(h, id));
  }

  lemma TimeOrder<I, O>(ops: Trace<I, O>, ts: seq<Timed<I, O>>, i: nat, j: nat)
    requires EntriesOf(ops, ts) && i < |ops| && j < |ops|
    ensures ReturnOf(Strip(ts), j) < CallOf(Strip(ts), i) <==> ops[j].ret < ops[i].call
  {
    hide CallOf, ReturnOf;
    Places(ops, ts, i);
    Places(ops, ts, j);
    CallIsNotReturn(Strip(ts), i, j);
  }

  /** Whatever way ties are sorted, the entries form a well-formed history. */
  lemma EntriesWellFormed<I, O>(ops: Trace<I, O>, ts: seq<Timed<I, O>>)
    requires Timely(ops) && EntriesOf(ops, ts)
    ensures WellFormed(Strip(ts)) && Count(Strip(ts)) == |ops|
  {
    hide CallOf, ReturnOf;
    var h := Strip(ts);
    assert |ts| == 2 * |ops| by {
      assert |multiset(ts)| == |multiset(Raw(ops))|;
      RawLength(ops);
    }
    forall id: nat | id < |ops|
      ensures CallOf(h, id) < ReturnOf(h, id) < |h|
    {
      Places(ops, ts, id);
      TimeOrder(ops, ts, id, id);
      CallIsNotReturn(h, id, id);
    }
    forall k | 0 <= k < |h|
      ensures h[k].id < |ops| && k == if h[k].Call? then CallOf(h, h[k].id) else ReturnOf(h, h[k].id)
    {
      EntryFacts(ops, ts, k);
      Places(ops, ts, h[k].id);
    }
  }

  lemma {:induction false} RawLength<I, O>(ops: Trace<I, O>)
    ensures |Raw(ops)| == 2 * |ops|
    decreases |ops|
  {
    if ops != [] {
      RawLength(ops[..|ops| - 1]);
    }
  }

  // ---------------------------------------------------------------- the same verdict on both levels

  ghost function Pick<I, O>(ops: Trace<I, O>, order: seq<nat>): (t: Trace<I, O>)
    requires forall i :: 0 <= i < |order| ==> order[i] < |ops|
    ensures |t| == |order| && forall i :: 0 <= i < |order| ==> t[i] == ops[order[i]]
  {
    seq(|order|, i requires 0 <= i < |order| => ops[order[i]])
  }

  ghost predicate Permutes(n: nat, order: seq<nat>) {
    && |order| == n
    && (forall i :: 0 <= i < n ==> order[i] < n)
    && (forall i, j :: 0 <= i < j < n ==> order[i] != order[j])
  }

  lemma {:induction false} RunOneMore<S, I, O>(m: Model<S, I, O>, t: Trace<I, O>, x: Operation<I, O>, s: S)
    ensures Run(m, t + [x], s) == match Run(m, t, s)
                                  case None => None
                                  case Some(u) => if m.step(u, x.input, x.output).0 then
                                    Some(m.step(u, x.input, x.output).1) else None
  {
    if t == [] {
      assert t + [x] == [x];
    } else {
      assert (t + [x])[1..] == t[1..] + [x];
      var (ok, s') := m.step(s, t[0].input, t[0].output);
      if ok {
        RunOneMore(m, t[1..], x, s');
      }
    }
  }

  /** Replaying the history in an order is running the operations in that order. */
  lemma {:induction false} ReplayIsRun<S, I, O>(m: Model<S, I, O>, ops: Trace<I, O>, ts: seq<Timed<I, O>>,
        order: seq<nat>)
    requires EntriesOf(ops, ts) && forall i :: 0 <= i < |order| ==> order[i] < |ops|
    ensures Replay(m, Strip(ts), order) == Run(m, Pick(ops, order), m.init)
    decreases |order|
  {
    if order != [] {
      var last := |order| - 1;
      var rest, id := order[..last], order[last];
      ReplayIsRun(m, ops, ts, rest);
      RunOneMore(m, Pick(ops, rest), ops[id], m.init);
      assert Pick(ops, order) == Pick(ops, rest) + [ops[id]];
      Places(ops, ts, id);
      hide CallOf, ReturnOf, EntriesOf;
    }
  }

  function Drop(order: seq<nat>, p: nat): seq<nat>
    requires p < |order|
  {
    order[..p] + order[p + 1..]
  }

  lemma DropPermutes(n: nat, order: seq<nat>, p: nat)
    requires Permutes(n + 1, order) && p <= n && order[p] == n
    ensures Permutes(n, Drop(order, p))
  {
  }

  lemma PickDrop<I, O>(ops: Trace<I, O>, order: seq<nat>, n: nat, p: nat)
    requires |ops| == n + 1 && Permutes(n + 1, order) && p <= n && order[p] == n && Permutes(n, Drop(order, p))
    ensures multiset(Pick(ops, order)) == multiset(Pick(ops[..n], Drop(order, p))) + multiset{ops[n]}
  {
    var t := Pick(ops, order);
    assert t == t[..p] + [ops[n]] + t[p + 1..];
    assert Pick(ops[..n], Drop(order, p)) == t[..p] + t[p + 1..];
  }

  /** A permutation of the places rearranges the operations. */
  lemma {:induction false} PickPermutes<I, O>(ops: Trace<I, O>, order: seq<nat>)
    requires Permutes(|ops|, order)
    ensures multiset(Pick(ops, order)) == multiset(ops)
    decreases |ops|
  {
    if ops != [] {
      var last := |ops| - 1;
      var p := PlaceOf(|ops|, order, last);
      DropPermutes(last, order, p);
      PickDrop(ops, order, last, p);
      hide Permutes, Drop;
      PickPermutes(ops[..last], Drop(order, p));
      assert ops == ops[..last] + [ops[last]];
    }
  }

  lemma PlaceOf(n: nat, order: seq<nat>, id: nat) returns (p: nat)
    requires Permutes(n, order) && id < n
    ensures p < n && order[p] == id
  {
    AllBelow(n, order);
    assert id in Operations(order);
    p :| 0 <= p < n && order[p] == id;
  }

  lemma {:induction false} DistinctSize(order: seq<nat>)
    requires forall i, j :: 0 <= i < j < |order| ==> order[i] != order[j]
    ensures |Operations(order)| == |order|
    decreases |order|
  {
    if order != [] {
      var last := |order| - 1;
      DistinctSize(order[..last]);
      assert Operations(order) == Operations(order[..last]) + {order[last]};
    }
  }

  lemma AllBelow(n: nat, order: seq<nat>)
    requires Permutes(n, order)
    ensures Operations(order) == Ids(n)
  {
    DistinctSize(order);
    assert Operations(order) <= Ids(n);
    if Operations(order) != Ids(n) {
      var id :| id in Ids(n) && id !in Operations(order);
      SubsetSize(Operations(order), Ids(n) - {id});
    }
  }

  /** Every rearrangement of the operations comes from a permutation of the places. */
  lemma {:induction false} FindOrder<I, O>(ops: Trace<I, O>, t: Trace<I, O>) returns (order: seq<nat>)
    requires multiset(t) == multiset(ops)
    ensures Permutes(|ops|, order) && t == Pick(ops, order)
    decreases |t|
  {
    assert |t| == |multiset(t)| == |multiset(ops)| == |ops|;
    if t == [] {
      order := [];
    } else {
      assert t[0] in multiset(t);
      var p :| 0 <= p < |ops| && ops[p] == t[0];
      RemoveOne(t, ops, p);
      var rest := FindOrder(ops[..p] + ops[p + 1..], t[1..]);
      order := [p] + seq(|rest|, i requires 0 <= i < |rest| => if rest[i] < p then rest[i] else rest[i] + 1);
    }
  }

  lemma PermutesArranges<I, O>(h: History<I, O>, order: seq<nat>)
    ensures Permutes(Count(h), order) <==> Arranges(h, order)
  {
    hide Count;
    if Permutes(Count(h), order) {
      AllBelow(Count(h), order);
      assert forall id: nat :: id in order <==> id in Operations(order);
    }
    if Arranges(h, order) {
      DistinctSize(order);
      assert Operations(order) == Ids(Count(h));
      assert forall i :: 0 <= i < |order| ==> order[i] in order;
    }
  }

  lemma PickInTime<I, O>(ops: Trace<I, O>, ts: seq<Timed<I, O>>, order: seq<nat>)
    requires EntriesOf(ops, ts) && forall i :: 0 <= i < |order| ==> order[i] < |ops|
    ensures RespectsTime(Strip(ts), order) <==> InTime(Pick(ops, order))
  {
    hide CallOf, ReturnOf, EntriesOf;
    forall i, j | 0 <= i < j < |order|
      ensures ReturnOf(Strip(ts), order[j]) < CallOf(Strip(ts), order[i]) <==> ops[order[j]].ret < ops[order[i]].call
    {
      TimeOrder(ops, ts, order[i], order[j]);
    }
  }

  /** The history is linearizable exactly when the operations are. */
  lemma SameVerdict<S, I(!new), O(!new)>(m: Model<S, I, O>, ops: Trace<I, O>, ts: seq<Timed<I, O>>)
    requires Timely(ops) && EntriesOf(ops, ts)
    ensures Histories.Linearizable(m, Strip(ts)) <==> LinearizableOps(m, ops)
  {
    hide EntriesOf, Timely, RespectsTime, InTime, Replay, Run, Strip, WellFormed, Count;
    EntriesWellFormed(ops, ts);
    var h := Strip(ts);
    if Histories.Linearizable(m, h) {
      var order :| LinearizedBy(m, h, order);
      PermutesArranges(h, order);
      PickPermutes(ops, order);
      PickInTime(ops, ts, order);
      ReplayIsRun(m, ops, ts, order);
      assert Explains(m, ops, Pick(ops, order));
    }
    if LinearizableOps(m, ops) {
      var t :| Explains(m, ops, t);
      var order := FindOrder(ops, t);
      PermutesArranges(h, order);
      PickInTime(ops, ts, order);
      ReplayIsRun(m, ops, ts, order);
      assert LinearizedBy(m, h, order);
    }
  }
}
