/**
 The key-value model of src/test_files/models/kv.go, and what it accepts, said without its step: every get returns the
 value of the last put before it followed by the values appended since.
 */
module KvHistories {
  import opened Common
  import opened Contents
  import opened Histories
  import opened Locality

  datatype KvInput = KvInput(op: nat, key: string, value: string)   // 0 is get, 1 is put, anything else append

  datatype KvOutput = KvOutput(value: string)

  type KvOps = Trace<KvInput, KvOutput>

  /** The value of one key. */
  function KvModel(): Model<string, KvInput, KvOutput> {
    Model("",
          (st: string, i: KvInput, o: KvOutput) =>
            if i.op == 0 then (o.value == st, st) else if i.op == 1 then (true, i.value) else (true, st + i.value),
          (a: string, b: string) => a == b)
  }

  function KeyOf(): KvInput -> string {
    (i: KvInput) => i.key
  }

  /** The whole store. */
  function KvStore(): Model<map<string, string>, KvInput, KvOutput> {
    Keyed(KvModel(), KeyOf())
  }

  lemma KvProper()
    ensures Proper(KvModel())
  {
  }

  // ---------------------------------------------------------------- what the store accepts

  /** What an operation does to a key. */
  function EditOf(i: KvInput, key: string): Edit {
    if i.key != key || i.op == 0 then Keep else if i.op == 1 then Put(i.value) else Append(i.value)
  }

  function EditsOn(t: KvOps, key: string): (r: seq<Edit>)
    ensures |r| == |t| && forall j :: 0 <= j < |t| ==> r[j] == EditOf(t[j].input, key)
  {
    seq(|t|, j requires 0 <= j < |t| => EditOf(t[j].input, key))
  }

  /** Get number i returns what the operations before it leave under its key. */
  ghost predicate ReadsRight(t: KvOps, i: nat)
    requires i < |t|
  {
    t[i].input.op == 0 ==> t[i].output.value == Content(EditsOn(t[..i], t[i].input.key))
  }

  ghost predicate AllReadRight(t: KvOps) {
    forall i :: 0 <= i < |t| ==> ReadsRight(t, i)
  }

  /** The operations can be put in an order that respects their times and in which every get is right. */
  ghost predicate Accountable(ops: KvOps) {
    exists t :: Accounts(ops, t)
  }

  ghost predicate Accounts(ops: KvOps, t: KvOps) {
    multiset(t) == multiset(ops) && InTime(t) && AllReadRight(t)
  }

  lemma {:induction false} RunOneMore<S, I, O>(m: Model<S, I, O>, t: Trace<I, O>, x: Operation<I, O>, s: S)
    ensures Run(m, t + [x], s) ==
      match Run(m, t, s)
      case None => None
      case Some(u) => if m.step(u, x.input, x.output).0 then Some(m.step(u, x.input, x.output).1) else None
  {
    if t == [] {
      assert t + [x] == [x] && [x][1..] == [];
    } else {
      assert (t + [x])[1..] == t[1..] + [x];
      RunOneMore(m, t[1..], x, m.step(s, t[0].input, t[0].output).1);
    }
  }

  /** The store holds, under every key, the content the operations leave there. */
  ghost predicate Holds(st: map<string, string>, t: KvOps) {
    forall k :: Lookup(st, k, "") == Content(EditsOn(t, k))
  }

  lemma EditsOneMore(t: KvOps, x: Operation<KvInput, KvOutput>, k: string)
    ensures EditsOn(t + [x], k) == EditsOn(t, k) + [EditOf(x.input, k)]
  {
  }

  lemma StepOf(st: map<string, string>, x: Operation<KvInput, KvOutput>)
    ensures var (ok, st') := KvStore().step(st, x.input, x.output);
      var was := Lookup(st, x.input.key, "");
      && (ok <==> (x.input.op == 0 ==> x.output.value == was))
      && st' == st[x.input.key := if x.input.op == 0 then was
                                  else if x.input.op == 1 then x.input.value
                                  else was + x.input.value]
  {
  }

  lemma HoldsOneMore(st: map<string, string>, t: KvOps, x: Operation<KvInput, KvOutput>)
    requires Holds(st, t)
    ensures var (ok, st') := KvStore().step(st, x.input, x.output);
      Holds(st', t + [x]) && (ok <==> (x.input.op == 0 ==> x.output.value == Content(EditsOn(t, x.input.key))))
  {
    StepOf(st, x);
    hide KvStore, Content;
    var st' := KvStore().step(st, x.input, x.output).1;
    forall k
      ensures Lookup(st', k, "") == Content(EditsOn(t + [x], k))
    {
      EditsOneMore(t, x, k);
      ContentOneMore(EditsOn(t, k), EditOf(x.input, k));
    }
  }

  /** A trace runs on the store if and only if every get in it is right. */
  lemma {:induction false} StoreRuns(t: KvOps)
    ensures Run(KvStore(), t, map[]).Some? <==> AllReadRight(t)
    ensures Run(KvStore(), t, map[]).Some? ==> Holds(Run(KvStore(), t, map[]).value, t)
    decreases |t|
  {
    if t == [] {
      assert forall k :: EditsOn(t, k) == [];
    } else {
      var last := |t| - 1;
      var rest, x := t[..last], t[last];
      assert t == rest + [x];
      StoreRuns(rest);
      RunOneMore(KvStore(), rest, x, map[]);
      ReadsBefore(t);
      hide Holds, Run, KvStore, AllReadRight;
      if Run(KvStore(), rest, map[]).Some? {
        HoldsOneMore(Run(KvStore(), rest, map[]).value, rest, x);
      }
    }
  }

  lemma ReadsBefore(t: KvOps)
    requires t != []
    ensures var last := |t| - 1; AllReadRight(t) <==> AllReadRight(t[..last]) && ReadsRight(t, last)
  {
    var last := |t| - 1;
    var rest := t[..last];
    forall i | 0 <= i < last
      ensures ReadsRight(rest, i) <==> ReadsRight(t, i)
    {
      assert rest[..i] == t[..i];
    }
    hide ReadsRight;
    if AllReadRight(t) {
      assert ReadsRight(t, last);
      assert forall i :: 0 <= i < last ==> ReadsRight(t, i);
    }
  }

  /** Linearizability of a history of the store, said without the model. */
  lemma StoreMeaning(ops: KvOps)
    ensures LinearizableOps(KvStore(), ops) <==> Accountable(ops)
  {
    hide AllReadRight, Run, InTime;
    assert KvStore().init == map[];
    if LinearizableOps(KvStore(), ops) {
      var t :| Explains(KvStore(), ops, t);
      StoreRuns(t);
      assert Accounts(ops, t);
    }
    if Accountable(ops) {
      var t :| Accounts(ops, t);
      StoreRuns(t);
      assert Explains(KvStore(), ops, t);
    }
  }

  /** A put, and then a get that returns something else: no order accounts for it. */
  lemma StaleReadRefused()
    ensures var put := Operation(1, KvInput(1, "x", "1"), 0, KvOutput(""), 1);
      var get := Operation(2, KvInput(0, "x", ""), 2, KvOutput("2"), 3);
      !Accountable([put, get])
  {
    var put := Operation(1, KvInput(1, "x", "1"), 0, KvOutput(""), 1);
    var get := Operation(2, KvInput(0, "x", ""), 2, KvOutput("2"), 3);
    assert !ReadsRight([put, get], 1) by {
      assert EditsOn([put, get][..1], "x") == [] + [Put("1")];
      ContentOneMore([], Put("1"));
    }
    forall t | multiset(t) == multiset([put, get]) && InTime(t)
      ensures !AllReadRight(t)
    {
      OneOrder(put, get, t);
    }
  }

  lemma OneOrder(a: Operation<KvInput, KvOutput>, b: Operation<KvInput, KvOutput>, t: KvOps)
    requires multiset(t) == multiset([a, b]) && InTime(t) && a.ret < b.call && a != b
    ensures t == [a, b]
  {
    assert |t| == |multiset(t)| == |multiset([a, b])| == 2;
    assert multiset(t) == multiset{t[0], t[1]} by {
      assert t == [t[0], t[1]];
    }
    assert multiset{t[0], t[1]}[a] == 1 && multiset{t[0], t[1]}[b] == 1;
  }
}
