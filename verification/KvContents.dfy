/**
 What the key-value server of src/db_files/raft-db/server.go holds and answers, by places in the log, and that the
 checker's model of src/test_files/models/kv.go accepts it.
 */
module KvContents {
  import opened Contents
  import opened KvState
  import H = KvHistories
  import L = Locality

  /** What entry i does to a key: nothing, unless it is executed and writes the key. */
  ghost function EditAt(log: Log, i: nat, key: string): Edit
    requires i < |log|
  {
    if !Executes(log, i) || log[i].key != key then Keep
    else if log[i].append then Append(log[i].value)
    else Put(log[i].value)
  }

  ghost function EditsIn(log: Log, key: string): (r: seq<Edit>)
    ensures |r| == |log| && forall i :: 0 <= i < |log| ==> r[i] == EditAt(log, i, key)
  {
    seq(|log|, i requires 0 <= i < |log| => EditAt(log, i, key))
  }

  lemma EditsBefore(log: Log, key: string)
    requires log != []
    ensures var last := |log| - 1; EditsIn(log, key) == EditsIn(log[..last], key) + [EditAt(log, last, key)]
  {
    var last := |log| - 1;
    forall i | 0 <= i < last
      ensures EditAt(log[..last], i, key) == EditAt(log, i, key)
    {
      assert log[..last][..i] == log[..i];
    }
  }

  /**
   Under every key the server holds the value of the last executed put on it, followed by the values of the executed
   appends on it after that; nothing, if there are none.
   */
  lemma {:induction false} ContentLaw(log: Log, key: string)
    ensures Value(Replay(log).kv, key) == Content(EditsIn(log, key))
    decreases |log|
  {
    if log == [] {
      assert EditsIn(log, key) == [];
    } else {
      var last := |log| - 1;
      ContentLaw(log[..last], key);
      EditsBefore(log, key);
      ContentOneMore(EditsIn(log[..last], key), EditAt(log, last, key));
      hide Content, EditsIn;
      ReplayOneMore(log, last);
      assert log[..last + 1] == log;
    }
  }

  /** The same for the first copy of each request. */
  ghost function FirstEdits(log: Log, key: string): (r: seq<Edit>)
    ensures |r| == |log|
  {
    seq(|log|, i requires 0 <= i < |log| =>
      if !IsFirst(log, i) || log[i].key != key then Keep
      else if log[i].append then Append(log[i].value)
      else Put(log[i].value))
  }

  /** If no request comes back after another one of its client, that is what counts: the first copies. */
  lemma FirstContent(log: Log, key: string)
    requires NoReturn(log)
    ensures Value(Replay(log).kv, key) == Content(FirstEdits(log, key))
  {
    ContentLaw(log, key);
    ExactlyOnce(log);
    hide NoReturn, Executes, IsFirst, Content;
    assert EditsIn(log, key) == FirstEdits(log, key);
  }

  // ---------------------------------------------------------------- what a checker sees

  function InputOf(cmd: Command): H.KvInput {
    match cmd
    case Get(key) => H.KvInput(0, key, "")
    case Write(append, key, value, _, _) => H.KvInput(if append then 2 else 1, key, value)
  }

  ghost function OutputAt(log: Log, i: nat): H.KvOutput
    requires i < |log|
  {
    if log[i].Get? then H.KvOutput(Value(Replay(log[..i + 1]).kv, log[i].key)) else H.KvOutput("")
  }

  /** When an operation is called, and when it returns. */
  datatype Span = Span(call: int, ret: int)

  /** Entry i as an operation. */
  ghost function OperationAt(log: Log, i: nat, span: Span): L.Operation<H.KvInput, H.KvOutput>
    requires i < |log|
  {
    L.Operation(if log[i].Get? then 0 else log[i].clientId, InputOf(log[i]), span.call, OutputAt(log, i), span.ret)
  }

  /** A checker sees the gets and the executed writes; a duplicate is another try of an operation it sees. */
  ghost predicate Visible(log: Log, i: nat)
    requires i < |log|
  {
    log[i].Get? || Executes(log, i)
  }

  /** Only visible entries move lastApplied: it is the place right behind the last of them. */
  lemma {:induction false} LastAppliedLaw(log: Log)
    ensures var k := Replay(log).lastApplied;
      && 0 <= k <= |log| && (k > 0 ==> Visible(log, k - 1))
      && forall i :: k <= i < |log| ==> !Visible(log, i)
    decreases |log|
  {
    if log != [] {
      var last := |log| - 1;
      LastAppliedLaw(log[..last]);
      forall i: nat | i < last
        ensures Visible(log[..last], i) <==> Visible(log, i)
      {
        assert log[..last][..i] == log[..i];
      }
    }
  }

  /** A write that repeats the request of its client's last write changes nothing at all. */
  lemma RetryIgnored(log: Log, cmd: Command)
    requires cmd.Write?
    requires var p := LastOf(log, cmd); p < |log| && SameRequest(log[p], cmd)
    ensures Replay(log + [cmd]) == Replay(log)
  {
    DedupIsLast(log, cmd);
    assert (log + [cmd])[..|log|] == log;
  }

  /** The visible operations of a log, in its order, with what they are answered. */
  ghost function Served(log: Log, spans: seq<Span>): H.KvOps
    requires |spans| == |log|
  {
    if log == [] then []
    else
      var last := |log| - 1;
      Served(log[..last], spans[..last]) + if Visible(log, last) then [OperationAt(log, last, spans[last])] else []
  }

  /** The checker's store agrees with the server's map. */
  ghost predicate SameValues(st: map<string, string>, kv: map<string, string>) {
    forall k :: L.Lookup(st, k, "") == Value(kv, k)
  }

  /** The map after the last entry, if that is a get or is executed. */
  lemma LastEffect(log: Log)
    requires log != [] && Visible(log, |log| - 1)
    ensures var last := |log| - 1;
      Replay(log).kv == if log[last].Get? then Replay(log[..last]).kv else Effect(Replay(log[..last]).kv, log[last])
  {
  }

  /** The checker's store and the server's map take the same command alike. */
  lemma StepMatches(st: map<string, string>, kv: map<string, string>, x: L.Operation<H.KvInput, H.KvOutput>,
        cmd: Command)
    requires SameValues(st, kv) && x.input == InputOf(cmd) && (cmd.Get? ==> x.output.value == Value(kv, cmd.key))
    ensures var (ok, st') := H.KvStore().step(st, x.input, x.output);
      ok && SameValues(st', if cmd.Get? then kv else Effect(kv, cmd))
  {
    H.StepOf(st, x);
    hide H.KvStore;
    var st', kv' := H.KvStore().step(st, x.input, x.output).1, if cmd.Get? then kv else Effect(kv, cmd);
    assert L.Lookup(st, cmd.key, "") == Value(kv, cmd.key);
    forall k
      ensures L.Lookup(st', k, "") == Value(kv', k)
    {
      assert L.Lookup(st, k, "") == Value(kv, k);
    }
  }

  lemma ServedStep(log: Log, st: map<string, string>, span: Span)
    requires log != [] && SameValues(st, Replay(log[..|log| - 1]).kv) && Visible(log, |log| - 1)
    ensures var x := OperationAt(log, |log| - 1, span);
      var (ok, st') := H.KvStore().step(st, x.input, x.output);
      ok && SameValues(st', Replay(log).kv)
  {
    var last := |log| - 1;
    assert log[..last + 1] == log;
    LastEffect(log);
    hide Replay, H.KvStore, SameValues, Executes;
    StepMatches(st, Replay(log[..last]).kv, OperationAt(log, last, span), log[last]);
  }

  lemma Skipped(log: Log)
    requires log != [] && !Visible(log, |log| - 1)
    ensures Replay(log).kv == Replay(log[..|log| - 1]).kv
  {
  }

  /** What a server answers along a log is what the checker's store accepts, and leaves it with the server's values. */
  lemma {:induction false} ServedAccepted(log: Log, spans: seq<Span>)
    requires |spans| == |log|
    ensures L.Run(H.KvStore(), Served(log, spans), map[]).Some?
    ensures SameValues(L.Run(H.KvStore(), Served(log, spans), map[]).value, Replay(log).kv)
    decreases |log|
  {
    hide L.Run, H.KvStore, Replay, Visible;
    if log == [] {
      ServedNothing(spans);
    } else {
      var last := |log| - 1;
      var before := Served(log[..last], spans[..last]);
      ServedAccepted(log[..last], spans[..last]);
      var st := L.Run(H.KvStore(), before, map[]).value;
      if Visible(log, last) {
        H.RunOneMore(H.KvStore(), before, OperationAt(log, last, spans[last]), map[]);
        hide SameValues;
        ServedStep(log, st, spans[last]);
      } else {
        Skipped(log);
        assert Served(log, spans) == before;
      }
    }
  }

  lemma ServedNothing(spans: seq<Span>)
    requires |spans| == 0
    ensures L.Run(H.KvStore(), Served([], spans), map[]).Some?
    ensures SameValues(L.Run(H.KvStore(), Served([], spans), map[]).value, Replay([]).kv)
  {
  }

  // ---------------------------------------------------------------- in time

  /** No entry returned before one in front of it was called. */
  ghost predicate InOrderOfTime(spans: seq<Span>) {
    forall i, j :: 0 <= i < j < |spans| ==> !(spans[j].ret < spans[i].call)
  }

  /** Operation x has the times of the entry at this place. */
  ghost predicate HasSpan(x: L.Operation<H.KvInput, H.KvOutput>, spans: seq<Span>, place: nat) {
    place < |spans| && x.call == spans[place].call && x.ret == spans[place].ret
  }

  lemma ServedOneMore(log: Log, spans: seq<Span>)
    requires |spans| == |log| && log != []
    ensures var last := |log| - 1;
      var before := Served(log[..last], spans[..last]);
      if Visible(log, last) then
        var x := OperationAt(log, last, spans[last]);
        Served(log, spans) == before + [x] && HasSpan(x, spans, last)
      else Served(log, spans) == before
  {
  }

  /** The visible operations come one by one from entries in the same order. */
  lemma {:induction false} ServedPlaces(log: Log, spans: seq<Span>) returns (places: seq<nat>)
    requires |spans| == |log|
    ensures |places| == |Served(log, spans)|
    ensures forall j :: 0 <= j < |places| ==> places[j] < |log| && HasSpan(Served(log, spans)[j], spans, places[j])
    ensures forall i, j :: 0 <= i < j < |places| ==> places[i] < places[j]
    decreases |log|
  {
    if log == [] {
      places := [];
    } else {
      var last := |log| - 1;
      ServedOneMore(log, spans);
      hide Served, Visible, OperationAt;
      places := ServedPlaces(log[..last], spans[..last]);
      if Visible(log, last) {
        places := places + [last];
      }
    }
  }

  lemma ServedInTime(log: Log, spans: seq<Span>)
    requires |spans| == |log| && InOrderOfTime(spans)
    ensures L.InTime(Served(log, spans))
  {
    var places := ServedPlaces(log, spans);
    hide Served;
    var t := Served(log, spans);
    forall i, j | 0 <= i < j < |t|
      ensures !(t[j].ret < t[i].call)
    {
      assert HasSpan(t[i], spans, places[i]) && HasSpan(t[j], spans, places[j]) && places[i] < places[j];
    }
  }

  /** What a server answers along a log is linearizable, if the log respects the times of its entries. */
  lemma ServedLinearizable(log: Log, spans: seq<Span>)
    requires |spans| == |log| && InOrderOfTime(spans)
    ensures L.LinearizableOps(H.KvStore(), Served(log, spans)) && H.Accountable(Served(log, spans))
  {
    ServedAccepted(log, spans);
    ServedInTime(log, spans);
    hide Served, L.Run, L.InTime;
    assert H.KvStore().init == map[];
    assert L.Explains(H.KvStore(), Served(log, spans), Served(log, spans));
    H.StoreMeaning(Served(log, spans));
  }
}
