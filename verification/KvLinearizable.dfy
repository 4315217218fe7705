/**
 The key-value service as its clients see it, from consensus (src/db_files/raft/raft.go) over the servers
 (src/db_files/raft-db/server.go) to the checker's model (src/test_files/models/kv.go): in every run, what the servers
 answer is linearizable.
 */
module KvLinearizable {
  import T = RaftTypes
  import C = RaftCluster
  import Safety = RaftSafety
  import Validity = RaftValidity
  import Time = RaftRealTime
  import opened KvState
  import opened KvContents
  import opened ReplicatedKv
  import H = KvHistories

  /** Where an entry comes from: the step at which it was submitted, and the server. */
  datatype Origin = Origin(step: nat, server: nat)

  /** Entry k was not submitted before its span begins, and had been delivered somewhere when its span ends. */
  ghost predicate Timed(n: nat, steps: seq<C.Step>, k: nat, entry: T.Entry, from: Origin, span: Span) {
    && entry.index == k + 1 && span.call <= from.step && 0 <= span.ret
    && Time.SubmittedAt(n, steps, from.step, from.server, entry)
    && Time.DeliveredBy(n, steps, span.ret, entry)
  }

  ghost predicate AllTimed(n: nat, steps: seq<C.Step>, entries: seq<T.Entry>, origins: seq<Origin>, spans: seq<Span>) {
    && |entries| == |origins| == |spans|
    && forall k :: 0 <= k < |spans| ==> Timed(n, steps, k, entries[k], origins[k], spans[k])
  }

  /** Delivered by one moment, delivered by any later one. */
  lemma StillDelivered(n: nat, steps: seq<C.Step>, j: nat, k: nat, entry: T.Entry)
    requires Time.DeliveredBy(n, steps, j, entry) && j <= k <= |steps|
    ensures Time.DeliveredBy(n, steps, k, entry)
  {
    hide C.Run;
    var _ := Safety.RunKeeps(n, steps[..k]);
    assert steps[..k][..j] == steps[..j];
    Time.EventsGrow(n, steps[..k], j);
  }

  /** The log respects the times of its entries. */
  lemma LogInTime(n: nat, steps: seq<C.Step>, entries: seq<T.Entry>, origins: seq<Origin>, spans: seq<Span>)
    requires AllTimed(n, steps, entries, origins, spans)
    ensures InOrderOfTime(spans)
  {
    hide C.Run, Time.SubmittedAt, Time.DeliveredBy;
    var _ := Safety.RunKeeps(n, steps);
    forall i, j | 0 <= i < j < |spans|
      ensures !(spans[j].ret < spans[i].call)
    {
      assert Timed(n, steps, i, entries[i], origins[i], spans[i])
        && Timed(n, steps, j, entries[j], origins[j], spans[j]);
      if spans[j].ret < spans[i].call {
        Spans(n, steps, i, entries[i], origins[i], spans[i]);
        StillDelivered(n, steps, spans[j].ret, origins[i].step, entries[j]);
        StillDelivered(n, steps, spans[i].ret, |steps|, entries[i]);
        Time.RealTimeOrder(n, steps, origins[i].step, origins[i].server, entries[j], entries[i]);
      }
    }
  }

  lemma Spans(n: nat, steps: seq<C.Step>, k: nat, entry: T.Entry, from: Origin, span: Span)
    requires Timed(n, steps, k, entry, from, span)
    ensures from.step < |steps| && span.ret <= |steps|
  {
    hide C.Run;
  }

  /** The timed entries are the commands the service has executed. */
  lemma TimedAreExecuted(n: nat, steps: seq<C.Step>, b: nat, k: nat, entry: T.Entry, from: Origin, span: Span)
    requires C.Run(n, steps).Running? && b < n && k < |C.Run(n, steps).cluster.hosts[b].applied|
    requires Timed(n, steps, k, entry, from, span)
    ensures entry.command == C.Run(n, steps).cluster.hosts[b].applied[k]
  {
    hide C.Run;
    Spans(n, steps, k, entry, from, span);
    StillDelivered(n, steps, span.ret, |steps|, entry);
    assert steps[..|steps|] == steps;
    var other := Validity.ExecutedWasDelivered(n, steps, b, k + 1);
    var p :| C.Delivered(p, entry) in C.Run(n, steps).cluster.events;
    var q :| C.Delivered(q, other) in C.Run(n, steps).cluster.events;
    Safety.StateMachineSafety(n, steps, C.Delivered(p, entry), C.Delivered(q, other), k + 1, entry.command,
      other.command);
  }

  /**
   In every run of the cluster, with lost, reordered and repeated messages, crashes and snapshots: take what any service
   has executed, and for each entry any call not after its submission and any return not before its first delivery. The
   operations with these times, answered as the server answers them, are linearizable: they can be put in an order
   that respects the times and in which every get returns the last put before it and the appends since.
   */
  lemma EveryRunLinearizable(n: nat, steps: seq<C.Step>, b: nat, entries: seq<T.Entry>, origins: seq<Origin>,
        spans: seq<Span>, decode: Decoder)
    requires C.Run(n, steps).Running? && b < n
    requires AllTimed(n, steps, entries, origins, spans)
    requires |spans| == |C.Run(n, steps).cluster.hosts[b].applied|
    ensures var y := C.Run(n, steps).cluster.hosts[b].applied;
      && H.Accountable(Served(Decoded(y, decode), spans))
      && forall k :: 0 <= k < |y| ==> y[k] == entries[k].command
  {
    hide C.Run, Served, H.Accountable;
    LogInTime(n, steps, entries, origins, spans);
    var y := C.Run(n, steps).cluster.hosts[b].applied;
    ServedLinearizable(Decoded(y, decode), spans);
    forall k | 0 <= k < |y|
      ensures y[k] == entries[k].command
    {
      TimedAreExecuted(n, steps, b, k, entries[k], origins[k], spans[k]);
    }
  }

  /** Such times there are, for everything a service has executed. */
  lemma TimesExist(n: nat, steps: seq<C.Step>, b: nat)
    returns (entries: seq<T.Entry>, origins: seq<Origin>, spans: seq<Span>)
    requires C.Run(n, steps).Running? && b < n
    ensures AllTimed(n, steps, entries, origins, spans) && |spans| == |C.Run(n, steps).cluster.hosts[b].applied|
  {
    hide C.Run, Time.SubmittedAt, Time.DeliveredBy;
    var y := C.Run(n, steps).cluster.hosts[b].applied;
    entries, origins, spans := [], [], [];
    while |spans| < |y|
      invariant AllTimed(n, steps, entries, origins, spans) && |spans| <= |y|
    {
      var entry := Validity.ExecutedWasDelivered(n, steps, b, |spans| + 1);
      var j, i := Time.WhenSubmitted(n, steps, entry);
      DeliveredAtEnd(n, steps, entry);
      assert Timed(n, steps, |spans|, entry, Origin(j, i), Span(j, |steps|));
      entries, origins, spans := entries + [entry], origins + [Origin(j, i)], spans + [Span(j, |steps|)];
    }
  }

  lemma DeliveredAtEnd(n: nat, steps: seq<C.Step>, entry: T.Entry)
    requires C.Run(n, steps).Running? && exists p :: C.Delivered(p, entry) in C.Run(n, steps).cluster.events
    ensures Time.DeliveredBy(n, steps, |steps|, entry)
  {
    assert steps[..|steps|] == steps;
  }

  /** An answer a server gives to a get that no snapshot has overtaken is the one of that history. */
  lemma AnswersAreServed(n: nat, moves: seq<Move>, ans: Answer, b: nat, decode: Decoder)
    requires Run(n, moves, decode).Some? && ans in Run(n, moves, decode).value.answers && b < n
    requires ans.position == ans.index <= |Run(n, moves, decode).value.cluster.hosts[b].applied|
    ensures var log := Decoded(Run(n, moves, decode).value.cluster.hosts[b].applied, decode);
      && 1 <= ans.index <= |log| && log[ans.index - 1] == Get(ans.key)
      && OutputAt(log, ans.index - 1) == H.KvOutput(ans.value)
  {
    hide Run, Replay;
    AnswersFollowLog(n, moves, ans, b, decode);
    var y := Run(n, moves, decode).value.cluster.hosts[b].applied;
    assert Decoded(y[..ans.position], decode) == Decoded(y, decode)[..ans.position];
  }
}
