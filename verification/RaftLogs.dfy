/** The compacted log of a server stands for its full log, and merging sent entries stands for storing them. */
module RaftLogs {
  import opened Common
  import opened RaftTypes
  import opened RaftServer
  import opened RaftHistory
  import opened RaftProgress

  /** Everything above the foot of the log is what the full log holds there. */
  ghost predicate Represents(log: Log, full: Log) {
    && log != []
    && |full| == log[0].index + |log| - 1
    && log[1..] == full[log[0].index..]
  }

  lemma AtFull(log: Log, full: Log, i: nat)
    requires Represents(log, full) && log[0].index < i <= |full|
    ensures At(log, i) == Some(full[i - 1]) == Some(log[i - log[0].index])
  {
  }

  lemma AtBeyond(log: Log, full: Log, i: nat)
    requires Represents(log, full)
    ensures At(log, i).Some? <==> log[0].index <= i <= |full|
  {
  }

  ghost predicate Placed(full: Log) {
    forall i :: 0 <= i < |full| ==> full[i].index == i + 1
  }

  lemma RepresentsContiguous(log: Log, full: Log)
    requires Represents(log, full) && Placed(full)
    ensures Contiguous(log) && Tail(log).index == |full|
  {
  }

  /** The sent entries are positions prev + 1 .. m of the leader's log. */
  ghost predicate Sent(leader: Log, prev: nat, entries: seq<Entry>, m: nat) {
    prev <= m <= |leader| && entries == leader[prev..m]
  }

  lemma SentFollow(leader: Log, prev: nat, entries: seq<Entry>, m: nat)
    requires Sent(leader, prev, entries, m) && Placed(leader)
    ensures |entries| == m - prev
    ensures forall i :: 0 <= i < |entries| ==> entries[i] == leader[prev + i] && entries[i].index == prev + 1 + i
  {
  }

  lemma SpliceRepresents(log: Log, full: Log, leader: Log, prev: nat, entries: seq<Entry>, m: nat, c: nat)
    requires Represents(log, full) && Sent(leader, prev, entries, m) && Placed(leader) && Placed(full)
    requires Contiguous(log) && Contiguous(entries) && c < |entries|
    requires log[0].index < prev + 1 + c <= |full| + 1
    requires prev + c > log[0].index ==> full[..prev + c] == leader[..prev + c]
    requires entries[c].index == prev + 1 + c && Tail(log).index == |full|
    ensures Represents(Spliced(log, entries, c), leader[..m])
  {
    var base := log[0].index;
    var r := Spliced(log, entries, c);
    var sent := leader[..m];
    SentFollow(leader, prev, entries, m);
    assert |r| == m - base + 1;
    forall j | 0 <= j < |r| - 1
      ensures r[1..][j] == sent[base..][j]
    {
      var i := base + j + 1;
      if i < prev + 1 + c {
        AtFull(log, full, i);
        assert full[..prev + c][i - 1] == leader[..prev + c][i - 1];
      } else {
        assert r[j + 1] == entries[c..][i - (prev + 1 + c)];
      }
    }
    assert r[1..] == sent[base..];
  }

  /** The foot of the log agrees with the leader, and the two logs agree wherever their terms do. */
  ghost predicate Comparable(log: Log, full: Log, leader: Log) {
    && log != []
    && (1 <= log[0].index <= |leader| ==> log[0].term == leader[log[0].index - 1].term)
    && (forall i :: 0 <= i < |full| && i < |leader| && full[i].term == leader[i].term ==>
      full[..i + 1] == leader[..i + 1])
  }

  /** Up to the first conflict the local log is the leader's. */
  lemma AgreesBeforeConflict(log: Log, full: Log, leader: Log, prev: nat, entries: seq<Entry>, m: nat, i: nat)
    requires Represents(log, full) && Sent(leader, prev, entries, m) && Placed(leader) && Comparable(log, full, leader)
    requires log[0].index < i <= |full| && prev <= i <= prev + FirstConflict(log, entries)
    requires prev > log[0].index ==> prev <= |full| && full[prev - 1].term == leader[prev - 1].term
    ensures full[..i] == leader[..i]
  {
    if i > prev {
      SentFollow(leader, prev, entries, m);
      assert !Clashes(log, entries[i - prev - 1]);
      AtFull(log, full, i);
    }
    assert full[..i - 1 + 1] == leader[..i - 1 + 1];
  }

  ghost predicate Checked(log: Log, full: Log, leader: Log, prev: nat) {
    log != [] && (prev > log[0].index ==>
      prev <= |full| && prev <= |leader| && full[prev - 1].term == leader[prev - 1].term)
  }

  lemma MergeNeedsNothing(log: Log, full: Log, leader: Log, prev: nat, entries: seq<Entry>, m: nat)
    requires Represents(log, full) && Placed(full) && Sent(leader, prev, entries, m) && Placed(leader)
    requires Comparable(log, full, leader) && entries != [] && m <= log[0].index
    requires Contiguous(log) && Contiguous(entries) && entries[0].index <= Tail(log).index + 1
    ensures Merge(log, entries) == log
  {
    SentFollow(leader, prev, entries, m);
    RepresentsContiguous(log, full);
    var c := FirstConflict(log, entries);
    if Tail(entries).index >= log[0].index && c < |entries| {
      ConflictPlace(log, full, leader, prev, entries, m, c);
    }
  }

  /** Merging past the foot of the log stores the leader's prefix. */
  lemma MergeStores(log: Log, full: Log, leader: Log, prev: nat, entries: seq<Entry>, m: nat)
    requires Represents(log, full) && Placed(full) && Sent(leader, prev, entries, m) && Placed(leader)
    requires Comparable(log, full, leader) && Checked(log, full, leader, prev) && entries != [] && m > log[0].index
    requires Contiguous(log) && Contiguous(entries) && entries[0].index <= Tail(log).index + 1
    ensures Represents(Merge(log, entries), Stored(full, leader[..m]))
  {
    SentFollow(leader, prev, entries, m);
    RepresentsContiguous(log, full);
    var c := FirstConflict(log, entries);
    if c < |entries| {
      ConflictStores(log, full, leader, prev, entries, m);
    } else if m > |full| {
      ExtensionStores(log, full, leader, prev, entries, m);
    } else {
      AgreesBeforeConflict(log, full, leader, prev, entries, m, m);
    }
  }

  lemma ConflictStores(log: Log, full: Log, leader: Log, prev: nat, entries: seq<Entry>, m: nat)
    requires Represents(log, full) && Placed(full) && Sent(leader, prev, entries, m) && Placed(leader)
    requires Comparable(log, full, leader) && Checked(log, full, leader, prev) && entries != [] && m > log[0].index
    requires Contiguous(log) && Contiguous(entries) && entries[0].index <= Tail(log).index + 1
    requires FirstConflict(log, entries) < |entries|
    ensures Represents(Merge(log, entries), Stored(full, leader[..m]))
  {
    hide Merge, Spliced, Represents, Comparable;
    var c := FirstConflict(log, entries);
    SentFollow(leader, prev, entries, m);
    RepresentsContiguous(log, full);
    assert Tail(entries).index == m;
    ConflictPlace(log, full, leader, prev, entries, m, c);
    if prev + c > log[0].index {
      AgreesBeforeConflict(log, full, leader, prev, entries, m, prev + c);
    }
    SpliceRepresents(log, full, leader, prev, entries, m, c);
    MergeConflict(log, entries);
  }

  lemma MergeConflict(log: Log, entries: seq<Entry>)
    requires Contiguous(log) && Contiguous(entries) && entries[0].index <= Tail(log).index + 1
    requires FirstConflict(log, entries) < |entries| && Tail(entries).index >= log[0].index
    ensures var c := FirstConflict(log, entries);
      log[0].index <= entries[c].index <= Tail(log).index + 1 ==> Merge(log, entries) == Spliced(log, entries, c)
  {
  }

  lemma MergeExtension(log: Log, entries: seq<Entry>)
    requires Contiguous(log) && Contiguous(entries) && entries[0].index <= Tail(log).index + 1
    requires FirstConflict(log, entries) == |entries| && Tail(entries).index > Tail(log).index >= log[0].index
    ensures var c := Tail(log).index + 1 - entries[0].index;
      c < |entries| && entries[c].index == Tail(log).index + 1 && Merge(log, entries) == Spliced(log, entries, c)
  {
  }

  /** A conflict lies above the foot of the log, and shows that the sent prefix is not stored yet. */
  lemma ConflictPlace(log: Log, full: Log, leader: Log, prev: nat, entries: seq<Entry>, m: nat, c: nat)
    requires Represents(log, full) && Sent(leader, prev, entries, m) && Placed(leader)
    requires Comparable(log, full, leader) && c < |entries| && Clashes(log, entries[c])
    ensures log[0].index < prev + 1 + c <= |full| && !(leader[..m] <= full)
  {
  }

  lemma ExtensionStores(log: Log, full: Log, leader: Log, prev: nat, entries: seq<Entry>, m: nat)
    requires Represents(log, full) && Placed(full) && Sent(leader, prev, entries, m) && Placed(leader)
    requires Comparable(log, full, leader) && Checked(log, full, leader, prev) && entries != [] && m > log[0].index
    requires Contiguous(log) && Contiguous(entries) && entries[0].index <= Tail(log).index + 1
    requires FirstConflict(log, entries) == |entries| && m > |full|
    ensures Represents(Merge(log, entries), Stored(full, leader[..m]))
  {
    hide Merge, Spliced, Represents, Comparable, FirstConflict;
    SentFollow(leader, prev, entries, m);
    RepresentsContiguous(log, full);
    if |full| > log[0].index {
      AgreesBeforeConflict(log, full, leader, prev, entries, m, |full|);
    }
    var c := |full| - prev;
    assert Tail(entries).index == m && entries[0].index == prev + 1;
    MergeExtension(log, entries);
    SpliceRepresents(log, full, leader, prev, entries, m, c);
  }

  /** Server and leader logs drawn from one history are comparable. */
  lemma LogsComparable(h: History, log: Log, full: Log, leader: Log)
    requires log != [] && FromLeaders(h, full) && FromLeaders(h, leader)
    requires 1 <= log[0].index <= |leader| ==> log[0].term == leader[log[0].index - 1].term
    ensures Comparable(log, full, leader)
  {
  }
}
