/**
 The verdict on a whole key-value history: src/test_files/models/kv.go with checkOperations and checkParallel of
 src/test_files/porcupine/checker.go.
 */
module CheckOperations {
  import opened Common
  import opened Histories
  import opened Locality
  import opened Search
  import opened Entries
  import opened KvHistories
  import C = Checker

  // ---------------------------------------------------------------- partitioning by key

  ghost predicate Grouped(ops: KvOps, groups: map<string, KvOps>) {
    && (forall k :: k in groups <==> Restrict(ops, KeyOf(), k) != [])
    && (forall k :: k in groups ==> groups[k] == Restrict(ops, KeyOf(), k))
  }

  lemma GroupOneMore(ops: KvOps, groups: map<string, KvOps>, x: Operation<KvInput, KvOutput>)
    requires Grouped(ops, groups)
    ensures Grouped(ops + [x], groups[x.input.key := Lookup(groups, x.input.key, []) + [x]])
  {
    forall k
      ensures Restrict(ops + [x], KeyOf(), k) == if k == x.input.key then Restrict(ops, KeyOf(), k) + [x]
        else Restrict(ops, KeyOf(), k)
    {
      RestrictConcat(ops, [x], KeyOf(), k);
      assert Restrict([x], KeyOf(), k) == if k == x.input.key then [x] else [];
    }
  }

  /** The order of strings. */
  predicate Before(a: string, b: string) {
    if b == "" then false
    else if a == "" then true
    else a[0] < b[0] || (a[0] == b[0] && Before(a[1..], b[1..]))
  }

  lemma {:induction false} BeforeTrans(a: string, b: string, c: string)
    requires Before(a, b) && Before(b, c)
    ensures Before(a, c)
  {
    if a != "" && a[0] == b[0] == c[0] {
      BeforeTrans(a[1..], b[1..], c[1..]);
    }
  }

  lemma {:induction false} BeforeTotal(a: string, b: string)
    ensures a == b || Before(a, b) || Before(b, a)
  {
    if a != "" && b != "" && a[0] == b[0] {
      BeforeTotal(a[1..], b[1..]);
      assert a == [a[0]] + a[1..] && b == [b[0]] + b[1..];
    }
  }

  ghost predicate InOrder(keys: seq<string>) {
    forall i, j :: 0 <= i < j < |keys| ==> Before(keys[i], keys[j])
  }

  lemma InsertedKey(keys: seq<string>, j: nat, x: string)
    requires InOrder(keys) && j <= |keys| && (forall i :: 0 <= i < j ==> Before(keys[i], x))
      && (j < |keys| ==> Before(x, keys[j]))
    ensures InOrder(keys[..j] + [x] + keys[j..])
      && forall k :: k in keys[..j] + [x] + keys[j..] <==> k in keys || k == x
  {
    hide Before;
    assert keys == keys[..j] + keys[j..];
    forall i | j < i < |keys|
      ensures Before(x, keys[i])
    {
      BeforeTrans(x, keys[j], keys[i]);
    }
  }

  method InsertKey(keys: seq<string>, x: string) returns (r: seq<string>)
    requires InOrder(keys) && x !in keys
    ensures InOrder(r) && forall k :: k in r <==> k in keys || k == x
  {
    var j := 0;
    while j < |keys| && Before(keys[j], x)
      invariant 0 <= j <= |keys| && forall i :: 0 <= i < j ==> Before(keys[i], x)
    {
      j := j + 1;
    }
    if j < |keys| {
      assert keys[j] in keys;
      BeforeTotal(keys[j], x);
    }
    InsertedKey(keys, j, x);
    r := keys[..j] + [x] + keys[j..];
  }

  /** The keys that occur, sorted, and the operations on each in their order. */
  ghost predicate PartsOf(ops: KvOps, keys: seq<string>, parts: seq<KvOps>) {
    && |keys| == |parts| && InOrder(keys)
    && (forall i :: 0 <= i < |keys| ==> parts[i] == Restrict(ops, KeyOf(), keys[i]))
    && (forall k :: k in keys <==> Restrict(ops, KeyOf(), k) != [])
  }

  method Partition(ops: KvOps) returns (keys: seq<string>, parts: seq<KvOps>)
    ensures PartsOf(ops, keys, parts)
  {
    var groups: map<string, KvOps> := map[];
    for i := 0 to |ops|
      invariant Grouped(ops[..i], groups)
    {
      var v := ops[i];
      GroupOneMore(ops[..i], groups, v);
      assert ops[..i + 1] == ops[..i] + [v];
      groups := groups[v.input.key := Lookup(groups, v.input.key, []) + [v]];
    }
    assert ops[..|ops|] == ops;
    keys := SortedKeys(groups.Keys);
    parts := [];
    for i := 0 to |keys|
      invariant |parts| == i && forall j :: 0 <= j < i ==> parts[j] == Restrict(ops, KeyOf(), keys[j])
    {
      assert keys[i] in keys;
      parts := parts + [groups[keys[i]]];
    }
  }

  /** Collects the keys by walking the map in any order, and sorts them. */
  method SortedKeys(all: set<string>) returns (keys: seq<string>)
    ensures InOrder(keys) && forall k :: k in keys <==> k in all
  {
    hide InOrder;
    keys := [];
    NoKeys();
    var left := all;
    while left != {}
      invariant left <= all && InOrder(keys) && forall k :: k in keys <==> k in all && k !in left
      decreases |left|
    {
      var k :| k in left;
      keys := InsertKey(keys, k);
      left := left - {k};
    }
  }

  lemma NoKeys()
    ensures InOrder([])
  {
  }

  /** The whole store is linearizable exactly when every part is. */
  lemma PartitionLaw(ops: KvOps, keys: seq<string>, parts: seq<KvOps>)
    requires Timely(ops) && PartsOf(ops, keys, parts)
    ensures LinearizableOps(KvStore(), ops) <==> forall i :: 0 <= i < |parts| ==> LinearizableOps(KvModel(), parts[i])
  {
    hide LinearizableOps, Restrict, Keyed, KvModel, KeyOf;
    LocalityLaw(KvModel(), KeyOf(), ops);
    if forall i :: 0 <= i < |parts| ==> LinearizableOps(KvModel(), parts[i]) {
      forall k
        ensures LinearizableOps(KvModel(), Restrict(ops, KeyOf(), k))
      {
        if k in keys {
          var i :| 0 <= i < |keys| && keys[i] == k;
          assert LinearizableOps(KvModel(), parts[i]);
        } else {
          EmptyLinearizable();
        }
      }
    }
    if EachKey(KvModel(), KeyOf(), ops) {
      forall i | 0 <= i < |parts|
        ensures LinearizableOps(KvModel(), parts[i])
      {
        assert LinearizableOps(KvModel(), Restrict(ops, KeyOf(), keys[i]));
      }
    }
  }

  lemma EmptyLinearizable()
    ensures LinearizableOps(KvModel(), [])
  {
    assert Explains(KvModel(), [], []);
  }

  // ---------------------------------------------------------------- collecting the results

  /** The kill flag as a search sees it, round by round. */
  type Flag = nat -> bool

  datatype CheckResult = Unknown | Ok | Illegal

  type Orders = seq<seq<nat>>

  /** The lists that occur, each once, in any order. */
  method Unique(longest: seq<Option<seq<nat>>>) returns (partials: Orders)
    ensures forall l :: l in partials <==> Some(l) in longest
    ensures forall i, j :: 0 <= i < j < |partials| ==> partials[i] != partials[j]
  {
    var found: set<seq<nat>> := {};
    for i := 0 to |longest|
      invariant forall l :: l in found <==> Some(l) in longest[..i]
    {
      if longest[i].Some? {
        found := found + {longest[i].value};
      }
    }
    assert longest[..|longest|] == longest;
    partials := [];
    var left := found;
    while left != {}
      invariant left <= found && forall l :: l in partials <==> l in found && l !in left
      invariant forall i, j :: 0 <= i < j < |partials| ==> partials[i] != partials[j]
      decreases |left|
    {
      var l :| l in left;
      partials := partials + [l];
      left := left - {l};
    }
  }

  /**
   The orders shown for a part: partial linearizations, among them a longest one for every operation if the search
   ended.
   */
  ghost predicate Shows<S(!new), I, O>(m: Model<S, I, O>, h: History<I, O>, partials: Orders, ended: bool) {
    && (forall l :: l in partials ==> Partial(m, h, l))
    && (ended ==> forall order, id :: Partial(m, h, order) && id in order ==> ShowsFor(partials, order, id))
  }

  ghost predicate ShowsFor(partials: Orders, order: seq<nat>, id: nat) {
    exists l :: l in partials && id in l && |order| <= |l|
  }

  lemma CompleteIsLongest<S, I, O>(m: Model<S, I, O>, h: History<I, O>, all: seq<nat>, order: seq<nat>)
    requires WellFormed(h) && LinearizedBy(m, h, all) && Partial(m, h, order)
    ensures |order| <= |all| && forall id :: id in order ==> id < Count(h)
  {
    hide LinearizedBy, Partial, WellFormed, Count;
    CompletePartial(m, h, all);
    PartialBounded(m, h, order);
    PartialSize(m, h, order);
    PartialSize(m, h, all);
    forall id | id in Operations(order)
      ensures id in Operations(all)
    {
      assert id in order;
    }
    SubsetSize(Operations(order), Operations(all));
  }

  lemma FoundShows<S(!new), I(!new), O(!new)>(m: Model<S, I, O>, h: History<I, O>, killed: bool, ok: bool,
        longest: seq<Option<seq<nat>>>, partials: Orders)
    requires WellFormed(h) && C.Outcome(m, h, true, killed, ok, longest)
      && forall l :: l in partials <==> Some(l) in longest
    ensures Shows(m, h, partials, !killed)
  {
    hide Partial, LinearizedBy, WellFormed;
    forall order, id | !killed && Partial(m, h, order) && id in order
      ensures ShowsFor(partials, order, id)
    {
      if ok {
        var all :| LinearizedBy(m, h, all) && forall i :: 0 <= i < |longest| ==> longest[i] == Some(all);
        CompleteIsLongest(m, h, all, order);
      } else {
        assert Reaches(longest, order);
      }
      assert Some(longest[id].value) in longest;
    }
  }

  /**
   Checks the parts in the order in which their results come in; the timeout may fire after any number of them, and
   searches still running then stop at the round kill says, if they have not ended before.
   */
  method CheckParallel<S(!new), I(!new), O(!new)>(m: Model<S, I, O>, parts: seq<History<I, O>>, computeInfo: bool,
        timeoutAfter: Option<nat>, kill: nat -> Flag)
    returns (result: CheckResult, info: seq<Orders>)
    requires Proper(m) && (forall i :: 0 <= i < |parts| ==> WellFormed(parts[i]))
      && (parts == [] ==> timeoutAfter.Some?)
    ensures result == Ok ==> forall i :: 0 <= i < |parts| ==> Histories.Linearizable(m, parts[i])
    ensures result == Illegal ==> exists i :: 0 <= i < |parts| && !Histories.Linearizable(m, parts[i])
    ensures result == Unknown ==> timeoutAfter.Some? && (parts == [] || timeoutAfter.value < |parts|)
    ensures computeInfo ==> |info| == |parts|
    ensures computeInfo ==> forall i :: 0 <= i < |parts| ==>
      Shows(m, parts[i], info[i], result == Ok || timeoutAfter.None?)
  {
    hide Histories.Linearizable, WellFormed, Proper, C.Outcome, Shows;
    var ok, timedOut, count := true, false, 0;
    var pending := Ids(|parts|);
    info := seq(|parts|, _ => []);
    while true
      invariant pending <= Ids(|parts|) && count + |pending| == |parts| == |info|
      invariant ok <==> forall i :: 0 <= i < |parts| && i !in pending ==> Histories.Linearizable(m, parts[i])
      invariant parts == [] ==> timeoutAfter.Some?
      invariant parts != [] ==> pending != {}
      invariant computeInfo ==> forall i :: 0 <= i < |parts| && i !in pending ==> Shows(m, parts[i], info[i], true)
      decreases |pending|
    {
      if timeoutAfter.Some? && (count >= timeoutAfter.value || pending == {}) {
        timedOut := true;
        break;
      }
      var i :| i in pending;
      pending := pending - {i};
      var single, partials := Searched(m, parts[i], computeInfo, _ => false);
      info := info[i := partials];
      count := count + 1;
      ok := ok && single;
      if !ok && !computeInfo {
        break;
      }
      if pending == {} {
        break;
      }
    }
    result := if !ok then Illegal else if timedOut then Unknown else Ok;
    if computeInfo {
      info := Awaited(m, parts, pending, info, result == Ok || timeoutAfter.None?, kill);
    }
  }

  /** One search, and the orders it shows. */
  method Searched<S(!new), I(!new), O(!new)>(m: Model<S, I, O>, h: History<I, O>, computeInfo: bool, kill: Flag)
    returns (ok: bool, partials: Orders)
    requires WellFormed(h) && Proper(m)
    ensures (forall round: nat :: !kill(round)) ==> (ok <==> Histories.Linearizable(m, h))
    ensures computeInfo ==> Shows(m, h, partials, forall round: nat :: !kill(round))
  {
    hide *;
    var longest;
    ok, longest := C.CheckSingle(m, h, computeInfo, kill);
    partials := Unique(longest);
    if computeInfo {
      FoundShows(m, h, exists round: nat :: kill(round), ok, longest, partials);
    }
  }

  lemma ShowsLess<S(!new), I, O>(m: Model<S, I, O>, h: History<I, O>, partials: Orders, ended: bool)
    requires Shows(m, h, partials, ended)
    ensures Shows(m, h, partials, false)
  {
  }

  /** Waits for the searches still running. */
  method Awaited<S(!new), I(!new), O(!new)>(m: Model<S, I, O>, parts: seq<History<I, O>>, running: set<nat>,
        found: seq<Orders>, ended: bool, kill: nat -> Flag)
    returns (info: seq<Orders>)
    requires Proper(m) && (forall i :: 0 <= i < |parts| ==> WellFormed(parts[i])) && |found| == |parts|
    requires running <= Ids(|parts|) && (ended ==> running == {})
    requires forall i :: 0 <= i < |parts| && i !in running ==> Shows(m, parts[i], found[i], true)
    ensures |info| == |parts| && forall i :: 0 <= i < |parts| ==> Shows(m, parts[i], info[i], ended)
  {
    hide WellFormed, Proper, Shows;
    info := found;
    var pending := running;
    while pending != {}
      invariant pending <= running && |info| == |parts|
      invariant forall i :: 0 <= i < |parts| && i !in running ==> info[i] == found[i]
      invariant forall i :: i in running && i !in pending ==> Shows(m, parts[i], info[i], false)
      decreases |pending|
    {
      var i :| i in pending;
      var _, partials := Searched(m, parts[i], true, kill(i));
      ShowsLess(m, parts[i], partials, forall round: nat :: !kill(i)(round));
      info := info[i := partials];
      pending := pending - {i};
    }
    if !ended {
      forall i | 0 <= i < |parts| && i !in running
        ensures Shows(m, parts[i], info[i], false)
      {
        ShowsLess(m, parts[i], info[i], true);
      }
    }
  }

  /**
   The verdict on all operations of a store: never a false Ok, never a false Illegal, and without a timeout always
   one of the two.
   */
  method CheckStore(ops: KvOps, verbose: bool, timeoutAfter: Option<nat>, kill: nat -> Flag)
    returns (result: CheckResult)
    requires Timely(ops) && (ops == [] ==> timeoutAfter.Some?)
    ensures result == Ok ==> Accountable(ops)
    ensures result == Illegal ==> !Accountable(ops)
    ensures result == Unknown ==> timeoutAfter.Some?
  {
    hide *;
    var keys, parts := Partition(ops);
    PartFacts(ops, keys, parts);
    var l: seq<History<KvInput, KvOutput>> := [];
    for i := 0 to |parts|
      invariant |l| == i
      invariant forall j :: 0 <= j < i ==>
        WellFormed(l[j]) && (Histories.Linearizable(KvModel(), l[j]) <==> LinearizableOps(KvModel(), parts[j]))
    {
      var ts := MakeEntries(parts[i]);
      EntriesWellFormed(parts[i], ts);
      SameVerdict(KvModel(), parts[i], ts);
      l := l + [Strip(ts)];
    }
    KvProper();
    var verdict, _ := CheckParallel(KvModel(), l, verbose, timeoutAfter, kill);
    result := verdict;
    PartitionLaw(ops, keys, parts);
    StoreMeaning(ops);
  }

  lemma PartFacts(ops: KvOps, keys: seq<string>, parts: seq<KvOps>)
    requires Timely(ops) && PartsOf(ops, keys, parts)
    ensures forall i :: 0 <= i < |parts| ==> Timely(parts[i])
    ensures ops != [] ==> parts != []
  {
    forall i | 0 <= i < |parts|
      ensures Timely(parts[i])
    {
      RestrictFacts(ops, KeyOf(), keys[i]);
    }
    if ops != [] {
      assert Restrict(ops, KeyOf(), ops[0].input.key) != [];
    }
  }
}
