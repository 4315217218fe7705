/** The doubly linked list of src/test_files/porcupine/checker.go, with unlinking that can be undone. */
module LinkedEntries {
  import opened Common
  import opened Histories

  class Node<I, O> {
    const value: Option<Entry<I, O>>     // none at the head of the list
    const partner: Node?<I, O>           // the return entry of a call
    var next: Node?<I, O>
    var prev: Node?<I, O>

    constructor (value: Option<Entry<I, O>>, partner: Node?<I, O>)
      ensures this.value == value && this.partner == partner && next == null && prev == null
    {
      this.value := value;
      this.partner := partner;
      next := null;
      prev := null;
    }
  }

  // ---------------------------------------------------------------- positions

  /** First position after k that is not removed, or the length of the list. */
  function Next(k: nat, rem: seq<nat>, len: nat): (r: nat)
    requires k < len
    ensures k < r <= len
    decreases len - k
  {
    if k + 1 == len then len else if k + 1 !in rem then k + 1 else Next(k + 1, rem, len)
  }

  /** Last position before k that is not removed. */
  function Prev(k: nat, rem: seq<nat>): (r: nat)
    requires k > 0 && 0 !in rem
    ensures r < k
  {
    if k - 1 !in rem then k - 1 else Prev(k - 1, rem)
  }

  lemma {:induction false} NextFacts(k: nat, rem: seq<nat>, len: nat)
    requires k < len
    ensures var r := Next(k, rem, len); (r < len ==> r !in rem) && forall m :: k < m < r ==> m in rem
    decreases len - k
  {
    if k + 1 != len && k + 1 in rem {
      NextFacts(k + 1, rem, len);
    }
  }

  lemma {:induction false} PrevFacts(k: nat, rem: seq<nat>)
    requires k > 0 && 0 !in rem
    ensures var r := Prev(k, rem); r !in rem && forall m :: r < m < k ==> m in rem
  {
    if k - 1 in rem {
      PrevFacts(k - 1, rem);
    }
  }

  lemma NextIs(k: nat, rem: seq<nat>, len: nat, r: nat)
    requires k < r <= len && (r < len ==> r !in rem) && forall m :: k < m < r ==> m in rem
    ensures Next(k, rem, len) == r
  {
    NextFacts(k, rem, len);
  }

  lemma PrevIs(k: nat, rem: seq<nat>, r: nat)
    requires r < k && 0 !in rem && r !in rem && forall m :: r < m < k ==> m in rem
    ensures Prev(k, rem) == r
  {
    PrevFacts(k, rem);
  }

  lemma NextAfterRemoval(k: nat, x: nat, rem: seq<nat>, len: nat)
    requires k < len && x < len && x !in rem
    ensures Next(k, rem + [x], len) == if Next(k, rem, len) == x then Next(x, rem, len) else Next(k, rem, len)
  {
    var r := Next(k, rem, len);
    NextFacts(k, rem, len);
    NextFacts(x, rem, len);
    NextIs(k, rem + [x], len, if r == x then Next(x, rem, len) else r);
  }

  lemma PrevAfterRemoval(k: nat, x: nat, rem: seq<nat>)
    requires k > 0 && x > 0 && 0 !in rem && x !in rem
    ensures Prev(k, rem + [x]) == if Prev(k, rem) == x then Prev(x, rem) else Prev(k, rem)
  {
    var r := Prev(k, rem);
    PrevFacts(k, rem);
    PrevFacts(x, rem);
    PrevIs(k, rem + [x], if r == x then Prev(x, rem) else r);
  }

  /** Live neighbours point at each other. */
  lemma NeighboursMutual(k: nat, x: nat, rem: seq<nat>, len: nat)
    requires k < len && 0 < x < len && 0 !in rem && k !in rem && x !in rem
    ensures k == Prev(x, rem) <==> Next(k, rem, len) == x
  {
    NextFacts(k, rem, len);
    PrevFacts(x, rem);
  }

  /** Removing x relinks its two neighbours and nobody else. */
  lemma LinksAfterRemoval(k: nat, x: nat, rem: seq<nat>, len: nat)
    requires k < len && 0 < x < len && 0 !in rem && x !in rem && k !in rem && k != x
    ensures Next(k, rem + [x], len) == if k == Prev(x, rem) then Next(x, rem, len) else Next(k, rem, len)
    ensures k > 0 ==> Prev(k, rem + [x]) == if k == Next(x, rem, len) then Prev(x, rem) else Prev(k, rem)
  {
    NextAfterRemoval(k, x, rem, len);
    NeighboursMutual(k, x, rem, len);
    if k > 0 {
      PrevAfterRemoval(k, x, rem);
      NeighboursMutual(x, k, rem, len);
    }
  }

  // ---------------------------------------------------------------- the list in the heap

  function NodeAt<I, O>(all: seq<Node<I, O>>, k: nat): (r: Node?<I, O>)
    requires k <= |all|
  {
    if k < |all| then all[k] else null
  }

  /** All next links, and all previous links, in list order. */
  ghost function Nexts<I, O>(all: seq<Node<I, O>>): (r: seq<Node?<I, O>>)
    reads all
  {
    seq(|all|, k requires 0 <= k < |all| reads all => all[k].next)
  }

  ghost function Prevs<I, O>(all: seq<Node<I, O>>): (r: seq<Node?<I, O>>)
    reads all
  {
    seq(|all|, k requires 0 <= k < |all| reads all => all[k].prev)
  }

  /** The links of position k are those of a list from which rem has been removed. */
  ghost predicate LinksAt<I, O>(all: seq<Node<I, O>>, next: seq<Node?<I, O>>, prev: seq<Node?<I, O>>, rem: seq<nat>,
        k: nat)
    requires k < |all| == |next| == |prev| && 0 !in rem
  {
    next[k] == NodeAt(all, Next(k, rem, |all|)) && (k > 0 ==> prev[k] == all[Prev(k, rem)])
  }

  ghost predicate Shape<I, O>(all: seq<Node<I, O>>, rem: seq<nat>) {
    && (forall i, j :: 0 <= i < j < |all| ==> all[i] != all[j])
    && (forall j :: 0 <= j < |rem| ==> 0 < rem[j] < |all|)
    && (forall i, j :: 0 <= i < j < |rem| ==> rem[i] != rem[j])
  }

  /** Live nodes are linked around the removed ones; each removed node remembers its place at its removal. */
  ghost predicate LinkedBy<I, O>(all: seq<Node<I, O>>, next: seq<Node?<I, O>>, prev: seq<Node?<I, O>>, rem: seq<nat>) {
    && |all| == |next| == |prev|
    && Shape(all, rem)
    && (forall k :: 0 <= k < |all| && k !in rem ==> LinksAt(all, next, prev, rem, k))
    && (forall j :: 0 <= j < |rem| ==> LinksAt(all, next, prev, rem[..j], rem[j]))
  }

  ghost predicate Linked<I, O>(all: seq<Node<I, O>>, rem: seq<nat>)
    reads all
  {
    LinkedBy(all, Nexts(all), Prevs(all), rem)
  }

  lemma NeighboursLive(x: nat, rem: seq<nat>, len: nat)
    requires 0 < x < len && 0 !in rem
    ensures Prev(x, rem) !in rem && (Next(x, rem, len) < len ==> Next(x, rem, len) !in rem)
  {
    PrevFacts(x, rem);
    NextFacts(x, rem, len);
  }

  lemma BypassedAt<I, O>(all: seq<Node<I, O>>, next: seq<Node?<I, O>>, prev: seq<Node?<I, O>>, rem: seq<nat>, x: nat,
        k: nat)
    requires |all| == |next| == |prev| && 0 !in rem && 0 < x < |all| && x !in rem && k < |all| && k !in rem && k != x
    requires LinksAt(all, next, prev, rem, k) && LinksAt(all, next, prev, rem, x)
    ensures LinksAt(all, next[Prev(x, rem) := next[x]], Bound(prev, Next(x, rem, |all|), prev[x]), rem + [x], k)
  {
    hide Next, Prev;
    LinksAfterRemoval(k, x, rem, |all|);
  }

  /** The links after position x has been bypassed. */
  lemma Bypassed<I, O>(all: seq<Node<I, O>>, next: seq<Node?<I, O>>, prev: seq<Node?<I, O>>, rem: seq<nat>, x: nat)
    requires LinkedBy(all, next, prev, rem) && 0 < x < |all| && x !in rem
    ensures LinkedBy(all, next[Prev(x, rem) := next[x]], Bound(prev, Next(x, rem, |all|), prev[x]), rem + [x])
  {
    var p, q := Prev(x, rem), Next(x, rem, |all|);
    var next', prev' := next[p := next[x]], Bound(prev, q, prev[x]);
    NeighboursLive(x, rem, |all|);
    hide Next, Prev;
    assert LinksAt(all, next, prev, rem, x);
    forall k | 0 <= k < |all| && k !in rem && k != x
      ensures LinksAt(all, next', prev', rem + [x], k)
    {
      BypassedAt(all, next, prev, rem, x, k);
    }
    forall j | 0 <= j < |rem|
      ensures LinksAt(all, next', prev', rem[..j], rem[j])
    {
      RemovedKeeps(all, next, prev, next', prev', rem, rem, p, q, j);
    }
    OneMoreRemoved(all, next', prev', rem, x);
  }

  lemma OneMoreRemoved<I, O>(all: seq<Node<I, O>>, next: seq<Node?<I, O>>, prev: seq<Node?<I, O>>, rem: seq<nat>,
        x: nat)
    requires |all| == |next| == |prev| && Shape(all, rem) && 0 < x < |all| && x !in rem
    requires forall k :: 0 <= k < |all| && k !in rem && k != x ==> LinksAt(all, next, prev, rem + [x], k)
    requires forall j :: 0 <= j < |rem| ==> LinksAt(all, next, prev, rem[..j], rem[j])
    requires LinksAt(all, next, prev, rem, x)
    ensures LinkedBy(all, next, prev, rem + [x])
  {
    hide Next, Prev, LinksAt;
    var gone := rem + [x];
    assert forall k :: k in gone <==> k in rem || k == x;
    forall j | 0 <= j < |gone|
      ensures LinksAt(all, next, prev, gone[..j], gone[j])
    {
      assert gone[..j] == rem[..j];
      if j == |rem| {
        assert rem[..j] == rem;
      }
    }
  }

  /** A removed position keeps its links when only live positions are relinked. */
  lemma RemovedKeeps<I, O>(all: seq<Node<I, O>>, next: seq<Node?<I, O>>, prev: seq<Node?<I, O>>,
        next': seq<Node?<I, O>>, prev': seq<Node?<I, O>>, rem: seq<nat>, gone: seq<nat>, p: nat, q: nat, j: nat)
    requires |all| == |next| == |prev| == |next'| == |prev'| && Shape(all, rem) && j < |rem| && rem <= gone
    requires p !in rem && (q < |all| ==> q !in rem)
    requires forall k :: 0 <= k < |all| && k != p ==> next'[k] == next[k]
    requires forall k :: 0 <= k < |all| && k != q ==> prev'[k] == prev[k]
    requires LinksAt(all, next, prev, rem[..j], rem[j])
    ensures gone[..j] == rem[..j] && gone[j] == rem[j] && LinksAt(all, next', prev', rem[..j], rem[j])
  {
  }

  function Bound<T>(s: seq<T>, q: nat, v: T): seq<T> {
    if q < |s| then s[q := v] else s
  }

  lemma LastRemoved<I, O>(all: seq<Node<I, O>>, next: seq<Node?<I, O>>, prev: seq<Node?<I, O>>, rem: seq<nat>, x: nat)
    requires LinkedBy(all, next, prev, rem + [x])
    ensures Shape(all, rem) && 0 < x < |all| && x !in rem && LinksAt(all, next, prev, rem, x)
    ensures forall j :: 0 <= j < |rem| ==> LinksAt(all, next, prev, rem[..j], rem[j])
  {
    hide Next, Prev, LinksAt;
    var gone := rem + [x];
    assert gone[|rem|] == x && gone[..|rem|] == rem;
    forall j | 0 <= j < |rem|
      ensures gone[j] == rem[j] && gone[..j] == rem[..j] && LinksAt(all, next, prev, rem[..j], rem[j])
    {
      assert LinksAt(all, next, prev, gone[..j], gone[j]);
    }
  }

  lemma RestoredAt<I, O>(all: seq<Node<I, O>>, next: seq<Node?<I, O>>, prev: seq<Node?<I, O>>, rem: seq<nat>, x: nat,
        k: nat)
    requires |all| == |next| == |prev| && 0 !in rem && 0 < x < |all| && x !in rem && k < |all| && k !in rem && k != x
    requires LinksAt(all, next, prev, rem + [x], k)
    ensures LinksAt(all, next[Prev(x, rem) := all[x]], Bound(prev, Next(x, rem, |all|), all[x]), rem, k)
  {
    hide Next, Prev;
    LinksAfterRemoval(k, x, rem, |all|);
    NeighboursMutual(k, x, rem, |all|);
    if k > 0 {
      NeighboursMutual(x, k, rem, |all|);
    }
  }

  /** The links after position x, the last removed, has been put back. */
  lemma Restored<I, O>(all: seq<Node<I, O>>, next: seq<Node?<I, O>>, prev: seq<Node?<I, O>>, rem: seq<nat>, x: nat)
    requires LinkedBy(all, next, prev, rem + [x])
    requires Shape(all, rem) && 0 < x < |all| && x !in rem && LinksAt(all, next, prev, rem, x)
    ensures LinkedBy(all, next[Prev(x, rem) := all[x]], Bound(prev, Next(x, rem, |all|), all[x]), rem)
  {
    LastRemoved(all, next, prev, rem, x);
    var p, q := Prev(x, rem), Next(x, rem, |all|);
    var next', prev' := next[p := all[x]], Bound(prev, q, all[x]);
    NeighboursLive(x, rem, |all|);
    hide Next, Prev;
    forall k | 0 <= k < |all| && k !in rem
      ensures LinksAt(all, next', prev', rem, k)
    {
      if k != x {
        assert k !in rem + [x];
        RestoredAt(all, next, prev, rem, x, k);
      }
    }
    forall j | 0 <= j < |rem|
      ensures LinksAt(all, next', prev', rem[..j], rem[j])
    {
      RemovedKeeps(all, next, prev, next', prev', rem, rem, p, q, j);
    }
  }

  lemma LinkedAt<I, O>(all: seq<Node<I, O>>, rem: seq<nat>, x: nat)
    requires Linked(all, rem) && x < |all| && x !in rem
    ensures Shape(all, rem) && LinksAt(all, Nexts(all), Prevs(all), rem, x)
  {
  }

  method Detach<I, O>(node: Node<I, O>, ghost all: seq<Node<I, O>>, ghost rem: seq<nat>, ghost x: nat)
    requires Linked(all, rem) && 0 < x < |all| && x !in rem && node == all[x]
    modifies all
    ensures Linked(all, rem + [x])
  {
    hide Next, Prev, LinkedBy;
    LinkedAt(all, rem, x);
    ghost var p, q, next, prev := Prev(x, rem), Next(x, rem, |all|), Nexts(all), Prevs(all);
    Bypassed(all, next, prev, rem, x);
    assert node.prev == all[p] && node.next == NodeAt(all, q);
    node.prev.next := node.next;
    if node.next != null {
      node.next.prev := node.prev;
    }
    assert Nexts(all) == next[p := next[x]];
    assert Prevs(all) == Bound(prev, q, prev[x]);
  }

  method Reattach<I, O>(node: Node<I, O>, ghost all: seq<Node<I, O>>, ghost rem: seq<nat>, ghost x: nat)
    requires x < |all| && Linked(all, rem + [x]) && node == all[x]
    modifies all
    ensures Linked(all, rem)
  {
    hide Next, Prev, LinkedBy;
    ghost var next, prev := Nexts(all), Prevs(all);
    LastRemoved(all, next, prev, rem, x);
    ghost var p, q := Prev(x, rem), Next(x, rem, |all|);
    Restored(all, next, prev, rem, x);
    assert node.prev == all[p] && node.next == NodeAt(all, q);
    node.prev.next := node;
    if node.next != null {
      node.next.prev := node;
    }
    assert Nexts(all) == next[p := all[x]];
    assert Prevs(all) == Bound(prev, q, all[x]);
  }

  /** Takes a call and its return out of the list. */
  method Lift<I, O>(node: Node<I, O>, ghost all: seq<Node<I, O>>, ghost rem: seq<nat>, ghost c: nat, ghost r: nat)
    requires Linked(all, rem) && 0 < c < r < |all| && c !in rem && r !in rem
    requires node == all[c] && node.partner == all[r]
    modifies all
    ensures Linked(all, rem + [c, r])
  {
    Detach(node, all, rem, c);
    Detach(node.partner, all, rem + [c], r);
    assert rem + [c] + [r] == rem + [c, r];
  }

  /** Puts them back; the last pair lifted comes back first. */
  method Unlift<I, O>(node: Node<I, O>, ghost all: seq<Node<I, O>>, ghost rem: seq<nat>, ghost c: nat, ghost r: nat)
    requires c < |all| && r < |all| && Linked(all, rem + [c, r]) && node == all[c] && node.partner == all[r]
    modifies all
    ensures Linked(all, rem)
  {
    assert rem + [c, r] == rem + [c] + [r];
    Reattach(node.partner, all, rem + [c], r);
    Reattach(node, all, rem, c);
  }

  // ---------------------------------------------------------------- building the list

  /** A list with nothing removed: neighbours in the sequence are linked both ways. */
  ghost predicate Chain<I, O>(nodes: seq<Node<I, O>>)
    reads nodes
  {
    && (forall i, j :: 0 <= i < j < |nodes| ==> nodes[i] != nodes[j])
    && (forall k :: 0 <= k < |nodes| ==> ChainAt(nodes, k))
  }

  ghost predicate ChainAt<I, O>(nodes: seq<Node<I, O>>, k: nat)
    requires k < |nodes|
    reads nodes
  {
    nodes[k].next == NodeAt(nodes, k + 1) && nodes[k].prev == if k == 0 then null else nodes[k - 1]
  }

  /** The nodes hold the history from place lo on; calls know the node of their return. */
  ghost predicate Holds<I, O>(nodes: seq<Node<I, O>>, h: History<I, O>, lo: nat) {
    && lo + |nodes| == |h|
    && (forall k :: 0 <= k < |nodes| ==> HoldsAt(nodes, h, lo, k))
  }

  ghost predicate HoldsAt<I, O>(nodes: seq<Node<I, O>>, h: History<I, O>, lo: nat, k: nat)
    requires lo + |nodes| == |h| && k < |nodes|
  {
    var e := h[lo + k];
    && nodes[k].value == Some(e)
    && (if e.Return? then nodes[k].partner == null
        else lo <= ReturnOf(h, e.id) < |h| && nodes[k].partner == nodes[ReturnOf(h, e.id) - lo])
  }

  /** Links a fresh node in before the given one. */
  method InsertBefore<I, O>(n: Node<I, O>, mark: Node?<I, O>) returns (r: Node<I, O>)
    requires n.next == null && n.prev == null && n != mark && (mark != null ==> mark.prev != n && mark.prev != mark)
    modifies if mark != null then {n, mark, mark.prev} else {n}
    ensures r == n && n.next == mark
    ensures mark != null ==> mark.prev == n && mark.next == old(mark.next) && n.prev == old(mark.prev)
    ensures mark != null && old(mark.prev) != null ==>
      old(mark.prev).next == n && old(mark.prev).prev == old(mark.prev.prev)
    ensures mark == null ==> n.prev == null
  {
    if mark != null {
      var beforeMark := mark.prev;
      mark.prev := n;
      n.next := mark;
      if beforeMark != null {
        n.prev := beforeMark;
        beforeMark.next := n;
      }
    }
    return n;
  }

  /** Puts a fresh node in front of the whole list. */
  method PutInFront<I, O>(n: Node<I, O>, root: Node?<I, O>, ghost nodes: seq<Node<I, O>>)
    requires Chain(nodes) && root == NodeAt(nodes, 0) && n !in nodes && n.next == null && n.prev == null
    modifies n, root
    ensures Chain([n] + nodes)
  {
    ghost var all := [n] + nodes;
    assert nodes != [] ==> ChainAt(nodes, 0);
    var r := InsertBefore(n, root);
    forall k | 0 <= k < |all|
      ensures ChainAt(all, k)
    {
      if k > 0 {
        assert all[k] == nodes[k - 1] && old(ChainAt(nodes, k - 1));
      }
    }
  }

  lemma HoldsOneMore<I, O>(nodes: seq<Node<I, O>>, h: History<I, O>, lo: nat, n: Node<I, O>)
    requires 0 < lo && Holds(nodes, h, lo)
    requires n.value == Some(h[lo - 1])
    requires h[lo - 1].Return? ==> n.partner == null
    requires h[lo - 1].Call? ==>
      lo <= ReturnOf(h, h[lo - 1].id) < |h| && n.partner == nodes[ReturnOf(h, h[lo - 1].id) - lo]
    ensures Holds([n] + nodes, h, lo - 1)
  {
    hide ReturnOf;
    var all, at := [n] + nodes, lo - 1;
    forall k | 0 <= k < |all|
      ensures HoldsAt(all, h, at, k)
    {
      if k > 0 {
        assert all[k] == nodes[k - 1] && HoldsAt(nodes, h, lo, k - 1);
      }
    }
  }

  /** The returns seen so far, by operation. */
  ghost predicate Returns<I, O>(nodes: seq<Node<I, O>>, h: History<I, O>, lo: nat, table: map<nat, Node<I, O>>)
    requires lo + |nodes| == |h|
  {
    forall id: nat :: lo <= ReturnOf(h, id) < |h| ==> id in table && table[id] == nodes[ReturnOf(h, id) - lo]
  }

  lemma ReturnsOneMore<I, O>(nodes: seq<Node<I, O>>, h: History<I, O>, lo: nat, table: map<nat, Node<I, O>>,
        n: Node<I, O>)
    requires 0 < lo && lo + |nodes| == |h| && Returns(nodes, h, lo, table) && WellFormed(h)
    ensures Returns([n] + nodes, h, lo - 1, if h[lo - 1].Return? then table[h[lo - 1].id := n] else table)
  {
    var e := h[lo - 1];
    forall id: nat | lo - 1 <= ReturnOf(h, id) < |h|
      ensures var t := if e.Return? then table[e.id := n] else table;
        id in t && t[id] == ([n] + nodes)[ReturnOf(h, id) - (lo - 1)]
    {
      var at := ReturnOf(h, id);
      assert h[at].Return? && h[at].id == id;
    }
  }

  lemma CallsKnowReturns<I, O>(nodes: seq<Node<I, O>>, h: History<I, O>, lo: nat, table: map<nat, Node<I, O>>)
    requires 0 < lo && lo + |nodes| == |h| && Returns(nodes, h, lo, table) && WellFormed(h) && h[lo - 1].Call?
    ensures var id := h[lo - 1].id;
      lo <= ReturnOf(h, id) < |h| && id in table && table[id] == nodes[ReturnOf(h, id) - lo]
  {
  }

  lemma NoneYet<I, O>(h: History<I, O>)
    ensures Holds([], h, |h|) && Returns([], h, |h|, map[]) && Chain<I, O>([])
  {
  }

  method AddInFront<I, O>(elem: Entry<I, O>, partner: Node?<I, O>, root: Node?<I, O>, ghost nodes: seq<Node<I, O>>)
    returns (entry: Node<I, O>)
    requires Chain(nodes) && root == NodeAt(nodes, 0)
    modifies root
    ensures fresh(entry) && entry.value == Some(elem) && entry.partner == partner && Chain([entry] + nodes)
  {
    hide Chain;
    entry := new Node(Some(elem), partner);
    PutInFront(entry, root, nodes);
  }

  method MakeLinkedEntries<I, O>(h: History<I, O>) returns (root: Node?<I, O>, ghost nodes: seq<Node<I, O>>)
    requires WellFormed(h)
    ensures Chain(nodes) && Holds(nodes, h, 0) && root == NodeAt(nodes, 0)
    ensures forall k :: 0 <= k < |nodes| ==> fresh(nodes[k])
  {
    hide ReturnOf, CallOf, Holds, Returns, Chain, WellFormed, Count;
    root, nodes := null, [];
    var table: map<nat, Node<I, O>> := map[];
    var i := |h|;
    NoneYet(h);
    while i > 0
      invariant 0 <= i && i + |nodes| == |h| && Holds(nodes, h, i) && Returns(nodes, h, i, table)
      invariant Chain(nodes) && root == NodeAt(nodes, 0)
      invariant forall k :: 0 <= k < |nodes| ==> fresh(nodes[k])
    {
      var elem := h[i - 1];
      var partner: Node?<I, O> := null;
      if elem.Call? {
        CallsKnowReturns(nodes, h, i, table);
        partner := table[elem.id];
      }
      var entry := AddInFront(elem, partner, root, nodes);
      HoldsOneMore(nodes, h, i, entry);
      ReturnsOneMore(nodes, h, i, table, entry);
      if elem.Return? {
        table := table[elem.id := entry];
      }
      root, nodes, i := entry, [entry] + nodes, i - 1;
    }
  }

  method Length<I, O>(n: Node?<I, O>, ghost nodes: seq<Node<I, O>>) returns (l: nat)
    requires Chain(nodes) && n == NodeAt(nodes, 0)
    ensures l == |nodes|
  {
    l := 0;
    var at := n;
    while at != null
      invariant l <= |nodes| && at == NodeAt(nodes, l)
      decreases |nodes| - l
    {
      assert ChainAt(nodes, l);
      at := at.next;
      l := l + 1;
    }
  }

  /** A chain is a list from which nothing has been removed. */
  lemma ChainLinked<I, O>(all: seq<Node<I, O>>)
    requires Chain(all)
    ensures Linked(all, [])
  {
    forall k: nat | k < |all|
      ensures LinksAt(all, Nexts(all), Prevs(all), [], k)
    {
      assert ChainAt(all, k);
    }
  }
}
