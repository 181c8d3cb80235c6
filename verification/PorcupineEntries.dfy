/** From a history to the linked list of its events. */
module PorcupineEntries {
  import opened Linearizability
  import L = PorcupineList

  type Node<I, O> = L.Node<I, O>

  /** A doubly linked list of these nodes, in this order and with no other ends. */
  ghost predicate Chained<I, O>(ns: seq<Node<I, O>>)
    reads ns
  {
    L.Distinct(ns) && forall k :: 0 <= k < |ns| ==> ChainedAt(ns, k)
  }

  ghost predicate ChainedAt<I, O>(ns: seq<Node<I, O>>, k: nat)
    requires k < |ns|
    reads ns[k]
  {
    ns[k].next == L.NodeAt(ns, k + 1) && ns[k].prev == if k > 0 then ns[k - 1] else null
  }

  lemma InsertedAt<I, O>(ns: seq<Node<I, O>>, at: nat, n: Node<I, O>, k: nat)
    requires at <= |ns| && k <= |ns|
    ensures (ns[..at] + [n] + ns[at..])[k] == if k < at then ns[k] else if k == at then n else ns[k - 1]
  {
  }

  /** Puts a loose node before a node of the list; without a mark it stays loose. */
  method InsertBefore<I, O>(n: Node<I, O>, mark: L.Node?<I, O>, ghost ns: seq<Node<I, O>>, ghost at: nat)
    requires Chained(ns) && n !in ns && n.next == null && n.prev == null
    requires mark != null ==> at < |ns| && ns[at] == mark
    modifies n, ns
    ensures mark != null ==> Chained(ns[..at] + [n] + ns[at..])
    ensures mark == null ==> n.next == null && n.prev == null
  {
    if mark != null {
      assert ChainedAt(ns, at);
      assert at > 0 ==> ChainedAt(ns, at - 1);
      var beforeMark := mark.prev;
      mark.prev := n;
      n.next := mark;
      if beforeMark != null {
        n.prev := beforeMark;
        beforeMark.next := n;
      }
      ghost var all := ns[..at] + [n] + ns[at..];
      forall k | 0 <= k < |all| ensures ChainedAt(all, k) {
        InsertedAt(ns, at, n, k);
        if k > 0 { InsertedAt(ns, at, n, k - 1); }
        if k < |ns| { InsertedAt(ns, at, n, k + 1); }
        if k < at { assert old(ChainedAt(ns, k)); } else if k > at { assert old(ChainedAt(ns, k - 1)); }
      }
      forall i, j | 0 <= i < |all| && 0 <= j < |all| && i != j ensures all[i] != all[j] {
        InsertedAt(ns, at, n, i);
        InsertedAt(ns, at, n, j);
      }
    }
  }

  /** At the front this also covers the empty list. */
  method Prepend<I, O>(n: Node<I, O>, root: L.Node?<I, O>, ghost ns: seq<Node<I, O>>)
    requires Chained(ns) && n !in ns && n.next == null && n.prev == null && root == L.NodeAt(ns, 0)
    modifies n, ns
    ensures Chained([n] + ns)
  {
    InsertBefore(n, root, ns, 0);
    assert ns[..0] + [n] + ns[0..] == [n] + ns;
    assert ns == [] ==> ChainedAt([n], 0);
  }

  /** Node `k` stands for event `k`; a call node knows the node of its return. */
  ghost predicate Mirrors<I, O>(ns: seq<Node<I, O>>, h: seq<Event<I, O>>, n: nat, from: nat)
    requires WellFormed(h, n)
  {
    && from + |ns| == |h|
    && forall k :: 0 <= k < |ns| ==> MirrorsAt(ns, h, n, from, k)
  }

  ghost predicate MirrorsAt<I, O>(ns: seq<Node<I, O>>, h: seq<Event<I, O>>, n: nat, from: nat, k: nat)
    requires WellFormed(h, n) && k < |ns| && from + |ns| == |h|
  {
    var e := h[from + k];
    && ns[k].id == e.id
    && (e.Call? ==> ns[k].value == L.In(e.input) && from + k < ReturnAt(h, n, e.id)
                    && ns[k].match_ == ns[ReturnAt(h, n, e.id) - from])
    && (e.Return? ==> ns[k].value == L.Out(e.output) && ns[k].match_ == null)
  }

  lemma MirrorsGrow<I, O>(ns: seq<Node<I, O>>, h: seq<Event<I, O>>, n: nat, i: nat, node: Node<I, O>)
    requires WellFormed(h, n) && i < |h| && Mirrors(ns, h, n, i + 1) && MirrorsAt([node] + ns, h, n, i, 0)
    ensures Mirrors([node] + ns, h, n, i)
  {
    hide WellFormed, ReturnAt;
    var all := [node] + ns;
    forall k | 0 <= k < |all| ensures MirrorsAt(all, h, n, i, k) {
      if k > 0 { assert MirrorsAt(ns, h, n, i + 1, k - 1); }
    }
  }

  /** The node of a return met so far is found under its operation. */
  ghost predicate MatchKnown<I, O>(matches: map<nat, Node<I, O>>, ns: seq<Node<I, O>>, h: seq<Event<I, O>>, n: nat, id: nat)
    requires WellFormed(h, n) && |ns| <= |h| && id < n
  {
    var at := ReturnAt(h, n, id) - (|h| - |ns|);
    at >= 0 ==> id in matches && matches[id] == ns[at]
  }

  lemma MatchesGrow<I, O>(matches: map<nat, Node<I, O>>, ns: seq<Node<I, O>>, h: seq<Event<I, O>>, n: nat, node: Node<I, O>, id: nat)
    requires WellFormed(h, n) && |ns| < |h| && id < n && MatchKnown(matches, ns, h, n, id)
    ensures var e := h[|h| - |ns| - 1];
            MatchKnown(if e.Return? then matches[e.id := node] else matches, [node] + ns, h, n, id)
  {
    CallBeforeReturn(h, n, |h| - |ns| - 1);
  }

  lemma HistorySize<I, O>(h: seq<Event<I, O>>, n: nat)
    requires WellFormed(h, n)
    ensures |h| == 2 * n
  {
  }

  method MakeLinkedEntries<I, O>(h: seq<Event<I, O>>, ghost n: nat) returns (root: L.Node?<I, O>, ghost ns: seq<Node<I, O>>)
    requires WellFormed(h, n)
    ensures Chained(ns) && Mirrors(ns, h, n, 0) && root == L.NodeAt(ns, 0) && |ns| == |h| == 2 * n
    ensures forall k :: 0 <= k < |ns| ==> fresh(ns[k])
  {
    hide WellFormed, ChainedAt, CallAt, ReturnAt;
    assert |h| == 2 * n by { HistorySize(h, n); }
    root, ns := null, [];
    var matches: map<nat, Node<I, O>> := map[];
    var i := |h|;
    while i > 0
      invariant 0 <= i <= |h| && Chained(ns) && Mirrors(ns, h, n, i) && root == L.NodeAt(ns, 0)
      invariant forall k :: 0 <= k < |ns| ==> fresh(ns[k])
      invariant forall id: nat :: id < n ==> MatchKnown(matches, ns, h, n, id)
    {
      i := i - 1;
      var elem := h[i];
      CallBeforeReturn(h, n, i);
      assert MatchKnown(matches, ns, h, n, elem.id);
      ghost var before, known := ns, matches;
      if elem.Return? {
        var entry := new L.Node<I, O>(L.Out(elem.output), null, elem.id);
        matches := matches[elem.id := entry];
        Prepend(entry, root, ns);
        root, ns := entry, [entry] + ns;
      } else {
        var entry := new L.Node<I, O>(L.In(elem.input), matches[elem.id], elem.id);
        Prepend(entry, root, ns);
        root, ns := entry, [entry] + ns;
      }
      MirrorsGrow(before, h, n, i, ns[0]);
      forall id: nat | id < n ensures MatchKnown(matches, ns, h, n, id) {
        assert MatchKnown(known, before, h, n, id);
        MatchesGrow(known, before, h, n, ns[0], id);
      }
    }
  }

  method Length<I, O>(root: L.Node?<I, O>, ghost ns: seq<Node<I, O>>) returns (len: nat)
    requires Chained(ns) && root == L.NodeAt(ns, 0)
    ensures len == |ns|
  {
    len := 0;
    var node := root;
    while node != null
      invariant 0 <= len <= |ns| && node == L.NodeAt(ns, len)
      decreases |ns| - len
    {
      assert ChainedAt(ns, len);
      node := node.next;
      len := len + 1;
    }
  }
}
