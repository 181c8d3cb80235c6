/** The doubly linked list of events, from which operations are lifted out and put back in place. */
module PorcupineList {

  datatype Value<I, O> = Nothing | In(input: I) | Out(output: O)

  class Node<I, O> {
    const value: Value<I, O>
    const match_: Node?<I, O>
    const id: int
    var next: Node?<I, O>
    var prev: Node?<I, O>

    constructor (value: Value<I, O>, match_: Node?<I, O>, id: int)
      ensures this.value == value && this.match_ == match_ && this.id == id && next == null && prev == null
    {
      this.value, this.match_, this.id := value, match_, id;
      next, prev := null, null;
    }
  }

  // ---------------------------------------------------------------- neighbours by position

  /** The first position behind `k` that is still in the list, or `size` if there is none. */
  function Next(gone: set<nat>, size: nat, k: nat): (r: nat)
    requires k < size
    ensures k < r <= size && (r < size ==> r !in gone)
    ensures forall i :: k < i < r ==> i in gone
    decreases size - k
  {
    if k + 1 == size || k + 1 !in gone then k + 1 else Next(gone, size, k + 1)
  }

  /** The last position before `k` that is still in the list; position 0 always is. */
  function Prev(gone: set<nat>, k: nat): (r: nat)
    requires 0 < k && 0 !in gone
    ensures r < k && r !in gone
    ensures forall i :: r < i < k ==> i in gone
  {
    if k - 1 !in gone then k - 1 else Prev(gone, k - 1)
  }

  lemma Neighbours(gone: set<nat>, size: nat, j: nat, k: nat)
    requires 0 !in gone && j !in gone && k !in gone && j < size && 0 < k < size
    ensures Next(gone, size, j) == k <==> Prev(gone, k) == j
  {
  }

  lemma NextWithout(gone: set<nat>, size: nat, j: nat, k: nat)
    requires k !in gone && j != k && j < size && k < size
    ensures Next(gone + {k}, size, j) == if Next(gone, size, j) == k then Next(gone, size, k) else Next(gone, size, j)
  {
    var a, b := Next(gone + {k}, size, j), Next(gone, size, j);
    assert a < size ==> a !in gone && a != k;
    assert b < size && b != k ==> b !in gone + {k};
    assert b == k && Next(gone, size, k) < size ==> Next(gone, size, k) !in gone + {k};
  }

  lemma PrevWithout(gone: set<nat>, j: nat, k: nat)
    requires k !in gone && 0 !in gone && j != k && 0 < j && 0 < k
    ensures Prev(gone + {k}, j) == if Prev(gone, j) == k then Prev(gone, k) else Prev(gone, j)
  {
    var a, b := Prev(gone + {k}, j), Prev(gone, j);
    assert a !in gone && a != k;
    assert b != k ==> b !in gone + {k};
    assert b == k ==> Prev(gone, k) !in gone + {k};
  }

  /** Taking `k` out changes the successor of its predecessor and the predecessor of its successor only. */
  lemma LinksWithout(gone: set<nat>, size: nat, j: nat, k: nat)
    requires 0 !in gone && j !in gone && k !in gone && j != k && j < size && 0 < k < size
    ensures Next(gone + {k}, size, j) == if j == Prev(gone, k) then Next(gone, size, k) else Next(gone, size, j)
    ensures j > 0 ==> Prev(gone + {k}, j) == if j == Next(gone, size, k) then Prev(gone, k) else Prev(gone, j)
  {
    NextWithout(gone, size, j, k);
    Neighbours(gone, size, j, k);
    if j > 0 {
      PrevWithout(gone, j, k);
      Neighbours(gone, size, k, j);
    }
  }

  // ---------------------------------------------------------------- the list on the heap

  ghost predicate Distinct<I, O>(all: seq<Node<I, O>>) {
    forall i, j :: 0 <= i < |all| && 0 <= j < |all| && i != j ==> all[i] != all[j]
  }

  ghost function NodeAt<I, O>(all: seq<Node<I, O>>, k: nat): Node?<I, O> {
    if k < |all| then all[k] else null
  }

  /** Node `k` points to its neighbours in the list without `gone`. */
  ghost predicate Points<I, O>(all: seq<Node<I, O>>, gone: set<nat>, k: nat)
    requires k < |all| && 0 !in gone
    reads all[k]
  {
    && all[k].next == NodeAt(all, Next(gone, |all|, k))
    && (k > 0 ==> all[k].prev == all[Prev(gone, k)])
  }

  /** The nodes not gone form the list, in order. */
  ghost predicate Linked<I, O>(all: seq<Node<I, O>>, gone: set<nat>)
    reads all
  {
    && |all| > 0 && 0 !in gone && Distinct(all)
    && forall k :: 0 <= k < |all| && k !in gone ==> Points(all, gone, k)
  }

  /** Joins the neighbours of node `k`; no other pointer changes. */
  method Bridge<I, O>(node: Node<I, O>, ghost all: seq<Node<I, O>>, ghost k: nat, ghost p: nat, ghost n: nat)
    requires Distinct(all) && p < k < n <= |all| && all[k] == node && node.prev == all[p] && node.next == NodeAt(all, n)
    modifies all
    ensures forall j :: 0 <= j < |all| ==> all[j].next == if j == p then old(node.next) else old(all[j].next)
    ensures forall j :: 0 <= j < |all| ==> all[j].prev == if j == n then old(node.prev) else old(all[j].prev)
  {
    node.prev.next := node.next;
    if node.next != null {
      node.next.prev := node.prev;
    }
  }

  /** Takes one node out; its own pointers stay as they are. */
  method Detach<I, O>(node: Node<I, O>, ghost all: seq<Node<I, O>>, ghost gone: set<nat>, ghost k: nat)
    requires Linked(all, gone) && 0 < k < |all| && k !in gone && all[k] == node
    modifies all
    ensures Linked(all, gone + {k}) && Points(all, gone, k)
    ensures forall j :: 0 <= j < |all| && j in gone ==> all[j].next == old(all[j].next) && all[j].prev == old(all[j].prev)
  {
    hide Next, Prev;
    assert Points(all, gone, k);
    Bridge(node, all, k, Prev(gone, k), Next(gone, |all|, k));
    forall j | 0 <= j < |all| && j !in gone + {k} ensures Points(all, gone + {k}, j) {
      assert old(Points(all, gone, j));
      LinksWithout(gone, |all|, j, k);
    }
  }

  /** Puts a node back between the neighbours it still points to. */
  method Attach<I, O>(node: Node<I, O>, ghost all: seq<Node<I, O>>, ghost gone: set<nat>, ghost k: nat)
    requires 0 !in gone && Linked(all, gone + {k}) && 0 < k < |all| && k !in gone && all[k] == node && Points(all, gone, k)
    modifies all
    ensures Linked(all, gone)
    ensures forall j :: 0 <= j < |all| && j in gone ==> all[j].next == old(all[j].next) && all[j].prev == old(all[j].prev)
  {
    hide Next, Prev;
    ghost var n, p := Next(gone, |all|, k), Prev(gone, k);
    node.prev.next := node;
    if node.next != null {
      node.next.prev := node;
    }
    forall j | 0 <= j < |all|
      ensures all[j].next == (if j == p then node else old(all[j].next))
      ensures all[j].prev == (if j == n then node else old(all[j].prev))
    {
      assert j != p ==> all[j] != all[p];
      assert n < |all| && j != n ==> all[j] != all[n];
    }
    forall j | 0 <= j < |all| && j !in gone ensures Points(all, gone, j) {
      if j != k {
        assert old(Points(all, gone + {k}, j));
        LinksWithout(gone, |all|, j, k);
        Neighbours(gone, |all|, j, k);
        if j > 0 { Neighbours(gone, |all|, k, j); }
      }
    }
  }

  /** Lifts an operation: its call at position `c` and its return at position `r`. */
  method Lift<I, O>(entry: Node<I, O>, ghost all: seq<Node<I, O>>, ghost gone: set<nat>, ghost c: nat, ghost r: nat)
    requires Linked(all, gone) && 0 < c < r < |all| && c !in gone && r !in gone
    requires all[c] == entry && entry.match_ == all[r]
    modifies all
    ensures Linked(all, gone + {c} + {r}) && Points(all, gone, c) && Points(all, gone + {c}, r)
    ensures forall j :: 0 <= j < |all| && j in gone ==> all[j].next == old(all[j].next) && all[j].prev == old(all[j].prev)
  {
    Detach(entry, all, gone, c);
    Detach(entry.match_, all, gone + {c}, r);
  }

  /** Undoes the last lift. */
  method Unlift<I, O>(entry: Node<I, O>, ghost all: seq<Node<I, O>>, ghost gone: set<nat>, ghost c: nat, ghost r: nat)
    requires 0 !in gone && Linked(all, gone + {c} + {r}) && 0 < c < r < |all| && c !in gone && r !in gone
    requires all[c] == entry && entry.match_ == all[r]
    requires Points(all, gone, c) && Points(all, gone + {c}, r)
    modifies all
    ensures Linked(all, gone)
    ensures forall j :: 0 <= j < |all| && j in gone ==> all[j].next == old(all[j].next) && all[j].prev == old(all[j].prev)
  {
    Attach(entry.match_, all, gone + {c}, r);
    Attach(entry, all, gone, c);
  }
}
