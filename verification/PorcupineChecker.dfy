/** The linearizability checker: a depth-first search on a linked list, with a cache and a bitset. */
module PorcupineChecker {
  import opened Linearizability
  import opened PorcupineSearch
  import opened PorcupineBitset
  import opened PorcupineScan
  import opened PorcupineCache
  import opened PorcupineEntries
  import opened PorcupineRecord
  import L = PorcupineList

  // ---------------------------------------------------------------- the list along the path

  /** The pointers of all nodes. */
  ghost function Links<I, O>(all: seq<L.Node<I, O>>): (r: seq<(L.Node?<I, O>, L.Node?<I, O>)>)
    reads all
    ensures |r| == |all| && forall j :: 0 <= j < |all| ==> r[j] == (all[j].next, all[j].prev)
  {
    seq(|all|, j requires 0 <= j < |all| reads all => (all[j].next, all[j].prev))
  }

  ghost predicate PointsTo<I, O>(link: (L.Node?<I, O>, L.Node?<I, O>), all: seq<L.Node<I, O>>, gone: set<nat>, k: nat)
    requires 0 < k < |all| && 0 !in gone
  {
    link == (L.NodeAt(all, L.Next(gone, |all|, k)), all[L.Prev(gone, k)])
  }

  /** A node lifted at level `d` still points to the neighbours it had then. */
  ghost predicate Frozen<I, O>(links: seq<(L.Node?<I, O>, L.Node?<I, O>)>, all: seq<L.Node<I, O>>,
                               h: seq<Event<I, O>>, n: nat, p: seq<nat>, d: nat)
    requires WellFormed(h, n) && Ids(p, n) && d < |p| && |links| == |all| == |h| + 1
  {
    var gone, c, r := Gone(h, p[..d]), CallAt(h, n, p[d]) + 1, ReturnAt(h, n, p[d]) + 1;
    PointsTo(links[c], all, gone, c) && PointsTo(links[r], all, gone + {c}, r)
  }

  ghost predicate ListOk<I, O>(all: seq<L.Node<I, O>>, h: seq<Event<I, O>>, n: nat, p: seq<nat>)
    reads all
  {
    && WellFormed(h, n) && Ids(p, n) && |all| == |h| + 1 && L.Linked(all, Gone(h, p))
    && forall d :: 0 <= d < |p| ==> Frozen(Links(all), all, h, n, p, d)
  }

  lemma ChainLinked<I, O>(all: seq<L.Node<I, O>>, h: seq<Event<I, O>>, n: nat)
    requires WellFormed(h, n) && |all| == |h| + 1 && Chained(all)
    ensures ListOk(all, h, n, [])
  {
    assert Gone(h, []) == {};
    forall k | 0 <= k < |all| ensures L.Points(all, {}, k) { assert ChainedAt(all, k); }
  }

  /** The node at a position of the list. */
  lemma NodeFacts<I, O>(all: seq<L.Node<I, O>>, h: seq<Event<I, O>>, n: nat, e: nat)
    requires WellFormed(h, n) && 1 <= e <= |h| && |all| == |h| + 1 && Mirrors(all[1..], h, n, 0)
    ensures var b := h[e - 1].id;
            && b < n && all[e].id == b && (all[e].match_ != null <==> h[e - 1].Call?)
            && (h[e - 1].Call? ==>
                  && CallAt(h, n, b) == e - 1 && e < ReturnAt(h, n, b) + 1 <= |h| && all[e].match_ == all[ReturnAt(h, n, b) + 1]
                  && all[e].value == L.In(h[e - 1].input)
                  && all[ReturnAt(h, n, b) + 1].value == L.Out(h[ReturnAt(h, n, b)].output))
  {
    hide WellFormed, ReturnAt, CallAt;
    var ns, b := all[1..], h[e - 1].id;
    CallBeforeReturn(h, n, e - 1);
    assert MirrorsAt(ns, h, n, 0, e - 1);
    if h[e - 1].Call? { assert MirrorsAt(ns, h, n, 0, ReturnAt(h, n, b)); }
  }

  lemma PathGone<I, O>(h: seq<Event<I, O>>, n: nat, p: seq<nat>, d: nat)
    requires WellFormed(h, n) && Ids(p, n) && d < |p|
    ensures CallAt(h, n, p[d]) + 1 in Gone(h, p) && ReturnAt(h, n, p[d]) + 1 in Gone(h, p)
  {
  }

  /** Nodes off the list keep their pointers, so what was frozen stays so. */
  lemma StayFrozen<I, O>(links: seq<(L.Node?<I, O>, L.Node?<I, O>)>, links': seq<(L.Node?<I, O>, L.Node?<I, O>)>,
                         all: seq<L.Node<I, O>>, h: seq<Event<I, O>>, n: nat, p: seq<nat>, q: seq<nat>, d: nat)
    requires WellFormed(h, n) && Ids(p, n) && Ids(q, n) && |links| == |links'| == |all| == |h| + 1
    requires d < |p| && d < |q| && p[..d] == q[..d] && p[d] == q[d]
    requires CallAt(h, n, p[d]) + 1 < |h| + 1 && links[CallAt(h, n, p[d]) + 1] == links'[CallAt(h, n, p[d]) + 1]
    requires ReturnAt(h, n, p[d]) + 1 < |h| + 1 && links[ReturnAt(h, n, p[d]) + 1] == links'[ReturnAt(h, n, p[d]) + 1]
    ensures Frozen(links, all, h, n, p, d) ==> Frozen(links', all, h, n, q, d)
  {
    hide WellFormed, PointsTo, CallAt, ReturnAt, Gone;
  }

  lemma LastFrozen<I, O>(all: seq<L.Node<I, O>>, h: seq<Event<I, O>>, n: nat, p: seq<nat>, b: nat)
    requires WellFormed(h, n) && Ids(p + [b], n) && b < n && |all| == |h| + 1
    ensures var gone, c, r := Gone(h, p), CallAt(h, n, b) + 1, ReturnAt(h, n, b) + 1;
            Frozen(Links(all), all, h, n, p + [b], |p|) <==> L.Points(all, gone, c) && L.Points(all, gone + {c}, r)
  {
    hide WellFormed, CallAt, ReturnAt, Gone, Links, L.Next, L.Prev;
    assert (p + [b])[..|p|] == p;
  }

  method Enter<I, O>(entry: L.Node<I, O>, ghost all: seq<L.Node<I, O>>, ghost h: seq<Event<I, O>>, ghost n: nat, ghost p: seq<nat>, ghost b: nat)
    requires ListOk(all, h, n, p) && b < n && b !in p
    requires all[CallAt(h, n, b) + 1] == entry && entry.match_ == all[ReturnAt(h, n, b) + 1]
    modifies all
    ensures ListOk(all, h, n, p + [b])
  {
    hide WellFormed, L.Linked, L.Points, CallAt, ReturnAt, Gone, Links, Frozen;
    ghost var c, r, q := CallAt(h, n, b) + 1, ReturnAt(h, n, b) + 1, p + [b];
    GoneGrows(h, n, p, b);
    ghost var links := Links(all);
    L.Lift(entry, all, Gone(h, p), c, r);
    forall d | 0 <= d < |q| ensures Frozen(Links(all), all, h, n, q, d) {
      if d < |p| {
        assert p[..d] == q[..d];
        PathGone(h, n, p, d);
        StayFrozen(links, Links(all), all, h, n, p, q, d);
      } else {
        LastFrozen(all, h, n, p, b);
      }
    }
  }

  method Leave<I, O>(entry: L.Node<I, O>, ghost all: seq<L.Node<I, O>>, ghost h: seq<Event<I, O>>, ghost n: nat, ghost p: seq<nat>, ghost b: nat)
    requires b < n && b !in p && ListOk(all, h, n, p + [b])
    requires all[CallAt(h, n, b) + 1] == entry && entry.match_ == all[ReturnAt(h, n, b) + 1]
    modifies all
    ensures ListOk(all, h, n, p)
  {
    hide WellFormed, L.Linked, L.Points, CallAt, ReturnAt, Gone, Links, Frozen;
    ghost var c, r, q := CallAt(h, n, b) + 1, ReturnAt(h, n, b) + 1, p + [b];
    GoneGrows(h, n, p, b);
    ghost var links := Links(all);
    assert Frozen(links, all, h, n, q, |p|);
    LastFrozen(all, h, n, p, b);
    L.Unlift(entry, all, Gone(h, p), c, r);
    assert Ids(p, n) by { assert forall i :: 0 <= i < |p| ==> p[i] == q[i]; }
    forall d | 0 <= d < |p| ensures Frozen(Links(all), all, h, n, p, d) {
      assert p[..d] == q[..d];
      assert Frozen(links, all, h, n, q, d);
      PathGone(h, n, p, d);
      StayFrozen(links, Links(all), all, h, n, q, p, d);
    }
  }

  lemma NextNode<I, O>(all: seq<L.Node<I, O>>, h: seq<Event<I, O>>, n: nat, p: seq<nat>, e: nat)
    requires ListOk(all, h, n, p) && e <= |h| && e !in Gone(h, p)
    ensures all[e].next == L.NodeAt(all, L.Next(Gone(h, p), |h| + 1, e))
  {
    hide L.Next, L.Prev, Gone, Frozen;
    assert L.Points(all, Gone(h, p), e);
  }

  // ---------------------------------------------------------------- the stack of calls

  ghost predicate StackAt<S, I, O>(calls: seq<CallsEntry<I, O, S>>, all: seq<L.Node<I, O>>, m: Model<S, I, O>,
                                   h: seq<Event<I, O>>, n: nat, p: seq<nat>, i: nat)
    requires WellFormed(h, n) && Ids(p, n) && i < |p| == |calls| && |all| == |h| + 1
  {
    && calls[i].entry == all[CallAt(h, n, p[i]) + 1] && calls[i].entry.id == p[i]
    && calls[i].state == StateAfter(m, h, n, p[..i])
  }

  /** Each level of the stack holds the node of its call and the state before it. */
  ghost predicate StackOk<S, I, O>(calls: seq<CallsEntry<I, O, S>>, all: seq<L.Node<I, O>>, m: Model<S, I, O>,
                                   h: seq<Event<I, O>>, n: nat, p: seq<nat>)
  {
    && WellFormed(h, n) && Ids(p, n) && |calls| == |p| && |all| == |h| + 1
    && forall i :: 0 <= i < |p| ==> StackAt(calls, all, m, h, n, p, i)
  }

  lemma StackPush<S, I, O>(calls: seq<CallsEntry<I, O, S>>, all: seq<L.Node<I, O>>, m: Model<S, I, O>,
                           h: seq<Event<I, O>>, n: nat, p: seq<nat>, b: nat)
    requires StackOk(calls, all, m, h, n, p) && b < n && all[CallAt(h, n, b) + 1].id == b
    ensures StackOk(calls + [CallsEntry(all[CallAt(h, n, b) + 1], StateAfter(m, h, n, p))], all, m, h, n, p + [b])
  {
    hide WellFormed, CallAt, StateAfter;
    var q, calls' := p + [b], calls + [CallsEntry(all[CallAt(h, n, b) + 1], StateAfter(m, h, n, p))];
    forall i | 0 <= i < |q| ensures StackAt(calls', all, m, h, n, q, i) {
      if i < |p| {
        assert StackAt(calls, all, m, h, n, p, i) && q[..i] == p[..i];
      } else {
        assert q[..i] == p;
      }
    }
  }

  lemma StackPop<S, I, O>(calls: seq<CallsEntry<I, O, S>>, all: seq<L.Node<I, O>>, m: Model<S, I, O>,
                          h: seq<Event<I, O>>, n: nat, p: seq<nat>)
    requires StackOk(calls, all, m, h, n, p) && p != []
    ensures |calls| == |p|
    ensures var q, b, top := p[..|p| - 1], p[|p| - 1], calls[|calls| - 1];
            && StackOk(calls[..|calls| - 1], all, m, h, n, q)
            && top.entry == all[CallAt(h, n, b) + 1] && top.entry.id == b && top.state == StateAfter(m, h, n, q)
  {
    hide WellFormed, CallAt, StateAfter;
    var q, calls' := p[..|p| - 1], calls[..|calls| - 1];
    assert StackAt(calls, all, m, h, n, p, |q|);
    forall i | 0 <= i < |q| ensures StackAt(calls', all, m, h, n, q, i) {
      assert StackAt(calls, all, m, h, n, p, i) && q[..i] == p[..i];
    }
  }

  lemma RecordedGrows<S, I, O>(m: Model<S, I, O>, h: seq<Event<I, O>>, n: nat, p: seq<nat>, b: nat, seen: set<Config<S>>,
                               longest: seq<Option<seq<nat>>>)
    requires WellFormed(h, n) && Ids(p, n) && b < n && Ids(p + [b], n) && Recorded(m, h, n, p, seen, longest)
    ensures Recorded(m, h, n, p + [b], seen + {Cfg(m, h, n, p + [b])}, longest)
  {
    hide WellFormed, Cfg, Reaches;
    var q := p + [b];
    forall c, id | c in seen + {Cfg(m, h, n, q)} && !OnPath(m, h, n, q, c) && id in c.done
      ensures Reaches(longest, id, |c.done|)
    {
      assert q[..|q|] == q;
      assert c != Cfg(m, h, n, q);
      if OnPath(m, h, n, p, c) { PathGrows(m, h, n, p, b, c); }
    }
  }

  /** Every operation has the whole linearization on record. */
  ghost predicate AllComplete<S, I, O>(m: Model<S, I, O>, h: seq<Event<I, O>>, n: nat, longest: seq<Option<seq<nat>>>) {
    |longest| == n && forall id :: 0 <= id < n ==> longest[id].Some? && IsLinearization(m, h, n, longest[id].value)
  }

  /** What is on record for an operation is a longest legal start through it, and nothing only if there is none. */
  ghost predicate AllLongest<S, I, O>(m: Model<S, I, O>, h: seq<Event<I, O>>, n: nat, longest: seq<Option<seq<nat>>>) {
    Sound(m, h, n, longest) && forall q, id :: IsPartial(m, h, n, q) && id in q ==> Reaches(longest, id, |q|)
  }

  // ---------------------------------------------------------------- the steps of the loop

  /** What holds between two turns of the loop. */
  ghost predicate LoopOk<S, I, O>(m: Model<S, I, O>, h: seq<Event<I, O>>, n: nat, all: seq<L.Node<I, O>>, p: seq<nat>, e: nat,
                                  seen: set<Config<S>>, entry: L.Node?<I, O>, state: S, calls: seq<CallsEntry<I, O, S>>,
                                  linearized: seq<Word>, cache: Cache<S>)
    reads all
  {
    && WellFormed(h, n) && Ids(p, n) && At(m, h, n, p, e, seen) && IsPartial(m, h, n, p)
    && |all| == |h| + 1 && Mirrors(all[1..], h, n, 0) && ListOk(all, h, n, p) && entry == L.NodeAt(all, e)
    && StackOk(calls, all, m, h, n, p) && state == StateAfter(m, h, n, p)
    && n <= 64 * |linearized| && Encodes(linearized, Elements(p)) && CacheOk(cache, |linearized|, seen)
  }

  lemma Prepared<S, I, O>(m: Model<S, I, O>, h: seq<Event<I, O>>, n: nat, all: seq<L.Node<I, O>>, root: L.Node?<I, O>,
                          words: seq<Word>, longest: seq<Option<seq<nat>>>)
    requires WellFormed(h, n) && |all| == |h| + 1 && Chained(all) && Mirrors(all[1..], h, n, 0) && root == L.NodeAt(all, 1)
    requires n <= 64 * |words| && Encodes(words, {})
    requires |longest| == n && forall id :: 0 <= id < n ==> longest[id] == None
    ensures LoopOk(m, h, n, all, [], 1, {}, root, m.init, [], words, map[]) && IsPartial(m, h, n, [])
    ensures Sound(m, h, n, longest) && Recorded(m, h, n, [], {}, longest)
  {
    hide ListOk, At, WellFormed, Mirrors, Encodes;
    AtStart(m, h, n);
    ChainLinked(all, h, n);
    assert Gone(h, []) == {} && Elements([]) == {};
  }

  /** The node under the scan, when the list is not empty. */
  lemma AtNode<S, I, O>(m: Model<S, I, O>, h: seq<Event<I, O>>, n: nat, all: seq<L.Node<I, O>>, p: seq<nat>, e: nat, seen: set<Config<S>>)
    requires At(m, h, n, p, e, seen) && ListOk(all, h, n, p) && Mirrors(all[1..], h, n, 0) && all[0].next != null
    ensures 1 <= e <= |h| && e !in Gone(h, p) && h[e - 1].id < n && all[e].id == h[e - 1].id
    ensures all[e].match_ != null <==> h[e - 1].Call?
    ensures h[e - 1].Call? ==> CallAt(h, n, h[e - 1].id) == e - 1 && all[e].match_ == all[ReturnAt(h, n, h[e - 1].id) + 1]
  {
    hide ListOk, SearchOk, Mirrors, L.Next, CallAt, ReturnAt, Gone;
    assert |all| == |h| + 1 && WellFormed(h, n) by { ListShape(all, h, n, p); }
    NextNode(all, h, n, p, 0);
    EntryExists(h, n, p, e);
    NodeFacts(all, h, n, e);
  }

  lemma ListShape<I, O>(all: seq<L.Node<I, O>>, h: seq<Event<I, O>>, n: nat, p: seq<nat>)
    requires ListOk(all, h, n, p)
    ensures |all| == |h| + 1 && WellFormed(h, n) && Ids(p, n)
  {
  }

  lemma StepTaken<S, I, O>(m: Model<S, I, O>, h: seq<Event<I, O>>, n: nat, all: seq<L.Node<I, O>>, state: S, e: nat)
    requires WellFormed(h, n) && 1 <= e <= |h| && |all| == |h| + 1 && Mirrors(all[1..], h, n, 0) && h[e - 1].Call?
    ensures h[e - 1].id < n && all[e].match_ != null && all[e].value.In? && all[e].match_.value.Out?
    ensures m.step(state, all[e].value.input, all[e].match_.value.output) == StepOf(m, h, n, state, h[e - 1].id)
  {
    hide WellFormed, CallAt, ReturnAt, Mirrors;
    NodeFacts(all, h, n, e);
  }

  lemma NewEntry<S, I, O>(m: Model<S, I, O>, h: seq<Event<I, O>>, n: nat, p: seq<nat>, b: nat, words: seq<Word>)
    requires WellFormed(h, n) && Ids(p, n) && b < n && Encodes(words, Elements(p) + {b})
    ensures var c := After(m, h, n, Cfg(m, h, n, p), b);
            Fits(c, |words|) && CacheEntry(words, StepOf(m, h, n, StateAfter(m, h, n, p), b).1) == EntryOf(c, |words|)
  {
    hide WellFormed, StepOf, StateAfter, Words;
  }

  lemma StackIds<S, I, O>(calls: seq<CallsEntry<I, O, S>>, all: seq<L.Node<I, O>>, m: Model<S, I, O>,
                          h: seq<Event<I, O>>, n: nat, p: seq<nat>)
    requires StackOk(calls, all, m, h, n, p)
    ensures |calls| == |p| && forall i :: 0 <= i < |p| ==> calls[i].entry.id == p[i] < n
  {
    hide WellFormed, CallAt, StateAfter;
    forall i | 0 <= i < |p| ensures calls[i].entry.id == p[i] < n { assert StackAt(calls, all, m, h, n, p, i); }
  }

  /** A call that is rejected or leads to a visited configuration is passed over. */
  lemma Skipped<S, I, O>(m: Model<S, I, O>, h: seq<Event<I, O>>, n: nat, all: seq<L.Node<I, O>>, p: seq<nat>, e: nat, seen: set<Config<S>>)
    requires At(m, h, n, p, e, seen) && ListOk(all, h, n, p) && |all| == |h| + 1 && WellFormed(h, n) && Ids(p, n)
    requires 1 <= e <= |h| && e !in Gone(h, p) && h[e - 1].Call? && h[e - 1].id < n
    requires var b := h[e - 1].id;
             StepOf(m, h, n, StateAfter(m, h, n, p), b).0 ==> After(m, h, n, Cfg(m, h, n, p), b) in seen
    ensures var e' := L.Next(Gone(h, p), |h| + 1, e); At(m, h, n, p, e', seen) && all[e].next == L.NodeAt(all, e')
  {
    hide At, ListOk, WellFormed, Gone, StepOf, StateAfter, After, L.Next;
    assert Covered(m, h, n, Cfg(m, h, n, p), h[e - 1].id, seen);
    AtSkip(m, h, n, p, e, seen);
    NextNode(all, h, n, p, e);
  }

  lemma PathDrop<S, I, O>(m: Model<S, I, O>, h: seq<Event<I, O>>, n: nat, p: seq<nat>)
    requires IsPartial(m, h, n, p) && p != []
    ensures var q, b := p[..|p| - 1], p[|p| - 1];
            && p == q + [b] && b !in q && b < n && Ids(q, n) && IsPartial(m, h, n, q) && Elements(q) == Elements(p) - {b}
  {
    hide Accepted, Closed, WellFormed;
    var q, b := p[..|p| - 1], p[|p| - 1];
    PartialPrefix(m, h, n, p, |p| - 1);
    assert p == q + [b];
    ElementsSplit(q, b);
  }

  /** Backing out of the empty path: nothing is left to try, so the record is final. */
  lemma GivesUp<S, I, O>(m: Model<S, I, O>, h: seq<Event<I, O>>, n: nat, e: nat, seen: set<Config<S>>, longest: seq<Option<seq<nat>>>)
    requires At(m, h, n, [], e, seen) && WellFormed(h, n) && 1 <= e <= |h| && h[e - 1].Return? && Sound(m, h, n, longest)
    ensures !Linearizable(m, h, n)
    ensures Recorded(m, h, n, [], seen, longest) ==> AllLongest(m, h, n, longest)
  {
    hide SearchOk, Expanded, Recorded, IsPartial, Linearizable, Sound, Gone;
    ReturnExpanded(m, h, n, [], e, seen);
    NotLinearizable(m, h, n, e - 1, seen);
    if Recorded(m, h, n, [], seen, longest) {
      forall q, id | IsPartial(m, h, n, q) && id in q ensures Reaches(longest, id, |q|) {
        LongestIsLongest(m, h, n, e - 1, seen, longest, q, id);
      }
    }
  }

  lemma Succeeds<S, I, O>(m: Model<S, I, O>, h: seq<Event<I, O>>, n: nat, all: seq<L.Node<I, O>>, p: seq<nat>)
    requires IsPartial(m, h, n, p) && ListOk(all, h, n, p) && all[0].next == null
    ensures IsLinearization(m, h, n, p) && Linearizable(m, h, n)
  {
    hide ListOk, IsPartial, IsLinearization, Gone, L.Next;
    assert |all| == |h| + 1 by { ListShape(all, h, n, p); }
    NextNode(all, h, n, p, 0);
    AllGone(m, h, n, p);
  }

  lemma Pushed<S, I, O>(m: Model<S, I, O>, h: seq<Event<I, O>>, n: nat, p: seq<nat>, b: nat)
    requires WellFormed(h, n) && Ids(p, n) && b < n
    ensures Ids(p + [b], n) && Elements(p + [b]) == Elements(p) + {b}
    ensures StateAfter(m, h, n, p + [b]) == StepOf(m, h, n, StateAfter(m, h, n, p), b).1
  {
    ElementsSplit(p, b);
    assert (p + [b])[..|p|] == p;
  }

  lemma NodeOf<I, O>(all: seq<L.Node<I, O>>, h: seq<Event<I, O>>, n: nat, q: seq<nat>, b: nat)
    requires WellFormed(h, n) && |all| == |h| + 1 && Mirrors(all[1..], h, n, 0) && b < n && b !in q
    ensures var c, r := CallAt(h, n, b) + 1, ReturnAt(h, n, b) + 1;
            c <= |h| && r <= |h| && all[c].match_ == all[r] && c !in Gone(h, q)
  {
    hide Mirrors;
    NodeFacts(all, h, n, CallAt(h, n, b) + 1);
  }

  lemma LoopShape<S, I, O>(m: Model<S, I, O>, h: seq<Event<I, O>>, n: nat, all: seq<L.Node<I, O>>, p: seq<nat>, e: nat,
                           seen: set<Config<S>>, entry: L.Node?<I, O>, state: S, calls: seq<CallsEntry<I, O, S>>,
                           linearized: seq<Word>, cache: Cache<S>)
    requires LoopOk(m, h, n, all, p, e, seen, entry, state, calls, linearized, cache)
    ensures WellFormed(h, n) && Ids(p, n) && IsPartial(m, h, n, p) && ListOk(all, h, n, p) && StackOk(calls, all, m, h, n, p)
    ensures |calls| == |p| && forall i :: 0 <= i < |p| ==> calls[i].entry.id == p[i]
  {
    hide WellFormed, ListOk, StackOk, At, Encodes, CacheOk, IsPartial;
    StackIds(calls, all, m, h, n, p);
  }

  lemma LoopNode<S, I, O>(m: Model<S, I, O>, h: seq<Event<I, O>>, n: nat, all: seq<L.Node<I, O>>, p: seq<nat>, e: nat,
                          seen: set<Config<S>>, entry: L.Node?<I, O>, state: S, calls: seq<CallsEntry<I, O, S>>,
                          linearized: seq<Word>, cache: Cache<S>)
    requires LoopOk(m, h, n, all, p, e, seen, entry, state, calls, linearized, cache) && |all| > 0 && all[0].next != null
    ensures 1 <= e <= |h| && entry != null && (entry.match_ == null <==> h[e - 1].Return?)
    ensures At(m, h, n, p, e, seen) && StackOk(calls, all, m, h, n, p) && |calls| == |p|
  {
    hide WellFormed, ListOk, StackOk, At, Encodes, CacheOk, IsPartial, Mirrors;
    AtNode(m, h, n, all, p, e, seen);
    StackIds(calls, all, m, h, n, p);
  }

  // ---------------------------------------------------------------- the checker

  /** Looks the configuration behind operation `id` up in the cache, and adds it when it is new. */
  method Visit<S(==), I, O>(m: Model<S, I, O>, ghost h: seq<Event<I, O>>, ghost n: nat, cache: Cache<S>, linearized: array<Word>,
                            id: nat, newState: S, ghost p: seq<nat>, ghost seen: set<Config<S>>)
    returns (isNew: bool, cache': Cache<S>)
    requires WellFormed(h, n) && Ids(p, n) && id < n <= 64 * linearized.Length
    requires Encodes(linearized[..], Elements(p)) && CacheOk(cache, linearized.Length, seen)
    requires newState == StepOf(m, h, n, StateAfter(m, h, n, p), id).1
    ensures isNew <==> After(m, h, n, Cfg(m, h, n, p), id) !in seen
    ensures isNew ==> CacheOk(cache', linearized.Length, seen + {After(m, h, n, Cfg(m, h, n, p), id)})
    ensures !isNew ==> cache' == cache
  {
    hide WellFormed, StateAfter, StepOf, After, Cfg, Encodes, Elements, CacheOk, Fits, EntryOf;
    var newLinearized := Clone(linearized);
    SetBit(newLinearized, id, Elements(p));
    NewEntry(m, h, n, p, id, newLinearized[..]);
    ghost var c := After(m, h, n, Cfg(m, h, n, p), id);
    var newCacheEntry := CacheEntry(newLinearized[..], newState);
    var found := CacheContains(cache, newCacheEntry, linearized.Length, c, seen);
    isNew, cache' := !found, cache;
    if isNew {
      cache' := CacheAdd(cache, newCacheEntry, linearized.Length, c, seen);
    }
  }

  /** Puts an operation on the path and lifts its events out of the list. */
  method Advance<S, I, O>(m: Model<S, I, O>, ghost h: seq<Event<I, O>>, ghost n: nat, ghost all: seq<L.Node<I, O>>,
                          entry: L.Node<I, O>, state: S, calls: seq<CallsEntry<I, O, S>>, linearized: array<Word>, ghost p: seq<nat>, ghost b: nat)
    returns (calls': seq<CallsEntry<I, O, S>>)
    requires WellFormed(h, n) && |all| == |h| + 1 && Mirrors(all[1..], h, n, 0) && n <= 64 * linearized.Length
    requires b < n && b !in p && CallAt(h, n, b) < |h| && entry == all[CallAt(h, n, b) + 1] && entry.id == b
    requires ListOk(all, h, n, p) && Ids(p, n) && StackOk(calls, all, m, h, n, p)
    requires state == StateAfter(m, h, n, p) && Encodes(linearized[..], Elements(p))
    modifies all, linearized
    ensures Ids(p + [b], n) && ListOk(all, h, n, p + [b]) && StackOk(calls', all, m, h, n, p + [b])
    ensures Encodes(linearized[..], Elements(p + [b]))
    ensures StateAfter(m, h, n, p + [b]) == StepOf(m, h, n, StateAfter(m, h, n, p), b).1
  {
    hide WellFormed, StateAfter, StepOf, Encodes, Elements, StackOk, ListOk, Mirrors, CallAt, ReturnAt, Gone;
    StackPush(calls, all, m, h, n, p, b);
    calls' := calls + [CallsEntry(entry, state)];
    SetBit(linearized, entry.id, Elements(p));
    NodeOf(all, h, n, p, b);
    Enter(entry, all, h, n, p, b);
    Pushed(m, h, n, p, b);
  }

  /** Takes the last operation off the path and puts its events back into the list. */
  method Retreat<S, I, O>(m: Model<S, I, O>, ghost h: seq<Event<I, O>>, ghost n: nat, ghost all: seq<L.Node<I, O>>,
                          calls: seq<CallsEntry<I, O, S>>, linearized: array<Word>, ghost p: seq<nat>)
    returns (entry: L.Node?<I, O>, state: S, calls': seq<CallsEntry<I, O, S>>)
    requires WellFormed(h, n) && |all| == |h| + 1 && Mirrors(all[1..], h, n, 0) && n <= 64 * linearized.Length
    requires IsPartial(m, h, n, p) && p != [] && ListOk(all, h, n, p) && StackOk(calls, all, m, h, n, p)
    requires Encodes(linearized[..], Elements(p))
    modifies all, linearized
    ensures var q, b := p[..|p| - 1], p[|p| - 1];
            && IsPartial(m, h, n, q) && Ids(q, n) && ListOk(all, h, n, q) && StackOk(calls', all, m, h, n, q)
            && state == StateAfter(m, h, n, q) && Encodes(linearized[..], Elements(q))
            && entry == L.NodeAt(all, L.Next(Gone(h, q), |h| + 1, CallAt(h, n, b) + 1))
  {
    hide WellFormed, StateAfter, Encodes, Elements, StackOk, ListOk, Mirrors, CallAt, ReturnAt, Gone, IsPartial, L.Next;
    ghost var q, b := p[..|p| - 1], p[|p| - 1];
    StackPop(calls, all, m, h, n, p);
    PathDrop(m, h, n, p);
    var callsTop := calls[|calls| - 1];
    entry := callsTop.entry;
    state := callsTop.state;
    ClearBit(linearized, entry.id, Elements(p));
    calls' := calls[..|calls| - 1];
    NodeOf(all, h, n, q, b);
    Leave(entry, all, h, n, q, b);
    NextNode(all, h, n, q, CallAt(h, n, b) + 1);
    entry := entry.next;
  }

  /** Notes the path for every operation on it that has nothing longer on record. */
  method Note<S, I, O>(m: Model<S, I, O>, ghost h: seq<Event<I, O>>, ghost n: nat, longest: seq<Option<seq<nat>>>,
                       calls: seq<CallsEntry<I, O, S>>, ghost all: seq<L.Node<I, O>>, ghost p: seq<nat>, ghost seen: set<Config<S>>)
    returns (better: seq<Option<seq<nat>>>)
    requires WellFormed(h, n) && Ids(p, n) && StackOk(calls, all, m, h, n, p) && p != [] && IsPartial(m, h, n, p)
    requires |longest| == n && Sound(m, h, n, longest) && Recorded(m, h, n, p, seen, longest)
    ensures |better| == n && Sound(m, h, n, better) && Ids(p[..|p| - 1], n) && Recorded(m, h, n, p[..|p| - 1], seen, better)
  {
    hide WellFormed, StackOk, IsPartial, Sound, Recorded, Improved;
    StackIds(calls, all, m, h, n, p);
    better := Record(longest, calls, p);
    ImprovedSound(m, h, n, p, longest, better);
    ImprovedRecorded(m, h, n, p, seen, longest, better);
  }

  /** At the end the longest linearization is the complete one, for every operation. */
  method Complete<S, I, O>(m: Model<S, I, O>, ghost h: seq<Event<I, O>>, n: nat, longest: seq<Option<seq<nat>>>,
                           calls: seq<CallsEntry<I, O, S>>, ghost p: seq<nat>)
    returns (whole: seq<Option<seq<nat>>>)
    requires |longest| == n && IsLinearization(m, h, n, p)
    requires |calls| == |p| && forall i :: 0 <= i < |p| ==> calls[i].entry.id == p[i]
    ensures AllComplete(m, h, n, whole)
  {
    hide IsLinearization;
    var path := PathIds(calls, p);
    whole := longest;
    for i := 0 to n
      invariant |whole| == n && forall j :: 0 <= j < i ==> whole[j] == Some(p)
    {
      whole := whole[i := Some(path)];
    }
  }

  /** The scan stands at a call: enter it if the model accepts it and its configuration is new. */
  method TryCall<S(==), I, O>(m: Model<S, I, O>, ghost h: seq<Event<I, O>>, ghost n: nat, ghost all: seq<L.Node<I, O>>,
                              ghost p: seq<nat>, ghost e: nat, ghost seen: set<Config<S>>, headEntry: L.Node<I, O>, entry: L.Node<I, O>,
                              state: S, calls: seq<CallsEntry<I, O, S>>, linearized: array<Word>, cache: Cache<S>)
    returns (entry': L.Node?<I, O>, state': S, calls': seq<CallsEntry<I, O, S>>, cache': Cache<S>, ghost isNew: bool,
             ghost p': seq<nat>, ghost e': nat, ghost seen': set<Config<S>>)
    requires LoopOk(m, h, n, all, p, e, seen, entry, state, calls, linearized[..], cache)
    requires all[0] == headEntry && headEntry.next != null && entry.match_ != null
    modifies all, linearized
    ensures LoopOk(m, h, n, all, p', e', seen', entry', state', calls', linearized[..], cache')
    ensures if isNew
            then |p'| > 0 && p'[..|p'| - 1] == p && seen' == seen + {Cfg(m, h, n, p')}
                 && |Reach(m, h, n, n) - seen'| < |Reach(m, h, n, n) - seen|
            else p' == p && seen' == seen && e < e' <= |h| + 1
  {
    hide WellFormed, CallAt, ReturnAt, Mirrors, ListOk, StackOk, Encodes, CacheOk, StateAfter, At, Gone, L.Next,
         IsPartial, Reach, Fits, Cfg, StepOf, After, EntryOf, Elements;
    AtNode(m, h, n, all, p, e, seen);
    ghost var b: nat := h[e - 1].id;
    StepTaken(m, h, n, all, state, e);
    var matching := entry.match_;
    var (accepted, newState) := m.step(state, entry.value.input, matching.value.output);
    var enter := false;
    cache' := cache;
    if accepted {
      enter, cache' := Visit(m, h, n, cache, linearized, entry.id, newState, p, seen);
    }
    isNew := enter;
    if enter {
      AtPush(m, h, n, p, e, seen);
      calls' := Advance(m, h, n, all, entry, state, calls, linearized, p, b);
      state' := newState;
      p', seen' := p + [b], seen + {After(m, h, n, Cfg(m, h, n, p), b)};
      e' := L.Next(Gone(h, p'), |h| + 1, 0);
      NextNode(all, h, n, p', 0);
      entry' := headEntry.next;
    } else {
      Skipped(m, h, n, all, p, e, seen);
      p', seen', e' := p, seen, L.Next(Gone(h, p), |h| + 1, e);
      entry', state', calls' := entry.next, state, calls;
    }
  }

  /** The scan stands at a return: go back to the call entered last and on from there. */
  method Backtrack<S, I, O>(m: Model<S, I, O>, ghost h: seq<Event<I, O>>, ghost n: nat, ghost all: seq<L.Node<I, O>>,
                            ghost p: seq<nat>, ghost e: nat, ghost seen: set<Config<S>>, headEntry: L.Node<I, O>, entry: L.Node<I, O>,
                            state: S, calls: seq<CallsEntry<I, O, S>>, linearized: array<Word>, ghost cache: Cache<S>)
    returns (entry': L.Node?<I, O>, state': S, calls': seq<CallsEntry<I, O, S>>, ghost e': nat)
    requires LoopOk(m, h, n, all, p, e, seen, entry, state, calls, linearized[..], cache) && p != []
    requires all[0] == headEntry && headEntry.next != null && entry.match_ == null
    modifies all, linearized
    ensures LoopOk(m, h, n, all, p[..|p| - 1], e', seen, entry', state', calls', linearized[..], cache)
  {
    hide WellFormed, CallAt, ReturnAt, Mirrors, ListOk, StackOk, Encodes, CacheOk, StateAfter, At, Gone, L.Next, IsPartial, Elements;
    AtNode(m, h, n, all, p, e, seen);
    AtPop(m, h, n, p, e, seen);
    e' := L.Next(Gone(h, p[..|p| - 1]), |h| + 1, CallAt(h, n, p[|p| - 1]) + 1);
    entry', state', calls' := Retreat(m, h, n, all, calls, linearized, p);
  }

  method CheckSingle<S(==), I, O>(m: Model<S, I, O>, h: seq<Event<I, O>>, computePartial: bool, ghost n: nat)
    returns (ok: bool, longest: seq<Option<seq<nat>>>)
    requires WellFormed(h, n)
    ensures ok <==> Linearizable(m, h, n)
    ensures ok ==> AllComplete(m, h, n, longest)
    ensures !ok && computePartial ==> AllLongest(m, h, n, longest)
  {
    hide WellFormed, Mirrors, Chained, ListOk, StackOk, Encodes, CacheOk, StateAfter, At, Gone, L.Next,
         Sound, Recorded, Linearizable, IsLinearization, IsPartial, Reach, Cfg, Elements, AllLongest, AllComplete, LoopOk;
    var entry, ns := MakeLinkedEntries(h, n);
    var len := Length(entry, ns);
    var size := len / 2;
    var linearized := NewBitset(size);
    var cache: Cache<S> := map[];
    var calls: seq<CallsEntry<I, O, S>> := [];
    longest := seq(size, _ => None);
    var state := m.init;
    var headEntry := new L.Node<I, O>(L.Nothing, null, -1);
    Prepend(headEntry, entry, ns);
    ghost var all := [headEntry] + ns;
    ghost var p: seq<nat>, seen: set<Config<S>>, e := [], {}, 1;
    Prepared(m, h, n, all, entry, linearized[..], longest);
    while headEntry.next != null
      invariant |all| == |h| + 1 && all[0] == headEntry && forall k :: 0 <= k < |all| ==> fresh(all[k])
      invariant fresh(linearized) && LoopOk(m, h, n, all, p, e, seen, entry, state, calls, linearized[..], cache)
      invariant WellFormed(h, n) && Ids(p, n) && IsPartial(m, h, n, p)
      invariant |longest| == n && Sound(m, h, n, longest) && (computePartial ==> Recorded(m, h, n, p, seen, longest))
      decreases |Reach(m, h, n, n) - seen|, |p|, |h| + 1 - e
    {
      LoopNode(m, h, n, all, p, e, seen, entry, state, calls, linearized[..], cache);
      if entry.match_ != null {
        ghost var isNew, p', seen';
        entry, state, calls, cache, isNew, p', e, seen' :=
          TryCall(m, h, n, all, p, e, seen, headEntry, entry, state, calls, linearized, cache);
        LoopShape(m, h, n, all, p', e, seen', entry, state, calls, linearized[..], cache);
        if isNew && computePartial {
          assert p' == p + [p'[|p'| - 1]];
          RecordedGrows(m, h, n, p, p'[|p'| - 1], seen, longest);
        }
        p, seen := p', seen';
      } else {
        if |calls| == 0 {
          GivesUp(m, h, n, e, seen, longest);
          return false, longest;
        }
        if computePartial {
          longest := Note(m, h, n, longest, calls, all, p, seen);
        }
        entry, state, calls, e := Backtrack(m, h, n, all, p, e, seen, headEntry, entry, state, calls, linearized, cache);
        p := p[..|p| - 1];
        LoopShape(m, h, n, all, p, e, seen, entry, state, calls, linearized[..], cache);
      }
    }
    LoopShape(m, h, n, all, p, e, seen, entry, state, calls, linearized[..], cache);
    Succeeds(m, h, n, all, p);
    longest := Complete(m, h, size, longest, calls, p);
    ok := true;
  }
}
