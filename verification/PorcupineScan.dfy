/** How the scan of the linked list carries out the moves of the search, and why it ends. */
module PorcupineScan {
  import opened Linearizability
  import opened PorcupineSearch
  import L = PorcupineList

  // ---------------------------------------------------------------- positions on the list

  /** The positions of the events of the operations in `p`; event `k` stands at position `k + 1`. */
  ghost function Gone<I, O>(h: seq<Event<I, O>>, p: seq<nat>): (r: set<nat>)
    ensures 0 !in r
  {
    set j: nat | j <= |h| && Concerns(h, j, p)
  }

  predicate Concerns<I, O>(h: seq<Event<I, O>>, j: nat, p: seq<nat>) {
    1 <= j <= |h| && h[j - 1].id in p
  }

  lemma GoneGrows<I, O>(h: seq<Event<I, O>>, n: nat, p: seq<nat>, b: nat)
    requires WellFormed(h, n) && b < n
    ensures Gone(h, p + [b]) == Gone(h, p) + {CallAt(h, n, b) + 1} + {ReturnAt(h, n, b) + 1}
    ensures b !in p ==> CallAt(h, n, b) + 1 !in Gone(h, p) && ReturnAt(h, n, b) + 1 !in Gone(h, p)
  {
    forall j: nat ensures j in Gone(h, p + [b]) <==> j in Gone(h, p) + {CallAt(h, n, b) + 1} + {ReturnAt(h, n, b) + 1} {
      if 1 <= j <= |h| { CallBeforeReturn(h, n, j - 1); }
    }
  }

  /** Before position `e` the list holds no return. */
  ghost predicate NoReturn<I, O>(h: seq<Event<I, O>>, p: seq<nat>, e: nat) {
    forall j :: 0 <= j < |h| && j < e - 1 && h[j].id !in p ==> h[j].Call?
  }

  lemma CallAvailable<I, O>(h: seq<Event<I, O>>, n: nat, p: seq<nat>, e: nat)
    requires WellFormed(h, n) && 1 <= e <= |h| && e !in Gone(h, p) && NoReturn(h, p, e) && h[e - 1].Call?
    ensures Available(h, n, Elements(p), h[e - 1].id)
  {
    CallBeforeReturn(h, n, e - 1);
    forall a: nat | Precedes(h, n, a, h[e - 1].id) ensures a in Elements(p) {
      assert h[ReturnAt(h, n, a)].Return?;
    }
  }

  /** Some operation is still in the list, so the scan stops at its return at the latest. */
  lemma EntryExists<I, O>(h: seq<Event<I, O>>, n: nat, p: seq<nat>, e: nat)
    requires WellFormed(h, n) && NoReturn(h, p, e) && L.Next(Gone(h, p), |h| + 1, 0) <= |h|
    ensures e <= |h|
  {
    var j := L.Next(Gone(h, p), |h| + 1, 0) - 1;
    CallBeforeReturn(h, n, j);
    assert h[ReturnAt(h, n, h[j].id)].Return?;
  }

  lemma AllGone<S, I, O>(m: Model<S, I, O>, h: seq<Event<I, O>>, n: nat, p: seq<nat>)
    requires IsPartial(m, h, n, p) && L.Next(Gone(h, p), |h| + 1, 0) == |h| + 1
    ensures IsLinearization(m, h, n, p)
  {
    forall b: nat | b < n ensures b in Elements(p) {
      assert 0 < CallAt(h, n, b) + 1 < |h| + 1;
      assert CallAt(h, n, b) + 1 in Gone(h, p);
    }
    assert Elements(p) == Below(n);
    DistinctSize(p);
    WholePartial(m, h, n, p);
  }

  // ---------------------------------------------------------------- the scan

  lemma GoneCovered<S, I, O>(m: Model<S, I, O>, h: seq<Event<I, O>>, n: nat, p: seq<nat>, b: nat, seen: set<Config<S>>)
    requires WellFormed(h, n) && Ids(p, n) && b < n && CallAt(h, n, b) + 1 in Gone(h, p)
    ensures Covered(m, h, n, Cfg(m, h, n, p), b, seen)
  {
  }

  /** From a position up to which everything is tried, on to the next node of the list. */
  lemma ScanOn<S, I, O>(m: Model<S, I, O>, h: seq<Event<I, O>>, n: nat, p: seq<nat>, e: nat, seen: set<Config<S>>)
    requires SearchOk(m, h, n, p, e, seen) && e <= |h| && NoReturn(h, p, e)
    requires e > 0 && e !in Gone(h, p) ==> h[e - 1].Call?
    ensures var e' := L.Next(Gone(h, p), |h| + 1, e); SearchOk(m, h, n, p, e' - 1, seen) && NoReturn(h, p, e')
  {
    hide SearchOk, WellFormed, CallAt, Covered, Cfg, IsPartial;
    var e' := L.Next(Gone(h, p), |h| + 1, e);
    SearchShape(m, h, n, p, e, seen);
    forall b: nat | b < n && e <= CallAt(h, n, b) < e' - 1 ensures Covered(m, h, n, Cfg(m, h, n, p), b, seen) {
      GoneCovered(m, h, n, p, b, seen);
    }
    SearchSkips(m, h, n, p, e, e' - 1, seen);
    forall j | 0 <= j < |h| && j < e' - 1 ensures h[j].id !in p ==> h[j].Call? {
      if j > e - 1 { assert j + 1 in Gone(h, p); }
    }
  }

  lemma SearchShape<S, I, O>(m: Model<S, I, O>, h: seq<Event<I, O>>, n: nat, p: seq<nat>, pos: int, seen: set<Config<S>>)
    requires SearchOk(m, h, n, p, pos, seen)
    ensures WellFormed(h, n) && Ids(p, n) && Linearizability.Distinct(p) && IsPartial(m, h, n, p)
  {
  }

  /** A call that leads nowhere new is done with. */
  lemma ScanPast<S, I, O>(m: Model<S, I, O>, h: seq<Event<I, O>>, n: nat, p: seq<nat>, e: nat, seen: set<Config<S>>)
    requires SearchOk(m, h, n, p, e - 1, seen) && 1 <= e <= |h| && h[e - 1].id < n && h[e - 1].Call?
    requires Covered(m, h, n, Cfg(m, h, n, p), h[e - 1].id, seen)
    ensures SearchOk(m, h, n, p, e, seen)
  {
    forall b: nat | b < n && e - 1 <= CallAt(h, n, b) < e ensures Covered(m, h, n, Cfg(m, h, n, p), b, seen) {
      CallBeforeReturn(h, n, e - 1);
    }
    SearchSkips(m, h, n, p, e - 1, e, seen);
  }

  /** At a return in the list everything that could come next has been tried. */
  lemma ReturnExpanded<S, I, O>(m: Model<S, I, O>, h: seq<Event<I, O>>, n: nat, p: seq<nat>, e: nat, seen: set<Config<S>>)
    requires SearchOk(m, h, n, p, e - 1, seen) && 1 <= e <= |h| && e !in Gone(h, p) && h[e - 1].Return?
    ensures Expanded(m, h, n, Cfg(m, h, n, p), seen)
  {
    hide StateAfter, StepOf, Accepted, Closed, PathTried, RestExpanded, After;
    var c, id := Cfg(m, h, n, p), h[e - 1].id;
    CallBeforeReturn(h, n, e - 1);
    assert id !in Elements(p) && Elements(p) <= Below(n) - {id};
    SmallerSet(Elements(p), Below(n) - {id});
    forall b: nat | b < n ensures Covered(m, h, n, c, b, seen) {
      if CallAt(h, n, b) > e - 1 { assert Precedes(h, n, id, b); }
    }
  }

  /** What returned before an operation of the path was called is on the path before it. */
  lemma NoReturnBefore<S, I, O>(m: Model<S, I, O>, h: seq<Event<I, O>>, n: nat, p: seq<nat>)
    requires IsPartial(m, h, n, p) && p != []
    ensures NoReturn(h, p[..|p| - 1], CallAt(h, n, p[|p| - 1]) + 1)
  {
    var q, b := p[..|p| - 1], p[|p| - 1];
    forall j | 0 <= j < CallAt(h, n, b) && h[j].id !in q ensures h[j].Call? {
      CallBeforeReturn(h, n, j);
      if h[j].Return? { assert Precedes(h, n, h[j].id, p[|p| - 1]); }
    }
  }

  // ---------------------------------------------------------------- finitely many configurations

  ghost function Reach<S, I, O>(m: Model<S, I, O>, h: seq<Event<I, O>>, n: nat, k: nat): set<Config<S>>
    requires WellFormed(h, n)
  {
    if k == 0 then {Cfg(m, h, n, [])}
    else var r := Reach(m, h, n, k - 1); r + set c, b | c in r && b in Below(n) :: After(m, h, n, c, b)
  }

  lemma {:induction false} Reached<S, I, O>(m: Model<S, I, O>, h: seq<Event<I, O>>, n: nat, p: seq<nat>, k: nat)
    requires IsPartial(m, h, n, p) && |p| <= k
    ensures Cfg(m, h, n, p) in Reach(m, h, n, k)
    decreases k
  {
    if |p| < k {
      Reached(m, h, n, p, k - 1);
    } else if p != [] {
      LastMove(m, h, n, p);
      Reached(m, h, n, p[..|p| - 1], k - 1);
    }
  }

  lemma NewInReach<S, I, O>(m: Model<S, I, O>, h: seq<Event<I, O>>, n: nat, p: seq<nat>, seen: set<Config<S>>)
    requires IsPartial(m, h, n, p) && Cfg(m, h, n, p) !in seen
    ensures |Reach(m, h, n, n) - (seen + {Cfg(m, h, n, p)})| < |Reach(m, h, n, n) - seen|
  {
    DistinctSize(p);
    assert Elements(p) <= Below(n);
    SmallerSet(Elements(p), Below(n));
    Reached(m, h, n, p, n);
    var c, r := Cfg(m, h, n, p), Reach(m, h, n, n);
    assert r - (seen + {c}) == (r - seen) - {c};
  }

  // ---------------------------------------------------------------- one turn of the loop

  /** The scan stands at position `e` of the list, with everything before it tried. */
  ghost predicate At<S, I, O>(m: Model<S, I, O>, h: seq<Event<I, O>>, n: nat, p: seq<nat>, e: nat, seen: set<Config<S>>) {
    SearchOk(m, h, n, p, e - 1, seen) && NoReturn(h, p, e) && 1 <= e <= |h| + 1 && (e <= |h| ==> e !in Gone(h, p))
  }

  lemma AtStart<S, I, O>(m: Model<S, I, O>, h: seq<Event<I, O>>, n: nat)
    requires WellFormed(h, n)
    ensures At(m, h, n, [], L.Next(Gone(h, []), |h| + 1, 0), {})
  {
    hide SearchOk;
    SearchStarts(m, h, n);
    ScanOn(m, h, n, [], 0, {});
  }

  lemma AtSkip<S, I, O>(m: Model<S, I, O>, h: seq<Event<I, O>>, n: nat, p: seq<nat>, e: nat, seen: set<Config<S>>)
    requires At(m, h, n, p, e, seen) && WellFormed(h, n) && Ids(p, n) && e <= |h| && h[e - 1].Call? && h[e - 1].id < n
    requires Covered(m, h, n, Cfg(m, h, n, p), h[e - 1].id, seen)
    ensures At(m, h, n, p, L.Next(Gone(h, p), |h| + 1, e), seen)
  {
    hide SearchOk, Covered;
    ScanPast(m, h, n, p, e, seen);
    ScanOn(m, h, n, p, e, seen);
  }

  lemma AtPush<S, I, O>(m: Model<S, I, O>, h: seq<Event<I, O>>, n: nat, p: seq<nat>, e: nat, seen: set<Config<S>>)
    requires At(m, h, n, p, e, seen) && WellFormed(h, n) && Ids(p, n) && e <= |h| && h[e - 1].Call? && h[e - 1].id < n
    requires StepOf(m, h, n, StateAfter(m, h, n, p), h[e - 1].id).0
    requires After(m, h, n, Cfg(m, h, n, p), h[e - 1].id) !in seen
    ensures var b, q, c := h[e - 1].id, p + [h[e - 1].id], After(m, h, n, Cfg(m, h, n, p), h[e - 1].id);
            && b !in p && IsPartial(m, h, n, q) && Cfg(m, h, n, q) == c
            && At(m, h, n, q, L.Next(Gone(h, q), |h| + 1, 0), seen + {c})
            && |Reach(m, h, n, n) - (seen + {c})| < |Reach(m, h, n, n) - seen|
  {
    hide IsPartial, StepOf, Cfg, After, Available, Reach, PathTried, RestExpanded, Tried;
    var b := h[e - 1].id;
    CallAvailable(h, n, p, e);
    assert CallAt(h, n, b) == e - 1 by { CallBeforeReturn(h, n, e - 1); }
    Extend(m, h, n, p, b);
    SearchEnters(m, h, n, p, b, seen);
    NewInReach(m, h, n, p + [b], seen);
    ScanOn(m, h, n, p + [b], 0, seen + {Cfg(m, h, n, p + [b])});
  }

  lemma AtPop<S, I, O>(m: Model<S, I, O>, h: seq<Event<I, O>>, n: nat, p: seq<nat>, e: nat, seen: set<Config<S>>)
    requires At(m, h, n, p, e, seen) && p != [] && WellFormed(h, n) && Ids(p, n) && e <= |h| && h[e - 1].Return?
    ensures var q, b := p[..|p| - 1], p[|p| - 1];
            At(m, h, n, q, L.Next(Gone(h, q), |h| + 1, CallAt(h, n, b) + 1), seen)
  {
    hide SearchOk, Expanded, IsPartial, Gone;
    var q, b := p[..|p| - 1], p[|p| - 1];
    SearchShape(m, h, n, p, e - 1, seen);
    ReturnExpanded(m, h, n, p, e, seen);
    SearchLeaves(m, h, n, p, e - 1, seen);
    NoReturnBefore(m, h, n, p);
    ScanOn(m, h, n, q, CallAt(h, n, b) + 1, seen);
  }
}
