/**
 * The backtracking search of the checker, without its data structures: a path of operations
 * chosen so far, a scan position, and the configurations visited.
 */
module PorcupineSearch {
  import opened Linearizability

  /** The operations linearized and the state they lead to; a visited one is never entered again. */
  datatype Config<S> = Config(done: set<nat>, state: S)

  datatype Option<T> = None | Some(value: T)

  ghost function Cfg<S, I, O>(m: Model<S, I, O>, h: seq<Event<I, O>>, n: nat, p: seq<nat>): Config<S>
    requires WellFormed(h, n) && Ids(p, n)
  {
    Config(Elements(p), StateAfter(m, h, n, p))
  }

  /** An operation may come next if everything that returned before its call is done. */
  ghost predicate Available<I, O>(h: seq<Event<I, O>>, n: nat, done: set<nat>, b: nat)
    requires WellFormed(h, n)
  {
    b < n && b !in done && forall a: nat :: Precedes(h, n, a, b) ==> a in done
  }

  ghost function After<S, I, O>(m: Model<S, I, O>, h: seq<Event<I, O>>, n: nat, c: Config<S>, b: nat): Config<S>
    requires WellFormed(h, n) && b < n
  {
    Config(c.done + {b}, StepOf(m, h, n, c.state, b).1)
  }

  ghost predicate Covered<S, I, O>(m: Model<S, I, O>, h: seq<Event<I, O>>, n: nat, c: Config<S>, b: nat, seen: set<Config<S>>)
    requires WellFormed(h, n) && b < n
  {
    Available(h, n, c.done, b) && StepOf(m, h, n, c.state, b).0 ==> After(m, h, n, c, b) in seen
  }

  /** Every move whose call comes before `pos` leads to a visited configuration. */
  ghost predicate Tried<S, I, O>(m: Model<S, I, O>, h: seq<Event<I, O>>, n: nat, c: Config<S>, pos: int, seen: set<Config<S>>)
    requires WellFormed(h, n)
  {
    forall b: nat :: b < n && CallAt(h, n, b) < pos ==> Covered(m, h, n, c, b, seen)
  }

  /** Not complete, and every move leads to a visited configuration. */
  ghost predicate Expanded<S, I, O>(m: Model<S, I, O>, h: seq<Event<I, O>>, n: nat, c: Config<S>, seen: set<Config<S>>)
    requires WellFormed(h, n)
  {
    |c.done| < n && forall b: nat :: b < n ==> Covered(m, h, n, c, b, seen)
  }

  ghost predicate OnPath<S, I, O>(m: Model<S, I, O>, h: seq<Event<I, O>>, n: nat, p: seq<nat>, c: Config<S>)
    requires WellFormed(h, n) && Ids(p, n)
  {
    exists k :: 0 <= k <= |p| && c == Cfg(m, h, n, p[..k])
  }

  ghost predicate PathTried<S, I, O>(m: Model<S, I, O>, h: seq<Event<I, O>>, n: nat, p: seq<nat>, seen: set<Config<S>>)
    requires WellFormed(h, n) && Ids(p, n)
  {
    forall k :: 0 <= k < |p| ==> StepTried(m, h, n, p, k, seen)
  }

  ghost predicate StepTried<S, I, O>(m: Model<S, I, O>, h: seq<Event<I, O>>, n: nat, p: seq<nat>, k: nat, seen: set<Config<S>>)
    requires WellFormed(h, n) && Ids(p, n) && k < |p|
  {
    Tried(m, h, n, Cfg(m, h, n, p[..k]), CallAt(h, n, p[k]), seen) && Cfg(m, h, n, p[..k + 1]) in seen
  }

  ghost predicate RestExpanded<S, I, O>(m: Model<S, I, O>, h: seq<Event<I, O>>, n: nat, p: seq<nat>, seen: set<Config<S>>)
    requires WellFormed(h, n) && Ids(p, n)
  {
    forall c :: c in seen + {Cfg(m, h, n, [])} ==> OnPath(m, h, n, p, c) || Expanded(m, h, n, c, seen)
  }

  /** The state of the search: the path, the position of the scan, and what was visited. */
  ghost predicate SearchOk<S, I, O>(m: Model<S, I, O>, h: seq<Event<I, O>>, n: nat, p: seq<nat>, pos: int, seen: set<Config<S>>) {
    && IsPartial(m, h, n, p)
    && PathTried(m, h, n, p, seen)
    && RestExpanded(m, h, n, p, seen)
    && Tried(m, h, n, Cfg(m, h, n, p), pos, seen)
  }

  // ---------------------------------------------------------------- partial linearizations move by move

  lemma ElementsSplit(p: seq<nat>, b: nat)
    ensures Elements(p + [b]) == Elements(p) + {b}
  {
    assert forall x :: x in p + [b] <==> x in p || x == b;
  }

  /** An available accepted operation extends a legal start. */
  lemma Extend<S, I, O>(m: Model<S, I, O>, h: seq<Event<I, O>>, n: nat, p: seq<nat>, b: nat)
    requires IsPartial(m, h, n, p) && Available(h, n, Elements(p), b)
    requires StepOf(m, h, n, StateAfter(m, h, n, p), b).0
    ensures IsPartial(m, h, n, p + [b]) && Cfg(m, h, n, p + [b]) == After(m, h, n, Cfg(m, h, n, p), b)
  {
    hide WellFormed, Precedes, StepOf, Closed;
    var q := p + [b];
    ElementsSplit(p, b);
    assert q[..|q| - 1] == p && q[|q| - 1] == b;
    ExtendClosed(h, n, p, b);
  }

  lemma ExtendClosed<I, O>(h: seq<Event<I, O>>, n: nat, p: seq<nat>, b: nat)
    requires WellFormed(h, n) && Closed(h, n, p) && Available(h, n, Elements(p), b)
    ensures Closed(h, n, p + [b])
  {
    hide WellFormed, Precedes;
    var q := p + [b];
    forall i, a: nat | 0 <= i < |q| && Precedes(h, n, a, q[i]) ensures a in q[..i] {
      if i < |p| {
        assert q[..i] == p[..i];
      } else {
        assert a in Elements(p);
      }
    }
  }

  lemma PrefixAccepted<S, I, O>(m: Model<S, I, O>, h: seq<Event<I, O>>, n: nat, p: seq<nat>, k: nat)
    requires WellFormed(h, n) && Ids(p, n) && Accepted(m, h, n, p) && k <= |p|
    ensures Accepted(m, h, n, p[..k])
  {
    if k < |p| {
      PrefixAccepted(m, h, n, p[..|p| - 1], k);
      assert p[..|p| - 1][..k] == p[..k];
    } else {
      assert p[..k] == p;
    }
  }

  lemma PartialPrefix<S, I, O>(m: Model<S, I, O>, h: seq<Event<I, O>>, n: nat, p: seq<nat>, k: nat)
    requires IsPartial(m, h, n, p) && k <= |p|
    ensures IsPartial(m, h, n, p[..k])
  {
    PrefixAccepted(m, h, n, p, k);
    forall i, a: nat | 0 <= i < k && Precedes(h, n, a, p[..k][i]) ensures a in p[..k][..i] {
      assert p[..k][..i] == p[..i];
    }
  }

  /** The last operation of a legal start was available and accepted. */
  lemma LastMove<S, I, O>(m: Model<S, I, O>, h: seq<Event<I, O>>, n: nat, p: seq<nat>)
    requires IsPartial(m, h, n, p) && p != []
    ensures var q, b := p[..|p| - 1], p[|p| - 1];
            && IsPartial(m, h, n, q) && Available(h, n, Elements(q), b)
            && StepOf(m, h, n, StateAfter(m, h, n, q), b).0
            && Cfg(m, h, n, p) == After(m, h, n, Cfg(m, h, n, q), b)
  {
    var q, b := p[..|p| - 1], p[|p| - 1];
    PartialPrefix(m, h, n, p, |p| - 1);
    assert p == q + [b];
    ElementsSplit(q, b);
    forall a: nat | Precedes(h, n, a, b) ensures a in Elements(q) {
      assert a in p[..|p| - 1];
    }
    assert b !in q;
  }

  // ---------------------------------------------------------------- the moves of the search

  lemma SearchStarts<S, I, O>(m: Model<S, I, O>, h: seq<Event<I, O>>, n: nat)
    requires WellFormed(h, n)
    ensures SearchOk(m, h, n, [], 0, {})
  {
    assert OnPath(m, h, n, [], Cfg(m, h, n, [])) by {
      var p: seq<nat> := [];
      assert p[..0] == p;
    }
  }

  /** Looking past a call that is not worth entering, or past nothing at all. */
  lemma SearchSkips<S, I, O>(m: Model<S, I, O>, h: seq<Event<I, O>>, n: nat, p: seq<nat>, pos: int, next: int, seen: set<Config<S>>)
    requires SearchOk(m, h, n, p, pos, seen)
    requires forall b: nat :: b < n && pos <= CallAt(h, n, b) < next ==> Covered(m, h, n, Cfg(m, h, n, p), b, seen)
    ensures SearchOk(m, h, n, p, next, seen)
  {
  }

  lemma MoreSeen<S, I, O>(m: Model<S, I, O>, h: seq<Event<I, O>>, n: nat, c: Config<S>, pos: int, seen: set<Config<S>>, d: Config<S>)
    requires WellFormed(h, n)
    ensures Tried(m, h, n, c, pos, seen) ==> Tried(m, h, n, c, pos, seen + {d})
    ensures Expanded(m, h, n, c, seen) ==> Expanded(m, h, n, c, seen + {d})
  {
    if Tried(m, h, n, c, pos, seen) {
      forall b: nat | b < n && CallAt(h, n, b) < pos ensures Covered(m, h, n, c, b, seen + {d}) {
        assert Covered(m, h, n, c, b, seen);
      }
    }
    if Expanded(m, h, n, c, seen) {
      forall b: nat | b < n ensures Covered(m, h, n, c, b, seen + {d}) {
        assert Covered(m, h, n, c, b, seen);
      }
    }
  }

  lemma PathGrows<S, I, O>(m: Model<S, I, O>, h: seq<Event<I, O>>, n: nat, p: seq<nat>, b: nat, c: Config<S>)
    requires WellFormed(h, n) && Ids(p, n) && b < n && OnPath(m, h, n, p, c)
    ensures Ids(p + [b], n) && OnPath(m, h, n, p + [b], c)
  {
    var k :| 0 <= k <= |p| && c == Cfg(m, h, n, p[..k]);
    assert (p + [b])[..k] == p[..k];
  }

  lemma EnterPath<S, I, O>(m: Model<S, I, O>, h: seq<Event<I, O>>, n: nat, p: seq<nat>, b: nat, seen: set<Config<S>>)
    requires WellFormed(h, n) && Ids(p, n) && b < n && Ids(p + [b], n) && PathTried(m, h, n, p, seen)
    requires Tried(m, h, n, Cfg(m, h, n, p), CallAt(h, n, b), seen)
    ensures PathTried(m, h, n, p + [b], seen + {Cfg(m, h, n, p + [b])})
  {
    hide Cfg, Tried, CallAt, WellFormed;
    var q, d := p + [b], Cfg(m, h, n, p + [b]);
    forall k | 0 <= k < |q| ensures StepTried(m, h, n, q, k, seen + {d}) {
      if k < |p| {
        assert q[..k] == p[..k] && q[..k + 1] == p[..k + 1];
        assert StepTried(m, h, n, p, k, seen);
        MoreSeen(m, h, n, Cfg(m, h, n, p[..k]), CallAt(h, n, p[k]), seen, d);
      } else {
        assert q[..k] == p && q[..k + 1] == q;
        MoreSeen(m, h, n, Cfg(m, h, n, p), CallAt(h, n, b), seen, d);
      }
    }
  }

  lemma EnterRest<S, I, O>(m: Model<S, I, O>, h: seq<Event<I, O>>, n: nat, p: seq<nat>, b: nat, seen: set<Config<S>>)
    requires WellFormed(h, n) && Ids(p, n) && b < n && Ids(p + [b], n) && RestExpanded(m, h, n, p, seen)
    ensures RestExpanded(m, h, n, p + [b], seen + {Cfg(m, h, n, p + [b])})
  {
    hide Cfg, Expanded, CallAt, WellFormed;
    var q, d := p + [b], Cfg(m, h, n, p + [b]);
    forall c | c in (seen + {d}) + {Cfg(m, h, n, [])}
      ensures OnPath(m, h, n, q, c) || Expanded(m, h, n, c, seen + {d})
    {
      if c in seen + {Cfg(m, h, n, [])} {
        if OnPath(m, h, n, p, c) { PathGrows(m, h, n, p, b, c); } else { MoreSeen(m, h, n, c, 0, seen, d); }
      } else {
        assert q[..|q|] == q;
        assert c == Cfg(m, h, n, q[..|q|]);
      }
    }
  }

  /** Entering an unvisited configuration. */
  lemma SearchEnters<S, I, O>(m: Model<S, I, O>, h: seq<Event<I, O>>, n: nat, p: seq<nat>, b: nat, seen: set<Config<S>>)
    requires IsPartial(m, h, n, p) && Available(h, n, Elements(p), b)
    requires StepOf(m, h, n, StateAfter(m, h, n, p), b).0
    requires SearchOk(m, h, n, p, CallAt(h, n, b), seen)
    ensures SearchOk(m, h, n, p + [b], 0, seen + {After(m, h, n, Cfg(m, h, n, p), b)})
  {
    hide PathTried, RestExpanded, Available, StepOf, StateAfter, Accepted, Closed;
    Extend(m, h, n, p, b);
    EnterPath(m, h, n, p, b, seen);
    EnterRest(m, h, n, p, b, seen);
  }

  lemma LeavePath<S, I, O>(m: Model<S, I, O>, h: seq<Event<I, O>>, n: nat, p: seq<nat>, seen: set<Config<S>>)
    requires WellFormed(h, n) && Ids(p, n) && p != [] && PathTried(m, h, n, p, seen)
    ensures Ids(p[..|p| - 1], n) && PathTried(m, h, n, p[..|p| - 1], seen)
    ensures Tried(m, h, n, Cfg(m, h, n, p[..|p| - 1]), CallAt(h, n, p[|p| - 1]), seen) && Cfg(m, h, n, p) in seen
  {
    hide Cfg, Tried, CallAt, WellFormed;
    var q := p[..|p| - 1];
    assert p[..|q| + 1] == p;
    assert StepTried(m, h, n, p, |q|, seen);
    forall k | 0 <= k < |q| ensures StepTried(m, h, n, q, k, seen) {
      assert q[..k] == p[..k] && q[..k + 1] == p[..k + 1];
      assert StepTried(m, h, n, p, k, seen);
    }
  }

  lemma LeaveRest<S, I, O>(m: Model<S, I, O>, h: seq<Event<I, O>>, n: nat, p: seq<nat>, seen: set<Config<S>>)
    requires WellFormed(h, n) && Ids(p, n) && p != [] && Ids(p[..|p| - 1], n) && RestExpanded(m, h, n, p, seen)
    requires Expanded(m, h, n, Cfg(m, h, n, p), seen)
    ensures RestExpanded(m, h, n, p[..|p| - 1], seen)
  {
    hide Cfg, Expanded, WellFormed;
    var q := p[..|p| - 1];
    assert p[..|p|] == p;
    forall c | c in seen + {Cfg(m, h, n, [])} ensures OnPath(m, h, n, q, c) || Expanded(m, h, n, c, seen) {
      if OnPath(m, h, n, p, c) {
        var k :| 0 <= k <= |p| && c == Cfg(m, h, n, p[..k]);
        if k < |p| { assert q[..k] == p[..k]; }
      }
    }
  }

  lemma LeaveTried<S, I, O>(m: Model<S, I, O>, h: seq<Event<I, O>>, n: nat, c: Config<S>, b: nat, seen: set<Config<S>>)
    requires WellFormed(h, n) && b < n && Tried(m, h, n, c, CallAt(h, n, b), seen) && After(m, h, n, c, b) in seen
    ensures Tried(m, h, n, c, CallAt(h, n, b) + 1, seen)
  {
    forall a: nat | a < n && CallAt(h, n, a) < CallAt(h, n, b) + 1 ensures Covered(m, h, n, c, a, seen) {
      if CallAt(h, n, a) == CallAt(h, n, b) { assert a == b; }
    }
  }

  /** Leaving a configuration with nothing left to try. */
  lemma SearchLeaves<S, I, O>(m: Model<S, I, O>, h: seq<Event<I, O>>, n: nat, p: seq<nat>, pos: int, seen: set<Config<S>>)
    requires SearchOk(m, h, n, p, pos, seen) && p != []
    requires Expanded(m, h, n, Cfg(m, h, n, p), seen)
    ensures SearchOk(m, h, n, p[..|p| - 1], CallAt(h, n, p[|p| - 1]) + 1, seen)
  {
    hide PathTried, RestExpanded, Tried, Expanded, Cfg, Available, StepOf, StateAfter, Accepted, Closed, After;
    LastMove(m, h, n, p);
    LeavePath(m, h, n, p, seen);
    LeaveRest(m, h, n, p, seen);
    LeaveTried(m, h, n, Cfg(m, h, n, p[..|p| - 1]), p[|p| - 1], seen);
  }

  // ---------------------------------------------------------------- the verdict

  /** With everything expanded, every legal start leads to a visited configuration. */
  lemma {:induction false} AllVisited<S, I, O>(m: Model<S, I, O>, h: seq<Event<I, O>>, n: nat, seen: set<Config<S>>, q: seq<nat>)
    requires WellFormed(h, n) && IsPartial(m, h, n, q)
    requires forall c :: c in seen + {Cfg(m, h, n, [])} ==> Expanded(m, h, n, c, seen)
    ensures Cfg(m, h, n, q) in seen + {Cfg(m, h, n, [])} && |q| < n
    ensures q != [] ==> Cfg(m, h, n, q) in seen
  {
    DistinctSize(q);
    if q != [] {
      LastMove(m, h, n, q);
      var q', b := q[..|q| - 1], q[|q| - 1];
      AllVisited(m, h, n, seen, q');
      assert Covered(m, h, n, Cfg(m, h, n, q'), b, seen);
    }
  }

  lemma RootExpanded<S, I, O>(m: Model<S, I, O>, h: seq<Event<I, O>>, n: nat, pos: int, seen: set<Config<S>>)
    requires SearchOk(m, h, n, [], pos, seen) && Expanded(m, h, n, Cfg(m, h, n, []), seen)
    ensures forall c :: c in seen + {Cfg(m, h, n, [])} ==> Expanded(m, h, n, c, seen)
  {
    forall c | c in seen + {Cfg(m, h, n, [])} ensures Expanded(m, h, n, c, seen) {
      RootOnly(m, h, n, c);
    }
  }

  lemma RootOnly<S, I, O>(m: Model<S, I, O>, h: seq<Event<I, O>>, n: nat, c: Config<S>)
    requires WellFormed(h, n)
    ensures OnPath(m, h, n, [], c) ==> c == Cfg(m, h, n, [])
  {
    var p: seq<nat> := [];
    if OnPath(m, h, n, p, c) {
      var k :| 0 <= k <= |p| && c == Cfg(m, h, n, p[..k]);
      assert p[..k] == p;
    }
  }

  /** A search that backs out of the empty path has refuted every linearization. */
  lemma NotLinearizable<S, I, O>(m: Model<S, I, O>, h: seq<Event<I, O>>, n: nat, pos: int, seen: set<Config<S>>)
    requires SearchOk(m, h, n, [], pos, seen) && Expanded(m, h, n, Cfg(m, h, n, []), seen)
    ensures !Linearizable(m, h, n)
  {
    RootExpanded(m, h, n, pos, seen);
    forall p ensures !IsLinearization(m, h, n, p) {
      WholePartial(m, h, n, p);
      if IsPartial(m, h, n, p) { AllVisited(m, h, n, seen, p); }
    }
  }

  // ---------------------------------------------------------------- the longest partial linearizations

  /** What is on record for an operation is a legal start that contains it. */
  ghost predicate Sound<S, I, O>(m: Model<S, I, O>, h: seq<Event<I, O>>, n: nat, longest: seq<Option<seq<nat>>>) {
    |longest| == n && forall id :: 0 <= id < n && longest[id].Some? ==>
      IsPartial(m, h, n, longest[id].value) && id in longest[id].value
  }

  predicate Reaches(longest: seq<Option<seq<nat>>>, id: nat, size: nat) {
    id < |longest| && longest[id].Some? && |longest[id].value| >= size
  }

  /** Every configuration that was left is reflected in the record of each of its operations. */
  ghost predicate Recorded<S, I, O>(m: Model<S, I, O>, h: seq<Event<I, O>>, n: nat, p: seq<nat>, seen: set<Config<S>>, longest: seq<Option<seq<nat>>>)
    requires WellFormed(h, n) && Ids(p, n)
  {
    forall c, id {:trigger OnPath(m, h, n, p, c), id in c.done} ::
      c in seen && !OnPath(m, h, n, p, c) && id in c.done ==> Reaches(longest, id, |c.done|)
  }

  /** No legal start that contains the operation is longer than what is on record for it. */
  lemma LongestIsLongest<S, I, O>(m: Model<S, I, O>, h: seq<Event<I, O>>, n: nat, pos: int, seen: set<Config<S>>,
                                  longest: seq<Option<seq<nat>>>, q: seq<nat>, id: nat)
    requires SearchOk(m, h, n, [], pos, seen) && Expanded(m, h, n, Cfg(m, h, n, []), seen)
    requires Recorded(m, h, n, [], seen, longest)
    requires IsPartial(m, h, n, q) && id in q
    ensures Reaches(longest, id, |q|)
  {
    RootExpanded(m, h, n, pos, seen);
    AllVisited(m, h, n, seen, q);
    DistinctSize(q);
    var c := Cfg(m, h, n, q);
    RootOnly(m, h, n, c);
    assert id in c.done;
  }
}
