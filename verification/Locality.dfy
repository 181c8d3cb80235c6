/**
 * Linearizability is local: operations on a map of independent objects are linearizable exactly
 * when those on each object are.
 */
module Locality {
  import opened Linearizability
  import opened PorcupineOperations

  // ---------------------------------------------------------------- parts of a list of operations

  function Part<I, O>(ops: seq<Operation<I, O>>, ids: seq<nat>): (r: seq<Operation<I, O>>)
    requires Ids(ids, |ops|)
    ensures |r| == |ids| && forall i :: 0 <= i < |ids| ==> r[i] == ops[ids[i]]
  {
    seq(|ids|, i requires 0 <= i < |ids| => ops[ids[i]])
  }

  function Renamed(ids: seq<nat>, p: seq<nat>): (r: seq<nat>)
    requires Ids(p, |ids|)
    ensures |r| == |p| && forall i :: 0 <= i < |p| ==> r[i] == ids[p[i]]
  {
    seq(|p|, i requires 0 <= i < |p| => ids[p[i]])
  }

  /** An order of just the operations in `s`. */
  ghost predicate IsOrderOf<S, I, O>(m: Model<S, I, O>, ops: seq<Operation<I, O>>, s: set<nat>, q: seq<nat>) {
    Ids(q, |ops|) && Distinct(q) && Elements(q) == s && InTime(ops, q) && Explains(m, ops, q)
  }

  lemma {:induction false} RenamedRun<S, I, O>(m: Model<S, I, O>, ops: seq<Operation<I, O>>, ids: seq<nat>, p: seq<nat>)
    requires Ids(ids, |ops|) && Ids(p, |ids|)
    ensures Ids(Renamed(ids, p), |ops|)
    ensures StateOf(m, Part(ops, ids), p) == StateOf(m, ops, Renamed(ids, p))
    ensures Explains(m, Part(ops, ids), p) <==> Explains(m, ops, Renamed(ids, p))
  {
    if p != [] {
      RenamedRun(m, ops, ids, p[..|p| - 1]);
      assert Renamed(ids, p[..|p| - 1]) == Renamed(ids, p)[..|p| - 1];
    }
  }

  lemma RenamedAll(ids: seq<nat>, p: seq<nat>)
    requires Ids(p, |ids|) && Elements(p) == Below(|ids|)
    ensures Elements(Renamed(ids, p)) == Elements(ids)
  {
    var q := Renamed(ids, p);
    forall x ensures x in q <==> x in ids {
      if x in ids {
        var i :| 0 <= i < |ids| && ids[i] == x;
        assert i in Elements(p);
        var j :| 0 <= j < |p| && p[j] == i;
        assert q[j] == x;
      }
    }
  }

  /** An order of a part, told by the numbers its operations have in the whole. */
  lemma PartOrder<S, I, O>(m: Model<S, I, O>, ops: seq<Operation<I, O>>, ids: seq<nat>, p: seq<nat>)
    requires Ids(ids, |ops|) && Distinct(ids) && IsOrder(m, Part(ops, ids), p)
    ensures IsOrderOf(m, ops, Elements(ids), Renamed(ids, p))
  {
    hide Explains;
    RenamedRun(m, ops, ids, p);
    assert Elements(Renamed(ids, p)) == Elements(ids) by {
      DistinctSize(p);
      FullSet(Elements(p), Below(|ids|));
      RenamedAll(ids, p);
    }
  }

  ghost function Places(ids: seq<nat>, q: seq<nat>): (p: seq<nat>)
    requires forall x :: x in q ==> x in ids
    ensures Ids(p, |ids|) && Renamed(ids, p) == q
  {
    if q == [] then []
    else
      var x := q[|q| - 1];
      assert x in ids;
      var i: nat :| i < |ids| && ids[i] == x;
      Places(ids, q[..|q| - 1]) + [i]
  }

  lemma RenamedBack<I, O>(ops: seq<Operation<I, O>>, ids: seq<nat>, p: seq<nat>)
    requires Ids(ids, |ops|) && Ids(p, |ids|) && Ids(Renamed(ids, p), |ops|)
    requires Distinct(Renamed(ids, p)) && InTime(ops, Renamed(ids, p))
    ensures Distinct(p) && InTime(Part(ops, ids), p)
  {
    var q := Renamed(ids, p);
    forall i, j | 0 <= i < j < |p| ensures p[i] != p[j] { assert q[i] != q[j]; }
    forall i, j | 0 <= i < j < |p| ensures !(Part(ops, ids)[p[j]].ret < Part(ops, ids)[p[i]].call) {
      assert !(ops[q[j]].ret < ops[q[i]].call);
    }
  }

  lemma WholeOrder<S, I, O>(m: Model<S, I, O>, ops: seq<Operation<I, O>>, ids: seq<nat>, q: seq<nat>)
    requires Ids(ids, |ops|) && Distinct(ids) && IsOrderOf(m, ops, Elements(ids), q)
    ensures LinearizableOps(m, Part(ops, ids))
  {
    hide Explains, InTime, Distinct, Renamed;
    assert forall x :: x in q ==> x in Elements(q);
    var p := Places(ids, q);
    RenamedRun(m, ops, ids, p);
    RenamedBack(ops, ids, p);
    DistinctSize(q);
    DistinctSize(ids);
    assert IsOrder(m, Part(ops, ids), p);
  }

  ghost predicate LinearizableIn<S, I, O>(m: Model<S, I, O>, ops: seq<Operation<I, O>>, s: set<nat>) {
    exists q :: IsOrderOf(m, ops, s, q)
  }

  lemma PartLinearizable<S, I, O>(m: Model<S, I, O>, ops: seq<Operation<I, O>>, ids: seq<nat>)
    requires Ids(ids, |ops|) && Distinct(ids)
    ensures LinearizableOps(m, Part(ops, ids)) <==> LinearizableIn(m, ops, Elements(ids))
  {
    hide IsOrder, IsOrderOf, Elements, Part;
    if LinearizableOps(m, Part(ops, ids)) {
      var p :| IsOrder(m, Part(ops, ids), p);
      assert Ids(p, |ids|) by { OrderIds(m, Part(ops, ids), p); }
      PartOrder(m, ops, ids, p);
    }
    if LinearizableIn(m, ops, Elements(ids)) {
      var q :| IsOrderOf(m, ops, Elements(ids), q);
      WholeOrder(m, ops, ids, q);
    }
  }

  lemma OrderIds<S, I, O>(m: Model<S, I, O>, ops: seq<Operation<I, O>>, p: seq<nat>)
    requires IsOrder(m, ops, p)
    ensures Ids(p, |ops|)
  {
  }

  // ---------------------------------------------------------------- one object of many

  /** The operations of `r` on object `k`, in the order of `r`. */
  ghost function On<K, I, O>(key: I -> K, ops: seq<Operation<I, O>>, r: seq<nat>, k: K): (q: seq<nat>)
    requires Ids(r, |ops|)
    ensures Ids(q, |ops|) && forall x :: x in q <==> x in r && key(ops[x].input) == k
  {
    if r == [] then []
    else
      var rest, x := On(key, ops, r[..|r| - 1], k), r[|r| - 1];
      assert r == r[..|r| - 1] + [x];
      if key(ops[x].input) == k then rest + [x] else rest
  }

  /** A step of the whole is a step of its own object, and no step of any other. */
  ghost predicate StepProjects<W, K, S, I, O>(whole: Model<W, I, O>, m: Model<S, I, O>, key: I -> K, view: (W, K) -> S, w: W, i: I, o: O, k: K) {
    && whole.step(w, i, o).0 == m.step(view(w, key(i)), i, o).0
    && view(whole.step(w, i, o).1, k) == if k == key(i) then m.step(view(w, k), i, o).1 else view(w, k)
  }

  /** The state of the whole, seen at object `k`, moves as the object's own state does. */
  ghost predicate Projects<W(!new), K(!new), S, I(!new), O(!new)>(whole: Model<W, I, O>, m: Model<S, I, O>, key: I -> K, view: (W, K) -> S) {
    && (forall k :: view(whole.init, k) == m.init)
    && forall w, i, o, k :: StepProjects(whole, m, key, view, w, i, o, k)
  }

  lemma {:induction false} ObjectState<W(!new), K(!new), S, I(!new), O(!new)>(
      whole: Model<W, I, O>, m: Model<S, I, O>, key: I -> K, view: (W, K) -> S, ops: seq<Operation<I, O>>, r: seq<nat>, k: K)
    requires Projects(whole, m, key, view) && Ids(r, |ops|)
    ensures view(StateOf(whole, ops, r), k) == StateOf(m, ops, On(key, ops, r, k))
  {
    if r != [] {
      ObjectState(whole, m, key, view, ops, r[..|r| - 1], k);
      var rest, x := On(key, ops, r[..|r| - 1], k), r[|r| - 1];
      assert (rest + [x])[..|rest|] == rest;
      assert StepProjects(whole, m, key, view, StateOf(whole, ops, r[..|r| - 1]), ops[x].input, ops[x].output, k);
    }
  }

  lemma ExplainsLast<S, I, O>(m: Model<S, I, O>, ops: seq<Operation<I, O>>, q: seq<nat>, x: nat)
    requires Ids(q, |ops|) && x < |ops|
    ensures Ids(q + [x], |ops|)
    ensures Explains(m, ops, q + [x]) <==> Explains(m, ops, q) && m.step(StateOf(m, ops, q), ops[x].input, ops[x].output).0
  {
    assert (q + [x])[..|q|] == q;
  }

  lemma OnLast<K, I, O>(key: I -> K, ops: seq<Operation<I, O>>, r: seq<nat>, x: nat, k: K)
    requires Ids(r, |ops|) && x < |ops|
    ensures Ids(r + [x], |ops|)
    ensures On(key, ops, r + [x], k) == if key(ops[x].input) == k then On(key, ops, r, k) + [x] else On(key, ops, r, k)
  {
    assert (r + [x])[..|r|] == r;
  }

  lemma ObjectStep<W(!new), K(!new), S, I(!new), O(!new)>(
      whole: Model<W, I, O>, m: Model<S, I, O>, key: I -> K, view: (W, K) -> S, ops: seq<Operation<I, O>>, r: seq<nat>, x: nat, k: K)
    requires Projects(whole, m, key, view) && Ids(r, |ops|) && x < |ops| && Ids(r + [x], |ops|)
    ensures Explains(m, ops, On(key, ops, r + [x], k)) <==>
            Explains(m, ops, On(key, ops, r, k)) &&
            (k == key(ops[x].input) ==> whole.step(StateOf(whole, ops, r), ops[x].input, ops[x].output).0)
  {
    hide Explains, On, StateOf;
    OnLast(key, ops, r, x, k);
    ExplainsLast(m, ops, On(key, ops, r, k), x);
    ObjectState(whole, m, key, view, ops, r, k);
    assert StepProjects(whole, m, key, view, StateOf(whole, ops, r), ops[x].input, ops[x].output, k);
  }

  ghost predicate AllExplain<K(!new), S, I, O>(m: Model<S, I, O>, key: I -> K, ops: seq<Operation<I, O>>, r: seq<nat>)
    requires Ids(r, |ops|)
  {
    forall k :: Explains(m, ops, On(key, ops, r, k))
  }

  /** The whole accepts an order exactly when every object accepts its share of it. */
  lemma {:induction false} ObjectsExplain<W(!new), K(!new), S, I(!new), O(!new)>(
      whole: Model<W, I, O>, m: Model<S, I, O>, key: I -> K, view: (W, K) -> S, ops: seq<Operation<I, O>>, r: seq<nat>)
    requires Projects(whole, m, key, view) && Ids(r, |ops|)
    ensures Explains(whole, ops, r) <==> AllExplain(m, key, ops, r)
  {
    if r != [] {
      var init, x := r[..|r| - 1], r[|r| - 1];
      assert r == init + [x];
      ObjectsExplain(whole, m, key, view, ops, init);
      GrowExplains(whole, m, key, view, ops, init, x);
      ExplainsLast(whole, ops, init, x);
    }
  }

  lemma GrowExplains<W(!new), K(!new), S, I(!new), O(!new)>(
      whole: Model<W, I, O>, m: Model<S, I, O>, key: I -> K, view: (W, K) -> S, ops: seq<Operation<I, O>>, r: seq<nat>, x: nat)
    requires Projects(whole, m, key, view) && Ids(r, |ops|) && x < |ops| && Ids(r + [x], |ops|)
    ensures AllExplain(m, key, ops, r + [x]) <==>
            AllExplain(m, key, ops, r) && whole.step(StateOf(whole, ops, r), ops[x].input, ops[x].output).0
  {
    hide Explains, On, StateOf, Projects;
    var step := whole.step(StateOf(whole, ops, r), ops[x].input, ops[x].output).0;
    if AllExplain(m, key, ops, r) && step {
      forall k ensures Explains(m, ops, On(key, ops, r + [x], k)) { ObjectStep(whole, m, key, view, ops, r, x, k); }
    }
    if AllExplain(m, key, ops, r + [x]) {
      forall k ensures Explains(m, ops, On(key, ops, r, k)) {
        ObjectStep(whole, m, key, view, ops, r, x, k);
        assert Explains(m, ops, On(key, ops, r + [x], k));
      }
      ObjectStep(whole, m, key, view, ops, r, x, key(ops[x].input));
    }
  }

  // ---------------------------------------------------------------- from the whole to one object

  lemma InTimeLast<I, O>(ops: seq<Operation<I, O>>, q: seq<nat>, x: nat)
    requires Ids(q, |ops|) && x < |ops| && Ids(q + [x], |ops|)
    ensures InTime(ops, q + [x]) <==> InTime(ops, q) && forall y :: y in q ==> !(ops[x].ret < ops[y].call)
  {
    var r := q + [x];
    if InTime(ops, r) {
      forall y | y in q ensures !(ops[x].ret < ops[y].call) {
        var i :| 0 <= i < |q| && q[i] == y;
        assert r[i] == y && r[|q|] == x;
      }
      forall i, j | 0 <= i < j < |q| ensures !(ops[q[j]].ret < ops[q[i]].call) { assert r[i] == q[i] && r[j] == q[j]; }
    }
    if InTime(ops, q) && forall y :: y in q ==> !(ops[x].ret < ops[y].call) {
      forall i, j | 0 <= i < j < |r| ensures !(ops[r[j]].ret < ops[r[i]].call) {
        assert r[i] == q[i] && r[i] in q;
        if j < |q| { assert r[j] == q[j]; }
      }
    }
  }

  lemma DistinctLast(q: seq<nat>, x: nat)
    ensures Distinct(q + [x]) <==> Distinct(q) && x !in q
  {
    var r := q + [x];
    if Distinct(r) {
      forall i, j | 0 <= i < j < |q| ensures q[i] != q[j] { assert r[i] == q[i] && r[j] == q[j]; }
      forall i | 0 <= i < |q| ensures q[i] != x { assert r[i] == q[i] && r[|q|] == x; }
    }
  }

  lemma {:induction false} OnKeeps<K, I, O>(key: I -> K, ops: seq<Operation<I, O>>, r: seq<nat>, k: K)
    requires Ids(r, |ops|) && InTime(ops, r) && Distinct(r)
    ensures InTime(ops, On(key, ops, r, k)) && Distinct(On(key, ops, r, k))
  {
    hide InTime, Distinct;
    if r == [] {
      assert InTime(ops, []) && Distinct([]) by { NothingOutOfOrder(ops); }
    } else {
      var init, x := r[..|r| - 1], r[|r| - 1];
      assert r == init + [x];
      InTimeLast(ops, init, x);
      DistinctLast(init, x);
      OnKeeps(key, ops, init, k);
      OnLast(key, ops, init, x, k);
      InTimeLast(ops, On(key, ops, init, k), x);
      DistinctLast(On(key, ops, init, k), x);
    }
  }

  lemma NothingOutOfOrder<I, O>(ops: seq<Operation<I, O>>)
    ensures InTime(ops, []) && Distinct([])
  {
  }

  ghost function IdsOn<K, I, O>(key: I -> K, ops: seq<Operation<I, O>>, k: K): set<nat> {
    set x | x in Below(|ops|) && key(ops[x].input) == k
  }

  lemma ToObject<W(!new), K(!new), S, I(!new), O(!new)>(
      whole: Model<W, I, O>, m: Model<S, I, O>, key: I -> K, view: (W, K) -> S, ops: seq<Operation<I, O>>, k: K)
    requires Projects(whole, m, key, view) && LinearizableOps(whole, ops)
    ensures LinearizableIn(m, ops, IdsOn(key, ops, k))
  {
    hide Explains, InTime, Projects, On;
    var p :| IsOrder(whole, ops, p);
    OnKeeps(key, ops, p, k);
    ObjectsExplain(whole, m, key, view, ops, p);
    DistinctSize(p);
    FullSet(Elements(p), Below(|ops|));
    var q := On(key, ops, p, k);
    assert forall x :: x in p <==> x in Elements(p);
    assert Elements(q) == IdsOn(key, ops, k);
    assert IsOrderOf(m, ops, IdsOn(key, ops, k), q);
  }

  // ---------------------------------------------------------------- from the objects to the whole

  /** An operation with the moment at which it takes effect. */
  datatype Stamped = Stamped(id: nat, time: int)

  ghost predicate StampOk<I, O>(ops: seq<Operation<I, O>>, s: Stamped) {
    s.id < |ops| && ops[s.id].call <= s.time <= ops[s.id].ret
  }

  /** Each operation takes effect between its call and its return, one after the other. */
  ghost predicate Stamps<I, O>(ops: seq<Operation<I, O>>, t: seq<Stamped>) {
    t != [] ==>
      var last := t[|t| - 1];
      Stamps(ops, t[..|t| - 1]) && StampOk(ops, last) && forall s :: s in t[..|t| - 1] ==> s.time <= last.time
  }

  ghost function Order(t: seq<Stamped>): (r: seq<nat>)
    ensures |r| == |t| && (forall x :: x in r ==> exists s :: s in t && s.id == x) && forall s :: s in t ==> s.id in r
  {
    if t == [] then []
    else
      var r := Order(t[..|t| - 1]);
      assert t == t[..|t| - 1] + [t[|t| - 1]];
      r + [t[|t| - 1].id]
  }

  lemma {:induction false} StampsAll<I, O>(ops: seq<Operation<I, O>>, t: seq<Stamped>, s: Stamped)
    requires Stamps(ops, t) && s in t
    ensures StampOk(ops, s) && s.time <= t[|t| - 1].time
  {
    assert t == t[..|t| - 1] + [t[|t| - 1]];
    if s != t[|t| - 1] { StampsAll(ops, t[..|t| - 1], s); }
  }

  lemma {:induction false} StampsInTime<I, O>(ops: seq<Operation<I, O>>, t: seq<Stamped>)
    requires Stamps(ops, t)
    ensures Ids(Order(t), |ops|) && InTime(ops, Order(t))
  {
    if t != [] {
      var init, last := t[..|t| - 1], t[|t| - 1];
      StampsInTime(ops, init);
      forall y | y in Order(init) ensures !(ops[last.id].ret < ops[y].call) {
        var s :| s in init && s.id == y;
        StampsAll(ops, init, s);
      }
      InTimeLast(ops, Order(init), last.id);
    }
  }

  function Later(a: int, b: int): int { if a < b then b else a }

  /** Taking effect as early as the order allows is never too late. */
  lemma {:induction false} Stampable<I, O>(ops: seq<Operation<I, O>>, q: seq<nat>) returns (t: seq<Stamped>)
    requires Ids(q, |ops|) && InTime(ops, q) && Timed(ops)
    ensures Stamps(ops, t) && Order(t) == q
    ensures t != [] ==> exists x :: x in q && t[|t| - 1].time == ops[x].call
  {
    if q == [] {
      t := [];
    } else {
      var init, x := q[..|q| - 1], q[|q| - 1];
      assert q == init + [x];
      InTimeLast(ops, init, x);
      var before := Stampable(ops, init);
      var time := if before == [] then ops[x].call else Later(before[|before| - 1].time, ops[x].call);
      t := before + [Stamped(x, time)];
      assert t[..|t| - 1] == before;
      forall s | s in before ensures s.time <= time { StampsAll(ops, before, s); }
    }
  }

  ghost function Merge(a: seq<Stamped>, b: seq<Stamped>): (t: seq<Stamped>)
    ensures forall s :: s in t <==> s in a || s in b
    decreases |a| + |b|
  {
    if a == [] then b
    else if b == [] then a
    else
      var x, y := a[|a| - 1], b[|b| - 1];
      assert a == a[..|a| - 1] + [x] && b == b[..|b| - 1] + [y];
      if x.time > y.time then Merge(a[..|a| - 1], b) + [x] else Merge(a, b[..|b| - 1]) + [y]
  }

  lemma {:induction false} MergeStamps<I, O>(ops: seq<Operation<I, O>>, a: seq<Stamped>, b: seq<Stamped>)
    requires Stamps(ops, a) && Stamps(ops, b)
    ensures Stamps(ops, Merge(a, b))
    decreases |a| + |b|
  {
    if a != [] && b != [] {
      var x, y := a[|a| - 1], b[|b| - 1];
      if x.time > y.time {
        MergeStamps(ops, a[..|a| - 1], b);
        assert Merge(a, b)[..|Merge(a, b)| - 1] == Merge(a[..|a| - 1], b);
        forall s | s in Merge(a[..|a| - 1], b) ensures s.time <= x.time { if s in b { StampsAll(ops, b, s); } }
      } else {
        MergeStamps(ops, a, b[..|b| - 1]);
        assert Merge(a, b)[..|Merge(a, b)| - 1] == Merge(a, b[..|b| - 1]);
        forall s | s in Merge(a, b[..|b| - 1]) ensures s.time <= y.time { if s in a { StampsAll(ops, a, s); } }
      }
    }
  }

  ghost predicate AllOn<K, I, O>(key: I -> K, ops: seq<Operation<I, O>>, t: seq<Stamped>, ks: set<K>) {
    forall s :: s in t ==> s.id < |ops| && key(ops[s.id].input) in ks
  }

  lemma OrderIn<I, O>(ops: seq<Operation<I, O>>, t: seq<Stamped>)
    requires Stamps(ops, t)
    ensures Ids(Order(t), |ops|)
  {
    StampsInTime(ops, t);
  }

  lemma {:induction false} OneObject<K, I, O>(key: I -> K, ops: seq<Operation<I, O>>, q: seq<nat>, own: K, k: K)
    requires Ids(q, |ops|) && forall x :: x in q ==> key(ops[x].input) == own
    ensures On(key, ops, q, k) == if k == own then q else []
  {
    if q != [] {
      assert q == q[..|q| - 1] + [q[|q| - 1]];
      OneObject(key, ops, q[..|q| - 1], own, k);
    }
  }

  lemma MergeLast(a: seq<Stamped>, b: seq<Stamped>)
    requires a != [] && b != []
    ensures var x, y := a[|a| - 1], b[|b| - 1];
            && a == a[..|a| - 1] + [x] && b == b[..|b| - 1] + [y]
            && Order(a) == Order(a[..|a| - 1]) + [x.id] && Order(b) == Order(b[..|b| - 1]) + [y.id]
            && Order(Merge(a, b)) == if x.time > y.time then Order(Merge(a[..|a| - 1], b)) + [x.id] else Order(Merge(a, b[..|b| - 1])) + [y.id]
  {
    var x, y, t := a[|a| - 1], b[|b| - 1], Merge(a, b);
    assert x.time > y.time ==> t[..|t| - 1] == Merge(a[..|a| - 1], b);
    assert x.time <= y.time ==> t[..|t| - 1] == Merge(a, b[..|b| - 1]);
  }

  lemma StampsInit<I, O>(ops: seq<Operation<I, O>>, t: seq<Stamped>)
    requires Stamps(ops, t) && t != []
    ensures Stamps(ops, t[..|t| - 1]) && t[|t| - 1].id < |ops|
  {
  }

  lemma AllOnInit<K, I, O>(key: I -> K, ops: seq<Operation<I, O>>, t: seq<Stamped>, ks: set<K>)
    requires AllOn(key, ops, t, ks) && t != []
    ensures AllOn(key, ops, t[..|t| - 1], ks) && t[|t| - 1].id < |ops| && key(ops[t[|t| - 1].id].input) in ks
  {
    assert t[|t| - 1] in t;
  }

  lemma {:induction false} NothingOn<K, I, O>(key: I -> K, ops: seq<Operation<I, O>>, q: seq<nat>, k: K)
    requires Ids(q, |ops|) && forall x :: x in q ==> key(ops[x].input) != k
    ensures On(key, ops, q, k) == []
  {
    if q != [] { NothingOn(key, ops, q[..|q| - 1], k); }
  }

  lemma NoneOn<K, I, O>(key: I -> K, ops: seq<Operation<I, O>>, t: seq<Stamped>, ks: set<K>, k: K)
    requires Ids(Order(t), |ops|) && AllOn(key, ops, t, ks) && (t == [] || k !in ks)
    ensures On(key, ops, Order(t), k) == []
  {
    hide Order, On;
    NothingOn(key, ops, Order(t), k);
  }

  lemma AddLeft<K, I, O>(key: I -> K, ops: seq<Operation<I, O>>, r: seq<nat>, qa: seq<nat>, qb: seq<nat>, own: K, k: K, x: nat)
    requires Ids(r, |ops|) && Ids(qa, |ops|) && x < |ops| && key(ops[x].input) != own && Ids(r + [x], |ops|) && Ids(qa + [x], |ops|)
    requires On(key, ops, r, k) == if k == own then qb else On(key, ops, qa, k)
    ensures On(key, ops, r + [x], k) == if k == own then qb else On(key, ops, qa + [x], k)
  {
    hide On;
    OnLast(key, ops, r, x, k);
    OnLast(key, ops, qa, x, k);
  }

  lemma AddRight<K, I, O>(key: I -> K, ops: seq<Operation<I, O>>, r: seq<nat>, qa: seq<nat>, qb: seq<nat>, own: K, k: K, y: nat)
    requires Ids(r, |ops|) && Ids(qa, |ops|) && y < |ops| && key(ops[y].input) == own && Ids(r + [y], |ops|)
    requires On(key, ops, r, k) == if k == own then qb else On(key, ops, qa, k)
    ensures On(key, ops, r + [y], k) == if k == own then qb + [y] else On(key, ops, qa, k)
  {
    hide On;
    OnLast(key, ops, r, y, k);
  }

  /** Merging in a schedule of a new object leaves every object's own order as it was. */
  lemma {:induction false} MergeOn<K, I, O>(key: I -> K, ops: seq<Operation<I, O>>, a: seq<Stamped>, b: seq<Stamped>, ks: set<K>, own: K, k: K)
    requires Stamps(ops, a) && Stamps(ops, b) && AllOn(key, ops, a, ks) && AllOn(key, ops, b, {own}) && own !in ks
    ensures Ids(Order(a), |ops|) && Ids(Order(b), |ops|) && Ids(Order(Merge(a, b)), |ops|)
    ensures On(key, ops, Order(Merge(a, b)), k) == if k == own then Order(b) else On(key, ops, Order(a), k)
    decreases |a| + |b|
  {
    hide Stamps, Order, On, Merge, AllOn, Ids;
    OrderIn(ops, a);
    OrderIn(ops, b);
    assert Ids(Order(Merge(a, b)), |ops|) by {
      MergeStamps(ops, a, b);
      OrderIn(ops, Merge(a, b));
    }
    if a == [] || b == [] {
      MergeEmpty(a, b);
      NoneOn(key, ops, a, ks, own);
      if a == [] { NoneOn(key, ops, a, ks, k); }
      OnlyOwn(key, ops, b, own, k);
    } else {
      var a', b', x, y := a[..|a| - 1], b[..|b| - 1], a[|a| - 1], b[|b| - 1];
      MergeLast(a, b);
      StampsInit(ops, a);
      StampsInit(ops, b);
      AllOnInit(key, ops, a, ks);
      AllOnInit(key, ops, b, {own});
      if x.time > y.time {
        MergeOn(key, ops, a', b, ks, own, k);
        AddLeft(key, ops, Order(Merge(a', b)), Order(a'), Order(b), own, k, x.id);
      } else {
        MergeOn(key, ops, a, b', ks, own, k);
        AddRight(key, ops, Order(Merge(a, b')), Order(a), Order(b'), own, k, y.id);
      }
    }
  }

  lemma OnlyOwn<K, I, O>(key: I -> K, ops: seq<Operation<I, O>>, b: seq<Stamped>, own: K, k: K)
    requires Ids(Order(b), |ops|) && AllOn(key, ops, b, {own})
    ensures On(key, ops, Order(b), k) == if k == own then Order(b) else []
  {
    hide On;
    OneObject(key, ops, Order(b), own, k);
  }

  lemma MergeEmpty(a: seq<Stamped>, b: seq<Stamped>)
    ensures a == [] ==> Merge(a, b) == b
    ensures b == [] ==> Merge(a, b) == a && Order(b) == []
  {
  }

  // ---------------------------------------------------------------- locality

  /** A schedule of the objects `ks`, with an order of each of them. */
  ghost predicate Scheduled<K(!new), S, I, O>(m: Model<S, I, O>, key: I -> K, ops: seq<Operation<I, O>>, ks: set<K>, t: seq<Stamped>) {
    && Stamps(ops, t) && AllOn(key, ops, t, ks) && Ids(Order(t), |ops|)
    && forall k :: k in ks ==> IsOrderOf(m, ops, IdsOn(key, ops, k), On(key, ops, Order(t), k))
  }

  lemma {:induction false} ScheduleAll<K(!new), S, I, O>(m: Model<S, I, O>, key: I -> K, ops: seq<Operation<I, O>>, ks: set<K>)
    returns (t: seq<Stamped>)
    requires Timed(ops) && forall k :: k in ks ==> LinearizableIn(m, ops, IdsOn(key, ops, k))
    ensures Scheduled(m, key, ops, ks, t)
  {
    hide Scheduled, IsOrderOf, IdsOn, Timed;
    if ks == {} {
      t := [];
      assert Scheduled(m, key, ops, {}, []) by { NothingScheduled(m, key, ops); }
    } else {
      var own :| own in ks;
      var a := ScheduleAll(m, key, ops, ks - {own});
      assert LinearizableIn(m, ops, IdsOn(key, ops, own));
      var q :| IsOrderOf(m, ops, IdsOn(key, ops, own), q);
      t := ScheduleOne(m, key, ops, ks - {own}, a, own, q);
      assert ks - {own} + {own} == ks;
    }
  }

  lemma NothingScheduled<K(!new), S, I, O>(m: Model<S, I, O>, key: I -> K, ops: seq<Operation<I, O>>)
    ensures Scheduled(m, key, ops, {}, [])
  {
  }

  lemma ScheduleOne<K(!new), S, I, O>(m: Model<S, I, O>, key: I -> K, ops: seq<Operation<I, O>>, ks: set<K>, a: seq<Stamped>, own: K, q: seq<nat>)
    returns (t: seq<Stamped>)
    requires Timed(ops) && Scheduled(m, key, ops, ks, a) && own !in ks && IsOrderOf(m, ops, IdsOn(key, ops, own), q)
    ensures Scheduled(m, key, ops, ks + {own}, t)
  {
    hide Timed, Stamps, Explains, InTime, Distinct, Order, On, Merge;
    var b := Stampable(ops, q);
    assert forall x :: x in q <==> x in Elements(q);
    assert AllOn(key, ops, b, {own});
    t := Merge(a, b);
    MergeStamps(ops, a, b);
    OrderIn(ops, t);
    forall k | k in ks + {own} ensures IsOrderOf(m, ops, IdsOn(key, ops, k), On(key, ops, Order(t), k)) {
      MergeOn(key, ops, a, b, ks, own, k);
    }
  }

  lemma {:induction false} OnDistinct<K(!new), I, O>(key: I -> K, ops: seq<Operation<I, O>>, r: seq<nat>)
    requires Ids(r, |ops|) && forall k :: Distinct(On(key, ops, r, k))
    ensures Distinct(r)
  {
    if r != [] {
      var init, x := r[..|r| - 1], r[|r| - 1];
      assert r == init + [x];
      forall k ensures Distinct(On(key, ops, init, k)) {
        OnLast(key, ops, init, x, k);
        assert Distinct(On(key, ops, r, k));
        DistinctLast(On(key, ops, init, k), x);
      }
      OnDistinct(key, ops, init);
      var own := key(ops[x].input);
      OnLast(key, ops, init, x, own);
      assert Distinct(On(key, ops, r, own));
      DistinctLast(On(key, ops, init, own), x);
      DistinctLast(init, x);
    }
  }

  ghost function Keys<K, I, O>(key: I -> K, ops: seq<Operation<I, O>>): set<K> {
    set x | x in Below(|ops|) :: key(ops[x].input)
  }

  /** What the schedule holds on an object, be it one of `ks` or not. */
  lemma ScheduledOn<K(!new), S, I, O>(m: Model<S, I, O>, key: I -> K, ops: seq<Operation<I, O>>, t: seq<Stamped>, k: K)
    requires Scheduled(m, key, ops, Keys(key, ops), t)
    ensures IsOrderOf(m, ops, IdsOn(key, ops, k), On(key, ops, Order(t), k))
  {
    hide Order, On, Stamps;
    if k !in Keys(key, ops) {
      NoneOn(key, ops, t, Keys(key, ops), k);
      assert IdsOn(key, ops, k) == {};
      assert IsOrderOf(m, ops, {}, []);
    }
  }

  lemma FromObjects<W(!new), K(!new), S, I(!new), O(!new)>(
      whole: Model<W, I, O>, m: Model<S, I, O>, key: I -> K, view: (W, K) -> S, ops: seq<Operation<I, O>>)
    requires Projects(whole, m, key, view) && Timed(ops)
    requires forall k :: k in Keys(key, ops) ==> LinearizableIn(m, ops, IdsOn(key, ops, k))
    ensures LinearizableOps(whole, ops)
  {
    hide Projects, Timed, Scheduled, IsOrderOf, IdsOn, Keys, Order, On, InTime, Explains, Stamps, Ids, Distinct, LinearizableIn;
    var t := ScheduleAll(m, key, ops, Keys(key, ops));
    var r := Order(t);
    assert Stamps(ops, t) && Ids(r, |ops|) by { ScheduleShape(m, key, ops, t); }
    StampsInTime(ops, t);
    forall k ensures Explains(m, ops, On(key, ops, r, k)) && Distinct(On(key, ops, r, k)) {
      ScheduledOn(m, key, ops, t, k);
      OrderOfShape(m, ops, IdsOn(key, ops, k), On(key, ops, r, k));
    }
    OnDistinct(key, ops, r);
    ObjectsExplain(whole, m, key, view, ops, r);
    assert |r| == |ops| by {
      forall x: nat | x < |ops| ensures x in r { ScheduledAll(m, key, ops, t, x); }
      CoversAll(r, |ops|);
    }
    assert IsOrder(whole, ops, r);
  }

  lemma ScheduleShape<K(!new), S, I, O>(m: Model<S, I, O>, key: I -> K, ops: seq<Operation<I, O>>, t: seq<Stamped>)
    requires Scheduled(m, key, ops, Keys(key, ops), t)
    ensures Stamps(ops, t) && Ids(Order(t), |ops|)
  {
  }

  lemma OrderOfShape<S, I, O>(m: Model<S, I, O>, ops: seq<Operation<I, O>>, s: set<nat>, q: seq<nat>)
    requires IsOrderOf(m, ops, s, q)
    ensures Ids(q, |ops|) && Distinct(q) && Explains(m, ops, q)
  {
  }

  lemma ScheduledAll<K(!new), S, I, O>(m: Model<S, I, O>, key: I -> K, ops: seq<Operation<I, O>>, t: seq<Stamped>, x: nat)
    requires Scheduled(m, key, ops, Keys(key, ops), t) && x < |ops|
    ensures x in Order(t)
  {
    hide Order, On, Stamps, Explains, InTime;
    var k := key(ops[x].input);
    ScheduledOn(m, key, ops, t, k);
    assert x in IdsOn(key, ops, k) && x in Elements(On(key, ops, Order(t), k));
  }

  lemma CoversAll(r: seq<nat>, n: nat)
    requires Distinct(r) && Ids(r, n) && forall x: nat :: x < n ==> x in r
    ensures |r| == n
  {
    DistinctSize(r);
    assert Elements(r) == Below(n);
  }

  /** Locality: the whole is linearizable exactly when every object in use is. */
  lemma LinearizabilityIsLocal<W(!new), K(!new), S, I(!new), O(!new)>(
      whole: Model<W, I, O>, m: Model<S, I, O>, key: I -> K, view: (W, K) -> S, ops: seq<Operation<I, O>>)
    requires Projects(whole, m, key, view) && Timed(ops)
    ensures LinearizableOps(whole, ops) <==> forall k :: k in Keys(key, ops) ==> LinearizableIn(m, ops, IdsOn(key, ops, k))
  {
    hide Projects, LinearizableOps, LinearizableIn, IdsOn, Keys, Timed;
    if LinearizableOps(whole, ops) {
      forall k | k in Keys(key, ops) ensures LinearizableIn(m, ops, IdsOn(key, ops, k)) {
        ToObject(whole, m, key, view, ops, k);
      }
    }
    if forall k :: k in Keys(key, ops) ==> LinearizableIn(m, ops, IdsOn(key, ops, k)) {
      FromObjects(whole, m, key, view, ops);
    }
  }
}
