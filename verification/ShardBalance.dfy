/** Moving shards between groups, as functions on the assignment, and why the groups stay balanced. */
module ShardBalance {

  /** The shards of group `g`, in ascending order. */
  function Owned(s: seq<int>, g: int): (r: seq<nat>)
    ensures forall i :: i in r <==> 0 <= i < |s| && s[i] == g
    ensures |r| <= |s|
  {
    if s == [] then []
    else
      var rest := Owned(s[..|s| - 1], g);
      if s[|s| - 1] == g then rest + [|s| - 1] else rest
  }

  function Load(s: seq<int>, g: int): nat { |Owned(s, g)| }

  function Holders(s: seq<int>): set<int> { set i | 0 <= i < |s| :: s[i] }

  /** The groups a shard may come from or go to, all but `g` itself. */
  function Others(s: seq<int>, gs: set<int>, g: int): set<int> { gs + Holders(s) - {g} }

  /** The lowest-numbered of the most loaded groups. */
  predicate IsMost(s: seq<int>, gs: set<int>, g: int) {
    g in gs && forall h :: h in gs ==> Load(s, h) < Load(s, g) || (Load(s, h) == Load(s, g) && g <= h)
  }

  /** The lowest-numbered of the least loaded groups. */
  predicate IsLeast(s: seq<int>, gs: set<int>, g: int) {
    g in gs && forall h :: h in gs ==> Load(s, h) > Load(s, g) || (Load(s, h) == Load(s, g) && g <= h)
  }

  /** The choice does not depend on the order in which the groups are looked at. */
  lemma OneChoice(s: seq<int>, gs: set<int>, g: int, h: int)
    ensures IsMost(s, gs, g) && IsMost(s, gs, h) ==> g == h
    ensures IsLeast(s, gs, g) && IsLeast(s, gs, h) ==> g == h
  {
  }

  lemma SomeMember(gs: set<int>)
    ensures gs == {} || exists g :: g in gs
  {
    if forall g :: g !in gs { assert gs == {}; }
  }

  lemma {:induction false} MostExists(s: seq<int>, gs: set<int>) returns (g: int)
    requires gs != {}
    ensures IsMost(s, gs, g)
    decreases |gs|
  {
    SomeMember(gs);
    g :| g in gs;
    if gs != {g} {
      SomeMember(gs - {g});
      var h := MostExists(s, gs - {g});
      if !(Load(s, h) < Load(s, g) || (Load(s, h) == Load(s, g) && g <= h)) { g := h; }
    }
  }

  lemma {:induction false} LeastExists(s: seq<int>, gs: set<int>) returns (g: int)
    requires gs != {}
    ensures IsLeast(s, gs, g)
    decreases |gs|
  {
    SomeMember(gs);
    g :| g in gs;
    if gs != {g} {
      SomeMember(gs - {g});
      var h := LeastExists(s, gs - {g});
      if !(Load(s, h) > Load(s, g) || (Load(s, h) == Load(s, g) && g <= h)) { g := h; }
    }
  }

  ghost function Most(s: seq<int>, gs: set<int>): (g: int)
    requires gs != {}
    ensures IsMost(s, gs, g)
  {
    assert exists g :: IsMost(s, gs, g) by { var g := MostExists(s, gs); }
    var g :| IsMost(s, gs, g);
    g
  }

  ghost function Least(s: seq<int>, gs: set<int>): (g: int)
    requires gs != {}
    ensures IsLeast(s, gs, g)
  {
    assert exists g :: IsLeast(s, gs, g) by { var g := LeastExists(s, gs); }
    var g :| IsLeast(s, gs, g);
    g
  }

  // ---------------------------------------------------------------- joining and leaving

  /** Where a joining group takes its next shard from: group 0 first, else the most loaded. */
  ghost function Donor(s: seq<int>, gs: set<int>, g: int): int {
    var others := Others(s, gs, g);
    if 0 in others || others == {} then 0 else Most(s, others)
  }

  /** Shards are moved to `g` one by one until it holds as many as the donor, or all of them. */
  ghost function Fill(s: seq<int>, gs: set<int>, g: int, cnt: nat): seq<int>
    decreases |s| - cnt
  {
    if cnt >= |s| then s
    else
      var donor := Donor(s, gs, g);
      var shards := Owned(s, donor);
      if (cnt >= |shards| && donor != 0) || shards == [] then s
      else
        assert shards[0] in shards;
        Fill(s[shards[0] := g], gs, g, cnt + 1)
  }

  ghost function JoinOne(s: seq<int>, gs: set<int>, g: int): seq<int> {
    if g in gs then s else Fill(s, gs, g, 0)
  }

  ghost function Receiver(s: seq<int>, gs: set<int>, g: int): int {
    var others := Others(s, gs, g);
    if others == {} then 0 else Least(s, others)
  }

  /** The shards of a departing group go one by one to the least loaded of the rest, or to group 0. */
  ghost function Drain(s: seq<int>, gs: set<int>, g: int, shards: seq<nat>): seq<int>
    requires InRange(shards, |s|)
    decreases |shards|
  {
    if shards == [] then s
    else
      var r := Receiver(s, gs, g);
      Drain(s[shards[0] := r], gs, g, shards[1..])
  }

  predicate InRange(shards: seq<nat>, n: nat) { forall j :: 0 <= j < |shards| ==> shards[j] < n }

  lemma OwnedInRange(s: seq<int>, g: int)
    ensures InRange(Owned(s, g), |s|)
  {
    forall j | 0 <= j < |Owned(s, g)| ensures Owned(s, g)[j] < |s| { assert Owned(s, g)[j] in Owned(s, g); }
  }

  ghost function LeaveOne(s: seq<int>, gs: set<int>, g: int): seq<int> {
    OwnedInRange(s, g);
    if g in gs then Drain(s, gs - {g}, g, Owned(s, g)) else s
  }

  // ---------------------------------------------------------------- loads

  lemma {:induction false} LoadMove(s: seq<int>, i: nat, g: int, h: int)
    requires i < |s| && s[i] != g
    ensures Load(s[i := g], h) == Load(s, h) + (if h == g then 1 else 0) - (if h == s[i] then 1 else 0)
  {
    var t, n := s[i := g], |s| - 1;
    if i < n {
      LoadMove(s[..n], i, g, h);
      assert t[..n] == s[..n][i := g];
    } else {
      assert t[..n] == s[..n];
    }
  }

  lemma {:induction false} TwoLoads(s: seq<int>, g: int, h: int)
    requires g != h
    ensures Load(s, g) + Load(s, h) <= |s|
    ensures (forall i :: 0 <= i < |s| ==> s[i] == g || s[i] == h) ==> Load(s, g) + Load(s, h) == |s|
  {
    if s != [] { TwoLoads(s[..|s| - 1], g, h); }
  }

  /** Every shard is on a group, and no two groups differ by more than one; without groups all are on 0. */
  predicate Placed(s: seq<int>, gs: set<int>) {
    forall i :: 0 <= i < |s| ==> if gs == {} then s[i] == 0 else s[i] in gs
  }

  predicate Even(s: seq<int>, gs: set<int>) {
    forall g, h :: g in gs && h in gs ==> Load(s, g) <= Load(s, h) + 1
  }

  predicate Balanced(s: seq<int>, gs: set<int>) { Placed(s, gs) && Even(s, gs) }

  /** On the way: shards are on `g` or where they belong without it. */
  predicate Between(s: seq<int>, gs: set<int>, g: int) {
    forall i :: 0 <= i < |s| && s[i] != g ==> if gs == {} then s[i] == 0 else s[i] in gs
  }

  lemma OthersAre(s: seq<int>, gs: set<int>, g: int)
    requires Between(s, gs, g) && g !in gs
    ensures gs != {} ==> Others(s, gs, g) == gs
    ensures gs == {} && g != 0 ==> Others(s, gs, g) == if 0 in Holders(s) then {0} else {}
  {
    forall h ensures gs != {} ==> (h in Others(s, gs, g) <==> h in gs) {
      if h in Holders(s) {
        var i :| 0 <= i < |s| && s[i] == h;
      }
    }
    if gs == {} && g != 0 {
      forall h ensures h in Others(s, gs, g) <==> h == 0 && 0 in Holders(s) {
        if h in Holders(s) {
          var i :| 0 <= i < |s| && s[i] == h;
        }
      }
    }
  }

  // ---------------------------------------------------------------- a group joins

  /** Nothing moves but to `g`. */
  predicate MovedTo(s: seq<int>, t: seq<int>, g: int) {
    |t| == |s| && forall i :: 0 <= i < |s| ==> t[i] == s[i] || t[i] == g
  }

  /** `g` holds as many as any other group, and at most one more. */
  predicate OnTop(s: seq<int>, gs: set<int>, g: int) {
    forall h :: h in gs ==> Load(s, h) <= Load(s, g) <= Load(s, h) + 1
  }

  /** `g` is at most one ahead of the others, which are even among themselves. */
  predicate Filling(s: seq<int>, gs: set<int>, g: int) {
    && Between(s, gs, g) && Even(s, gs) && gs != {} && g !in gs && 0 !in gs && g != 0
    && forall h :: h in gs ==> Load(s, g) <= Load(s, h) + 1
  }

  lemma TakeOne(s: seq<int>, gs: set<int>, g: int, donor: int, i: nat)
    requires Filling(s, gs, g) && IsMost(s, gs, donor) && i < |s| && s[i] == donor && Load(s, g) < Load(s, donor)
    ensures Filling(s[i := g], gs, g) && Load(s[i := g], g) == Load(s, g) + 1
  {
    hide Load;
    var t := s[i := g];
    LoadMove(s, i, g, g);
    forall h | h in gs ensures Load(t, h) == if h == donor then Load(s, h) - 1 else Load(s, h) { LoadMove(s, i, g, h); }
  }

  lemma {:induction false} FillEvens(s: seq<int>, gs: set<int>, g: int, cnt: nat)
    requires Filling(s, gs, g) && Load(s, g) == cnt <= |s|
    ensures var t := Fill(s, gs, g, cnt); MovedTo(s, t, g) && Filling(t, gs, g) && OnTop(t, gs, g)
    decreases |s| - cnt
  {
    hide Load, Owned;
    OthersAre(s, gs, g);
    var donor, shards := Most(s, gs), Owned(s, Most(s, gs));
    assert Load(s, donor) == |shards| by { LoadIs(s, donor); }
    if cnt < |s| && cnt < |shards| {
      assert shards[0] in shards;
      TakeOne(s, gs, g, donor, shards[0]);
      FillEvens(s[shards[0] := g], gs, g, cnt + 1);
    } else {
      forall h | h in gs ensures Load(s, h) <= Load(s, g) {
        assert IsMost(s, gs, donor);
        TwoLoads(s, g, h);
      }
      if cnt < |s| { StopsHere(s, gs, g, cnt); }
    }
  }

  lemma LoadIs(s: seq<int>, g: int)
    ensures Load(s, g) == |Owned(s, g)|
  {
  }

  lemma StopsHere(s: seq<int>, gs: set<int>, g: int, cnt: nat)
    requires gs != {} && 0 !in gs && Others(s, gs, g) == gs && cnt < |s| && cnt >= |Owned(s, Most(s, gs))|
    ensures Fill(s, gs, g, cnt) == s
  {
  }

  /** Into an empty controller: all shards leave group 0. */
  lemma {:induction false} FillAll(s: seq<int>, g: int, cnt: nat)
    requires Between(s, {}, g) && g != 0 && Load(s, g) == cnt <= |s|
    ensures var t := Fill(s, {}, g, cnt); MovedTo(s, t, g) && Load(t, g) == |t| && forall i :: 0 <= i < |t| ==> t[i] == g
    decreases |s| - cnt
  {
    hide Owned;
    LoadIs(s, 0);
    TwoLoads(s, g, 0);
    if cnt < |s| {
      var shards := Owned(s, 0);
      assert shards[0] in shards;
      assert s[shards[0]] in Holders(s);
      OthersAre(s, {}, g);
      LoadMove(s, shards[0], g, g);
      FillAll(s[shards[0] := g], g, cnt + 1);
    } else {
      forall i | 0 <= i < |s| ensures s[i] == g { assert s[i] != g ==> i in Owned(s, 0); }
    }
  }

  /** A join keeps the balance, moves shards to the new group only, and leaves no group above it. */
  lemma JoinBalances(s: seq<int>, gs: set<int>, g: int)
    requires Balanced(s, gs) && 0 !in gs && g != 0 && g !in gs
    ensures var t := JoinOne(s, gs, g); MovedTo(s, t, g) && Balanced(t, gs + {g}) && OnTop(t, gs, g)
  {
    hide Load, Owned, Fill;
    assert Load(s, g) == 0 by { Unused(s, g); }
    var t := Fill(s, gs, g, 0);
    if gs == {} {
      FillAll(s, g, 0);
    } else {
      FillEvens(s, gs, g, 0);
    }
    forall h, k | h in gs + {g} && k in gs + {g} ensures Load(t, h) <= Load(t, k) + 1 {
      assert h in gs ==> Load(t, h) <= Load(t, g) <= Load(t, h) + 1;
      assert k in gs ==> Load(t, k) <= Load(t, g) <= Load(t, k) + 1;
    }
  }

  lemma {:induction false} Unused(s: seq<int>, g: int)
    requires forall i :: 0 <= i < |s| ==> s[i] != g
    ensures Load(s, g) == 0
  {
    if s != [] { Unused(s[..|s| - 1], g); }
  }

  // ---------------------------------------------------------------- the share of a joining group

  function Without(s: seq<int>, g: int): seq<int> {
    if s == [] then []
    else
      var rest := Without(s[..|s| - 1], g);
      if s[|s| - 1] == g then rest else rest + [s[|s| - 1]]
  }

  predicate AllIn(s: seq<int>, gs: set<int>) { forall i :: 0 <= i < |s| ==> s[i] in gs }

  lemma NoneIn(s: seq<int>)
    ensures AllIn(s, {}) ==> s == []
  {
    var none: set<int> := {};
    if s != [] { assert s[0] !in none; }
  }

  lemma {:induction false} WithoutIn(s: seq<int>, gs: set<int>, g: int)
    requires AllIn(s, gs)
    ensures AllIn(Without(s, g), gs - {g})
  {
    if s != [] { WithoutIn(s[..|s| - 1], gs, g); }
  }

  lemma {:induction false} WithoutLoads(s: seq<int>, g: int, h: int)
    ensures |Without(s, g)| == |s| - Load(s, g)
    ensures h != g ==> Load(Without(s, g), h) == Load(s, h)
  {
    if s != [] {
      WithoutLoads(s[..|s| - 1], g, h);
      var rest, x := Without(s[..|s| - 1], g), s[|s| - 1];
      assert (rest + [x])[..|rest|] == rest;
    }
  }

  /** `c` added up `n` times. */
  function Times(c: int, n: nat): int { if n == 0 then 0 else Times(c, n - 1) + c }

  lemma {:induction false} TimesIs(c: int, n: nat)
    ensures Times(c, n) == c * n
  {
    if n > 0 { TimesIs(c, n - 1); }
  }

  /** The number of shards lies between that many times the least and the greatest load. */
  lemma {:induction false} TotalBounds(s: seq<int>, gs: set<int>, lo: int, hi: int)
    requires AllIn(s, gs) && forall h :: h in gs ==> lo <= Load(s, h) <= hi
    ensures Times(lo, |gs|) <= |s| <= Times(hi, |gs|)
    decreases |gs|
  {
    hide Load, Without;
    SomeMember(gs);
    if gs == {} {
      NoneIn(s);
    } else {
      var g :| g in gs;
      var rest := Without(s, g);
      WithoutLoads(s, g, g);
      WithoutIn(s, gs, g);
      forall h | h in gs - {g} ensures lo <= Load(rest, h) <= hi { WithoutLoads(s, g, h); }
      TotalBounds(rest, gs - {g}, lo, hi);
    }
  }

  lemma {:induction false} Below(a: int, b: int, k: int)
    requires a < b && k > 0
    ensures a * k + k <= b * k
    decreases b - a
  {
    if a + 1 < b {
      Below(a, b - 1, k);
      assert b * k == (b - 1) * k + k;
    } else {
      assert b * k == a * k + k;
    }
  }

  lemma Quotient(x: int, k: int, c: int)
    requires k > 0 && c * k <= x < c * k + k
    ensures x / k == c
  {
    var q := x / k;
    assert q * k <= x < q * k + k;
    if q < c { Below(q, c, k); } else if q > c { Below(c, q, k); }
  }

  lemma Share(total: int, n: nat, c: int)
    requires Times(c - 1, n) <= total - c <= Times(c, n)
    ensures (total + n) / (n + 1) == c
  {
    TimesIs(c - 1, n);
    TimesIs(c, n);
    assert (c - 1) * n == c * n - n && c * (n + 1) == c * n + c;
    Quotient(total + n, n + 1, c);
  }

  /** With k groups after the join, the new one holds the k-th part of the shards, rounded up. */
  lemma JoinShare(s: seq<int>, gs: set<int>, g: int)
    requires Balanced(s, gs) && 0 !in gs && g != 0 && g !in gs
    ensures var k := |gs| + 1; Load(JoinOne(s, gs, g), g) == (|s| + k - 1) / k
  {
    hide Load, JoinOne, Times, Without;
    JoinBalances(s, gs, g);
    var t := JoinOne(s, gs, g);
    var c, rest := Load(t, g), Without(t, g);
    WithoutLoads(t, g, g);
    WithoutIn(t, gs + {g}, g);
    assert gs + {g} - {g} == gs;
    forall h | h in gs ensures c - 1 <= Load(rest, h) <= c { WithoutLoads(t, g, h); }
    TotalBounds(rest, gs, c - 1, c);
    Share(|t|, |gs|, c);
  }

  // ---------------------------------------------------------------- a group leaves

  /** The shards named, and no others, are still on the departing group. */
  ghost predicate Draining(s: seq<int>, gs: set<int>, g: int, shards: seq<nat>) {
    && Between(s, gs, g) && Even(s, gs) && g !in gs && 0 !in gs && g != 0
    && (forall i :: i in shards <==> 0 <= i < |s| && s[i] == g)
    && forall i, j :: 0 <= i < j < |shards| ==> shards[i] != shards[j]
  }

  lemma GiveOne(s: seq<int>, gs: set<int>, g: int, shards: seq<nat>)
    requires Draining(s, gs, g, shards) && shards != [] && shards[0] < |s|
    ensures Draining(s[shards[0] := Receiver(s, gs, g)], gs, g, shards[1..])
  {
    hide Load;
    var r, i := Receiver(s, gs, g), shards[0];
    var t := s[i := r];
    OthersAre(s, gs, g);
    assert i in shards;
    if gs != {} {
      forall h | h in gs ensures Load(t, h) == if h == r then Load(s, h) + 1 else Load(s, h) { LoadMove(s, i, r, h); }
      assert IsLeast(s, gs, r);
    }
    TailHas(shards);
  }

  lemma TailHas(shards: seq<nat>)
    requires shards != [] && forall i, j :: 0 <= i < j < |shards| ==> shards[i] != shards[j]
    ensures forall j :: j in shards[1..] <==> j in shards && j != shards[0]
  {
    forall j ensures j in shards[1..] <==> j in shards && j != shards[0] {
      if j in shards[1..] {
        var m :| 0 <= m < |shards| - 1 && shards[1..][m] == j;
        assert shards[m + 1] == j;
      }
      if j in shards && j != shards[0] {
        var m :| 0 <= m < |shards| && shards[m] == j;
        assert shards[1..][m - 1] == j;
      }
    }
  }

  lemma {:induction false} DrainEvens(s: seq<int>, gs: set<int>, g: int, shards: seq<nat>)
    requires Draining(s, gs, g, shards) && InRange(shards, |s|)
    ensures var t := Drain(s, gs, g, shards);
            && |t| == |s| && Balanced(t, gs) && forall i :: 0 <= i < |s| && s[i] != g ==> t[i] == s[i]
    decreases |shards|
  {
    if shards != [] {
      assert shards[0] in shards;
      var r := Receiver(s, gs, g);
      GiveOne(s, gs, g, shards);
      DrainEvens(s[shards[0] := r], gs, g, shards[1..]);
    } else {
      assert forall i :: 0 <= i < |s| ==> s[i] != g;
    }
  }

  lemma {:induction false} OwnedDistinct(s: seq<int>, g: int, i: nat, j: nat)
    requires i < j < |Owned(s, g)|
    ensures Owned(s, g)[i] < Owned(s, g)[j]
  {
    if s != [] {
      var rest := Owned(s[..|s| - 1], g);
      if j < |rest| { OwnedDistinct(s[..|s| - 1], g, i, j); } else { assert rest[i] in rest; }
    }
  }

  /** A leave keeps the balance and moves the shards of the departing group only. */
  lemma LeaveBalances(s: seq<int>, gs: set<int>, g: int)
    requires Balanced(s, gs) && 0 !in gs
    ensures var t := LeaveOne(s, gs, g);
            && |t| == |s| && Balanced(t, gs - {g}) && forall i :: 0 <= i < |s| && s[i] != g ==> t[i] == s[i]
  {
    hide Load, Drain;
    if g in gs {
      var shards := Owned(s, g);
      forall i, j | 0 <= i < j < |shards| ensures shards[i] != shards[j] { OwnedDistinct(s, g, i, j); }
      OwnedInRange(s, g);
      DrainEvens(s, gs - {g}, g, shards);
    } else {
      assert gs - {g} == gs;
    }
  }

  // ---------------------------------------------------------------- placement, balanced or not

  /** Joins and leaves keep every shard on a member even where moves by hand upset the balance. */
  lemma {:induction false} FillPlaces(s: seq<int>, gs: set<int>, g: int, cnt: nat)
    requires Between(s, gs, g) && g !in gs && 0 !in gs && g != 0 && gs != {}
    ensures var t := Fill(s, gs, g, cnt); MovedTo(s, t, g) && Between(t, gs, g)
    decreases |s| - cnt
  {
    if cnt < |s| {
      OthersAre(s, gs, g);
      var shards := Owned(s, Most(s, gs));
      if cnt < |shards| {
        assert shards[0] in shards;
        FillPlaces(s[shards[0] := g], gs, g, cnt + 1);
      }
    }
  }

  lemma JoinPlaces(s: seq<int>, gs: set<int>, g: int)
    requires Placed(s, gs) && 0 !in gs && g != 0
    ensures var t := JoinOne(s, gs, g); MovedTo(s, t, g) && Placed(t, gs + {g})
  {
    hide Fill, Load;
    if g in gs {
      assert gs + {g} == gs;
    } else if gs == {} {
      Unused(s, g);
      FillAll(s, g, 0);
    } else {
      FillPlaces(s, gs, g, 0);
    }
  }

  lemma {:induction false} DrainPlaces(s: seq<int>, gs: set<int>, g: int, shards: seq<nat>)
    requires Between(s, gs, g) && g !in gs && 0 !in gs && g != 0
    requires InRange(shards, |s|) && forall i :: 0 <= i < |s| && s[i] == g ==> i in shards
    ensures var t := Drain(s, gs, g, shards);
            && |t| == |s| && Placed(t, gs) && forall i :: 0 <= i < |s| && i !in shards ==> t[i] == s[i]
    decreases |shards|
  {
    if shards != [] {
      OthersAre(s, gs, g);
      assert shards[0] in shards && shards == [shards[0]] + shards[1..];
      var t := s[shards[0] := Receiver(s, gs, g)];
      DrainPlaces(t, gs, g, shards[1..]);
    }
  }

  lemma LeavePlaces(s: seq<int>, gs: set<int>, g: int)
    requires Placed(s, gs) && 0 !in gs
    ensures var t := LeaveOne(s, gs, g);
            && |t| == |s| && Placed(t, gs - {g}) && forall i :: 0 <= i < |s| && s[i] != g ==> t[i] == s[i]
  {
    hide Drain;
    OwnedInRange(s, g);
    if g in gs { DrainPlaces(s, gs - {g}, g, Owned(s, g)); } else { assert gs - {g} == gs; }
  }

  // ---------------------------------------------------------------- dealing out

  predicate Ascending(gids: seq<int>) { forall i, j :: 0 <= i < j < |gids| ==> gids[i] < gids[j] }

  function Rounds(n: nat, k: nat): nat
    requires k > 0
  {
    n / k
  }

  function Turn(n: nat, k: nat): (r: nat)
    requires k > 0
    ensures r < k
  {
    n % k
  }

  /** The shards go round the groups in order. */
  predicate Dealt(s: seq<int>, gids: seq<int>)
    requires gids != []
  {
    forall i :: 0 <= i < |s| ==> s[i] == gids[Turn(i, |gids|)]
  }

  lemma OneMore(n: nat, k: nat)
    requires k > 0
    ensures Rounds(0, k) == 0 && Turn(0, k) == 0
    ensures Turn(n, k) == k - 1 ==> Rounds(n + 1, k) == Rounds(n, k) + 1 && Turn(n + 1, k) == 0
    ensures Turn(n, k) < k - 1 ==> Rounds(n + 1, k) == Rounds(n, k) && Turn(n + 1, k) == Turn(n, k) + 1
  {
    var q, r := n / k, n % k;
    assert n == q * k + r;
    if r == k - 1 {
      assert (q + 1) * k == q * k + k;
      Quotient(n + 1, k, q + 1);
    } else {
      Quotient(n + 1, k, q);
    }
    assert n + 1 == ((n + 1) / k) * k + (n + 1) % k;
  }

  lemma {:induction false} DealtLoad(s: seq<int>, gids: seq<int>, j: nat)
    requires gids != [] && Ascending(gids) && Dealt(s, gids) && j < |gids|
    ensures Load(s, gids[j]) == Rounds(|s|, |gids|) + if j < Turn(|s|, |gids|) then 1 else 0
  {
    hide Rounds, Turn;
    OneMore(0, |gids|);
    if s != [] {
      var n := |s| - 1;
      DealtLoad(s[..n], gids, j);
      OneMore(n, |gids|);
      assert s[n] == gids[Turn(n, |gids|)];
      assert gids[Turn(n, |gids|)] == gids[j] <==> Turn(n, |gids|) == j;
    }
  }

  function Members(gids: seq<int>): set<int> { set i | 0 <= i < |gids| :: gids[i] }

  /** Dealing out balances, whatever the assignment was. */
  lemma DealtBalances(s: seq<int>, gids: seq<int>)
    requires gids != [] && Ascending(gids) && Dealt(s, gids)
    ensures Balanced(s, Members(gids))
  {
    hide Load;
    assert gids[0] in Members(gids);
    forall g, h | g in Members(gids) && h in Members(gids) ensures Load(s, g) <= Load(s, h) + 1 {
      var i :| 0 <= i < |gids| && gids[i] == g;
      var j :| 0 <= j < |gids| && gids[j] == h;
      DealtLoad(s, gids, i);
      DealtLoad(s, gids, j);
    }
  }
}
