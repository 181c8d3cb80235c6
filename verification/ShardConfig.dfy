/** A configuration of the shard controller, changed in place by joins, leaves and moves. */
module ShardConfig {
  import opened ShardBalance

  lemma SameSet(a: set<int>, b: set<int>)
    requires forall g :: g in a <==> g in b
    ensures a == b
  {
    SomeMember(a - b);
    SomeMember(b - a);
  }

  // ---------------------------------------------------------------- keys in ascending order

  method InsertGid(gids: seq<int>, g: int) returns (r: seq<int>)
    requires Ascending(gids) && g !in Members(gids)
    ensures Ascending(r) && forall x :: x in Members(r) <==> x in Members(gids) || x == g
  {
    var i := |gids|;
    while i > 0 && g < gids[i - 1]
      invariant 0 <= i <= |gids| && forall j :: i <= j < |gids| ==> g < gids[j]
    {
      i := i - 1;
    }
    r := Inserted(gids, g, i);
    assert i > 0 ==> gids[i - 1] in Members(gids);
    InsertedGid(gids, g, i);
  }

  function Inserted(gids: seq<int>, g: int, i: nat): (r: seq<int>)
    requires i <= |gids|
    ensures |r| == |gids| + 1
    ensures forall k :: 0 <= k < |r| ==> r[k] == if k < i then gids[k] else if k == i then g else gids[k - 1]
  {
    gids[..i] + [g] + gids[i..]
  }

  lemma InsertedGid(gids: seq<int>, g: int, i: nat)
    requires Ascending(gids) && i <= |gids| && (i > 0 ==> gids[i - 1] < g) && forall j :: i <= j < |gids| ==> g < gids[j]
    ensures Ascending(Inserted(gids, g, i))
    ensures forall x :: x in Members(Inserted(gids, g, i)) <==> x in Members(gids) || x == g
  {
    var r := Inserted(gids, g, i);
    forall x ensures x in Members(r) <==> x in Members(gids) || x == g {
      if x in Members(gids) {
        var k :| 0 <= k < |gids| && gids[k] == x;
        assert r[if k < i then k else k + 1] == x;
      }
      assert r[i] == g;
    }
  }

  method SortedKeys<T>(m: map<int, T>) returns (gids: seq<int>)
    ensures Ascending(gids) && Members(gids) == m.Keys
  {
    gids := [];
    var left := m.Keys;
    while left != {}
      invariant Ascending(gids) && left <= m.Keys && forall g :: g in Members(gids) <==> g in m.Keys - left
      decreases |left|
    {
      SomeMember(left);
      var g :| g in left;
      gids := InsertGid(gids, g);
      left := left - {g};
    }
    SameSet(Members(gids), m.Keys);
  }

  /** A set of groups has one ascending order. */
  lemma {:induction false} OneOrder(a: seq<int>, b: seq<int>)
    requires Ascending(a) && Ascending(b) && Members(a) == Members(b)
    ensures a == b
  {
    if a == [] {
      NoMembers(b);
    } else {
      assert a[|a| - 1] in Members(b);
      var j :| 0 <= j < |b| && b[j] == a[|a| - 1];
      assert b[|b| - 1] in Members(a);
      var i :| 0 <= i < |a| && a[i] == b[|b| - 1];
      assert i == |a| - 1 && j == |b| - 1;
      var x, y := a[..|a| - 1], b[..|b| - 1];
      LastOut(a);
      LastOut(b);
      OneOrder(x, y);
      assert a == x + [a[|a| - 1]] && b == y + [b[|b| - 1]];
    }
  }

  lemma NoMembers(a: seq<int>)
    ensures Members(a) == {} <==> a == []
  {
    if a != [] { assert a[0] in Members(a); }
  }

  lemma LastOut(a: seq<int>)
    requires Ascending(a) && a != []
    ensures Ascending(a[..|a| - 1]) && Members(a[..|a| - 1]) == Members(a) - {a[|a| - 1]}
  {
    MembersMore(a);
    NotBefore(a, |a| - 1);
  }

  /** An order in which at most one of two counts comes first. */
  ghost predicate IsOrder(cmp: (nat, nat) -> bool) {
    && (forall a :: !cmp(a, a))
    && (forall a, b, c :: cmp(a, b) && cmp(b, c) ==> cmp(a, c))
    && forall a, b, c :: !cmp(a, b) && !cmp(b, c) ==> !cmp(a, c)
  }

  predicate Picked(m: map<int, seq<nat>>, cmp: (nat, nat) -> bool, g: int, h: int)
    requires g in m && h in m
  {
    cmp(|m[g]|, |m[h]|) || (!cmp(|m[h]|, |m[g]|) && g <= h)
  }

  /** The lowest-numbered group whose count comes first, or 0 when there is none. */
  method GetGidWithCmpNumShards(m: map<int, seq<nat>>, cmp: (nat, nat) -> bool) returns (g: int)
    requires IsOrder(cmp)
    ensures m.Keys == {} ==> g == 0
    ensures m.Keys != {} ==> g in m && forall h :: h in m ==> Picked(m, cmp, g, h)
  {
    if m.Keys == {} {
      return 0;
    }
    var gids := SortedKeys(m);
    SomeMember(m.Keys);
    g := gids[0];
    assert g in Members(gids);
    var count := |m[g]|;
    for i := 1 to |gids|
      invariant g in m && count == |m[g]| && forall j :: 0 <= j < i ==> gids[j] in m && Picked(m, cmp, g, gids[j])
      invariant exists j :: 0 <= j < i && gids[j] == g
    {
      assert gids[i] in Members(gids);
      var shards := m[gids[i]];
      if cmp(|shards|, count) {
        g, count := gids[i], |shards|;
      }
    }
    forall h | h in m ensures Picked(m, cmp, g, h) {
      assert h in Members(gids);
    }
  }

  // ---------------------------------------------------------------- the specification of many joins and leaves

  ghost function JoinAll(s: seq<int>, gs: set<int>, gids: seq<int>): seq<int> {
    if gids == [] then s
    else
      var init := gids[..|gids| - 1];
      JoinOne(JoinAll(s, gs, init), gs + Members(init), gids[|gids| - 1])
  }

  ghost function LeaveAll(s: seq<int>, gs: set<int>, gids: seq<int>): seq<int> {
    if gids == [] then s
    else
      var init := gids[..|gids| - 1];
      LeaveOne(LeaveAll(s, gs, init), gs - Members(init), gids[|gids| - 1])
  }

  /** The groups after a join: the servers of each are added behind those it has. */
  function Merged(groups: map<int, seq<string>>, more: map<int, seq<string>>, gids: seq<int>): map<int, seq<string>>
    requires forall i :: 0 <= i < |gids| ==> gids[i] in more
  {
    if gids == [] then groups
    else
      var m, g := Merged(groups, more, gids[..|gids| - 1]), gids[|gids| - 1];
      m[g := (if g in m then m[g] else []) + more[g]]
  }

  lemma {:induction false} MergedIs(groups: map<int, seq<string>>, more: map<int, seq<string>>, gids: seq<int>, g: int)
    requires Ascending(gids) && forall i :: 0 <= i < |gids| ==> gids[i] in more
    ensures g in Merged(groups, more, gids) <==> g in groups || g in Members(gids)
    ensures g in Merged(groups, more, gids) ==>
              Merged(groups, more, gids)[g] == (if g in groups then groups[g] else []) + (if g in Members(gids) then more[g] else [])
  {
    if gids != [] {
      MembersMore(gids);
      NotBefore(gids, |gids| - 1);
      MergedIs(groups, more, gids[..|gids| - 1], g);
    }
  }

  lemma MergedKeys(groups: map<int, seq<string>>, more: map<int, seq<string>>, gids: seq<int>)
    requires Ascending(gids) && forall i :: 0 <= i < |gids| ==> gids[i] in more
    ensures Merged(groups, more, gids).Keys == groups.Keys + Members(gids)
  {
    forall g ensures g in Merged(groups, more, gids).Keys <==> g in groups.Keys + Members(gids) { MergedIs(groups, more, gids, g); }
    SameSet(Merged(groups, more, gids).Keys, groups.Keys + Members(gids));
  }

  lemma AllMembers(gids: seq<int>)
    ensures forall i :: 0 <= i < |gids| ==> gids[i] in Members(gids)
  {
  }

  lemma JoinNone(s: seq<int>, groups: map<int, seq<string>>, more: map<int, seq<string>>)
    ensures JoinAll(s, groups.Keys, []) == s && Merged(groups, more, []) == groups
  {
  }

  /** One more group on top of those joined so far. */
  lemma JoinMore(s: seq<int>, groups: map<int, seq<string>>, more: map<int, seq<string>>, gids: seq<int>, i: nat)
    requires i < |gids| && Ascending(gids) && forall j :: 0 <= j < |gids| ==> gids[j] in more
    ensures var m, g := Merged(groups, more, gids[..i]), gids[i];
            && JoinAll(s, groups.Keys, gids[..i + 1]) == JoinOne(JoinAll(s, groups.Keys, gids[..i]), m.Keys, g)
            && Merged(groups, more, gids[..i + 1]) == m[g := (if g in m then m[g] else []) + more[g]]
  {
    hide JoinOne;
    assert gids[..i + 1][..i] == gids[..i];
    MergedKeys(groups, more, gids[..i]);
  }

  lemma MembersMore(gids: seq<int>)
    requires gids != []
    ensures Members(gids) == Members(gids[..|gids| - 1]) + {gids[|gids| - 1]}
  {
    var init, g := gids[..|gids| - 1], gids[|gids| - 1];
    forall x ensures x in Members(gids) <==> x in Members(init) + {g} {
      if x in Members(init) {
        var i :| 0 <= i < |init| && init[i] == x;
        assert gids[i] == x;
      }
      if x in Members(gids) {
        var i :| 0 <= i < |gids| && gids[i] == x;
        assert i < |init| ==> init[i] == x;
      }
      assert gids[|init|] == g;
    }
  }

  /** Any number of joins keeps a balanced configuration balanced. */
  lemma {:induction false} JoinAllBalances(s: seq<int>, gs: set<int>, gids: seq<int>)
    requires Balanced(s, gs) && 0 !in gs && 0 !in Members(gids)
    ensures |JoinAll(s, gs, gids)| == |s| && Balanced(JoinAll(s, gs, gids), gs + Members(gids))
  {
    hide JoinOne, Balanced;
    if gids == [] {
      assert gs + Members([]) == gs;
    } else {
      var init, g := gids[..|gids| - 1], gids[|gids| - 1];
      MembersMore(gids);
      assert g in Members(gids);
      JoinAllBalances(s, gs, init);
      JoinKeeps(JoinAll(s, gs, init), gs + Members(init), g);
      assert gs + Members(gids) == gs + Members(init) + {g};
    }
  }

  lemma JoinKeeps(s: seq<int>, gs: set<int>, g: int)
    requires Balanced(s, gs) && 0 !in gs && g != 0
    ensures |JoinOne(s, gs, g)| == |s| && Balanced(JoinOne(s, gs, g), gs + {g})
  {
    if g in gs {
      assert gs + {g} == gs;
    } else {
      JoinBalances(s, gs, g);
    }
  }

  /** Any number of leaves, of members or not, keeps a balanced configuration balanced. */
  lemma {:induction false} LeaveAllBalances(s: seq<int>, gs: set<int>, gids: seq<int>)
    requires Balanced(s, gs) && 0 !in gs
    ensures |LeaveAll(s, gs, gids)| == |s| && Balanced(LeaveAll(s, gs, gids), gs - Members(gids))
  {
    hide LeaveOne, Balanced;
    if gids == [] {
      assert gs - Members([]) == gs;
    } else {
      var init, g := gids[..|gids| - 1], gids[|gids| - 1];
      MembersMore(gids);
      LeaveAllBalances(s, gs, init);
      LeaveBalances(LeaveAll(s, gs, init), gs - Members(init), g);
      assert gs - Members(gids) == gs - Members(init) - {g};
    }
  }

  lemma {:induction false} JoinAllPlaces(s: seq<int>, gs: set<int>, gids: seq<int>)
    requires Placed(s, gs) && 0 !in gs && 0 !in Members(gids)
    ensures |JoinAll(s, gs, gids)| == |s| && Placed(JoinAll(s, gs, gids), gs + Members(gids))
  {
    hide JoinOne, Placed;
    if gids == [] {
      assert gs + Members([]) == gs;
    } else {
      var init, g := gids[..|gids| - 1], gids[|gids| - 1];
      MembersMore(gids);
      assert g in Members(gids);
      JoinAllPlaces(s, gs, init);
      JoinPlaces(JoinAll(s, gs, init), gs + Members(init), g);
      assert gs + Members(gids) == gs + Members(init) + {g};
    }
  }

  lemma {:induction false} LeaveAllPlaces(s: seq<int>, gs: set<int>, gids: seq<int>)
    requires Placed(s, gs) && 0 !in gs
    ensures |LeaveAll(s, gs, gids)| == |s| && Placed(LeaveAll(s, gs, gids), gs - Members(gids))
  {
    hide LeaveOne, Placed;
    if gids == [] {
      assert gs - Members([]) == gs;
    } else {
      var init, g := gids[..|gids| - 1], gids[|gids| - 1];
      MembersMore(gids);
      LeaveAllPlaces(s, gs, init);
      LeavePlaces(LeaveAll(s, gs, init), gs - Members(init), g);
      assert gs - Members(gids) == gs - Members(init) - {g};
    }
  }

  // ---------------------------------------------------------------- the configuration

  datatype Configuration = Configuration(num: int, shards: seq<int>, groups: map<int, seq<string>>)

  class Config {
    var num: int
    const shards: array<int>
    var groups: map<int, seq<string>>

    /** A copy to work on. */
    constructor Clone(from: Configuration)
      ensures fresh(shards) && View() == from
    {
      num, groups := from.num, from.groups;
      shards := new int[|from.shards|](i requires 0 <= i < |from.shards| => from.shards[i]);
      new;
      assert shards[..] == from.shards;
    }

    ghost function View(): Configuration
      reads this, shards
    {
      Configuration(num, shards[..], groups)
    }

    /** Every shard is on a member group, or on group 0 when there are none. */
    ghost predicate Valid()
      reads this, shards
    {
      Placed(shards[..], groups.Keys) && 0 !in groups
    }

    method GetGroupShardsMap() returns (m: map<int, seq<nat>>)
      ensures m.Keys == groups.Keys + Holders(shards[..])
      ensures forall g :: g in m ==> m[g] == Owned(shards[..], g)
    {
      hide Owned;
      m := map g | g in groups :: [];
      forall g ensures FiledAt(m, groups.Keys, shards[..0], g) { NothingOwned(g); }
      for i := 0 to shards.Length
        invariant forall g :: FiledAt(m, groups.Keys, shards[..i], g)
      {
        var g := shards[i];
        ghost var before := m;
        m := m[g := (if g in m then m[g] else []) + [i]];
        ghost var now := shards[..i + 1];
        assert now == shards[..i] + [g];
        forall h ensures FiledAt(m, groups.Keys, now, h) { FileOne(before, groups.Keys, shards[..i], g, h); }
      }
      ghost var s := shards[..];
      assert shards[..shards.Length] == s;
      forall g ensures (g in m.Keys <==> g in groups.Keys + Holders(s)) && (g in m ==> m[g] == Owned(s, g)) {
        assert FiledAt(m, groups.Keys, s, g);
      }
      SameSet(m.Keys, groups.Keys + Holders(s));
    }

    method GetGidWithMinimumShards(m: map<int, seq<nat>>) returns (g: int)
      ensures m.Keys == {} ==> g == 0
      ensures m.Keys != {} ==> g in m && forall h :: h in m ==> |m[g]| < |m[h]| || (|m[g]| == |m[h]| && g <= h)
    {
      g := GetGidWithCmpNumShards(m, (a, b) => a < b);
    }

    /** Group 0 is emptied first. */
    method GetGidWithMaximumShards(m: map<int, seq<nat>>) returns (g: int)
      ensures 0 in m || m.Keys == {} ==> g == 0
      ensures 0 !in m && m.Keys != {} ==> g in m && forall h :: h in m ==> |m[g]| > |m[h]| || (|m[g]| == |m[h]| && g <= h)
    {
      if 0 in m {
        return 0;
      }
      g := GetGidWithCmpNumShards(m, (a, b) => a > b);
    }

    /** The group to take from, and its shards. */
    method FindDonor(g: int) returns (donor: int, its: seq<nat>)
      ensures donor == Donor(shards[..], groups.Keys, g)
      ensures donor != g ==> its == Owned(shards[..], donor)
    {
      hide Owned;
      var m := GetGroupShardsMap();
      m := m - {g};
      assert m.Keys == Others(shards[..], groups.Keys, g);
      donor := GetGidWithMaximumShards(m);
      its := if donor in m then m[donor] else [];
      DonorIs(shards[..], groups.Keys, g, m, donor);
    }

    /** Gives a new group its shards, one at a time. */
    method FillGroup(g: int)
      requires Valid() && g !in groups && g != 0
      modifies shards
      ensures shards[..] == Fill(old(shards[..]), groups.Keys, g, 0)
    {
      hide Load, Owned, Fill;
      ghost var gs, s0 := groups.Keys, shards[..];
      Unused(s0, g);
      for cnt := 0 to shards.Length
        invariant groups.Keys == gs && Between(shards[..], gs, g) && Load(shards[..], g) == cnt
        invariant Fill(s0, gs, g, 0) == Fill(shards[..], gs, g, cnt)
      {
        ghost var s := shards[..];
        var donor, its := FindDonor(g);
        DonorHas(s, gs, g, cnt, donor);
        FillUnfolds(s, gs, g, cnt, donor);
        LoadIs(s, donor);
        if cnt >= |its| && donor != 0 {
          break;
        }
        assert its[0] in its;
        LoadMove(s, its[0], g, g);
        shards[its[0]] := g;
        assert shards[..] == s[its[0] := g];
      }
      FillEnds(shards[..], gs, g);
    }

    /** Adds one group; one that is already there only gets more servers. */
    method JoinGroup(newGid: int, newServers: seq<string>)
      requires Valid() && newGid != 0
      modifies this`groups, shards
      ensures Valid() && shards[..] == JoinOne(old(shards[..]), old(groups.Keys), newGid)
      ensures groups == old(groups)[newGid := (if newGid in old(groups) then old(groups)[newGid] else []) + newServers]
    {
      hide Fill, JoinOne;
      ghost var s := shards[..];
      if newGid !in groups {
        FillGroup(newGid);
      }
      JoinOneIs(s, groups.Keys, newGid);
      JoinPlaces(s, groups.Keys, newGid);
      groups := groups[newGid := (if newGid in groups then groups[newGid] else []) + newServers];
      assert groups.Keys == old(groups.Keys) + {newGid};
    }

    /** Adds the groups in ascending order. */
    method JoinGroups(newGroups: map<int, seq<string>>) returns (ghost gids: seq<int>)
      requires Valid() && 0 !in newGroups
      modifies this`groups, shards
      ensures Valid() && Ascending(gids) && Members(gids) == newGroups.Keys
      ensures shards[..] == JoinAll(old(shards[..]), old(groups.Keys), gids)
      ensures (forall i :: 0 <= i < |gids| ==> gids[i] in newGroups) && groups == Merged(old(groups), newGroups, gids)
    {
      hide JoinOne, Config.Valid, JoinAll, Merged, Members, Ascending;
      ghost var s0, groups0 := shards[..], groups;
      var sorted := SortedKeys(newGroups);
      gids := sorted;
      AllMembers(sorted);
      JoinNone(s0, groups0, newGroups);
      for i := 0 to |sorted|
        invariant Valid() && shards[..] == JoinAll(s0, groups0.Keys, sorted[..i])
        invariant groups == Merged(groups0, newGroups, sorted[..i])
      {
        JoinMore(s0, groups0, newGroups, sorted, i);
        JoinGroup(sorted[i], newGroups[sorted[i]]);
      }
      assert sorted[..|sorted|] == sorted;
    }

    /** The group to give to. */
    method FindReceiver(g: int) returns (r: int)
      ensures r == Receiver(shards[..], groups.Keys, g)
    {
      hide Owned;
      var m := GetGroupShardsMap();
      m := m - {g};
      assert m.Keys == Others(shards[..], groups.Keys, g);
      r := GetGidWithMinimumShards(m);
      ReceiverIs(shards[..], groups.Keys, g, m, r);
    }

    /** Hands out the shards of a group that is no longer there. */
    method DrainGroup(g: int, its: seq<nat>)
      requires InRange(its, shards.Length)
      modifies shards
      ensures shards[..] == Drain(old(shards[..]), groups.Keys, g, its)
    {
      ghost var s0, gs := shards[..], groups.Keys;
      for i := 0 to |its|
        invariant groups.Keys == gs && InRange(its[i..], shards.Length)
        invariant Drain(s0, gs, g, its) == Drain(shards[..], gs, g, its[i..])
      {
        ghost var s := shards[..];
        var rmShard := its[i];
        assert its[i..][0] == rmShard && its[i..][1..] == its[i + 1..];
        var r := FindReceiver(g);
        shards[rmShard] := r;
        assert shards[..] == s[rmShard := r];
      }
    }

    method RemoveGroup(gid: int)
      requires Valid()
      modifies this`groups, shards
      ensures Valid() && shards[..] == LeaveOne(old(shards[..]), old(groups.Keys), gid) && groups == old(groups) - {gid}
    {
      hide Drain;
      ghost var s, gs := shards[..], groups.Keys;
      LeavePlaces(s, gs, gid);
      if gid in groups {
        var m := GetGroupShardsMap();
        var removeShards := m[gid];
        OwnedInRange(s, gid);
        groups := groups - {gid};
        assert groups.Keys == gs - {gid};
        DrainGroup(gid, removeShards);
      } else {
        assert groups - {gid} == groups && gs - {gid} == gs;
      }
    }

    method RemoveGroups(gids: seq<int>)
      requires Valid()
      modifies this`groups, shards
      ensures Valid() && shards[..] == LeaveAll(old(shards[..]), old(groups.Keys), gids)
      ensures groups == old(groups) - Members(gids)
    {
      hide LeaveOne, Config.Valid;
      ghost var s0, groups0 := shards[..], groups;
      assert groups0 - Members([]) == groups0;
      for i := 0 to |gids|
        invariant Valid() && shards[..] == LeaveAll(s0, groups0.Keys, gids[..i]) && groups == groups0 - Members(gids[..i])
      {
        assert gids[..i + 1][..i] == gids[..i];
        MembersMore(gids[..i + 1]);
        assert groups.Keys == groups0.Keys - Members(gids[..i]);
        RemoveGroup(gids[i]);
      }
      assert gids[..|gids|] == gids;
    }

    /** Deals the shards out to the groups, round and round. */
    method ResetShards()
      requires groups.Keys != {} && 0 !in groups
      modifies shards
      ensures Valid() && Balanced(shards[..], groups.Keys)
      ensures exists gids :: gids != [] && Ascending(gids) && Members(gids) == groups.Keys && Dealt(shards[..], gids)
    {
      hide Turn, Rounds;
      var gids := SortedKeys(groups);
      assert gids != [] by { SomeMember(groups.Keys); }
      ghost var k := |gids|;
      OneMore(0, k);
      var shard := 0;
      while shard < shards.Length
        invariant 0 <= shard <= shards.Length && Dealt(shards[..shard], gids)
        invariant shard < shards.Length ==> Turn(shard, k) == 0
      {
        ghost var start := shard;
        var j := 0;
        while j < |gids|
          invariant 0 <= j <= k && start + j == shard <= shards.Length && Dealt(shards[..shard], gids)
          invariant j < k ==> shard < shards.Length && Turn(shard, k) == j
          invariant j == k && shard < shards.Length ==> Turn(shard, k) == 0
          decreases k - j
        {
          shards[shard] := gids[j];
          OneMore(shard, k);
          assert shards[..shard + 1][..shard] == shards[..shard];
          shard := shard + 1;
          j := j + 1;
          if shard >= shards.Length {
            break;
          }
        }
      }
      assert shards[..shard] == shards[..];
      DealtBalances(shards[..], gids);
    }

    method MoveShard(shard: nat, gid: int)
      requires shard < shards.Length
      modifies shards
      ensures shards[..] == old(shards[..])[shard := gid]
    {
      shards[shard] := gid;
    }
  }

  lemma NotBefore(gids: seq<int>, i: nat)
    requires Ascending(gids) && i < |gids|
    ensures gids[i] !in Members(gids[..i])
  {
  }

  lemma JoinOneIs(s: seq<int>, gs: set<int>, g: int)
    ensures JoinOne(s, gs, g) == if g in gs then s else Fill(s, gs, g, 0)
  {
  }

  lemma DonorIs(s: seq<int>, gs: set<int>, g: int, m: map<int, seq<nat>>, donor: int)
    requires m.Keys == Others(s, gs, g) && forall h :: h in m ==> m[h] == Owned(s, h)
    requires 0 in m || m.Keys == {} ==> donor == 0
    requires 0 !in m && m.Keys != {} ==>
               donor in m && forall h :: h in m ==> |m[donor]| > |m[h]| || (|m[donor]| == |m[h]| && donor <= h)
    ensures donor == Donor(s, gs, g)
    ensures donor !in m && donor != g ==> Owned(s, donor) == []
  {
    hide Owned;
    var others := Others(s, gs, g);
    if 0 !in others && others != {} {
      forall h | h in others ensures Load(s, h) < Load(s, donor) || (Load(s, h) == Load(s, donor) && donor <= h) {
        LoadIs(s, h);
        LoadIs(s, donor);
      }
      OneChoice(s, others, donor, Most(s, others));
    }
    if donor !in m && donor != g { NotHeld(s, donor); }
  }

  lemma ReceiverIs(s: seq<int>, gs: set<int>, g: int, m: map<int, seq<nat>>, r: int)
    requires m.Keys == Others(s, gs, g) && forall h :: h in m ==> m[h] == Owned(s, h)
    requires m.Keys == {} ==> r == 0
    requires m.Keys != {} ==> r in m && forall h :: h in m ==> |m[r]| < |m[h]| || (|m[r]| == |m[h]| && r <= h)
    ensures r == Receiver(s, gs, g)
  {
    hide Owned;
    var others := Others(s, gs, g);
    if others != {} {
      forall h | h in others ensures Load(s, h) > Load(s, r) || (Load(s, h) == Load(s, r) && r <= h) {
        LoadIs(s, h);
        LoadIs(s, r);
      }
      OneChoice(s, others, r, Least(s, others));
    }
  }

  lemma NotHeld(s: seq<int>, g: int)
    requires g !in Holders(s)
    ensures Owned(s, g) == []
  {
    forall i | 0 <= i < |s| ensures s[i] != g {}
    Unused(s, g);
  }

  /** On the way the donor is another group, and it has a shard to give. */
  lemma DonorHas(s: seq<int>, gs: set<int>, g: int, cnt: nat, donor: int)
    requires Between(s, gs, g) && g !in gs && 0 !in gs && g != 0 && Load(s, g) == cnt < |s| && donor == Donor(s, gs, g)
    ensures donor != g && (cnt < Load(s, donor) || donor == 0 ==> Load(s, donor) > 0)
  {
    hide Load;
    OthersAre(s, gs, g);
    if gs == {} { TwoLoads(s, g, 0); Held(s, 0); }
  }

  lemma Held(s: seq<int>, g: int)
    ensures Load(s, g) > 0 ==> g in Holders(s)
  {
    if g !in Holders(s) { NotHeld(s, g); }
  }

  lemma FillUnfolds(s: seq<int>, gs: set<int>, g: int, cnt: nat, donor: int)
    requires cnt < |s| && donor == Donor(s, gs, g)
    ensures cnt >= |Owned(s, donor)| && donor != 0 ==> Fill(s, gs, g, cnt) == s
    ensures |Owned(s, donor)| > 0 ==> Owned(s, donor)[0] < |s| && s[Owned(s, donor)[0]] == donor
    ensures !(cnt >= |Owned(s, donor)| && donor != 0) && |Owned(s, donor)| > 0 ==>
              Fill(s, gs, g, cnt) == Fill(s[Owned(s, donor)[0] := g], gs, g, cnt + 1)
  {
    if |Owned(s, donor)| > 0 { assert Owned(s, donor)[0] in Owned(s, donor); }
  }

  lemma FillEnds(s: seq<int>, gs: set<int>, g: int)
    ensures Fill(s, gs, g, |s|) == s
  {
  }

  /** The map holds, for a group, the shards of the part of the assignment read so far. */
  ghost predicate FiledAt(m: map<int, seq<nat>>, gs: set<int>, s: seq<int>, g: int) {
    && (g in m <==> g in gs || g in Holders(s))
    && (if g in m then m[g] else []) == Owned(s, g)
  }

  lemma NothingOwned(g: int)
    ensures Owned([], g) == []
  {
  }

  lemma FileOne(m: map<int, seq<nat>>, gs: set<int>, s: seq<int>, g: int, h: int)
    requires FiledAt(m, gs, s, g) && FiledAt(m, gs, s, h)
    ensures FiledAt(m[g := (if g in m then m[g] else []) + [|s|]], gs, s + [g], h)
  {
    assert (s + [g])[..|s|] == s;
    HoldersMore(s + [g]);
  }

  lemma HoldersMore(s: seq<int>)
    requires s != []
    ensures forall x :: x in Holders(s) <==> x in Holders(s[..|s| - 1]) || x == s[|s| - 1]
  {
    forall x ensures x in Holders(s) <==> x in Holders(s[..|s| - 1]) || x == s[|s| - 1] {
      var init := s[..|s| - 1];
      if x in Holders(init) {
        var i :| 0 <= i < |init| && init[i] == x;
        assert s[i] == x;
      }
      if x in Holders(s) {
        var i :| 0 <= i < |s| && s[i] == x;
        assert i < |init| ==> init[i] == x;
      }
      assert s[|init|] == s[|s| - 1];
    }
  }
}
