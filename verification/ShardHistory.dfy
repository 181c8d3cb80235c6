/**
 * What the controller's configurations are after a history of commands, said on the commands alone:
 * which groups there are and with which servers, and which shards a command moves.
 */
module ShardHistory {
  import opened ShardBalance
  import opened ShardConfig
  import opened ShardController

  // ---------------------------------------------------------------- commands that count

  /** The highest number of a client's commands, or 0. */
  function Highest(cmds: seq<Command>, client: nat): int {
    if cmds == [] then 0
    else
      var h, cmd := Highest(cmds[..|cmds| - 1], client), cmds[|cmds| - 1];
      if cmd.clientId == client && cmd.seqNum > h then cmd.seqNum else h
  }

  /** The command is not a repetition: its number is higher than all before it of its client. */
  predicate IsNew(cmds: seq<Command>, k: nat) {
    k < |cmds| && cmds[k].seqNum > Highest(cmds[..k], cmds[k].clientId)
  }

  function LastNumber(st: State, client: nat): int { if client in st.seqs then st.seqs[client] else 0 }

  lemma {:induction false} NumbersAre(run: seq<State>, cmds: seq<Command>, n: nat, k: nat, client: nat)
    requires IsRun(run, cmds, n) && k < |run|
    ensures LastNumber(run[k], client) == Highest(cmds[..k], client)
  {
    hide Accepts, Changed;
    if k > 0 {
      NumbersAre(run, cmds, n, k - 1, client);
      NumbersAre(run, cmds, n, k - 1, cmds[k - 1].clientId);
      assert StepAt(run, cmds, k - 1);
      assert cmds[..k][..k - 1] == cmds[..k - 1];
    }
  }

  lemma NewIsNotDone(run: seq<State>, cmds: seq<Command>, n: nat, k: nat)
    requires IsRun(run, cmds, n) && k < |cmds|
    ensures IsNew(cmds, k) <==> !Done(run[k], cmds[k])
  {
    NumbersAre(run, cmds, n, k, cmds[k].clientId);
  }

  // ---------------------------------------------------------------- the groups

  function Servers(g: map<int, seq<string>>, gid: int): seq<string> { if gid in g then g[gid] else [] }

  /** Joined servers come behind those a group has. */
  function Joined(g: map<int, seq<string>>, more: map<int, seq<string>>): map<int, seq<string>> {
    map gid | gid in g.Keys + more.Keys :: Servers(g, gid) + Servers(more, gid)
  }

  function Left(g: map<int, seq<string>>, gids: seq<int>): map<int, seq<string>> {
    map gid | gid in g && gid !in gids :: g[gid]
  }

  /** The groups after a history: every new join adds, every new leave removes, and nothing else changes them. */
  function Groups(cmds: seq<Command>): map<int, seq<string>> {
    if cmds == [] then map[]
    else
      var g := Groups(cmds[..|cmds| - 1]);
      if !IsNew(cmds, |cmds| - 1) then g
      else
        match cmds[|cmds| - 1].args
        case Join(more) => Joined(g, more)
        case Leave(gids) => Left(g, gids)
        case Move(_, _) => g
        case Query => g
  }

  ghost predicate SameGroups(a: map<int, seq<string>>, b: map<int, seq<string>>) {
    forall gid :: (gid in a <==> gid in b) && (gid in a ==> a[gid] == b[gid])
  }

  function Latest(st: State): Configuration
    requires st.configs != []
  {
    st.configs[|st.configs| - 1]
  }

  /** A list of configurations that starts as it should. */
  ghost predicate Begun(st: State, n: nat) {
    && st.configs != [] && st.configs[0] == First(n)
    && forall k :: 0 <= k < |st.configs| ==> st.configs[k].num == k
  }

  lemma RunBegun(run: seq<State>, cmds: seq<Command>, n: nat, k: nat)
    requires IsRun(run, cmds, n) && k < |run|
    ensures Begun(run[k], n) && AllOk(run[k], n, false)
  {
    hide ConfigOk;
    RunOk(run, cmds, n, k, false);
    FirstStays(run, cmds, n, k);
  }

  lemma {:induction false} FirstStays(run: seq<State>, cmds: seq<Command>, n: nat, k: nat)
    requires IsRun(run, cmds, n) && k < |run|
    ensures run[k].configs != [] && run[k].configs[0] == First(n)
  {
    hide Accepts, Changed;
    if k > 0 {
      FirstStays(run, cmds, n, k - 1);
      assert StepAt(run, cmds, k - 1);
    }
  }

  lemma MergedAll(groups: map<int, seq<string>>, more: map<int, seq<string>>, gid: int)
    ensures gid in AfterJoin(groups, more) <==> gid in groups || gid in more
    ensures gid in AfterJoin(groups, more) ==> AfterJoin(groups, more)[gid] == Servers(groups, gid) + Servers(more, gid)
  {
    SortedIn(more);
    MergedIs(groups, more, Sorted(more.Keys), gid);
    assert gid in Members(Sorted(more.Keys)) <==> gid in more.Keys;
    if gid in groups { assert groups[gid] + [] == groups[gid]; }
    if gid in more { assert [] + more[gid] == more[gid]; }
  }

  lemma JoinedGroups(c: Configuration, groups: map<int, seq<string>>, num: int, g: map<int, seq<string>>)
    requires Allowed(c, Join(groups)) && SameGroups(c.groups, g) && (c.num == 0 ==> c.groups == map[])
    ensures SameGroups(Changed(c, Join(groups), num).groups, Joined(g, groups))
  {
    var after := Changed(c, Join(groups), num).groups;
    forall gid
      ensures (gid in after <==> gid in Joined(g, groups)) && (gid in after ==> after[gid] == Joined(g, groups)[gid])
    {
      if c.num == 0 {
        assert gid !in g;
        if gid in groups { assert [] + groups[gid] == groups[gid]; }
      } else {
        MergedAll(c.groups, groups, gid);
      }
    }
  }

  lemma MembersAre(gids: seq<int>, gid: int)
    ensures gid in Members(gids) <==> gid in gids
  {
  }

  lemma LeftGroups(c: Configuration, gids: seq<int>, num: int, g: map<int, seq<string>>)
    requires SameGroups(c.groups, g)
    ensures SameGroups(Changed(c, Leave(gids), num).groups, Left(g, gids))
  {
    hide LeaveAll, Members;
    var after := Changed(c, Leave(gids), num).groups;
    forall gid ensures (gid in after <==> gid in Left(g, gids)) && (gid in after ==> after[gid] == Left(g, gids)[gid]) {
      MembersAre(gids, gid);
    }
  }

  lemma ChangedGroups(c: Configuration, args: Args, num: int, g: map<int, seq<string>>)
    requires Allowed(c, args) && SameGroups(c.groups, g) && (c.num == 0 ==> c.groups == map[])
    ensures match args {
              case Join(more) => SameGroups(Changed(c, args, num).groups, Joined(g, more))
              case Leave(gids) => SameGroups(Changed(c, args, num).groups, Left(g, gids))
              case Move(_, _) => SameGroups(Changed(c, args, num).groups, g)
              case Query => SameGroups(Changed(c, args, num).groups, g)
            }
  {
    hide SameGroups, Joined, Left, Sorted, Deal, JoinAll, LeaveAll, AfterJoin;
    match args
    case Join(more) => JoinedGroups(c, more, num, g);
    case Leave(gids) => LeftGroups(c, gids, num, g);
    case Move(_, _) =>
    case Query =>
  }

  lemma BegunGroups(st: State, n: nat)
    requires Begun(st, n)
    ensures Latest(st).num == 0 ==> Latest(st).groups == map[]
  {
  }

  /** In every run the groups of the latest configuration are those that the history of commands makes. */
  lemma {:induction false} GroupsAre(run: seq<State>, cmds: seq<Command>, n: nat, k: nat)
    requires IsRun(run, cmds, n) && k < |run|
    ensures run[k].configs != [] && SameGroups(Latest(run[k]).groups, Groups(cmds[..k]))
  {
    hide IsRun, SameGroups, Changed, Begun, AllOk, Allowed;
    RunSize(run, cmds, n);
    if k == 0 {
      NoGroups(run, cmds, n);
    } else {
      GroupsAre(run, cmds, n, k - 1);
      var st, cmd := run[k - 1], cmds[k - 1];
      StepTaken(run, cmds, n, k - 1);
      assert cmds[..k][..k - 1] == cmds[..k - 1];
      NewIsNotDone(run, cmds, n, k - 1);
      RunBegun(run, cmds, n, k - 1);
      BegunGroups(st, n);
      assert IsNew(cmds[..k], k - 1) <==> IsNew(cmds, k - 1);
      if !Done(st, cmd) { ChangedGroups(Latest(st), cmd.args, |st.configs|, Groups(cmds[..k - 1])); }
    }
  }

  lemma RunSize(run: seq<State>, cmds: seq<Command>, n: nat)
    requires IsRun(run, cmds, n)
    ensures |run| == |cmds| + 1
  {
  }

  lemma NoGroups(run: seq<State>, cmds: seq<Command>, n: nat)
    requires IsRun(run, cmds, n)
    ensures run[0].configs != [] && SameGroups(Latest(run[0]).groups, Groups(cmds[..0]))
  {
  }

  lemma StepTaken(run: seq<State>, cmds: seq<Command>, n: nat, k: nat)
    requires IsRun(run, cmds, n) && k < |cmds|
    ensures k + 1 < |run| && Accepts(run[k], cmds[k]) && run[k + 1] == Apply(run[k], cmds[k])
  {
    assert StepAt(run, cmds, k);
  }

  // ---------------------------------------------------------------- the shards

  /** Every shard that moves ends on one of the given groups. */
  ghost predicate MovesTo(s: seq<int>, t: seq<int>, gids: set<int>) {
    |t| == |s| && forall i :: 0 <= i < |s| && t[i] != s[i] ==> t[i] in gids
  }

  lemma {:induction false} JoinAllMoves(s: seq<int>, gs: set<int>, gids: seq<int>)
    requires Placed(s, gs) && 0 !in gs && 0 !in Members(gids)
    ensures MovesTo(s, JoinAll(s, gs, gids), Members(gids))
  {
    hide JoinOne, Placed;
    if gids != [] {
      var init, g := gids[..|gids| - 1], gids[|gids| - 1];
      MembersMore(gids);
      assert g in Members(gids);
      JoinAllMoves(s, gs, init);
      JoinAllPlaces(s, gs, init);
      JoinPlaces(JoinAll(s, gs, init), gs + Members(init), g);
    }
  }

  /** A shard of a group that does not leave stays where it is. */
  ghost predicate OthersStay(s: seq<int>, t: seq<int>, gids: set<int>) {
    |t| == |s| && forall i :: 0 <= i < |s| && s[i] !in gids ==> t[i] == s[i]
  }

  lemma {:induction false} LeaveAllMoves(s: seq<int>, gs: set<int>, gids: seq<int>)
    requires Placed(s, gs) && 0 !in gs
    ensures OthersStay(s, LeaveAll(s, gs, gids), Members(gids))
  {
    hide LeaveOne, Placed;
    if gids != [] {
      var init, g := gids[..|gids| - 1], gids[|gids| - 1];
      MembersMore(gids);
      assert g in Members(gids);
      LeaveAllMoves(s, gs, init);
      LeaveAllPlaces(s, gs, init);
      LeavePlaces(LeaveAll(s, gs, init), gs - Members(init), g);
    }
  }

  lemma DealtTo(n: nat, gids: seq<int>)
    requires gids != []
    ensures forall i :: 0 <= i < n ==> Deal(n, gids)[i] in Members(gids)
  {
    forall i | 0 <= i < n ensures Deal(n, gids)[i] in Members(gids) { assert Deal(n, gids)[i] in gids; }
  }

  lemma JoinMoves(c: Configuration, groups: map<int, seq<string>>, num: int)
    requires ConfigOk(c, |c.shards|, false) && Allowed(c, Join(groups))
    ensures MovesTo(c.shards, Changed(c, Join(groups), num).shards, groups.Keys)
  {
    hide Placed, JoinAll, Deal;
    var gids := Sorted(groups.Keys);
    if c.num == 0 {
      NoMembers(gids);
      DealtTo(|c.shards|, gids);
    } else {
      JoinAllMoves(c.shards, c.groups.Keys, gids);
    }
  }

  /** After a leave no shard is on a group that left, and no shard of another group has moved. */
  lemma LeaveMoves(c: Configuration, gids: seq<int>, num: int)
    requires ConfigOk(c, |c.shards|, false)
    ensures var t := Changed(c, Leave(gids), num);
            && |t.shards| == |c.shards|
            && (forall i :: 0 <= i < |t.shards| ==> t.shards[i] in t.groups || (t.groups == map[] && t.shards[i] == 0))
            && (forall i :: 0 <= i < |t.shards| ==> !(t.shards[i] in c.groups && t.shards[i] in gids))
            && (forall i :: 0 <= i < |c.shards| && c.shards[i] !in gids ==> t.shards[i] == c.shards[i])
  {
    hide LeaveAll;
    LeaveAllMoves(c.shards, c.groups.Keys, gids);
    LeaveOk(c, gids, num, false);
    var t := Changed(c, Leave(gids), num);
    forall i | 0 <= i < |c.shards| ensures c.shards[i] in Members(gids) <==> c.shards[i] in gids { MembersAre(gids, c.shards[i]); }
    forall i | 0 <= i < |t.shards| ensures t.shards[i] in Members(gids) <==> t.shards[i] in gids { MembersAre(gids, t.shards[i]); }
    if t.groups.Keys == {} { NoKeys(t.groups); }
  }

  lemma NoKeys(g: map<int, seq<string>>)
    requires g.Keys == {}
    ensures g == map[]
  {
    assert forall x :: x in g ==> x in g.Keys;
  }

  /** What one command does to the shards of the latest configuration. */
  ghost predicate ShardsMove(c: Configuration, args: Args, t: Configuration) {
    && |t.shards| == |c.shards|
    && match args {
         case Join(groups) => MovesTo(c.shards, t.shards, groups.Keys)
         case Leave(gids) =>
           && (forall i :: 0 <= i < |t.shards| ==> t.shards[i] in t.groups || (t.groups == map[] && t.shards[i] == 0))
           && (forall i :: 0 <= i < |t.shards| ==> !(t.shards[i] in c.groups && t.shards[i] in gids))
           && (forall i :: 0 <= i < |c.shards| && c.shards[i] !in gids ==> t.shards[i] == c.shards[i])
         case Move(shard, gid) =>
           forall i :: 0 <= i < |c.shards| ==> t.shards[i] == if i == shard then gid else c.shards[i]
         case Query => t == c
       }
  }

  /**
   * In every run a repeated command changes nothing. A new one other than a query appends one
   * configuration: after a join every shard that moved is on a joined group; after a leave no shard is on
   * a group that left and all others are where they were; a move moves its shard to its group alone.
   */
  lemma StepMoves(run: seq<State>, cmds: seq<Command>, n: nat, k: nat)
    requires IsRun(run, cmds, n) && k < |cmds|
    ensures k + 1 < |run| && run[k].configs != [] && run[k + 1].configs != []
    ensures !IsNew(cmds, k) ==> run[k + 1] == run[k]
    ensures IsNew(cmds, k) && cmds[k].args.Query? ==> run[k + 1].configs == run[k].configs
    ensures IsNew(cmds, k) && !cmds[k].args.Query? ==>
              && run[k + 1].configs == run[k].configs + [Latest(run[k + 1])]
              && Latest(run[k + 1]).num == |run[k].configs|
              && ShardsMove(Latest(run[k]), cmds[k].args, Latest(run[k + 1]))
  {
    hide IsRun, Changed, Allowed, Begun, MovesTo;
    RunSize(run, cmds, n);
    StepTaken(run, cmds, n, k);
    NewIsNotDone(run, cmds, n, k);
    RunBegun(run, cmds, n, k);
    var st, cmd := run[k], cmds[k];
    if !Done(st, cmd) && !cmd.args.Query? {
      var c := Latest(st);
      assert ConfigOk(c, n, false);
      NumOk(c, cmd.args, |st.configs|);
      ChangeMoves(c, cmd.args, |st.configs|);
    }
  }

  lemma ChangeMoves(c: Configuration, args: Args, num: int)
    requires ConfigOk(c, |c.shards|, false) && Allowed(c, args) && !args.Query?
    ensures ShardsMove(c, args, Changed(c, args, num))
  {
    hide ConfigOk, MovesTo, Placed, JoinAll, LeaveAll, AfterJoin, Deal, Sorted;
    match args
    case Join(groups) =>
      JoinMoves(c, groups, num);
      MovesSize(c.shards, Changed(c, args, num).shards, groups.Keys);
    case Leave(gids) => LeaveMoves(c, gids, num);
    case Move(_, _) =>
  }

  lemma MovesSize(s: seq<int>, t: seq<int>, gids: set<int>)
    requires MovesTo(s, t, gids)
    ensures |t| == |s|
  {
  }
}
