/** The shard controller: a growing list of configurations, driven by a log of commands. */
module ShardController {
  import opened ShardBalance
  import opened ShardConfig

  datatype Args =
    | Join(groups: map<int, seq<string>>)
    | Leave(gids: seq<int>)
    | Move(shard: nat, gid: int)
    | Query

  datatype Command = Command(args: Args, clientId: nat, seqNum: int)

  datatype State = State(configs: seq<Configuration>, seqs: map<nat, int>)

  /** Configuration 0: no groups, all shards on group 0. */
  function First(n: nat): Configuration { Configuration(0, seq(n, _ => 0), map[]) }

  predicate Done(st: State, cmd: Command) {
    (if cmd.clientId in st.seqs then st.seqs[cmd.clientId] else 0) >= cmd.seqNum
  }

  // ---------------------------------------------------------------- what a command does

  lemma {:induction false} SortedExists(gs: set<int>) returns (gids: seq<int>)
    ensures Ascending(gids) && Members(gids) == gs
    decreases |gs|
  {
    SomeMember(gs);
    if gs == {} {
      gids := [];
    } else {
      var g :| g in gs;
      var rest := SortedExists(gs - {g});
      var i := |rest|;
      while i > 0 && g < rest[i - 1]
        invariant 0 <= i <= |rest| && forall j :: i <= j < |rest| ==> g < rest[j]
      {
        i := i - 1;
      }
      assert i > 0 ==> rest[i - 1] in Members(rest);
      InsertedGid(rest, g, i);
      gids := Inserted(rest, g, i);
      SameSet(Members(gids), gs);
    }
  }

  ghost function Sorted(gs: set<int>): (gids: seq<int>)
    ensures Ascending(gids) && Members(gids) == gs
  {
    assert exists gids :: Ascending(gids) && Members(gids) == gs by { var gids := SortedExists(gs); }
    var gids :| Ascending(gids) && Members(gids) == gs;
    gids
  }

  function Deal(n: nat, gids: seq<int>): (s: seq<int>)
    requires gids != []
    ensures |s| == n && Dealt(s, gids)
  {
    seq(n, i requires 0 <= i => gids[Turn(i, |gids|)])
  }

  ghost function AfterJoin(groups: map<int, seq<string>>, more: map<int, seq<string>>): map<int, seq<string>> {
    SortedIn(more);
    Merged(groups, more, Sorted(more.Keys))
  }

  lemma SortedIn(more: map<int, seq<string>>)
    ensures forall i :: 0 <= i < |Sorted(more.Keys)| ==> Sorted(more.Keys)[i] in more
  {
    var gids := Sorted(more.Keys);
    forall i | 0 <= i < |gids| ensures gids[i] in more { assert gids[i] in Members(gids); }
  }

  /** Without groups the first join deals the shards out; it may not be empty. */
  ghost predicate Allowed(c: Configuration, args: Args) {
    match args
    case Join(groups) => 0 !in groups && (c.num == 0 ==> groups.Keys != {})
    case Leave(_) => true
    case Move(shard, gid) => shard < |c.shards| && gid in c.groups
    case Query => true
  }

  ghost function Changed(c: Configuration, args: Args, num: int): Configuration
    requires Allowed(c, args)
  {
    match args
    case Join(groups) =>
      if c.num == 0 then
        assert Sorted(groups.Keys) != [] by { NoMembers(Sorted(groups.Keys)); }
        Configuration(num, Deal(|c.shards|, Sorted(groups.Keys)), groups)
      else Configuration(num, JoinAll(c.shards, c.groups.Keys, Sorted(groups.Keys)), AfterJoin(c.groups, groups))
    case Leave(gids) => Configuration(num, LeaveAll(c.shards, c.groups.Keys, gids), c.groups - Members(gids))
    case Move(shard, gid) => c.(num := num, shards := c.shards[shard := gid])
    case Query => c
  }

  /** A command that has been applied before may ask for anything: it changes nothing. */
  ghost predicate Accepts(st: State, cmd: Command) {
    st.configs != [] && (Done(st, cmd) || Allowed(st.configs[|st.configs| - 1], cmd.args))
  }

  ghost function Apply(st: State, cmd: Command): State
    requires Accepts(st, cmd)
  {
    if Done(st, cmd) then st
    else
      var last := st.configs[|st.configs| - 1];
      State(if cmd.args.Query? then st.configs else st.configs + [Changed(last, cmd.args, |st.configs|)],
            st.seqs[cmd.clientId := cmd.seqNum])
  }

  // ---------------------------------------------------------------- every configuration is balanced

  /** Every shard is where it belongs; with `even`, the groups also share them evenly. */
  ghost predicate ConfigOk(c: Configuration, n: nat, even: bool) {
    |c.shards| == n && 0 !in c.groups && Placed(c.shards, c.groups.Keys) && (even ==> Even(c.shards, c.groups.Keys))
  }

  lemma FirstOk(n: nat)
    ensures ConfigOk(First(n), n, true)
  {
  }

  lemma JoinOk(c: Configuration, groups: map<int, seq<string>>, num: int, even: bool)
    requires ConfigOk(c, |c.shards|, even) && Allowed(c, Join(groups)) && c.num != 0
    ensures ConfigOk(Changed(c, Join(groups), num), |c.shards|, even)
  {
    hide Placed, Even, JoinAll;
    JoinAllPlaces(c.shards, c.groups.Keys, Sorted(groups.Keys));
    if even { JoinAllBalances(c.shards, c.groups.Keys, Sorted(groups.Keys)); }
    SortedIn(groups);
    MergedKeys(c.groups, groups, Sorted(groups.Keys));
  }

  lemma FirstJoinOk(c: Configuration, groups: map<int, seq<string>>, num: int)
    requires Allowed(c, Join(groups)) && c.num == 0
    ensures ConfigOk(Changed(c, Join(groups), num), |c.shards|, true)
  {
    hide Placed, Even, Dealt;
    NoMembers(Sorted(groups.Keys));
    DealtBalances(Deal(|c.shards|, Sorted(groups.Keys)), Sorted(groups.Keys));
  }

  lemma LeaveOk(c: Configuration, gids: seq<int>, num: int, even: bool)
    requires ConfigOk(c, |c.shards|, even)
    ensures ConfigOk(Changed(c, Leave(gids), num), |c.shards|, even)
  {
    hide Placed, Even, LeaveAll;
    LeaveAllPlaces(c.shards, c.groups.Keys, gids);
    if even { LeaveAllBalances(c.shards, c.groups.Keys, gids); }
    assert (c.groups - Members(gids)).Keys == c.groups.Keys - Members(gids);
  }

  lemma ChangedOk(c: Configuration, args: Args, num: int, even: bool)
    requires ConfigOk(c, |c.shards|, even) && Allowed(c, args) && (even ==> !args.Move?)
    ensures ConfigOk(Changed(c, args, num), |c.shards|, even)
  {
    match args
    case Join(groups) => if c.num == 0 { FirstJoinOk(c, groups, num); } else { JoinOk(c, groups, num, even); }
    case Leave(gids) => LeaveOk(c, gids, num, even);
    case Move(_, _) =>
    case Query =>
  }

  ghost predicate AllOk(st: State, n: nat, even: bool) {
    st.configs != [] && forall k :: 0 <= k < |st.configs| ==> ConfigOk(st.configs[k], n, even) && st.configs[k].num == k
  }

  lemma ApplyOk(st: State, cmd: Command, n: nat, even: bool)
    requires AllOk(st, n, even) && Accepts(st, cmd) && (even ==> !cmd.args.Move?)
    ensures AllOk(Apply(st, cmd), n, even) && st.configs <= Apply(st, cmd).configs
  {
    hide ConfigOk;
    if !Done(st, cmd) {
      var last := st.configs[|st.configs| - 1];
      assert |last.shards| == n by { SizeOk(last, n, even); }
      ChangedOk(last, cmd.args, |st.configs|, even);
      NumOk(last, cmd.args, |st.configs|);
    }
  }

  lemma SizeOk(c: Configuration, n: nat, even: bool)
    requires ConfigOk(c, n, even)
    ensures |c.shards| == n
  {
  }

  lemma NumOk(c: Configuration, args: Args, num: int)
    requires Allowed(c, args)
    ensures !args.Query? ==> Changed(c, args, num).num == num
  {
  }

  ghost predicate IsRun(run: seq<State>, cmds: seq<Command>, n: nat) {
    && |run| == |cmds| + 1 && run[0] == State([First(n)], map[])
    && forall k {:trigger StepAt(run, cmds, k)} :: 0 <= k < |cmds| ==> StepAt(run, cmds, k)
  }

  ghost predicate StepAt(run: seq<State>, cmds: seq<Command>, k: nat)
    requires k < |cmds| && k + 1 < |run|
  {
    Accepts(run[k], cmds[k]) && run[k + 1] == Apply(run[k], cmds[k])
  }

  lemma {:induction false} RunOk(run: seq<State>, cmds: seq<Command>, n: nat, k: nat, even: bool)
    requires IsRun(run, cmds, n) && k < |run| && (even ==> forall j :: 0 <= j < |cmds| ==> !cmds[j].args.Move?)
    ensures AllOk(run[k], n, even)
  {
    hide Apply, Accepts;
    if k == 0 {
      FirstOk(n);
    } else {
      RunOk(run, cmds, n, k - 1, even);
      assert StepAt(run, cmds, k - 1);
      ApplyOk(run[k - 1], cmds[k - 1], n, even);
    }
  }

  /** After any sequence of joins, leaves and queries, repeated or not, every configuration ever made is balanced. */
  lemma AlwaysBalanced(run: seq<State>, cmds: seq<Command>, n: nat, t: nat, k: nat)
    requires IsRun(run, cmds, n) && t < |run| && k < |run[t].configs| && forall j :: 0 <= j < |cmds| ==> !cmds[j].args.Move?
    ensures var c := run[t].configs[k]; |c.shards| == n && c.num == k && Balanced(c.shards, c.groups.Keys)
  {
    hide IsRun, Placed, Even;
    RunOk(run, cmds, n, t, true);
    assert ConfigOk(run[t].configs[k], n, true);
  }

  /** With moves to member groups among the commands, every shard is still on a member group. */
  lemma AlwaysPlaced(run: seq<State>, cmds: seq<Command>, n: nat, t: nat, k: nat)
    requires IsRun(run, cmds, n) && t < |run| && k < |run[t].configs|
    ensures var c := run[t].configs[k]; |c.shards| == n && c.num == k && Placed(c.shards, c.groups.Keys) && 0 !in c.groups
  {
    hide IsRun, Placed;
    RunOk(run, cmds, n, t, false);
    assert ConfigOk(run[t].configs[k], n, false);
  }

  // ---------------------------------------------------------------- the controller in place

  class ShardCtrler {
    var entries: seq<Configuration>
    var lastSeqNum: map<nat, int>

    constructor (n: nat)
      ensures View() == State([First(n)], map[])
    {
      entries, lastSeqNum := [First(n)], map[];
    }

    ghost function View(): State
      reads this
    {
      State(entries, lastSeqNum)
    }

    /** An index that names no configuration asks for the latest one. */
    method GetConfig(index: int) returns (c: Configuration)
      requires entries != []
      ensures c == entries[if 0 <= index < |entries| then index else |entries| - 1]
    {
      if index >= 0 && index < |entries| {
        return entries[index];
      }
      return entries[|entries| - 1];
    }

    method Append(c: Config)
      modifies this`entries
      ensures entries == old(entries) + [c.View().(num := |old(entries)|)]
    {
      entries := entries + [Configuration(|entries|, c.shards[..], c.groups)];
    }

    method ApplyJoin(groups: map<int, seq<string>>)
      requires entries != [] && Allowed(entries[|entries| - 1], Join(groups))
      requires var c := entries[|entries| - 1]; Placed(c.shards, c.groups.Keys) && 0 !in c.groups
      modifies this`entries
      ensures entries == old(entries) + [Changed(old(entries)[|old(entries)| - 1], Join(groups), |old(entries)|)]
    {
      hide Placed, JoinAll, Deal, Balanced;
      var config := new Config.Clone(entries[|entries| - 1]);
      if config.num == 0 {
        config.groups := groups;
        config.ResetShards();
        DealtOnce(config.shards[..], groups.Keys);
      } else {
        ghost var gids := config.JoinGroups(groups);
        OneOrder(gids, Sorted(groups.Keys));
      }
      Append(config);
    }

    method ApplyLeave(gids: seq<int>)
      requires entries != []
      requires var c := entries[|entries| - 1]; Placed(c.shards, c.groups.Keys) && 0 !in c.groups
      modifies this`entries
      ensures entries == old(entries) + [Changed(old(entries)[|old(entries)| - 1], Leave(gids), |old(entries)|)]
    {
      hide Placed, LeaveAll;
      var config := new Config.Clone(entries[|entries| - 1]);
      config.RemoveGroups(gids);
      Append(config);
    }

    method ApplyMove(shard: nat, gid: int)
      requires entries != [] && Allowed(entries[|entries| - 1], Move(shard, gid))
      modifies this`entries
      ensures entries == old(entries) + [Changed(old(entries)[|old(entries)| - 1], Move(shard, gid), |old(entries)|)]
    {
      var config := new Config.Clone(entries[|entries| - 1]);
      config.MoveShard(shard, gid);
      Append(config);
    }

    /** Applies a committed command unless the client's number says that it has been applied before. */
    method ApplyCommand(cmd: Command)
      requires Accepts(View(), cmd)
      requires var c := entries[|entries| - 1]; Placed(c.shards, c.groups.Keys) && 0 !in c.groups
      modifies this
      ensures View() == Apply(old(View()), cmd)
    {
      hide Placed, Changed, Allowed;
      var last := if cmd.clientId in lastSeqNum then lastSeqNum[cmd.clientId] else 0;
      if last < cmd.seqNum {
        match cmd.args {
          case Join(groups) => ApplyJoin(groups);
          case Leave(gids) => ApplyLeave(gids);
          case Move(shard, gid) => ApplyMove(shard, gid);
          case Query =>
        }
        lastSeqNum := lastSeqNum[cmd.clientId := cmd.seqNum];
      }
    }
  }

  lemma DealtOnce(s: seq<int>, gs: set<int>)
    requires gs != {} && exists gids :: gids != [] && Ascending(gids) && Members(gids) == gs && Dealt(s, gids)
    ensures Sorted(gs) != [] && s == Deal(|s|, Sorted(gs))
  {
    var gids :| gids != [] && Ascending(gids) && Members(gids) == gs && Dealt(s, gids);
    OneOrder(gids, Sorted(gs));
  }
}
