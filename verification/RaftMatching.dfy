/**
 * Installing a snapshot and log matching. A follower keeps what its log holds behind the snapshot
 * without comparing the term at the snapshot's index, so log matching survives only where the two agree.
 */
module RaftMatching {
  import opened RaftLog
  import opened RaftServer
  import opened RaftCluster
  import opened RaftInvariant
  import opened RaftSafety

  predicate Aligned(s: Server) {
    |s.log.entries| > 0 && s.log.index0 == s.snapshotIndex && |s.snapshot| == s.snapshotIndex + 1
  }

  /** The snapshot was taken from a server with the log `led`. */
  predicate TakenFrom(args: InstallArgs, led: seq<Entry>) {
    && args.lastIncludedIndex < |led| && args.data == led[..args.lastIncludedIndex + 1]
    && args.lastIncludedTerm == led[args.lastIncludedIndex].term
  }

  /** The handler installs the snapshot: it is news, and the sender's term is not over. */
  predicate Installs(s: Server, lastApplied: nat, args: InstallArgs) {
    args.term >= s.currentTerm && IsNews(s, lastApplied, args)
  }

  // ---------------------------------------------------------------- what the log becomes

  lemma InstalledLog(s: Server, lastApplied: nat, args: InstallArgs)
    requires Aligned(s) && |args.data| == args.lastIncludedIndex + 1 && Installs(s, lastApplied, args)
    ensures InstallSnapshot(s, lastApplied, args).Full()
            == args.data + (if s.log.LastIndex() > args.lastIncludedIndex then s.Full()[args.lastIncludedIndex + 1..] else [])
  {
    var index, log := args.lastIncludedIndex, s.log;
    if log.LastIndex() > index {
      assert log.CutOffHead(index).entries[1..] == s.Full()[index + 1..];
    }
  }

  lemma SplitAt(a: seq<Entry>, b: seq<Entry>, k: nat)
    requires Matching(a, b) && k < |a| && k < |b| && a[k].term == b[k].term
    ensures b[..k + 1] + a[k + 1..] == a
  {
    assert a == a[..k + 1] + a[k + 1..];
  }

  /** Where the terms agree, the follower ends up with its own log or with the sender's, cut at the snapshot. */
  lemma AgreeingLog(s: Server, lastApplied: nat, args: InstallArgs, led: seq<Entry>)
    requires Aligned(s) && TakenFrom(args, led) && Installs(s, lastApplied, args) && Matching(s.Full(), led) && Agrees(s, args)
    ensures InstallSnapshot(s, lastApplied, args).Full()
            == if s.log.LastIndex() > args.lastIncludedIndex then s.Full() else led[..args.lastIncludedIndex + 1]
  {
    hide InstallSnapshot, Matching;
    var index := args.lastIncludedIndex;
    InstalledLog(s, lastApplied, args);
    if s.log.LastIndex() > index {
      assert s.Full()[index] == s.log.At(index);
      SplitAt(s.Full(), led, index);
    }
  }

  lemma CutMatches(led: seq<Entry>, n: nat, other: seq<Entry>)
    requires n <= |led| && Matching(led, other)
    ensures Matching(led[..n], other)
  {
    var cut := led[..n];
    forall k | 0 <= k < |cut| && k < |other| && cut[k].term == other[k].term ensures cut[..k + 1] == other[..k + 1] {
      assert led[..k + 1] == other[..k + 1];
      assert cut[..k + 1] == led[..k + 1];
    }
  }

  /** Where they do not, the follower's log no longer matches what it was. */
  lemma DisagreeingLog(s: Server, lastApplied: nat, args: InstallArgs, led: seq<Entry>)
    requires Aligned(s) && TakenFrom(args, led) && Installs(s, lastApplied, args) && !Agrees(s, args)
    ensures !Matching(InstallSnapshot(s, lastApplied, args).Full(), s.Full())
  {
    hide InstallSnapshot;
    var index, full, now := args.lastIncludedIndex, s.Full(), InstallSnapshot(s, lastApplied, args).Full();
    InstalledLog(s, lastApplied, args);
    var k := index + 1;
    assert now[k] == full[k];
    assert full[index] == s.log.At(index) && now[index] == led[index];
    assert now[..k + 1][index] != full[..k + 1][index];
  }

  lemma MatchingBack(a: seq<Entry>, b: seq<Entry>)
    ensures Matching(a, b) <==> Matching(b, a)
  {
  }

  /**
   * Installing a snapshot keeps log matching with every log that matched both the follower's and the
   * sender's, if and only if the terms agree or nothing lies behind.
   */
  lemma InstallMatches(s: Server, lastApplied: nat, args: InstallArgs, led: seq<Entry>)
    requires Aligned(s) && TakenFrom(args, led) && Installs(s, lastApplied, args) && Matching(s.Full(), led)
    ensures Agrees(s, args) <==>
            forall other :: Matching(s.Full(), other) && Matching(led, other) ==>
              Matching(InstallSnapshot(s, lastApplied, args).Full(), other)
  {
    hide InstallSnapshot, Agrees;
    if Agrees(s, args) {
      AgreeingLog(s, lastApplied, args, led);
      forall other | Matching(s.Full(), other) && Matching(led, other)
        ensures Matching(InstallSnapshot(s, lastApplied, args).Full(), other)
      {
        CutMatches(led, args.lastIncludedIndex + 1, other);
      }
    } else {
      DisagreeingLog(s, lastApplied, args, led);
      MatchingBack(s.Full(), led);
      assert Matching(s.Full(), s.Full()) && Matching(led, s.Full());
    }
  }

  // ---------------------------------------------------------------- in the runs of the cluster

  lemma ReachableAligned(run: seq<Cluster>, k: nat, i: nat)
    requires IsRun(run) && k < |run| && i < |run[k].servers|
    ensures Aligned(run[k].servers[i]) && TakenFrom(InstallArgsFor(run[k].servers[i], i), run[k].servers[i].Full())
  {
    hide IsRun;
    var h, g := RunHistory(run, k, k);
    var s := run[k].servers[i];
    assert ServerOk(g, |run[k].servers|, i, s);
    assert s.Full()[..s.snapshotIndex + 1] == s.snapshot;
  }

  lemma ReachableMatching(run: seq<Cluster>, k: nat, i: nat, j: nat)
    requires IsRun(run) && k < |run| && i < |run[k].servers| && j < |run[k].servers|
    ensures Matching(run[k].servers[i].Full(), run[k].servers[j].Full())
  {
    hide IsRun;
    var a, b := run[k].servers[i].Full(), run[k].servers[j].Full();
    forall index | 0 <= index < |a| && index < |b| && a[index].term == b[index].term
      ensures a[..index + 1] == b[..index + 1]
    {
      LogMatching(run, k, i, j, index);
    }
  }

  /**
   * In every reachable state, a snapshot of one server installed on another leaves a log that matches
   * the logs of all servers, the follower's as it was among them, if and only if the terms agree or
   * nothing lies behind.
   */
  lemma InstallInRun(run: seq<Cluster>, k: nat, l: nat, i: nat, lastApplied: nat)
    requires IsRun(run) && k < |run| && l < |run[k].servers| && i < |run[k].servers|
    ensures InstallSafe(run[k].servers[i])
    ensures var s, args := run[k].servers[i], InstallArgsFor(run[k].servers[l], l);
            Installs(s, lastApplied, args) ==>
              (Agrees(s, args) <==>
               forall m :: 0 <= m < |run[k].servers| ==>
                 Matching(InstallSnapshot(s, lastApplied, args).Full(), run[k].servers[m].Full()))
  {
    hide IsRun, Matching, InstallSnapshot, Agrees;
    ReachableAligned(run, k, l);
    ReachableAligned(run, k, i);
    var s, led, args := run[k].servers[i], run[k].servers[l].Full(), InstallArgsFor(run[k].servers[l], l);
    if Installs(s, lastApplied, args) {
      ReachableMatching(run, k, i, l);
      if Agrees(s, args) {
        forall m: nat | m < |run[k].servers|
          ensures Matching(InstallSnapshot(s, lastApplied, args).Full(), run[k].servers[m].Full())
        {
          ReachableMatching(run, k, i, m);
          ReachableMatching(run, k, l, m);
          InstallMatches(s, lastApplied, args, led);
        }
      } else {
        DisagreeingLog(s, lastApplied, args, led);
      }
    }
  }
}
