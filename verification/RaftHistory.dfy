/**
 * What a run leaves behind, as auxiliary state: who led each term and with which log, who stood
 * for election, who voted with which log, what each server acknowledged and which servers refused.
 * None of it is ever forgotten, so facts about messages stay true once established.
 */
module RaftHistory {
  import opened RaftLog
  import opened RaftServer
  import opened RaftCluster

  /** A term with a leader: its log when elected, and its log as it has grown in the term. */
  datatype Reign = Reign(leader: nat, quorum: set<nat>, base: seq<Entry>, log: seq<Entry>)

  datatype Candidacy = Candidacy(candidate: nat, term: nat)
  datatype Ballot = Ballot(voter: nat, candidate: nat, term: nat)
  datatype Ack = Ack(server: nat, term: nat, index: nat)
  datatype Refusal = Refusal(server: nat, term: nat)

  /**
   * A ballot is recorded only while its term has no leader yet. A server that forgets its vote can
   * vote again in the same term, but only after that term has its leader, so those votes never count.
   */
  datatype History = History(
    reigns: map<nat, Reign>,
    runs: map<Candidacy, seq<Entry>>,
    ballots: map<Ballot, seq<Entry>>,
    acks: set<Ack>,
    refusals: set<Refusal>)

  // ---------------------------------------------------------------- logs against the history

  predicate Below(log: seq<Entry>, term: nat) {
    forall k :: 0 <= k < |log| ==> log[k].term < term
  }

  predicate AtMost(log: seq<Entry>, term: nat) {
    forall k :: 0 <= k < |log| ==> log[k].term <= term
  }

  /** The log up to `k` is what the leader of that entry's term had there. */
  predicate Rooted(h: History, log: seq<Entry>, k: nat)
    requires k < |log|
  {
    log[k].term in h.reigns && log[..k + 1] <= h.reigns[log[k].term].log
  }

  predicate Good(h: History, log: seq<Entry>) {
    && |log| > 0 && log[0] == DUMMY
    && forall k :: 0 < k < |log| ==> Rooted(h, log, k)
  }

  function LastTerm(log: seq<Entry>): nat
    requires |log| > 0
  {
    log[|log| - 1].term
  }

  predicate UpToDate(cand: seq<Entry>, voter: seq<Entry>)
    requires |cand| > 0 && |voter| > 0
  {
    LastTerm(cand) > LastTerm(voter) || (LastTerm(cand) == LastTerm(voter) && |cand| >= |voter|)
  }

  // ---------------------------------------------------------------- consistency of the history

  predicate ReignOk(h: History, n: nat, term: nat)
    requires term in h.reigns
  {
    var r := h.reigns[term];
    && term >= 1 && r.leader < n
    && Good(h, r.base) && Good(h, r.log)
    && r.base <= r.log && Below(r.base, term)
    && (forall k :: |r.base| <= k < |r.log| ==> r.log[k].term == term)
  }

  predicate ElectionOk(h: History, n: nat, term: nat)
    requires term in h.reigns
  {
    var r := h.reigns[term];
    && r.leader in r.quorum && r.quorum <= Servers(n) && |r.quorum| >= Majority(n)
    && Candidacy(r.leader, term) in h.runs && h.runs[Candidacy(r.leader, term)] == r.base
    && (forall v :: v in r.quorum ==> Ballot(v, r.leader, term) in h.ballots)
  }

  predicate CandidacyOk(h: History, k: Candidacy)
    requires k in h.runs
  {
    Good(h, h.runs[k]) && Below(h.runs[k], k.term) && k.term >= 1
  }

  predicate BallotOk(h: History, n: nat, b: Ballot)
    requires b in h.ballots
  {
    && b.voter < n && b.candidate < n
    && Candidacy(b.candidate, b.term) in h.runs && |h.runs[Candidacy(b.candidate, b.term)]| > 0
    && Good(h, h.ballots[b])
    && UpToDate(h.runs[Candidacy(b.candidate, b.term)], h.ballots[b])
    && (b.voter == b.candidate ==> h.ballots[b] == h.runs[Candidacy(b.candidate, b.term)])
  }

  predicate UniqueVotes(h: History) {
    forall b, b' :: b in h.ballots && b' in h.ballots && b.voter == b'.voter && b.term == b'.term ==>
                      b.candidate == b'.candidate
  }

  predicate AckOk(h: History, n: nat, a: Ack) {
    a.server < n && a.term in h.reigns && a.index < |h.reigns[a.term].log|
  }

  /** Some leader between the two terms (exclusive) was elected without `p` in its log. */
  ghost predicate Missed(h: History, p: seq<Entry>, lo: nat, hi: nat) {
    exists t :: t in h.reigns && lo < t < hi && !(p <= h.reigns[t].base)
  }

  ghost predicate Kept(h: History, term: nat, index: nat, log: seq<Entry>, hi: nat)
    requires term in h.reigns && index < |h.reigns[term].log|
  {
    var p := h.reigns[term].log[..index + 1];
    p <= log || Missed(h, p, term, hi)
  }

  /** What was acknowledged is still in `log`, unless a leader before `hi` came without it. */
  ghost predicate AckKept(h: History, a: Ack, log: seq<Entry>, hi: nat)
    requires a.term in h.reigns && a.index < |h.reigns[a.term].log|
  {
    forall k :: 0 <= k <= a.index ==> Kept(h, a.term, k, log, hi)
  }

  ghost predicate VotesKeepAcks(h: History, n: nat) {
    forall a, b :: a in h.acks && b in h.ballots && a.server == b.voter && a.term < b.term ==>
                     AckOk(h, n, a) && AckKept(h, a, h.ballots[b], b.term)
  }

  ghost predicate HistoryOk(h: History, n: nat) {
    && (forall t {:trigger ReignOk(h, n, t)} :: t in h.reigns ==> ReignOk(h, n, t))
    && (forall t {:trigger ElectionOk(h, n, t)} :: t in h.reigns ==> ElectionOk(h, n, t))
    && (forall k {:trigger CandidacyOk(h, k)} :: k in h.runs ==> CandidacyOk(h, k))
    && (forall b {:trigger BallotOk(h, n, b)} :: b in h.ballots ==> BallotOk(h, n, b))
    && (forall a {:trigger AckOk(h, n, a)} :: a in h.acks ==> AckOk(h, n, a))
    && UniqueVotes(h)
    && VotesKeepAcks(h, n)
  }

  /** The history only grows: reigns keep their leader and lengthen their log. */
  predicate Extends(h: History, g: History) {
    && (forall t :: t in h.reigns ==>
          && t in g.reigns && g.reigns[t].leader == h.reigns[t].leader && g.reigns[t].base == h.reigns[t].base
          && g.reigns[t].quorum == h.reigns[t].quorum && h.reigns[t].log <= g.reigns[t].log)
    && (forall k :: k in h.runs ==> k in g.runs && g.runs[k] == h.runs[k])
    && (forall b :: b in h.ballots ==> b in g.ballots && g.ballots[b] == h.ballots[b])
    && h.acks <= g.acks && h.refusals <= g.refusals
  }

  lemma GoodExtends(h: History, g: History, log: seq<Entry>)
    requires Extends(h, g) && Good(h, log)
    ensures Good(g, log)
  {
    forall k | 0 < k < |log| ensures Rooted(g, log, k) {
      assert Rooted(h, log, k);
    }
  }

  // ---------------------------------------------------------------- consequences

  /** In a good log terms never go down. */
  lemma GoodSorted(h: History, n: nat, log: seq<Entry>, i: nat, j: nat)
    requires forall t {:trigger ReignOk(h, n, t)} :: t in h.reigns ==> ReignOk(h, n, t)
    requires Good(h, log) && i <= j < |log|
    ensures log[i].term <= log[j].term
  {
    if i < j {
      assert Rooted(h, log, j);
      var r := h.reigns[log[j].term];
      assert ReignOk(h, n, log[j].term);
      assert log[i] == log[..j + 1][i] == r.log[i];
    }
  }

  /** Two good logs with the same term at an index agree on everything up to it. */
  lemma GoodMatch(h: History, a: seq<Entry>, b: seq<Entry>, k: nat)
    requires Good(h, a) && Good(h, b)
    requires k < |a| && k < |b| && a[k].term == b[k].term
    ensures a[..k + 1] == b[..k + 1]
  {
    if k > 0 {
      assert Rooted(h, a, k) && Rooted(h, b, k);
    }
  }

  lemma QuorumsMeet(n: nat, a: set<nat>, b: set<nat>) returns (v: nat)
    requires a <= Servers(n) && b <= Servers(n)
    requires |a| >= Majority(n) && |b| >= Majority(n)
    ensures v in a && v in b
  {
    ServersSize(n);
    if a * b == {} {
      assert |a + b| == |a| + |b|;
      Subset(a + b, Servers(n));
      assert false;
    }
    v :| v in a * b;
  }

  lemma Subset(a: set<nat>, b: set<nat>)
    requires a <= b
    ensures |a| <= |b|
  {
    if a != {} {
      var x :| x in a;
      Subset(a - {x}, b - {x});
    }
  }

  // ---------------------------------------------------------------- commitment

  predicate AckedTo(h: History, server: nat, term: nat, index: nat) {
    exists a :: a in h.acks && a.server == server && a.term == term && a.index >= index
  }

  /** Why a leader may commit `index`: a majority holds an entry of its term, or everyone holds it. */
  predicate Certified(h: History, n: nat, term: nat, index: nat, q: set<nat>) {
    && term in h.reigns && index < |h.reigns[term].log|
    && q <= Servers(n)
    && (forall s :: s in q ==> AckedTo(h, s, term, index))
    && (q == Servers(n) || (|q| >= Majority(n) && h.reigns[term].log[index].term == term))
  }

  /** Leader completeness: every later leader was elected with the certified prefix in its log. */
  lemma LeaderCompleteness(h: History, n: nat, term: nat, index: nat, q: set<nat>, later: nat)
    requires HistoryOk(h, n) && Certified(h, n, term, index, q)
    requires later in h.reigns && term < later
    ensures h.reigns[term].log[..index + 1] <= h.reigns[later].base
    decreases later
  {
    var p := h.reigns[term].log[..index + 1];
    forall t | t in h.reigns && term < t < later ensures p <= h.reigns[t].base {
      LeaderCompleteness(h, n, term, index, q, t);
    }
    assert !Missed(h, p, term, later);
    var r := h.reigns[later];
    assert ReignOk(h, n, later) && ElectionOk(h, n, later);
    var v;
    if q == Servers(n) { v := r.leader; } else { v := QuorumsMeet(n, q, r.quorum); }
    assert AckedTo(h, v, term, index);
    var a :| a in h.acks && a.server == v && a.term == term && a.index >= index;
    var b := Ballot(v, r.leader, later);
    assert BallotOk(h, n, b) && CandidacyOk(h, Candidacy(r.leader, later));
    assert AckKept(h, a, h.ballots[b], later);
    assert Kept(h, term, index, h.ballots[b], later);
    if q != Servers(n) { UpToDateHolds(h, n, term, index, h.ballots[b], r.base, later); }
  }

  /** The voter holds the prefix and the winner's log is at least as up to date, so the winner holds it. */
  lemma UpToDateHolds(h: History, n: nat, term: nat, index: nat, voter: seq<Entry>, winner: seq<Entry>, later: nat)
    requires forall t {:trigger ReignOk(h, n, t)} :: t in h.reigns ==> ReignOk(h, n, t)
    requires term in h.reigns && index < |h.reigns[term].log| && h.reigns[term].log[index].term == term
    requires Good(h, voter) && Good(h, winner) && UpToDate(winner, voter) && Below(winner, later)
    requires h.reigns[term].log[..index + 1] <= voter
    requires forall t :: t in h.reigns && term < t < later ==> h.reigns[term].log[..index + 1] <= h.reigns[t].base
    ensures h.reigns[term].log[..index + 1] <= winner
  {
    assert ReignOk(h, n, term);
    assert voter[index] == h.reigns[term].log[..index + 1][index];
    GoodSorted(h, n, voter, index, |voter| - 1);
    var t := LastTerm(winner);
    assert Rooted(h, winner, |winner| - 1);
    assert winner[..|winner|] == winner;
    assert winner <= h.reigns[t].log;
    if t == LastTerm(voter) {
      assert Rooted(h, voter, |voter| - 1);
      assert voter[..|voter|] == voter;
      assert voter <= winner;
    } else {
      assert ReignOk(h, n, t);
      assert |winner| > |h.reigns[t].base|;
      assert h.reigns[t].base <= winner;
    }
  }

  ghost predicate Committed(h: History, n: nat, term: nat, index: nat) {
    exists c, q :: index <= c && Certified(h, n, term, c, q)
  }

  /** `log` shares its entries up to `index` with the leader of `term`, in whose term they were committed. */
  ghost predicate Backed(h: History, n: nat, term: nat, log: seq<Entry>, index: nat) {
    && Committed(h, n, term, index)
    && term in h.reigns && index < |h.reigns[term].log| && h.reigns[term].log[..index + 1] <= log
  }

  /** The entries of `log` up to `index` were committed no later than `term`. */
  ghost predicate CommitOk(h: History, n: nat, term: nat, log: seq<Entry>, index: nat) {
    && index < |log|
    && (index == 0 || exists t: nat :: t <= term && Backed(h, n, t, log, index))
  }

  lemma BackedInBase(h: History, n: nat, term: nat, log: seq<Entry>, index: nat, later: nat)
    requires HistoryOk(h, n) && Backed(h, n, term, log, index)
    requires later in h.reigns && term < later
    ensures log[..index + 1] <= h.reigns[later].base
  {
    var c, q :| index <= c && Certified(h, n, term, c, q);
    LeaderCompleteness(h, n, term, c, q, later);
    assert h.reigns[term].log[..index + 1] == h.reigns[term].log[..c + 1][..index + 1];
  }

  lemma BackedInLeader(h: History, n: nat, term: nat, log: seq<Entry>, index: nat, later: nat)
    requires HistoryOk(h, n) && Backed(h, n, term, log, index)
    requires later in h.reigns && term <= later
    ensures log[..index + 1] <= h.reigns[later].log
  {
    if term < later {
      BackedInBase(h, n, term, log, index, later);
      assert ReignOk(h, n, later);
    }
  }

  /** A leader of a later term was elected with every committed entry in its log. */
  lemma CommittedInBase(h: History, n: nat, term: nat, log: seq<Entry>, index: nat, later: nat)
    requires HistoryOk(h, n) && Good(h, log) && CommitOk(h, n, term, log, index)
    requires later in h.reigns && term < later
    ensures log[..index + 1] <= h.reigns[later].base
  {
    if index > 0 {
      var t: nat :| t <= term && Backed(h, n, t, log, index);
      BackedInBase(h, n, t, log, index, later);
    } else {
      assert ReignOk(h, n, later);
    }
  }

  /** A leader of the same or a later term has every committed entry in its log. */
  lemma CommittedInLeader(h: History, n: nat, term: nat, log: seq<Entry>, index: nat, later: nat)
    requires HistoryOk(h, n) && Good(h, log) && CommitOk(h, n, term, log, index)
    requires later in h.reigns && term <= later
    ensures log[..index + 1] <= h.reigns[later].log
  {
    if index > 0 {
      var t: nat :| t <= term && Backed(h, n, t, log, index);
      BackedInLeader(h, n, t, log, index, later);
    } else {
      assert ReignOk(h, n, later);
    }
  }

  lemma BackedAgree(h: History, n: nat, term: nat, log: seq<Entry>, index: nat,
                    term': nat, log': seq<Entry>, index': nat, k: nat)
    requires HistoryOk(h, n) && term <= term'
    requires Backed(h, n, term, log, index) && Backed(h, n, term', log', index')
    requires k <= index && k <= index'
    ensures k < |log| && k < |log'| && log[k] == log'[k]
  {
    BackedInLeader(h, n, term, log, index, term');
    assert log[..index + 1][k] == h.reigns[term'].log[k];
    assert log'[k] == h.reigns[term'].log[..index' + 1][k];
  }

  /** Two committed prefixes never differ. */
  lemma CommittedAgree(h: History, n: nat, term: nat, log: seq<Entry>, index: nat,
                       term': nat, log': seq<Entry>, index': nat, k: nat)
    requires HistoryOk(h, n) && Good(h, log) && Good(h, log')
    requires CommitOk(h, n, term, log, index) && CommitOk(h, n, term', log', index')
    requires k <= index && k <= index'
    ensures log[k] == log'[k]
  {
    if index > 0 && index' > 0 {
      var t: nat :| t <= term && Backed(h, n, t, log, index);
      var t': nat :| t' <= term' && Backed(h, n, t', log', index');
      if t <= t' {
        BackedAgree(h, n, t, log, index, t', log', index', k);
      } else {
        BackedAgree(h, n, t', log', index', t, log, index, k);
      }
    }
  }
}
