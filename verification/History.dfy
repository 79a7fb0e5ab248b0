/** What a run of the cluster has done so far, in history variables that no node stores: every
    election won and the log of its leader, every vote granted, every log prefix a node has
    acknowledged, and every index the majority rule has committed. */
module History {
  import opened Logs

  /** A vote that was granted. `log` is the voter's log at that moment and `candLog` the
      log the candidate announced; a candidate's own vote doubles as its vote request. */
  datatype Vote = Vote(voter: Id, term: nat, cand: Id, log: Log, candLog: Log, at: nat)

  /** A node's word, given while in `term`, that it holds the first `len` entries of that
      term's leader. */
  datatype Ack = Ack(node: Id, term: nat, len: nat, at: nat)

  /** A leadership: the leader's log, which it inherited up to `base` and extended since,
      and the votes that made it leader. */
  datatype Reign = Reign(leader: Id, base: nat, log: Log, ballots: map<Id, Vote>)

  /** An index committed by the leader of `term` on the word of `quorum`. */
  datatype Choice = Choice(term: nat, index: nat, quorum: set<Id>)

  datatype Record = Record(
    members: set<Id>,
    reign: map<nat, Reign>,
    votes: set<Vote>,
    acks: set<Ack>,
    choices: set<Choice>,
    time: nat)

  function QuorumSize(members: set<Id>): nat {
    |members| / 2 + 1
  }

  predicate IsQuorum(members: set<Id>, q: set<Id>) {
    q <= members && |q| >= QuorumSize(members)
  }

  /** A quorum is any set of more than half of the members. */
  lemma QuorumIsOverHalf(members: set<Id>, q: set<Id>)
    ensures IsQuorum(members, q) <==> q <= members && |members| < 2 * |q|
  {
  }

  lemma QuorumsMeet(members: set<Id>, p: set<Id>, q: set<Id>) returns (m: Id)
    requires IsQuorum(members, p) && IsQuorum(members, q)
    ensures m in p && m in q
  {
    if p * q == {} {
      assert |p + q| == |p| + |q|;
      SubsetSize(p + q, members);
      assert false;
    }
    m :| m in p * q;
  }

  lemma {:induction false} SubsetSize(a: set<Id>, b: set<Id>)
    requires a <= b
    ensures |a| <= |b|
  {
    assert b == a + (b - a);
    assert |b| == |a| + |b - a|;
  }

  /** Every entry of the log was written by the leader of its term, on top of exactly the
      entries that precede it here. This is the invariant behind log matching. */
  ghost predicate Sourced(h: Record, log: Log) {
    forall i {:trigger SourcedAt(h, log, i)} :: 0 <= i < |log| ==> SourcedAt(h, log, i)
  }

  ghost predicate SourcedAt(h: Record, log: Log, i: nat)
    requires i < |log|
  {
    log[i].term in h.reign && log[..i + 1] <= h.reign[log[i].term].log
  }

  lemma SourcedPrefix(h: Record, log: Log, p: Log)
    requires Sourced(h, log) && p <= log
    ensures Sourced(h, p)
  {
    assert p == log[..|p|];
    forall i | 0 <= i < |p|
      ensures SourcedAt(h, p, i)
    {
      assert SourcedAt(h, log, i);
      assert p[..i + 1] == log[..i + 1];
    }
  }

  /** Log matching for any two sourced logs. */
  lemma Matching(h: Record, a: Log, b: Log, i: nat)
    requires Sourced(h, a) && Sourced(h, b)
    requires 0 < i <= |a| && i <= |b|
    requires a[i - 1].term == b[i - 1].term
    ensures a[..i] == b[..i]
  {
    assert SourcedAt(h, a, i - 1) && SourcedAt(h, b, i - 1);
    PrefixesCompare(a[..i], b[..i], h.reign[a[i - 1].term].log);
  }

  /** The first i entries of the leader of term t. */
  ghost function Reigned(h: Record, t: nat, i: nat): Log
    requires t in h.reign && i <= |h.reign[t].log|
  {
    h.reign[t].log[..i]
  }

  /** Some later leader, up to term hi, does not have the first i entries of leader t. */
  ghost predicate Overridden(h: Record, t: nat, i: nat, hi: nat)
    requires t in h.reign && i <= |h.reign[t].log|
  {
    exists u {:trigger h.reign[u]} :: t < u <= hi && u in h.reign && !(Reigned(h, t, i) <= h.reign[u].log)
  }

  ghost predicate AckOk(h: Record, a: Ack) {
    a.node in h.members && a.term in h.reign && a.len <= |h.reign[a.term].log| && a.at < h.time
  }

  /** The log still holds everything acknowledged by a, except where a later leader up to
      term hi does not have it either. */
  ghost predicate Held(h: Record, a: Ack, log: Log, hi: nat)
    requires AckOk(h, a)
  {
    forall i {:trigger Reigned(h, a.term, i)} :: 0 < i <= a.len ==>
      Reigned(h, a.term, i) <= log || Overridden(h, a.term, i, hi)
  }

  ghost predicate BallotOk(h: Record, t: nat, p: Id)
    requires t in h.reign && p in h.reign[t].ballots && h.reign[t].base <= |h.reign[t].log|
  {
    var r := h.reign[t];
    var v := r.ballots[p];
    v in h.votes && v.voter == p && v.term == t && v.cand == r.leader && v.candLog == r.log[..r.base]
  }

  ghost predicate ReignOk(h: Record, t: nat)
    requires t in h.reign
  {
    var r := h.reign[t];
    && r.leader in h.members
    && r.base < |r.log|
    && Indexed(r.log)
    && (forall i :: 0 <= i < r.base ==> r.log[i].term < t)
    && (forall i :: r.base <= i < |r.log| ==> r.log[i].term == t)
    && Sourced(h, r.log)
    && IsQuorum(h.members, r.ballots.Keys)
    && (forall p {:trigger BallotOk(h, t, p)} :: p in r.ballots ==> BallotOk(h, t, p))
  }

  ghost predicate ReignsOk(h: Record) {
    forall t {:trigger ReignOk(h, t)} :: t in h.reign ==> ReignOk(h, t)
  }

  /** Nobody votes for a candidate that has not voted for itself. */
  ghost predicate Campaigned(h: Record, cand: Id, term: nat) {
    exists w {:trigger w in h.votes} :: w in h.votes && w.voter == cand && w.cand == cand && w.term == term
  }

  ghost predicate VoteOk(h: Record, v: Vote) {
    && v.voter in h.members && v.cand in h.members
    && Sourced(h, v.log) && Sourced(h, v.candLog)
    && TermsBelow(v.candLog, v.term)
    && UpToDate(v.candLog, v.log)
    && v.at < h.time
    && Campaigned(h, v.cand, v.term)
  }

  ghost predicate VotesOk(h: Record) {
    forall v {:trigger VoteOk(h, v)} :: v in h.votes ==> VoteOk(h, v)
  }

  /** One vote per node and term, and one log per candidate and term. */
  ghost predicate VotesUnique(h: Record) {
    forall v, w {:trigger VotePair(v, w)} :: v in h.votes && w in h.votes ==> VotePair(v, w)
  }

  ghost predicate VotePair(v: Vote, w: Vote) {
    v.term == w.term ==>
      && (v.voter == w.voter ==> v.cand == w.cand)
      && (v.cand == w.cand ==> v.candLog == w.candLog)
  }

  ghost predicate AcksOk(h: Record) {
    forall a {:trigger AckOk(h, a)} {:trigger a in h.acks} :: a in h.acks ==> AckOk(h, a)
  }

  /** An acknowledgement in an earlier term came before the vote, and the log the node
      voted with still held it. */
  ghost predicate AckBeforeVote(h: Record, a: Ack, v: Vote)
    requires AckOk(h, a)
  {
    a.node == v.voter && a.term < v.term ==> a.at < v.at && Held(h, a, v.log, v.term)
  }

  ghost predicate AcksBeforeVotes(h: Record)
    requires AcksOk(h)
  {
    forall a, v {:trigger AckBeforeVote(h, a, v)} :: a in h.acks && v in h.votes ==> AckBeforeVote(h, a, v)
  }

  ghost predicate BallotHeld(h: Record, t: nat, p: Id, a: Ack)
    requires t in h.reign && p in h.reign[t].ballots && AckOk(h, a)
  {
    a.node == p && a.term < t ==> Held(h, a, h.reign[t].ballots[p].log, t - 1)
  }

  ghost predicate BallotsHeld(h: Record)
    requires AcksOk(h)
  {
    forall t, p, a {:trigger BallotHeld(h, t, p, a)} :: t in h.reign && p in h.reign[t].ballots && a in h.acks ==>
        BallotHeld(h, t, p, a)
  }

  ghost predicate Acked(h: Record, n: Id, t: nat, i: nat) {
    exists a :: a in h.acks && a.node == n && a.term == t && a.len >= i
  }

  ghost predicate ChoiceOk(h: Record, c: Choice) {
    && c.term in h.reign
    && 0 < c.index <= |h.reign[c.term].log|
    && h.reign[c.term].log[c.index - 1].term == c.term
    && IsQuorum(h.members, c.quorum)
    && (forall n {:trigger Acked(h, n, c.term, c.index)} :: n in c.quorum ==> Acked(h, n, c.term, c.index))
  }

  ghost predicate ChoicesOk(h: Record) {
    forall c {:trigger ChoiceOk(h, c)} :: c in h.choices ==> ChoiceOk(h, c)
  }

  /** What holds of elections and logs by themselves, whatever becomes of acknowledgements. */
  ghost predicate RootsOk(h: Record) {
    ReignsOk(h) && VotesOk(h) && VotesUnique(h)
  }

  ghost predicate HistoryOk(h: Record) {
    RootsOk(h) && AcksOk(h) && AcksBeforeVotes(h) && BallotsHeld(h) && ChoicesOk(h)
  }

  // ------------------------------------------------------------ leader completeness

  /** In the log of a later leader s that holds the first i entries of leader t, an entry
      of term s comes after them. */
  lemma LateEntryIsLate(h: Record, t: nat, i: nat, s: nat, k: nat)
    requires ReignsOk(h)
    requires t in h.reign && i <= |h.reign[t].log| && s in h.reign && t < s
    requires Reigned(h, t, i) <= h.reign[s].log
    requires k < |h.reign[s].log| && h.reign[s].log[k].term == s
    ensures i <= k
  {
    assert ReignOk(h, t);
    var x := Reigned(h, t, i);
    assert forall j :: 0 <= j < i ==> x[j].term <= t && x[j] == h.reign[s].log[j];
  }

  /** A candidate at least as recent as a log that holds a chosen prefix holds it too,
      given that every leader between the two terms does. */
  lemma UpToDateKeeps(h: Record, t: nat, i: nat, cand: Log, voter: Log, hi: nat)
    requires ReignsOk(h)
    requires t in h.reign && 0 < i <= |h.reign[t].log| && h.reign[t].log[i - 1].term == t
    requires Sourced(h, cand) && Sourced(h, voter) && TermsBelow(cand, hi)
    requires UpToDate(cand, voter)
    requires Reigned(h, t, i) <= voter
    requires forall u {:trigger h.reign[u]} :: t < u < hi && u in h.reign ==> Reigned(h, t, i) <= h.reign[u].log
    ensures Reigned(h, t, i) <= cand
  {
    var x := Reigned(h, t, i);
    var last, k := |voter| - 1, |cand| - 1;
    assert SourcedAt(h, voter, last) && voter[..last + 1] == voter;
    var tv := voter[last].term;
    assert voter[i - 1] == x[i - 1];
    assert tv >= t by {
      assert ReignOk(h, tv) && h.reign[tv].log[i - 1] == voter[i - 1];
    }
    assert SourcedAt(h, cand, k) && cand[..k + 1] == cand;
    var s := cand[k].term;
    if s == tv {
      PrefixesCompare(voter, cand, h.reign[s].log);
      PrefixTrans(x, voter, cand);
    } else {
      LateEntryIsLate(h, t, i, s, k);
      PrefixesCompare(x, cand, h.reign[s].log);
    }
  }

  /** Leader completeness: what was chosen in a term is in the log of every later leader. */
  lemma {:induction false} LaterLeadersHold(h: Record, c: Choice, u: nat)
    requires HistoryOk(h)
    requires c in h.choices && u in h.reign && c.term < u
    ensures ChoiceOk(h, c)
    ensures Reigned(h, c.term, c.index) <= h.reign[u].log
    decreases u
  {
    assert ChoiceOk(h, c) && ReignOk(h, u);
    var r := h.reign[u];
    var m := QuorumsMeet(h.members, c.quorum, r.ballots.Keys);
    assert Acked(h, m, c.term, c.index) && BallotOk(h, u, m);
    var a :| a in h.acks && a.node == m && a.term == c.term && a.len >= c.index;
    var v := r.ballots[m];
    forall w | c.term < w < u && w in h.reign
      ensures Reigned(h, c.term, c.index) <= h.reign[w].log
    {
      LaterLeadersHold(h, c, w);
    }
    assert BallotHeld(h, u, m, a);
    assert Reigned(h, a.term, c.index) <= v.log;
    assert VoteOk(h, v);
    UpToDateKeeps(h, c.term, c.index, v.candLog, v.log, u);
    assert r.log[..r.base] <= r.log;
    PrefixTrans(Reigned(h, c.term, c.index), v.candLog, r.log);
  }

  // ------------------------------------------------------------ committed prefixes

  ghost predicate Covers(h: Record, c: Choice, p: Log) {
    c in h.choices && c.term in h.reign && c.index <= |h.reign[c.term].log| && p <= Reigned(h, c.term, c.index)
  }

  /** The prefix p was committed by a leader of term t or earlier. */
  ghost predicate Committed(h: Record, p: Log, t: nat) {
    p == [] || exists c :: Covers(h, c, p) && c.term <= t
  }

  lemma CommittedPrefix(h: Record, p: Log, q: Log, t: nat, u: nat)
    requires Committed(h, p, t) && q <= p && t <= u
    ensures Committed(h, q, u)
  {
  }

  /** A committed prefix is in the log of every leader of that term or later. */
  lemma LeaderHolds(h: Record, p: Log, t: nat, u: nat)
    requires HistoryOk(h) && Committed(h, p, t) && t <= u && u in h.reign
    ensures p <= h.reign[u].log
  {
    if p != [] {
      var c :| Covers(h, c, p) && c.term <= t;
      if c.term < u {
        LaterLeadersHold(h, c, u);
      }
      PrefixTrans(p, Reigned(h, c.term, c.index), h.reign[u].log);
    }
  }

  /** Any two committed prefixes agree as far as both go. */
  lemma CommittedAgree(h: Record, p: Log, t: nat, q: Log, u: nat)
    requires HistoryOk(h) && Committed(h, p, t) && Committed(h, q, u)
    ensures |p| <= |q| ==> p <= q
    ensures |q| <= |p| ==> q <= p
  {
    if p != [] && q != [] {
      var c :| Covers(h, c, p) && c.term <= t;
      var d :| Covers(h, d, q) && d.term <= u;
      var top := Max(c.term, d.term);
      assert Committed(h, p, top) && Committed(h, q, top);
      LeaderHolds(h, p, top, top);
      LeaderHolds(h, q, top, top);
      PrefixesCompare(p, q, h.reign[top].log);
    }
  }
}
