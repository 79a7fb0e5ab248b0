/** How a leader finds the place where a follower's log departs from its own, and how many
    requests that takes. */
module Backup {
  import opened Logs
  import opened Protocol
  import opened Cluster
  import opened Safety

  /** What two logs in a run have in common: wherever they have the same term at an index they
      are the same up to it, and the leader has all that the follower has committed. */
  ghost predicate Compatible(leader: Log, t: Node) {
    && t.snap <= t.commit <= |t.log| && t.log[..t.commit] <= leader
    && (forall k {:trigger leader[..k]} ::
          0 < k <= |leader| && k <= |t.log| && leader[k - 1].term == t.log[k - 1].term ==> leader[..k] == t.log[..k])
  }

  /** In every state of a careful run, a leader's log is compatible with every node that has not
      moved on to a later term. */
  lemma AlwaysCompatible(b: seq<State>, steps: seq<Step>, i: nat, n: Id, m: Id)
    requires CarefulRun(b, steps) && i < |b| && n in b[i].nodes && m in b[i].nodes
    requires b[i].nodes[n].role.Leader? && b[i].nodes[m].term <= b[i].nodes[n].term
    ensures Compatible(b[i].nodes[n].log, b[i].nodes[m])
  {
    var s, t := b[i].nodes[n], b[i].nodes[m];
    LeaderCompleteness(b, steps, i, i, m, n);
    SnapUnderCommit(b, steps, i, m);
    forall k | 0 < k <= |s.log| && k <= |t.log| && s.log[k - 1].term == t.log[k - 1].term
      ensures s.log[..k] == t.log[..k]
    {
      LogMatching(b, steps, i, i, n, m, InMemory, InMemory, k);
    }
  }

  // ------------------------------------------------------------ one attempt

  datatype Try = NeedsSnapshot | Retry(next: nat) | Done(node: Node)

  /** One attempt to replicate from index next on, when no store call fails: what the leader
      prepares, what the follower answers and what the leader makes of it. */
  function Attempt(s: Node, id: Id, t: Node, next: nat): Try
    requires 0 < next
  {
    if next <= s.snap then NeedsSnapshot
    else if next > |s.log| + 1 then Retry(s.snap + 1)
    else
      var (u, reply) := AppendAsFollower(t, MakeAppend(s, id, next), Stored, Ok, Ok);
      match reply
      case Conflict(c) => Retry(c)
      case _ => Done(u)
  }

  /** The runs of equal terms among entries from..upTo of a log. */
  function Runs(log: Log, from: nat, upTo: nat): nat
    requires upTo <= |log|
  {
    if upTo <= from then 0
    else if upTo > from + 1 && log[upTo - 2].term == log[upTo - 1].term then Runs(log, from, upTo - 1)
    else Runs(log, from, upTo - 1) + 1
  }

  lemma {:induction false} RunsGrow(log: Log, from: nat, k: nat, upTo: nat)
    requires k <= upTo <= |log|
    ensures Runs(log, from, k) <= Runs(log, from, upTo)
    decreases upTo
  {
    if k < upTo {
      RunsGrow(log, from, k, upTo - 1);
    }
  }

  /** A conflict index skips exactly one run. */
  lemma {:induction false} ConflictSkipsRun(log: Log, snap: nat, prev: nat)
    requires snap < prev <= |log|
    ensures var c := ConflictIndex(log, snap, prev);
            && snap < c <= prev && Runs(log, snap, c - 1) + 1 == Runs(log, snap, prev)
            && (forall k :: c - 1 <= k < prev ==> log[k].term == log[prev - 1].term)
    decreases prev
  {
    if prev > snap + 1 && log[prev - 2].term == log[prev - 1].term {
      ConflictSkipsRun(log, snap, prev - 1);
    }
  }

  /** The attempts left in the worst case. */
  function Left(s: Node, t: Node, next: nat): nat
    requires 0 < next && t.snap <= |t.log|
  {
    var prev := next - 1;
    if prev > |s.log| then Runs(t.log, t.snap, |t.log|) + 3
    else if prev > |t.log| then Runs(t.log, t.snap, |t.log|) + 2
    else if prev < t.snap then 2
    else Runs(t.log, t.snap, prev) + 1
  }

  /** Merging the leader's entries after a matching one gives all of the leader's log, and
      never runs into a committed entry. */
  lemma MergeTakesAll(leader: Log, t: Node, prev: nat)
    requires Compatible(leader, t) && prev <= |leader| && prev <= |t.log| && leader[..prev] == t.log[..prev]
    ensures var merge := MergeEntries(t.log, t.commit, prev, leader[prev..]);
            !merge.CommittedConflict? && leader <= MergedLog(t.log, merge)
  {
    var k := FirstConflict(t.log, prev, leader[prev..], 0);
    AgreeBeforeConflict(leader, t, prev);
    Glue(leader, t.log, prev, k);
    hide FirstConflict, Compatible;
  }

  /** Up to the first conflict the logs are the same, and it is not in the committed part. */
  lemma AgreeBeforeConflict(leader: Log, t: Node, prev: nat)
    requires Compatible(leader, t) && prev <= |leader| && prev <= |t.log| && leader[..prev] == t.log[..prev]
    ensures var k := FirstConflict(t.log, prev, leader[prev..], 0);
            && prev + k <= |t.log| && leader[..prev + k] == t.log[..prev + k]
            && (k < |leader| - prev && prev + k < |t.log| ==> t.commit <= prev + k)
  {
    hide FirstConflict;
    var entries := leader[prev..];
    var k := FirstConflict(t.log, prev, entries, 0);
    if k > 0 {
      assert HasTerm(t.log, prev, entries, k - 1);
      assert leader[..prev + k] == t.log[..prev + k];
    }
    assert forall i :: 0 <= i < t.commit ==> t.log[..t.commit][i] == leader[i];
  }

  lemma Glue(leader: Log, log: Log, prev: nat, k: nat)
    requires prev + k <= |leader| && prev + k <= |log| && leader[..prev + k] == log[..prev + k]
    ensures log[..prev + k] + leader[prev..][k..] == leader
    ensures prev + k == |leader| ==> leader <= log
    ensures prev + k == |log| ==> log + leader[prev..][k..] == leader
  {
    assert prev + k == |log| ==> log[..prev + k] == log;
    assert prev + k == |leader| ==> leader[..prev + k] == leader;
  }

  /** The follower, t before, has all of the leader's log, and has committed as much as the leader
      unless it had committed more. */
  ghost predicate CaughtUp(s: Node, t: Node, u: Node) {
    s.log <= u.log && u.commit == Max(t.commit, Min(s.commit, |s.log|)) && u.applied == t.applied && u.snap == t.snap
  }

  /** Where the previous entry matches, the follower ends up with all of the leader's log. */
  lemma MatchTakesAll(s: Node, id: Id, t: Node, next: nat)
    requires Compatible(s.log, t) && s.snap < next <= |s.log| + 1
    requires t.snap < next <= |t.log| + 1 && TermAt(s.log, next - 1) == TermAt(t.log, next - 1)
    ensures var r := Attempt(s, id, t, next);
            r.Done? && CaughtUp(s, t, r.node)
  {
    assert s.log[..next - 1] == t.log[..next - 1];
    MergeTakesAll(s.log, t, next - 1);
    hide Compatible, MergeEntries, MergedLog;
  }

  /** Where the previous entry does not match, the follower says where to go on. */
  lemma AttemptMisses(s: Node, id: Id, t: Node, next: nat)
    requires s.snap < next <= |s.log| + 1 && t.snap <= |t.log|
    requires next <= t.snap || next > |t.log| + 1 || TermAt(s.log, next - 1) != TermAt(t.log, next - 1)
    ensures Attempt(s, id, t, next) == Retry(if next <= t.snap then t.snap + 1 else ConflictIndex(t.log, t.snap,
            next - 1))
  {
    hide AcceptEntries, ConflictIndex;
  }

  /** Every attempt that does not succeed leaves fewer. */
  lemma AttemptProgress(s: Node, id: Id, t: Node, next: nat)
    requires Compatible(s.log, t) && 0 < next && s.snap <= |s.log|
    ensures match Attempt(s, id, t, next)
            case NeedsSnapshot => next <= s.snap
            case Retry(c) => 0 < c && Left(s, t, c) < Left(s, t, next)
            case Done(u) => CaughtUp(s, t, u)
  {
    var prev := next - 1;
    assert t.snap <= |t.log[..t.commit]| <= |s.log|;
    assert t.snap > 0 ==> t.log[..t.commit][t.snap - 1] == s.log[t.snap - 1];
    if s.snap < next <= |s.log| + 1 {
      if t.snap <= prev <= |t.log| && TermAt(s.log, prev) == TermAt(t.log, prev) {
        MatchTakesAll(s, id, t, next);
      } else {
        AttemptMisses(s, id, t, next);
        if t.snap < prev <= |t.log| {
          ConflictSkipsRun(t.log, t.snap, prev);
        }
      }
    } else if s.snap <= |t.log| {
      RunsGrow(t.log, t.snap, s.snap, |t.log|);
    }
    hide AppendAsFollower, Compatible;
  }

  // ------------------------------------------------------------ all attempts together

  const MAX_ATTEMPTS: nat := 128

  /** The outcome of at most n attempts: a retry index if they were not enough. */
  function Tries(s: Node, id: Id, t: Node, next: nat, n: nat): Try
    requires Compatible(s.log, t) && 0 < next && s.snap <= |s.log|
    decreases n
  {
    if n == 0 then Retry(next) else
    AttemptProgress(s, id, t, next);
    match Attempt(s, id, t, next)
    case Retry(c) => Tries(s, id, t, c, n - 1)
    case other => other
  }

  /** The loop of one call. The retry index it ends with stays the follower's next index. */
  method ReplicateToPeer(s: Node, id: Id, t: Node, next: nat) returns (last: Try)
    requires Compatible(s.log, t) && 0 < next && s.snap <= |s.log|
    ensures last == Tries(s, id, t, next, MAX_ATTEMPTS)
  {
    hide Attempt, Compatible;
    var current := next;
    for attempts := 0 to MAX_ATTEMPTS
      invariant 0 < current
      invariant Tries(s, id, t, next, MAX_ATTEMPTS) == Tries(s, id, t, current, MAX_ATTEMPTS - attempts)
    {
      AttemptProgress(s, id, t, current);
      var r := Attempt(s, id, t, current);
      if !r.Retry? {
        return r;
      }
      current := r.next;
    }
    return Retry(current);
  }

  /** Each of n attempts brings the end nearer, and an attempt that the follower takes gives it
      all of the leader's log. */
  lemma {:induction false} TriesProgress(s: Node, id: Id, t: Node, next: nat, n: nat)
    requires Compatible(s.log, t) && 0 < next && s.snap <= |s.log|
    ensures match Tries(s, id, t, next, n)
            case Retry(c) => 0 < c && Left(s, t, c) + n <= Left(s, t, next)
            case Done(u) => CaughtUp(s, t, u)
            case NeedsSnapshot => true
    decreases n
  {
    if n > 0 {
      AttemptProgress(s, id, t, next);
      var r := Attempt(s, id, t, next);
      if r.Retry? {
        TriesProgress(s, id, t, r.next, n - 1);
      }
    }
  }

  /** Conflict back-up converges: with at most one request for each run of equal terms in the
      follower's live log and two more, the leader either has the follower take over its whole
      log or finds that it must send its snapshot. It starts from its end of the log, as a new
      leader does; from a stale index beyond its log it needs one attempt more. */
  lemma BackupConverges(s: Node, id: Id, t: Node, next: nat, n: nat)
    requires Compatible(s.log, t) && 0 < next && s.snap <= |s.log|
    requires n >= Runs(t.log, t.snap, |t.log|) + (if next <= |s.log| + 1 then 2 else 3)
    ensures var last := Tries(s, id, t, next, n);
            last.NeedsSnapshot? || (last.Done? && CaughtUp(s, t, last.node))
  {
    if t.snap < next <= |t.log| + 1 {
      RunsGrow(t.log, t.snap, next - 1, |t.log|);
    }
    TriesProgress(s, id, t, next, n);
  }

  /** Several calls, each going on from the next index that the one before has left. */
  function Calls(s: Node, id: Id, t: Node, next: nat, calls: nat): Try
    requires Compatible(s.log, t) && 0 < next && s.snap <= |s.log|
    decreases calls
  {
    if calls == 0 then Retry(next) else
    TriesProgress(s, id, t, next, MAX_ATTEMPTS);
    match Tries(s, id, t, next, MAX_ATTEMPTS)
    case Retry(c) => Calls(s, id, t, c, calls - 1)
    case other => other
  }

  lemma {:induction false} TriesAdd(s: Node, id: Id, t: Node, next: nat, m: nat, n: nat)
    requires Compatible(s.log, t) && 0 < next && s.snap <= |s.log|
    ensures var first := Tries(s, id, t, next, m);
            first.Retry? ==> 0 < first.next
    ensures var first := Tries(s, id, t, next, m);
            Tries(s, id, t, next, m + n) == if first.Retry? then Tries(s, id, t, first.next, n) else first
    decreases m
  {
    hide Compatible;
    if m > 0 {
      AttemptProgress(s, id, t, next);
      hide Attempt;
      var r := Attempt(s, id, t, next);
      if r.Retry? {
        TriesAdd(s, id, t, r.next, m - 1, n);
      }
    }
  }

  /** Cutting the attempts into calls changes nothing. */
  lemma {:induction false} CallsAreTries(s: Node, id: Id, t: Node, next: nat, calls: nat)
    requires Compatible(s.log, t) && 0 < next && s.snap <= |s.log|
    ensures Calls(s, id, t, next, calls) == Tries(s, id, t, next, calls * MAX_ATTEMPTS)
    decreases calls
  {
    if calls > 0 {
      hide Tries, Compatible;
      assert calls * MAX_ATTEMPTS == MAX_ATTEMPTS + (calls - 1) * MAX_ATTEMPTS;
      TriesAdd(s, id, t, next, MAX_ATTEMPTS, (calls - 1) * MAX_ATTEMPTS);
      var r := Tries(s, id, t, next, MAX_ATTEMPTS);
      if r.Retry? {
        CallsAreTries(s, id, t, r.next, calls - 1);
      }
    }
  }

  /** The cap on the attempts of one call only delays: enough calls converge all the same. */
  lemma CallsConverge(s: Node, id: Id, t: Node, next: nat, calls: nat)
    requires Compatible(s.log, t) && 0 < next && s.snap <= |s.log|
    requires calls * MAX_ATTEMPTS >= Runs(t.log, t.snap, |t.log|) + (if next <= |s.log| + 1 then 2 else 3)
    ensures var last := Calls(s, id, t, next, calls);
            last.NeedsSnapshot? || (last.Done? && CaughtUp(s, t, last.node))
  {
    CallsAreTries(s, id, t, next, calls);
    BackupConverges(s, id, t, next, calls * MAX_ATTEMPTS);
  }
}
