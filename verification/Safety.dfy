/** What holds in every run of the cluster, and in every careful one. */
module Safety {
  import opened Logs
  import opened History
  import opened Protocol
  import opened Invariant
  import opened FollowerSteps
  import opened Cluster
  import opened Roots
  import opened RootedCluster
  import KeyValue

  /** A run: the states it goes through and the steps between them. */
  ghost predicate Run(b: seq<State>, steps: seq<Step>) {
    && |b| == |steps| + 1
    && Initial(b[0])
    && (forall i {:trigger steps[i]} :: 0 <= i < |steps| ==>
          Enabled(b[i], steps[i]) && b[i + 1] == Take(b[i], steps[i]))
  }

  /** A run whose compactions are all careful. */
  ghost predicate CarefulRun(b: seq<State>, steps: seq<Step>) {
    && Run(b, steps)
    && (forall i {:trigger steps[i]} :: 0 <= i < |steps| ==> Careful(b[i], steps[i]))
  }

  /** A later history holds all of an earlier one. */
  ghost predicate Extends(h: Record, h': Record) {
    && h'.members == h.members && h.time <= h'.time
    && h.votes <= h'.votes && h.acks <= h'.acks && h.choices <= h'.choices
    && (forall t {:trigger t in h.reign} {:trigger t in h'.reign} :: t in h.reign ==>
          && t in h'.reign
          && h'.reign[t].leader == h.reign[t].leader
          && h'.reign[t].base == h.reign[t].base
          && h'.reign[t].ballots == h.reign[t].ballots
          && h.reign[t].log <= h'.reign[t].log)
  }

  lemma GrowsExtends(h: Record, h': Record, n: Id)
    requires Grows(h, h', n)
    ensures Extends(h, h')
  {
  }

  lemma CommittedExtends(h: Record, h': Record, p: Log, t: nat)
    requires Extends(h, h') && Committed(h, p, t)
    ensures Committed(h', p, t)
  {
  }

  /** Elections and logs are sound all along any run. */
  lemma {:induction false} RunRooted(b: seq<State>, steps: seq<Step>, i: nat)
    requires Run(b, steps) && i < |b|
    ensures Rooted(b[i])
    decreases i
  {
    hide Rooted, Enabled, Take, Initial;
    if i == 0 {
      InitialRooted(b[0]);
    } else {
      RunRooted(b, steps, i - 1);
      assert b[i] == Take(b[i - 1], steps[i - 1]);
      StepRooted(b[i - 1], steps[i - 1]);
    }
  }

  /** The full invariant holds all along a careful run. */
  lemma {:induction false} RunKeeps(b: seq<State>, steps: seq<Step>, i: nat)
    requires CarefulRun(b, steps) && i < |b|
    ensures StateOk(b[i])
    decreases i
  {
    hide StateOk, Enabled, Careful, Take, Initial;
    if i == 0 {
      InitialOk(b[0]);
    } else {
      RunKeeps(b, steps, i - 1);
      assert b[i] == Take(b[i - 1], steps[i - 1]);
      StepKeeps(b[i - 1], steps[i - 1]);
    }
  }

  /** The history only grows. */
  lemma {:induction false} RunExtends(b: seq<State>, steps: seq<Step>, i: nat, j: nat)
    requires Run(b, steps) && i <= j < |b|
    ensures Extends(b[i].h, b[j].h)
    decreases j
  {
    hide Rooted, Enabled, Take, Initial;
    if i < j {
      RunExtends(b, steps, i, j - 1);
      RunRooted(b, steps, j - 1);
      assert b[j] == Take(b[j - 1], steps[j - 1]);
      StepRooted(b[j - 1], steps[j - 1]);
      GrowsExtends(b[j - 1].h, b[j].h, steps[j - 1].n);
      ExtendsTrans(b[i].h, b[j - 1].h, b[j].h);
    }
  }

  lemma ExtendsTrans(h: Record, g: Record, k: Record)
    requires Extends(h, g) && Extends(g, k)
    ensures Extends(h, k)
  {
  }

  // ------------------------------------------------------------ election safety

  /** At most one node ever leads in a term, at whatever times it is looked at. */
  lemma ElectionSafety(b: seq<State>, steps: seq<Step>, i: nat, j: nat, m: Id, n: Id)
    requires Run(b, steps) && i <= j < |b| && m in b[i].nodes && n in b[j].nodes
    requires b[i].nodes[m].role.Leader? && b[j].nodes[n].role.Leader?
    requires b[i].nodes[m].term == b[j].nodes[n].term
    ensures m == n
  {
    RunRooted(b, steps, i);
    RunRooted(b, steps, j);
    RunExtends(b, steps, i, j);
    hide Run, RootsOk, MessagesRooted;
    LeaderReigns(b[i].h, m, b[i].nodes[m]);
    LeaderReigns(b[j].h, n, b[j].nodes[n]);
  }

  // ------------------------------------------------------------ log matching

  /** If two logs have the same term at an index, they are the same up to it. This holds for
      the logs in memory, behind the log file and after a restart alike, at any two times. */
  lemma LogMatching(b: seq<State>, steps: seq<Step>, i: nat, j: nat, m: Id, n: Id, x: Place, y: Place, k: nat)
    requires Run(b, steps) && i <= j < |b| && m in b[i].nodes && n in b[j].nodes
    ensures var p, q := LogOf(b[i].nodes[m], x), LogOf(b[j].nodes[n], y);
            0 < k <= |p| && k <= |q| && p[k - 1].term == q[k - 1].term ==> p[..k] == q[..k]
  {
    RunRooted(b, steps, i);
    RunRooted(b, steps, j);
    RunExtends(b, steps, i, j);
    hide Run, MessagesRooted;
    var p, q := LogOf(b[i].nodes[m], x), LogOf(b[j].nodes[n], y);
    LogsAreSourced(b[i].h, m, b[i].nodes[m], x);
    LogsAreSourced(b[j].h, n, b[j].nodes[n], y);
    SourcedExtends(b[i].h, b[j].h, p);
    if 0 < k <= |p| && k <= |q| && p[k - 1].term == q[k - 1].term {
      Matching(b[j].h, p, q, k);
    }
  }

  lemma LogsAreSourced(h: Record, n: Id, s: Node, x: Place)
    requires NodeRooted(h, n, s)
    ensures Sourced(h, LogOf(s, x))
  {
  }

  lemma SourcedExtends(h: Record, h': Record, p: Log)
    requires Extends(h, h') && Sourced(h, p)
    ensures Sourced(h', p)
  {
    forall k | 0 <= k < |p|
      ensures SourcedAt(h', p, k)
    {
      assert SourcedAt(h, p, k);
    }
  }

  /** Where a node has a log: in memory, where a restart would find it, and behind the log file. */
  datatype Place = InMemory | OnRestart | InFile

  function LogOf(s: Node, place: Place): Log {
    match place
    case InMemory => s.log
    case OnRestart => s.disk.log
    case InFile => s.disk.wal
  }

  // ------------------------------------------------------------ committed entries

  ghost function CommittedLog(s: Node): Log
    requires s.commit <= |s.log|
  {
    s.log[..s.commit]
  }

  lemma CommittedAt(b: seq<State>, steps: seq<Step>, i: nat, j: nat, m: Id)
    requires CarefulRun(b, steps) && i <= j < |b| && m in b[i].nodes
    ensures var s := b[i].nodes[m];
            && s.applied <= s.commit <= |s.log|
            && StateOk(b[j]) && Bound(s) <= s.term && Committed(b[j].h, CommittedLog(s), Bound(s))
  {
    RunKeeps(b, steps, i);
    RunKeeps(b, steps, j);
    RunExtends(b, steps, i, j);
    var s := b[i].nodes[m];
    assert NodeInv(b[i].h, m, s);
    CommittedExtends(b[i].h, b[j].h, CommittedLog(s), Bound(s));
  }

  /** Leader completeness: a leader has every entry that any node had committed before, in
      its own term or an earlier one. */
  lemma LeaderCompleteness(b: seq<State>, steps: seq<Step>, i: nat, j: nat, m: Id, n: Id)
    requires CarefulRun(b, steps) && i <= j < |b| && m in b[i].nodes && n in b[j].nodes
    requires b[j].nodes[n].role.Leader? && b[i].nodes[m].term <= b[j].nodes[n].term
    ensures b[i].nodes[m].commit <= |b[i].nodes[m].log|
    ensures CommittedLog(b[i].nodes[m]) <= b[j].nodes[n].log
  {
    CommittedAt(b, steps, i, j, m);
    var s, t := b[i].nodes[m], b[j].nodes[n];
    assert NodeInv(b[j].h, n, t);
    LeaderHolds(b[j].h, CommittedLog(s), Bound(s), t.term);
  }

  /** State machine safety: what any two nodes have committed, at any two times, agrees as far
      as both go; so two nodes that have applied equally much have equal maps. */
  lemma StateMachineSafety(b: seq<State>, steps: seq<Step>, i: nat, j: nat, m: Id, n: Id)
    requires CarefulRun(b, steps) && i <= j < |b| && m in b[i].nodes && n in b[j].nodes
    ensures var s, t := b[i].nodes[m], b[j].nodes[n];
            && s.applied <= s.commit <= |s.log| && t.applied <= t.commit <= |t.log|
            && (forall k :: 0 <= k < s.commit && k < t.commit ==> s.log[k] == t.log[k])
            && (s.applied == t.applied ==>
                  KeyValue.Fold(s.log[..s.applied]) == KeyValue.Fold(t.log[..t.applied]))
  {
    hide CarefulRun, HistoryOk, NodesOk, MessagesOk, Committed, KeyValue.Fold;
    CommittedAt(b, steps, i, j, m);
    CommittedAt(b, steps, j, j, n);
    var s, t := b[i].nodes[m], b[j].nodes[n];
    CommittedAgree(b[j].h, CommittedLog(s), Bound(s), CommittedLog(t), Bound(t));
    forall k | 0 <= k < s.commit && k < t.commit
      ensures s.log[k] == t.log[k]
    {
      assert CommittedLog(s)[k] == CommittedLog(t)[k];
    }
    if s.applied == t.applied {
      assert s.log[..s.applied] == t.log[..t.applied];
    }
  }

  /** The merge's refusal to cut into committed entries is never taken. */
  lemma NeverCutsCommitted(b: seq<State>, steps: seq<Step>, i: nat, n: Id, m: AppendRequest, io: Outcome)
    requires CarefulRun(b, steps) && i < |b| && n in b[i].nodes && m in b[i].appends
    requires !b[i].nodes[n].fatal && b[i].nodes[n].term <= m.term
    ensures var t := Follow(b[i].nodes[n], m.term, io);
            !t.fatal && m.prev <= |t.log| && TermAt(t.log, m.prev) == m.prevTerm ==>
              !MergeEntries(t.log, t.commit, m.prev, m.entries).CommittedConflict?
  {
    RunKeeps(b, steps, i);
    var s := b[i].nodes[n];
    var t := Follow(s, m.term, io);
    assert AppendOk(b[i].h, m);
    FollowedState(b[i].h, n, s, m.term, io);
    if !t.fatal && m.prev <= |t.log| && TermAt(t.log, m.prev) == m.prevTerm {
      MergeOutcome(b[i].h, t.log, t.commit, m);
    }
  }

  /** A chunk that looks like the stream its receiver has under way is of the same snapshot. */
  lemma StreamsAreOne(b: seq<State>, steps: seq<Step>, i: nat, n: Id, m: ChunkRequest)
    requires Run(b, steps) && i < |b| && n in b[i].nodes && m in b[i].chunks
    ensures SameStream(b[i].nodes[n].transfer, m) ==> b[i].nodes[n].transfer.prefix == m.prefix
  {
    RunRooted(b, steps, i);
    var h, s := b[i].h, b[i].nodes[n];
    assert ChunkRooted(h, m) && NodeRooted(h, n, s);
    ReignPrefixSound(h, m.term, m.prefix);
    hide Run, MessagesRooted, NodesRooted, VoteInv, RoleRooted;
    if SameStream(s.transfer, m) {
      StreamPrefix(h, s.transfer, m);
    }
  }

  /** A snapshot that arrives agrees with what the receiver has committed. */
  lemma SnapshotAgrees(b: seq<State>, steps: seq<Step>, i: nat, n: Id, m: ChunkRequest)
    requires CarefulRun(b, steps) && i < |b| && n in b[i].nodes && m in b[i].chunks
    ensures var s := b[i].nodes[n];
            && s.commit <= |s.log|
            && (forall k :: 0 <= k < s.commit && k < |m.prefix| ==> s.log[k] == m.prefix[k])
  {
    CommittedAt(b, steps, i, i, n);
    var h, s := b[i].h, b[i].nodes[n];
    assert ChunkOk(h, m) && NodeInv(h, n, s);
    hide AckInv, VoteInv, RoleInv;
    CommittedAgree(h, CommittedLog(s), Bound(s), m.prefix, m.term);
    forall k | 0 <= k < s.commit && k < |m.prefix|
      ensures s.log[k] == m.prefix[k]
    {
      assert CommittedLog(s)[k] == s.log[k];
    }
  }

  /** All snapshots of one index and term, whoever sends them and whenever, stand for one log
      prefix and so for one map. */
  lemma SnapshotsAreOne(b: seq<State>, steps: seq<Step>, i: nat, j: nat, m: ChunkRequest, m': ChunkRequest)
    requires Run(b, steps) && i <= j < |b| && m in b[i].chunks && m' in b[j].chunks
    requires |m.prefix| == |m'.prefix| && LastTerm(m.prefix) == LastTerm(m'.prefix)
    ensures m.prefix == m'.prefix
  {
    RunRooted(b, steps, i);
    RunRooted(b, steps, j);
    RunExtends(b, steps, i, j);
    hide Run, NodesRooted;
    assert ChunkRooted(b[i].h, m) && ChunkRooted(b[j].h, m');
    PrefixTrans(m.prefix, b[i].h.reign[m.term].log, b[j].h.reign[m.term].log);
    ReignPrefixSound(b[j].h, m.term, m.prefix);
    ReignPrefixSound(b[j].h, m'.term, m'.prefix);
    Matching(b[j].h, m.prefix, m'.prefix, |m.prefix|);
  }

  lemma SnapUnderCommit(b: seq<State>, steps: seq<Step>, i: nat, n: Id)
    requires CarefulRun(b, steps) && i < |b| && n in b[i].nodes
    ensures b[i].nodes[n].snap <= b[i].nodes[n].commit <= |b[i].nodes[n].log|
  {
    RunKeeps(b, steps, i);
    assert NodeInv(b[i].h, n, b[i].nodes[n]);
  }

  // ------------------------------------------------------------ linearizable reads

  /** Peer p acknowledged leader n's term t after time `since`. */
  ghost predicate FreshAck(h: Record, p: Id, t: nat, since: nat) {
    exists a :: a in h.acks && a.node == p && a.term == t && a.at >= since
  }

  /** A voter of term u that acknowledged term t after that election has not left t behind. */
  lemma FreshVoter(h: Record, g: Record, n: Id, s: Node, u: nat, p: Id)
    requires HistoryOk(h) && HistoryOk(g) && Extends(h, g) && NodeInv(h, n, s)
    requires p == n || FreshAck(g, p, s.term, h.time)
    requires u in h.reign && p in h.reign[u].ballots
    ensures u <= s.term
  {
    hide AckInv, CommitInv, RoleInv;
    var v := h.reign[u].ballots[p];
    assert ReignOk(h, u);
    assert BallotOk(h, u, p);
    assert VoteOk(h, v);
    if p == n {
      assert StandsBy(v, s);
    } else {
      var a :| a in g.acks && a.node == p && a.term == s.term && a.at >= h.time;
      assert AckBeforeVote(g, a, v);
    }
  }

  /** Fresh acknowledgements of a quorum rule out any leader of a later term before the read. */
  lemma NoLaterLeader(h: Record, g: Record, n: Id, s: Node, q: set<Id>, u: nat)
    requires HistoryOk(h) && HistoryOk(g) && Extends(h, g) && NodeInv(h, n, s)
    requires IsQuorum(g.members, q)
    requires forall p {:trigger p in q} :: p in q && p != n ==> FreshAck(g, p, s.term, h.time)
    requires u in h.reign
    ensures u <= s.term
  {
    assert ReignOk(h, u);
    var p := QuorumsMeet(h.members, q, h.reign[u].ballots.Keys);
    FreshVoter(h, g, n, s, u, p);
  }

  /** What had been chosen when the read began is within the leader's read index. */
  lemma ReadIndexCovers(g: Record, n: Id, s: Node, c: Choice)
    requires HistoryOk(g) && NodeInv(g, n, s) && s.role.Leader?
    requires c in g.choices && c.term <= s.term
    ensures ChoiceOk(g, c)
    ensures c.index <= Max(s.commit, s.noop)
    ensures Reigned(g, c.term, c.index) <= s.log
  {
    assert ChoiceOk(g, c);
    if c.term < s.term {
      LaterLeadersHold(g, c, s.term);
      assert ReignOk(g, s.term);
      assert s.log[c.index - 1] == Reigned(g, c.term, c.index)[c.index - 1];
    }
  }

  /** The read barrier passes exactly if those who answered make a quorum with the leader. */
  lemma BarrierIsQuorum(members: set<Id>, n: Id, acked: set<Id>)
    requires n in members && acked <= members - {n}
    ensures 1 + |acked| >= Quorum(members - {n}) <==> IsQuorum(members, acked + {n})
  {
    assert |acked + {n}| == |acked| + 1;
  }

  /** A read that began at time i on leader n, had fresh acknowledgements from enough peers by
      time j, took its read index then, and showed a value at time k. If the map it looked at
      stands for a committed prefix of the log that reaches the read index, then what it showed
      is the value in a prefix that has every entry which any node had committed when the read
      began. */
  lemma LinearizableRead(b: seq<State>, steps: seq<Step>, i: nat, j: nat, k: nat, n: Id, acked: set<Id>, key: string,
      value: string, found: bool)
    requires CarefulRun(b, steps) && i <= j <= k < |b|
    requires n in b[i].nodes && n in b[j].nodes && n in b[k].nodes
    requires b[i].nodes[n].role.Leader? && b[j].nodes[n].role.Leader? && b[k].nodes[n].role.Leader?
    requires b[i].nodes[n].term == b[j].nodes[n].term == b[k].nodes[n].term
    requires acked <= PeersOf(b[j], n) && 1 + |acked| >= Quorum(PeersOf(b[j], n))
    requires forall p {:trigger p in acked} :: p in acked ==> FreshAck(b[j].h, p, b[i].nodes[n].term, b[i].h.time)
    requires var s, readIndex := b[k].nodes[n], Max(b[j].nodes[n].commit, b[j].nodes[n].noop);
             exists upTo :: readIndex <= upTo <= s.commit <= |s.log| && KeyValue.Shows(s.log[..upTo], key, value, found)
    ensures var s := b[k].nodes[n];
            exists upTo: nat :: upTo <= |s.log| && KeyValue.Shows(s.log[..upTo], key, value, found) &&
              forall m {:trigger b[i].nodes[m]} :: m in b[i].nodes ==>
                b[i].nodes[m].commit <= |b[i].nodes[m].log| && CommittedLog(b[i].nodes[m]) <= s.log[..upTo]
  {
    var s, readIndex := b[k].nodes[n], Max(b[j].nodes[n].commit, b[j].nodes[n].noop);
    var upTo :| readIndex <= upTo <= s.commit <= |s.log| && KeyValue.Shows(s.log[..upTo], key, value, found);
    hide CarefulRun, KeyValue.Shows;
    forall m | m in b[i].nodes
      ensures b[i].nodes[m].commit <= |b[i].nodes[m].log| && CommittedLog(b[i].nodes[m]) <= s.log[..upTo]
    {
      ReadCovers(b, steps, i, j, k, n, acked, upTo, m);
    }
  }

  /** A committed prefix that reaches the read index has all that had been committed. */
  lemma ReadCovers(b: seq<State>, steps: seq<Step>, i: nat, j: nat, k: nat, n: Id, acked: set<Id>, upTo: nat, m: Id)
    requires CarefulRun(b, steps) && i <= j <= k < |b| && m in b[i].nodes
    requires n in b[i].nodes && n in b[j].nodes && n in b[k].nodes
    requires b[i].nodes[n].role.Leader? && b[j].nodes[n].role.Leader? && b[k].nodes[n].role.Leader?
    requires b[i].nodes[n].term == b[j].nodes[n].term == b[k].nodes[n].term
    requires acked <= PeersOf(b[j], n) && 1 + |acked| >= Quorum(PeersOf(b[j], n))
    requires forall p {:trigger p in acked} :: p in acked ==> FreshAck(b[j].h, p, b[i].nodes[n].term, b[i].h.time)
    requires Max(b[j].nodes[n].commit, b[j].nodes[n].noop) <= upTo <= b[k].nodes[n].commit
    ensures b[i].nodes[m].commit <= |b[i].nodes[m].log| && upTo <= |b[k].nodes[n].log|
    ensures CommittedLog(b[i].nodes[m]) <= b[k].nodes[n].log[..upTo]
  {
    hide Run, HistoryOk, Extends, FreshAck, NodeInv, MessagesOk, Quorum, IsQuorum, Committed;
    RunKeeps(b, steps, i);
    RunKeeps(b, steps, j);
    CommittedAt(b, steps, k, k, n);
    RunExtends(b, steps, i, j);
    RunExtends(b, steps, j, k);
    BarrierIsQuorum(b[j].h.members, n, acked);
    ReadSees(b[i].h, b[j].h, b[k].h, n, b[i].nodes[n], b[j].nodes[n], b[k].nodes[n], acked + {n}, upTo, m,
        b[i].nodes[m]);
  }

  lemma ChosenIsRead(h: Record, g: Record, n: Id, s: Node, t: Node, q: set<Id>, c: Choice, p: Log)
    requires HistoryOk(h) && HistoryOk(g) && Extends(h, g) && NodeInv(h, n, s) && NodeInv(g, n, t)
    requires s.term == t.term && t.role.Leader? && IsQuorum(g.members, q)
    requires forall p {:trigger p in q} :: p in q && p != n ==> FreshAck(g, p, s.term, h.time)
    requires Covers(h, c, p)
    ensures p <= t.log && |p| <= Max(t.commit, t.noop)
  {
    hide HistoryOk, NodeInv;
    NoLaterLeader(h, g, n, s, q, c.term);
    ReadIndexCovers(g, n, t, c);
    assert Reigned(h, c.term, c.index) == Reigned(g, c.term, c.index);
    PrefixTrans(p, Reigned(g, c.term, c.index), t.log);
  }

  lemma LeaderOnlyAppends(g: Record, f: Record, n: Id, t: Node, u: Node)
    requires Extends(g, f) && RoleInv(g, n, t) && RoleInv(f, n, u)
    requires t.role.Leader? && u.role.Leader? && t.term == u.term
    ensures t.log <= u.log
  {
  }

  lemma ReadSees(h: Record, g: Record, f: Record, n: Id, s: Node, t: Node, u: Node, q: set<Id>, upTo: nat, m: Id,
      r: Node)
    requires HistoryOk(h) && HistoryOk(g) && HistoryOk(f) && Extends(h, g) && Extends(g, f)
    requires NodeInv(h, n, s) && NodeInv(g, n, t) && NodeInv(f, n, u) && NodeInv(h, m, r)
    requires s.term == t.term == u.term && t.role.Leader? && u.role.Leader?
    requires IsQuorum(g.members, q)
    requires forall p {:trigger p in q} :: p in q && p != n ==> FreshAck(g, p, s.term, h.time)
    requires Max(t.commit, t.noop) <= upTo <= u.commit
    ensures r.commit <= |r.log| && upTo <= |u.log| && CommittedLog(r) <= u.log[..upTo]
  {
    hide HistoryOk, AckInv, VoteInv, TransferInv, WalInv, LogInv, Extends;
    var p := CommittedLog(r);
    if p != [] {
      var c :| Covers(h, c, p) && c.term <= Bound(r);
      ChosenIsRead(h, g, n, s, t, q, c, p);
      LeaderOnlyAppends(g, f, n, t, u);
      PrefixTrans(p, t.log, u.log);
      PrefixesCompare(p, u.log[..upTo], u.log);
    }
  }
}
