/** Following: taking up entries, commit indices and snapshots from a leader.

    What a request brings is a slice of its leader's log. A merge that keeps what it can and
    replaces the rest therefore gives the leader's log up to the end of the request, or leaves a
    log that has all of it as it is. An install gives the snapshot's log, followed by what the
    follower has after it. In each case the follower keeps what it has acknowledged, and what it
    acknowledges now it has, in memory and on disk, whatever store call fails. */
module FollowerSteps {
  import opened Logs
  import opened History
  import opened Protocol
  import opened Invariant
  import opened NodeSteps
  import opened Growth
  import opened VoteSteps
  import opened LeaderSteps

  // ------------------------------------------------------------ giving way to a leader's log

  /** A prefix of the current leader's log that the old log lacks may replace it: whatever was
      acknowledged is in both, or the leader does not have it. */
  lemma HeldSwap(h: Record, a: Ack, before: Log, after: Log, t: nat)
    requires ReignsOk(h) && AckOk(h, a) && Held(h, a, before, t) && a.term <= t
    requires t in h.reign && after <= h.reign[t].log && !(after <= before)
    ensures Held(h, a, after, t)
  {
  }

  /** The same holds for a committed prefix, which the leader has. */
  lemma CommittedSwap(h: Record, before: Log, after: Log, c: nat, t: nat)
    requires HistoryOk(h) && c <= |before| && Committed(h, before[..c], t)
    requires t in h.reign && after <= h.reign[t].log && !(after <= before)
    ensures c <= |after| && after[..c] == before[..c]
  {
    LeaderHolds(h, before[..c], t, t);
    PrefixesCompare(before[..c], after, h.reign[t].log);
    assert after <= before[..c] ==> after <= before;
  }

  lemma ReignPrefixSound(h: Record, t: nat, p: Log)
    requires ReignsOk(h) && t in h.reign && p <= h.reign[t].log
    ensures LogInv(h, p, t)
  {
    assert ReignOk(h, t);
    SourcedPrefix(h, h.reign[t].log, p);
    assert p == h.reign[t].log[..|p|];
  }

  ghost predicate Following(h: Record, n: Id, s: Node) {
    NodeInv(h, n, s) && s.role.Follower? && !s.fatal && s.term in h.reign
  }

  /** Either copy of the log may be swapped, as long as the indices stay sound. */
  lemma SwapKeepsCore(h: Record, n: Id, s: Node, s': Node, after: Log)
    requires HistoryOk(h) && Following(h, n, s)
    requires after <= h.reign[s.term].log && !(after <= s.log)
    requires s'.log == s.log || s'.log == after
    requires s'.disk.log == s.log || s'.disk.log == after
    requires s'.disk.wal == s.log || s'.disk.wal == after
    requires s'.term == s.term && Bound(s') == Bound(s) && VoteInv(h, n, s') && CommitInv(h, s')
    requires s'.transfer == s.transfer || s'.transfer == Idle
    ensures CoreInv(h, n, s')
  {
    ReignPrefixSound(h, s.term, after);
    forall a | a in h.acks && a.node == n
      ensures Keeps(h, a, s')
    {
      assert Keeps(h, a, s);
      HeldSwap(h, a, s.log, after, s.term);
    }
  }

  /** The indices in memory and on disk survive a swap. */
  lemma IndicesSurvive(h: Record, n: Id, s: Node, after: Log)
    requires HistoryOk(h) && Following(h, n, s)
    requires after <= h.reign[s.term].log && !(after <= s.log)
    ensures s.disk.commit <= |after| && after[..s.disk.commit] == s.log[..s.disk.commit]
    ensures s.disk.snap <= |after| && after[..s.disk.snap] == s.log[..s.disk.snap]
    ensures s.commit <= |after| && after[..s.commit] == s.log[..s.commit]
  {
    CommittedSwap(h, s.log, after, s.commit, s.term);
    CommittedSwap(h, s.log, after, s.disk.commit, s.term);
    CommittedSwap(h, s.log, after, s.disk.snap, s.term);
  }

  // ------------------------------------------------------------ merging

  /** An append request says what its sender's log held when it was built. */
  ghost predicate AppendRooted(h: Record, m: AppendRequest) {
    && m.term in h.reign
    && m.leader == h.reign[m.term].leader
    && m.prev + |m.entries| <= |h.reign[m.term].log|
    && m.entries == h.reign[m.term].log[m.prev..m.prev + |m.entries|]
    && m.prevTerm == TermAt(h.reign[m.term].log, m.prev)
  }

  ghost predicate AppendOk(h: Record, m: AppendRequest) {
    && AppendRooted(h, m)
    && m.commit <= |h.reign[m.term].log|
    && Committed(h, h.reign[m.term].log[..m.commit], m.term)
  }

  lemma HistoryReigns(h: Record)
    requires HistoryOk(h)
    ensures ReignsOk(h)
  {
  }

  /** Where a sourced log and the leader's log have the same term, they have the same past. */
  lemma AgreeUpTo(h: Record, log: Log, t: nat, k: nat)
    requires ReignsOk(h) && t in h.reign && Sourced(h, log)
    requires k <= |log| && k <= |h.reign[t].log| && TermAt(log, k) == TermAt(h.reign[t].log, k)
    ensures log[..k] == h.reign[t].log[..k]
  {
    assert ReignOk(h, t);
    if k > 0 {
      Matching(h, log, h.reign[t].log, k);
    }
  }

  /** What the request brings: the leader's log as far as the request goes. */
  ghost function Brought(h: Record, m: AppendRequest): Log
    requires AppendRooted(h, m)
  {
    h.reign[m.term].log[..m.prev + |m.entries|]
  }

  /** The merge never cuts into the committed part: the refusal it has for that is not taken.
      The result holds all that the request brings, and differs from the old log only if the
      old log lacked it, in which case it is exactly that. */
  lemma MergeOutcome(h: Record, log: Log, commit: nat, m: AppendRequest)
    requires HistoryOk(h) && AppendOk(h, m) && Sourced(h, log)
    requires commit <= |log| && Committed(h, log[..commit], m.term)
    requires m.prev <= |log| && TermAt(log, m.prev) == m.prevTerm
    ensures var merge := MergeEntries(log, commit, m.prev, m.entries);
            && !merge.CommittedConflict?
            && (merge.Unchanged? <==> Brought(h, m) <= log)
            && (merge.Extended? ==> log + merge.added == Brought(h, m))
            && (merge.Replaced? ==> merge.log == Brought(h, m))
  {
    hide HistoryOk, ReignsOk, Sourced, AppendRooted, FirstConflict, Brought, Committed;
    var i := FirstConflict(log, m.prev, m.entries, 0);
    var brought := Brought(h, m);
    HistoryReigns(h);
    AgreedPart(h, log, m);
    if i == |m.entries| {
      assert brought <= log;
    } else if m.prev + i < |log| {
      assert log[m.prev + i] != brought[m.prev + i];
      DepartsLate(h, log, commit, m, m.prev + i);
    } else {
      assert log[..m.prev + i] == log;
    }
  }

  ghost predicate Joins(log: Log, k: nat, rest: seq<Entry>, whole: Log) {
    k <= |log| && k <= |whole| && log[..k] == whole[..k] && log[..k] + rest == whole
  }

  /** Up to the first conflict the log is the leader's, and there it departs from it. */
  lemma AgreedPart(h: Record, log: Log, m: AppendRequest)
    requires ReignsOk(h) && AppendRooted(h, m) && Sourced(h, log)
    requires m.prev <= |log| && TermAt(log, m.prev) == m.prevTerm
    ensures var i := FirstConflict(log, m.prev, m.entries, 0);
            && Joins(log, m.prev + i, m.entries[i..], Brought(h, m))
            && (i < |m.entries| && m.prev + i < |log| ==>
                m.prev + i < |Brought(h, m)| && log[m.prev + i].term != Brought(h, m)[m.prev + i].term)
  {
    hide ReignsOk, Sourced, FirstConflict, HasTerm, Joins;
    AgreedSlice(h, log, m.term, m.prev, |m.entries|, m.entries);
  }

  lemma AgreedSlice(h: Record, log: Log, t: nat, prev: nat, len: nat, entries: seq<Entry>)
    requires ReignsOk(h) && Sourced(h, log) && t in h.reign && prev + len <= |h.reign[t].log| && prev <= |log|
    requires entries == h.reign[t].log[prev..prev + len] && TermAt(log, prev) == TermAt(h.reign[t].log, prev)
    ensures var i, b := FirstConflict(log, prev, entries, 0), h.reign[t].log[..prev + len];
            && Joins(log, prev + i, entries[i..], b)
            && (i < len && prev + i < |log| ==> log[prev + i].term != b[prev + i].term)
  {
    hide ReignsOk, Sourced, FirstConflict, HasTerm;
    var whole, i := h.reign[t].log, FirstConflict(log, prev, entries, 0);
    ConflictPoint(log, whole, prev, len);
    AgreeUpTo(h, log, t, prev + i);
    Rejoin(log, whole, prev, len, i);
  }

  /** The first conflict comes right after an index at which the terms agree. */
  lemma ConflictPoint(log: Log, whole: Log, prev: nat, len: nat)
    requires prev <= |log| && prev + len <= |whole| && TermAt(log, prev) == TermAt(whole, prev)
    ensures var i := FirstConflict(log, prev, whole[prev..prev + len], 0);
            && prev + i <= |log| && TermAt(log, prev + i) == TermAt(whole, prev + i)
            && (i < len && prev + i < |log| ==> log[prev + i].term != whole[prev + i].term)
  {
    hide FirstConflict;
    var i := FirstConflict(log, prev, whole[prev..prev + len], 0);
    if i > 0 {
      var last := i - 1;
      assert HasTerm(log, prev, whole[prev..prev + len], last);
    }
  }

  lemma Rejoin(log: Log, whole: Log, prev: nat, len: nat, i: nat)
    requires i <= len && prev + len <= |whole| && prev + i <= |log| && log[..prev + i] == whole[..prev + i]
    ensures var b := whole[..prev + len];
            && log[..prev + i] + whole[prev..prev + len][i..] == b
            && |b| == prev + len && b[..prev + i] == log[..prev + i] && (i < len ==> b[prev + i] == whole[prev + i])
  {
  }

  /** Nothing committed differs from the leader's log. */
  lemma DepartsLate(h: Record, log: Log, commit: nat, m: AppendRequest, k: nat)
    requires HistoryOk(h) && AppendOk(h, m)
    requires commit <= |log| && Committed(h, log[..commit], m.term)
    requires k < |log| && k < |Brought(h, m)| && log[k].term != Brought(h, m)[k].term
    ensures commit <= k
  {
    var whole := h.reign[m.term].log;
    hide HistoryOk, Committed;
    LeaderHolds(h, log[..commit], m.term, m.term);
    assert forall j :: 0 <= j < commit ==> log[..commit][j] == whole[j];
  }

  /** A failed append leaves part of the leader's log beyond the old one. */
  lemma PartialAppend(h: Record, m: AppendRequest, log: Log, added: seq<Entry>, k: nat)
    requires AppendRooted(h, m) && log + added == Brought(h, m) && k <= |added|
    ensures log + added[..k] <= h.reign[m.term].log
  {
  }

  /** The disk after the merge's store call holds the old log, the new one, or something of
      the leader's in between. */
  lemma MergeWritten(h: Record, n: Id, s: Node, m: AppendRequest, merge: Merge, ioAdd: AppendOutcome, ioSwap: Outcome)
    requires HistoryOk(h) && Following(h, n, s) && AppendOk(h, m) && s.term == m.term
    requires merge.Extended? ==> s.log + merge.added == Brought(h, m) && merge.added != []
    requires merge.Replaced? ==> merge.log == Brought(h, m) && !(merge.log <= s.log)
    ensures CoreInv(h, n, s.(disk := WriteMerge(s, merge, ioAdd, ioSwap)))
  {
    var s' := s.(disk := WriteMerge(s, merge, ioAdd, ioSwap));
    if merge.Extended? && ioAdd.Failed? {
      PartialAppend(h, m, s.log, merge.added, Min(ioAdd.kept, |merge.added|));
      assert merge.added[..0] == [];
    }
    if !(s'.disk.log <= s.log) {
      assert s'.disk.log <= h.reign[m.term].log;
      DiskSwapKeeps(h, n, s, s');
    } else {
      assert s' == s;
    }
  }

  lemma DiskSwapKeeps(h: Record, n: Id, s: Node, s': Node)
    requires HistoryOk(h) && Following(h, n, s)
    requires s' == s.(disk := s.disk.(log := s'.disk.log, wal := s'.disk.log, base := s'.disk.base,
             loadable := s'.disk.loadable))
    requires s'.disk.base == s.disk.base || s'.disk.base == s.disk.snap
    requires s'.disk.log <= h.reign[s.term].log && !(s'.disk.log <= s.log)
    ensures CoreInv(h, n, s')
  {
    IndicesSurvive(h, n, s, s'.disk.log);
    forall v | v in h.votes && v.voter == n
      ensures StandsBy(v, s')
    {
      assert StandsBy(v, s);
    }
    SwapKeepsCore(h, n, s, s', s'.disk.log);
  }

  /** A successful merge switches both copies. */
  lemma MergedKeeps(h: Record, n: Id, s: Node, s': Node)
    requires HistoryOk(h) && Following(h, n, s)
    requires s' == s.(log := s'.log, disk := s.disk.(log := s'.log, wal := s'.log, base := s'.disk.base,
             loadable := s'.disk.loadable))
    requires s'.disk.base == s.disk.base || s'.disk.base == s.disk.snap
    requires s'.log <= h.reign[s.term].log && !(s'.log <= s.log)
    ensures NodeInv(h, n, s')
  {
    IndicesSurvive(h, n, s, s'.log);
    forall v | v in h.votes && v.voter == n
      ensures StandsBy(v, s')
    {
      assert StandsBy(v, s);
    }
    SwapKeepsCore(h, n, s, s', s'.log);
  }

  /** Taking over the leader's commit index, no further than the request reached. */
  lemma FollowCommitKeeps(h: Record, n: Id, s: Node, m: AppendRequest, io: Outcome)
    requires HistoryOk(h) && Following(h, n, s) && AppendOk(h, m) && s.term == m.term
    requires Brought(h, m) <= s.log
    ensures NodeInv(h, n, FollowCommit(s, Min(m.commit, m.prev + |m.entries|), io).0)
  {
    var c := Min(m.commit, m.prev + |m.entries|);
    if c > s.commit {
      var whole := h.reign[m.term].log;
      assert s.log[..c] == Brought(h, m)[..c] == whole[..c];
      CommittedPrefix(h, whole[..m.commit], whole[..c], m.term, m.term);
      CommitRaised(h, n, s, c, io);
    }
  }

  /** The whole of what an accepted request brings ends up in memory and on disk, or the node
      gives no acknowledgement. */
  lemma AcceptedHolds(h: Record, s: Node, m: AppendRequest, ioAdd: AppendOutcome, ioSwap: Outcome, ioCommit: Outcome)
    requires HistoryOk(h) && AppendOk(h, m) && Sourced(h, s.log)
    requires s.commit <= |s.log| && Committed(h, s.log[..s.commit], m.term)
    requires m.prev <= |s.log| && TermAt(s.log, m.prev) == m.prevTerm
    ensures var (s', reply) := AcceptEntries(s, m, ioAdd, ioSwap, ioCommit);
            && !reply.Conflict?
            && (reply.Success? ==>
                  s'.fatal == s.fatal && s'.role == s.role && s'.term == s.term && Brought(h, m) <= s'.log)
  {
    hide HistoryOk, MergeEntries;
    MergeOutcome(h, s.log, s.commit, m);
  }

  lemma AcceptKeeps(h: Record, n: Id, s: Node, m: AppendRequest, ioAdd: AppendOutcome, ioSwap: Outcome,
      ioCommit: Outcome)
    requires HistoryOk(h) && Following(h, n, s) && AppendOk(h, m) && s.term == m.term
    requires m.prev <= |s.log| && TermAt(s.log, m.prev) == m.prevTerm
    ensures NodeInv(h, n, AcceptEntries(s, m, ioAdd, ioSwap, ioCommit).0)
  {
    hide HistoryOk, MergeEntries, FollowCommit;
    var merge := MergeEntries(s.log, s.commit, m.prev, m.entries);
    MergeOutcome(h, s.log, s.commit, m);
    var t := s.(disk := WriteMerge(s, merge, ioAdd, ioSwap));
    if !WriteOk(merge, ioAdd, ioSwap) {
      MergeWritten(h, n, s, m, merge, ioAdd, ioSwap);
      FailKeeps(h, n, t);
    } else {
      var u := t.(log := MergedLog(s.log, merge));
      MergeTaken(h, n, s, u, m);
      FollowCommitKeeps(h, n, u, m, ioCommit);
    }
  }

  lemma MergeTaken(h: Record, n: Id, s: Node, u: Node, m: AppendRequest)
    requires HistoryOk(h) && Following(h, n, s) && AppendOk(h, m) && s.term == m.term
    requires u == s || u == s.(log := u.log, disk := s.disk.(log := u.log, wal := u.log, base := u.disk.base,
             loadable := u.disk.loadable))
    requires u.disk.base == s.disk.base || u.disk.base == s.disk.snap
    requires if Brought(h, m) <= s.log then u == s else u.log == Brought(h, m)
    ensures Following(h, n, u) && Brought(h, m) <= u.log
  {
    if !(Brought(h, m) <= s.log) {
      MergedKeeps(h, n, s, u);
    }
  }

  function AckOf(h: Record, n: Id, term: nat, len: nat): Ack {
    Ack(n, term, len, Now(h))
  }

  function AfterAppendRequest(h: Record, n: Id, m: AppendRequest, reply: AppendReply): Record {
    if reply.Success? then AddAck(h, AckOf(h, n, m.term, m.prev + |m.entries|)) else h
  }

  /** Recording an acknowledgement keeps a follower's invariant. */
  lemma FollowerAcks(h: Record, n: Id, s: Node, len: nat)
    requires HistoryOk(h) && Following(h, n, s) && h.time > 0
    requires len <= |h.reign[s.term].log| && Reigned(h, s.term, len) <= s.log
    ensures var h' := AddAck(h, AckOf(h, n, s.term, len)); HistoryOk(h') && Grows(h, h', n) && NodeInv(h', n, s)
  {
    AckRecorded(h, n, s, AckOf(h, n, s.term, len));
  }

  lemma FollowerLog(h: Record, n: Id, s: Node)
    requires Following(h, n, s)
    ensures Sourced(h, s.log) && s.commit <= |s.log| && Committed(h, s.log[..s.commit], s.term)
  {
  }

  lemma AppendTaken(h: Record, n: Id, s: Node, m: AppendRequest, ioAdd: AppendOutcome, ioSwap: Outcome,
      ioCommit: Outcome)
    requires HistoryOk(h) && Following(h, n, s) && AppendOk(h, m) && s.term == m.term && h.time > 0
    requires m.prev <= |s.log| && TermAt(s.log, m.prev) == m.prevTerm
    ensures var (s', reply) := AcceptEntries(s, m, ioAdd, ioSwap, ioCommit);
            var h' := AfterAppendRequest(h, n, m, reply);
            HistoryOk(h') && Grows(h, h', n) && NodeInv(h', n, s')
  {
    hide AcceptEntries, HistoryOk, NodeInv, Grows, Sourced, Committed;
    FollowerLog(h, n, s);
    GrowsRefl(h, n);
    var (s', reply) := AcceptEntries(s, m, ioAdd, ioSwap, ioCommit);
    AcceptKeeps(h, n, s, m, ioAdd, ioSwap, ioCommit);
    AcceptedHolds(h, s, m, ioAdd, ioSwap, ioCommit);
    if reply.Success? {
      FollowerAcks(h, n, s', m.prev + |m.entries|);
    }
  }

  lemma FollowedState(h: Record, n: Id, s: Node, term: nat, io: Outcome)
    requires NodeInv(h, n, s) && !s.fatal && s.term <= term && term in h.reign
    ensures var t := Follow(s, term, io);
            NodeInv(h, n, t) && (!t.fatal ==> Following(h, n, t) && t.term == term)
  {
    FollowKeeps(h, n, s, term, io);
  }

  lemma AppendHandled(h: Record, n: Id, s: Node, m: AppendRequest, ioTerm: Outcome, ioAdd: AppendOutcome,
      ioSwap: Outcome, ioCommit: Outcome)
    requires HistoryOk(h) && NodeInv(h, n, s) && AppendOk(h, m) && h.time > 0
    ensures var (s', reply) := HandleAppend(s, m, ioTerm, ioAdd, ioSwap, ioCommit);
            var h' := AfterAppendRequest(h, n, m, reply);
            HistoryOk(h') && Grows(h, h', n) && NodeInv(h', n, s')
  {
    hide AcceptEntries, NodeInv, HistoryOk;
    GrowsRefl(h, n);
    if !s.fatal && s.term <= m.term {
      var t := Follow(s, m.term, ioTerm);
      FollowedState(h, n, s, m.term, ioTerm);
      if !t.fatal {
        if m.prev < t.snap || m.prev > |t.log| || TermAt(t.log, m.prev) != m.prevTerm {
          assert HandleAppend(s, m, ioTerm, ioAdd, ioSwap, ioCommit).0 == t;
        } else {
          AppendTaken(h, n, t, m, ioAdd, ioSwap, ioCommit);
          assert HandleAppend(s, m, ioTerm, ioAdd, ioSwap, ioCommit) == AcceptEntries(t, m, ioAdd, ioSwap, ioCommit);
        }
      }
    }
  }

  // ------------------------------------------------------------ snapshots

  /** A chunk belongs to a committed prefix of its sender's log. */
  ghost predicate ChunkRooted(h: Record, m: ChunkRequest) {
    && m.term in h.reign
    && m.leader == h.reign[m.term].leader
    && 0 < |m.prefix| && m.prefix <= h.reign[m.term].log
  }

  ghost predicate ChunkOk(h: Record, m: ChunkRequest) {
    && ChunkRooted(h, m)
    && Committed(h, m.prefix, m.term)
  }

  function AfterChunk(h: Record, n: Id, m: ChunkRequest, reply: ChunkReply): Record {
    if reply.HaveAll? then AddAck(h, AckOf(h, n, m.term, |m.prefix|)) else h
  }

  /** A snapshot at or below the commit index is already part of the follower's log. */
  lemma StaleSnapshotHeld(h: Record, n: Id, s: Node, m: ChunkRequest)
    requires HistoryOk(h) && Following(h, n, s) && ChunkOk(h, m) && s.term == m.term
    requires |m.prefix| <= s.commit
    ensures Reigned(h, m.term, |m.prefix|) <= s.log
  {
    CommittedAgree(h, m.prefix, m.term, s.log[..s.commit], Bound(s));
    PrefixTrans(m.prefix, s.log[..s.commit], s.log);
    assert Reigned(h, m.term, |m.prefix|) == m.prefix;
  }

  lemma StaleChunk(h: Record, n: Id, s: Node, m: ChunkRequest)
    requires HistoryOk(h) && Following(h, n, s) && ChunkOk(h, m) && s.term == m.term && h.time > 0
    requires |m.prefix| <= s.commit
    ensures var h' := AfterChunk(h, n, m, HaveAll);
            HistoryOk(h') && Grows(h, h', n) && NodeInv(h', n, s.(transfer := Idle))
  {
    TransferKeeps(h, n, s, Idle);
    StaleSnapshotHeld(h, n, s, m);
    FollowerAcks(h, n, s.(transfer := Idle), |m.prefix|);
  }

  lemma ChunkTaken(h: Record, n: Id, s: Node, m: ChunkRequest)
    requires HistoryOk(h) && Following(h, n, s) && ChunkOk(h, m) && s.term == m.term
    ensures NodeInv(h, n, s.(transfer := TakeChunk(s.transfer, m).0))
  {
    ReignPrefixSound(h, m.term, m.prefix);
    TransferKeeps(h, n, s, TakeChunk(s.transfer, m).0);
  }

  lemma ChunkHandled(h: Record, n: Id, s: Node, m: ChunkRequest, ioTerm: Outcome)
    requires HistoryOk(h) && NodeInv(h, n, s) && ChunkOk(h, m) && h.time > 0
    ensures var (s', reply) := HandleChunk(s, m, ioTerm);
            var h' := AfterChunk(h, n, m, reply);
            HistoryOk(h') && Grows(h, h', n) && NodeInv(h', n, s')
  {
    hide NodeInv, HistoryOk, Grows, Follow, SameStream;
    GrowsRefl(h, n);
    if !s.fatal && s.term <= m.term {
      var t := Follow(s, m.term, ioTerm);
      FollowedState(h, n, s, m.term, ioTerm);
      if t.fatal {
        TransferKeeps(h, n, t, Idle);
      } else if |m.prefix| <= t.commit {
        StaleChunk(h, n, t, m);
      } else {
        ChunkTaken(h, n, t, m);
      }
    }
  }

  /** Chunks of one stream describe one prefix. */
  lemma StreamPrefix(h: Record, x: Transfer, m: ChunkRequest)
    requires ReignsOk(h) && SameStream(x, m) && Sourced(h, x.prefix) && Sourced(h, m.prefix)
    ensures x.prefix == m.prefix
  {
    if |x.prefix| > 0 {
      Matching(h, x.prefix, m.prefix, |x.prefix|);
    }
  }

  /** The log after the snapshot is the old log if that has the snapshot's last entry, and the
      snapshot's own log otherwise. */
  lemma AfterSnapshotIs(h: Record, log: Log, p: Log)
    requires ReignsOk(h) && Sourced(h, log) && Sourced(h, p) && 0 < |p|
    ensures p <= log ==> LogAfterSnapshot(log, p) == log
    ensures !(p <= log) ==> LogAfterSnapshot(log, p) == p
  {
    if |p| <= |log| && TermAt(log, |p|) == LastTerm(p) {
      Matching(h, log, p, |p|);
      assert log == p + log[|p|..];
    }
    assert p <= log ==> log[|p| - 1] == p[|p| - 1];
  }

  /** After each of the three writes the disk is sound, and so is the node at the end. */
  lemma InstallKeeps(h: Record, n: Id, s: Node, p: Log, ioSnap: Outcome, ioLog: Outcome, ioHard: Outcome)
    requires HistoryOk(h) && Following(h, n, s)
    requires p <= h.reign[s.term].log && Committed(h, p, s.term) && s.commit < |p| && s.saving == 0
    ensures var (s', reply) := InstallSnapshot(s, p, ioSnap, ioLog, ioHard);
            && NodeInv(h, n, s')
            && (reply.HaveAll? ==> !s'.fatal && s'.role.Follower? && s'.term == s.term && p <= s'.log)
  {
    hide VotesOk, AcksBeforeVotes, BallotsHeld, ChoicesOk, AckInv, VoteInv, LogAfterSnapshot;
    ReignPrefixSound(h, s.term, p);
    AfterSnapshotIs(h, s.log, p);
    var log := LogAfterSnapshot(s.log, p);
    var (s', reply) := InstallSnapshot(s, p, ioSnap, ioLog, ioHard);
    if ioSnap.Lost? {
      RaiseKeepsCore(h, n, s, Fail(s));
      TransferKeeps(h, n, Fail(s), Idle);
    } else {
      assert p <= log && log[..|p|] == p;
      InstalledIndices(h, n, s, s', p, log);
      InstalledCore(h, n, s, s', p, log);
    }
  }

  /** What an install that got past the snapshot write may leave. */
  ghost predicate Installed(s: Node, s': Node, p: Log, log: Log) {
    && s'.term == s.term && s'.vote == s.vote && s'.transfer == Idle && s'.role == Follower
    && s'.disk.log == log && s'.disk.snap == |p| && s'.saving == 0 == s.saving
    && ((s'.disk.wal == s.log && s'.disk.base == s.disk.base) || (s'.disk.wal == log && s'.disk.base == |p|))
    && ((s'.disk.term == s.disk.term && s'.disk.vote == s.disk.vote && s'.disk.commit == s.disk.commit)
        || (s'.disk.term == s.term && s'.disk.vote == s.vote && s'.disk.commit == |p|))
    && ((s'.log == s.log && s'.commit == s.commit && s'.applied == s.applied && s'.snap == s.snap && s'.fatal)
        || (s'.log == log && s'.commit == s'.applied == s'.snap == |p| && s'.disk.commit == |p| &&
            s'.disk.wal == log && !s'.fatal))
    && (s'.disk.base == s.disk.base ==> s'.disk.commit == s.disk.commit)
  }

  lemma InstalledIndices(h: Record, n: Id, s: Node, s': Node, p: Log, log: Log)
    requires HistoryOk(h) && Following(h, n, s)
    requires p <= h.reign[s.term].log && Committed(h, p, s.term) && s.commit < |p|
    requires p <= log && log == (if p <= s.log then s.log else p) && Installed(s, s', p, log)
    ensures CommitInv(h, s')
  {
    if !(p <= s.log) {
      IndicesSurvive(h, n, s, p);
    }
    assert log[..|p|] == p;
    assert Bound(s') == Bound(s) == s.term;
  }

  lemma InstalledCore(h: Record, n: Id, s: Node, s': Node, p: Log, log: Log)
    requires HistoryOk(h) && Following(h, n, s)
    requires p <= h.reign[s.term].log && CommitInv(h, s')
    requires p <= log && log == (if p <= s.log then s.log else p) && Installed(s, s', p, log)
    ensures CoreInv(h, n, s')
  {
    forall v | v in h.votes && v.voter == n
      ensures StandsBy(v, s')
    {
      assert StandsBy(v, s);
    }
    if p <= s.log {
      CoreKept(h, n, s, s');
    } else {
      SwapKeepsCore(h, n, s, s', p);
    }
  }

  lemma InstallTaken(h: Record, n: Id, s: Node, m: ChunkRequest, ioSnap: Outcome, ioLog: Outcome, ioHard: Outcome)
    requires HistoryOk(h) && Following(h, n, s) && ChunkOk(h, m) && s.term == m.term && h.time > 0
    requires s.commit < |m.prefix| && SameStream(s.transfer, m) && s.saving == 0
    ensures var (s', reply) := InstallSnapshot(s, s.transfer.prefix, ioSnap, ioLog, ioHard);
            var h' := AfterChunk(h, n, m, reply);
            HistoryOk(h') && Grows(h, h', n) && NodeInv(h', n, s')
  {
    GrowsRefl(h, n);
    ReignPrefixSound(h, m.term, m.prefix);
    StreamPrefix(h, s.transfer, m);
    InstallKeeps(h, n, s, m.prefix, ioSnap, ioLog, ioHard);
    var (s', reply) := InstallSnapshot(s, m.prefix, ioSnap, ioLog, ioHard);
    if reply.HaveAll? {
      assert Reigned(h, m.term, |m.prefix|) == m.prefix;
      FollowerAcks(h, n, s', |m.prefix|);
    }
  }

  lemma InstallFollowed(h: Record, n: Id, s: Node, m: ChunkRequest, ioSnap: Outcome, ioLog: Outcome, ioHard: Outcome)
    requires HistoryOk(h) && Following(h, n, s) && ChunkOk(h, m) && s.term == m.term && h.time > 0 && s.saving == 0
    ensures var (s', reply) := InstallAsFollower(s, m, ioSnap, ioLog, ioHard);
            var h' := AfterChunk(h, n, m, reply);
            HistoryOk(h') && Grows(h, h', n) && NodeInv(h', n, s')
  {
    hide NodeInv, HistoryOk, Grows, ChunkOk, InstallSnapshot;
    GrowsRefl(h, n);
    if |m.prefix| <= s.commit {
      StaleChunk(h, n, s, m);
    } else if SameStream(s.transfer, m) && s.transfer.received == m.end {
      InstallTaken(h, n, s, m, ioSnap, ioLog, ioHard);
    }
  }

  lemma InstallHandled(h: Record, n: Id, s: Node, m: ChunkRequest, ioTerm: Outcome, ioSnap: Outcome, ioLog: Outcome,
      ioHard: Outcome)
    requires HistoryOk(h) && NodeInv(h, n, s) && ChunkOk(h, m) && h.time > 0 && s.saving == 0
    ensures var (s', reply) := FinishInstall(s, m, ioTerm, ioSnap, ioLog, ioHard);
            var h' := AfterChunk(h, n, m, reply);
            HistoryOk(h') && Grows(h, h', n) && NodeInv(h', n, s')
  {
    hide NodeInv, HistoryOk, Grows, InstallAsFollower, Follow;
    GrowsRefl(h, n);
    if s.fatal || m.term < s.term {
      TransferKeeps(h, n, s, Idle);
    } else {
      var t := Follow(s, m.term, ioTerm);
      FollowedState(h, n, s, m.term, ioTerm);
      FollowSaves(s, m.term, ioTerm);
      if t.fatal {
        TransferKeeps(h, n, t, Idle);
      } else {
        InstallFollowed(h, n, t, m, ioSnap, ioLog, ioHard);
      }
    }
  }

  lemma FollowSaves(s: Node, term: nat, io: Outcome)
    ensures Follow(s, term, io).saving == s.saving
  {
  }
}
