/** What each handler answers and does, said without its body: when a vote is given, what a proposal
    puts into the log, when a majority commits, what a request leaves behind. */
module Answers {
  import opened Logs
  import opened History
  import opened Protocol
  import opened Safety

  // ------------------------------------------------------------ elections

  /** If nothing fails, a vote is given exactly to a candidate of at least the voter's term whose
      log, whatever it is, is at least as up to date, unless the voter has given it to another in
      that term. */
  lemma VoteGivenExactlyIf(s: Node, m: VoteRequest, candidate: Log)
    requires |candidate| == m.lastIndex && LastTerm(candidate) == m.lastTerm
    ensures HandleVote(s, m, Ok, Ok).1 <==>
              && !s.fatal && s.term <= m.term && UpToDate(candidate, s.log)
              && (s.term < m.term || s.vote == None || s.vote == Some(m.cand))
  {
  }

  /** What a voter is left with. A vote that is given is on disk; one that is not given is kept for
      another, unless a write has failed. */
  lemma VoterLeft(s: Node, m: VoteRequest, ioTerm: Outcome, ioVote: Outcome)
    ensures var (t, granted) := HandleVote(s, m, ioTerm, ioVote);
            && t.log == s.log && t.commit == s.commit && t.applied == s.applied && t.snap == s.snap
            && (granted ==> t.vote == t.disk.vote == Some(m.cand) && t.term == t.disk.term == m.term && !t.fatal)
            && (!granted && s.term == m.term ==> t.vote == s.vote && t.role == s.role)
            && (!granted && s.term < m.term && !s.fatal ==> t.vote == None && t.term == m.term && t.role.Follower?)
            && (m.term < s.term || s.fatal ==> t == s)
  {
  }

  /** Anyone but a leader may campaign, and may do so again and again. */
  lemma CampaignStarts(s: Node, id: Id, io: Outcome)
    ensures var (t, started) := StartElection(s, id, io);
            && (started <==> !s.fatal && !s.role.Leader? && io.Ok?)
            && (started ==>
                  && t.role.Candidate? && t.term == t.disk.term == s.term + 1 && t.vote == t.disk.vote == Some(id)
                  && StartElection(t, id, Ok).1 && StartElection(t, id, Ok).0.term == s.term + 2)
            && (!started ==> t.role == s.role && t.term == s.term && t.vote == s.vote && t.fatal == s.fatal)
            && t.log == s.log && t.commit == s.commit && t.applied == s.applied && t.snap == s.snap
  {
  }

  /** Stepping down: the higher of the two terms, and a free vote exactly if the term is new. */
  lemma StepsDown(s: Node, term: nat, io: Outcome)
    ensures var t := BecomeFollower(s, term, io);
            && t.role.Follower? && t.term == Max(s.term, term) && t.vote == (if term > s.term then None else s.vote)
            && t.fatal == (s.fatal || !io.Ok?) && t.noop == 0
            && t.log == s.log && t.commit == s.commit && t.applied == s.applied && t.snap == s.snap
            && (io.Ok? ==> t.disk.term == t.term && t.disk.vote == t.vote && t.disk.commit == t.commit)
  {
  }

  // ------------------------------------------------------------ majorities

  /** The peers that are known to hold the log up to an index, and the node itself. */
  function Known(s: Node, peers: set<Id>, id: Id, i: nat): set<Id> {
    {id} + set p | p in peers && p in s.acked && i <= s.acked[p]
  }

  /** What counts as a majority is a quorum of the cluster, and the other way round. */
  lemma MajorityIsQuorum(s: Node, peers: set<Id>, id: Id, i: nat)
    requires id !in peers && 0 < i
    ensures Majority(s, peers, i) <==> IsQuorum(peers + {id}, Known(s, peers, id, i))
  {
    assert Known(s, peers, id, i) == Holders(s.acked, peers, i) + {id};
    assert |peers + {id}| == |peers| + 1;
    assert |Holders(s.acked, peers, i) + {id}| == |Holders(s.acked, peers, i)| + 1;
  }

  /** An index with an entry of the node's term that is known to be on a quorum of the cluster. */
  predicate Holds(s: Node, peers: set<Id>, id: Id, i: nat) {
    0 < i <= |s.log| && TermAt(s.log, i) == s.term && IsQuorum(peers + {id}, Known(s, peers, id, i))
  }

  /** The commit index moves to every index of the current term that a quorum holds, and to none
      else; if that cannot be written, it stays and the node fails closed. */
  lemma CommitReaches(s: Node, peers: set<Id>, id: Id, io: Outcome)
    requires id !in peers && s.commit <= |s.log|
    ensures var t := AdvanceCommit(s, peers, io);
            && (io.Ok? ==> forall i: nat {:trigger Holds(s, peers, id, i)} :: Holds(s, peers, id, i) ==> i <= t.commit)
            && (t.commit != s.commit ==>
                  && s.commit < t.commit && t.disk.commit == t.commit && Holds(s, peers, id, t.commit))
            && (!io.Ok? ==> t.commit == s.commit)
            && (t.fatal <==> s.fatal || (!io.Ok? && CommitTarget(s, peers, |s.log|) != s.commit))
            && t.log == s.log && t.term == s.term && t.applied == s.applied && t.snap == s.snap && t.acked == s.acked
  {
    forall i | 0 < i <= |s.log|
      ensures Majority(s, peers, i) <==> IsQuorum(peers + {id}, Known(s, peers, id, i))
    {
      MajorityIsQuorum(s, peers, id, i);
    }
    hide Majority, IsQuorum, Known;
  }

  /** Once a quorum holds all of a leader's log and its last entry is of the leader's own term, all
      of it is committed. */
  lemma AllCommitted(s: Node, peers: set<Id>, id: Id)
    requires id !in peers && s.commit <= |s.log| && Holds(s, peers, id, |s.log|)
    ensures AdvanceCommit(s, peers, Ok).commit == |s.log|
  {
    CommitReaches(s, peers, id, Ok);
    hide Holds, CommitTarget;
  }

  // ------------------------------------------------------------ leading

  /** A proposal is taken exactly by a leader that has not failed and can write it. It then is the
      last entry of the log, with the next index, the leader's term and the command itself. */
  lemma ProposalIsLogged(s: Node, id: Id, peers: set<Id>, command: Command, io: AppendOutcome, ioCommit: Outcome)
    ensures var (t, ok) := Propose(s, id, peers, command, io, ioCommit);
            && (ok <==> !s.fatal && s.role.Leader? && io.Stored?)
            && t.log == s.log + (if ok then [Entry(|s.log| + 1, s.term, command)] else [])
            && (ok ==> Get(t.acked, id) == |t.log| && t.disk.log == s.disk.log + [Entry(|s.log| + 1, s.term, command)])
            && (!ok && !s.fatal && s.role.Leader? ==> t.fatal && t.role.Follower?)
            && t.term == s.term && t.vote == s.vote && t.applied == s.applied && t.snap == s.snap
  {
    hide CommitTarget;
  }

  /** A new leader has its no-op in the log, names it as what reads wait for, and knows nothing of
      what its peers hold. */
  lemma LeaderStarts(s: Node, id: Id, peers: set<Id>, ioCommit: Outcome)
    requires s.role.Candidate? && id !in peers
    ensures var t := BecomeLeader(s, id, peers, Stored, ioCommit);
            && t.log == s.log + [Entry(|s.log| + 1, s.term, Noop)] && Get(t.acked, id) == |t.log|
            && (forall p :: p in peers ==> Get(t.acked, p) == 0)
            && (!t.fatal ==> t.role.Leader? && t.noop == |t.log|) && (ioCommit.Ok? ==> t.fatal == s.fatal)
            && t.term == s.term && t.vote == s.vote && t.applied == s.applied && t.snap == s.snap
  {
    hide CommitTarget;
  }

  /** Alone in its cluster, a leader commits what it proposes at once. */
  lemma AloneCommits(s: Node, id: Id, command: Command)
    requires s.role.Leader? && !s.fatal && s.commit <= |s.log|
    ensures Propose(s, id, {}, command, Stored, Ok).0.commit == |s.log| + 1
  {
    var t := s.(disk := AppendLog(s.disk, [NextEntry(s, command)], Stored), log := s.log + [NextEntry(s, command)],
        acked := s.acked[id := |s.log| + 1]);
    assert Holds(t, {}, id, |t.log|);
    AllCommitted(t, {}, id);
  }

  /** An acknowledgement raises what is known of its sender and of nobody else; a late one changes
      nothing. */
  lemma AckCounts(s: Node, p: Id, len: nat, peers: set<Id>, advance: bool, io: Outcome)
    ensures var t := ReceiveAck(s, p, len, peers, advance, io);
            && Get(t.acked, p) == Max(Get(s.acked, p), len)
            && (forall q :: q != p ==> Get(t.acked, q) == Get(s.acked, q))
            && (!advance ==> t == s.(acked := t.acked))
            && t.log == s.log && t.term == s.term && t.applied == s.applied && t.snap == s.snap
  {
    hide CommitTarget;
  }

  // ------------------------------------------------------------ following

  /** If nothing fails, a request succeeds exactly if it is not of an earlier term, its previous
      entry is in the log and not under the snapshot, and it does not contradict what is
      committed. */
  lemma AppendSucceedsExactlyIf(s: Node, m: AppendRequest)
    ensures HandleAppend(s, m, Ok, Stored, Ok, Ok).1.Success? <==>
              && !s.fatal && s.term <= m.term && s.snap <= m.prev <= |s.log| && TermAt(s.log, m.prev) == m.prevTerm
              && !MergeEntries(s.log, s.commit, m.prev, m.entries).CommittedConflict?
  {
    hide MergeEntries, ConflictIndex;
  }

  /** What is answered otherwise, if nothing fails: a refusal by a node that has failed or is in a
      later term, and else where to go on. That is right after the snapshot, or at the start of the
      run of terms that the mismatch is in, or at the first committed entry of another term. The
      log and the indices stay. */
  lemma ConflictAnswered(s: Node, m: AppendRequest)
    ensures var (t, reply) := HandleAppend(s, m, Ok, Stored, Ok, Ok);
            !reply.Success? ==>
              && t.log == s.log && t.commit == s.commit && t.applied == s.applied && t.snap == s.snap
              && (if s.fatal || m.term < s.term then reply.Refused? && t == s
                  else if m.prev < s.snap then reply == Conflict(s.snap + 1)
                  else if m.prev > |s.log| || TermAt(s.log, m.prev) != m.prevTerm
                  then reply == Conflict(ConflictIndex(s.log, s.snap, m.prev))
                  else
                    && reply.Conflict? && m.prev < reply.next <= s.commit && reply.next <= m.prev + |m.entries|
                    && !HasTerm(s.log, m.prev, m.entries, reply.next - m.prev - 1)
                    && (forall j {:trigger HasTerm(s.log, m.prev, m.entries, j)} ::
                          0 <= j < reply.next - m.prev - 1 ==> HasTerm(s.log, m.prev, m.entries, j)))
  {
    hide ConflictIndex;
  }

  /** What a request that succeeds leaves behind: the sender's term, the merged log, in memory and,
      if they agreed before, on disk, and the commit index of the sender as far as the request
      goes, unless it was higher before. */
  lemma AppendLeaves(s: Node, m: AppendRequest, ioTerm: Outcome, ioAdd: AppendOutcome, ioSwap: Outcome,
      ioCommit: Outcome)
    ensures var (t, reply) := HandleAppend(s, m, ioTerm, ioAdd, ioSwap, ioCommit);
            reply.Success? ==> m.prev <= |s.log| && TookUp(s, m, t) && t.term == m.term
  {
    hide AcceptEntries, ConflictIndex, Follow;
    var f := Follow(s, m.term, ioTerm);
    FollowLeaves(s, m.term, ioTerm);
    if m.prev <= |s.log| && !f.fatal {
      AcceptLeaves(f, m, ioAdd, ioSwap, ioCommit);
      hide MergeEntries;
    }
  }

  ghost predicate TookUp(s: Node, m: AppendRequest, t: Node)
    requires m.prev <= |s.log|
  {
    && t.log == MergedLog(s.log, MergeEntries(s.log, s.commit, m.prev, m.entries))
    && t.commit == Max(s.commit, Min(m.commit, m.prev + |m.entries|))
    && (t.commit != s.commit ==> t.disk.commit == t.commit)
    && (s.disk.log == s.log ==> t.disk.log == t.log)
    && t.role.Follower? && !t.fatal && t.applied == s.applied && t.snap == s.snap
  }

  lemma AcceptLeaves(s: Node, m: AppendRequest, ioAdd: AppendOutcome, ioSwap: Outcome, ioCommit: Outcome)
    requires m.prev <= |s.log| && s.role.Follower? && !s.fatal
    ensures var (t, reply) := AcceptEntries(s, m, ioAdd, ioSwap, ioCommit);
            reply.Success? ==> TookUp(s, m, t) && t.term == s.term
  {
    hide MergeEntries;
  }

  lemma FollowLeaves(s: Node, term: nat, io: Outcome)
    ensures var t := Follow(s, term, io);
            && t.log == s.log && t.commit == s.commit && t.applied == s.applied && t.snap == s.snap
            && t.disk.log == s.disk.log && t.role.Follower? && (s.term <= term ==> t.term == term)
  {
  }

  /** A request gets as far as taking up its entries. */
  predicate Reaches(s: Node, m: AppendRequest) {
    && !s.fatal && s.term <= m.term && s.snap <= m.prev <= |s.log| && TermAt(s.log, m.prev) == m.prevTerm
    && !MergeEntries(s.log, s.commit, m.prev, m.entries).CommittedConflict?
  }

  /** The entries that a merge brings are written. */
  predicate Wrote(merge: Merge, ioAdd: AppendOutcome, ioSwap: Outcome) {
    (merge.Extended? ==> ioAdd.Stored?) && (merge.Replaced? ==> ioSwap.Ok?)
  }

  /** What is left and answered, whatever fails: see `AppendFails`. */
  ghost predicate Coped(s: Node, m: AppendRequest, ioAdd: AppendOutcome, ioSwap: Outcome, ioCommit: Outcome, t: Node,
      reply: AppendReply)
    requires m.prev <= |s.log|
  {
    var merge := MergeEntries(s.log, s.commit, m.prev, m.entries);
    var wrote := Wrote(merge, ioAdd, ioSwap);
    && (t.fatal <==> !wrote) && t.log == (if wrote then MergedLog(s.log, merge) else s.log)
    && (reply.Success? <==> wrote && (ioCommit.Ok? || Min(m.commit, m.prev + |m.entries|) <= s.commit))
    && (!reply.Success? ==> reply.Refused? && t.commit == s.commit)
  }

  lemma AcceptCopes(s: Node, m: AppendRequest, ioAdd: AppendOutcome, ioSwap: Outcome, ioCommit: Outcome)
    requires m.prev <= |s.log| && !s.fatal && !MergeEntries(s.log, s.commit, m.prev, m.entries).CommittedConflict?
    ensures var (t, reply) := AcceptEntries(s, m, ioAdd, ioSwap, ioCommit);
            Coped(s, m, ioAdd, ioSwap, ioCommit, t, reply)
  {
    hide MergeEntries;
  }

  /** If the entries cannot be written, the node fails closed and its log in memory stays. If only
      the commit index cannot, it takes the entries, does not acknowledge them, and goes on. */
  lemma AppendFails(s: Node, m: AppendRequest, ioAdd: AppendOutcome, ioSwap: Outcome, ioCommit: Outcome)
    requires Reaches(s, m)
    ensures var (t, reply) := HandleAppend(s, m, Ok, ioAdd, ioSwap, ioCommit);
            Coped(s, m, ioAdd, ioSwap, ioCommit, t, reply)
  {
    hide MergeEntries, ConflictIndex, AcceptEntries;
    var f := Follow(s, m.term, Ok);
    assert f.log == s.log && f.commit == s.commit && f.snap == s.snap && !f.fatal;
    AcceptCopes(f, m, ioAdd, ioSwap, ioCommit);
  }

  // ------------------------------------------------------------ snapshots

  /** The stream under way is from the chunk's leader and has its last index and term. */
  predicate Continues(m: ChunkRequest, x: Transfer) {
    x.Receiving? && x.leader == m.leader && |x.prefix| == |m.prefix| && LastTerm(x.prefix) == LastTerm(m.prefix)
  }

  /** How many bytes the receiver has of the snapshot that a chunk belongs to. */
  function Have(x: Transfer, m: ChunkRequest): nat {
    if Continues(m, x) then x.received else 0
  }

  /** A chunk is taken exactly if it starts where those bytes end, and then they end where it does;
      otherwise the receiver says where they end. */
  lemma ChunkTakenExactlyIf(x: Transfer, m: ChunkRequest)
    ensures var (y, reply) := TakeChunk(x, m);
            && (reply.Taken? || reply.Install? <==> m.offset == Have(x, m))
            && (reply.Taken? || reply.Install? ==> Have(y, m) == m.end && (reply.Install? <==> m.done))
            && (m.offset != Have(x, m) ==> reply == Want(Have(x, m)) && Have(y, m) == Have(x, m))
  {
    hide LastTerm;
  }

  /** If nothing fails, a node that has not failed and hears of a snapshot in its own or a later
      term has it already, or looks at the chunk. */
  lemma ChunkAnswered(s: Node, m: ChunkRequest)
    ensures var reply := HandleChunk(s, m, Ok).1;
            && (reply.ChunkRefused? <==> s.fatal || m.term < s.term)
            && (reply.HaveAll? <==> !s.fatal && s.term <= m.term && |m.prefix| <= s.commit)
            && (!reply.ChunkRefused? && !reply.HaveAll? ==> reply == TakeChunk(s.transfer, m).1)
  {
    hide LastTerm;
  }

  /** If nothing fails, the install succeeds exactly if the whole body is there or is not needed;
      then the log starts with the snapshot's. */
  lemma InstallSucceedsExactlyIf(s: Node, m: ChunkRequest)
    ensures var (t, reply) := FinishInstall(s, m, Ok, Ok, Ok, Ok);
            && (reply.HaveAll? <==>
                  && !s.fatal && s.term <= m.term
                  && (|m.prefix| <= s.commit || (Continues(m, s.transfer) && s.transfer.received == m.end)))
            && (reply.HaveAll? && s.commit < |m.prefix| ==>
                  && t.snap == t.applied == t.commit == |m.prefix| == t.disk.snap == t.disk.commit
                  && t.log == t.disk.log == LogAfterSnapshot(s.log, s.transfer.prefix))
            && (reply.HaveAll? || reply.ChunkRefused? ==> t.transfer == Idle)
            && (!(reply.HaveAll? && s.commit < |m.prefix|) ==>
                  t.log == s.log && t.snap == s.snap && t.applied == s.applied && t.commit == s.commit)
  {
    hide LogAfterSnapshot, LastTerm;
  }

  // ------------------------------------------------------------ applying, compacting, starting

  /** Applying goes on, one entry at a time, until all that is committed is applied. */
  lemma ApplyCatchesUp(s: Node)
    ensures ApplyNext(s).applied == (if s.applied < s.commit then s.applied + 1 else s.applied)
    ensures ApplyNext(s) == s.(applied := ApplyNext(s).applied)
  {
  }

  /** A compaction that nothing disturbs moves the snapshot up to the applied index, in memory and
      on disk, and leaves the full log as it is. */
  lemma CompactionCompletes(s: Node)
    requires s.snap < s.applied <= |s.log| && s.saving == 0 && s.disk.wal == s.log && s.disk.base <= s.applied
    ensures var t := FinishSnapshot(SaveSnapshot(s, Ok), Ok);
            && t.snap == t.disk.snap == t.disk.base == s.applied && t.saving == 0 && t.disk.loadable
            && t == s.(snap := t.snap, disk := t.disk) && t.disk.log == t.disk.wal == s.log
  {
    hide LogAfterSnapshot;
  }

  /** A compaction whose writes fail leaves the node in memory as it was, ready to try again. */
  lemma CompactionFails(s: Node, io: Outcome)
    requires !io.Ok? && s.saving == 0
    ensures SaveSnapshot(s, io) == s.(disk := SaveSnapshot(s, io).disk)
    ensures var t := SaveSnapshot(s, Ok); FinishSnapshot(t, io) == s.(disk := FinishSnapshot(t, io).disk)
  {
    hide LogAfterSnapshot;
  }

  /** There is nothing to compact if nothing is applied beyond the snapshot. */
  lemma NothingToCompact(s: Node, io: Outcome)
    requires s.applied <= s.snap || s.saving != 0
    ensures SaveSnapshot(s, io) == s
  {
  }

  /** A node starts as a follower with the term, vote and log of its disk. It has applied all it
      knows to be committed: what the hard state says, but no less than the snapshot and no more
      than the log. */
  lemma StartsFromDisk(d: Disk)
    requires d.snap <= |d.log|
    ensures var s := Restart(d);
            && s.role.Follower? && !s.fatal
            && s.term == d.term && s.vote == d.vote && s.log == d.log && s.snap == d.snap
            && d.snap <= s.commit == s.applied == s.disk.commit <= |d.log|
            && (d.snap <= d.commit <= |d.log| ==> s.commit == d.commit)
            && (d.commit < d.snap ==> s.commit == d.snap) && (|d.log| < d.commit ==> s.commit == |d.log|)
            && s.transfer == Idle && s.saving == 0 && s.acked == map[] && s.noop == 0
  {
  }
}
