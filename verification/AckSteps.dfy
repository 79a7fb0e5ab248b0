/** What a node acknowledges, or counts as its own, is in its log and on its disk. */
module AckSteps {
  import opened Logs
  import opened History
  import opened Protocol
  import opened Invariant
  import opened Growth
  import opened LeaderSteps
  import opened FollowerSteps
  import opened Roots

  /** The disk has the term of every new acknowledgement, and its entries exactly if `has`. */
  ghost predicate NewAcks(h: Record, h': Record, d: Disk, has: bool) {
    forall a {:trigger a in h'.acks} :: a in h'.acks && a !in h.acks ==>
      AckOk(h', a) && a.term <= d.term && (Reigned(h', a.term, a.len) <= d.log <==> has)
  }

  /** What a node that has not failed has in memory is also on its disk. */
  lemma SoundIsWritten(h: Record, n: Id, s: Node, len: nat)
    requires n in h.members && InStep(s) && h.time > 0
    requires s.term in h.reign && len <= |h.reign[s.term].log|
    ensures NewAcks(h, AddAck(h, AckOf(h, n, s.term, len)), s.disk, Reigned(h, s.term, len) <= s.log)
  {
  }

  lemma SoundMeans(h: Record, n: Id, s: Node)
    requires NodeRooted(h, n, s)
    ensures n in h.members && (!s.fatal ==> InStep(s))
  {
  }

  // ------------------------------------------------------------ following

  /** Unless it is refused, a merge gives a log that has all that the request brings. */
  lemma MergeBrings(h: Record, log: Log, commit: nat, m: AppendRequest)
    requires ReignsOk(h) && AppendRooted(h, m) && Sourced(h, log)
    requires m.prev <= |log| && TermAt(log, m.prev) == m.prevTerm
    ensures var merge := MergeEntries(log, commit, m.prev, m.entries);
            !merge.CommittedConflict? ==> Brought(h, m) <= MergedLog(log, merge)
  {
    MergeRoots(h, log, commit, m);
    AgreedPart(h, log, m);
    hide ReignsOk, Sourced, AppendRooted, FirstConflict;
  }

  lemma AcceptedHasAll(h: Record, s: Node, m: AppendRequest, ioAdd: AppendOutcome, ioSwap: Outcome, ioCommit: Outcome)
    requires ReignsOk(h) && AppendRooted(h, m) && Sourced(h, s.log) && !s.fatal
    requires m.prev <= |s.log| && TermAt(s.log, m.prev) == m.prevTerm
    ensures var (s', reply) := AcceptEntries(s, m, ioAdd, ioSwap, ioCommit);
            reply.Success? ==> !s'.fatal && s'.term == s.term && Brought(h, m) <= s'.log
  {
    hide ReignsOk, Sourced, MergeEntries, MergedLog, WriteMerge, WriteOk, Brought, TermAt;
    MergeBrings(h, s.log, s.commit, m);
  }

  /** A request that succeeds leaves the follower with all that it brings. */
  lemma SuccessHasAll(h: Record, n: Id, s: Node, m: AppendRequest, ioTerm: Outcome, ioAdd: AppendOutcome,
      ioSwap: Outcome, ioCommit: Outcome)
    requires ReignsOk(h) && NodeRooted(h, n, s) && AppendRooted(h, m)
    ensures var (s', reply) := HandleAppend(s, m, ioTerm, ioAdd, ioSwap, ioCommit);
            reply.Success? ==> !s'.fatal && s'.term == m.term && Brought(h, m) <= s'.log
  {
    hide NodeRooted, Follow, AcceptEntries, ReignsOk, Sourced, Brought, ConflictIndex, TermAt;
    var t := Follow(s, m.term, ioTerm);
    FollowedTo(s, m.term, ioTerm);
    FollowedLog(h, n, s, m.term, ioTerm);
    if !t.fatal && m.prev <= |t.log| && TermAt(t.log, m.prev) == m.prevTerm {
      AcceptedHasAll(h, t, m, ioAdd, ioSwap, ioCommit);
    }
  }

  lemma FollowedLog(h: Record, n: Id, s: Node, term: nat, io: Outcome)
    requires NodeRooted(h, n, s)
    ensures var t := Follow(s, term, io);
            && t.log == s.log && t.commit == s.commit && t.transfer == s.transfer && Sourced(h, s.log)
            && (s.transfer.Receiving? ==> Sourced(h, s.transfer.prefix))
  {
  }

  /** A snapshot that is installed leaves the follower with all of it. */
  lemma InstallHasAll(h: Record, n: Id, s: Node, m: ChunkRequest, ioTerm: Outcome, ioSnap: Outcome, ioLog: Outcome,
      ioHard: Outcome)
    requires ReignsOk(h) && NodeRooted(h, n, s) && ChunkRooted(h, m)
    ensures var (s', reply) := FinishInstall(s, m, ioTerm, ioSnap, ioLog, ioHard);
            reply.HaveAll? ==>
              !s'.fatal && s'.term == m.term && (if |m.prefix| <= s.commit then s'.log == s.log else m.prefix <= s'.log)
  {
    hide NodeRooted, Follow, InstallAsFollower, ReignsOk, ChunkRooted;
    var t := Follow(s, m.term, ioTerm);
    FollowedTo(s, m.term, ioTerm);
    FollowedLog(h, n, s, m.term, ioTerm);
    InstalledHasAll(h, t, m, ioSnap, ioLog, ioHard);
  }

  lemma InstalledHasAll(h: Record, s: Node, m: ChunkRequest, ioSnap: Outcome, ioLog: Outcome, ioHard: Outcome)
    requires ReignsOk(h) && ChunkRooted(h, m) && (s.transfer.Receiving? ==> Sourced(h, s.transfer.prefix))
    ensures var (s', reply) := InstallAsFollower(s, m, ioSnap, ioLog, ioHard);
            reply.HaveAll? ==>
              && s'.fatal == s.fatal && s'.term == s.term
              && (if |m.prefix| <= s.commit then s'.log == s.log else m.prefix <= s'.log)
  {
    ReignPrefixSound(h, m.term, m.prefix);
    if SameStream(s.transfer, m) {
      StreamPrefix(h, s.transfer, m);
    }
    hide ReignsOk, Sourced, ChunkRooted, SameStream, LastTerm;
  }

  lemma AppendAcks(h: Record, n: Id, s: Node, m: AppendRequest, ioTerm: Outcome, ioAdd: AppendOutcome, ioSwap: Outcome,
      ioCommit: Outcome)
    requires RootsOk(h) && NodeRooted(h, n, s) && AppendRooted(h, m) && h.time > 0
    ensures var (s', reply) := HandleAppend(s, m, ioTerm, ioAdd, ioSwap, ioCommit);
            NewAcks(h, AfterAppendRequest(h, n, m, reply), s'.disk, true)
  {
    hide NodeRooted, ReignsOk, HandleAppend;
    var (s', reply) := HandleAppend(s, m, ioTerm, ioAdd, ioSwap, ioCommit);
    SuccessHasAll(h, n, s, m, ioTerm, ioAdd, ioSwap, ioCommit);
    AppendHandledRoots(h, n, s, m, ioTerm, ioAdd, ioSwap, ioCommit);
    SoundMeans(AfterAppendRequest(h, n, m, reply), n, s');
    if reply.Success? {
      SoundIsWritten(h, n, s', m.prev + |m.entries|);
    }
  }

  lemma ChunkHasAll(s: Node, m: ChunkRequest, ioTerm: Outcome)
    ensures var (s', reply) := HandleChunk(s, m, ioTerm);
            reply.HaveAll? ==> !s'.fatal && s'.term == m.term && |m.prefix| <= s.commit && s'.log == s.log
  {
    hide LastTerm;
  }

  lemma ChunkAcks(h: Record, n: Id, s: Node, m: ChunkRequest, ioTerm: Outcome)
    requires RootsOk(h) && NodeRooted(h, n, s) && ChunkRooted(h, m) && h.time > 0
    ensures var (s', reply) := HandleChunk(s, m, ioTerm);
            NewAcks(h, AfterChunk(h, n, m, reply), s'.disk, |m.prefix| <= s.commit ==> m.prefix <= s.log)
  {
    hide NodeRooted, RootsOk, HandleChunk;
    var (s', reply) := HandleChunk(s, m, ioTerm);
    ChunkHasAll(s, m, ioTerm);
    ChunkHandledRoots(h, n, s, m, ioTerm);
    SoundMeans(AfterChunk(h, n, m, reply), n, s');
    if reply.HaveAll? {
      SoundIsWritten(h, n, s', |m.prefix|);
    }
  }

  lemma InstallAcks(h: Record, n: Id, s: Node, m: ChunkRequest, ioTerm: Outcome, ioSnap: Outcome, ioLog: Outcome,
      ioHard: Outcome)
    requires RootsOk(h) && NodeRooted(h, n, s) && ChunkRooted(h, m) && s.saving == 0 && h.time > 0
    ensures var (s', reply) := FinishInstall(s, m, ioTerm, ioSnap, ioLog, ioHard);
            NewAcks(h, AfterChunk(h, n, m, reply), s'.disk, |m.prefix| <= s.commit ==> m.prefix <= s.log)
  {
    hide NodeRooted, ReignsOk, FinishInstall;
    var (s', reply) := FinishInstall(s, m, ioTerm, ioSnap, ioLog, ioHard);
    InstallHasAll(h, n, s, m, ioTerm, ioSnap, ioLog, ioHard);
    InstallHandledRoots(h, n, s, m, ioTerm, ioSnap, ioLog, ioHard);
    SoundMeans(AfterChunk(h, n, m, reply), n, s');
    if reply.HaveAll? {
      SoundIsWritten(h, n, s', |m.prefix|);
    }
  }

  // ------------------------------------------------------------ leading

  /** An entry that its leader counts is on the leader's disk, whatever becomes of the commit index. */
  lemma OwnEntryWritten(s: Node, n: Id, peers: set<Id>, e: Entry, ioCommit: Outcome)
    requires s.term <= s.disk.term
    ensures var t := LeaderAppend(s, n, peers, e, Stored, ioCommit);
            t.disk.log == s.disk.log + [e] && s.term <= t.disk.term
  {
    hide CommitTarget;
  }

  /** The own acknowledgement of a leader whose log in the history ends with the entry it writes. */
  lemma OwnAcks(h: Record, n: Id, s: Node, peers: set<Id>, e: Entry, io: AppendOutcome, ioCommit: Outcome)
    requires n in h.members && InStep(s) && h.time > 0 && s.term in h.reign && h.reign[s.term].log == s.log + [e]
    ensures NewAcks(h, AfterAppend(h, n, s, peers, e, io), LeaderAppend(s, n, peers, e, io, ioCommit).disk, true)
  {
    if io.Stored? {
      OwnEntryWritten(s, n, peers, e, ioCommit);
      hide LeaderAppend, CommitTarget;
    }
  }

  lemma ProposeAcks(h: Record, n: Id, s: Node, peers: set<Id>, command: Command, io: AppendOutcome, ioCommit: Outcome)
    requires NodeRooted(h, n, s) && h.time > 0
    ensures NewAcks(h, AfterPropose(h, n, s, peers, command, io), Propose(s, n, peers, command, io, ioCommit).0.disk,
            true)
  {
    SoundMeans(h, n, s);
    var e := NextEntry(s, command);
    if !s.fatal && s.role.Leader? && Reached(io) {
      assert Reigning(h, n, s);
      hide NodeRooted, LeaderAppend, AfterAppend;
      OwnAcks(AddEntry(h, s.term, e), n, s, peers, e, io, ioCommit);
    }
  }

  lemma LeadAcks(h: Record, n: Id, s: Node, peers: set<Id>, ballots: map<Id, Vote>, io: AppendOutcome,
      ioCommit: Outcome)
    requires NodeRooted(h, n, s) && s.role.Candidate? && h.time > 0
    ensures NewAcks(h, AfterWin(h, n, s, peers, ballots, io), BecomeLeader(s, n, peers, io, ioCommit).disk, true)
  {
    SoundMeans(h, n, s);
    assert !s.fatal;
    var e, t := NextEntry(s, Noop), Crowned(s, n, peers);
    hide NodeRooted, LeaderAppend, AfterAppend;
    if Reached(io) {
      OwnAcks(AddReign(h, s.term, Reign(n, |s.log|, s.log + [e], ballots)), n, t, peers, e, io, ioCommit);
      if io.Stored? {
        assert BecomeLeader(s, n, peers, io, ioCommit) == LeaderAppend(t, n, peers, e, io, ioCommit);
      } else {
        NotStored(AddReign(h, s.term, Reign(n, |s.log|, s.log + [e], ballots)), n, t, peers, e, io);
      }
    }
  }

  lemma NotStored(h: Record, n: Id, s: Node, peers: set<Id>, e: Entry, io: AppendOutcome)
    requires !io.Stored?
    ensures AfterAppend(h, n, s, peers, e, io) == h
  {
  }
}
