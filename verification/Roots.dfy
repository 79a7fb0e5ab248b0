/** What every step of a node keeps of elections and logs, however careless its compactions.

    This is the part of the invariant that speaks of votes, terms and roles, and of where the
    entries of a log come from. It says nothing about acknowledged or committed entries, so it
    does not need what is asked of compaction elsewhere. A node keeps its word on every vote,
    leads only in a term that the history gives to it, and has in memory and on disk only
    logs whose entries were written by the leader of their term, each after the entries that
    the leader had before it. */
module Roots {
  import opened Logs
  import opened History
  import opened Protocol
  import opened Invariant
  import opened Growth
  import opened VoteSteps
  import opened LeaderSteps
  import opened FollowerSteps

  // ------------------------------------------------------------ the invariant of one node

  ghost predicate LogsRooted(h: Record, s: Node) {
    && LogInv(h, s.log, Bound(s)) && LogInv(h, s.disk.log, Bound(s)) && LogInv(h, s.disk.wal, Bound(s))
    && (s.transfer.Receiving? ==> Sourced(h, s.transfer.prefix))
  }

  /** A snapshot that compaction is writing is the one in the snapshot file. */
  ghost predicate RoleRooted(h: Record, id: Id, s: Node) {
    && (s.fatal ==> s.role.Follower?)
    && (!s.fatal ==> InStep(s))
    && (s.role.Leader? ==> Reigning(h, id, s))
    && (s.role.Candidate? ==> CandidateInv(h, id, s))
    && (s.saving != 0 ==> s.disk.snap == s.saving)
  }

  ghost predicate NodeRooted(h: Record, id: Id, s: Node) {
    id in h.members && LogsRooted(h, s) && VoteInv(h, id, s) && RoleRooted(h, id, s)
  }

  // ------------------------------------------------------------ moves that write no log

  /** A term and vote that a node may move to without breaking its word. */
  predicate MayMove(s: Node, term: nat, vote: Option<Id>) {
    || s.term < term
    || (s.term == term && (s.vote == vote || s.vote == None))
    || (s.disk.term == term && s.disk.vote == vote)
  }

  lemma VotesMove(h: Record, id: Id, s: Node, s': Node)
    requires VoteInv(h, id, s) && MayMove(s, s'.term, s'.vote) && MayMove(s, s'.disk.term, s'.disk.vote)
    ensures VoteInv(h, id, s') && Bound(s) <= Bound(s')
  {
    forall v | v in h.votes && v.voter == id
      ensures StandsBy(v, s')
    {
      assert StandsBy(v, s);
    }
  }

  ghost predicate From(s: Node, log: Log) {
    log == s.log || log == s.disk.log || log == s.disk.wal
  }

  /** Every log after the step is one that the node had before. */
  ghost predicate Quiet(s: Node, s': Node) {
    && MayMove(s, s'.term, s'.vote) && MayMove(s, s'.disk.term, s'.disk.vote)
    && From(s, s'.log) && From(s, s'.disk.log) && From(s, s'.disk.wal)
    && (s'.transfer == s.transfer || s'.transfer == Idle)
  }

  lemma QuietKeeps(h: Record, id: Id, s: Node, s': Node)
    requires NodeRooted(h, id, s) && Quiet(s, s') && RoleRooted(h, id, s')
    ensures NodeRooted(h, id, s')
  {
    VotesMove(h, id, s, s');
    hide VoteInv, Sourced, RoleRooted;
  }

  lemma FollowerRooted(h: Record, id: Id, s: Node, term: nat, io: Outcome)
    requires NodeRooted(h, id, s)
    ensures NodeRooted(h, id, BecomeFollower(s, term, io)) && NodeRooted(h, id, Follow(s, term, io))
    ensures Follow(s, term, io).saving == s.saving
  {
    QuietKeeps(h, id, s, BecomeFollower(s, term, io));
  }

  /** A leader that has a new commit index, or failed to write it. */
  lemma CommitRooted(h: Record, id: Id, s: Node, commit: nat, io: Outcome)
    requires NodeRooted(h, id, s) && !s.fatal
    ensures var t := Persist(s.(commit := commit), io);
            (io.Ok? ==> NodeRooted(h, id, t)) && NodeRooted(h, id, s.(disk := t.disk)) &&
                NodeRooted(h, id, Fail(s.(disk := t.disk)))
  {
    hide VoteInv, LogsRooted;
    var t := Persist(s.(commit := commit), io);
    QuietKeeps(h, id, s, s.(disk := t.disk));
    QuietKeeps(h, id, s, Fail(s.(disk := t.disk)));
    if io.Ok? {
      QuietKeeps(h, id, s, t);
    }
  }

  lemma AdvanceRooted(h: Record, id: Id, s: Node, peers: set<Id>, io: Outcome)
    requires NodeRooted(h, id, s) && !s.fatal
    ensures NodeRooted(h, id, AdvanceCommit(s, peers, io))
  {
    hide NodeRooted, CommitTarget;
    CommitRooted(h, id, s, CommitTarget(s, peers, |s.log|), io);
  }

  lemma ApplyRooted(h: Record, id: Id, s: Node)
    requires NodeRooted(h, id, s)
    ensures NodeRooted(h, id, ApplyNext(s))
  {
    QuietKeeps(h, id, s, ApplyNext(s));
  }

  lemma DropRooted(h: Record, id: Id, s: Node, io: Outcome)
    requires NodeRooted(h, id, s)
    ensures NodeRooted(h, id, FinishSnapshot(s, io))
  {
    QuietKeeps(h, id, s, FinishSnapshot(s, io));
  }

  lemma RestartRooted(h: Record, id: Id, s: Node)
    requires NodeRooted(h, id, s)
    ensures NodeRooted(h, id, Restart(s.disk))
  {
    QuietKeeps(h, id, s, Restart(s.disk));
  }

  // ------------------------------------------------------------ moves that write logs

  /** Logs written anew are sound if they are, by themselves. */
  lemma WriteKeeps(h: Record, id: Id, s: Node, s': Node)
    requires NodeRooted(h, id, s) && LogsRooted(h, s') && RoleRooted(h, id, s')
    requires MayMove(s, s'.term, s'.vote) && MayMove(s, s'.disk.term, s'.disk.vote)
    ensures NodeRooted(h, id, s')
  {
    VotesMove(h, id, s, s');
  }

  /** What `Load` puts together from two sound logs is one of them, or a prefix of one. */
  lemma JoinedRooted(h: Record, log: Log, p: Log, bound: nat)
    requires ReignsOk(h) && LogInv(h, log, bound) && LogInv(h, p, bound)
    ensures LogInv(h, LogAfterSnapshot(log, p), bound)
  {
    if p == [] {
      assert LogAfterSnapshot(log, p) == log;
    } else {
      AfterSnapshotIs(h, log, p);
    }
  }

  lemma SaveRooted(h: Record, id: Id, s: Node, io: Outcome)
    requires ReignsOk(h) && NodeRooted(h, id, s)
    ensures NodeRooted(h, id, SaveSnapshot(s, io))
  {
    var p := s.log[..Min(s.applied, |s.log|)];
    SourcedPrefix(h, s.log, p);
    JoinedRooted(h, s.disk.wal, p, Bound(s));
    assert p + s.log[|p|..] == s.log;
    WriteKeeps(h, id, s, SaveSnapshot(s, io));
  }

  // ------------------------------------------------------------ growing histories

  /** Nothing but acknowledgements and choices is new. */
  ghost predicate SameRoots(h: Record, h': Record) {
    h'.members == h.members && h'.reign == h.reign && h'.votes == h.votes && h'.time == h.time
  }

  lemma SameRootsOk(h: Record, h': Record)
    requires RootsOk(h) && SameRoots(h, h')
    ensures RootsOk(h')
  {
    forall t | t in h'.reign
      ensures ReignOk(h', t)
    {
      assert ReignOk(h, t);
      SameReign(h, h', h.reign[t].log);
      forall p | p in h'.reign[t].ballots
        ensures BallotOk(h', t, p)
      {
        assert BallotOk(h, t, p);
      }
    }
    forall v | v in h'.votes
      ensures VoteOk(h', v)
    {
      assert VoteOk(h, v);
      SameReign(h, h', v.log);
      SameReign(h, h', v.candLog);
    }
  }

  lemma LogsKept(h: Record, h': Record, s: Node)
    requires LogsRooted(h, s) && h'.reign == h.reign
    ensures LogsRooted(h', s)
  {
    SameReign(h, h', s.log);
    SameReign(h, h', s.disk.log);
    SameReign(h, h', s.disk.wal);
    if s.transfer.Receiving? {
      SameReign(h, h', s.transfer.prefix);
    }
  }

  lemma SameRootsNode(h: Record, h': Record, id: Id, s: Node)
    requires NodeRooted(h, id, s) && SameRoots(h, h')
    ensures NodeRooted(h', id, s)
  {
    LogsKept(h, h', s);
  }

  /** A step of another node. */
  lemma BystanderRooted(h: Record, h': Record, n: Id, id: Id, s: Node)
    requires Grows(h, h', n) && id != n && NodeRooted(h, id, s)
    ensures NodeRooted(h', id, s)
  {
    SourcedGrows(h, h', n, s.log);
    SourcedGrows(h, h', n, s.disk.log);
    SourcedGrows(h, h', n, s.disk.wal);
    if s.transfer.Receiving? {
      SourcedGrows(h, h', n, s.transfer.prefix);
    }
    forall v | v in h'.votes && v.voter == id
      ensures StandsBy(v, s)
    {
      assert v in h.votes;
    }
    hide Sourced;
  }

  // ------------------------------------------------------------ votes

  lemma VoteKeeps(h: Record, n: Id, s: Node, v: Vote)
    requires RootsOk(h) && NewVoteRooted(AddVote(h, v), v) && v.voter == n
    requires n in h.members && LogsRooted(h, s) && VoteInv(h, n, s) && StandsBy(v, s)
    requires RoleRooted(AddVote(h, v), n, s)
    ensures var h' := AddVote(h, v); RootsOk(h') && Grows(h, h', n) && NodeRooted(h', n, s)
  {
    var h' := AddVote(h, v);
    assert forall t :: t in h.reign ==> ReignGrows(h, h', n, t);
    ReignsCarry(h, h', n);
    RootsCarry(h, h', n);
    LogsKept(h, h', s);
  }

  lemma CampaignKeepsRoots(h: Record, n: Id, s: Node, io: Outcome)
    requires RootsOk(h) && NodeRooted(h, n, s) && h.time > 0
    ensures var (s', started) := StartElection(s, n, io);
            var h' := Granting(h, started, OwnVote(h, n, s));
            RootsOk(h') && Grows(h, h', n) && NodeRooted(h', n, s')
  {
    hide RootsOk, Grows;
    GrowsRefl(h, n);
    var (s', started) := StartElection(s, n, io);
    if started {
      var v := OwnVote(h, n, s);
      CampaignRooted(h, n, s);
      NotYetLeader(h, n, s);
      VotesMove(h, n, s, s');
      assert v in AddVote(h, v).votes;
      VoteKeeps(h, n, s', v);
    } else {
      QuietKeeps(h, n, s, s');
    }
  }

  lemma VoteHandledRoots(h: Record, n: Id, s: Node, r: Vote, m: VoteRequest, ioTerm: Outcome, ioVote: Outcome)
    requires RootsOk(h) && NodeRooted(h, n, s) && h.time > 0 && Announces(h, r, m)
    ensures var (s', granted) := HandleVote(s, m, ioTerm, ioVote);
            var h' := Granting(h, granted, CastVote(h, n, s, r));
            RootsOk(h') && Grows(h, h', n) && NodeRooted(h', n, s')
  {
    hide RootsOk, Grows, NodeRooted, BecomeFollower, GiveVote;
    GrowsRefl(h, n);
    var t := if m.term > s.term then BecomeFollower(s, m.term, ioTerm) else s;
    FollowerRooted(h, n, s, m.term, ioTerm);
    RaisedTo(s, m.term, ioTerm);
    if !s.fatal && s.term <= m.term && !t.fatal {
      VoteGiven(h, n, t, r, m, ioVote);
    }
  }

  lemma RaisedTo(s: Node, term: nat, io: Outcome)
    ensures var t := BecomeFollower(s, term, io); t.log == s.log && t.term == Max(s.term, term)
  {
  }

  lemma VoteGiven(h: Record, n: Id, t: Node, r: Vote, m: VoteRequest, io: Outcome)
    requires RootsOk(h) && NodeRooted(h, n, t) && h.time > 0 && Announces(h, r, m) && !t.fatal && t.term == m.term
    ensures var (s', granted) := GiveVote(t, m, io);
            var h' := Granting(h, granted, CastVote(h, n, t, r));
            RootsOk(h') && Grows(h, h', n) && NodeRooted(h', n, s')
  {
    hide RootsOk, Grows;
    GrowsRefl(h, n);
    var (s', granted) := GiveVote(t, m, io);
    if granted {
      VoteRooted(h, n, t, r, m);
      VotesMove(h, n, t, s');
      CandidacyKept(h, n, t, s', CastVote(h, n, t, r));
      VoteKeeps(h, n, s', CastVote(h, n, t, r));
    } else {
      QuietKeeps(h, n, t, s');
    }
  }

  lemma CandidacyKept(h: Record, n: Id, t: Node, s: Node, v: Vote)
    requires RoleRooted(h, n, t) && !t.fatal && s == t.(vote := s.vote, disk := s.disk) && InStep(s)
    requires s.disk.snap == t.disk.snap
    ensures RoleRooted(AddVote(h, v), n, s)
  {
  }

  // ------------------------------------------------------------ leading

  /** Acknowledgements and choices of the acting leader change no election and no log. */
  lemma CountingGrows(h: Record, h': Record, n: Id, t: nat)
    requires SameRoots(h, h') && h.acks <= h'.acks && h.choices <= h'.choices
    requires forall a {:trigger a in h'.acks} :: a in h'.acks && a !in h.acks ==> a.node == n
    requires forall c {:trigger c in h'.choices} :: c in h'.choices && c !in h.choices ==> c.term == t
    requires t in h.reign && h.reign[t].leader == n
    ensures Grows(h, h', n)
  {
  }

  /** A leader writes the entry that its log in the history already ends with. */
  lemma AppendRootsKept(h: Record, n: Id, s: Node, peers: set<Id>, e: Entry, io: AppendOutcome, ioCommit: Outcome)
    requires RootsOk(h) && NodeRooted(h, n, s.(role := Follower)) && s.role.Leader? && !s.fatal
    requires s.term in h.reign && h.reign[s.term].leader == n && h.reign[s.term].log == s.log + [e]
    ensures var h' := AfterAppend(h, n, s, peers, e, io);
            RootsOk(h') && Grows(h, h', n) && NodeRooted(h', n, LeaderAppend(s, n, peers, e, io, ioCommit))
  {
    var h' := AfterAppend(h, n, s, peers, e, io);
    assert SameRoots(h, h');
    SameRootsOk(h, h');
    CountingGrows(h, h', n, s.term);
    EntryWritten(h, n, s, e, io);
    var t := s.(disk := AppendLog(s.disk, [e], io));
    if io.Stored? {
      var u := t.(log := s.log + [e], acked := s.acked[n := |s.log| + 1]);
      hide NodeRooted, AdvanceCommit;
      AdvanceRooted(h, n, u, peers, ioCommit);
      SameRootsNode(h, h', n, AdvanceCommit(u, peers, ioCommit));
    } else {
      SameRootsNode(h, h', n, Fail(t));
    }
  }

  lemma EntryWritten(h: Record, n: Id, s: Node, e: Entry, io: AppendOutcome)
    requires ReignsOk(h) && NodeRooted(h, n, s.(role := Follower)) && s.role.Leader? && !s.fatal
    requires s.term in h.reign && h.reign[s.term].leader == n && h.reign[s.term].log == s.log + [e]
    ensures var t := s.(disk := AppendLog(s.disk, [e], io));
            && NodeRooted(h, n, Fail(t))
            && (io.Stored? ==> NodeRooted(h, n, t.(log := s.log + [e], acked := s.acked[n := |s.log| + 1])))
  {
    var t := s.(disk := AppendLog(s.disk, [e], io));
    ReignPrefixSound(h, s.term, s.log + [e]);
    assert t.disk.log == s.log || t.disk.log == s.log + [e];
    hide Sourced, VoteInv;
    WriteKeeps(h, n, s.(role := Follower), Fail(t));
    if io.Stored? {
      WriteKeeps(h, n, s.(role := Follower), t.(log := s.log + [e], acked := s.acked[n := |s.log| + 1]));
    }
  }

  /** The acting node under a history in which it leads with a longer log. */
  lemma GrownRooted(h: Record, g: Record, n: Id, s: Node, s': Node)
    requires NodeRooted(h, n, s) && Grows(h, g, n) && g.votes == h.votes
    requires s' == s.(role := Follower, acked := s'.acked, noop := s'.noop)
    ensures NodeRooted(g, n, s')
  {
    SourcedGrows(h, g, n, s.log);
    SourcedGrows(h, g, n, s.disk.log);
    SourcedGrows(h, g, n, s.disk.wal);
    if s.transfer.Receiving? {
      SourcedGrows(h, g, n, s.transfer.prefix);
    }
    hide Sourced, Grows;
    assert VoteInv(g, n, s);
    VotesMove(g, n, s, s');
  }

  lemma ProposeRoots(h: Record, n: Id, s: Node, peers: set<Id>, command: Command, io: AppendOutcome, ioCommit: Outcome)
    requires RootsOk(h) && NodeRooted(h, n, s)
    ensures var h' := AfterPropose(h, n, s, peers, command, io);
            RootsOk(h') && Grows(h, h', n) && NodeRooted(h', n, Propose(s, n, peers, command, io, ioCommit).0)
  {
    GrowsRefl(h, n);
    if s.fatal || !s.role.Leader? {
      return;
    }
    var e := NextEntry(s, command);
    if Reached(io) {
      var g := AddEntry(h, s.term, e);
      EntryReigned(h, s.term, e);
      RootsCarry(h, g, n);
      GrownRooted(h, g, n, s, s.(role := Follower));
      hide RootsOk, Grows, NodeRooted, LeaderAppend, AfterAppend;
      AppendRootsKept(g, n, s, peers, e, io, ioCommit);
      GrowsTrans(h, g, AfterAppend(g, n, s, peers, e, io), n);
    } else {
      assert AppendLog(s.disk, [e], io) == s.disk;
      QuietKeeps(h, n, s, Fail(s));
    }
  }

  lemma LeadRoots(h: Record, n: Id, s: Node, peers: set<Id>, ballots: map<Id, Vote>, io: AppendOutcome,
      ioCommit: Outcome)
    requires RootsOk(h) && NodeRooted(h, n, s) && s.role.Candidate? && WonBy(h, s.term, n, s.log, ballots)
    ensures var h' := AfterWin(h, n, s, peers, ballots, io);
            RootsOk(h') && Grows(h, h', n) && NodeRooted(h', n, BecomeLeader(s, n, peers, io, ioCommit))
  {
    GrowsRefl(h, n);
    var e, t := NextEntry(s, Noop), Crowned(s, n, peers);
    if Reached(io) {
      var g := AddReign(h, s.term, Reign(n, |s.log|, s.log + [e], ballots));
      TermIsFree(h, n, s, ballots);
      ReignRooted(h, s.term, n, s.log, e, ballots);
      RootsCarry(h, g, n);
      GrownRooted(h, g, n, s, t.(role := Follower));
      hide RootsOk, Grows, NodeRooted, AdvanceCommit, AfterAppend, Indices;
      AppendRootsKept(g, n, t, peers, e, io, ioCommit);
      GrowsTrans(h, g, AfterAppend(g, n, t, peers, e, io), n);
      assert BecomeLeader(s, n, peers, io, ioCommit) == LeaderAppend(t, n, peers, e, io, ioCommit);
    } else {
      assert AppendLog(s.disk, [e], io) == s.disk;
      assert BecomeLeader(s, n, peers, io, ioCommit) == Fail(t);
      QuietKeeps(h, n, s, Fail(t));
    }
  }

  lemma HearRoots(h: Record, n: Id, s: Node, p: Id, len: nat, peers: set<Id>, advance: bool, ioCommit: Outcome)
    requires RootsOk(h) && NodeRooted(h, n, s) && s.role.Leader?
    ensures var h' := AfterReceive(h, n, s, p, len, peers, advance);
            RootsOk(h') && Grows(h, h', n) && NodeRooted(h', n, ReceiveAck(s, p, len, peers, advance, ioCommit))
  {
    var h' := AfterReceive(h, n, s, p, len, peers, advance);
    assert SameRoots(h, h');
    SameRootsOk(h, h');
    CountingGrows(h, h', n, s.term);
    var t := ReceiveAck(s, p, len, peers, false, ioCommit);
    QuietKeeps(h, n, s, t);
    hide NodeRooted, AdvanceCommit;
    if advance {
      assert !s.fatal by { LeaderIsSound(h, n, s); }
      AdvanceRooted(h, n, t, peers, ioCommit);
    }
    SameRootsNode(h, h', n, ReceiveAck(s, p, len, peers, advance, ioCommit));
  }

  lemma LeaderIsSound(h: Record, n: Id, s: Node)
    requires NodeRooted(h, n, s) && s.role.Leader?
    ensures !s.fatal
  {
  }

  // ------------------------------------------------------------ following

  /** A follower may acknowledge what it likes; elections and logs do not depend on it. */
  lemma AckRoots(h: Record, n: Id, s: Node, a: Ack)
    requires RootsOk(h) && NodeRooted(h, n, s) && a.node == n
    ensures var h' := AddAck(h, a); RootsOk(h') && Grows(h, h', n) && NodeRooted(h', n, s)
  {
    var h' := AddAck(h, a);
    SameRootsOk(h, h');
    SameRootsNode(h, h', n, s);
    assert forall t :: t in h.reign ==> ReignGrows(h, h', n, t);
  }

  /** Whatever a merge makes of a log, it is the log or a part of the leader's. */
  lemma MergeRoots(h: Record, log: Log, commit: nat, m: AppendRequest)
    requires ReignsOk(h) && AppendRooted(h, m) && Sourced(h, log)
    requires m.prev <= |log| && TermAt(log, m.prev) == m.prevTerm
    ensures var merge := MergeEntries(log, commit, m.prev, m.entries);
            && (merge.Extended? ==> log + merge.added == Brought(h, m))
            && (merge.Replaced? ==> merge.log == Brought(h, m))
  {
    AgreedPart(h, log, m);
    hide ReignsOk, Sourced, AppendRooted, FirstConflict, Brought;
    var i := FirstConflict(log, m.prev, m.entries, 0);
    if i < |m.entries| && m.prev + i >= |log| {
      assert log[..m.prev + i] == log;
    }
  }

  lemma WrittenRoots(h: Record, n: Id, s: Node, m: AppendRequest, ioAdd: AppendOutcome, ioSwap: Outcome)
    requires ReignsOk(h) && NodeRooted(h, n, s) && !s.fatal && s.role.Follower? && s.term == m.term &&
             AppendRooted(h, m)
    requires m.prev <= |s.log| && TermAt(s.log, m.prev) == m.prevTerm
    ensures var merge := MergeEntries(s.log, s.commit, m.prev, m.entries);
            var t := s.(disk := WriteMerge(s, merge, ioAdd, ioSwap));
            && (!WriteOk(merge, ioAdd, ioSwap) ==> NodeRooted(h, n, Fail(t)))
            && (WriteOk(merge, ioAdd, ioSwap) ==> NodeRooted(h, n, t.(log := MergedLog(s.log, merge))))
  {
    MergeRoots(h, s.log, s.commit, m);
    var merge := MergeEntries(s.log, s.commit, m.prev, m.entries);
    var t := s.(disk := WriteMerge(s, merge, ioAdd, ioSwap));
    ReignPrefixSound(h, m.term, Brought(h, m));
    if merge.Extended? {
      PartRooted(h, m, s.log, merge.added, ioAdd);
    }
    hide MergeEntries, Sourced, VoteInv, AppendRooted;
    if WriteOk(merge, ioAdd, ioSwap) {
      WriteKeeps(h, n, s, t.(log := MergedLog(s.log, merge)));
    } else {
      WriteKeeps(h, n, s, Fail(t));
    }
  }

  lemma PartRooted(h: Record, m: AppendRequest, log: Log, added: seq<Entry>, io: AppendOutcome)
    requires ReignsOk(h) && AppendRooted(h, m) && log + added == Brought(h, m)
    ensures io.Failed? ==> LogInv(h, log + added[..Min(io.kept, |added|)], m.term)
  {
    if io.Failed? {
      var k := Min(io.kept, |added|);
      PartialAppend(h, m, log, added, k);
      ReignPrefixSound(h, m.term, log + added[..k]);
    }
  }

  lemma AcceptRoots(h: Record, n: Id, s: Node, m: AppendRequest, ioAdd: AppendOutcome, ioSwap: Outcome,
      ioCommit: Outcome)
    requires ReignsOk(h) && NodeRooted(h, n, s) && !s.fatal && s.role.Follower? && s.term == m.term &&
             AppendRooted(h, m)
    requires m.prev <= |s.log| && TermAt(s.log, m.prev) == m.prevTerm
    ensures NodeRooted(h, n, AcceptEntries(s, m, ioAdd, ioSwap, ioCommit).0)
  {
    WrittenRoots(h, n, s, m, ioAdd, ioSwap);
    hide NodeRooted, MergeEntries, WriteMerge, WriteOk, MergedLog, AppendRooted;
    var merge := MergeEntries(s.log, s.commit, m.prev, m.entries);
    var t := s.(disk := WriteMerge(s, merge, ioAdd, ioSwap));
    if !merge.CommittedConflict? && WriteOk(merge, ioAdd, ioSwap) {
      CommitRooted(h, n, t.(log := MergedLog(s.log, merge)), Min(m.commit, m.prev + |m.entries|), ioCommit);
    }
  }

  lemma AppendHandledRoots(h: Record, n: Id, s: Node, m: AppendRequest, ioTerm: Outcome, ioAdd: AppendOutcome,
      ioSwap: Outcome, ioCommit: Outcome)
    requires RootsOk(h) && NodeRooted(h, n, s) && AppendRooted(h, m)
    ensures var (s', reply) := HandleAppend(s, m, ioTerm, ioAdd, ioSwap, ioCommit);
            var h' := AfterAppendRequest(h, n, m, reply);
            RootsOk(h') && Grows(h, h', n) && NodeRooted(h', n, s')
  {
    hide NodeRooted, Grows, AcceptEntries, ConflictIndex, Follow, AppendRooted;
    GrowsRefl(h, n);
    var (s', reply) := HandleAppend(s, m, ioTerm, ioAdd, ioSwap, ioCommit);
    var t := Follow(s, m.term, ioTerm);
    FollowerRooted(h, n, s, m.term, ioTerm);
    FollowedTo(s, m.term, ioTerm);
    if !s.fatal && s.term <= m.term && !t.fatal && t.snap <= m.prev <= |t.log| && TermAt(t.log, m.prev) == m.prevTerm {
      AcceptRoots(h, n, t, m, ioAdd, ioSwap, ioCommit);
    }
    hide RootsOk;
    AckRoots(h, n, s', AckOf(h, n, m.term, m.prev + |m.entries|));
  }

  lemma FollowedTo(s: Node, term: nat, io: Outcome)
    ensures var t := Follow(s, term, io); !s.fatal && s.term <= term ==>
            t.term == term && t.role.Follower? && t.saving == s.saving
  {
  }

  // ------------------------------------------------------------ snapshots

  lemma TransferRooted(h: Record, id: Id, s: Node, x: Transfer)
    requires NodeRooted(h, id, s) && (x.Receiving? ==> Sourced(h, x.prefix))
    ensures NodeRooted(h, id, s.(transfer := x))
  {
    WriteKeeps(h, id, s, s.(transfer := x));
  }

  lemma ChunkHandledRoots(h: Record, n: Id, s: Node, m: ChunkRequest, ioTerm: Outcome)
    requires RootsOk(h) && NodeRooted(h, n, s) && ChunkRooted(h, m)
    ensures var (s', reply) := HandleChunk(s, m, ioTerm);
            var h' := AfterChunk(h, n, m, reply);
            RootsOk(h') && Grows(h, h', n) && NodeRooted(h', n, s')
  {
    GrowsRefl(h, n);
    ReignPrefixSound(h, m.term, m.prefix);
    var t := Follow(s, m.term, ioTerm);
    FollowerRooted(h, n, s, m.term, ioTerm);
    assert t.transfer.Receiving? ==> Sourced(h, t.transfer.prefix);
    hide RootsOk, NodeRooted, Grows, Follow, SameStream, Sourced;
    TransferRooted(h, n, t, Idle);
    TransferRooted(h, n, t, TakeChunk(t.transfer, m).0);
    var (s', reply) := HandleChunk(s, m, ioTerm);
    AckRoots(h, n, s', AckOf(h, n, m.term, |m.prefix|));
  }

  lemma InstallRoots(h: Record, n: Id, s: Node, p: Log, ioSnap: Outcome, ioLog: Outcome, ioHard: Outcome)
    requires ReignsOk(h) && NodeRooted(h, n, s) && !s.fatal && s.role.Follower? && s.saving == 0
    requires s.term in h.reign && p <= h.reign[s.term].log
    ensures NodeRooted(h, n, InstallSnapshot(s, p, ioSnap, ioLog, ioHard).0)
  {
    ReignPrefixSound(h, s.term, p);
    JoinedRooted(h, s.log, p, s.term);
    hide Sourced, TermsUpTo, VoteInv, LogAfterSnapshot;
    WriteKeeps(h, n, s, InstallSnapshot(s, p, ioSnap, ioLog, ioHard).0);
  }

  lemma InstallFollowedRoots(h: Record, n: Id, s: Node, m: ChunkRequest, ioSnap: Outcome, ioLog: Outcome,
      ioHard: Outcome)
    requires RootsOk(h) && NodeRooted(h, n, s) && ChunkRooted(h, m)
    requires !s.fatal && s.role.Follower? && s.saving == 0 && s.term == m.term
    ensures NodeRooted(h, n, InstallAsFollower(s, m, ioSnap, ioLog, ioHard).0)
  {
    ReignPrefixSound(h, m.term, m.prefix);
    if SameStream(s.transfer, m) {
      StreamPrefix(h, s.transfer, m);
    }
    hide NodeRooted, Sourced, InstallSnapshot, LastTerm;
    TransferRooted(h, n, s, Idle);
    if SameStream(s.transfer, m) {
      InstallRoots(h, n, s, m.prefix, ioSnap, ioLog, ioHard);
    }
  }

  lemma InstallHandledRoots(h: Record, n: Id, s: Node, m: ChunkRequest, ioTerm: Outcome, ioSnap: Outcome,
      ioLog: Outcome, ioHard: Outcome)
    requires RootsOk(h) && NodeRooted(h, n, s) && ChunkRooted(h, m) && s.saving == 0
    ensures var (s', reply) := FinishInstall(s, m, ioTerm, ioSnap, ioLog, ioHard);
            var h' := AfterChunk(h, n, m, reply);
            RootsOk(h') && Grows(h, h', n) && NodeRooted(h', n, s')
  {
    hide RootsOk, NodeRooted, Grows, Follow, InstallAsFollower;
    GrowsRefl(h, n);
    var t := Follow(s, m.term, ioTerm);
    FollowerRooted(h, n, s, m.term, ioTerm);
    FollowedTo(s, m.term, ioTerm);
    TransferRooted(h, n, s, Idle);
    TransferRooted(h, n, t, Idle);
    if !s.fatal && s.term <= m.term && !t.fatal {
      InstallFollowedRoots(h, n, t, m, ioSnap, ioLog, ioHard);
    }
    var (s', reply) := FinishInstall(s, m, ioTerm, ioSnap, ioLog, ioHard);
    AckRoots(h, n, s', AckOf(h, n, m.term, |m.prefix|));
  }
}
