/** Leading: winning an election, appending, hearing from peers and committing by majority.

    A new leader writes a no-op, and its log in the history is its own log from then on. It counts
    itself once an entry is on its disk, and others by their acknowledgements. The index that the
    majority rule picks has an entry of the leader's term which a quorum has acknowledged in that
    term, so it may be recorded as chosen. */
module LeaderSteps {
  import opened Logs
  import opened History
  import opened Protocol
  import opened Invariant
  import opened NodeSteps
  import opened Growth
  import opened VoteSteps

  ghost predicate Peers(h: Record, n: Id, peers: set<Id>) {
    h.members == peers + {n} && n !in peers
  }

  // ------------------------------------------------------------ commit

  function MajorityChoice(n: Id, s: Node, peers: set<Id>, index: nat): Choice {
    Choice(s.term, index, {n} + Holders(s.acked, peers, index))
  }

  function AfterAdvance(h: Record, n: Id, s: Node, peers: set<Id>): Record {
    var target := CommitTarget(s, peers, |s.log|);
    if target == s.commit then h else AddChoice(h, MajorityChoice(n, s, peers, target))
  }

  /** The majority rule picks an index that a quorum has acknowledged in this term. */
  lemma ChoiceSound(h: Record, n: Id, s: Node, peers: set<Id>, index: nat)
    requires HistoryOk(h) && RoleInv(h, n, s) && s.role.Leader? && Peers(h, n, peers)
    requires 0 < index <= |s.log| && TermAt(s.log, index) == s.term && Majority(s, peers, index)
    ensures ChoiceOk(h, MajorityChoice(n, s, peers, index))
  {
  }

  lemma LeaderCommits(h: Record, n: Id, s: Node, peers: set<Id>, io: Outcome)
    requires HistoryOk(h) && NodeInv(h, n, s) && s.role.Leader? && Peers(h, n, peers)
    ensures var h' := AfterAdvance(h, n, s, peers);
            HistoryOk(h') && Grows(h, h', n) && NodeInv(h', n, AdvanceCommit(s, peers, io))
  {
    var target := CommitTarget(s, peers, |s.log|);
    GrowsRefl(h, n);
    if target != s.commit {
      var c := MajorityChoice(n, s, peers, target);
      ChoiceSound(h, n, s, peers, target);
      ChoiceAdded(h, c, n);
      var h' := AddChoice(h, c);
      CoreGrows(h, h', n, s);
      assert Covers(h', c, s.log[..target]);
      CommitRaised(h', n, s, target, io);
      if !io.Ok? {
        FailKeeps(h', n, s.(disk := Persist(s.(commit := target), io).disk));
      }
      assert RoleInv(h', n, AdvanceCommit(s, peers, io)) by {
        LeaderAfterCommit(h, n, s, peers, io);
      }
    }
  }

  /** New history items that are not votes or acknowledgements keep the acting node's core. */
  lemma CoreGrows(h: Record, h': Record, n: Id, s: Node)
    requires Grows(h, h', n) && ReignsOk(h) && ReignsOk(h') && CoreInv(h, n, s)
    requires h'.votes == h.votes && h'.acks == h.acks
    ensures CoreInv(h', n, s)
  {
    SourcedGrows(h, h', n, s.log);
    SourcedGrows(h, h', n, s.disk.log);
    SourcedGrows(h, h', n, s.disk.wal);
    AckInvGrows(h, h', n, n, s);
    CommitInvGrows(h, h', n, s);
    if s.transfer.Receiving? {
      SourcedGrows(h, h', n, s.transfer.prefix);
      CommittedGrows(h, h', n, s.transfer.prefix, Bound(s));
    }
  }

  lemma CommitRaised(h: Record, n: Id, s: Node, target: nat, io: Outcome)
    requires CoreInv(h, n, s) && !s.fatal && InStep(s)
    requires s.commit <= target <= |s.log| && Committed(h, s.log[..target], Bound(s))
    ensures var t := Persist(s.(commit := target), io);
            (io.Ok? ==> CoreInv(h, n, t)) && CoreInv(h, n, s.(disk := t.disk))
  {
    var t := Persist(s.(commit := target), io);
    var d := s.(disk := t.disk);
    forall v | v in h.votes && v.voter == n
      ensures StandsBy(v, t) && StandsBy(v, d)
    {
      assert StandsBy(v, s);
    }
    assert Bound(t) == Bound(d) == Bound(s) == s.term;
    assert CommitInv(h, d);
    CoreKept(h, n, s, d);
    if io.Ok? {
      assert CommitInv(h, t);
      CoreKept(h, n, s, t);
    }
  }

  lemma LeaderAfterCommit(h: Record, n: Id, s: Node, peers: set<Id>, io: Outcome)
    requires RoleInv(h, n, s) && s.role.Leader?
    requires CommitTarget(s, peers, |s.log|) != s.commit
    ensures RoleInv(AfterAdvance(h, n, s, peers), n, AdvanceCommit(s, peers, io))
  {
  }

  // ------------------------------------------------------------ an entry of one's own

  /** A leader about to append: its log in the history already ends with the new entry. */
  ghost predicate Appending(h: Record, n: Id, s: Node, e: Entry) {
    && CoreInv(h, n, s) && !s.fatal && InStep(s)
    && s.term in h.reign && h.reign[s.term].leader == n && h.reign[s.term].log == s.log + [e]
    && e.term == s.term
    && s.noop == h.reign[s.term].base + 1
    && (forall p {:trigger Get(s.acked, p)} :: p != n ==> Get(s.acked, p) == 0 || Acked(h, p, s.term, Get(s.acked, p)))
    && (forall c {:trigger c in h.choices} :: c in h.choices && c.term == s.term ==> c.index <= s.commit)
  }

  /** Longer logs that are still sound keep the core. */
  lemma ExtendKeepsCore(h: Record, n: Id, s: Node, s': Node)
    requires CoreInv(h, n, s)
    requires s' == s.(log := s'.log, acked := s'.acked, disk := s.disk.(log := s'.disk.log, wal := s'.disk.wal))
    requires s.log <= s'.log && s.disk.log <= s'.disk.log && s.disk.wal <= s'.disk.wal
    requires LogInv(h, s'.log, Bound(s)) && LogInv(h, s'.disk.log, Bound(s)) && LogInv(h, s'.disk.wal, Bound(s))
    ensures CoreInv(h, n, s')
  {
    forall v | v in h.votes && v.voter == n
      ensures StandsBy(v, s')
    {
      assert StandsBy(v, s);
    }
    forall a | a in h.acks && a.node == n
      ensures Keeps(h, a, s')
    {
      assert Keeps(h, a, s);
      HeldLonger(h, a, s.log, s'.log, Bound(s));
      HeldLonger(h, a, s.disk.log, s'.disk.log, Bound(s));
      HeldLonger(h, a, s.disk.wal, s'.disk.wal, Bound(s));
    }
    assert s'.log[..s.commit] == s.log[..s.commit];
    assert s'.disk.log[..s.disk.commit] == s.disk.log[..s.disk.commit];
    assert s'.disk.log[..s.disk.snap] == s.disk.log[..s.disk.snap];
    assert s'.disk.wal[..s.disk.commit] == s.disk.wal[..s.disk.commit];
    assert s'.disk.wal[..s.commit] == s.disk.wal[..s.commit];
    assert s.disk.base <= s.commit ==> s'.log[..s.disk.commit] == s.log[..s.disk.commit];
  }

  lemma HeldLonger(h: Record, a: Ack, short: Log, long: Log, hi: nat)
    requires AckOk(h, a) && Held(h, a, short, hi) && short <= long
    ensures Held(h, a, long, hi)
  {
  }

  /** The log with the new entry is sound, since it is the leader's log. */
  lemma OwnLogSound(h: Record, n: Id, s: Node, e: Entry)
    requires HistoryOk(h) && Appending(h, n, s, e)
    ensures LogInv(h, s.log + [e], Bound(s)) && s.log <= s.log + [e]
  {
    assert ReignOk(h, s.term);
  }

  /** A failed append may have left the entry on disk. */
  lemma FailedAppendKeeps(h: Record, n: Id, s: Node, e: Entry, io: AppendOutcome)
    requires HistoryOk(h) && Appending(h, n, s, e) && io.Failed?
    ensures NodeInv(h, n, Fail(s.(disk := AppendLog(s.disk, [e], io))))
  {
    var t := s.(disk := AppendLog(s.disk, [e], io));
    OwnLogSound(h, n, s, e);
    assert t.disk.log == t.disk.wal == if io.kept > 0 then s.log + [e] else s.log;
    ExtendKeepsCore(h, n, s, t);
    FailKeeps(h, n, t);
  }

  function Appended(s: Node, n: Id, e: Entry): Node {
    s.(log := s.log + [e], acked := s.acked[n := |s.log| + 1],
        disk := s.disk.(log := s.disk.log + [e], wal := s.disk.wal + [e]))
  }

  function OwnAck(h: Record, n: Id, s: Node): Ack {
    Ack(n, s.term, |s.log| + 1, Now(h))
  }

  /** Once the entry is on disk the leader counts itself. */
  lemma OwnEntryKept(h: Record, n: Id, s: Node, e: Entry)
    requires HistoryOk(h) && Appending(h, n, s, e) && h.time > 0 && s.role.Leader?
    ensures var h' := AddAck(h, OwnAck(h, n, s));
            HistoryOk(h') && Grows(h, h', n) && NodeInv(h', n, Appended(s, n, e))
  {
    var a := OwnAck(h, n, s);
    var h' := AddAck(h, a);
    var t := Appended(s, n, e);
    OwnLogSound(h, n, s, e);
    ExtendKeepsCore(h, n, s, t);
    AckRecorded(h, n, t, a);
    LeaderAfterAppend(h, n, s, e);
  }

  /** A node may acknowledge, in its current term, any part of that term's leader's log that
      it holds in memory and on disk. */
  lemma AckRecorded(h: Record, n: Id, s: Node, a: Ack)
    requires HistoryOk(h) && CoreInv(h, n, s) && h.time > 0
    requires a.node == n && a.term == Bound(s) && a.at < h.time
    requires a.term in h.reign && a.len <= |h.reign[a.term].log|
    requires Reigned(h, a.term, a.len) <= s.log && Reigned(h, a.term, a.len) <= s.disk.log &&
             Reigned(h, a.term, a.len) <= s.disk.wal
    ensures HistoryOk(AddAck(h, a)) && Grows(h, AddAck(h, a), n) && CoreInv(AddAck(h, a), n, s)
  {
    var h' := AddAck(h, a);
    forall v | v in h.votes && v.voter == n
      ensures v.term <= a.term
    {
      assert StandsBy(v, s);
    }
    AckAdded(h, a);
    SourcedGrows(h, h', n, s.log);
    SourcedGrows(h, h', n, s.disk.log);
    SourcedGrows(h, h', n, s.disk.wal);
    HeldAll(h', a, s.log, Bound(s));
    HeldAll(h', a, s.disk.log, Bound(s));
    HeldAll(h', a, s.disk.wal, Bound(s));
    AckInvGrows(h, h', n, n, s);
    CommitInvGrows(h, h', n, s);
    if s.transfer.Receiving? {
      SourcedGrows(h, h', n, s.transfer.prefix);
      CommittedGrows(h, h', n, s.transfer.prefix, Bound(s));
    }
  }

  lemma HeldAll(h: Record, a: Ack, log: Log, hi: nat)
    requires AckOk(h, a) && Reigned(h, a.term, a.len) <= log
    ensures Held(h, a, log, hi)
  {
  }

  lemma LeaderAfterAppend(h: Record, n: Id, s: Node, e: Entry)
    requires Appending(h, n, s, e) && s.role.Leader?
    ensures RoleInv(AddAck(h, OwnAck(h, n, s)), n, Appended(s, n, e))
  {
    var a := OwnAck(h, n, s);
    var h' := AddAck(h, a);
    var t := Appended(s, n, e);
    assert a in h'.acks;
    forall p
      ensures Get(t.acked, p) == 0 || Acked(h', p, t.term, Get(t.acked, p))
    {
      if p != n {
        assert Get(t.acked, p) == Get(s.acked, p);
        assert Acked(h, p, s.term, Get(s.acked, p)) ==> Acked(h', p, s.term, Get(s.acked, p));
      }
    }
  }

  /** Appending, from a history that already has the entry, up to the commit attempt. */
  function AfterAppend(h: Record, n: Id, s: Node, peers: set<Id>, e: Entry, io: AppendOutcome): Record {
    if io.Stored? then AfterAdvance(AddAck(h, OwnAck(h, n, s)), n, Appended(s, n, e), peers) else h
  }

  lemma LeaderAppends(h: Record, n: Id, s: Node, peers: set<Id>, e: Entry, io: AppendOutcome, ioCommit: Outcome)
    requires HistoryOk(h) && Appending(h, n, s, e) && h.time > 0 && s.role.Leader? && Peers(h, n, peers)
    ensures var h' := AfterAppend(h, n, s, peers, e, io);
            HistoryOk(h') && Grows(h, h', n) && NodeInv(h', n, LeaderAppend(s, n, peers, e, io, ioCommit))
  {
    GrowsRefl(h, n);
    if io.Stored? {
      OwnEntryKept(h, n, s, e);
      var g := AddAck(h, OwnAck(h, n, s));
      var t := Appended(s, n, e);
      LeaderCommits(g, n, t, peers, ioCommit);
      GrowsTrans(h, g, AfterAdvance(g, n, t, peers), n);
      assert LeaderAppend(s, n, peers, e, io, ioCommit) == AdvanceCommit(t, peers, ioCommit);
    } else {
      FailedAppendKeeps(h, n, s, e, io);
    }
  }

  /** Did the entry reach the disk, whether or not the store said so? */
  predicate Reached(io: AppendOutcome) {
    io.Stored? || io.kept > 0
  }

  // ------------------------------------------------------------ proposing

  function AfterPropose(h: Record, n: Id, s: Node, peers: set<Id>, command: Command, io: AppendOutcome): Record {
    if s.fatal || !s.role.Leader? || s.term !in h.reign || !Reached(io) then h else
    var e := NextEntry(s, command);
    AfterAppend(AddEntry(h, s.term, e), n, s, peers, e, io)
  }

  lemma Proposed(h: Record, n: Id, s: Node, peers: set<Id>, command: Command, io: AppendOutcome, ioCommit: Outcome)
    requires HistoryOk(h) && NodeInv(h, n, s) && h.time > 0 && Peers(h, n, peers)
    ensures var h' := AfterPropose(h, n, s, peers, command, io);
            HistoryOk(h') && Grows(h, h', n) && NodeInv(h', n, Propose(s, n, peers, command, io, ioCommit).0)
  {
    GrowsRefl(h, n);
    if s.fatal || !s.role.Leader? {
      return;
    }
    var e := NextEntry(s, command);
    if Reached(io) {
      var g := AddEntry(h, s.term, e);
      EntryAdded(h, s.term, e);
      CoreGrows(h, g, n, s);
      assert forall p, k :: Acked(h, p, s.term, k) ==> Acked(g, p, s.term, k);
      assert Appending(g, n, s, e);
      LeaderAppends(g, n, s, peers, e, io, ioCommit);
      GrowsTrans(h, g, AfterAppend(g, n, s, peers, e, io), n);
    } else {
      var t := s.(disk := AppendLog(s.disk, [e], io));
      assert t == s;
      FailKeeps(h, n, t);
    }
  }

  // ------------------------------------------------------------ winning an election

  function AfterWin(h: Record, n: Id, s: Node, peers: set<Id>, ballots: map<Id, Vote>, io: AppendOutcome): Record {
    if !s.role.Candidate? || !Reached(io) then h else
    var e := NextEntry(s, Noop);
    AfterAppend(AddReign(h, s.term, Reign(n, |s.log|, s.log + [e], ballots)), n, Crowned(s, n, peers), peers, e, io)
  }

  /** A new leader before its no-op is written. */
  function Crowned(s: Node, n: Id, peers: set<Id>): Node {
    s.(role := Leader, acked := Indices(peers, 0)[n := |s.log|], noop := |s.log| + 1)
  }

  /** Election safety for the winner: its term has no leader yet. */
  lemma TermIsFree(h: Record, n: Id, s: Node, ballots: map<Id, Vote>)
    requires RootsOk(h) && CandidateInv(h, n, s)
    requires WonBy(h, s.term, n, s.log, ballots)
    ensures s.term !in h.reign
  {
    if s.term in h.reign {
      OneLeaderPerTerm(h, s.term, n, s.log, ballots);
    }
  }

  lemma CrownedAppending(h: Record, n: Id, s: Node, peers: set<Id>, ballots: map<Id, Vote>)
    requires HistoryOk(h) && NodeInv(h, n, s) && s.role.Candidate? && WonBy(h, s.term, n, s.log, ballots)
    ensures var e := NextEntry(s, Noop);
            var g := AddReign(h, s.term, Reign(n, |s.log|, s.log + [e], ballots));
            HistoryOk(g) && Grows(h, g, n) && Appending(g, n, Crowned(s, n, peers), e)
  {
    var e := NextEntry(s, Noop);
    var g := AddReign(h, s.term, Reign(n, |s.log|, s.log + [e], ballots));
    var t := Crowned(s, n, peers);
    TermIsFree(h, n, s, ballots);
    ReignAdded(h, s.term, n, s.log, e, ballots);
    CoreGrows(h, g, n, s);
    RaiseAcked(g, n, s, t);
    forall c | c in h.choices
      ensures c.term in h.reign
    {
      assert ChoiceOk(h, c);
    }
  }

  lemma RaiseAcked(h: Record, n: Id, s: Node, t: Node)
    requires CoreInv(h, n, s) && t == s.(role := t.role, acked := t.acked, noop := t.noop)
    ensures CoreInv(h, n, t)
  {
    forall v | v in h.votes && v.voter == n
      ensures StandsBy(v, t)
    {
      assert StandsBy(v, s);
    }
    CoreKept(h, n, s, t);
  }

  lemma Won(h: Record, n: Id, s: Node, peers: set<Id>, ballots: map<Id, Vote>, io: AppendOutcome, ioCommit: Outcome)
    requires HistoryOk(h) && NodeInv(h, n, s) && h.time > 0 && Peers(h, n, peers)
    requires s.role.Candidate? ==> WonBy(h, s.term, n, s.log, ballots)
    ensures var h' := AfterWin(h, n, s, peers, ballots, io);
            HistoryOk(h') && Grows(h, h', n) && NodeInv(h', n, BecomeLeader(s, n, peers, io, ioCommit))
  {
    hide CoreInv, RoleInv, HistoryOk, Grows, WonBy, AfterAppend, AdvanceCommit, Indices;
    GrowsRefl(h, n);
    if !s.role.Candidate? {
      return;
    }
    var e := NextEntry(s, Noop);
    var t := Crowned(s, n, peers);
    var s' := BecomeLeader(s, n, peers, io, ioCommit);
    if Reached(io) {
      var g := AddReign(h, s.term, Reign(n, |s.log|, s.log + [e], ballots));
      CrownedAppending(h, n, s, peers, ballots);
      LeaderAppends(g, n, t, peers, e, io, ioCommit);
      GrowsTrans(h, g, AfterAppend(g, n, t, peers, e, io), n);
      assert s' == LeaderAppend(t, n, peers, e, io, ioCommit);
    } else {
      RaiseAcked(h, n, s, t);
      FailKeeps(h, n, t);
      assert AppendLog(s.disk, [e], io) == s.disk;
      assert s' == Fail(t);
    }
  }

  // ------------------------------------------------------------ hearing from a peer

  function AfterReceive(h: Record, n: Id, s: Node, p: Id, len: nat, peers: set<Id>, advance: bool): Record {
    if advance then AfterAdvance(h, n, ReceiveAck(s, p, len, peers, false, Ok), peers) else h
  }

  lemma AckReceived(h: Record, n: Id, s: Node, p: Id, len: nat, peers: set<Id>, advance: bool, ioCommit: Outcome)
    requires HistoryOk(h) && NodeInv(h, n, s) && s.role.Leader? && Peers(h, n, peers) && p in peers
    requires Acked(h, p, s.term, len)
    ensures var h' := AfterReceive(h, n, s, p, len, peers, advance);
            HistoryOk(h') && Grows(h, h', n) && NodeInv(h', n, ReceiveAck(s, p, len, peers, advance, ioCommit))
  {
    var t := ReceiveAck(s, p, len, peers, false, Ok);
    RaiseAcked(h, n, s, t);
    forall q
      ensures Get(t.acked, q) == 0 || Acked(h, q, t.term, Get(t.acked, q))
    {
      if q != p {
        assert Get(t.acked, q) == Get(s.acked, q);
      }
    }
    assert Get(t.acked, n) == Get(s.acked, n);
    GrowsRefl(h, n);
    if advance {
      LeaderCommits(h, n, t, peers, ioCommit);
    }
  }
}
