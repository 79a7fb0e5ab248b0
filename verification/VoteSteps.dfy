/** Campaigning and voting: what these steps add to the history, and that they keep it sound.

    A candidate votes for itself in a new term, with the log it has. A voter grants a request only
    if it has not voted for another in that term and if the candidate's log is at least as up to
    date as its own. The lemmas show that a vote so given cannot contradict an earlier one, and
    that a candidate who gets it has all that the voter has acknowledged of any chosen index. */
module VoteSteps {
  import opened Logs
  import opened History
  import opened Protocol
  import opened Invariant
  import opened NodeSteps
  import opened Growth

  /** The history after a step of node n that granted vote v, if it granted one. */
  function Granting(h: Record, granted: bool, v: Vote): Record {
    if granted then AddVote(h, v) else h
  }

  function Now(h: Record): nat {
    if h.time > 0 then h.time - 1 else 0
  }

  function OwnVote(h: Record, n: Id, s: Node): Vote {
    Vote(n, s.term + 1, n, s.log, s.log, Now(h))
  }

  /** No vote by or for a node is above what it has promised. */
  lemma NoVoteAbove(h: Record, n: Id, s: Node, w: Vote)
    requires RootsOk(h) && VoteInv(h, n, s) && w in h.votes && (w.voter == n || w.cand == n)
    ensures w.term <= Bound(s)
  {
    if w.voter == n {
      assert StandsBy(w, s);
    } else {
      assert VoteOk(h, w);
      var u :| u in h.votes && u.voter == n && u.cand == n && u.term == w.term;
      assert StandsBy(u, s);
    }
  }

  /** A node that led in a term has voted in it. */
  lemma LeaderVoted(h: Record, n: Id, s: Node, t: nat)
    requires RootsOk(h) && VoteInv(h, n, s)
    requires t in h.reign && h.reign[t].leader == n
    ensures t <= Bound(s)
  {
    assert ReignOk(h, t);
    var p :| p in h.reign[t].ballots;
    assert BallotOk(h, t, p);
    NoVoteAbove(h, n, s, h.reign[t].ballots[p]);
  }

  /** A node's acknowledgements of earlier terms come before a vote cast now. */
  lemma AcksPrecede(h: Record, n: Id, s: Node, v: Vote)
    requires HistoryOk(h) && AckInv(h, n, s) && h.time > 0
    requires v.voter == n && v.log == s.log && Bound(s) <= v.term && v.at == Now(h)
    requires forall a {:trigger a in h.acks} :: a in h.acks ==> a.at < h.time - 1
    ensures forall a {:trigger AckBeforeVote(h, a, v)} :: a in h.acks ==> AckBeforeVote(h, a, v)
  {
    forall a | a in h.acks
      ensures AckBeforeVote(h, a, v)
    {
      if a.node == n {
        assert Keeps(h, a, s);
        HeldLater(h, a, s.log, Bound(s), v.term);
      }
    }
  }

  /** Recording a vote of node n that n stands by keeps n's invariant. */
  lemma VoterKeeps(h: Record, n: Id, s: Node, v: Vote)
    requires HistoryOk(h) && HistoryOk(AddVote(h, v)) && Grows(h, AddVote(h, v), n)
    requires CoreInv(h, n, s) && v.voter == n && StandsBy(v, s)
    ensures CoreInv(AddVote(h, v), n, s)
  {
    var h' := AddVote(h, v);
    SourcedGrows(h, h', n, s.log);
    SourcedGrows(h, h', n, s.disk.log);
    SourcedGrows(h, h', n, s.disk.wal);
    AckInvGrows(h, h', n, n, s);
    CommitInvGrows(h, h', n, s);
    if s.transfer.Receiving? {
      SourcedGrows(h, h', n, s.transfer.prefix);
      CommittedGrows(h, h', n, s.transfer.prefix, Bound(s));
    }
    forall w | w in h'.votes && w.voter == n
      ensures StandsBy(w, s)
    {
      if w in h.votes {
        assert StandsBy(w, s);
      }
    }
  }

  // ------------------------------------------------------------ campaigning

  lemma FailedCampaignKeeps(h: Record, n: Id, s: Node, io: Outcome)
    requires NodeInv(h, n, s) && !s.fatal && !s.role.Leader?
    requires !io.Ok?
    ensures NodeInv(h, n, StartElection(s, n, io).0)
  {
    var s' := StartElection(s, n, io).0;
    forall v | v in h.votes && v.voter == n
      ensures StandsBy(v, s')
    {
      assert StandsBy(v, s);
    }
    CommitInvLater(h, s, s');
    CoreKept(h, n, s, s');
  }

  ghost predicate JustTicked(h: Record) {
    && h.time > 0
    && (forall a {:trigger a in h.acks} :: a in h.acks ==> a.at < h.time - 1)
  }

  lemma ElectionStarts(h: Record, n: Id, s: Node, io: Outcome)
    requires HistoryOk(h) && NodeInv(h, n, s) && JustTicked(h)
    ensures var (s', started) := StartElection(s, n, io);
            var h' := Granting(h, started, OwnVote(h, n, s));
            HistoryOk(h') && Grows(h, h', n) && NodeInv(h', n, s')
  {
    var (s', started) := StartElection(s, n, io);
    if s.fatal || s.role.Leader? {
      GrowsRefl(h, n);
    } else if !io.Ok? {
      FailedCampaignKeeps(h, n, s, io);
      GrowsRefl(h, n);
    } else {
      var v := OwnVote(h, n, s);
      CampaignRecorded(h, n, s);
      var r := s.(role := Candidate, term := s.term + 1, vote := Some(n), noop := 0);
      RaiseKeepsCore(h, n, s, r);
      PersistKeepsCore(h, n, r, io);
      assert s' == Persist(r, io);
      VoterKeeps(h, n, s', v);
      NotYetLeader(h, n, s);
      assert v in AddVote(h, v).votes;
      assert CandidateInv(AddVote(h, v), n, s');
    }
  }

  lemma NotYetLeader(h: Record, n: Id, s: Node)
    requires RootsOk(h) && VoteInv(h, n, s)
    ensures !(s.term + 1 in h.reign && h.reign[s.term + 1].leader == n)
  {
    if s.term + 1 in h.reign && h.reign[s.term + 1].leader == n {
      LeaderVoted(h, n, s, s.term + 1);
    }
  }

  lemma GrowsRefl(h: Record, n: Id)
    ensures Grows(h, h, n)
  {
  }

  lemma CampaignRecorded(h: Record, n: Id, s: Node)
    requires HistoryOk(h) && NodeInv(h, n, s) && JustTicked(h)
    ensures var h' := AddVote(h, OwnVote(h, n, s)); HistoryOk(h') && Grows(h, h', n)
  {
    CampaignRooted(h, n, s);
    AcksPrecede(h, n, s, OwnVote(h, n, s));
    VoteAdded(h, OwnVote(h, n, s));
  }

  /** A candidate's vote for itself is the first one in its term that it has a part in. */
  lemma CampaignRooted(h: Record, n: Id, s: Node)
    requires RootsOk(h) && VoteInv(h, n, s) && LogInv(h, s.log, Bound(s)) && n in h.members && h.time > 0
    ensures NewVoteRooted(AddVote(h, OwnVote(h, n, s)), OwnVote(h, n, s))
  {
    var v := OwnVote(h, n, s);
    var h' := AddVote(h, v);
    forall w | w in h.votes
      ensures VotePair(v, w) && VotePair(w, v)
    {
      if w.voter == n || w.cand == n {
        NoVoteAbove(h, n, s, w);
      }
    }
    SameReign(h, h', s.log);
    assert v in h'.votes;
  }

  lemma SameReign(h: Record, h': Record, log: Log)
    requires Sourced(h, log) && h'.reign == h.reign
    ensures Sourced(h', log)
  {
    forall i | 0 <= i < |log|
      ensures SourcedAt(h', log, i)
    {
      assert SourcedAt(h, log, i);
    }
  }

  // ------------------------------------------------------------ voting

  /** A vote request is the announcement of a candidate that voted for itself. */
  ghost predicate Announces(h: Record, r: Vote, m: VoteRequest) {
    && r in h.votes && r.voter == r.cand
    && m == VoteRequest(r.term, r.cand, |r.candLog|, LastTerm(r.candLog))
  }

  function CastVote(h: Record, n: Id, s: Node, r: Vote): Vote {
    Vote(n, r.term, r.cand, s.log, r.candLog, Now(h))
  }

  lemma VoteCast(h: Record, n: Id, t: Node, r: Vote, m: VoteRequest)
    requires HistoryOk(h) && NodeInv(h, n, t) && JustTicked(h) && Announces(h, r, m)
    requires t.term == m.term && (t.vote == None || t.vote == Some(m.cand))
    requires UpToDate(r.candLog, t.log)
    ensures var h' := AddVote(h, CastVote(h, n, t, r)); HistoryOk(h') && Grows(h, h', n)
  {
    VoteRooted(h, n, t, r, m);
    AcksPrecede(h, n, t, CastVote(h, n, t, r));
    VoteAdded(h, CastVote(h, n, t, r));
  }

  /** A vote for a candidate goes with all votes so far. */
  lemma VoteRooted(h: Record, n: Id, t: Node, r: Vote, m: VoteRequest)
    requires RootsOk(h) && VoteInv(h, n, t) && Sourced(h, t.log) && n in h.members && h.time > 0 && Announces(h, r, m)
    requires t.term == m.term && (t.vote == None || t.vote == Some(m.cand))
    requires UpToDate(r.candLog, t.log)
    ensures NewVoteRooted(AddVote(h, CastVote(h, n, t, r)), CastVote(h, n, t, r))
  {
    var v := CastVote(h, n, t, r);
    var h' := AddVote(h, v);
    assert VoteOk(h, r);
    forall w | w in h.votes
      ensures VotePair(v, w) && VotePair(w, v)
    {
      assert VotePair(r, w);
      if w.voter == n && w.term == v.term {
        assert StandsBy(w, t);
      }
    }
    SameReign(h, h', t.log);
    SameReign(h, h', r.candLog);
    assert r in h'.votes;
  }

  /** The vote is written to disk before it is granted; a failed write takes it back. */
  lemma VoteHandled(h: Record, n: Id, s: Node, r: Vote, m: VoteRequest, ioTerm: Outcome, ioVote: Outcome)
    requires HistoryOk(h) && NodeInv(h, n, s) && JustTicked(h) && Announces(h, r, m) && r.cand != n
    ensures var (s', granted) := HandleVote(s, m, ioTerm, ioVote);
            var h' := Granting(h, granted, CastVote(h, n, s, r));
            HistoryOk(h') && Grows(h, h', n) && NodeInv(h', n, s')
  {
    hide HistoryOk, CoreInv;
    GrowsRefl(h, n);
    if s.fatal || m.term < s.term {
      return;
    }
    var t := if m.term > s.term then BecomeFollower(s, m.term, ioTerm) else s;
    if m.term > s.term {
      BecomeFollowerKeeps(h, n, s, m.term, ioTerm);
    }
    if t.fatal {
      return;
    }
    var (s', granted) := HandleVote(s, m, ioTerm, ioVote);
    if (t.vote == None || t.vote == Some(m.cand)) && UpToDate(r.candLog, t.log) {
      if ioVote.Ok? {
        GrantedKeeps(h, n, t, r, m);
        assert t.log == s.log;
      } else {
        RefusedVoteKeeps(h, n, t, m.cand, ioVote);
      }
    } else {
      assert s' == t;
    }
  }

  lemma GrantedKeeps(h: Record, n: Id, t: Node, r: Vote, m: VoteRequest)
    requires HistoryOk(h) && NodeInv(h, n, t) && JustTicked(h) && Announces(h, r, m) && r.cand != n
    requires !t.fatal && t.term == m.term && (t.vote == None || t.vote == Some(m.cand))
    requires UpToDate(r.candLog, t.log)
    ensures var h' := AddVote(h, CastVote(h, n, t, r));
            HistoryOk(h') && Grows(h, h', n) && NodeInv(h', n, Persist(t.(vote := Some(m.cand)), Ok))
  {
    var v := CastVote(h, n, t, r);
    var h' := AddVote(h, v);
    var u := Persist(t.(vote := Some(m.cand)), Ok);
    VoteCast(h, n, t, r, m);
    forall w | w in h.votes && w.voter == n
      ensures StandsBy(w, u)
    {
      assert StandsBy(w, t);
      assert VotePair(v, w) by {
        assert v in h'.votes && w in h'.votes;
      }
    }
    CommitInvLater(h, t, u);
    CoreKept(h, n, t, u);
    VoterKeeps(h, n, u, v);
    VoterRole(h, n, t, u, v);
  }

  lemma VoterRole(h: Record, n: Id, t: Node, u: Node, v: Vote)
    requires RoleInv(h, n, t) && !t.fatal
    requires u == t.(vote := u.vote, disk := u.disk) && InStep(u)
    ensures RoleInv(AddVote(h, v), n, u)
  {
  }

  lemma RefusedVoteKeeps(h: Record, n: Id, t: Node, cand: Id, io: Outcome)
    requires HistoryOk(h) && NodeInv(h, n, t) && !t.fatal && !io.Ok?
    requires t.vote == None || t.vote == Some(cand)
    ensures NodeInv(h, n, t.(disk := Persist(t.(vote := Some(cand)), io).disk))
  {
    var u := t.(disk := Persist(t.(vote := Some(cand)), io).disk);
    forall w | w in h.votes && w.voter == n
      ensures StandsBy(w, u)
    {
      assert StandsBy(w, t);
    }
    CommitInvLater(h, t, u);
    CoreKept(h, n, t, u);
  }
}
