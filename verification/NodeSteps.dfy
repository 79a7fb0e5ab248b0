/** Steps of one node that leave the history as it is: each keeps the node's invariant. */
module NodeSteps {
  import opened Logs
  import opened History
  import opened Protocol
  import opened Invariant

  lemma CommittedLater(h: Record, p: Log, t: nat, u: nat)
    requires Committed(h, p, t) && t <= u
    ensures Committed(h, p, u)
  {
  }

  ghost predicate SameLogs(s: Node, s': Node) {
    s'.log == s.log && s'.disk.log == s.disk.log && s'.disk.wal == s.disk.wal
  }

  lemma CommitInvLater(h: Record, s: Node, s': Node)
    requires CommitInv(h, s) && Bound(s) <= Bound(s')
    requires SameLogs(s, s')
    requires s'.commit == s.commit && s'.applied == s.applied && s'.snap == s.snap && s'.saving == s.saving
    requires s'.disk.snap == s.disk.snap && s'.disk.base == s.disk.base && s.commit <= s'.disk.commit <= s.disk.commit
    ensures CommitInv(h, s')
  {
    CommittedLater(h, s.log[..s.commit], Bound(s), Bound(s'));
    CommittedPrefix(h, s.disk.log[..s.disk.commit], s.disk.log[..s'.disk.commit], Bound(s), Bound(s'));
    CommittedLater(h, s.disk.log[..s.disk.snap], Bound(s), Bound(s'));
    CommittedPrefix(h, s.disk.wal[..s.disk.commit], s.disk.wal[..s'.disk.commit], Bound(s), Bound(s'));
    if s.disk.base <= s.commit {
      CommittedPrefix(h, s.log[..s.disk.commit], s.log[..s'.disk.commit], Bound(s), Bound(s'));
    }
  }

  /** With the same logs, a higher bound and the votes in place, the core claims carry over. */
  lemma CoreKept(h: Record, id: Id, s: Node, s': Node)
    requires CoreInv(h, id, s) && Bound(s) <= Bound(s')
    requires SameLogs(s, s')
    requires VoteInv(h, id, s') && CommitInv(h, s')
    requires s'.transfer == s.transfer || s'.transfer == Idle
    ensures CoreInv(h, id, s')
  {
    forall a | a in h.acks && a.node == id
      ensures Keeps(h, a, s')
    {
      assert Keeps(h, a, s);
      HeldLater(h, a, s.log, Bound(s), Bound(s'));
      HeldLater(h, a, s.disk.log, Bound(s), Bound(s'));
      HeldLater(h, a, s.disk.wal, Bound(s), Bound(s'));
    }
    if s'.transfer.Receiving? {
      CommittedLater(h, s.transfer.prefix, Bound(s), Bound(s'));
    }
  }

  /** Moving to a higher term, or writing the hard state, keeps every vote. */
  lemma PersistKeepsCore(h: Record, id: Id, s: Node, io: Outcome)
    requires CoreInv(h, id, s)
    ensures CoreInv(h, id, Persist(s, io))
  {
    var s' := Persist(s, io);
    forall v | v in h.votes && v.voter == id
      ensures StandsBy(v, s')
    {
      assert StandsBy(v, s);
    }
    CommitInvLater(h, s, s');
    CoreKept(h, id, s, s');
  }

  lemma RaiseKeepsCore(h: Record, id: Id, s: Node, s': Node)
    requires CoreInv(h, id, s)
    requires s' == s.(term := s'.term, vote := s'.vote, role := s'.role, noop := s'.noop, fatal := s'.fatal)
    requires s.term < s'.term || (s'.term == s.term && s'.vote == s.vote)
    ensures CoreInv(h, id, s')
  {
    forall v | v in h.votes && v.voter == id
      ensures StandsBy(v, s')
    {
      assert StandsBy(v, s);
    }
    CommitInvLater(h, s, s');
    CoreKept(h, id, s, s');
  }

  lemma FailKeeps(h: Record, id: Id, s: Node)
    requires CoreInv(h, id, s)
    ensures NodeInv(h, id, Fail(s))
  {
    RaiseKeepsCore(h, id, s, Fail(s));
  }

  lemma BecomeFollowerKeeps(h: Record, id: Id, s: Node, term: nat, io: Outcome)
    requires NodeInv(h, id, s)
    ensures NodeInv(h, id, BecomeFollower(s, term, io))
  {
    var raised := if term > s.term then s.(term := term, vote := None) else s;
    var r := raised.(role := Follower, noop := 0);
    RaiseKeepsCore(h, id, s, r);
    PersistKeepsCore(h, id, r, io);
    if !io.Ok? {
      FailKeeps(h, id, Persist(r, io));
    }
  }

  lemma FollowKeeps(h: Record, id: Id, s: Node, term: nat, io: Outcome)
    requires NodeInv(h, id, s)
    ensures NodeInv(h, id, Follow(s, term, io))
  {
    if term > s.term || !s.role.Follower? {
      BecomeFollowerKeeps(h, id, s, term, io);
    }
  }

  /** Changes to bookkeeping fields only. */
  lemma TransferKeeps(h: Record, id: Id, s: Node, x: Transfer)
    requires NodeInv(h, id, s)
    requires x.Receiving? ==> Sourced(h, x.prefix) && Committed(h, x.prefix, Bound(s))
    ensures NodeInv(h, id, s.(transfer := x))
  {
    var s' := s.(transfer := x);
    forall v | v in h.votes && v.voter == id
      ensures StandsBy(v, s')
    {
      assert StandsBy(v, s);
    }
    var idle := s.(transfer := Idle);
    forall v | v in h.votes && v.voter == id
      ensures StandsBy(v, idle)
    {
      assert StandsBy(v, s);
    }
    CoreKept(h, id, s, idle);
    CoreKept(h, id, idle, idle);
    assert CommitInv(h, s');
    forall a | a in h.acks && a.node == id
      ensures Keeps(h, a, s')
    {
      assert Keeps(h, a, s);
    }
  }
}
