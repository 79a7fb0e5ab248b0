/** Applying, compacting and restarting. */
module DiskSteps {
  import opened Logs
  import opened History
  import opened Protocol
  import opened Invariant
  import opened NodeSteps

  lemma SameVotes(h: Record, n: Id, s: Node, s': Node)
    requires VoteInv(h, n, s) && s'.term == s.term && s'.vote == s.vote
    requires s'.disk.term == s.disk.term && s'.disk.vote == s.disk.vote
    ensures VoteInv(h, n, s')
  {
    forall v | v in h.votes && v.voter == n
      ensures StandsBy(v, s')
    {
      assert StandsBy(v, s);
    }
  }

  lemma ApplyKeeps(h: Record, n: Id, s: Node)
    requires NodeInv(h, n, s)
    ensures NodeInv(h, n, ApplyNext(s))
  {
    var s' := ApplyNext(s);
    assert CommitInv(h, s');
    hide LogInv, AckInv, TransferInv, CommitInv, VoteInv;
    SameVotes(h, n, s, s');
    CoreKept(h, n, s, s');
  }

  // ------------------------------------------------------------ compaction

  /** With the log file's base at or below the snapshot, `Load` finds the whole log file. */
  lemma CompactedLog(s: Node)
    requires s.applied <= s.commit <= |s.log| && s.commit <= |s.disk.wal| && s.disk.wal[..s.commit] == s.log[..s.commit]
    requires s.snap < s.applied
    ensures LogAfterSnapshot(s.disk.wal, s.log[..s.applied]) == s.disk.wal
  {
  }

  lemma SaveSnapshotKeeps(h: Record, n: Id, s: Node, io: Outcome)
    requires NodeInv(h, n, s) && s.disk.base <= s.applied
    ensures NodeInv(h, n, SaveSnapshot(s, io))
  {
    var s' := SaveSnapshot(s, io);
    if s' != s {
      CompactedLog(s);
      assert s'.disk.log == s.disk.wal;
      assert s.log[..s.applied] <= s.log[..s.commit];
      CommittedPrefix(h, s.log[..s.commit], s.log[..s.applied], Bound(s), Bound(s));
      assert s.disk.wal[..s.applied] == s.disk.wal[..s.commit][..s.applied];
      SameVotes(h, n, s, s');
      forall a | a in h.acks && a.node == n
        ensures Keeps(h, a, s')
      {
        assert Keeps(h, a, s);
      }
    }
  }

  lemma FinishSnapshotIndices(h: Record, s: Node, io: Outcome)
    requires CommitInv(h, s)
    ensures CommitInv(h, FinishSnapshot(s, io))
  {
    hide Committed;
    var s' := FinishSnapshot(s, io);
    if s'.disk != s.disk {
      assert s'.disk.log == s.log && s'.disk.wal == s.log;
      CommittedPrefix(h, s.log[..s.commit], s.log[..s.disk.snap], Bound(s), Bound(s));
    }
  }

  lemma FinishSnapshotKeeps(h: Record, n: Id, s: Node, io: Outcome)
    requires NodeInv(h, n, s)
    ensures NodeInv(h, n, FinishSnapshot(s, io))
  {
    var s' := FinishSnapshot(s, io);
    FinishSnapshotIndices(h, s, io);
    hide WalInv, Committed;
    SameVotes(h, n, s, s');
    forall a | a in h.acks && a.node == n
      ensures Keeps(h, a, s')
    {
      assert Keeps(h, a, s);
    }
  }

  // ------------------------------------------------------------ restart

  /** Nothing the node has promised is lost with its memory. */
  lemma RestartKeeps(h: Record, n: Id, s: Node)
    requires NodeInv(h, n, s)
    ensures NodeInv(h, n, Restart(s.disk))
    ensures Bound(s) <= Bound(Restart(s.disk))
  {
    var s' := Restart(s.disk);
    var c := RecoveredCommit(s.disk);
    assert c == s.disk.commit || c == s.disk.snap;
    CommittedLater(h, s.disk.log[..c], Bound(s), Bound(s'));
    CommittedPrefix(h, s.disk.log[..c], s.disk.log[..s.disk.snap], Bound(s), Bound(s'));
    forall v | v in h.votes && v.voter == n
      ensures StandsBy(v, s')
    {
      assert StandsBy(v, s);
    }
    forall a | a in h.acks && a.node == n
      ensures Keeps(h, a, s')
    {
      assert Keeps(h, a, s);
      HeldLater(h, a, s.disk.log, Bound(s), Bound(s'));
    }
  }

}
