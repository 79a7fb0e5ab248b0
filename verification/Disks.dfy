/** What a crash finds: when the files can be loaded, what an install leaves behind, and what
    compaction does to acknowledged entries after an install that failed. */
module Disks {
  import opened Logs
  import opened History
  import opened Protocol
  import opened Invariant
  import opened VoteSteps
  import opened LeaderSteps
  import opened FollowerSteps
  import opened DiskSteps
  import opened Cluster
  import opened Roots
  import opened RootedCluster
  import opened Safety
  import Durability
  import IndexChain

  // ------------------------------------------------------------ when the files can be loaded

  /** A step that answers an append request gets as far as the merge. */
  predicate Merges(s: Node, step: Step) {
    step.AnswerAppend? && !s.fatal && s.term <= step.append.term &&
    var t := Follow(s, step.append.term, step.ioTerm);
    !t.fatal && t.snap <= step.append.prev <= |t.log| && TermAt(t.log, step.append.prev) == step.append.prevTerm
  }

  /** It replaces the tail of the log file, in effect if not without error. */
  predicate ReplacesTail(s: Node, step: Step) {
    && Merges(s, step)
    && MergeEntries(s.log, s.commit, step.append.prev, step.append.entries).Replaced?
    && !step.ioSwap.Lost?
  }

  /** It does so while the snapshot file is not the one that the node's log follows. */
  predicate Strands(s: Node, step: Step) {
    ReplacesTail(s, step) && s.disk.snap != s.snap
  }

  /** The second section of a compaction rewrites the log file. */
  predicate DropsEntries(s: Node, step: Step) {
    step.DropEntries? && s.snap < s.saving <= s.applied && !step.io.Lost?
  }

  /** An install gets past its second write. */
  predicate InstallsLog(s: Node, step: Step) {
    step.FinishChunk? && !s.fatal && s.term <= step.chunk.term &&
    var t := Follow(s, step.chunk.term, step.ioTerm);
    && !t.fatal && t.commit < |step.chunk.prefix| && SameStream(t.transfer, step.chunk)
    && t.transfer.received == step.chunk.end && step.ioSnap.Ok? && !step.ioLog.Lost?
  }

  lemma FollowKeepsLog(s: Node, term: nat, io: Outcome)
    ensures var t := Follow(s, term, io);
            && t.log == s.log && t.commit == s.commit && t.snap == s.snap && t.transfer == s.transfer
            && t.disk.snap == s.disk.snap && t.disk.loadable == s.disk.loadable
  {
  }

  lemma AppendLoadable(s: Node, step: Step)
    requires step.AnswerAppend?
    ensures HandleAppend(s, step.append, step.ioTerm, step.ioAdd, step.ioSwap, step.ioCommit).0.disk.loadable
            <==> (s.disk.loadable || ReplacesTail(s, step)) && !Strands(s, step)
  {
    var m := step.append;
    var t := Follow(s, m.term, step.ioTerm);
    FollowKeepsLog(s, m.term, step.ioTerm);
    hide Follow, MergeEntries, ConflictIndex, TermAt;
  }

  lemma InstallLoadable(s: Node, step: Step)
    requires step.FinishChunk?
    ensures FinishInstall(s, step.chunk, step.ioTerm, step.ioSnap, step.ioLog, step.ioHard).0.disk.loadable
            <==> s.disk.loadable || InstallsLog(s, step)
  {
    FollowKeepsLog(s, step.chunk.term, step.ioTerm);
    hide Follow, LogAfterSnapshot, LastTerm;
  }

  lemma LeadingLoadable(s: Node, id: Id, peers: set<Id>, e: Entry, io: AppendOutcome, ioCommit: Outcome)
    ensures LeaderAppend(s, id, peers, e, io, ioCommit).disk.loadable == s.disk.loadable
    ensures AdvanceCommit(s, peers, ioCommit).disk.loadable == s.disk.loadable
  {
    hide CommitTarget;
  }

  lemma ElectionLoadable(s: Node, id: Id, m: VoteRequest, c: ChunkRequest, ioTerm: Outcome, ioVote: Outcome)
    ensures HandleVote(s, m, ioTerm, ioVote).0.disk.loadable == s.disk.loadable
    ensures StartElection(s, id, ioVote).0.disk.loadable == s.disk.loadable
    ensures HandleChunk(s, c, ioTerm).0.disk.loadable == s.disk.loadable
    ensures BecomeFollower(s, m.term, ioTerm).disk.loadable == s.disk.loadable
  {
    hide TakeChunk, MayVote, LastTerm;
  }

  lemma LeaderStepLoadable(c: State, step: Step)
    requires Enabled(c, step) && (step.Lead? || step.Submit? || step.HearAck?)
    ensures Act(c, step).nodes[step.n].disk.loadable == c.nodes[step.n].disk.loadable
  {
    hide LeaderAppend, AdvanceCommit, AfterWin, AfterPropose, AfterReceive;
    var n, s, peers := step.n, c.nodes[step.n], PeersOf(c, step.n);
    match step
    case Lead(_, _, ioAdd, ioCommit) =>
      var t := s.(role := Leader, acked := Indices(peers, 0)[n := |s.log|]);
      LeadingLoadable(t, n, peers, NextEntry(s, Noop), ioAdd, ioCommit);
      LeadingLoadable(t.(noop := |s.log| + 1), n, peers, NextEntry(s, Noop), ioAdd, ioCommit);
    case Submit(_, command, ioAdd, ioCommit) =>
      LeadingLoadable(s, n, peers, NextEntry(s, command), ioAdd, ioCommit);
    case HearAck(_, a, _, ioCommit) =>
      LeadingLoadable(ReceiveAck(s, a.node, a.len, peers, false, Ok), n, peers, NextEntry(s, Noop), Stored, ioCommit);
  }

  lemma CompactionLoadable(s: Node, step: Step)
    requires (step.WriteSnapshot? || step.DropEntries?) && (s.saving != 0 ==> s.disk.snap == s.saving)
    ensures step.WriteSnapshot? ==> SaveSnapshot(s, step.io).disk.loadable == s.disk.loadable
    ensures step.DropEntries? ==>
              (FinishSnapshot(s, step.io).disk.loadable <==> s.disk.loadable || DropsEntries(s, step))
  {
    hide LogAfterSnapshot;
  }

  /** The log file is rewritten from its start. */
  predicate Rewrites(s: Node, step: Step) {
    ReplacesTail(s, step) || DropsEntries(s, step) || InstallsLog(s, step)
  }

  lemma ActLoadable(c: State, step: Step)
    requires Enabled(c, step)
    requires c.nodes[step.n].saving != 0 ==> c.nodes[step.n].disk.snap == c.nodes[step.n].saving
    ensures var s, s' := c.nodes[step.n], Act(c, step).nodes[step.n];
            s'.disk.loadable <==> (s.disk.loadable || Rewrites(s, step)) && !Strands(s, step)
  {
    var s := c.nodes[step.n];
    hide HandleAppend, BecomeLeader, Propose, ReceiveAck, HandleChunk, FinishInstall, BecomeFollower;
    hide HandleVote, StartElection, SaveSnapshot, FinishSnapshot, MakeAppend, Granting, AfterWin, AfterPropose;
    hide AfterAppendRequest, AfterReceive, AfterChunk, ReplacesTail, InstallsLog, DropsEntries;
    NoRewrite(s, step);
    match step
    case AnswerAppend(_, _, _, _, _, _) => AppendLoadable(s, step);
    case FinishChunk(_, _, _, _, _, _) => InstallLoadable(s, step);
    case Lead(_, _, _, _) => LeaderStepLoadable(c, step);
    case Submit(_, _, _, _) => LeaderStepLoadable(c, step);
    case HearAck(_, _, _, _) => LeaderStepLoadable(c, step);
    case WriteSnapshot(_, _) => CompactionLoadable(s, step);
    case DropEntries(_, _) => CompactionLoadable(s, step);
    case Campaign(n, io) =>
      ElectionLoadable(s, n, VoteRequest(0, n, 0, 0), ChunkRequest(0, n, [], 0, 0, false), io, io);
    case StepDown(n, term, io) =>
      ElectionLoadable(s, n, VoteRequest(term, n, 0, 0), ChunkRequest(0, n, [], 0, 0, false), io, io);
    case AnswerVote(n, r, ioTerm, ioVote) =>
      ElectionLoadable(s, n, VoteRequest(r.term, r.cand, |r.candLog|, LastTerm(r.candLog)),
                       ChunkRequest(0, n, [], 0, 0, false), ioTerm, ioVote);
    case AnswerChunk(n, m, ioTerm) => ElectionLoadable(s, n, VoteRequest(0, n, 0, 0), m, ioTerm, Ok);
    case _ =>
  }

  lemma NoRewrite(s: Node, step: Step)
    ensures !step.AnswerAppend? ==> !ReplacesTail(s, step)
    ensures !step.FinishChunk? ==> !InstallsLog(s, step)
    ensures !step.DropEntries? ==> !DropsEntries(s, step)
  {
  }

  /** When a node's files can be loaded after a step of any run: if they could be before or the
      step rewrites the log file, unless it does so while the snapshot file is ahead of the
      node's snapshot. Files that can be loaded are spoiled by nothing else. */
  lemma LoadableExactlyIf(b: seq<State>, steps: seq<Step>, i: nat, n: Id)
    requires Run(b, steps) && i < |steps| && n in b[i].nodes
    ensures n in b[i + 1].nodes
    ensures var s, s' := b[i].nodes[n], b[i + 1].nodes[n];
            if steps[i].n != n then s' == s
            else s'.disk.loadable <==> (s.disk.loadable || Rewrites(s, steps[i])) && !Strands(s, steps[i])
  {
    var c, step := b[i].(h := Ticked(b[i].h)), steps[i];
    assert b[i + 1] == Act(c, step);
    RunRooted(b, steps, i);
    hide Initial, Act, RootsOk, MessagesRooted;
    if step.n != n {
      Durability.OthersUntouched(b[i], step, n);
    } else {
      assert NodeRooted(b[i].h, n, b[i].nodes[n]);
      ActLoadable(c, step);
      Durability.ActKeepsNodes(c, step);
    }
  }

  /** A run in which no step strands its node keeps every node's files loadable. */
  lemma {:induction false} LoadableUnlessStranded(b: seq<State>, steps: seq<Step>, i: nat, n: Id)
    requires Run(b, steps) && i < |b| && n in b[i].nodes
    requires forall k {:trigger steps[k]} :: 0 <= k < i && steps[k].n == n && n in b[k].nodes ==>
               !Strands(b[k].nodes[n], steps[k])
    ensures b[i].nodes[n].disk.loadable
    decreases i
  {
    hide Take, Enabled, Strands, Rewrites;
    if i > 0 {
      IndexChain.SameNodes(b, steps, i);
      LoadableUnlessStranded(b, steps, i - 1, n);
      LoadableExactlyIf(b, steps, i - 1, n);
    }
  }

  /** Healthy nodes do get stranded. A follower has two entries and has applied the first. It
      has written the snapshot of that one, but has not yet dropped it from the log file, when
      a leader of the next term replaces the second. Both requests succeed and no store call
      fails, yet the log file now names the new snapshot as its base and starts at or below it. */
  lemma HealthyNodeStranded()
    ensures
      var e1, e2, e3 := Entry(1, 1, Noop), Entry(2, 1, Put("k", "v")), Entry(2, 2, Noop);
      var (s1, first) := HandleAppend(Blank, AppendRequest(1, "a", 0, 0, [e1, e2], 1), Ok, Stored, Ok, Ok);
      var s2 := ApplyNext(s1);
      var s3 := SaveSnapshot(s2, Ok);
      var next := AnswerAppend("n", AppendRequest(2, "b", 1, 1, [e3], 1), Ok, Stored, Ok, Ok);
      var (s4, second) := HandleAppend(s3, next.append, Ok, Stored, Ok, Ok);
      && first.Success? && second.Success? && !s4.fatal
      && s2.disk.base <= s2.applied && s3.disk.loadable
      && Strands(s3, next) && !s4.disk.loadable
  {
    var e1, e2, e3 := Entry(1, 1, Noop), Entry(2, 1, Put("k", "v")), Entry(2, 2, Noop);
    var (s1, first) := HandleAppend(Blank, AppendRequest(1, "a", 0, 0, [e1, e2], 1), Ok, Stored, Ok, Ok);
    assert s1.log == [e1, e2] && s1.commit == 1 && !s1.fatal && s1.role == Follower && s1.term == 1;
    var s3 := SaveSnapshot(ApplyNext(s1), Ok);
    assert s3.disk.snap == 1 && s3.log == [e1, e2];
    var next := AnswerAppend("n", AppendRequest(2, "b", 1, 1, [e3], 1), Ok, Stored, Ok, Ok);
    assert !HasTerm(s3.log, 1, [e3], 0);
    AppendLoadable(s3, next);
  }

  // ------------------------------------------------------------ crashes during an install

  /** Crash-atomic install: whichever write was the last to take effect, a restart finds either
      the disk as it was, or log, snapshot index and applied prefix as after the install. The
      commit index is the snapshot's too, unless the disk knew of a higher one before. The
      files can be loaded if they could before, or if the log file has been rewritten. */
  lemma CrashAtomicInstall(s: Node, p: Log, ioSnap: Outcome, ioLog: Outcome, ioHard: Outcome)
    requires s.commit < |p| && s.disk.log == s.log
    ensures var d := InstallDisk(s, p, ioSnap, ioLog, ioHard).0;
            var r, done := Restart(d), InstallSnapshot(s, p, Ok, Ok, Ok).0;
            && (d.loadable <==> s.disk.loadable || (ioSnap.Ok? && !ioLog.Lost?))
            && (ioSnap.Lost? ==> d == s.disk)
            && (!ioSnap.Lost? ==>
                  && r.log == done.log && r.snap == done.snap && done.commit == done.applied == |p| <= r.applied
                  && done.log[..|p|] == r.log[..|p|] == p
                  && (s.disk.commit <= |p| ==> r.commit == r.applied == done.commit))
  {
  }

  // ------------------------------------------------------------ compaction after a failed install

  /** What a restart finds after compaction has written its snapshot: the log behind the log
      file if that file's base is not beyond the snapshot, and otherwise the snapshot alone.
      The node then still has all that it acknowledged exactly if the base is not beyond the
      snapshot, or the snapshot alone holds all of it that no later leader has replaced. */
  lemma CompactionKeepsAcks(b: seq<State>, steps: seq<Step>, i: nat, n: Id, io: Outcome)
    requires CarefulRun(b, steps) && i < |b| && n in b[i].nodes && !io.Lost?
    requires b[i].nodes[n].snap < b[i].nodes[n].applied && b[i].nodes[n].saving == 0
    ensures var h, s := b[i].h, b[i].nodes[n];
            var r := Restart(SaveSnapshot(s, io).disk);
            && s.applied <= |s.log|
            && r.log == (if s.disk.base <= s.applied then s.disk.wal else s.log[..s.applied])
            && (AckInv(h, n, r) <==> s.disk.base <= s.applied || AcksHeld(h, n, s.log[..s.applied], s.disk.term))
  {
    RunKeeps(b, steps, i);
    var h, s := b[i].h, b[i].nodes[n];
    assert NodeInv(h, n, s);
    hide Run, StateOk, VoteInv, RoleInv, LogInv, Committed, Held, AckOk;
    CompactedLog(s);
    var r := Restart(SaveSnapshot(s, io).disk);
    if s.disk.base <= s.applied {
      forall a | a in h.acks && a.node == n
        ensures Keeps(h, a, r)
      {
        assert Keeps(h, a, s);
        HeldLater(h, a, s.disk.wal, Bound(s), s.disk.term);
      }
    } else {
      AcksAfter(h, n, s, r);
    }
  }

  /** Everything that node n acknowledged is in the log, or replaced by a leader up to term hi. */
  ghost predicate AcksHeld(h: Record, n: Id, log: Log, hi: nat) {
    forall a {:trigger a in h.acks} :: a in h.acks && a.node == n ==> AckOk(h, a) && Held(h, a, log, hi)
  }

  lemma AcksAfter(h: Record, n: Id, s: Node, r: Node)
    requires AckInv(h, n, s)
    requires r.log == r.disk.log == r.disk.wal && r.term == r.disk.term == s.disk.term
    ensures AckInv(h, n, r) <==> AcksHeld(h, n, r.log, s.disk.term)
  {
    hide Held, AckOk;
    forall a | a in h.acks && a.node == n
      ensures Keeps(h, a, r) <==> AckOk(h, a) && Held(h, a, r.log, s.disk.term)
    {
      assert Keeps(h, a, s);
    }
  }

  /** What goes wrong otherwise. A follower acknowledges two entries and applies the first. The
      install of a snapshot of three entries then fails in its last write. Compaction, which
      does not ask whether the store has failed, overwrites the snapshot file; after a crash at
      that point the node restarts without the second entry, which it had acknowledged. */
  lemma AcknowledgedEntryLost()
    ensures
      var e1, e2, e3 := Entry(1, 1, Noop), Entry(2, 1, Put("k", "v")), Entry(3, 1, Noop);
      var append := AppendRequest(1, "a", 0, 0, [e1, e2], 1);
      var chunk := ChunkRequest(1, "a", [e1, e2, e3], 0, 2, true);
      var (s1, reply) := HandleAppend(Blank, append, Ok, Stored, Ok, Ok);
      var s2 := ApplyNext(s1);
      var s3 := HandleChunk(s2, chunk, Ok).0;
      var s4 := FinishInstall(s3, chunk, Ok, Ok, Ok, Lost).0;
      var s5 := SaveSnapshot(s4, Ok);
      && reply.Success? && [e1, e2] <= s1.log
      && Restart(s4.disk).log == [e1, e2, e3]
      && s5.disk.loadable && Restart(s5.disk).log == [e1]
  {
    var e1, e2, e3 := Entry(1, 1, Noop), Entry(2, 1, Put("k", "v")), Entry(3, 1, Noop);
    var append := AppendRequest(1, "a", 0, 0, [e1, e2], 1);
    var chunk := ChunkRequest(1, "a", [e1, e2, e3], 0, 2, true);
    var (s1, reply) := HandleAppend(Blank, append, Ok, Stored, Ok, Ok);
    assert s1.log == [e1, e2] && s1.commit == 1 && !s1.fatal && s1.role == Follower && s1.term == 1;
    var s2 := ApplyNext(s1);
    var (s3, taken) := HandleChunk(s2, chunk, Ok);
    assert s3.transfer == Receiving("a", [e1, e2, e3], 2);
    var s4 := FinishInstall(s3, chunk, Ok, Ok, Ok, Lost).0;
    assert s4.disk.base == 3 && s4.log[..1] == [e1];
  }
}
