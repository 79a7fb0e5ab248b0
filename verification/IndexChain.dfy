/** The snapshot, applied and commit index of a node: their order, and when one of them goes back. */
module IndexChain {
  import opened Logs
  import opened History
  import opened Protocol
  import opened Invariant
  import opened Growth
  import opened VoteSteps
  import opened LeaderSteps
  import opened FollowerSteps
  import opened Cluster
  import opened Roots
  import opened RootedCluster
  import opened Safety
  import Durability

  // ------------------------------------------------------------ one node

  /** The indices are in order, in memory and on disk. As long as the base of the log file is not
      beyond the commit index, the file has what is committed. */
  ghost predicate Chain(s: Node) {
    && s.snap <= s.applied <= s.commit <= |s.log|
    && s.commit <= s.disk.commit && s.snap <= s.disk.snap <= |s.disk.log|
    && (s.disk.base <= s.commit ==> s.commit <= |s.disk.wal| && s.disk.wal[..s.commit] == s.log[..s.commit])
  }

  /** What is known of the disk from the role. */
  ghost predicate Placed(s: Node) {
    && (s.fatal ==> s.role.Follower?)
    && (!s.fatal ==> InStep(s))
    && (s.saving != 0 ==> s.disk.snap == s.saving)
  }

  /** A restart would find all that is committed here. */
  predicate Recoverable(s: Node) {
    s.commit <= |s.disk.log|
  }

  /** Snapshot, applied and commit index do not go back, nor the lower of the terms in memory and
      on disk. */
  ghost predicate Forward(s: Node, s': Node) {
    s.snap <= s'.snap && s.applied <= s'.applied && s.commit <= s'.commit && Bound(s) <= Bound(s')
  }

  ghost predicate Moves(s: Node, s': Node) {
    Forward(s, s') && s.term <= s'.term && Chain(s') && (Recoverable(s) ==> Recoverable(s'))
  }

  lemma MovesOn(s: Node, t: Node, u: Node)
    requires Moves(s, t) && Moves(t, u)
    ensures Moves(s, u)
  {
  }

  lemma Stays(s: Node)
    requires Chain(s)
    ensures Moves(s, s)
  {
  }

  // ------------------------------------------------------------ what each handler does

  lemma FollowMoves(s: Node, term: nat, io: Outcome)
    requires Chain(s) && Placed(s)
    ensures Moves(s, BecomeFollower(s, term, io)) && Moves(s, Follow(s, term, io)) && Placed(Follow(s, term, io))
  {
  }

  lemma CampaignMoves(s: Node, id: Id, io: Outcome)
    requires Chain(s) && Placed(s)
    ensures Moves(s, StartElection(s, id, io).0)
  {
  }

  lemma GiveVoteMoves(s: Node, m: VoteRequest, io: Outcome)
    requires Chain(s) && InStep(s)
    ensures Moves(s, GiveVote(s, m, io).0)
  {
    hide MayVote, LastTerm;
  }

  lemma VoteMoves(s: Node, m: VoteRequest, ioTerm: Outcome, ioVote: Outcome)
    requires Chain(s) && Placed(s)
    ensures Moves(s, HandleVote(s, m, ioTerm, ioVote).0)
  {
    hide BecomeFollower, GiveVote, Moves;
    Stays(s);
    FollowMoves(s, m.term, ioTerm);
    var t := if m.term > s.term then BecomeFollower(s, m.term, ioTerm) else s;
    MovesChain(s, t);
    if !t.fatal {
      GiveVoteMoves(t, m, ioVote);
      MovesOn(s, t, GiveVote(t, m, ioVote).0);
    }
  }

  lemma AdvanceMoves(s: Node, peers: set<Id>, io: Outcome)
    requires Chain(s) && InStep(s)
    ensures Moves(s, AdvanceCommit(s, peers, io))
  {
  }

  lemma OwnEntryMoves(s: Node, n: Id, peers: set<Id>, e: Entry, io: AppendOutcome, ioCommit: Outcome)
    requires Chain(s) && InStep(s)
    ensures Moves(s, LeaderAppend(s, n, peers, e, io, ioCommit))
  {
    var t := s.(disk := AppendLog(s.disk, [e], io));
    if io.Stored? {
      var u := t.(log := s.log + [e], acked := s.acked[n := |s.log| + 1]);
      assert Moves(s, u);
      hide AdvanceCommit;
      AdvanceMoves(u, peers, ioCommit);
    }
  }

  lemma Relabelled(s: Node, t: Node)
    requires Chain(s) && t == s.(role := t.role, acked := t.acked, noop := t.noop)
    ensures Moves(s, t) && Chain(t)
  {
  }

  lemma CrownMoves(s: Node, n: Id, peers: set<Id>, io: AppendOutcome, ioCommit: Outcome)
    requires Chain(s) && InStep(s)
    ensures Moves(s, BecomeLeader(s, n, peers, io, ioCommit))
  {
    hide LeaderAppend, Moves, Chain;
    Stays(s);
    var t := s.(role := Leader, acked := Indices(peers, 0)[n := |s.log|]);
    var u := if io.Stored? then t.(noop := |s.log| + 1) else t;
    Relabelled(s, u);
    OwnEntryMoves(u, n, peers, NextEntry(s, Noop), io, ioCommit);
    MovesOn(s, u, LeaderAppend(u, n, peers, NextEntry(s, Noop), io, ioCommit));
  }

  lemma ProposeMoves(s: Node, n: Id, peers: set<Id>, command: Command, io: AppendOutcome, ioCommit: Outcome)
    requires Chain(s) && Placed(s)
    ensures Moves(s, Propose(s, n, peers, command, io, ioCommit).0)
  {
    hide LeaderAppend, Moves, Chain;
    Stays(s);
    if !s.fatal {
      OwnEntryMoves(s, n, peers, NextEntry(s, command), io, ioCommit);
    }
  }

  lemma HearMoves(s: Node, p: Id, len: nat, peers: set<Id>, advance: bool, ioCommit: Outcome)
    requires Chain(s) && InStep(s)
    ensures Moves(s, ReceiveAck(s, p, len, peers, advance, ioCommit))
  {
    hide AdvanceCommit, Moves, Chain;
    var t := ReceiveAck(s, p, len, peers, false, ioCommit);
    Relabelled(s, t);
    AdvanceMoves(t, peers, ioCommit);
    MovesOn(s, t, AdvanceCommit(t, peers, ioCommit));
  }

  lemma MergeMoves(s: Node, m: Merge, ioAdd: AppendOutcome, ioSwap: Outcome)
    requires Chain(s) && InStep(s)
    requires m.Replaced? ==> s.commit <= |m.log| && m.log[..s.commit] == s.log[..s.commit]
    ensures var t := s.(disk := WriteMerge(s, m, ioAdd, ioSwap));
            Moves(s, Fail(t)) && (WriteOk(m, ioAdd, ioSwap) ==>
                Moves(s, t.(log := MergedLog(s.log, m))) && t.disk.log == MergedLog(s.log, m))
  {
  }

  lemma MergeShape(log: Log, commit: nat, prev: nat, entries: seq<Entry>)
    requires prev <= |log| && commit <= |log|
    ensures var m := MergeEntries(log, commit, prev, entries);
            && (m.Replaced? ==> commit <= |m.log| && m.log[..commit] == log[..commit])
            && (!m.CommittedConflict? ==> prev + |entries| <= |MergedLog(log, m)|)
  {
  }

  lemma FollowCommitMoves(s: Node, commit: nat, io: Outcome)
    requires Chain(s) && commit <= |s.log| && s.disk.log == s.log && s.disk.wal == s.log && s.term <= s.disk.term
    ensures Moves(s, Protocol.FollowCommit(s, commit, io).0)
  {
  }

  lemma AcceptMoves(s: Node, m: AppendRequest, ioAdd: AppendOutcome, ioSwap: Outcome, ioCommit: Outcome)
    requires Chain(s) && InStep(s) && m.prev <= |s.log|
    ensures Moves(s, AcceptEntries(s, m, ioAdd, ioSwap, ioCommit).0)
  {
    hide MergeEntries, FollowCommit;
    var merge := MergeEntries(s.log, s.commit, m.prev, m.entries);
    Stays(s);
    MergeShape(s.log, s.commit, m.prev, m.entries);
    if !merge.CommittedConflict? {
      MergeMoves(s, merge, ioAdd, ioSwap);
      if WriteOk(merge, ioAdd, ioSwap) {
        var t := s.(disk := WriteMerge(s, merge, ioAdd, ioSwap), log := MergedLog(s.log, merge));
        var commit := Min(m.commit, m.prev + |m.entries|);
        FollowCommitMoves(t, commit, ioCommit);
        hide Moves;
        MovesOn(s, t, FollowCommit(t, commit, ioCommit).0);
      }
    }
  }

  lemma AppendMoves(s: Node, m: AppendRequest, ioTerm: Outcome, ioAdd: AppendOutcome, ioSwap: Outcome,
      ioCommit: Outcome)
    requires Chain(s) && Placed(s)
    ensures Moves(s, HandleAppend(s, m, ioTerm, ioAdd, ioSwap, ioCommit).0)
  {
    hide AcceptEntries, ConflictIndex, Follow;
    Stays(s);
    var t := Follow(s, m.term, ioTerm);
    FollowMoves(s, m.term, ioTerm);
    if !t.fatal && m.prev <= |t.log| {
      AcceptMoves(t, m, ioAdd, ioSwap, ioCommit);
      hide Moves;
      MovesOn(s, t, AcceptEntries(t, m, ioAdd, ioSwap, ioCommit).0);
    }
  }

  lemma TransferMoves(s: Node, t: Node, x: Transfer)
    requires Moves(s, t)
    ensures Moves(s, t.(transfer := x))
  {
  }

  lemma ChunkMoves(s: Node, m: ChunkRequest, ioTerm: Outcome)
    requires Chain(s) && Placed(s)
    ensures Moves(s, HandleChunk(s, m, ioTerm).0)
  {
    hide Follow, TakeChunk, Moves;
    Stays(s);
    var t := Follow(s, m.term, ioTerm);
    FollowMoves(s, m.term, ioTerm);
    TransferMoves(s, t, Idle);
    TransferMoves(s, t, TakeChunk(t.transfer, m).0);
  }

  lemma InstallMoves(s: Node, p: Log, ioSnap: Outcome, ioLog: Outcome, ioHard: Outcome)
    requires Chain(s) && InStep(s) && s.commit < |p|
    ensures Moves(s, InstallSnapshot(s, p, ioSnap, ioLog, ioHard).0)
  {
  }

  lemma FinishMoves(s: Node, m: ChunkRequest, ioTerm: Outcome, ioSnap: Outcome, ioLog: Outcome, ioHard: Outcome)
    requires Chain(s) && Placed(s)
    ensures Moves(s, FinishInstall(s, m, ioTerm, ioSnap, ioLog, ioHard).0)
  {
    hide Follow, InstallSnapshot, Moves, LastTerm;
    Stays(s);
    var t := Follow(s, m.term, ioTerm);
    FollowMoves(s, m.term, ioTerm);
    TransferMoves(s, s, Idle);
    TransferMoves(s, t, Idle);
    if !t.fatal && SameStream(t.transfer, m) && t.commit < |m.prefix| {
      MovesChain(s, t);
      InstallMoves(t, t.transfer.prefix, ioSnap, ioLog, ioHard);
      MovesOn(s, t, InstallSnapshot(t, t.transfer.prefix, ioSnap, ioLog, ioHard).0);
    }
  }

  lemma MovesChain(s: Node, t: Node)
    requires Moves(s, t)
    ensures Chain(t)
  {
  }

  lemma ApplyMoves(s: Node, io: Outcome)
    requires Chain(s) && Placed(s)
    ensures Moves(s, ApplyNext(s)) && Moves(s, FinishSnapshot(s, io))
  {
  }

  // ------------------------------------------------------------ compaction and restart

  /** Compaction writes a snapshot short of the commit index next to a log file whose base lies
      beyond that snapshot. */
  predicate Forgets(s: Node, step: Step) {
    && step.WriteSnapshot? && s.snap < s.applied && s.saving == 0 && !step.io.Lost?
    && s.applied < s.disk.base && s.applied < s.commit
  }

  /** What the snapshot write does to what a restart would find, exactly. */
  lemma SaveMoves(s: Node, step: Step)
    requires Chain(s) && Placed(s) && step.WriteSnapshot?
    ensures var t := SaveSnapshot(s, step.io);
            && Forward(s, t) && s.term <= t.term && Chain(t)
            && (Recoverable(s) ==> (Recoverable(t) <==> !Forgets(s, step)))
            && (t != s ==>
                  && (Restart(t.disk).commit < s.commit <==> Forgets(s, step))
                  && s.applied <= Restart(t.disk).applied)
  {
  }

  /** After a restart the commit index is lower exactly if the log on disk is shorter, and so is
      the applied index; the snapshot index never is. */
  lemma RestartMoves(s: Node)
    requires Chain(s)
    ensures var r := Restart(s.disk);
            && Chain(r) && Recoverable(r) && s.snap <= r.snap && Bound(s) <= Bound(r)
            && (r.commit < s.commit <==> |s.disk.log| < s.commit)
            && (r.applied < s.applied <==> |s.disk.log| < s.applied)
  {
  }

  // ------------------------------------------------------------ every step

  lemma ActMoves(c: State, step: Step)
    requires Enabled(c, step) && Chain(c.nodes[step.n]) && Placed(c.nodes[step.n])
    requires !step.WriteSnapshot? && !step.Reboot?
    ensures Moves(c.nodes[step.n], Act(c, step).nodes[step.n])
  {
    var s := c.nodes[step.n];
    hide Moves, Chain, HandleAppend, BecomeLeader, Propose, ReceiveAck, HandleChunk, FinishInstall;
    hide BecomeFollower, HandleVote, StartElection, FinishSnapshot, ApplyNext, MakeAppend;
    hide Granting, AfterWin, AfterPropose, AfterAppendRequest, AfterReceive, AfterChunk;
    Stays(s);
    match step
    case Lead(n, _, ioAdd, ioCommit) => CrownMoves(s, n, PeersOf(c, n), ioAdd, ioCommit);
    case Submit(n, command, ioAdd, ioCommit) => ProposeMoves(s, n, PeersOf(c, n), command, ioAdd, ioCommit);
    case HearAck(n, a, advance, ioCommit) => HearMoves(s, a.node, a.len, PeersOf(c, n), advance, ioCommit);
    case AnswerAppend(_, m, ioTerm, ioAdd, ioSwap, ioCommit) => AppendMoves(s, m, ioTerm, ioAdd, ioSwap, ioCommit);
    case StepDown(_, term, io) => FollowMoves(s, term, io);
    case Campaign(n, io) => CampaignMoves(s, n, io);
    case AnswerVote(_, r, ioTerm, ioVote) =>
      VoteMoves(s, VoteRequest(r.term, r.cand, |r.candLog|, LastTerm(r.candLog)), ioTerm, ioVote);
    case AnswerChunk(_, m, ioTerm) => ChunkMoves(s, m, ioTerm);
    case FinishChunk(_, m, ioTerm, ioSnap, ioLog, ioHard) => FinishMoves(s, m, ioTerm, ioSnap, ioLog, ioHard);
    case ApplyEntry(_) => ApplyMoves(s, Ok);
    case DropEntries(_, io) => ApplyMoves(s, io);
    case _ =>
  }

  /** What any step does to the indices of the node that takes it. */
  ghost predicate Stepped(s: Node, s': Node, step: Step) {
    && Chain(s')
    && (!step.Reboot? ==> Forward(s, s') && s.term <= s'.term)
    && (step.Reboot? ==>
          && s.snap <= s'.snap && Bound(s) <= Bound(s')
          && (s'.commit < s.commit <==> |s.disk.log| < s.commit)
          && (s'.applied < s.applied <==> |s.disk.log| < s.applied))
    && (Recoverable(s) ==> (Recoverable(s') <==> !Forgets(s, step)))
  }

  lemma ActStepped(c: State, step: Step)
    requires Enabled(c, step) && Chain(c.nodes[step.n]) && Placed(c.nodes[step.n])
    ensures Stepped(c.nodes[step.n], Act(c, step).nodes[step.n], step)
  {
    var s := c.nodes[step.n];
    if step.WriteSnapshot? {
      hide SaveSnapshot, Chain, Forward, Recoverable;
      SaveMoves(s, step);
    } else if step.Reboot? {
      hide Restart, Chain, Recoverable;
      RestartMoves(s);
    } else {
      hide Act, Chain, Forward;
      ActMoves(c, step);
    }
  }

  // ------------------------------------------------------------ every run

  lemma {:induction false} RunChain(b: seq<State>, steps: seq<Step>, i: nat, n: Id)
    requires Run(b, steps) && i < |b| && n in b[i].nodes
    ensures Chain(b[i].nodes[n]) && Placed(b[i].nodes[n])
    decreases i
  {
    RunPlaced(b, steps, i, n);
    if i > 0 {
      SameNodes(b, steps, i);
      RunChain(b, steps, i - 1, n);
      hide Chain, Placed, Take, Enabled, Initial;
      var c, step := b[i - 1], steps[i - 1];
      assert b[i] == Take(c, step);
      TakeStepped(c, step, n);
    }
  }

  lemma RunPlaced(b: seq<State>, steps: seq<Step>, i: nat, n: Id)
    requires Run(b, steps) && i < |b| && n in b[i].nodes
    ensures Placed(b[i].nodes[n])
  {
    RunRooted(b, steps, i);
    RootedNode(b[i], n);
  }

  lemma SameNodes(b: seq<State>, steps: seq<Step>, i: nat)
    requires Run(b, steps) && 0 < i < |b|
    ensures b[i].nodes.Keys == b[i - 1].nodes.Keys
  {
    RunRooted(b, steps, i - 1);
    RunRooted(b, steps, i);
    RunExtends(b, steps, i - 1, i);
  }

  lemma TakeStepped(c: State, step: Step, n: Id)
    requires Enabled(c, step) && n in c.nodes && Chain(c.nodes[n]) && Placed(c.nodes[n])
    ensures n in Take(c, step).nodes
    ensures if step.n == n then Stepped(c.nodes[n], Take(c, step).nodes[n], step) && Chain(Take(c, step).nodes[n])
            else Take(c, step).nodes[n] == c.nodes[n]
  {
    var t := c.(h := Ticked(c.h));
    StaysEnabled(c, step);
    if step.n == n {
      hide Act, Chain, Placed, Enabled;
      Durability.ActKeepsNodes(t, step);
      ActStepped(t, step);
    } else {
      Durability.OthersUntouched(c, step, n);
    }
  }

  /** In every state of every run the indices are in order, and the log is contiguous with terms
      that never decrease. */
  lemma IndicesInOrder(b: seq<State>, steps: seq<Step>, i: nat, n: Id)
    requires Run(b, steps) && i < |b| && n in b[i].nodes
    ensures var s := b[i].nodes[n];
            && s.snap <= s.applied <= s.commit <= |s.log| && Indexed(s.log) && TermsSorted(s.log)
            && s.commit <= s.disk.commit && s.snap <= s.disk.snap <= |s.disk.log|
  {
    RunChain(b, steps, i, n);
    RunRooted(b, steps, i);
    RootedNode(b[i], n);
    var h, s := b[i].h, b[i].nodes[n];
    LogsAreSourced(h, n, s, InMemory);
    hide Run, Rooted, NodeRooted, RootsOk, Placed, Sourced;
    RootedReigns(b[i]);
    SourcedIndexed(h, s.log);
    SourcedSorted(h, s.log);
  }

  lemma RootedReigns(c: State)
    requires Rooted(c)
    ensures ReignsOk(c.h)
  {
  }

  lemma StepIs(b: seq<State>, steps: seq<Step>, i: nat, n: Id)
    requires Run(b, steps) && i < |steps| && n in b[i].nodes
    ensures n in b[i + 1].nodes && Placed(b[i].nodes[n])
    ensures if steps[i].n == n then Stepped(b[i].nodes[n], b[i + 1].nodes[n], steps[i])
            else b[i + 1].nodes[n] == b[i].nodes[n]
  {
    RunChain(b, steps, i, n);
    hide Chain, Placed, Take, Enabled, Initial, Stepped;
    assert b[i + 1] == Take(b[i], steps[i]);
    TakeStepped(b[i], steps[i], n);
  }

  /** No step but a restart of the node lowers an index. A restart lowers the commit index exactly
      if the log on disk ends below it, and the applied index likewise; it never lowers the
      snapshot index, nor the lower of the two terms. */
  lemma IndexFallsExactlyIf(b: seq<State>, steps: seq<Step>, i: nat, n: Id)
    requires Run(b, steps) && i < |steps| && n in b[i].nodes
    ensures n in b[i + 1].nodes
    ensures var s, s' := b[i].nodes[n], b[i + 1].nodes[n];
            && s.snap <= s'.snap && Bound(s) <= Bound(s')
            && (s'.commit < s.commit <==> steps[i] == Reboot(n) && |s.disk.log| < s.commit)
            && (s'.applied < s.applied <==> steps[i] == Reboot(n) && |s.disk.log| < s.applied)
  {
    StepIs(b, steps, i, n);
    hide Run, Chain, Placed, Forgets, Recoverable;
  }

  /** When the log on disk comes to end below the commit index: exactly when compaction writes a
      snapshot short of the commit index next to a log file whose base lies beyond it. */
  lemma RecoverableExactlyIf(b: seq<State>, steps: seq<Step>, i: nat, n: Id)
    requires Run(b, steps) && i < |steps| && n in b[i].nodes && Recoverable(b[i].nodes[n])
    ensures n in b[i + 1].nodes
    ensures Recoverable(b[i + 1].nodes[n]) <==> !(steps[i].n == n && Forgets(b[i].nodes[n], steps[i]))
  {
    StepIs(b, steps, i, n);
    hide Run, Chain, Placed, Forgets, Forward;
  }

  /** Node n never does that before time j. */
  ghost predicate NeverForgets(b: seq<State>, steps: seq<Step>, j: nat, n: Id)
    requires Run(b, steps) && j < |b|
  {
    forall k {:trigger steps[k]} :: 0 <= k < j && steps[k].n == n && n in b[k].nodes ==>
      !Forgets(b[k].nodes[n], steps[k])
  }

  lemma CarefulNeverForgets(b: seq<State>, steps: seq<Step>, j: nat, n: Id)
    requires CarefulRun(b, steps) && j < |b|
    ensures NeverForgets(b, steps, j, n)
  {
    hide Enabled, Take, Initial;
  }

  lemma {:induction false} NeverForgotten(b: seq<State>, steps: seq<Step>, j: nat, n: Id)
    requires Run(b, steps) && j < |b| && n in b[j].nodes && NeverForgets(b, steps, j, n)
    ensures Recoverable(b[j].nodes[n])
    decreases j
  {
    hide Take, Enabled, Forgets;
    if j > 0 {
      SameNodes(b, steps, j);
      NeverForgotten(b, steps, j - 1, n);
      RecoverableExactlyIf(b, steps, j - 1, n);
    }
  }

  /** Over any run in which a node never forgets, and so over any careful run, none of its indices
      ever goes back, restarts included. */
  lemma {:induction false} IndicesOnlyGrow(b: seq<State>, steps: seq<Step>, i: nat, j: nat, n: Id)
    requires Run(b, steps) && i <= j < |b| && n in b[i].nodes && NeverForgets(b, steps, j, n)
    ensures n in b[j].nodes && Forward(b[i].nodes[n], b[j].nodes[n])
    decreases j
  {
    hide Take, Enabled, Forgets, Initial;
    if i < j {
      IndicesOnlyGrow(b, steps, i, j - 1, n);
      NeverForgotten(b, steps, j - 1, n);
      RunChain(b, steps, j - 1, n);
      IndexFallsExactlyIf(b, steps, j - 1, n);
    }
  }

  /** A node's term in memory falls at a step exactly if the step is its own restart and its
      disk never got the term. A node in that situation has failed closed. */
  lemma TermFallsExactlyIf(b: seq<State>, steps: seq<Step>, i: nat, n: Id)
    requires Run(b, steps) && i < |steps| && n in b[i].nodes
    ensures n in b[i + 1].nodes
    ensures var s, s' := b[i].nodes[n], b[i + 1].nodes[n];
            && (s'.term < s.term <==> steps[i] == Reboot(n) && s.disk.term < s.term)
            && (s.disk.term < s.term ==> s.fatal)
  {
    StepIs(b, steps, i, n);
    if steps[i] == Reboot(n) {
      RebootTerm(b[i], n);
      assert b[i + 1] == Take(b[i], steps[i]);
    }
    hide Run, Chain, Forgets, Recoverable;
  }

  lemma RebootTerm(c: State, n: Id)
    requires Enabled(c, Reboot(n))
    ensures Take(c, Reboot(n)).nodes[n].term == c.nodes[n].disk.term
  {
  }

  /** That happens: a follower that could not write the term it heard of starts again below it. */
  lemma UnwrittenTermIsLost()
    ensures var s := BecomeFollower(Blank, 7, Lost);
            s.term == 7 && s.fatal && s.disk.loadable && Restart(s.disk).term == 0
  {
  }

  /** Indices do fall as well. A follower commits two entries and applies the first. The install
      of a snapshot of three entries fails in its last write, and compaction then overwrites the
      snapshot file. A restart at that point has a lower commit index; if the second entry is
      applied before it, a lower applied index too. */
  lemma ForgottenCommit()
    ensures
      var e1, e2, e3 := Entry(1, 1, Noop), Entry(2, 1, Command.Put("k", "v")), Entry(3, 1, Noop);
      var append := AppendRequest(1, "a", 0, 0, [e1, e2], 2);
      var chunk := ChunkRequest(1, "a", [e1, e2, e3], 0, 2, true);
      var s1 := ApplyNext(HandleAppend(Blank, append, Ok, Stored, Ok, Ok).0);
      var s2 := FinishInstall(HandleChunk(s1, chunk, Ok).0, chunk, Ok, Ok, Ok, Lost).0;
      var s3 := SaveSnapshot(s2, Ok);
      var s4 := ApplyNext(s3);
      && Forgets(s2, WriteSnapshot("n", Ok)) && s3.disk.loadable && s4.disk == s3.disk
      && s3.commit == 2 && s4.applied == 2
      && Restart(s3.disk).commit == 1 && Restart(s4.disk).applied == 1
  {
    var e1, e2, e3 := Entry(1, 1, Noop), Entry(2, 1, Command.Put("k", "v")), Entry(3, 1, Noop);
    var append := AppendRequest(1, "a", 0, 0, [e1, e2], 2);
    var chunk := ChunkRequest(1, "a", [e1, e2, e3], 0, 2, true);
    var s0 := HandleAppend(Blank, append, Ok, Stored, Ok, Ok).0;
    assert s0.log == [e1, e2] && s0.commit == 2 && !s0.fatal && s0.role == Follower && s0.term == 1;
    var s1 := ApplyNext(s0);
    var t := HandleChunk(s1, chunk, Ok).0;
    assert t.transfer == Receiving("a", [e1, e2, e3], 2);
    var s2 := FinishInstall(t, chunk, Ok, Ok, Ok, Lost).0;
    assert s2.disk.base == 3 && s2.log[..1] == [e1];
  }
}
