/** What the disk owes to the other nodes: promises are written before they are made, and a node
    whose store failed makes none. */
module Durability {
  import opened Logs
  import opened History
  import opened Protocol
  import opened Invariant
  import opened Growth
  import opened VoteSteps
  import opened LeaderSteps
  import opened FollowerSteps
  import opened DiskSteps
  import opened Cluster
  import opened Roots
  import opened AckSteps
  import opened RootedCluster
  import opened Safety

  // ------------------------------------------------------------ persist before promise

  /** What a step adds to the votes and acknowledgements is in the acting node's current term,
      and a vote it grants is on its disk. */
  ghost predicate PromisesNow(h: Record, h': Record, n: Id, s: Node) {
    && (forall v {:trigger v in h'.votes} :: v in h'.votes && v !in h.votes ==>
          v.voter == n && v.term == s.term == s.disk.term && s.vote == s.disk.vote == Some(v.cand))
    && (forall a {:trigger a in h'.acks} :: a in h'.acks && a !in h.acks ==> a.node == n && a.term == s.term)
  }

  lemma ActPromises(c: State, step: Step)
    requires Enabled(c, step)
    ensures PromisesNow(c.h, Act(c, step).h, step.n, Act(c, step).nodes[step.n])
  {
    ActKeepsNodes(c, step);
    hide Act;
    if step.Campaign? || step.AnswerVote? {
      VotePromises(c, step);
    } else if step.AnswerAppend? || step.AnswerChunk? || step.FinishChunk? {
      ReplyPromises(c, step);
    } else if step.Lead? {
      LeadPromises(c, step);
    } else if step.Submit? {
      SubmitPromises(c, step);
    } else {
      NoPromises(c, step);
    }
  }

  lemma VotePromises(c: State, step: Step)
    requires Enabled(c, step) && (step.Campaign? || step.AnswerVote?)
    ensures PromisesNow(c.h, Act(c, step).h, step.n, Act(c, step).nodes[step.n])
  {
    hide LastTerm;
  }

  lemma ReplyPromises(c: State, step: Step)
    requires Enabled(c, step) && (step.AnswerAppend? || step.AnswerChunk? || step.FinishChunk?)
    ensures PromisesNow(c.h, Act(c, step).h, step.n, Act(c, step).nodes[step.n])
  {
    var s := c.nodes[step.n];
    hide HandleAppend, HandleChunk, FinishInstall;
    match step
    case AnswerAppend(n, m, ioTerm, ioAdd, ioSwap, ioCommit) => AppendReplyTerm(s, m, ioTerm, ioAdd, ioSwap, ioCommit);
    case AnswerChunk(n, m, ioTerm) => ChunkReplyTerm(s, m, ioTerm, Ok, Ok, Ok);
    case FinishChunk(n, m, ioTerm, ioSnap, ioLog, ioHard) => ChunkReplyTerm(s, m, ioTerm, ioSnap, ioLog, ioHard);
  }

  lemma LeadPromises(c: State, step: Step)
    requires Enabled(c, step) && step.Lead?
    ensures PromisesNow(c.h, Act(c, step).h, step.n, Act(c, step).nodes[step.n])
  {
    hide LeaderAppend, AfterAppend;
    var n, s, peers := step.n, c.nodes[step.n], PeersOf(c, step.n);
    var e, t := NextEntry(s, Noop), Crowned(s, n, peers);
    OwnAckOnly(AddReign(c.h, s.term, Reign(n, |s.log|, s.log + [e], step.ballots)), n, t, peers, e, step.ioAdd);
    LeaderAppendTerm(t, n, peers, e, step.ioAdd, step.ioCommit);
    LeaderAppendTerm(t.(noop := s.noop), n, peers, e, step.ioAdd, step.ioCommit);
  }

  lemma SubmitPromises(c: State, step: Step)
    requires Enabled(c, step) && step.Submit?
    ensures PromisesNow(c.h, Act(c, step).h, step.n, Act(c, step).nodes[step.n])
  {
    hide LeaderAppend, AfterAppend;
    var n, s, peers := step.n, c.nodes[step.n], PeersOf(c, step.n);
    var e := NextEntry(s, step.command);
    if s.term in c.h.reign {
      OwnAckOnly(AddEntry(c.h, s.term, e), n, s, peers, e, step.ioAdd);
    }
    LeaderAppendTerm(s, n, peers, e, step.ioAdd, step.ioCommit);
  }

  /** The other steps add neither votes nor acknowledgements. */
  lemma NoPromises(c: State, step: Step)
    requires Enabled(c, step)
    requires step.HearAck? || step.SendAppend? || step.SendChunk? || step.StepDown? || step.ApplyEntry? ||
             step.WriteSnapshot? || step.DropEntries? || step.Reboot?
    ensures Act(c, step).h.votes == c.h.votes && Act(c, step).h.acks == c.h.acks
  {
    hide AdvanceCommit, AfterAdvance, SaveSnapshot, FinishSnapshot, BecomeFollower, MakeAppend, Restart, ApplyNext;
    if step.HearAck? {
      AdvanceOnly(c.h, step.n, ReceiveAck(c.nodes[step.n], step.ack.node, step.ack.len, PeersOf(c, step.n), false,
          Ok), PeersOf(c, step.n));
    }
  }

  /** A leader's append adds no vote and at most its own acknowledgement. */
  lemma OwnAckOnly(h: Record, n: Id, s: Node, peers: set<Id>, e: Entry, io: AppendOutcome)
    ensures var h' := AfterAppend(h, n, s, peers, e, io);
            h'.votes == h.votes && forall a {:trigger a in h'.acks} :: a in h'.acks && a !in h.acks ==>
                a.node == n && a.term == s.term
  {
  }

  lemma AdvanceOnly(h: Record, n: Id, s: Node, peers: set<Id>)
    ensures var h' := AfterAdvance(h, n, s, peers); h'.votes == h.votes && h'.acks == h.acks
  {
  }

  lemma ChunkReplyTerm(s: Node, m: ChunkRequest, ioTerm: Outcome, ioSnap: Outcome, ioLog: Outcome, ioHard: Outcome)
    ensures var (s', reply) := HandleChunk(s, m, ioTerm); reply.HaveAll? ==> s'.term == m.term
    ensures var (s', reply) := FinishInstall(s, m, ioTerm, ioSnap, ioLog, ioHard); reply.HaveAll? ==> s'.term == m.term
  {
  }

  lemma AppendReplyTerm(s: Node, m: AppendRequest, ioTerm: Outcome, ioAdd: AppendOutcome, ioSwap: Outcome,
      ioCommit: Outcome)
    ensures var (s', reply) := HandleAppend(s, m, ioTerm, ioAdd, ioSwap, ioCommit);
            reply.Success? ==> s'.term == m.term
  {
  }

  lemma LeaderAppendTerm(s: Node, n: Id, peers: set<Id>, e: Entry, io: AppendOutcome, ioCommit: Outcome)
    ensures LeaderAppend(s, n, peers, e, io, ioCommit).term == s.term
  {
  }

  lemma StepPromises(b: seq<State>, steps: seq<Step>, i: nat)
    requires Run(b, steps) && i < |steps|
    ensures steps[i].n in b[i + 1].nodes
    ensures PromisesNow(b[i].h, b[i + 1].h, steps[i].n, b[i + 1].nodes[steps[i].n])
  {
    hide Act, Initial;
    var c, step := b[i].(h := Ticked(b[i].h)), steps[i];
    ActPromises(c, step);
    assert b[i + 1] == Act(c, step);
    ActKeepsNodes(c, step);
  }

  lemma ActKeepsNodes(c: State, step: Step)
    requires Enabled(c, step)
    ensures step.n in Act(c, step).nodes
  {
  }

  /** The node is told of a snapshot that ends at or below its commit index, which it then
      acknowledges without a look at its log. */
  predicate AlreadyCommitted(s: Node, step: Step) {
    (step.AnswerChunk? || step.FinishChunk?) && |step.chunk.prefix| <= s.commit
  }

  lemma RepliesWritten(c: State, step: Step)
    requires Rooted(c) && Enabled(c, step) && c.h.time > 0
    requires step.AnswerAppend? || step.AnswerChunk? || step.FinishChunk?
    ensures var s := c.nodes[step.n];
            NewAcks(c.h, Act(c, step).h, Act(c, step).nodes[step.n].disk,
                    AlreadyCommitted(s, step) ==> step.chunk.prefix <= s.log)
  {
    hide NodesRooted, RootsOk, NewAcks, AppendRooted, ChunkRooted, HandleAppend, HandleChunk, FinishInstall;
    hide AfterAppendRequest, AfterChunk;
    var n, s, h := step.n, c.nodes[step.n], c.h;
    RootedNode(c, n);
    match step
    case AnswerAppend(_, m, ioTerm, ioAdd, ioSwap, ioCommit) =>
      assert AppendRooted(h, m);
      AppendAcks(h, n, s, m, ioTerm, ioAdd, ioSwap, ioCommit);
    case AnswerChunk(_, m, ioTerm) =>
      assert ChunkRooted(h, m);
      ChunkAcks(h, n, s, m, ioTerm);
    case FinishChunk(_, m, ioTerm, ioSnap, ioLog, ioHard) =>
      assert ChunkRooted(h, m);
      InstallAcks(h, n, s, m, ioTerm, ioSnap, ioLog, ioHard);
  }

  lemma CountsWritten(c: State, step: Step)
    requires Rooted(c) && Enabled(c, step) && c.h.time > 0 && (step.Lead? || step.Submit?)
    ensures NewAcks(c.h, Act(c, step).h, Act(c, step).nodes[step.n].disk, true)
  {
    hide Rooted, NodeRooted, NewAcks, BecomeLeader, Propose, AfterWin, AfterPropose;
    var n, s, h, peers := step.n, c.nodes[step.n], c.h, PeersOf(c, step.n);
    RootedNode(c, n);
    match step
    case Lead(_, ballots, ioAdd, ioCommit) => LeadAcks(h, n, s, peers, ballots, ioAdd, ioCommit);
    case Submit(_, command, ioAdd, ioCommit) => ProposeAcks(h, n, s, peers, command, ioAdd, ioCommit);
  }

  lemma ActAcks(c: State, step: Step)
    requires Rooted(c) && Enabled(c, step) && c.h.time > 0
    ensures var s := c.nodes[step.n];
            NewAcks(c.h, Act(c, step).h, Act(c, step).nodes[step.n].disk,
                    AlreadyCommitted(s, step) ==> step.chunk.prefix <= s.log)
  {
    ActKeepsNodes(c, step);
    hide Rooted, Act;
    if step.AnswerAppend? || step.AnswerChunk? || step.FinishChunk? {
      RepliesWritten(c, step);
    } else if step.Lead? || step.Submit? {
      CountsWritten(c, step);
    } else if step.Campaign? || step.AnswerVote? {
      VotingAcks(c, step);
    } else {
      NoPromises(c, step);
    }
  }

  lemma VotingAcks(c: State, step: Step)
    requires Enabled(c, step) && (step.Campaign? || step.AnswerVote?)
    ensures Act(c, step).h.acks == c.h.acks
  {
    hide StartElection, HandleVote;
  }

  /** Persist before promise: when a vote is granted the disk holds its term and choice, and
      when log entries are acknowledged, or counted by their leader, the disk holds their term
      and the entries. There is one exception. A snapshot that ends at or below the commit index
      is acknowledged unseen; the disk holds its entries exactly if they are in the log, and in
      careful runs they are. */
  lemma PersistBeforePromise(b: seq<State>, steps: seq<Step>, i: nat)
    requires Run(b, steps) && i < |steps|
    ensures steps[i].n in b[i].nodes && steps[i].n in b[i + 1].nodes
    ensures var d := b[i + 1].nodes[steps[i].n].disk;
            forall v {:trigger v in b[i + 1].h.votes} :: v in b[i + 1].h.votes && v !in b[i].h.votes ==>
              v.voter == steps[i].n && d.term == v.term && d.vote == Some(v.cand)
    ensures var s, d := b[i].nodes[steps[i].n], b[i + 1].nodes[steps[i].n].disk;
            forall a {:trigger a in b[i + 1].h.acks} :: a in b[i + 1].h.acks && a !in b[i].h.acks ==>
              && a.node == steps[i].n && a.term <= d.term && AckOk(b[i + 1].h, a)
              && (Reigned(b[i + 1].h, a.term, a.len) <= d.log <==>
                    (AlreadyCommitted(s, steps[i]) ==> steps[i].chunk.prefix <= s.log))
    ensures var s := b[i].nodes[steps[i].n];
            CarefulRun(b, steps) && AlreadyCommitted(s, steps[i]) ==> steps[i].chunk.prefix <= s.log
  {
    StepPromises(b, steps, i);
    var c, step := b[i].(h := Ticked(b[i].h)), steps[i];
    RunRooted(b, steps, i);
    TickRooted(b[i]);
    StaysEnabled(b[i], step);
    hide Rooted, Act, Initial, Enabled;
    ActAcks(c, step);
    if CarefulRun(b, steps) && AlreadyCommitted(b[i].nodes[step.n], step) {
      CommittedIsHad(b, steps, i);
    }
  }

  lemma CommittedIsHad(b: seq<State>, steps: seq<Step>, i: nat)
    requires CarefulRun(b, steps) && i < |steps|
    ensures steps[i].n in b[i].nodes
    ensures var s := b[i].nodes[steps[i].n]; AlreadyCommitted(s, steps[i]) ==> steps[i].chunk.prefix <= s.log
  {
    if AlreadyCommitted(b[i].nodes[steps[i].n], steps[i]) {
      SnapshotAgrees(b, steps, i, steps[i].n, steps[i].chunk);
    }
  }

  /** A restart finds on disk all that the node ever promised, whenever its files can be loaded:
      it stands by its votes, and has what it acknowledged unless a later leader has replaced
      it. `Disks.LoadableExactlyIf` says when the files can be loaded. */
  lemma RestartKeepsPromises(b: seq<State>, steps: seq<Step>, i: nat, n: Id)
    requires Run(b, steps) && i < |b| && n in b[i].nodes && b[i].nodes[n].disk.loadable
    ensures Enabled(b[i], Reboot(n))
    ensures VoteInv(b[i].h, n, Restart(b[i].nodes[n].disk))
    ensures CarefulRun(b, steps) ==> AckInv(b[i].h, n, Restart(b[i].nodes[n].disk))
  {
    RunRooted(b, steps, i);
    RestartRooted(b[i].h, n, b[i].nodes[n]);
    if CarefulRun(b, steps) {
      RunKeeps(b, steps, i);
      RestartKeeps(b[i].h, n, b[i].nodes[n]);
    }
  }

  // ------------------------------------------------------------ fail closed

  ghost predicate StaysSilent(c: State, c': State, n: Id) {
    n in c'.nodes && c'.nodes[n].fatal && c'.nodes[n].role.Follower? && c'.h == c.h
  }

  lemma FatalRefuses(c: State, step: Step)
    requires Enabled(c, step) && c.nodes[step.n].fatal && c.nodes[step.n].role.Follower?
    requires step.Campaign? || step.AnswerVote? || step.Lead? || step.Submit? || step.AnswerAppend? ||
             step.AnswerChunk? || step.FinishChunk?
    ensures StaysSilent(c, Act(c, step), step.n)
  {
    hide LeaderAppend, Follow, AppendAsFollower, InstallAsFollower, GiveVote, BecomeFollower, TakeChunk;
  }

  lemma FatalGoesOn(c: State, step: Step)
    requires Enabled(c, step) && c.nodes[step.n].fatal && c.nodes[step.n].role.Follower?
    requires step.StepDown? || step.ApplyEntry? || step.WriteSnapshot? || step.DropEntries?
    ensures StaysSilent(c, Act(c, step), step.n)
  {
    hide LogAfterSnapshot, SaveHard;
  }

  lemma FatalActs(c: State, step: Step)
    requires Enabled(c, step) && c.nodes[step.n].fatal && c.nodes[step.n].role.Follower? && !step.Reboot?
    ensures StaysSilent(c, Act(c, step), step.n)
  {
    hide StaysSilent, Act;
    if step.StepDown? || step.ApplyEntry? || step.WriteSnapshot? || step.DropEntries? {
      FatalGoesOn(c, step);
    } else {
      FatalRefuses(c, step);
    }
  }

  /** Fail closed: from a store failure to its next restart a node does not lead or campaign,
      grants no vote and acknowledges nothing. */
  lemma {:induction false} FatalIsSilent(b: seq<State>, steps: seq<Step>, i: nat, j: nat, n: Id)
    requires Run(b, steps) && i <= j < |b| && n in b[i].nodes && b[i].nodes[n].fatal
    requires forall k {:trigger steps[k]} :: i <= k < j ==> !(steps[k].Reboot? && steps[k].n == n)
    ensures n in b[j].nodes && b[j].nodes[n].fatal && b[j].nodes[n].role.Follower?
    ensures forall v {:trigger v in b[j].h.votes} :: v in b[j].h.votes && v !in b[i].h.votes ==> v.voter != n
    ensures forall a {:trigger a in b[j].h.acks} :: a in b[j].h.acks && a !in b[i].h.acks ==> a.node != n
    decreases j
  {
    hide Act, Initial, Rooted;
    if i < j {
      var c, step := b[j - 1], steps[j - 1];
      FatalIsSilent(b, steps, i, j - 1, n);
      RunRooted(b, steps, j - 1);
      StepRooted(c, step);
      if step.n == n {
        FatalActs(c.(h := Ticked(c.h)), step);
      } else {
        OthersUntouched(c, step, n);
      }
    } else {
      RunRooted(b, steps, i);
      FatalFollows(b[i], n);
    }
  }

  lemma FatalFollows(c: State, n: Id)
    requires Rooted(c) && n in c.nodes && c.nodes[n].fatal
    ensures c.nodes[n].role.Follower?
  {
  }

  lemma OthersUntouched(c: State, step: Step, n: Id)
    requires Enabled(c, step) && n in c.nodes && n != step.n
    ensures n in Take(c, step).nodes && Take(c, step).nodes[n] == c.nodes[n]
  {
    hide StartElection, HandleVote, BecomeLeader, Propose, MakeAppend, HandleAppend, ReceiveAck, BecomeFollower,
         HandleChunk, FinishInstall;
    hide ApplyNext, SaveSnapshot, FinishSnapshot, Restart, Granting, AfterWin, AfterPropose, AfterAppendRequest,
         AfterReceive, AfterChunk;
  }
}
