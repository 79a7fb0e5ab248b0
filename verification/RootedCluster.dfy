/** Elections and logs are sound in every state of a cluster, whatever its compactions do. */
module RootedCluster {
  import opened Logs
  import opened History
  import opened Protocol
  import opened Invariant
  import opened Growth
  import opened VoteSteps
  import opened LeaderSteps
  import opened FollowerSteps
  import opened Cluster
  import opened Roots

  ghost predicate MessagesRooted(c: State) {
    && (forall m {:trigger AppendRooted(c.h, m)} :: m in c.appends ==> AppendRooted(c.h, m))
    && (forall m {:trigger ChunkRooted(c.h, m)} :: m in c.chunks ==> ChunkRooted(c.h, m))
  }

  ghost predicate NodesRooted(c: State) {
    && c.nodes.Keys == c.h.members
    && (forall n {:trigger NodeRooted(c.h, n, c.nodes[n])} {:trigger c.nodes[n]} ::
          n in c.nodes ==> NodeRooted(c.h, n, c.nodes[n]))
  }

  ghost predicate Rooted(c: State) {
    RootsOk(c.h) && NodesRooted(c) && MessagesRooted(c)
  }

  lemma AppendRootedGrows(h: Record, h': Record, n: Id, m: AppendRequest)
    requires Grows(h, h', n) && AppendRooted(h, m)
    ensures AppendRooted(h', m)
  {
    assert ReignGrows(h, h', n, m.term);
    assert h.reign[m.term].log == h'.reign[m.term].log[..|h.reign[m.term].log|];
  }

  lemma MessagesGrowRooted(c: State, c': State, n: Id)
    requires MessagesRooted(c) && Grows(c.h, c'.h, n) && c'.appends == c.appends && c'.chunks == c.chunks
    ensures MessagesRooted(c')
  {
    forall m | m in c'.appends
      ensures AppendRooted(c'.h, m)
    {
      assert AppendRooted(c.h, m);
      AppendRootedGrows(c.h, c'.h, n, m);
    }
    forall m | m in c'.chunks
      ensures ChunkRooted(c'.h, m)
    {
      assert ChunkRooted(c.h, m);
      assert ReignGrows(c.h, c'.h, n, m.term);
      PrefixTrans(m.prefix, c.h.reign[m.term].log, c'.h.reign[m.term].log);
    }
  }

  lemma RootedNode(c: State, n: Id)
    requires Rooted(c) && n in c.nodes
    ensures RootsOk(c.h) && NodeRooted(c.h, n, c.nodes[n])
  {
  }

  /** A step of node n that keeps n rooted keeps the cluster rooted. */
  lemma SettleRooted(c: State, n: Id, s: Node, h: Record)
    requires Rooted(c) && n in c.nodes && RootsOk(h) && Grows(c.h, h, n) && NodeRooted(h, n, s)
    ensures Rooted(Cluster.Put(c, n, s, h))
  {
    hide NodeRooted, MessagesRooted, RootsOk, Grows;
    var c' := Cluster.Put(c, n, s, h);
    MessagesGrowRooted(c, c', n);
    GrowsMembers(c.h, h, n);
    forall m | m in c'.nodes
      ensures NodeRooted(c'.h, m, c'.nodes[m])
    {
      if m != n {
        BystanderRooted(c.h, h, n, m, c.nodes[m]);
      }
    }
  }

  lemma TickRooted(c: State)
    requires Rooted(c)
    ensures Rooted(c.(h := Ticked(c.h)))
  {
    hide NodeRooted, MessagesRooted;
    var c' := c.(h := Ticked(c.h));
    TickRoots(c.h, "");
    MessagesGrowRooted(c, c', "");
    forall n | n in c'.nodes
      ensures NodeRooted(c'.h, n, c'.nodes[n])
    {
      TickRoots(c.h, n + "'");
      BystanderRooted(c.h, c'.h, n + "'", n, c.nodes[n]);
    }
  }

  lemma TickRoots(h: Record, n: Id)
    requires RootsOk(h)
    ensures RootsOk(Ticked(h)) && Grows(h, Ticked(h), n)
  {
    assert forall t :: t in h.reign ==> ReignGrows(h, Ticked(h), n, t);
    ReignsCarry(h, Ticked(h), n);
    RootsCarry(h, Ticked(h), n);
  }

  /** A leader sends its own log and its own snapshot. */
  lemma SendRooted(c: State, step: Step)
    requires Rooted(c) && Enabled(c, step) && (step.SendAppend? || step.SendChunk?)
    ensures Rooted(Act(c, step))
  {
    assert NodeRooted(c.h, step.n, c.nodes[step.n]);
    hide NodeRooted, RootsOk;
    LeaderReigns(c.h, step.n, c.nodes[step.n]);
  }

  lemma LeaderReigns(h: Record, n: Id, s: Node)
    requires NodeRooted(h, n, s) && s.role.Leader?
    ensures Reigning(h, n, s)
  {
  }

  lemma ElectionStepRooted(c: State, step: Step)
    requires Rooted(c) && Enabled(c, step) && c.h.time > 0 && (step.Campaign? || step.AnswerVote? || step.Lead?)
    ensures Rooted(Act(c, step)) && Grows(c.h, Act(c, step).h, step.n)
  {
    var n, s, h, peers := step.n, c.nodes[step.n], c.h, PeersOf(c, step.n);
    if step.Lead? {
      LedRooted(c, step);
    }
    hide NodeRooted, RootsOk, Grows, MessagesRooted, StartElection, HandleVote, BecomeLeader, AfterWin;
    match step
    case Campaign(_, io) =>
      CampaignKeepsRoots(h, n, s, io);
      SettleRooted(c, n, StartElection(s, n, io).0, Act(c, step).h);
    case AnswerVote(_, r, ioTerm, ioVote) =>
      var m := VoteRequest(r.term, r.cand, |r.candLog|, LastTerm(r.candLog));
      VoteHandledRoots(h, n, s, r, m, ioTerm, ioVote);
      SettleRooted(c, n, HandleVote(s, m, ioTerm, ioVote).0, Act(c, step).h);
    case Lead(_, ballots, ioAdd, ioCommit) =>
      LeadRoots(h, n, s, peers, ballots, ioAdd, ioCommit);
      SettleRooted(c, n, BecomeLeader(s, n, peers, ioAdd, ioCommit), Act(c, step).h);
  }

  lemma LedRooted(c: State, step: Step)
    requires Rooted(c) && Enabled(c, step) && step.Lead?
    ensures WonBy(c.h, c.nodes[step.n].term, step.n, c.nodes[step.n].log, step.ballots)
  {
    assert NodeRooted(c.h, step.n, c.nodes[step.n]);
    GrantedIsWon(c.h, step.n, c.nodes[step.n], step.ballots);
  }

  lemma LogStepRooted(c: State, step: Step)
    requires Rooted(c) && Enabled(c, step)
    requires step.Submit? || step.HearAck? || step.AnswerAppend? || step.AnswerChunk? || step.FinishChunk?
    ensures Rooted(Act(c, step)) && Grows(c.h, Act(c, step).h, step.n)
  {
    var n, s, h, peers := step.n, c.nodes[step.n], c.h, PeersOf(c, step.n);
    hide NodeRooted, RootsOk, Grows, AppendRooted, ChunkRooted;
    hide Propose, AfterPropose, ReceiveAck, AfterReceive, HandleAppend, AfterAppendRequest, HandleChunk,
         FinishInstall, AfterChunk;
    match step
    case Submit(_, command, ioAdd, ioCommit) =>
      ProposeRoots(h, n, s, peers, command, ioAdd, ioCommit);
      SettleRooted(c, n, Propose(s, n, peers, command, ioAdd, ioCommit).0, Act(c, step).h);
    case HearAck(_, a, advance, ioCommit) =>
      HearRoots(h, n, s, a.node, a.len, peers, advance, ioCommit);
      SettleRooted(c, n, ReceiveAck(s, a.node, a.len, peers, advance, ioCommit), Act(c, step).h);
    case AnswerAppend(_, m, ioTerm, ioAdd, ioSwap, ioCommit) =>
      assert AppendRooted(h, m);
      AppendHandledRoots(h, n, s, m, ioTerm, ioAdd, ioSwap, ioCommit);
      SettleRooted(c, n, HandleAppend(s, m, ioTerm, ioAdd, ioSwap, ioCommit).0, Act(c, step).h);
    case AnswerChunk(_, m, ioTerm) =>
      assert ChunkRooted(h, m);
      ChunkHandledRoots(h, n, s, m, ioTerm);
      SettleRooted(c, n, HandleChunk(s, m, ioTerm).0, Act(c, step).h);
    case FinishChunk(_, m, ioTerm, ioSnap, ioLog, ioHard) =>
      assert ChunkRooted(h, m);
      InstallHandledRoots(h, n, s, m, ioTerm, ioSnap, ioLog, ioHard);
      SettleRooted(c, n, FinishInstall(s, m, ioTerm, ioSnap, ioLog, ioHard).0, Act(c, step).h);
  }

  lemma CompactionStepRooted(c: State, step: Step)
    requires Rooted(c) && Enabled(c, step) && (step.ApplyEntry? || step.WriteSnapshot? || step.DropEntries?)
    ensures Rooted(Act(c, step)) && Act(c, step).h == c.h
  {
    hide Rooted, NodeRooted, RootsOk, Grows, ApplyNext, SaveSnapshot, FinishSnapshot;
    hide StartElection, HandleVote, BecomeLeader, Propose, ReceiveAck, HandleAppend, HandleChunk, FinishInstall;
    var n, s, h := step.n, c.nodes[step.n], c.h;
    RootedNode(c, n);
    GrowsRefl(h, n);
    match step
    case ApplyEntry(_) =>
      ApplyRooted(h, n, s);
      SettleRooted(c, n, ApplyNext(s), h);
    case WriteSnapshot(_, io) =>
      SaveRooted(h, n, s, io);
      SettleRooted(c, n, SaveSnapshot(s, io), h);
    case DropEntries(_, io) =>
      DropRooted(h, n, s, io);
      SettleRooted(c, n, FinishSnapshot(s, io), h);
  }

  lemma RoleStepRooted(c: State, step: Step)
    requires Rooted(c) && Enabled(c, step) && (step.StepDown? || step.Reboot?)
    ensures Rooted(Act(c, step)) && Act(c, step).h == c.h
  {
    hide Rooted, NodeRooted, RootsOk, Grows, BecomeFollower, Restart;
    hide StartElection, HandleVote, BecomeLeader, Propose, ReceiveAck, HandleAppend, HandleChunk, FinishInstall;
    var n, s, h := step.n, c.nodes[step.n], c.h;
    RootedNode(c, n);
    GrowsRefl(h, n);
    match step
    case StepDown(_, term, io) =>
      FollowerRooted(h, n, s, term, io);
      SettleRooted(c, n, BecomeFollower(s, term, io), h);
    case Reboot(_) =>
      RestartRooted(h, n, s);
      SettleRooted(c, n, Restart(s.disk), h);
  }

  /** Every enabled step keeps elections and logs sound, and the history only grows. */
  lemma StepRooted(c: State, step: Step)
    requires Rooted(c) && Enabled(c, step)
    ensures Rooted(Take(c, step)) && Grows(c.h, Take(c, step).h, step.n)
  {
    hide Rooted, RootsOk, Grows, Enabled, Act;
    var t := c.(h := Ticked(c.h));
    StaysEnabled(c, step);
    RootedHistory(c);
    TickRooted(c);
    TickRoots(c.h, step.n);
    ActRooted(t, step);
    GrowsTrans(c.h, t.h, Act(t, step).h, step.n);
  }

  lemma StaysEnabled(c: State, step: Step)
    requires Enabled(c, step)
    ensures Enabled(c.(h := Ticked(c.h)), step)
  {
  }

  lemma RootedHistory(c: State)
    requires Rooted(c)
    ensures RootsOk(c.h)
  {
  }

  lemma ActRooted(t: State, step: Step)
    requires Rooted(t) && Enabled(t, step) && t.h.time > 0
    ensures Rooted(Act(t, step)) && Grows(t.h, Act(t, step).h, step.n)
  {
    GrowsRefl(t.h, step.n);
    if step.Campaign? || step.AnswerVote? || step.Lead? {
      ElectionStepRooted(t, step);
    } else if step.SendAppend? || step.SendChunk? {
      SendRooted(t, step);
    } else if step.ApplyEntry? || step.WriteSnapshot? || step.DropEntries? {
      CompactionStepRooted(t, step);
    } else if step.StepDown? || step.Reboot? {
      RoleStepRooted(t, step);
    } else {
      LogStepRooted(t, step);
    }
    hide Rooted, Grows;
  }

  lemma InitialRooted(c: State)
    requires Initial(c)
    ensures Rooted(c)
  {
  }
}
