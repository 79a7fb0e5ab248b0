/** A cluster of nodes and its network as a step system. Requests once sent stay in the network for
    ever, so they may be delivered late, out of order, many times or never. Any store call of any
    step may fail, and a node whose files can be loaded may restart after any step. */
module Cluster {
  import opened Logs
  import opened History
  import opened Protocol
  import opened Invariant
  import opened NodeSteps
  import opened Growth
  import opened VoteSteps
  import opened LeaderSteps
  import opened FollowerSteps
  import opened DiskSteps

  datatype State = State(
    nodes: map<Id, Node>,
    appends: set<AppendRequest>,
    chunks: set<ChunkRequest>,
    h: Record)

  datatype Step =
    | Campaign(n: Id, io: Outcome)
    | AnswerVote(n: Id, request: Vote, ioTerm: Outcome, ioVote: Outcome)
    | Lead(n: Id, ballots: map<Id, Vote>, ioAdd: AppendOutcome, ioCommit: Outcome)
    | Submit(n: Id, command: Command, ioAdd: AppendOutcome, ioCommit: Outcome)
    | SendAppend(n: Id, next: nat)
    | AnswerAppend(n: Id, append: AppendRequest, ioTerm: Outcome, ioAdd: AppendOutcome, ioSwap: Outcome,
        ioCommit: Outcome)
    | HearAck(n: Id, ack: Ack, advance: bool, ioCommit: Outcome)
    | StepDown(n: Id, term: nat, io: Outcome)
    | SendChunk(n: Id, offset: nat, end: nat, done: bool)
    | AnswerChunk(n: Id, chunk: ChunkRequest, ioTerm: Outcome)
    | FinishChunk(n: Id, chunk: ChunkRequest, ioTerm: Outcome, ioSnap: Outcome, ioLog: Outcome, ioHard: Outcome)
    | ApplyEntry(n: Id)
    | WriteSnapshot(n: Id, io: Outcome)
    | DropEntries(n: Id, io: Outcome)
    | Reboot(n: Id)

  ghost predicate Initial(c: State) {
    && c.nodes.Keys == c.h.members
    && (forall n :: n in c.nodes ==> c.nodes[n] == Blank)
    && c.appends == {} && c.chunks == {}
    && c.h == Record(c.h.members, map[], {}, {}, {}, 0)
  }

  function PeersOf(c: State, n: Id): set<Id> {
    c.h.members - {n}
  }

  /** Votes for node n in term t, one per voter. */
  ghost predicate Granted(h: Record, t: nat, n: Id, ballots: map<Id, Vote>) {
    && IsQuorum(h.members, ballots.Keys)
    && (forall p {:trigger ballots[p]} :: p in ballots ==>
          ballots[p] in h.votes && ballots[p].voter == p && ballots[p].term == t && ballots[p].cand == n)
  }

  /** When a step may happen. A reply with a higher term may name any term. */
  ghost predicate Enabled(c: State, step: Step) {
    step.n in c.nodes &&
    var s := c.nodes[step.n];
    match step
    case AnswerVote(n, r, _, _) => r in c.h.votes && r.voter == r.cand != n
    case Lead(n, ballots, _, _) => s.role.Candidate? && Granted(c.h, s.term, n, ballots)
    case SendAppend(n, next) => s.role.Leader? && s.snap < next <= |s.log| + 1
    case AnswerAppend(n, m, _, _, _, _) => m in c.appends && m.leader != n
    case HearAck(n, a, _, _) => s.role.Leader? && a in c.h.acks && a.node in PeersOf(c, n) && a.term == s.term
    case SendChunk(n, offset, end, _) => s.role.Leader? && 0 < s.snap <= |s.log| && offset <= end
    case AnswerChunk(n, m, _) => m in c.chunks && m.leader != n && s.saving == 0
    case FinishChunk(n, m, _, _, _, _) => m in c.chunks && m.leader != n && s.saving == 0
    case Reboot(n) => s.disk.loadable
    case _ => true
  }

  function Ticked(h: Record): Record {
    h.(time := h.time + 1)
  }

  function Put(c: State, n: Id, s: Node, h: Record): State {
    c.(nodes := c.nodes[n := s], h := h)
  }

  /** The state after an enabled step. */
  ghost function Take(c: State, step: Step): State
    requires Enabled(c, step)
  {
    Act(c.(h := Ticked(c.h)), step)
  }

  ghost function Act(c: State, step: Step): State
    requires Enabled(c, step)
  {
    var n := step.n;
    var s := c.nodes[n];
    var h := c.h;
    var peers := PeersOf(c, n);
    match step
    case Campaign(_, io) =>
      var (s', started) := StartElection(s, n, io);
      Put(c, n, s', Granting(h, started, OwnVote(h, n, s)))
    case AnswerVote(_, r, ioTerm, ioVote) =>
      var m := VoteRequest(r.term, r.cand, |r.candLog|, LastTerm(r.candLog));
      var (s', granted) := HandleVote(s, m, ioTerm, ioVote);
      Put(c, n, s', Granting(h, granted, CastVote(h, n, s, r)))
    case Lead(_, ballots, ioAdd, ioCommit) =>
      Put(c, n, BecomeLeader(s, n, peers, ioAdd, ioCommit), AfterWin(h, n, s, peers, ballots, ioAdd))
    case Submit(_, command, ioAdd, ioCommit) =>
      Put(c, n, Propose(s, n, peers, command, ioAdd, ioCommit).0, AfterPropose(h, n, s, peers, command, ioAdd))
    case SendAppend(_, next) =>
      c.(appends := c.appends + {MakeAppend(s, n, next)})
    case AnswerAppend(_, m, ioTerm, ioAdd, ioSwap, ioCommit) =>
      var (s', reply) := HandleAppend(s, m, ioTerm, ioAdd, ioSwap, ioCommit);
      Put(c, n, s', AfterAppendRequest(h, n, m, reply))
    case HearAck(_, a, advance, ioCommit) =>
      Put(c, n, ReceiveAck(s, a.node, a.len, peers, advance, ioCommit),
          AfterReceive(h, n, s, a.node, a.len, peers, advance))
    case StepDown(_, term, io) =>
      Put(c, n, BecomeFollower(s, term, io), h)
    case SendChunk(_, offset, end, done) =>
      c.(chunks := c.chunks + {ChunkRequest(s.term, n, s.log[..s.snap], offset, end, done)})
    case AnswerChunk(_, m, ioTerm) =>
      var (s', reply) := HandleChunk(s, m, ioTerm);
      Put(c, n, s', AfterChunk(h, n, m, reply))
    case FinishChunk(_, m, ioTerm, ioSnap, ioLog, ioHard) =>
      var (s', reply) := FinishInstall(s, m, ioTerm, ioSnap, ioLog, ioHard);
      Put(c, n, s', AfterChunk(h, n, m, reply))
    case ApplyEntry(_) => Put(c, n, ApplyNext(s), h)
    case WriteSnapshot(_, io) => Put(c, n, SaveSnapshot(s, io), h)
    case DropEntries(_, io) => Put(c, n, FinishSnapshot(s, io), h)
    case Reboot(_) => Put(c, n, Restart(s.disk), h)
  }

  /** No compaction starts while the log file on disk begins after what the node has applied.
      That situation is left behind by a snapshot install that failed after its second write. */
  ghost predicate Careful(c: State, step: Step)
    requires Enabled(c, step)
  {
    step.WriteSnapshot? ==> c.nodes[step.n].disk.base <= c.nodes[step.n].applied
  }

  // ------------------------------------------------------------ the invariant

  ghost predicate MessagesOk(c: State) {
    && (forall m {:trigger AppendOk(c.h, m)} :: m in c.appends ==> AppendOk(c.h, m))
    && (forall m {:trigger ChunkOk(c.h, m)} :: m in c.chunks ==> ChunkOk(c.h, m))
  }

  ghost predicate NodesOk(c: State) {
    && c.nodes.Keys == c.h.members
    && (forall n {:trigger NodeInv(c.h, n, c.nodes[n])} {:trigger c.nodes[n]} :: n in c.nodes ==>
        NodeInv(c.h, n, c.nodes[n]))
  }

  ghost predicate StateOk(c: State) {
    HistoryOk(c.h) && NodesOk(c) && MessagesOk(c)
  }

  lemma AppendOkGrows(h: Record, h': Record, n: Id, m: AppendRequest)
    requires Grows(h, h', n) && AppendOk(h, m)
    ensures AppendOk(h', m)
  {
    assert ReignGrows(h, h', n, m.term);
    var before, after := h.reign[m.term].log, h'.reign[m.term].log;
    assert before == after[..|before|];
    assert after[..m.commit] == before[..m.commit];
    CommittedGrows(h, h', n, before[..m.commit], m.term);
  }

  lemma ChunkOkGrows(h: Record, h': Record, n: Id, m: ChunkRequest)
    requires Grows(h, h', n) && ChunkOk(h, m)
    ensures ChunkOk(h', m)
  {
  }

  lemma MessagesGrow(c: State, c': State, n: Id)
    requires MessagesOk(c) && Grows(c.h, c'.h, n)
    requires c'.appends == c.appends && c'.chunks == c.chunks
    ensures MessagesOk(c')
  {
    forall m | m in c'.appends
      ensures AppendOk(c'.h, m)
    {
      assert AppendOk(c.h, m);
      AppendOkGrows(c.h, c'.h, n, m);
    }
    forall m | m in c'.chunks
      ensures ChunkOk(c'.h, m)
    {
      assert ChunkOk(c.h, m);
      ChunkOkGrows(c.h, c'.h, n, m);
    }
  }

  /** A step of node n that is sound for n is sound for the cluster. */
  lemma Settle(c: State, n: Id, s: Node, h: Record)
    requires StateOk(c) && n in c.nodes
    requires HistoryOk(h) && Grows(c.h, h, n) && NodeInv(h, n, s)
    ensures StateOk(Put(c, n, s, h))
  {
    var c' := Put(c, n, s, h);
    hide NodeInv, MessagesOk, HistoryOk, ReignsOk, Grows;
    HistoryReigns(c.h);
    HistoryReigns(h);
    MessagesGrow(c, c', n);
    assert h.members == c.h.members by { GrowsMembers(c.h, h, n); }
    forall m | m in c'.nodes
      ensures NodeInv(c'.h, m, c'.nodes[m])
    {
      if m != n {
        Bystander(c.h, h, n, m, c.nodes[m]);
      }
    }
  }

  lemma GrowsMembers(h: Record, h': Record, n: Id)
    requires Grows(h, h', n)
    ensures h'.members == h.members
  {
  }

  /** Letting time pass changes nothing. */
  lemma TickKeeps(c: State)
    requires StateOk(c)
    ensures StateOk(c.(h := Ticked(c.h))) && JustTicked(Ticked(c.h))
  {
    hide NodeInv;
    var c' := c.(h := Ticked(c.h));
    forall n | n in c'.nodes
      ensures NodeInv(c'.h, n, c'.nodes[n])
    {
      Tick(c.h, n + "'");
      Bystander(c.h, c'.h, n + "'", n, c.nodes[n]);
    }
    Tick(c.h, "");
    MessagesGrow(c, c', "");
    forall a | a in c.h.acks
      ensures a.at < c.h.time
    {
      assert AckOk(c.h, a);
    }
  }

  // ------------------------------------------------------------ each step keeps it

  lemma CampaignKeeps(c: State, step: Step)
    requires StateOk(c) && Enabled(c, step) && step.Campaign? && JustTicked(c.h)
    ensures var (s', started) := StartElection(c.nodes[step.n], step.n, step.io);
            var h' := Granting(c.h, started, OwnVote(c.h, step.n, c.nodes[step.n]));
            StateOk(Put(c, step.n, s', h')) && Grows(c.h, h', step.n)
  {
    hide HistoryOk, NodeInv, MessagesOk, StartElection;
    var (s', started) := StartElection(c.nodes[step.n], step.n, step.io);
    ElectionStarts(c.h, step.n, c.nodes[step.n], step.io);
    Settle(c, step.n, s', Granting(c.h, started, OwnVote(c.h, step.n, c.nodes[step.n])));
  }

  lemma AnswerVoteKeeps(c: State, step: Step)
    requires StateOk(c) && Enabled(c, step) && step.AnswerVote? && JustTicked(c.h)
    ensures var r := step.request;
            var m := VoteRequest(r.term, r.cand, |r.candLog|, LastTerm(r.candLog));
            var (s', granted) := HandleVote(c.nodes[step.n], m, step.ioTerm, step.ioVote);
            var h' := Granting(c.h, granted, CastVote(c.h, step.n, c.nodes[step.n], r));
            StateOk(Put(c, step.n, s', h')) && Grows(c.h, h', step.n)
  {
    hide HistoryOk, NodeInv, MessagesOk, HandleVote;
    var r := step.request;
    var m := VoteRequest(r.term, r.cand, |r.candLog|, LastTerm(r.candLog));
    var (s', granted) := HandleVote(c.nodes[step.n], m, step.ioTerm, step.ioVote);
    VoteHandled(c.h, step.n, c.nodes[step.n], r, m, step.ioTerm, step.ioVote);
    Settle(c, step.n, s', Granting(c.h, granted, CastVote(c.h, step.n, c.nodes[step.n], r)));
  }

  /** All votes for a candidate in its term are for the log it still has. */
  lemma GrantedIsWon(h: Record, n: Id, s: Node, ballots: map<Id, Vote>)
    requires RootsOk(h) && CandidateInv(h, n, s) && Granted(h, s.term, n, ballots)
    ensures WonBy(h, s.term, n, s.log, ballots)
  {
    var v :| v in h.votes && v.voter == n && v.cand == n && v.term == s.term && v.candLog == s.log;
    forall p | p in ballots
      ensures ballots[p].candLog == s.log
    {
      assert VotePair(v, ballots[p]);
    }
  }

  lemma CandidateWins(h: Record, n: Id, s: Node, ballots: map<Id, Vote>)
    requires HistoryOk(h) && NodeInv(h, n, s) && s.role.Candidate? && Granted(h, s.term, n, ballots)
    ensures WonBy(h, s.term, n, s.log, ballots)
  {
    GrantedIsWon(h, n, s, ballots);
  }

  lemma LeadKeeps(c: State, step: Step)
    requires StateOk(c) && Enabled(c, step) && step.Lead? && c.h.time > 0
    ensures var s := c.nodes[step.n];
            var peers := PeersOf(c, step.n);
            var h' := AfterWin(c.h, step.n, s, peers, step.ballots, step.ioAdd);
            && StateOk(Put(c, step.n, BecomeLeader(s, step.n, peers, step.ioAdd, step.ioCommit), h'))
            && Grows(c.h, h', step.n)
  {
    hide HistoryOk, NodeInv, MessagesOk, BecomeLeader, AfterWin;
    var s := c.nodes[step.n];
    var peers := PeersOf(c, step.n);
    CandidateWins(c.h, step.n, s, step.ballots);
    Won(c.h, step.n, s, peers, step.ballots, step.ioAdd, step.ioCommit);
    Settle(c, step.n, BecomeLeader(s, step.n, peers, step.ioAdd, step.ioCommit),
           AfterWin(c.h, step.n, s, peers, step.ballots, step.ioAdd));
  }

  lemma SubmitKeeps(c: State, step: Step)
    requires StateOk(c) && Enabled(c, step) && step.Submit? && c.h.time > 0
    ensures var s := c.nodes[step.n];
            var peers := PeersOf(c, step.n);
            var h' := AfterPropose(c.h, step.n, s, peers, step.command, step.ioAdd);
            && StateOk(Put(c, step.n, Propose(s, step.n, peers, step.command, step.ioAdd, step.ioCommit).0, h'))
            && Grows(c.h, h', step.n)
  {
    hide HistoryOk, NodeInv, MessagesOk, Propose, AfterPropose;
    var s := c.nodes[step.n];
    var peers := PeersOf(c, step.n);
    Proposed(c.h, step.n, s, peers, step.command, step.ioAdd, step.ioCommit);
    Settle(c, step.n, Propose(s, step.n, peers, step.command, step.ioAdd, step.ioCommit).0,
           AfterPropose(c.h, step.n, s, peers, step.command, step.ioAdd));
  }

  lemma SendAppendKeeps(c: State, step: Step)
    requires StateOk(c) && Enabled(c, step) && step.SendAppend?
    ensures StateOk(c.(appends := c.appends + {MakeAppend(c.nodes[step.n], step.n, step.next)}))
  {
    hide AppendOk, ChunkOk, NodeInv, HistoryOk;
    var s := c.nodes[step.n];
    assert NodeInv(c.h, step.n, s);
    MadeAppendOk(c.h, step.n, s, step.next);
  }

  /** What a leader sends is its own log from some index on, and what it says is committed is. */
  lemma MadeAppendOk(h: Record, n: Id, s: Node, next: nat)
    requires NodeInv(h, n, s) && s.role.Leader? && 1 <= next <= |s.log| + 1
    ensures AppendOk(h, MakeAppend(s, n, next))
  {
  }

  lemma AnswerAppendKeeps(c: State, step: Step)
    requires StateOk(c) && Enabled(c, step) && step.AnswerAppend? && c.h.time > 0
    ensures var (s', reply) := HandleAppend(c.nodes[step.n], step.append, step.ioTerm, step.ioAdd, step.ioSwap,
            step.ioCommit);
            var h' := AfterAppendRequest(c.h, step.n, step.append, reply);
            StateOk(Put(c, step.n, s', h')) && Grows(c.h, h', step.n)
  {
    hide HistoryOk, NodeInv, HandleAppend, AppendOk;
    var (s', reply) := HandleAppend(c.nodes[step.n], step.append, step.ioTerm, step.ioAdd, step.ioSwap, step.ioCommit);
    assert AppendOk(c.h, step.append);
    AppendHandled(c.h, step.n, c.nodes[step.n], step.append, step.ioTerm, step.ioAdd, step.ioSwap, step.ioCommit);
    Settle(c, step.n, s', AfterAppendRequest(c.h, step.n, step.append, reply));
  }

  lemma HearAckKeeps(c: State, step: Step)
    requires StateOk(c) && Enabled(c, step) && step.HearAck?
    ensures var s := c.nodes[step.n];
            var peers := PeersOf(c, step.n);
            var h' := AfterReceive(c.h, step.n, s, step.ack.node, step.ack.len, peers, step.advance);
            && StateOk(Put(c, step.n, ReceiveAck(s, step.ack.node, step.ack.len, peers, step.advance, step.ioCommit),
                h'))
            && Grows(c.h, h', step.n)
  {
    hide HistoryOk, NodeInv, MessagesOk, ReceiveAck, AfterReceive;
    var s := c.nodes[step.n];
    var peers := PeersOf(c, step.n);
    assert Acked(c.h, step.ack.node, s.term, step.ack.len);
    AckReceived(c.h, step.n, s, step.ack.node, step.ack.len, peers, step.advance, step.ioCommit);
    Settle(c, step.n, ReceiveAck(s, step.ack.node, step.ack.len, peers, step.advance, step.ioCommit),
           AfterReceive(c.h, step.n, s, step.ack.node, step.ack.len, peers, step.advance));
  }

  lemma SendChunkKeeps(c: State, step: Step)
    requires StateOk(c) && Enabled(c, step) && step.SendChunk?
    ensures var s := c.nodes[step.n];
            StateOk(c.(chunks := c.chunks + {ChunkRequest(s.term, step.n, s.log[..s.snap], step.offset, step.end,
                step.done)}))
  {
    hide AppendOk, ChunkOk, NodeInv, HistoryOk;
    var s := c.nodes[step.n];
    assert NodeInv(c.h, step.n, s);
    MadeChunkOk(c.h, step.n, s, step.offset, step.end, step.done);
  }

  /** What a leader sends as its snapshot is a committed prefix of its log. */
  lemma MadeChunkOk(h: Record, n: Id, s: Node, offset: nat, end: nat, done: bool)
    requires NodeInv(h, n, s) && s.role.Leader? && 0 < s.snap <= |s.log|
    ensures ChunkOk(h, ChunkRequest(s.term, n, s.log[..s.snap], offset, end, done))
  {
  }

  lemma AnswerChunkKeeps(c: State, step: Step)
    requires StateOk(c) && Enabled(c, step) && step.AnswerChunk? && c.h.time > 0
    ensures var (s', reply) := HandleChunk(c.nodes[step.n], step.chunk, step.ioTerm);
            var h' := AfterChunk(c.h, step.n, step.chunk, reply);
            StateOk(Put(c, step.n, s', h')) && Grows(c.h, h', step.n)
  {
    hide HistoryOk, NodeInv, HandleChunk, ChunkOk;
    var (s', reply) := HandleChunk(c.nodes[step.n], step.chunk, step.ioTerm);
    assert ChunkOk(c.h, step.chunk);
    ChunkHandled(c.h, step.n, c.nodes[step.n], step.chunk, step.ioTerm);
    Settle(c, step.n, s', AfterChunk(c.h, step.n, step.chunk, reply));
  }

  lemma FinishChunkKeeps(c: State, step: Step)
    requires StateOk(c) && Enabled(c, step) && step.FinishChunk? && c.h.time > 0
    ensures var (s', reply) := FinishInstall(c.nodes[step.n], step.chunk, step.ioTerm, step.ioSnap, step.ioLog,
            step.ioHard);
            var h' := AfterChunk(c.h, step.n, step.chunk, reply);
            StateOk(Put(c, step.n, s', h')) && Grows(c.h, h', step.n)
  {
    hide HistoryOk, NodeInv, FinishInstall, ChunkOk;
    var (s', reply) := FinishInstall(c.nodes[step.n], step.chunk, step.ioTerm, step.ioSnap, step.ioLog, step.ioHard);
    assert ChunkOk(c.h, step.chunk);
    InstallHandled(c.h, step.n, c.nodes[step.n], step.chunk, step.ioTerm, step.ioSnap, step.ioLog, step.ioHard);
    Settle(c, step.n, s', AfterChunk(c.h, step.n, step.chunk, reply));
  }

  lemma LocalKeeps(c: State, step: Step)
    requires StateOk(c) && Enabled(c, step) && Careful(c, step)
    requires step.StepDown? || step.ApplyEntry? || step.WriteSnapshot? || step.DropEntries? || step.Reboot?
    ensures var s := c.nodes[step.n];
            match step
            case StepDown(n, term, io) => StateOk(Put(c, n, BecomeFollower(s, term, io), c.h))
            case ApplyEntry(n) => StateOk(Put(c, n, ApplyNext(s), c.h))
            case WriteSnapshot(n, io) => StateOk(Put(c, n, SaveSnapshot(s, io), c.h))
            case DropEntries(n, io) => StateOk(Put(c, n, FinishSnapshot(s, io), c.h))
            case Reboot(n) => StateOk(Put(c, n, Restart(s.disk), c.h))
            case _ => true
  {
    hide HistoryOk, NodeInv, MessagesOk, BecomeFollower, SaveSnapshot, FinishSnapshot, Restart, ApplyNext;
    var s := c.nodes[step.n];
    GrowsRefl(c.h, step.n);
    match step
    case StepDown(n, term, io) =>
      BecomeFollowerKeeps(c.h, n, s, term, io);
      Settle(c, n, BecomeFollower(s, term, io), c.h);
    case ApplyEntry(n) =>
      ApplyKeeps(c.h, n, s);
      Settle(c, n, ApplyNext(s), c.h);
    case WriteSnapshot(n, io) =>
      SaveSnapshotKeeps(c.h, n, s, io);
      Settle(c, n, SaveSnapshot(s, io), c.h);
    case DropEntries(n, io) =>
      FinishSnapshotKeeps(c.h, n, s, io);
      Settle(c, n, FinishSnapshot(s, io), c.h);
    case Reboot(n) =>
      RestartKeeps(c.h, n, s);
      Settle(c, n, Restart(s.disk), c.h);
  }

  /** Every step keeps the invariant. */
  lemma StepKeeps(c: State, step: Step)
    requires StateOk(c) && Enabled(c, step) && Careful(c, step)
    ensures StateOk(Take(c, step)) && Grows(c.h, Take(c, step).h, step.n)
  {
    TickKeeps(c);
    Tick(c.h, step.n);
    var t := c.(h := Ticked(c.h));
    EnabledTicked(c, step);
    StepKeepsTicked(t, step);
    GrowsTrans(c.h, t.h, Act(t, step).h, step.n);
  }

  lemma StepKeepsTicked(t: State, step: Step)
    requires StateOk(t) && JustTicked(t.h) && Enabled(t, step) && Careful(t, step)
    ensures StateOk(Act(t, step)) && Grows(t.h, Act(t, step).h, step.n)
  {
    GrowsRefl(t.h, step.n);
    hide Grows, StateOk, StartElection, HandleVote, BecomeLeader, AfterWin, Propose, AfterPropose, HandleAppend;
    hide ReceiveAck, AfterReceive, HandleChunk, FinishInstall, BecomeFollower, SaveSnapshot, FinishSnapshot, Restart,
         ApplyNext;
    hide AfterAppendRequest, AfterChunk, MakeAppend;
    match step
    case Campaign(_, _) => CampaignKeeps(t, step);
    case AnswerVote(_, _, _, _) => AnswerVoteKeeps(t, step);
    case Lead(_, _, _, _) => LeadKeeps(t, step);
    case Submit(_, _, _, _) => SubmitKeeps(t, step);
    case SendAppend(_, _) => SendAppendKeeps(t, step);
    case AnswerAppend(_, _, _, _, _, _) => AnswerAppendKeeps(t, step);
    case HearAck(_, _, _, _) => HearAckKeeps(t, step);
    case SendChunk(_, _, _, _) => SendChunkKeeps(t, step);
    case AnswerChunk(_, _, _) => AnswerChunkKeeps(t, step);
    case FinishChunk(_, _, _, _, _, _) => FinishChunkKeeps(t, step);
    case _ => LocalKeeps(t, step);
  }

  lemma EnabledTicked(c: State, step: Step)
    requires Enabled(c, step) && Careful(c, step)
    ensures Enabled(c.(h := Ticked(c.h)), step) && Careful(c.(h := Ticked(c.h)), step)
  {
  }

  lemma InitialOk(c: State)
    requires Initial(c)
    ensures StateOk(c)
  {
  }
}
