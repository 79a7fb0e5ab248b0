/** A run of five nodes in which a careless compaction makes two nodes commit different entries
    at the same index. */
module CarelessRun {
  import opened Logs
  import opened History
  import opened Protocol
  import opened Invariant
  import opened VoteSteps
  import opened LeaderSteps
  import opened FollowerSteps
  import opened Cluster
  import opened RootedCluster
  import opened Safety
  import Durability

  const FIVE: set<Id> := {"a", "b", "c", "d", "e"}

  /** What the first leader writes, and what the second one writes in its place. */
  const E1 := Entry(1, 1, Noop)
  const E2 := Entry(2, 1, Command.Put("k", "v"))
  const N2 := Entry(2, 2, Noop)

  /** The length of the first leader's map, encoded. */
  const BODY: nat := 9

  // ------------------------------------------------------------ reaching states

  ghost predicate Reachable(c: State) {
    exists b, steps :: Run(b, steps) && b[|b| - 1] == c
  }

  /** Nothing that was sent or promised is taken back. */
  ghost predicate Later(c: State, c': State) {
    c.appends <= c'.appends && c.chunks <= c'.chunks && c.h.votes <= c'.h.votes && c.h.acks <= c'.h.acks
  }

  lemma Prolonged(b: seq<State>, steps: seq<Step>, step: Step)
    requires Run(b, steps) && Enabled(b[|b| - 1], step)
    ensures Run(b + [Take(b[|b| - 1], step)], steps + [step])
  {
    var b', steps' := b + [Take(b[|b| - 1], step)], steps + [step];
    forall i | 0 <= i < |steps'|
      ensures Enabled(b'[i], steps'[i]) && b'[i + 1] == Take(b'[i], steps'[i])
    {
      if i < |steps| {
        assert steps'[i] == steps[i];
      }
    }
  }

  lemma MessagesStay(c: State, step: Step)
    requires Enabled(c, step)
    ensures c.appends <= Take(c, step).appends && c.chunks <= Take(c, step).chunks
    ensures Take(c, step).nodes.Keys == c.nodes.Keys
  {
  }

  lemma ReachNext(c: State, step: Step)
    requires Reachable(c) && Enabled(c, step)
    ensures Reachable(Take(c, step)) && Grows(c.h, Take(c, step).h, step.n)
  {
    var b, steps :| Run(b, steps) && b[|b| - 1] == c;
    RunRooted(b, steps, |b| - 1);
    Prolonged(b, steps, step);
    hide Run, Rooted, Enabled, Take;
    StepRooted(c, step);
    var b' := b + [Take(c, step)];
    assert b'[|b'| - 1] == Take(c, step);
  }

  /** From c to c' node n has taken a step to s; the others are as they were. */
  ghost predicate Goes(c: State, c': State, n: Id, s: Node) {
    Reachable(c') && Later(c, c') && c'.h.members == c.h.members && c'.nodes == c.nodes[n := s]
  }

  lemma StepGoes(c: State, step: Step) returns (c': State)
    requires Reachable(c) && Enabled(c, step)
    ensures c' == Take(c, step) && step.n in c'.nodes && Goes(c, c', step.n, c'.nodes[step.n])
  {
    c' := Take(c, step);
    ReachNext(c, step);
    MessagesStay(c, step);
    assert step.n in c.nodes;
    hide Reachable, Take, Enabled;
    forall m | m in c.nodes && m != step.n
      ensures c'.nodes[m] == c.nodes[m]
    {
      Durability.OthersUntouched(c, step, m);
    }
    assert c'.nodes == c.nodes[step.n := c'.nodes[step.n]];
  }

  // ------------------------------------------------------------ steps

  lemma Campaigning(c: State, n: Id) returns (c': State, v: Vote)
    requires Reachable(c) && n in c.nodes && StartElection(c.nodes[n], n, Ok).1
    ensures Goes(c, c', n, StartElection(c.nodes[n], n, Ok).0)
    ensures v in c'.h.votes && v.voter == v.cand == n && v.term == c.nodes[n].term + 1 && v.candLog == c.nodes[n].log
  {
    hide Reachable, StartElection, Later;
    c' := StepGoes(c, Campaign(n, Ok));
    v := OwnVote(Ticked(c.h), n, c.nodes[n]);
  }

  lemma Voting(c: State, n: Id, r: Vote) returns (c': State, v: Vote)
    requires Reachable(c) && n in c.nodes && r in c.h.votes && r.voter == r.cand != n
    requires HandleVote(c.nodes[n], VoteRequest(r.term, r.cand, |r.candLog|, LastTerm(r.candLog)), Ok, Ok).1
    ensures Goes(c, c', n, HandleVote(c.nodes[n], VoteRequest(r.term, r.cand, |r.candLog|, LastTerm(r.candLog)), Ok,
        Ok).0)
    ensures v in c'.h.votes && v.voter == n && v.term == r.term && v.cand == r.cand
  {
    hide Reachable, HandleVote, Later, LastTerm;
    c' := StepGoes(c, AnswerVote(n, r, Ok, Ok));
    v := CastVote(Ticked(c.h), n, c.nodes[n], r);
  }

  lemma Elected(c: State, n: Id, v: Vote, p: Id, w: Vote, q: Id, x: Vote) returns (c': State)
    requires Reachable(c) && |c.h.members| == 5 && n in c.nodes && c.nodes[n].role.Candidate?
    requires {v, w, x} <= c.h.votes && v.voter == n && w.voter == p && x.voter == q && n != p && n != q && p != q
    requires v.term == w.term == x.term == c.nodes[n].term && v.cand == w.cand == x.cand == n
    requires {n, p, q} <= c.h.members
    ensures Goes(c, c', n, BecomeLeader(c.nodes[n], n, c.h.members - {n}, Stored, Ok))
  {
    hide Reachable, BecomeLeader, Later, AfterWin;
    var ballots := map[n := v, p := w, q := x];
    assert ballots.Keys == {n, p, q};
    c' := StepGoes(c, Lead(n, ballots, Stored, Ok));
  }

  lemma Submitting(c: State, n: Id, command: Command) returns (c': State)
    requires Reachable(c) && n in c.nodes
    ensures Goes(c, c', n, Propose(c.nodes[n], n, c.h.members - {n}, command, Stored, Ok).0)
  {
    hide Reachable, Propose, Later, AfterPropose;
    c' := StepGoes(c, Submit(n, command, Stored, Ok));
  }

  lemma Sending(c: State, n: Id, next: nat) returns (c': State)
    requires Reachable(c) && n in c.nodes && c.nodes[n].role.Leader? && c.nodes[n].snap < next <= |c.nodes[n].log| + 1
    ensures Goes(c, c', n, c.nodes[n]) && MakeAppend(c.nodes[n], n, next) in c'.appends
  {
    hide Reachable, Later, MakeAppend;
    c' := StepGoes(c, SendAppend(n, next));
  }

  lemma Answering(c: State, n: Id, m: AppendRequest) returns (c': State, a: Ack)
    requires Reachable(c) && n in c.nodes && m in c.appends && m.leader != n
    requires HandleAppend(c.nodes[n], m, Ok, Stored, Ok, Ok).1.Success?
    ensures Goes(c, c', n, HandleAppend(c.nodes[n], m, Ok, Stored, Ok, Ok).0)
    ensures a in c'.h.acks && a.node == n && a.term == m.term && a.len == m.prev + |m.entries|
  {
    hide Reachable, Later, HandleAppend;
    c' := StepGoes(c, AnswerAppend(n, m, Ok, Stored, Ok, Ok));
    a := AckOf(Ticked(c.h), n, m.term, m.prev + |m.entries|);
  }

  lemma Hearing(c: State, n: Id, a: Ack) returns (c': State)
    requires Reachable(c) && n in c.nodes && c.nodes[n].role.Leader?
    requires a in c.h.acks && a.node in c.h.members - {n} && a.term == c.nodes[n].term
    ensures Goes(c, c', n, ReceiveAck(c.nodes[n], a.node, a.len, c.h.members - {n}, true, Ok))
  {
    hide Reachable, Later, ReceiveAck, AfterReceive;
    c' := StepGoes(c, HearAck(n, a, true, Ok));
  }

  lemma Compacting(c: State, n: Id) returns (c': State)
    requires Reachable(c) && n in c.nodes
    ensures Goes(c, c', n, SaveSnapshot(c.nodes[n], Ok))
  {
    hide Reachable, Later, SaveSnapshot;
    c' := StepGoes(c, WriteSnapshot(n, Ok));
  }

  lemma Dropping(c: State, n: Id) returns (c': State)
    requires Reachable(c) && n in c.nodes
    ensures Goes(c, c', n, FinishSnapshot(c.nodes[n], Ok))
  {
    hide Reachable, Later, FinishSnapshot;
    c' := StepGoes(c, DropEntries(n, Ok));
  }

  lemma Applying(c: State, n: Id) returns (c': State)
    requires Reachable(c) && n in c.nodes
    ensures Goes(c, c', n, ApplyNext(c.nodes[n]))
  {
    hide Reachable, Later, ApplyNext;
    c' := StepGoes(c, ApplyEntry(n));
  }

  lemma Rebooting(c: State, n: Id) returns (c': State)
    requires Reachable(c) && n in c.nodes && c.nodes[n].disk.loadable
    ensures Goes(c, c', n, Restart(c.nodes[n].disk))
  {
    hide Reachable, Later, Restart;
    c' := StepGoes(c, Reboot(n));
  }

  lemma SendingChunk(c: State, n: Id) returns (c': State)
    requires Reachable(c) && n in c.nodes && c.nodes[n].role.Leader? && 0 < c.nodes[n].snap <= |c.nodes[n].log|
    ensures var s := c.nodes[n];
            Goes(c, c', n, s) && ChunkRequest(s.term, n, s.log[..s.snap], 0, BODY, true) in c'.chunks
  {
    hide Reachable, Later;
    c' := StepGoes(c, SendChunk(n, 0, BODY, true));
  }

  lemma TakingChunk(c: State, n: Id, m: ChunkRequest) returns (c': State)
    requires Reachable(c) && n in c.nodes && m in c.chunks && m.leader != n && c.nodes[n].saving == 0
    ensures Goes(c, c', n, HandleChunk(c.nodes[n], m, Ok).0)
  {
    hide Reachable, Later, HandleChunk;
    c' := StepGoes(c, AnswerChunk(n, m, Ok));
  }

  lemma FailingInstall(c: State, n: Id, m: ChunkRequest) returns (c': State)
    requires Reachable(c) && n in c.nodes && m in c.chunks && m.leader != n && c.nodes[n].saving == 0
    ensures Goes(c, c', n, FinishInstall(c.nodes[n], m, Ok, Ok, Ok, Lost).0)
  {
    hide Reachable, Later, FinishInstall;
    c' := StepGoes(c, FinishChunk(n, m, Ok, Ok, Ok, Lost));
  }

  // ------------------------------------------------------------ nodes

  /** A follower that has never failed and never compacted. */
  function Calm(term: nat, vote: Option<Id>, log: Log, commit: nat, applied: nat): Node {
    Node(Follower, term, vote, log, commit, applied, 0, 0, map[], Idle, 0, false,
         Disk(term, vote, commit, log, 0, log, 0, true))
  }

  function Running(term: nat, id: Id, log: Log, snap: nat): Node {
    Node(Candidate, term, Some(id), log, snap, snap, snap, 0, map[], Idle, 0, false,
         Disk(term, Some(id), snap, log, snap, log, snap, true))
  }

  /** A leader that has not failed. */
  function Leading(term: nat, id: Id, log: Log, commit: nat, applied: nat, snap: nat, noop: nat, acked: map<Id,
      nat>): Node
  {
    Node(Leader, term, Some(id), log, commit, applied, snap, noop, acked, Idle, 0, false,
         Disk(term, Some(id), commit, log, snap, log, snap, true))
  }

  /** A candidate's request reaches a follower with the same log in an earlier term. */
  lemma Votes(log: Log, term: nat, vote: Option<Id>, cand: Id, newer: nat)
    requires term < newer
    ensures HandleVote(Calm(term, vote, log, 0, 0), VoteRequest(newer, cand, |log|, LastTerm(log)), Ok, Ok) ==
            (Calm(newer, Some(cand), log, 0, 0), true)
  {
    hide LastTerm;
  }

  /** An entry that follows the log reaches a follower of the same or an earlier term. */
  lemma TakesEntry(term: nat, vote: Option<Id>, log: Log, m: AppendRequest, e: Entry)
    requires term <= m.term && m.prev == |log| && m.prevTerm == TermAt(log, |log|) && m.entries == [e] &&
             m.commit <= |log|
    ensures HandleAppend(Calm(term, vote, log, 0, 0), m, Ok, Stored, Ok, Ok) ==
            (Calm(m.term, if term == m.term then vote else None, log + [e], m.commit, 0), Success)
  {
    var s := Calm(term, vote, log, 0, 0);
    var t := Follow(s, m.term, Ok);
    assert t == Calm(m.term, if term == m.term then vote else None, log, 0, 0);
    assert FirstConflict(log, |log|, [e], 0) == 0;
    assert [e][0..] == [e];
    hide Follow, FirstConflict, TermAt;
  }

  lemma Campaigns(s: Node, id: Id)
    requires s.disk.log == s.log == s.disk.wal && s.role.Follower? && !s.fatal && s.noop == 0 && s.saving == 0
    requires s.acked == map[] && s.transfer == Idle && s.disk.loadable
    requires s.snap == s.applied == s.commit == s.disk.snap == s.disk.base
    ensures StartElection(s, id, Ok) == (Running(s.term + 1, id, s.log, s.snap), true)
  {
  }

  // ------------------------------------------------------------ counting

  lemma TooFew(s: Node, peers: set<Id>, p: Id)
    requires |peers| == 4 && forall q {:trigger Get(s.acked, q)} :: q in peers && q != p ==> Get(s.acked, q) <= s.commit
    ensures CommitTarget(s, peers, |s.log|) == s.commit
  {
    forall i | s.commit < i <= |s.log|
      ensures !Majority(s, peers, i)
    {
      SubsetSize(Holders(s.acked, peers, i), {p});
    }
  }

  lemma Enough(s: Node, peers: set<Id>, p: Id, q: Id)
    requires |peers| == 4 && p in peers && q in peers && p != q && s.commit < |s.log|
    requires Get(s.acked, p) == Get(s.acked, q) == |s.log| && TermAt(s.log, |s.log|) == s.term
    ensures CommitTarget(s, peers, |s.log|) == |s.log|
  {
    SubsetSize({p, q}, Holders(s.acked, peers, |s.log|));
  }

  lemma Crowns(term: nat, id: Id, log: Log, snap: nat, peers: set<Id>) returns (acked: map<Id, nat>)
    requires |peers| == 4 && id !in peers
    ensures BecomeLeader(Running(term, id, log, snap), id, peers, Stored, Ok) ==
            Leading(term, id, log + [Entry(|log| + 1, term, Noop)], snap, snap, snap, |log| + 1, acked)
    ensures forall q :: q in peers ==> Get(acked, q) == 0
  {
    acked := Indices(peers, 0)[id := |log|][id := |log| + 1];
    var e := Entry(|log| + 1, term, Noop);
    var s := Leading(term, id, log + [e], snap, snap, snap, |log| + 1, acked);
    TooFew(s, peers, id);
    hide CommitTarget;
  }

  lemma Submits(s: Node, id: Id, peers: set<Id>, command: Command)
    requires |peers| == 4 && id !in peers && !s.fatal
    requires s == Leading(s.term, id, s.log, s.commit, s.applied, s.snap, s.noop, s.acked)
    requires forall q {:trigger Get(s.acked, q)} :: q in peers ==> Get(s.acked, q) <= s.commit
    ensures Propose(s, id, peers, command, Stored, Ok).0 ==
            Leading(s.term, id, s.log + [NextEntry(s, command)], s.commit, s.applied, s.snap, s.noop,
                    s.acked[id := |s.log| + 1])
  {
    var acked := s.acked[id := |s.log| + 1];
    var t := Leading(s.term, id, s.log + [NextEntry(s, command)], s.commit, s.applied, s.snap, s.noop, acked);
    forall q | q in peers
      ensures Get(acked, q) <= s.commit
    {
      assert Get(s.acked, q) <= s.commit;
    }
    TooFew(t, peers, id);
    hide CommitTarget;
  }

  /** The first of two acknowledgements is not enough, the second is. */
  lemma HearsTwo(s: Node, id: Id, peers: set<Id>, p: Id, q: Id)
    requires |peers| == 4 && p in peers && q in peers && p != q && s.commit < |s.log|
    requires s == Leading(s.term, id, s.log, s.commit, s.applied, s.snap, s.noop, s.acked)
    requires TermAt(s.log, |s.log|) == s.term
    requires forall r {:trigger Get(s.acked, r)} :: r in peers ==> Get(s.acked, r) <= s.commit
    ensures var t := s.(acked := s.acked[p := |s.log|]);
            && ReceiveAck(s, p, |s.log|, peers, true, Ok) == t
            && ReceiveAck(t, q, |s.log|, peers, true, Ok) ==
               Leading(s.term, id, s.log, |s.log|, s.applied, s.snap, s.noop, t.acked[q := |s.log|])
  {
    assert Get(s.acked, p) <= s.commit && Get(s.acked, q) <= s.commit;
    var t := s.(acked := s.acked[p := |s.log|]);
    forall r | r in peers && r != p
      ensures Get(t.acked, r) <= s.commit
    {
      assert Get(s.acked, r) <= s.commit;
    }
    TooFew(t, peers, p);
    var u := t.(acked := t.acked[q := |s.log|]);
    Enough(u, peers, p, q);
    hide CommitTarget, TermAt;
  }

  // ------------------------------------------------------------ losing an entry

  /** The snapshot arrives, its install fails in the last write, compaction puts an older snapshot
      in its place, and the node starts again. */
  lemma Forgets(chunk: ChunkRequest)
    requires chunk == ChunkRequest(1, "a", [E1, E2], 0, BODY, true)
    ensures var s := Calm(1, Some("a"), [E1, E2], 1, 1);
            var t := s.(transfer := Protocol.Receiving("a", [E1, E2], BODY));
            var u := FinishInstall(t, chunk, Ok, Ok, Ok, Lost).0;
            && HandleChunk(s, chunk, Ok).0 == t
            && SaveSnapshot(u, Ok).disk == Disk(1, Some("a"), 1, [E1], 1, [E1, E2], 2, true)
            && u.saving == 0 && u.applied < u.disk.base
  {
    var s := Calm(1, Some("a"), [E1, E2], 1, 1);
    var t := s.(transfer := Protocol.Receiving("a", [E1, E2], BODY));
    var u := FinishInstall(t, chunk, Ok, Ok, Ok, Lost).0;
    assert LogAfterSnapshot([E1, E2], [E1, E2]) == [E1, E2];
    assert u.disk == Disk(1, Some("a"), 1, [E1, E2], 2, [E1, E2], 2, true) && u.log == [E1, E2] && u.applied == 1;
    assert [E1, E2][..1] == [E1];
  }

  lemma Compacts(s: Node)
    requires s == Leading(s.term, "a", s.log, |s.log|, |s.log|, 0, s.noop, s.acked) && 0 < |s.log|
    ensures var t := SaveSnapshot(s, Ok);
            t.saving == |s.log| && FinishSnapshot(t, Ok) == s.(snap := |s.log|,
                disk := s.disk.(snap := |s.log|, base := |s.log|))
  {
    assert s.log[..|s.log|] == s.log;
    assert LogAfterSnapshot(s.log, s.log) == s.log;
  }

  // ------------------------------------------------------------ the run

  /** The five nodes in a state that some run reaches. */
  ghost predicate At(c: State, a: Node, b: Node, p: Node, d: Node, e: Node) {
    && Reachable(c) && c.h.members == FIVE && c.nodes.Keys == FIVE
    && c.nodes["a"] == a && c.nodes["b"] == b && c.nodes["c"] == p && c.nodes["d"] == d && c.nodes["e"] == e
  }

  lemma Five(n: Id)
    requires n in FIVE
    ensures |FIVE| == 5 && |FIVE - {n}| == 4
  {
    assert FIVE == {"a"} + {"b"} + {"c"} + {"d"} + {"e"};
  }

  lemma FirstElection(c: State) returns (c': State, acked: map<Id, nat>)
    requires At(c, Blank, Blank, Blank, Blank, Blank)
    ensures var voter := Calm(1, Some("a"), [], 0, 0);
            At(c', Leading(1, "a", [E1], 0, 0, 0, 1, acked), voter, voter, Blank, Blank)
    ensures forall q :: q in FIVE - {"a"} ==> Get(acked, q) == 0
  {
    hide Reachable, StartElection, HandleVote, BecomeLeader;
    assert Blank == Calm(0, None, [], 0, 0);
    Campaigns(Blank, "a");
    Votes([], 0, None, "a", 1);
    Five("a");
    acked := Crowns(1, "a", [], 0, FIVE - {"a"});
    assert [] + [E1] == [E1];
    var c1, v := Campaigning(c, "a");
    var c2, w := Voting(c1, "b", v);
    var c3, x := Voting(c2, "c", v);
    c' := Elected(c3, "a", v, "b", w, "c", x);
  }

  /** The first entry goes to all. */
  lemma FirstEntrySent(c: State, acked: map<Id, nat>) returns (c': State, y: Ack, z: Ack)
    requires var voter := Calm(1, Some("a"), [], 0, 0);
             At(c, Leading(1, "a", [E1], 0, 0, 0, 1, acked), voter, voter, Blank, Blank)
    ensures var voter, other := Calm(1, Some("a"), [E1], 0, 0), Calm(1, None, [E1], 0, 0);
            At(c', Leading(1, "a", [E1], 0, 0, 0, 1, acked), voter, voter, other, other)
    ensures {y, z} <= c'.h.acks && y.node == "b" && z.node == "c" && y.term == z.term == 1 && y.len == z.len == 1
  {
    hide Reachable, HandleAppend;
    assert Blank == Calm(0, None, [], 0, 0);
    var m := AppendRequest(1, "a", 0, 0, [E1], 0);
    assert MakeAppend(c.nodes["a"], "a", 1) == m by { assert [E1][0..] == [E1]; }
    assert [] + [E1] == [E1];
    TakesEntry(1, Some("a"), [], m, E1);
    TakesEntry(0, None, [], m, E1);
    var c1 := Sending(c, "a", 1);
    var c2, _ := Answering(c1, "d", m);
    var c3, _ := Answering(c2, "e", m);
    var c4;
    c4, y := Answering(c3, "b", m);
    c', z := Answering(c4, "c", m);
  }

  /** Two acknowledgements commit it. */
  lemma FirstEntry(c: State, acked: map<Id, nat>) returns (c': State, acked': map<Id, nat>)
    requires var voter := Calm(1, Some("a"), [], 0, 0);
             At(c, Leading(1, "a", [E1], 0, 0, 0, 1, acked), voter, voter, Blank, Blank)
    requires forall q :: q in FIVE - {"a"} ==> Get(acked, q) == 0
    ensures var voter, other := Calm(1, Some("a"), [E1], 0, 0), Calm(1, None, [E1], 0, 0);
            At(c', Leading(1, "a", [E1], 1, 0, 0, 1, acked'), voter, voter, other, other)
    ensures forall q :: q in FIVE - {"a"} ==> Get(acked', q) <= 1
  {
    hide Reachable, ReceiveAck;
    Five("a");
    HearsTwo(Leading(1, "a", [E1], 0, 0, 0, 1, acked), "a", FIVE - {"a"}, "b", "c");
    acked' := acked["b" := 1]["c" := 1];
    var c1, y, z := FirstEntrySent(c, acked);
    var c2 := Hearing(c1, "a", y);
    c' := Hearing(c2, "a", z);
  }

  /** The second entry goes to two followers only, which is enough to commit it. */
  lemma SecondEntry(c: State, acked: map<Id, nat>) returns (c': State, acked': map<Id, nat>)
    requires var voter, other := Calm(1, Some("a"), [E1], 0, 0), Calm(1, None, [E1], 0, 0);
             At(c, Leading(1, "a", [E1], 1, 0, 0, 1, acked), voter, voter, other, other)
    requires forall q :: q in FIVE - {"a"} ==> Get(acked, q) <= 1
    ensures var voter, other := Calm(1, Some("a"), [E1, E2], 1, 0), Calm(1, None, [E1], 0, 0);
            At(c', Leading(1, "a", [E1, E2], 2, 0, 0, 1, acked'), voter, voter, other, other)
  {
    hide Reachable, HandleAppend, ReceiveAck, Propose;
    var s := Leading(1, "a", [E1], 1, 0, 0, 1, acked);
    var t := Leading(1, "a", [E1, E2], 1, 0, 0, 1, acked["a" := 2]);
    var m := AppendRequest(1, "a", 1, 1, [E2], 1);
    assert MakeAppend(t, "a", 2) == m by { assert [E1, E2][1..] == [E2]; }
    assert [E1] + [E2] == [E1, E2];
    Five("a");
    Submits(s, "a", FIVE - {"a"}, E2.command);
    TakesEntry(1, Some("a"), [E1], m, E2);
    HearsTwo(t, "a", FIVE - {"a"}, "b", "c");
    acked' := acked["a" := 2]["b" := 2]["c" := 2];
    var c1 := Submitting(c, "a", E2.command);
    var c2 := Sending(c1, "a", 2);
    var c3, y := Answering(c2, "b", m);
    var c4, z := Answering(c3, "c", m);
    var c5 := Hearing(c4, "a", y);
    c' := Hearing(c5, "a", z);
  }

  /** The leader compacts both entries and sends its snapshot. */
  lemma SnapshotSent(c: State, acked: map<Id, nat>) returns (c': State)
    requires var voter, other := Calm(1, Some("a"), [E1, E2], 1, 0), Calm(1, None, [E1], 0, 0);
             At(c, Leading(1, "a", [E1, E2], 2, 0, 0, 1, acked), voter, voter, other, other)
    ensures var voter, other := Calm(1, Some("a"), [E1, E2], 1, 0), Calm(1, None, [E1], 0, 0);
            At(c', Leading(1, "a", [E1, E2], 2, 2, 2, 1, acked), voter, voter, other, other)
    ensures ChunkRequest(1, "a", [E1, E2], 0, BODY, true) in c'.chunks
  {
    hide Reachable, SaveSnapshot, FinishSnapshot;
    Compacts(Leading(1, "a", [E1, E2], 2, 2, 0, 1, acked));
    var c1 := Applying(c, "a");
    var c2 := Applying(c1, "a");
    var c3 := Compacting(c2, "a");
    var c4 := Dropping(c3, "a");
    assert c4.nodes["a"] == Leading(1, "a", [E1, E2], 2, 2, 2, 1, acked);
    assert [E1, E2][..2] == [E1, E2];
    c' := SendingChunk(c4, "a");
  }

  /** A node that has applied the first entry and compacted it, and has nothing else. */
  function Shortened(): Node {
    Node(Follower, 1, Some("a"), [E1], 1, 1, 1, 0, map[], Idle, 0, false,
         Disk(1, Some("a"), 1, [E1], 1, [E1], 1, true))
  }

  /** One of the two followers loses the second entry. */
  lemma EntryForgotten(c: State, acked: map<Id, nat>) returns (c': State)
    requires var voter, other := Calm(1, Some("a"), [E1, E2], 1, 0), Calm(1, None, [E1], 0, 0);
             At(c, Leading(1, "a", [E1, E2], 2, 2, 2, 1, acked), voter, voter, other, other)
    requires ChunkRequest(1, "a", [E1, E2], 0, BODY, true) in c.chunks
    ensures var voter, other := Calm(1, Some("a"), [E1, E2], 1, 0), Calm(1, None, [E1], 0, 0);
            At(c', Leading(1, "a", [E1, E2], 2, 2, 2, 1, acked), Shortened(), voter, other, other)
  {
    hide Reachable, SaveSnapshot, HandleChunk, FinishInstall;
    var m := ChunkRequest(1, "a", [E1, E2], 0, BODY, true);
    Forgets(m);
    var c1 := Applying(c, "b");
    var c2 := TakingChunk(c1, "b", m);
    var c3 := FailingInstall(c2, "b", m);
    var c4 := Compacting(c3, "b");
    c' := Rebooting(c4, "b");
  }

  /** With the votes of those that never had it, that follower becomes the next leader. */
  lemma SecondElection(c: State, a: Node, p: Node) returns (c': State, acked: map<Id, nat>)
    requires var other := Calm(1, None, [E1], 0, 0); At(c, a, Shortened(), p, other, other)
    ensures var voter := Calm(2, Some("b"), [E1], 0, 0);
            At(c', a, Leading(2, "b", [E1, N2], 1, 1, 1, 2, acked), p, voter, voter)
    ensures forall q :: q in FIVE - {"b"} ==> Get(acked, q) == 0
  {
    hide Reachable, StartElection, HandleVote, BecomeLeader;
    Campaigns(Shortened(), "b");
    Votes([E1], 1, None, "b", 2);
    Five("b");
    acked := Crowns(2, "b", [E1], 1, FIVE - {"b"});
    assert [E1] + [N2] == [E1, N2];
    var c1, v := Campaigning(c, "b");
    var c2, w := Voting(c1, "d", v);
    var c3, x := Voting(c2, "e", v);
    c' := Elected(c3, "b", v, "d", w, "e", x);
  }

  /** It commits its own entry in the place of the one that was lost. */
  lemma EntryReplaced(c: State, a: Node, p: Node, acked: map<Id, nat>) returns (c': State, acked': map<Id, nat>)
    requires var voter := Calm(2, Some("b"), [E1], 0, 0);
             At(c, a, Leading(2, "b", [E1, N2], 1, 1, 1, 2, acked), p, voter, voter)
    requires forall q :: q in FIVE - {"b"} ==> Get(acked, q) == 0
    ensures var voter := Calm(2, Some("b"), [E1, N2], 1, 0);
            At(c', a, Leading(2, "b", [E1, N2], 2, 1, 1, 2, acked'), p, voter, voter)
  {
    hide Reachable, HandleAppend, ReceiveAck;
    var s := Leading(2, "b", [E1, N2], 1, 1, 1, 2, acked);
    var m := AppendRequest(2, "b", 1, 1, [N2], 1);
    assert MakeAppend(s, "b", 2) == m by { assert [E1, N2][1..] == [N2]; }
    assert [E1] + [N2] == [E1, N2];
    TakesEntry(2, Some("b"), [E1], m, N2);
    Five("b");
    HearsTwo(s, "b", FIVE - {"b"}, "d", "e");
    acked' := acked["d" := 2]["e" := 2];
    var c1 := Sending(c, "b", 2);
    var c2, y := Answering(c1, "d", m);
    var c3, z := Answering(c2, "e", m);
    var c4 := Hearing(c3, "b", y);
    c' := Hearing(c4, "b", z);
  }

  lemma FirstState() returns (c: State)
    ensures At(c, Blank, Blank, Blank, Blank, Blank)
  {
    c := State(map n | n in FIVE :: Blank, {}, {}, Record(FIVE, map[], {}, {}, {}, 0));
    assert c.nodes.Keys == FIVE;
    assert Run([c], []) && [c][|[c]| - 1] == c;
  }

  /** Without care, state machine safety fails: some run of five nodes, with one failed write,
      one compaction after it and one restart, ends with two nodes that have committed different
      entries at index 2. */
  lemma SafetyNeedsCare() returns (b: seq<State>, steps: seq<Step>)
    ensures Run(b, steps) && {"a", "b"} <= b[|steps|].nodes.Keys
    ensures var s, t := b[|steps|].nodes["a"], b[|steps|].nodes["b"];
            s.commit == t.commit == |s.log| == |t.log| == 2 && s.log[1] != t.log[1]
  {
    var c := FirstState();
    var c1, k1 := FirstElection(c);
    var c2, k2 := FirstEntry(c1, k1);
    var c3, k3 := SecondEntry(c2, k2);
    var c4 := SnapshotSent(c3, k3);
    var c5 := EntryForgotten(c4, k3);
    var a, p := Leading(1, "a", [E1, E2], 2, 2, 2, 1, k3), Calm(1, Some("a"), [E1, E2], 1, 0);
    var c6, k6 := SecondElection(c5, a, p);
    var c7, k7 := EntryReplaced(c6, a, p, k6);
    b, steps :| Run(b, steps) && b[|b| - 1] == c7;
  }
}
