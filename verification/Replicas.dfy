/** One node of the program: a snapshot and a live log in memory, a store that may fail, the
    key-value machine and the proposals that wait. Each method is one locked section, and does to
    the full log that snapshot and live log stand for what the function in `Protocol` does. */
module Replicas {
  import opened Logs
  import opened KeyValue
  import opened Protocol
  import opened Wal
  import opened Storage
  import opened Compaction
  import opened Waiting
  import opened NodeMemory

  class Replica {
    const id: Id
    const peers: set<Id>
    const bodies: MapCodec
    const store: Store
    const sm: StateMachine
    const waiters: Waiters

    var mem: Memory
    /** The node on full logs, and who proposed what. */
    ghost var node: Node
    ghost var proposed: Proposals

    /** The parts that are objects are sound in themselves. */
    ghost predicate Parts()
      reads this`proposed, store, waiters
    {
      id !in peers && Faithful(bodies) && store.Valid() && waiters.Valid() && waiters.issued.Keys == proposed.Keys
    }

    /** What holds between a store call and what the node makes of its outcome. */
    ghost predicate Steady()
      reads this, store, sm, waiters
    {
      && Mirrors(mem, node)
      && LogOk(node.log, node.snap, node.applied, node.commit, mem.snapshot, mem.log)
      && OnDisk(node.disk, store.hard, store.snap, store.lines)
      && SavingOk(node.log, node.snap, node.applied, node.saving, node.disk, mem.captured, mem.saving, store.snap)
      && MachineOk(node.log, node.applied, node.commit, mem.inFlight, mem.ran, sm.data)
      && TransferOk(node.transfer, mem.pending, bodies)
      && WaitersOk(node.log, node.applied, waiters.slots, waiters.replies, proposed)
    }

    ghost predicate Sound()
      reads this, store, sm, waiters
    {
      Steady() && (!node.fatal ==> Synced(node.log, node.applied, node.disk, store.lines, store.torn))
    }

    ghost predicate Valid()
      reads this, store, sm, waiters
    {
      Parts() && Sound() && Attended(node, waiters.slots)
    }

    // ---------------------------------------------------------- recovery

    /** A follower that has applied all it knows to be committed. */
    constructor (id: Id, peers: set<Id>, bodies: MapCodec, store: Store, sm: StateMachine, snapshot: Snapshot,
        entries: seq<Entry>, ghost d: Disk)
      requires id !in peers && Faithful(bodies)
      requires store.Valid() && store.torn == [] && OnDisk(d, store.hard, store.snap, store.lines)
      requires d.wal == d.log && d.base == d.snap && d.loadable && d.snap <= d.commit <= |d.log|
      requires snapshot == store.snap && entries == d.log[d.snap..] && sm.data == Fold(d.log[..d.commit])
      ensures this.store == store && this.sm == sm && fresh(waiters)
      ensures Valid() && node == Started(d)
    {
      this.id, this.peers, this.bodies, this.store, this.sm := id, peers, bodies, store, sm;
      this.waiters := new Waiters();
      mem := Memory(Follower, store.hard.term, store.hard.vote, entries, snapshot, store.hard.commit, store.hard.commit,
                    0, map[], map[], None, false, None, None, None, None);
      node, proposed := Started(d), map[];
    }

    /** Start from disk. Files that can be loaded give the node that `Restart` describes; the
        machine runs the committed entries after the snapshot again. Whether or not that
        succeeds, it leaves files that give the same node at the next attempt. */
    static method Recover(id: Id, peers: set<Id>, bodies: MapCodec, store: Store, ioLoad: Outcome, ioHard: Outcome,
        ghost d: Disk)
      returns (r: Option<Replica>, ghost left: Disk)
      requires id !in peers && Faithful(bodies)
      requires store.Valid() && OnDisk(d, store.hard, store.snap, store.lines)
      modifies store
      ensures store.Valid()
      ensures r.Some? <==> && d.loadable && (ioLoad.Ok? || !NeedsRewrite(old(store.snap), old(store.lines)))
                           && (ioHard.Ok? || RecoveredCommit(d) == d.commit)
      ensures r.Some? ==> r.value.Valid() && r.value.store == store && r.value.node == Restart(d)
      ensures OnDisk(left, store.hard, store.snap, store.lines) && LeftByRecovery(d, left)
      ensures Restart(left) == Restart(d) && left.loadable == d.loadable
    {
      hide OnDisk, Represents, LoadOf, LinesAfterLoad, NeedsRewrite, Restart, Started, Store.Valid;
      SnapIsInside(d, store.hard, store.snap, store.lines);
      if d.loadable {
        LoadFinds(d, store.hard, store.snap, store.lines);
      } else {
        LoadRefuses(d, store.hard, store.snap, store.lines);
      }
      ghost var lines, e := store.lines, d.(wal := d.log, base := d.snap);
      var loaded := store.Load(ioLoad);
      left := if store.lines == lines then d else e;
      RecoverAgain(d, left);
      if loaded.LoadError? {
        return None, left;
      }
      RecoverAgain(d, e);
      r, left := StartFrom(id, peers, bodies, store, loaded.entries, ioHard, e);
    }

    /** Start from what a load has found: write the recovered commit index if it is new, and build
        the node. */
    static method StartFrom(id: Id, peers: set<Id>, bodies: MapCodec, store: Store, entries: seq<Entry>, io: Outcome,
        ghost d: Disk)
      returns (r: Option<Replica>, ghost left: Disk)
      requires id !in peers && Faithful(bodies) && store.Valid() && store.torn == []
      requires OnDisk(d, store.hard, store.snap, store.lines) && store.hard.commit == d.commit
      requires d.loadable && d.wal == d.log && d.base == d.snap <= |d.log|
      requires entries == d.log[d.snap..] && Represents(d.log, store.snap, entries) && store.snap.index == d.snap
      modifies store`hard
      ensures store.Valid() && OnDisk(left, store.hard, store.snap, store.lines)
      ensures r.Some? <==> io.Ok? || RecoveredCommit(d) == d.commit
      ensures r.Some? ==> r.value.Valid() && r.value.store == store && r.value.node == Restart(d)
      ensures left == d || left == d.(commit := RecoveredCommit(d))
    {
      hide OnDisk, Represents, Fold, Store.Valid;
      left := d;
      var commit, sm := Replay(store.hard.commit, store.snap, entries, d.log);
      if store.hard.commit != commit {
        HardMeans(d, store.hard, store.snap, store.lines);
        HardOnDisk(d, store.hard, store.snap, store.lines, d.term, d.vote, commit, io);
        var ok := store.SaveHardState(HardState(store.hard.term, store.hard.vote, commit), io);
        left := SaveHard(d, d.term, d.vote, commit, io);
        if !ok {
          return None, left;
        }
      }
      var replica := new Replica(id, peers, bodies, store, sm, store.snap, entries, d.(commit := commit));
      r := Some(replica);
    }

    /** Restore the snapshot and apply the committed entries after it. */
    static method Replay(committed: nat, snap: Snapshot, entries: seq<Entry>, ghost full: Log)
        returns (commit: nat, sm: StateMachine)
      requires Represents(full, snap, entries)
      ensures commit == Min(Max(committed, snap.index), |full|)
      ensures fresh(sm) && snap.index <= commit <= |full| && sm.data == Fold(full[..commit])
    {
      hide Fold, LastIndex, Represents, Applied;
      LookupsAgree(full, snap, entries, 0);
      RepresentsMeans(full, snap, entries);
      sm := new StateMachine();
      sm.Restore(snap.data);
      commit := Max(committed, snap.index);
      if commit > LastIndex(snap, entries) {
        commit := LastIndex(snap, entries);
      }
      var i := 0;
      while i < |entries| && entries[i].index <= commit
        invariant i <= |entries| && snap.index + i <= commit
        invariant sm.data == Fold(full[..snap.index + i])
      {
        FoldNext(full, snap.index + i);
        var _ := sm.Apply(entries[i].command);
        i := i + 1;
      }
    }

    // ---------------------------------------------------------- failing and following

    method Persist(io: Outcome) returns (ok: bool)
      requires Parts() && Sound()
      modifies this`node, store`hard
      ensures Parts() && Sound() && ok == io.Ok?
      ensures node == Protocol.Persist(old(node), io)
    {
      PersistOk(node, store.hard, store.snap, store.lines, store.torn, mem.captured, mem.saving, io);
      ok := store.SaveHardState(HardState(mem.term, mem.vote, mem.commit), io);
      node := Protocol.Persist(node, io);
    }

    method FailUncommitted()
      requires Parts() && Sound()
      modifies waiters`slots, waiters`replies
      ensures Parts() && Sound() && NobodyAbove(waiters.slots, mem.commit)
      ensures Dismissed(old(waiters.slots), old(waiters.replies), waiters.slots, waiters.replies, mem.commit)
    {
      DismissOk(node.log, node.applied, waiters.slots, waiters.replies, proposed, mem.commit);
      waiters.FailAbove(mem.commit);
    }

    method FailStorage()
      requires Parts() && Steady()
      modifies this`mem, this`node, waiters`slots, waiters`replies
      ensures Valid() && node == Fail(old(node)) && Untouched(old(mem), mem)
      ensures Dismissed(old(waiters.slots), old(waiters.replies), waiters.slots, waiters.replies, mem.commit)
    {
      mem := mem.(fatal := true, role := Follower, noop := 0);
      node := Fail(node);
      FailUncommitted();
    }

    /** Take the role of a follower, in the higher of the two terms. */
    method StepBack(term: nat)
      requires Parts() && Sound()
      modifies this`mem, this`node
      ensures Parts() && Sound() && mem == old(mem).(term := mem.term, vote := mem.vote, role := Follower, noop := 0)
      ensures mem.term == Max(old(mem.term), term) && mem.vote == (if term > old(mem.term) then None else old(mem.vote))
      ensures node == old(node).(term := mem.term, vote := mem.vote, role := Follower, noop := 0)
    {
      var raised := if term > mem.term then mem.(term := term, vote := None) else mem;
      mem := raised.(role := Follower, noop := 0);
      node := node.(term := mem.term, vote := mem.vote, role := Follower, noop := 0);
    }

    method BecomeFollower(term: nat, io: Outcome) returns (ok: bool)
      requires Valid()
      modifies this`mem, this`node, store`hard, waiters`slots, waiters`replies
      ensures Valid() && ok == io.Ok? && mem.fatal == (!ok || old(mem.fatal))
      ensures Untouched(old(mem), mem)
      ensures node == Protocol.BecomeFollower(old(node), term, io)
      ensures Dismissed(old(waiters.slots), old(waiters.replies), waiters.slots, waiters.replies, mem.commit)
    {
      hide LogOk, OnDisk, Synced, SavingOk, MachineOk, TransferOk, WaitersOk, NobodyAbove, Waiters.Valid,
           Store.Valid, Dismissed;
      var wasLeader := mem.role.Leader?;
      if !wasLeader {
        NobodyDismissed(waiters.slots, waiters.replies, mem.commit);
      }
      StepBack(term);
      ok := Persist(io);
      if !ok {
        FailStorage();
      } else if wasLeader {
        FailUncommitted();
      }
    }

    // ---------------------------------------------------------- elections

    method StartElection(io: Outcome) returns (started: bool)
      requires Valid()
      modifies this`mem, this`node, store`hard
      ensures Valid()
      ensures var (s, r) := Protocol.StartElection(old(node), id, io);
              node == s && started == r
      ensures Untouched(old(mem), mem)
    {
      hide LogOk, OnDisk, Synced, SavingOk, MachineOk, TransferOk, WaitersOk, NobodyAbove, Waiters.Valid, Store.Valid;
      if mem.role.Leader? || mem.fatal {
        return false;
      }
      var prev := mem;
      mem := mem.(role := Candidate, term := mem.term + 1, vote := Some(id), noop := 0);
      node := node.(role := Candidate, term := mem.term, vote := mem.vote, noop := 0);
      started := Persist(io);
      if !started {
        mem := mem.(role := prev.role, term := prev.term, vote := prev.vote);
        node := node.(role := prev.role, term := prev.term, vote := prev.vote);
      }
    }

    method HandleRequestVote(m: VoteRequest, ioTerm: Outcome, ioVote: Outcome) returns (granted: bool)
      requires Valid()
      modifies this`mem, this`node, store`hard, waiters`slots, waiters`replies
      ensures Valid()
      ensures if m.cand in peers then var (s, r) := HandleVote(old(node), m, ioTerm, ioVote);
                                      node == s && granted == r
              else node == old(node) && !granted
      ensures Untouched(old(mem), mem)
    {
      hide Protocol.BecomeFollower, Protocol.GiveVote, Attended, OnDisk;
      if mem.fatal || m.cand !in peers || m.term < mem.term {
        return false;
      }
      if m.term > mem.term {
        var ok := BecomeFollower(m.term, ioTerm);
        if !ok {
          return false;
        }
      }
      granted := GiveVote(m, ioVote);
    }

    method GiveVote(m: VoteRequest, io: Outcome) returns (granted: bool)
      requires Valid()
      modifies this`mem, this`node, store`hard
      ensures Valid()
      ensures var (s, r) := Protocol.GiveVote(old(node), m, io);
              node == s && granted == r
      ensures Untouched(old(mem), mem)
    {
      hide LogOk, OnDisk, Synced, SavingOk, MachineOk, TransferOk, WaitersOk, NobodyAbove, Waiters.Valid, Store.Valid;
      hide MayVote, LastTermOf, LastIndex, LastTerm;
      LastIs(node, mem.snapshot, mem.log);
      if !MayVote(mem.vote, m, LastIndex(mem.snapshot, mem.log), LastTermOf(mem.snapshot, mem.log)) {
        return false;
      }
      var prevVote := mem.vote;
      mem := mem.(vote := Some(m.cand));
      node := node.(vote := mem.vote);
      granted := Persist(io);
      if !granted {
        mem := mem.(vote := prevVote);
        node := node.(vote := prevVote);
      }
    }

    // ---------------------------------------------------------- committing

    /** How many peers are known to hold the log up to an index. */
    method CountHolders(index: nat) returns (count: nat)
      ensures count == |Holders(mem.acked, peers, index)|
    {
      count := 0;
      var todo := peers;
      assert Holders(mem.acked, peers - todo, index) == {};
      while todo != {}
        invariant todo <= peers
        invariant count == |Holders(mem.acked, peers - todo, index)|
        decreases todo
      {
        var p :| p in todo;
        ghost var before := Holders(mem.acked, peers - todo, index);
        todo := todo - {p};
        if Get(mem.acked, p) >= index {
          count := count + 1;
          assert Holders(mem.acked, peers - todo, index) == before + {p};
        } else {
          assert Holders(mem.acked, peers - todo, index) == before;
        }
      }
      assert peers - todo == peers;
    }

    /** Look for the highest entry of this term on a majority, from the end of the log down. */
    method FindCommit() returns (target: nat)
      requires Mirrors(mem, node) && LogOk(node.log, node.snap, node.applied, node.commit, mem.snapshot, mem.log)
      ensures target == CommitTarget(node, peers, |node.log|)
    {
      LastIs(node, mem.snapshot, mem.log);
      target := LastIndex(mem.snapshot, mem.log);
      while target > mem.commit
        invariant mem.commit <= target <= |node.log|
        invariant CommitTarget(node, peers, |node.log|) == CommitTarget(node, peers, target)
      {
        hide LogOk, TermOf, LastIndex;
        TermIs(node, mem.snapshot, mem.log, target);
        LogBounds(node, mem.snapshot, mem.log);
        if TermOf(mem.snapshot, mem.log, target) == Some(mem.term) {
          var count := CountHolders(target);
          if 1 + count >= Quorum(peers) {
            return;
          }
        }
        target := target - 1;
      }
    }

    method AdvanceCommit(io: Outcome)
      requires Valid() && mem.role.Leader?
      modifies this`mem, this`node, store`hard, waiters`slots, waiters`replies
      ensures Valid()
      ensures node == Protocol.AdvanceCommit(old(node), peers, io)
      ensures Untouched(old(mem), mem)
      ensures unchanged(waiters) ||
              Dismissed(old(waiters.slots), old(waiters.replies), waiters.slots, waiters.replies, mem.commit)
    {
      hide LogOk, OnDisk, Synced, SavingOk, MachineOk, TransferOk, WaitersOk, NobodyAbove, Waiters.Valid, Store.Valid;
      hide CommitTarget;
      LogBounds(node, mem.snapshot, mem.log);
      var target := FindCommit();
      if target == mem.commit {
        return;
      }
      CommitOk(node, mem, sm.data, target);
      var prev := mem.commit;
      mem := mem.(commit := target);
      node := node.(commit := target);
      var ok := Persist(io);
      if !ok {
        mem := mem.(commit := prev);
        node := node.(commit := prev);
        FailStorage();
      }
    }

    // ---------------------------------------------------------- leading

    ghost function FateOf(entries: seq<Entry>, io: FileOutcome): AppendOutcome
      reads store
    {
      Fate(store.codec, store.snap, store.lines, entries, io)
    }

    /** The log file is empty exactly when it holds no records. */
    lemma BatchIs(entries: seq<Entry>)
      requires store.Valid() && store.torn == []
      ensures store.Batch(entries) == Batch(store.snap, store.lines, entries)
    {
    }

    /** Write entries to the log file, before the log in memory changes. */
    method StoreEntries(entries: seq<Entry>, io: FileOutcome) returns (ok: bool)
      requires Parts() && Sound() && !node.fatal && entries != [] && Contiguous(entries, |node.log|)
      modifies this`node, store`wal, store`lines, store`torn
      ensures Parts() && Steady() && ok == io.Written?
      ensures node == old(node).(disk := AppendLog(old(node).disk, entries, old(FateOf(entries, io))))
      ensures ok ==> Synced(node.log + entries, node.applied, node.disk, store.lines, store.torn)
    {
      hide LogOk, OnDisk, Synced, SavingOk, MachineOk, TransferOk, WaitersOk, NobodyAbove, Waiters.Valid, Store.Valid;
      hide AppendLog, Items, Fate, Contiguous;
      LogBounds(node, mem.snapshot, mem.log);
      SyncedMeans(node, store.lines, store.torn);
      BatchIs(entries);
      AppendOk(node, store.codec, store.hard, store.snap, store.lines, entries, io, mem.captured, mem.saving);
      ghost var batch := store.Batch(entries);
      assert batch[..|batch|] == batch;
      ghost var fate := FateOf(entries, io);
      ok := store.AppendEntries(entries, io);
      node := node.(disk := AppendLog(node.disk, entries, fate));
    }

    /** Add entries to the log: file first, then memory. */
    method AddToLog(entries: seq<Entry>, io: FileOutcome) returns (ok: bool)
      requires Valid() && !mem.fatal && entries != [] && Contiguous(entries, |node.log|)
      modifies this`mem, this`node, store`wal, store`lines, store`torn, waiters`slots, waiters`replies
      ensures Valid() && ok == io.Written? && (ok ==> unchanged(waiters))
      ensures var t := old(node).(disk := AppendLog(old(node).disk, entries, old(FateOf(entries, io))));
              node == if ok then t.(log := t.log + entries) else Fail(t)
      ensures Untouched(old(mem), mem)
    {
      hide LogOk, OnDisk, Synced, SavingOk, MachineOk, TransferOk, WaitersOk, NobodyAbove, Waiters.Valid, Store.Valid;
      hide AppendLog, Fate, Contiguous;
      ok := StoreEntries(entries, io);
      if !ok {
        FailStorage();
        return;
      }
      ExtendOk(node, mem, sm.data, entries, waiters.slots, waiters.replies, proposed, store.snap);
      mem := mem.(log := mem.log + entries);
      node := node.(log := node.log + entries);
    }

    /** Add one entry to this leader's own log. */
    method AppendOwn(e: Entry, io: FileOutcome) returns (ok: bool)
      requires Valid() && mem.role.Leader? && !mem.fatal && e.index == |node.log| + 1
      modifies this`mem, this`node, store`wal, store`lines, store`torn, waiters`slots, waiters`replies
      ensures Valid() && ok == io.Written?
      ensures var t := old(node).(disk := AppendLog(old(node).disk, [e], old(FateOf([e], io))));
              node == if ok then t.(log := t.log + [e], acked := t.acked[id := e.index]) else Fail(t)
      ensures ok ==> unchanged(waiters)
      ensures Untouched(old(mem).(next := mem.next), mem)
      ensures mem.next == if ok then old(mem.next)[id := e.index + 1] else old(mem.next)
    {
      hide LogOk, OnDisk, Synced, SavingOk, MachineOk, TransferOk, WaitersOk, NobodyAbove, Waiters.Valid, Store.Valid;
      hide AppendLog, Fate;
      ok := AddToLog([e], io);
      if ok {
        mem := mem.(acked := mem.acked[id := e.index], next := mem.next[id := e.index + 1]);
        node := node.(acked := mem.acked);
      }
    }

    /** A leader starts out knowing nothing about its peers' logs. */
    method FreshIndices(last: nat) returns (next: map<Id, nat>, acked: map<Id, nat>)
      requires id !in peers
      ensures acked == Indices(peers, 0)[id := last] && next == Indices(peers, last + 1)[id := last + 1]
    {
      acked := map[id := last];
      next := map[id := last + 1];
      var todo := peers;
      while todo != {}
        invariant todo <= peers
        invariant acked.Keys == next.Keys == {id} + (peers - todo)
        invariant forall p :: p in peers - todo ==> acked[p] == 0 && next[p] == last + 1
        invariant acked[id] == last && next[id] == last + 1
        decreases todo
      {
        var p :| p in todo;
        todo := todo - {p};
        next := next[p := last + 1];
        acked := acked[p := 0];
      }
    }

    method BecomeLeader(term: nat, io: FileOutcome, ioCommit: Outcome)
      requires Valid()
      modifies this`mem, this`node, store, waiters`slots, waiters`replies
      ensures Valid()
      ensures if term == old(mem.term)
              then node == Protocol.BecomeLeader(old(node), id, peers, old(FateOf([NextEntry(node, Noop)], io)),
                  ioCommit)
              else node == old(node)
      ensures Untouched(old(mem).(next := mem.next), mem)
      ensures if old(mem.role).Candidate? && term == old(mem.term)
              then forall p :: p in peers ==> Get(mem.next, p) == |old(node.log)| + 1
              else mem.next == old(mem.next)
    {
      hide LogOk, OnDisk, Synced, SavingOk, MachineOk, TransferOk, WaitersOk, NobodyAbove, Waiters.Valid, Store.Valid;
      hide AppendLog, Fate, Protocol.AdvanceCommit;
      if !mem.role.Candidate? || mem.term != term {
        return;
      }
      LastIs(node, mem.snapshot, mem.log);
      var last := LastIndex(mem.snapshot, mem.log);
      var next, acked := FreshIndices(last);
      mem := mem.(role := Leader, next := next, acked := acked);
      node := node.(role := Leader, acked := acked);
      var e := Entry(last + 1, term, Noop);
      var ok := AppendOwn(e, io);
      if ok {
        mem := mem.(noop := e.index);
        node := node.(noop := e.index);
        AdvanceCommit(ioCommit);
      }
    }

    /** Append a client's command and register a channel for its outcome. */
    method ProposeAppend(command: Command, io: FileOutcome, ioCommit: Outcome) returns (r: Option<Ticket>)
      requires Valid()
      modifies this`mem, this`node, this`proposed, store, waiters
      ensures Valid()
      ensures var (s, ok) := Propose(old(node), id, peers, command, old(FateOf([NextEntry(node, command)], io)),
              ioCommit);
              node == s && r.Some? == ok
      ensures if r.Some?
              then r.value !in old(proposed) &&
                   proposed == old(proposed)[r.value := Entry(|old(node.log)| + 1, old(node.term), command)]
              else proposed == old(proposed)
      ensures Untouched(old(mem).(next := mem.next), mem)
      ensures mem.next == if r.Some? then old(mem.next)[id := |old(node.log)| + 2] else old(mem.next)
      ensures r.Some? ==> || WaitsAt(waiters.slots, |old(node.log)| + 1, r.value)
                          || (r.value in waiters.replies && waiters.replies[r.value] == Waiting.NotLeader)
    {
      hide LogOk, OnDisk, Synced, SavingOk, MachineOk, TransferOk, WaitersOk, NobodyAbove, Waiters.Valid, Store.Valid;
      hide AppendLog, Fate, Protocol.AdvanceCommit;
      if mem.fatal || !mem.role.Leader? {
        return None;
      }
      LastIs(node, mem.snapshot, mem.log);
      var e := Entry(LastIndex(mem.snapshot, mem.log) + 1, mem.term, command);
      var ok := AppendOwn(e, io);
      if !ok {
        return None;
      }
      var w := Enlist(e);
      ghost var slots, replies := waiters.slots, waiters.replies;
      AdvanceCommit(ioCommit);
      if waiters.slots != slots || waiters.replies != replies {
        WaitsOrTold(slots, replies, waiters.slots, waiters.replies, mem.commit, e.index, w);
      }
      r := Some(w);
    }

    method Enlist(e: Entry) returns (w: Ticket)
      requires Valid() && mem.role.Leader? && e.index == |node.log| > 0 && node.log[e.index - 1] == e
      modifies this`proposed, waiters
      ensures Valid() && w !in old(proposed) && proposed == old(proposed)[w := e] && WaitsAt(waiters.slots, e.index, w)
    {
      hide LogOk, OnDisk, Synced, SavingOk, MachineOk, TransferOk, WaitersOk, NobodyAbove, Waiters.Valid, Store.Valid;
      ghost var before := waiters.slots;
      w := waiters.Register(e.index);
      RegisterOk(node.log, node.applied, before, waiters.replies, proposed, w, e);
      proposed := proposed[w := e];
    }

    // ---------------------------------------------------------- following

    /** Where the leader should try next after a mismatch at prev. */
    method FindConflict(prev: nat) returns (c: nat)
      requires LogOk(node.log, node.snap, node.applied, node.commit, mem.snapshot, mem.log)
      ensures c == ConflictIndex(node.log, node.snap, prev)
    {
      LastIs(node, mem.snapshot, mem.log);
      if prev > LastIndex(mem.snapshot, mem.log) {
        return LastIndex(mem.snapshot, mem.log) + 1;
      }
      if prev <= mem.snapshot.index {
        return mem.snapshot.index + 1;
      }
      c := prev;
      TermIs(node, mem.snapshot, mem.log, prev);
      TermIs(node, mem.snapshot, mem.log, c - 1);
      while c > mem.snapshot.index + 1 && TermOf(mem.snapshot, mem.log, c - 1) == TermOf(mem.snapshot, mem.log, prev)
        invariant mem.snapshot.index < c <= prev <= |node.log| && node.log[c - 1].term == node.log[prev - 1].term
        invariant ConflictIndex(node.log, node.snap, prev) == ConflictIndex(node.log, node.snap, c)
        invariant TermOf(mem.snapshot, mem.log, c - 1) == Some(TermAt(node.log, c - 1))
      {
        hide LogOk, TermOf;
        c := c - 1;
        TermIs(node, mem.snapshot, mem.log, c - 1);
      }
    }

    /** The entries above the snapshot must follow prev one by one; otherwise the first index out
        of step. */
    method ValidateEntries(prev: nat, entries: seq<Entry>) returns (c: nat)
      ensures var news := After(entries, mem.snapshot.index);
              && (c == 0 <==> Contiguous(news, prev))
              && (c != 0 ==>
                    && prev < c <= prev + |news| && news[c - prev - 1].index != c
                    && Contiguous(news[..c - prev - 1], prev))
    {
      hide After;
      var last := 0;
      ghost var news := After(entries, mem.snapshot.index);
      ghost var done := [];
      NoneAfter(mem.snapshot.index);
      for i := 0 to |entries|
        invariant done == After(entries[..i], mem.snapshot.index) && Contiguous(done, prev)
        invariant last == if done == [] then 0 else prev + |done|
      {
        var e := entries[i];
        FreshNext(entries, mem.snapshot.index, i);
        if e.index <= mem.snapshot.index {
          continue;
        }
        if last == 0 && e.index != prev + 1 {
          return prev + 1;
        }
        if last != 0 && e.index != last + 1 {
          return last + 1;
        }
        last := e.index;
        done := done + [e];
      }
      assert entries[..|entries|] == entries;
      c := 0;
    }

    /** The last index that a request covers. */
    method LastNew(prev: nat, entries: seq<Entry>) returns (last: nat)
      ensures var news := After(entries, mem.snapshot.index);
              Contiguous(news, prev) ==> last == prev + |news|
    {
      hide After;
      last := prev;
      ghost var news := After(entries, mem.snapshot.index);
      NoneAfter(mem.snapshot.index);
      for i := 0 to |entries|
        invariant Contiguous(news, prev) ==> last == prev + |After(entries[..i], mem.snapshot.index)|
      {
        FreshNext(entries, mem.snapshot.index, i);
        if entries[i].index > mem.snapshot.index && entries[i].index > last {
          last := entries[i].index;
        }
      }
      assert entries[..|entries|] == entries;
    }

    /** Walk through the entries of a request, skipping what the snapshot or the log has already.
        The result is the new live log, and what was added to it or that its end was replaced.
        The end is replaced by the request from the conflict on as it is, so it comes out right
        exactly if no entry under the snapshot comes after the conflict. */
    method MergeEntries(prev: nat, entries: seq<Entry>)
        returns (conflict: nat, live: seq<Entry>, replaced: bool, added: seq<Entry>)
      requires Mirrors(mem, node) && LogOk(node.log, node.snap, node.applied, node.commit, mem.snapshot, mem.log)
      requires node.snap <= prev <= |node.log| && Contiguous(After(entries, node.snap), prev)
      ensures var news := After(entries, node.snap);
              match Protocol.MergeEntries(node.log, node.commit, prev, news)
              case CommittedConflict(i) => conflict == i > 0
              case Unchanged => conflict == 0 && live == mem.log && !replaced && added == []
              case Extended(more) => conflict == 0 && live == mem.log + more && !replaced && added == more
              case Replaced(full) =>
                && conflict == 0 && replaced && added == []
                && (live == full[node.snap..] <==>
                      |news| - FirstConflict(node.log, prev, news, 0) <= FreshTail(entries, node.snap))
    {
      hide LogOk, Contiguous, FirstConflict, HasTerm, TermOf, LastIndex, Protocol.MergeEntries, After, FreshTail;
      ghost var news := After(entries, node.snap);
      LogBounds(node, mem.snapshot, mem.log);
      MergeCases(node.log, node.commit, prev, news);
      conflict, live, replaced, added := 0, mem.log, false, [];
      ghost var k := FirstConflict(node.log, prev, news, 0);
      NoneAfter(node.snap);
      for i := 0 to |entries|
        invariant conflict == 0 && !replaced && live == mem.log + added
        invariant var j := |After(entries[..i], node.snap)|;
                  j <= |news| && if j <= k then added == [] else prev + k == |node.log| && added == news[k..j]
      {
        var e := entries[i];
        FreshNext(entries, node.snap, i);
        if e.index <= mem.snapshot.index {
          continue;
        }
        ghost var j := |After(entries[..i], node.snap)|;
        if j <= k {
          MergeStep(node, mem.snapshot, mem.log, prev, news, j);
          assert live == mem.log;
        } else {
          AddStep(mem.snapshot, mem.log, prev, news, k, j);
        }
        if e.index <= LastIndex(mem.snapshot, live) {
          if TermOf(mem.snapshot, live, e.index) == Some(e.term) {
            continue;
          }
          if e.index <= mem.commit {
            conflict := e.index;
            return;
          }
          live := CutAndAdd(entries, i);
          replaced := true;
          return;
        }
        live := live + [e];
        added := added + [e];
      }
      assert entries[..|entries|] == entries;
      assert news[k..|news|] == news[k..];
    }

    /** Cut the live log before entry i of the request and add what is left of the request. */
    method CutAndAdd(entries: seq<Entry>, i: nat) returns (live: seq<Entry>)
      requires LogOk(node.log, node.snap, node.applied, node.commit, mem.snapshot, mem.log)
      requires i < |entries| && node.snap < entries[i].index <= |node.log|
      ensures var news, j := After(entries, node.snap), |After(entries[..i], node.snap)|;
              && j <= |news|
              && (live == (node.log[..entries[i].index - 1] + news[j..])[node.snap..] <==>
                    |news| - j <= FreshTail(entries, node.snap))
    {
      hide After, FreshTail;
      FreshFrom(entries, node.snap, i);
      var kept := mem.log[..entries[i].index - 1 - mem.snapshot.index];
      live := kept + entries[i..];
      ghost var right := After(entries, node.snap)[|After(entries[..i], node.snap)|..];
      assert (node.log[..entries[i].index - 1] + right)[node.snap..] == kept + right;
      assert live[|kept|..] == entries[i..] && (kept + right)[|kept|..] == right;
    }

    /** Replace the log file, before the log in memory changes. */
    method StoreLog(live: seq<Entry>, ghost full: Log, io: Outcome) returns (ok: bool)
      requires Parts() && Sound() && !node.fatal && Represents(full, mem.snapshot, live) &&
               SameUpTo(node.log, full, node.commit)
      modifies this`node, store`wal, store`lines, store`torn
      ensures Parts() && Steady() && ok == io.Ok?
      ensures node == old(node).(disk := ReplaceLog(old(node).disk, full, old(node).snap, io))
      ensures ok ==> Synced(full, node.applied, node.disk, store.lines, store.torn)
    {
      hide LogOk, OnDisk, Synced, SavingOk, MachineOk, TransferOk, WaitersOk, NobodyAbove, Waiters.Valid, Store.Valid;
      hide ReplaceLog, Items, Represents, SameUpTo;
      SyncedMeans(node, store.lines, store.torn);
      ReplaceOk(node, mem, store.hard, store.snap, store.lines, full, live, io);
      ghost var d := ReplaceLog(node.disk, full, node.snap, io);
      ok := store.ReplaceEntries(live, io);
      node := node.(disk := d);
    }

    /** Replace the end of the log, above the commit index: file first, then memory. */
    method ReplaceTail(live: seq<Entry>, ghost full: Log, io: Outcome) returns (ok: bool)
      requires Valid() && !mem.fatal && mem.role.Follower?
      requires Represents(full, mem.snapshot, live) && SameUpTo(node.log, full, node.commit)
      modifies this`mem, this`node, store`wal, store`lines, store`torn, waiters`slots, waiters`replies
      ensures Valid() && ok == io.Ok?
      ensures var t := old(node).(disk := ReplaceLog(old(node).disk, full, old(node).snap, io));
              node == if ok then t.(log := full) else Fail(t)
      ensures Untouched(old(mem), mem)
    {
      hide LogOk, OnDisk, Synced, SavingOk, MachineOk, TransferOk, WaitersOk, NobodyAbove, Waiters.Valid, Store.Valid;
      hide ReplaceLog, Represents, SameUpTo;
      ok := StoreLog(live, full, io);
      if !ok {
        FailStorage();
        return;
      }
      SwapOk(node, mem, sm.data, full, live, waiters.slots, waiters.replies, proposed, store.snap);
      mem := mem.(log := live);
      node := node.(log := full);
    }

    method FollowCommit(commit: nat, io: Outcome) returns (reply: AppendReply)
      requires Valid() && mem.role.Follower? && commit <= |node.log|
      modifies this`mem, this`node, store`hard
      ensures Valid()
      ensures var (s, r) := Protocol.FollowCommit(old(node), commit, io);
              node == s && reply == r
      ensures Untouched(old(mem), mem)
    {
      hide LogOk, OnDisk, Synced, SavingOk, MachineOk, TransferOk, WaitersOk, NobodyAbove, Waiters.Valid, Store.Valid;
      if commit <= mem.commit {
        return Success;
      }
      CommitOk(node, mem, sm.data, commit);
      NobodyHigher(waiters.slots, mem.commit, commit);
      var prev := mem.commit;
      mem := mem.(commit := commit);
      node := node.(commit := commit);
      var ok := Persist(io);
      if !ok {
        mem := mem.(commit := prev);
        node := node.(commit := prev);
        return Refused;
      }
      reply := Success;
    }

    /** Store what a merge added or replaced and take it over into memory. The program switches
        to the new log first and back if the store fails; here it switches once it is stored. */
    method WriteEntries(ghost merge: Merge, live: seq<Entry>, replaced: bool, added: seq<Entry>, ioAdd: FileOutcome,
        ioSwap: Outcome) returns (ok: bool)
      requires Valid() && mem.role.Follower? && !mem.fatal && !merge.CommittedConflict?
      requires replaced == merge.Replaced? && added == if merge.Extended? then merge.added else []
      requires merge.Extended? ==> added != [] && Contiguous(added, |node.log|)
      requires merge.Replaced? ==> Represents(merge.log, mem.snapshot, live)
      requires merge.Replaced? ==> SameUpTo(node.log, merge.log, node.commit)
      modifies this`mem, this`node, store`wal, store`lines, store`torn, waiters`slots, waiters`replies
      ensures var fate := if merge.Extended? then old(FateOf(added, ioAdd)) else Stored;
              var t := old(node).(disk := WriteMerge(old(node), merge, fate, ioSwap));
              && ok == WriteOk(merge, fate, ioSwap)
              && node == if ok then t.(log := MergedLog(old(node.log), merge)) else Fail(t)
      ensures Valid()
      ensures Untouched(old(mem), mem)
    {
      hide OnDisk, Attended, AppendLog, ReplaceLog, Fate, Contiguous, Represents, SameUpTo, LogOk, MachineOk,
           WaitersOk, SavingOk, Waiters.Valid;
      ok := true;
      if replaced {
        ok := ReplaceTail(live, merge.log, ioSwap);
      } else if added != [] {
        ok := AddToLog(added, ioAdd);
      }
    }

    ghost function MergeFateOf(m: AppendRequest, io: FileOutcome): AppendOutcome
      reads this`node, store
    {
      MergeFate(node.log, node.commit, store.codec, store.snap, store.lines, m, io)
    }

    /** Take up the entries of a request whose previous entry matches. */
    method AcceptEntries(m: AppendRequest, ioAdd: FileOutcome, ioSwap: Outcome, ioCommit: Outcome)
        returns (reply: AppendReply)
      requires Valid() && mem.role.Follower? && !mem.fatal
      requires node.snap <= m.prev <= |node.log| && TermAt(node.log, m.prev) == m.prevTerm
      requires Spliceable(node.log, node.commit, node.snap, m)
      modifies this`mem, this`node, store, waiters`slots, waiters`replies
      ensures Valid()
      ensures var f := Fresh(m, old(node.snap));
              if Contiguous(f.entries, f.prev)
              then var (s, r) := Protocol.AcceptEntries(old(node), f, old(MergeFateOf(f, ioAdd)), ioSwap, ioCommit);
                   node == s && reply == r
              else node == old(node) && OutOfStep(f.entries, f.prev, reply)
      ensures Untouched(old(mem), mem)
    {
      hide LogOk, OnDisk, Synced, SavingOk, MachineOk, TransferOk, WaitersOk, NobodyAbove, Waiters.Valid, Store.Valid;
      hide AppendLog, ReplaceLog, Fate, Protocol.MergeEntries, Protocol.FollowCommit, Contiguous, Represents,
           SameUpTo, WriteMerge, WriteOk, MergedLog, Fail, Untouched;
      hide Spliceable, After, FirstConflict, FreshTail;
      UntouchedTrans(mem, mem, mem);
      LogBounds(node, mem.snapshot, mem.log);
      ghost var f := Fresh(m, node.snap);
      var last := LastNew(m.prev, m.entries);
      var c := ValidateEntries(m.prev, m.entries);
      if c > 0 {
        return Conflict(c);
      }
      MergeKeeps(node, mem.snapshot, mem.log, f.prev, f.entries);
      MergeCovers(node.log, node.commit, f.prev, f.entries);
      SpliceableMeans(node.log, node.commit, node.snap, m);
      ghost var merge := Protocol.MergeEntries(node.log, node.commit, f.prev, f.entries);
      var conflict, live, replaced, added := MergeEntries(m.prev, m.entries);
      if conflict > 0 {
        return Conflict(conflict);
      }
      var ok := WriteEntries(merge, live, replaced, added, ioAdd, ioSwap);
      if !ok {
        return Refused;
      }
      ghost var written := mem;
      reply := FollowCommit(Min(m.commit, last), ioCommit);
      UntouchedTrans(old(mem), written, mem);
    }

    method AppendAsFollower(m: AppendRequest, ioAdd: FileOutcome, ioSwap: Outcome, ioCommit: Outcome)
        returns (reply: AppendReply)
      requires Valid() && mem.role.Follower? && !mem.fatal && Spliceable(node.log, node.commit, node.snap, m)
      modifies this`mem, this`node, store, waiters`slots, waiters`replies
      ensures Valid()
      ensures var f := Fresh(m, old(node.snap));
              if Contiguous(f.entries, f.prev)
              then var (s, r) := Protocol.AppendAsFollower(old(node), f, old(MergeFateOf(f, ioAdd)), ioSwap, ioCommit);
                   node == s && reply == r
              else node == old(node) && TurnedDown(old(node), f, reply)
      ensures Untouched(old(mem), mem)
    {
      hide MergeFate, Protocol.AcceptEntries, ConflictIndex, TermOf, TermAt, Contiguous, Spliceable, After;
      LogBounds(node, mem.snapshot, mem.log);
      TermIs(node, mem.snapshot, mem.log, m.prev);
      if m.prev < mem.snapshot.index {
        return Conflict(mem.snapshot.index + 1);
      }
      if TermOf(mem.snapshot, mem.log, m.prev) != Some(m.prevTerm) {
        var c := FindConflict(m.prev);
        return Conflict(c);
      }
      reply := AcceptEntries(m, ioAdd, ioSwap, ioCommit);
    }

    /** Become a follower of the sender unless already one in its term. */
    method Follow(term: nat, io: Outcome) returns (ok: bool)
      requires Valid() && !mem.fatal && term >= mem.term
      modifies this`mem, this`node, store`hard, waiters`slots, waiters`replies
      ensures Valid() && node == Protocol.Follow(old(node), term, io) && mem.role.Follower? && ok == !mem.fatal
      ensures Untouched(old(mem), mem)
    {
      hide Protocol.BecomeFollower, Attended, OnDisk;
      FollowKeeps(node, term, io);
      ok := true;
      if term > mem.term || !mem.role.Follower? {
        ok := BecomeFollower(term, io);
      }
    }

    /** A request may come with any term, any previous entry, and entries that leave gaps or that
        the snapshot covers already. Only one thing is asked of it: if the end of the log is to be
        replaced, no entry under the snapshot comes after the conflict. */
    method HandleAppendEntries(m: AppendRequest, ioTerm: Outcome, ioAdd: FileOutcome, ioSwap: Outcome,
        ioCommit: Outcome) returns (reply: AppendReply)
      requires Valid() && Spliceable(node.log, node.commit, node.snap, m)
      modifies this`mem, this`node, store, waiters`slots, waiters`replies
      ensures Valid()
      ensures m.leader !in peers ==> node == old(node) && reply.Refused?
      ensures var f := Fresh(m, old(node.snap));
              m.leader in peers && Contiguous(f.entries, f.prev) ==>
                var (s, r) := HandleAppend(old(node), f, ioTerm, old(MergeFateOf(f, ioAdd)), ioSwap, ioCommit);
                node == s && reply == r
      ensures m.leader in peers && !Contiguous(Fresh(m, old(node.snap)).entries, m.prev) ==>
                var t := Protocol.Follow(old(node), m.term, ioTerm);
                if old(node.fatal) || m.term < old(node.term) then node == old(node) && reply.Refused?
                else node == t && if t.fatal then reply.Refused? else TurnedDown(t, Fresh(m, old(node.snap)), reply)
      ensures Untouched(old(mem), mem)
    {
      hide Attended, Protocol.Follow, Protocol.AppendAsFollower, MergeFate, Contiguous, Spliceable, After;
      if mem.fatal || m.leader !in peers || m.term < mem.term {
        return Refused;
      }
      FollowKeeps(node, m.term, ioTerm);
      var ok := Follow(m.term, ioTerm);
      if !ok {
        return Refused;
      }
      reply := AppendAsFollower(m, ioAdd, ioSwap, ioCommit);
    }

    // ---------------------------------------------------------- receiving a snapshot

    method TakeChunk(k: Chunk, ghost m: ChunkRequest) returns (reply: ChunkReply, body: Bytes)
      requires Valid() && ChunkOf(k, m, bodies) && OneStream(node.transfer, m)
      modifies this`mem, this`node
      ensures Valid()
      ensures var (x, r) := Protocol.TakeChunk(old(node.transfer), m);
              node == old(node).(transfer := x) && reply == r
      ensures reply.Install? ==> body == bodies.encode(Fold(m.prefix))
      ensures Untouched(old(mem), mem)
    {
      hide LogOk, OnDisk, Synced, SavingOk, MachineOk, TransferOk, WaitersOk, NobodyAbove, Waiters.Valid, Store.Valid;
      hide ChunkOf, SameStream;
      body := [];
      SameProgressIs(node.transfer, mem.pending, k, m, bodies);
      ChunkMeans(k, m, bodies);
      if !SameProgress(mem.pending, k) {
        if k.offset != 0 {
          return Want(0), [];
        }
        StartOk(k, m, bodies);
        mem := mem.(pending := Some(Progress(k.leader, k.index, k.lastTerm, [])));
        node := node.(transfer := Receiving(m.leader, m.prefix, 0));
      }
      var p := mem.pending.value;
      if k.offset != |p.buffer| {
        return Want(|p.buffer|), [];
      }
      ChunkAdds(node.transfer, p, k, m, bodies);
      mem := mem.(pending := Some(p.(buffer := p.buffer + k.data)));
      node := node.(transfer := node.transfer.(received := m.end));
      if !k.done {
        return Taken(|p.buffer| + |k.data|), [];
      }
      return Install, p.buffer + k.data;
    }

    method DropPending()
      requires Valid()
      modifies this`mem, this`node
      ensures Valid() && node == Drop(old(node)) && mem == old(mem).(pending := None)
    {
      mem := mem.(pending := None);
      node := node.(transfer := Idle);
    }

    /** Follow the sender of a snapshot; if that fails, forget what was received. */
    method FollowOrDrop(term: nat, io: Outcome) returns (ok: bool)
      requires Valid() && !mem.fatal && term >= mem.term
      modifies this`mem, this`node, store`hard, waiters`slots, waiters`replies
      ensures Valid() && mem.role.Follower? && ok == !mem.fatal
      ensures Untouched(old(mem), mem)
      ensures var t := Protocol.Follow(old(node), term, io);
              ok == !t.fatal && node == if ok then t else Drop(t)
    {
      hide Protocol.Follow, OnDisk, Attended;
      ok := Follow(term, io);
      if !ok {
        DropPending();
      }
    }

    /** The first locked section. */
    method HandleChunk(k: Chunk, ioTerm: Outcome, ghost m: ChunkRequest) returns (reply: ChunkReply, body: Bytes)
      requires Valid() && ChunkOf(k, m, bodies) && OneStream(node.transfer, m)
      modifies this`mem, this`node, store`hard, waiters`slots, waiters`replies
      ensures Valid()
      ensures if k.leader in peers then var (s, r) := Protocol.HandleChunk(old(node), m, ioTerm);
                                        node == s && reply == r
              else node == old(node) && reply.ChunkRefused?
      ensures reply.Install? ==> body == bodies.encode(Fold(m.prefix))
      ensures Untouched(old(mem), mem)
    {
      hide LogOk, OnDisk, Synced, SavingOk, MachineOk, TransferOk, WaitersOk, NobodyAbove, Waiters.Valid, Store.Valid;
      hide Attended, ChunkOf, OneStream, Protocol.TakeChunk, Protocol.Follow;
      body := [];
      ChunkMeans(k, m, bodies);
      if mem.fatal || k.leader !in peers || k.term < mem.term {
        return ChunkRefused, [];
      }
      FollowKeepsStream(node, m.term, ioTerm);
      var ok := FollowOrDrop(k.term, ioTerm);
      if !ok {
        return ChunkRefused, [];
      }
      if k.index <= mem.commit {
        DropPending();
        return HaveAll, [];
      }
      reply, body := TakeChunk(k, m);
    }

    /** The live entries beyond an index. */
    method EntriesBeyond(index: nat) returns (live: seq<Entry>)
      ensures live == After(mem.log, index)
    {
      live := [];
      for i := 0 to |mem.log|
        invariant live == After(mem.log[..i], index)
      {
        assert mem.log[..i + 1][..i] == mem.log[..i];
        if mem.log[i].index > index {
          live := live + [mem.log[i]];
        }
      }
      assert mem.log[..|mem.log|] == mem.log;
    }

    /** What stays of the live log next to a received snapshot. */
    method LogAfterSnapshot(snap: Snapshot) returns (live: seq<Entry>)
      ensures live == LiveAfter(mem.snapshot, mem.log, snap)
    {
      if TermOf(mem.snapshot, mem.log, snap.index) != Some(snap.term) {
        return [];
      }
      live := EntriesBeyond(snap.index);
    }

    /** Write the snapshot, then the log after it, then the hard state; stop at the first error. */
    method InstallFiles(snap: Snapshot, live: seq<Entry>, ghost prefix: Log, ioSnap: Outcome, ioLog: Outcome,
        ioHard: Outcome) returns (ok: bool)
      requires Parts() && Sound() && !node.fatal && mem.saving.None?
      requires Newer(node, prefix, snap) && live == LiveAfter(mem.snapshot, mem.log, snap)
      modifies this`node, store
      ensures Parts() && Steady()
      ensures var (d, r) := InstallDisk(old(node), prefix, ioSnap, ioLog, ioHard);
              node == old(node).(disk := d) && ok == r
      ensures ok ==> store.snap == snap && store.torn == [] && store.lines != []
    {
      hide LogOk, OnDisk, Synced, SavingOk, MachineOk, TransferOk, WaitersOk, NobodyAbove, Waiters.Valid, Store.Valid;
      hide Newer, LiveAfter, ReplaceLog, SaveHard, Protocol.LogAfterSnapshot;
      NewerMeans(node, prefix, snap);
      NewerStays(node, SnapWritten(node, prefix, ioSnap), prefix, snap);
      ok := InstallFile(snap, prefix, ioSnap);
      if ok {
        ok := InstallTail(snap, live, prefix, ioLog);
        if ok {
          ok := InstallHard(snap.index, ioHard);
        }
      }
    }

    /** A crash during an install, after any of its writes, and the start from the real files that
        follows. Once the snapshot file is in place the node comes back with the log after the
        snapshot, and before that as if there had been no install. */
    method CrashInInstall(snap: Snapshot, ghost prefix: Log, ioSnap: Outcome, ioLog: Outcome, ioHard: Outcome,
        ioLoad: Outcome, ioSave: Outcome) returns (r: Option<Replica>)
      requires Valid() && !mem.fatal && mem.saving.None? && Newer(node, prefix, snap)
      modifies this`node, store
      ensures var fine := old(node.disk.loadable) || (ioSnap.Ok? && !ioLog.Lost?);
              (!fine ==> r.None?) && (fine && ioLoad.Ok? && ioSave.Ok? ==> r.Some?)
      ensures r.Some? ==> r.value.Valid() && r.value.store == store
      ensures r.Some? && ioSnap.Lost? ==> r.value.node == Restart(old(node.disk))
      ensures r.Some? && !ioSnap.Lost? ==>
                var s := r.value.node;
                && s.log == Protocol.LogAfterSnapshot(old(node.log), prefix) && prefix <= s.log
                && s.snap == |prefix| && s.applied == s.commit
                && s.commit == (if ioSnap.Ok? && ioLog.Ok? && !ioHard.Lost? then |prefix|
                                else Max(|prefix|, Min(old(node.disk.commit), |s.log|)))
    {
      hide LogOk, OnDisk, Synced, SavingOk, MachineOk, TransferOk, WaitersOk, NobodyAbove, Waiters.Valid, Store.Valid;
      StartsWithSnapshot(node.log, prefix);
      hide LiveAfter, Newer, Protocol.LogAfterSnapshot, Attended, Fold;
      var live := LogAfterSnapshot(snap);
      var ok := InstallFiles(snap, live, prefix, ioSnap, ioLog, ioHard);
      ghost var left;
      r, left := Recover(id, peers, bodies, store, ioLoad, ioSave, node.disk);
    }

    method InstallFile(snap: Snapshot, ghost prefix: Log, io: Outcome) returns (ok: bool)
      requires Parts() && Sound() && !node.fatal && mem.saving.None? && Newer(node, prefix, snap)
      modifies this`node, store`snap
      ensures Parts() && Steady() && ok == io.Ok? && (ok ==> store.snap == snap)
      ensures node == old(node).(disk := SnapWritten(old(node), prefix, io))
    {
      hide LogOk, OnDisk, Synced, SavingOk, MachineOk, TransferOk, WaitersOk, NobodyAbove, Waiters.Valid, Store.Valid;
      hide Newer;
      SyncedMeans(node, store.lines, store.torn);
      SnapWriteOk(node, mem, store.hard, store.snap, store.lines, prefix, snap, io);
      hide SnapWritten;
      ok := store.SaveSnapshot(snap, io);
      node := node.(disk := SnapWritten(node, prefix, io));
    }

    method InstallTail(snap: Snapshot, live: seq<Entry>, ghost prefix: Log, io: Outcome) returns (ok: bool)
      requires Parts() && Steady() && mem.saving.None? && Newer(node, prefix, snap) &&
               live == LiveAfter(mem.snapshot, mem.log, snap)
      requires store.snap == snap && node.disk.log == Protocol.LogAfterSnapshot(node.log, prefix) &&
               node.disk.snap == |prefix|
      modifies this`node, store`wal, store`lines, store`torn
      ensures Parts() && Steady() && ok == io.Ok? && (ok ==> store.torn == [] && store.lines != [])
      ensures node == old(node).(disk := ReplaceLog(old(node).disk, Protocol.LogAfterSnapshot(old(node).log, prefix),
              |prefix|, io))
    {
      hide Newer, LiveAfter, ReplaceLog, Protocol.LogAfterSnapshot, Items;
      LogWriteOk(node, mem, store.hard, store.lines, prefix, snap, live, io);
      ok := store.ReplaceEntries(live, io);
      node := node.(disk := ReplaceLog(node.disk, Protocol.LogAfterSnapshot(node.log, prefix), |prefix|, io));
    }

    method InstallHard(commit: nat, io: Outcome) returns (ok: bool)
      requires Parts() && Steady()
      modifies this`node, store`hard
      ensures Parts() && Steady() && ok == io.Ok?
      ensures node == old(node).(disk := SaveHard(old(node).disk, old(node).term, old(node).vote, commit, io))
    {
      PersistOk(node.(commit := commit), store.hard, store.snap, store.lines, store.torn, mem.captured, mem.saving, io);
      ok := store.SaveHardState(HardState(mem.term, mem.vote, commit), io);
      node := node.(disk := SaveHard(node.disk, node.term, node.vote, commit, io));
    }

    /** Disk first, then memory, then the machine. */
    method InstallSnapshot(snap: Snapshot, ghost prefix: Log, ioSnap: Outcome, ioLog: Outcome, ioHard: Outcome)
        returns (reply: ChunkReply)
      requires Valid() && !mem.fatal && mem.role.Follower? && mem.saving.None? && mem.inFlight.None? &&
               Newer(node, prefix, snap)
      modifies this`mem, this`node, store, sm, waiters`slots, waiters`replies
      ensures Valid()
      ensures var (s, r) := Protocol.InstallSnapshot(old(node), prefix, ioSnap, ioLog, ioHard);
              node == s && reply == r
      ensures Untouched(old(mem), mem)
    {
      hide LogOk, OnDisk, Synced, SavingOk, MachineOk, TransferOk, WaitersOk, NobodyAbove, Waiters.Valid, Store.Valid;
      MachineMeans(node, mem, sm.data);
      hide LiveAfter, Newer, SaveHard, Protocol.LogAfterSnapshot, Attended;
      assert NobodyAbove(waiters.slots, node.commit) by { AttendedMeans(node, waiters.slots); }
      NewerMeans(node, prefix, snap);
      var live := LogAfterSnapshot(snap);
      var ok := InstallFiles(snap, live, prefix, ioSnap, ioLog, ioHard);
      mem := mem.(pending := None);
      node := node.(transfer := Idle);
      IdleOk(bodies);
      if !ok {
        FailStorage();
        return ChunkRefused;
      }
      SwitchOver(snap, live, prefix);
      reply := HaveAll;
    }

    method SwitchOver(snap: Snapshot, live: seq<Entry>, ghost prefix: Log)
      requires Parts() && Steady() && !mem.fatal && mem.role.Follower? && mem.saving.None? && mem.inFlight.None? &&
               mem.ran.None? && Newer(node, prefix, snap)
      requires NobodyAbove(waiters.slots, node.commit) && live == LiveAfter(mem.snapshot, mem.log, snap)
      requires store.snap == snap && store.torn == [] && store.lines != []
      requires node.disk.snap == |prefix|
      requires node.disk.log == node.disk.wal == Protocol.LogAfterSnapshot(node.log, prefix)
      modifies this`mem, this`node, sm
      ensures Valid()
      ensures node == old(node).(log := Protocol.LogAfterSnapshot(old(node).log, prefix), snap := |prefix|,
              commit := |prefix|, applied := |prefix|)
      ensures Untouched(old(mem), mem)
    {
      hide LogOk, OnDisk, Synced, SavingOk, MachineOk, TransferOk, WaitersOk, NobodyAbove, Waiters.Valid, Store.Valid;
      SavingIdle(node, mem, store.snap);
      hide LiveAfter, Newer, Protocol.LogAfterSnapshot;
      NewerMeans(node, prefix, snap);
      InstalledOk(node, mem, node.disk, store.lines, prefix, snap, live, waiters.slots, waiters.replies, proposed);
      ghost var s := node.(log := Protocol.LogAfterSnapshot(node.log, prefix), snap := |prefix|, commit := |prefix|,
          applied := |prefix|);
      mem := mem.(snapshot := snap, log := live, commit := snap.index, applied := snap.index);
      sm.Restore(snap.data);
      node := s;
    }

    /** The second locked section, with everything checked again. No other snapshot is being
        written and no entry is being applied. */
    method FinishInstall(k: Chunk, body: Bytes, ioTerm: Outcome, ioSnap: Outcome, ioLog: Outcome, ioHard: Outcome,
        ghost m: ChunkRequest) returns (reply: ChunkReply)
      requires Valid() && mem.saving.None? && mem.inFlight.None?
      requires ChunkOf(k, m, bodies) && k.done && body == bodies.encode(Fold(m.prefix))
      requires InStep(node, m)
      modifies this`mem, this`node, store, sm, waiters`slots, waiters`replies
      ensures Valid()
      ensures if k.leader in peers then var (s, r) := Protocol.FinishInstall(old(node), m, ioTerm, ioSnap, ioLog,
              ioHard);
                                        node == s && reply == r
              else node == Drop(old(node)) && reply.ChunkRefused?
      ensures Untouched(old(mem), mem)
    {
      hide LogOk, OnDisk, Synced, SavingOk, MachineOk, TransferOk, WaitersOk, NobodyAbove, Waiters.Valid, Store.Valid;
      hide Attended, ChunkOf, InStep, Protocol.InstallAsFollower, Protocol.Follow, Fold, Drop;
      ChunkMeans(k, m, bodies);
      if k.leader !in peers {
        DropPending();
        return ChunkRefused;
      }
      if mem.fatal || k.term < mem.term {
        DropPending();
        return ChunkRefused;
      }
      FollowInStep(node, m, ioTerm);
      var ok := FollowOrDrop(k.term, ioTerm);
      if !ok {
        return ChunkRefused;
      }
      reply := InstallAsFollower(k, body, ioSnap, ioLog, ioHard, m);
    }

    method InstallAsFollower(k: Chunk, body: Bytes, ioSnap: Outcome, ioLog: Outcome, ioHard: Outcome,
        ghost m: ChunkRequest) returns (reply: ChunkReply)
      requires Valid() && mem.saving.None? && mem.inFlight.None? && !mem.fatal && mem.role.Follower?
      requires ChunkOf(k, m, bodies) && k.done && body == bodies.encode(Fold(m.prefix))
      requires InStep(node, m)
      modifies this`mem, this`node, store, sm, waiters`slots, waiters`replies
      ensures Valid()
      ensures var (s, r) := Protocol.InstallAsFollower(old(node), m, ioSnap, ioLog, ioHard);
              node == s && reply == r
      ensures Untouched(old(mem), mem)
    {
      hide LogOk, OnDisk, Synced, SavingOk, MachineOk, TransferOk, WaitersOk, NobodyAbove, Waiters.Valid, Store.Valid;
      hide Attended, ChunkOf, SameStream, Protocol.InstallSnapshot, Newer, Fold, SameUpTo;
      ChunkMeans(k, m, bodies);
      if k.index <= mem.commit {
        DropPending();
        return HaveAll;
      }
      SameProgressIs(node.transfer, mem.pending, k, m, bodies);
      if !SameProgress(mem.pending, k) || |mem.pending.value.buffer| != |body| {
        return Want(0);
      }
      NewerIs(node, k, m, bodies);
      var data := bodies.decode(body).value;
      reply := InstallSnapshot(Snapshot(k.index, k.lastTerm, data), m.prefix, ioSnap, ioLog, ioHard);
    }

    // ---------------------------------------------------------- applying

    /** Pick the next committed entry. */
    method BeginApply() returns (picked: bool)
      requires Valid() && mem.inFlight.None?
      modifies this`mem
      ensures Valid() && picked == (node.applied < node.commit)
      ensures if picked then mem.ran.None? && mem == old(mem).(inFlight := mem.inFlight) &&
                             mem.inFlight == EntryAt(mem.snapshot, mem.log, node.applied + 1) != None
              else mem == old(mem)
    {
      hide LogOk, OnDisk, Synced, SavingOk, MachineOk, TransferOk, WaitersOk, NobodyAbove, Waiters.Valid, Store.Valid;
      hide EntryAt;
      MachineMeans(node, mem, sm.data);
      LogBounds(node, mem.snapshot, mem.log);
      if mem.applied >= mem.commit {
        return false;
      }
      BeginOk(node, mem, sm.data);
      mem := mem.(inFlight := EntryAt(mem.snapshot, mem.log, mem.applied + 1));
      picked := true;
    }

    /** Run its command, without the lock. */
    method RunCommand()
      requires Valid() && mem.inFlight.Some? && mem.ran.None?
      modifies this`mem, sm
      ensures Valid() && mem == old(mem).(ran := Some(ResultOf(old(sm.data), old(mem.inFlight.value.command))))
    {
      hide LogOk, OnDisk, Synced, SavingOk, MachineOk, TransferOk, WaitersOk, NobodyAbove, Waiters.Valid, Store.Valid;
      hide Applied, ResultOf;
      RunOk(node, mem.inFlight.value, sm.data);
      var result := sm.Apply(mem.inFlight.value.command);
      mem := mem.(ran := Some(result));
    }

    /** Take the lock again and publish the result. The entry that was picked is still the next
        one, so the check that it is never discards a command that was run. */
    method Publish()
      requires Valid() && mem.ran.Some? && mem.captured.None? && mem.saving.None?
      modifies this`mem, this`node, waiters`slots, waiters`replies
      ensures Valid() && node == ApplyNext(old(node))
      ensures mem == old(mem).(applied := node.applied, inFlight := None, ran := None) && node.applied !in waiters.slots
      ensures node.applied in old(waiters.slots) ==>
                forall w :: w in old(waiters.slots)[node.applied] ==>
                  w in waiters.replies && waiters.replies[w] == Done(old(mem.ran.value))
    {
      hide LogOk, OnDisk, Synced, SavingOk, MachineOk, TransferOk, WaitersOk, NobodyAbove, Waiters.Valid, Store.Valid;
      hide EntryAt;
      MachineMeans(node, mem, sm.data);
      var e, result := mem.inFlight.value, mem.ran.value;
      StillNext(node, mem, e, mem.ran, sm.data);
      assert EntryAt(mem.snapshot, mem.log, e.index) == Some(e) && e.index == mem.applied + 1 <= mem.commit;
      FinishOk(node, mem, e, result, sm.data);
      FinishFilesOk(node, store.lines, store.torn, store.snap);
      DeliverOk(node, e, result, sm.data, waiters.slots, waiters.replies, proposed);
      AttendedLess(node, waiters.slots, waiters.slots - {e.index});
      waiters.Finish(e.index, result);
      mem := mem.(applied := e.index, inFlight := None, ran := None);
      node := node.(applied := e.index);
    }

    method FinishApply(every: nat)
      requires Valid() && mem.ran.Some? && mem.captured.None? && mem.saving.None?
      modifies this`mem, this`node, waiters`slots, waiters`replies
      ensures Valid() && node == ApplyNext(old(node))
      ensures mem == old(mem).(applied := node.applied, inFlight := None, ran := None, captured := mem.captured)
      ensures mem.captured.Some? <==> 0 < every < |mem.log| && node.applied > node.snap
      ensures node.applied in old(waiters.slots) ==>
                forall w :: w in old(waiters.slots)[node.applied] ==>
                  w in waiters.replies && waiters.replies[w] == Done(old(mem.ran.value))
    {
      hide LogOk, OnDisk, Synced, SavingOk, MachineOk, TransferOk, WaitersOk, NobodyAbove, Waiters.Valid, Store.Valid;
      hide ApplyNext, Attended;
      Publish();
      LogBounds(node, mem.snapshot, mem.log);
      if every > 0 && |mem.log| > every && mem.applied > mem.snapshot.index {
        Capture();
      }
    }

    method Capture()
      requires Valid() && mem.inFlight.None? && mem.ran.None? && mem.captured.None? && mem.saving.None?
      modifies this`mem
      ensures Valid() && mem == old(mem).(captured := Some(Snapshot(node.applied, TermAt(node.log, node.applied),
              sm.data)))
    {
      LogBounds(node, mem.snapshot, mem.log);
      CaptureOk(node, mem, sm.data, store.snap);
      var data := sm.Snapshot();
      mem := mem.(captured := Some(Snapshot(mem.applied, TermOf(mem.snapshot, mem.log, mem.applied).value, data)));
    }

    // ---------------------------------------------------------- compacting

    /** Write a captured snapshot unless a newer one has been installed meanwhile. */
    method WriteSnapshot(io: Outcome)
      requires Valid() && mem.captured.Some?
      modifies this`mem, this`node, store`snap
      ensures Valid() && mem == old(mem).(captured := None, saving := mem.saving)
      ensures node == if old(mem.captured).value.index <= old(node.snap) then old(node) else SaveSnapshot(old(node), io)
    {
      hide LogOk, OnDisk, Synced, SavingOk, MachineOk, TransferOk, WaitersOk, NobodyAbove, Waiters.Valid, Store.Valid;
      hide SnapshotOf, SaveSnapshot;
      var snap := mem.captured.value;
      LogBounds(node, mem.snapshot, mem.log);
      CapturedMeans(node, mem, store.snap);
      if snap.index <= mem.snapshot.index || snap.index > mem.applied {
        mem := mem.(captured := None);
        return;
      }
      CompactOk(node, mem, store.hard, store.snap, store.lines, store.torn, snap, io);
      var ok := store.SaveSnapshot(snap, io);
      mem := mem.(captured := None, saving := if ok then Some(snap) else None);
      node := SaveSnapshot(node, io);
    }

    /** Drop the entries under the snapshot that was written. */
    method DropCompacted(io: Outcome)
      requires Valid() && mem.saving.Some?
      modifies this`mem, this`node, store`wal, store`lines, store`torn
      ensures Valid() && mem == old(mem).(saving := None, snapshot := mem.snapshot, log := mem.log)
      ensures node == FinishSnapshot(old(node), io)
    {
      hide LogOk, OnDisk, Synced, SavingOk, MachineOk, TransferOk, WaitersOk, NobodyAbove, Waiters.Valid, Store.Valid;
      hide ReplaceLog, After, Items;
      DropOk(node, mem, store.hard, store.snap, store.lines, store.torn, io);
      LogBounds(node, mem.snapshot, mem.log);
      IdleSaving(node, mem, store.snap);
      var snap := mem.saving.value;
      if snap.index <= mem.snapshot.index || snap.index > mem.applied {
        mem := mem.(saving := None);
        node := node.(saving := 0);
        return;
      }
      var live := EntriesBeyond(snap.index);
      var ok := store.ReplaceEntries(live, io);
      mem := if ok then mem.(saving := None, snapshot := snap, log := live) else mem.(saving := None);
      node := FinishSnapshot(node, io);
    }

    // ---------------------------------------------------------- replicating

    /** What to send to a peer: its missing entries, or the snapshot if they are gone. */
    method PrepareAppend(peer: Id) returns (out: Outgoing)
      requires Valid()
      modifies this`mem
      ensures Valid() && mem == old(mem).(next := mem.next)
      ensures if !mem.role.Leader? then mem.next == old(mem.next)
              else if out.Nothing? then mem.next == old(mem.next)[peer := node.snap + 1]
              else if Get(old(mem.next), peer) == 0 then mem.next == old(mem.next)[peer := |node.log| + 1]
              else mem.next == old(mem.next)
      ensures var next := if Get(old(mem.next), peer) == 0 then |node.log| + 1 else Get(old(mem.next), peer);
              match out
              case Nothing => !mem.role.Leader? || (next > |node.log| + 1 && Get(mem.next, peer) == node.snap + 1)
              case SendSnapshot(snapshot) =>
                mem.role.Leader? && next <= node.snap == snapshot.index && SnapshotOf(node.log, snapshot)
              case SendAppend(m) =>
                mem.role.Leader? && node.snap < next <= |node.log| + 1 && m == MakeAppend(node, id, next)
    {
      hide LogOk, OnDisk, Synced, SavingOk, MachineOk, TransferOk, WaitersOk, NobodyAbove, Waiters.Valid, Store.Valid;
      hide SnapshotOf, TermOf, LastIndex, After;
      LastIs(node, mem.snapshot, mem.log);
      SnapshotIs(node, mem.snapshot, mem.log);
      if !mem.role.Leader? {
        return Nothing;
      }
      var next := Get(mem.next, peer);
      if next == 0 {
        next := LastIndex(mem.snapshot, mem.log) + 1;
        mem := mem.(next := mem.next[peer := next]);
      }
      if next <= mem.snapshot.index {
        return SendSnapshot(mem.snapshot);
      }
      var prev := next - 1;
      TermIs(node, mem.snapshot, mem.log, prev);
      var prevTerm := TermOf(mem.snapshot, mem.log, prev);
      if prevTerm.None? {
        mem := mem.(next := mem.next[peer := mem.snapshot.index + 1]);
        return Nothing;
      }
      EntriesFrom(node, mem.snapshot, mem.log, next);
      var entries := EntriesBeyond(prev);
      out := SendAppend(AppendRequest(mem.term, id, prev, prevTerm.value, entries, mem.commit));
    }

    /** A reply to an append request. It is dropped once the term has moved on. */
    method ReceiveAppendReply(peer: Id, m: AppendRequest, respTerm: nat, reply: AppendReply, io: Outcome)
        returns (again: bool)
      requires Valid()
      modifies this`mem, this`node, store`hard, waiters`slots, waiters`replies
      ensures Valid()
      ensures node == if respTerm > old(node.term) then Protocol.BecomeFollower(old(node), respTerm, io)
                      else if !old(node.role).Leader? || old(node.term) != m.term || !reply.Success? then old(node)
                      else ReceiveAck(old(node), peer, m.prev + |m.entries|, peers, true, io)
      ensures again <==> && respTerm <= old(node.term) == m.term && old(node.role).Leader?
                         && reply.Conflict? && reply.next > 0
      ensures Untouched(old(mem).(next := mem.next), mem)
      ensures mem.next == if respTerm > old(node.term) || !old(node.role).Leader? || old(node.term) != m.term
                          then old(mem.next) else NextAfter(old(mem.next), peer, m, reply)
    {
      hide LogOk, OnDisk, Synced, SavingOk, MachineOk, TransferOk, WaitersOk, NobodyAbove, Waiters.Valid, Store.Valid;
      hide Protocol.BecomeFollower, Protocol.AdvanceCommit;
      if respTerm > mem.term {
        var _ := BecomeFollower(respTerm, io);
        return false;
      }
      if !mem.role.Leader? || mem.term != m.term {
        return false;
      }
      match reply
      case Success =>
        var covered := m.prev + |m.entries|;
        mem := mem.(acked := mem.acked[peer := Max(Get(mem.acked, peer), covered)],
            next := mem.next[peer := Max(Get(mem.next, peer), covered + 1)]);
        node := node.(acked := mem.acked);
        AdvanceCommit(io);
        return false;
      case Conflict(next) =>
        if next > 0 {
          mem := mem.(next := mem.next[peer := next]);
        }
        return next > 0;
      case Refused =>
        return false;
    }

    /** A peer has taken over the whole snapshot. */
    method ReceiveSnapshotReply(peer: Id, term: nat, index: nat)
      requires Valid()
      modifies this`mem, this`node
      ensures Valid()
      ensures node == if old(node.role).Leader? && old(node.term) == term then ReceiveAck(old(node), peer, index,
              peers, false, Ok) else old(node)
      ensures Untouched(old(mem).(next := mem.next), mem)
      ensures mem.next == if old(node.role).Leader? && old(node.term) == term
                          then old(mem.next)[peer := Max(Get(old(mem.next), peer), index + 1)] else old(mem.next)
    {
      if mem.role.Leader? && mem.term == term {
        mem := mem.(acked := mem.acked[peer := Max(Get(mem.acked, peer), index)],
            next := mem.next[peer := Max(Get(mem.next, peer), index + 1)]);
        node := node.(acked := mem.acked);
      }
    }

    // ---------------------------------------------------------- clients

    /** A proposer gives up. */
    method RemoveWaiter(index: nat, w: Ticket)
      requires Valid()
      modifies waiters`slots, waiters`gone
      ensures Valid() && waiters.gone == old(waiters.gone) + {w}
      ensures forall i, v {:trigger WaitsAt(waiters.slots, i, v)} ::
                WaitsAt(waiters.slots, i, v) <==> WaitsAt(old(waiters.slots), i, v) && (i != index || v != w)
    {
      ghost var before := waiters.slots;
      waiters.Remove(index, w);
      FewerOk(node.log, node.applied, before, waiters.slots, waiters.replies, proposed);
      AttendedLess(node, before, waiters.slots);
    }

    /** The middle step of a read, once a quorum has answered in the confirmed term: reads must see
        all that is committed, and this leader's no-op. */
    method ReadIndex(term: nat) returns (index: nat, ok: bool)
      requires Valid()
      ensures ok == (mem.role.Leader? && mem.term == term)
      ensures ok ==> index == Max(node.commit, node.noop)
    {
      if !mem.role.Leader? || mem.term != term {
        return 0, false;
      }
      index := mem.commit;
      if mem.noop > index {
        index := mem.noop;
      }
      ok := true;
    }

    /** The last step of a read: the confirmed term still stands and enough is applied. */
    method ReadValue(key: string, term: nat, readIndex: nat) returns (value: string, found: bool, ok: bool)
      requires Valid()
      ensures ok == (mem.role.Leader? && mem.term == term && mem.applied >= readIndex)
      ensures ok ==> exists k :: readIndex <= k <= node.commit <= |node.log| && Shows(node.log[..k], key, value, found)
    {
      hide Fold;
      if !mem.role.Leader? || mem.term != term || mem.applied < readIndex {
        return "", false, false;
      }
      MachineAt(node, mem, sm.data);
      value, found := sm.Get(key);
      ok := true;
    }
  }
}
