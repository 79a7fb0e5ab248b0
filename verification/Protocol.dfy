/** What one node does in each locked section of the program, on full logs: every handler is a
    function of the node with a copy of its disk, the request, and how each store call ended. */
module Protocol {
  import opened Logs

  datatype Role = Follower | Candidate | Leader

  /** How a store call that replaces a file ended. Both Lost and Kept report an error; after
      Kept the new contents are in place all the same. */
  datatype Outcome = Ok | Lost | Kept

  /** How an append to the log file ended: an error leaves a whole-record prefix of the
      batch in the file. */
  datatype AppendOutcome = Stored | Failed(kept: nat)

  /** What the disk holds. `term`, `vote` and `commit` are the hard state. `snap` is the index
      of the snapshot file, `base` the index that the log file names as its base, and `wal`
      the full log whose entries after the base are in the log file. `log` is the full log
      that `Load` puts together from the two. `loadable` is false while the log file has
      entries at or below its base, which `Load` refuses. */
  datatype Disk = Disk(
    term: nat,
    vote: Option<Id>,
    commit: nat,
    log: Log,
    snap: nat,
    wal: Log,
    base: nat,
    loadable: bool)

  /** A chunked snapshot in flight; `prefix` is the full log that the snapshot stands for. */
  datatype Transfer = Idle | Receiving(leader: Id, prefix: Log, received: nat)

  datatype Node = Node(
    role: Role,
    term: nat,
    vote: Option<Id>,
    log: Log,
    commit: nat,
    applied: nat,
    snap: nat,
    noop: nat,
    acked: map<Id, nat>,
    transfer: Transfer,
    saving: nat,
    fatal: bool,
    disk: Disk)

  datatype VoteRequest = VoteRequest(term: nat, cand: Id, lastIndex: nat, lastTerm: nat)

  datatype AppendRequest =
    AppendRequest(term: nat, leader: Id, prev: nat, prevTerm: nat, entries: seq<Entry>, commit: nat)

  /** One chunk of a snapshot: bytes offset..end of the body. */
  datatype ChunkRequest =
    ChunkRequest(term: nat, leader: Id, prefix: Log, offset: nat, end: nat, done: bool)

  datatype AppendReply = Refused | Conflict(next: nat) | Success

  /** HaveAll: the follower already has or has now installed the whole snapshot. */
  datatype ChunkReply = ChunkRefused | Want(offset: nat) | Taken(received: nat) | Install | HaveAll

  // ------------------------------------------------------------ disk

  function SaveHard(d: Disk, term: nat, vote: Option<Id>, commit: nat, io: Outcome): Disk {
    if io.Lost? then d else d.(term := term, vote := vote, commit := commit)
  }

  function AppendLog(d: Disk, batch: seq<Entry>, io: AppendOutcome): Disk {
    match io
    case Stored => d.(log := d.log + batch, wal := d.wal + batch)
    case Failed(kept) => d.(log := d.log + batch[..Min(kept, |batch|)], wal := d.wal + batch[..Min(kept, |batch|)])
  }

  /** The log file takes its base from the snapshot file, so the result can be loaded only
      if the entries start right after that snapshot. */
  function ReplaceLog(d: Disk, log: Log, snap: nat, io: Outcome): Disk {
    if io.Lost? then d else d.(log := log, wal := log, base := d.snap, loadable := d.snap == snap)
  }

  // ------------------------------------------------------------ roles and terms

  /** Fail closed: no vote, acknowledgement, campaign or leadership until a restart. */
  function Fail(s: Node): Node {
    s.(role := Follower, noop := 0, fatal := true)
  }

  function Persist(s: Node, io: Outcome): Node {
    s.(disk := SaveHard(s.disk, s.term, s.vote, s.commit, io))
  }

  function BecomeFollower(s: Node, term: nat, io: Outcome): Node {
    var raised := if term > s.term then s.(term := term, vote := None) else s;
    var t := Persist(raised.(role := Follower, noop := 0), io);
    if io.Ok? then t else Fail(t)
  }

  function StartElection(s: Node, id: Id, io: Outcome): (Node, bool) {
    if s.fatal || s.role.Leader? then (s, false) else
    var t := Persist(s.(role := Candidate, term := s.term + 1, vote := Some(id), noop := 0), io);
    if io.Ok? then (t, true) else (s.(noop := 0, disk := t.disk), false)
  }

  function HandleVote(s: Node, m: VoteRequest, ioTerm: Outcome, ioVote: Outcome): (Node, bool) {
    if s.fatal || m.term < s.term then (s, false) else
    var t := if m.term > s.term then BecomeFollower(s, m.term, ioTerm) else s;
    if t.fatal then (t, false) else GiveVote(t, m, ioVote)
  }

  /** The vote is not given to someone else, and the candidate's log is at least as up to date. */
  predicate MayVote(vote: Option<Id>, m: VoteRequest, lastIndex: nat, lastTerm: nat) {
    && (vote == None || vote == Some(m.cand))
    && (m.lastTerm > lastTerm || (m.lastTerm == lastTerm && m.lastIndex >= lastIndex))
  }

  function GiveVote(s: Node, m: VoteRequest, io: Outcome): (Node, bool) {
    if !MayVote(s.vote, m, |s.log|, LastTerm(s.log)) then (s, false) else
    var t := Persist(s.(vote := Some(m.cand)), io);
    if io.Ok? then (t, true) else (s.(disk := t.disk), false)
  }

  // ------------------------------------------------------------ commit by majority

  function Get(m: map<Id, nat>, p: Id): nat {
    if p in m then m[p] else 0
  }

  /** The peers known to hold the log up to index. */
  function Holders(acked: map<Id, nat>, peers: set<Id>, index: nat): set<Id> {
    set p | p in peers && Get(acked, p) >= index
  }

  function Quorum(peers: set<Id>): nat {
    (|peers| + 1) / 2 + 1
  }

  predicate Majority(s: Node, peers: set<Id>, index: nat) {
    1 + |Holders(s.acked, peers, index)| >= Quorum(peers)
  }

  /** The highest index at or below i, above the commit index, that has an entry of the
      current term on a majority; the commit index if there is none. */
  function CommitTarget(s: Node, peers: set<Id>, i: nat): (r: nat)
    requires i <= |s.log|
    ensures s.commit <= r <= Max(s.commit, i)
    ensures r > s.commit ==> TermAt(s.log, r) == s.term && Majority(s, peers, r)
    ensures forall j {:trigger Majority(s, peers, j)} :: r < j <= i && TermAt(s.log, j) == s.term ==>
            !Majority(s, peers, j)
  {
    if i <= s.commit then s.commit
    else if TermAt(s.log, i) == s.term && Majority(s, peers, i) then i
    else CommitTarget(s, peers, i - 1)
  }

  function AdvanceCommit(s: Node, peers: set<Id>, io: Outcome): Node {
    var target := CommitTarget(s, peers, |s.log|);
    if target == s.commit then s else
    var t := Persist(s.(commit := target), io);
    if io.Ok? then t else Fail(s.(disk := t.disk))
  }

  // ------------------------------------------------------------ leading

  function NextEntry(s: Node, command: Command): Entry {
    Entry(|s.log| + 1, s.term, command)
  }

  /** A leader writes an entry to its own log, and may commit it at once when alone. */
  function LeaderAppend(s: Node, id: Id, peers: set<Id>, e: Entry, io: AppendOutcome, ioCommit: Outcome): Node {
    var t := s.(disk := AppendLog(s.disk, [e], io));
    if !io.Stored? then Fail(t) else
    AdvanceCommit(t.(log := s.log + [e], acked := s.acked[id := |s.log| + 1]), peers, ioCommit)
  }

  /** The same index for every peer. */
  function Indices(peers: set<Id>, index: nat): map<Id, nat> {
    map p | p in peers :: index
  }

  function BecomeLeader(s: Node, id: Id, peers: set<Id>, io: AppendOutcome, ioCommit: Outcome): Node {
    if !s.role.Candidate? then s else
    var t := s.(role := Leader, acked := Indices(peers, 0)[id := |s.log|]);
    var t := if io.Stored? then t.(noop := |s.log| + 1) else t;
    LeaderAppend(t, id, peers, NextEntry(s, Noop), io, ioCommit)
  }

  function Propose(s: Node, id: Id, peers: set<Id>, command: Command, io: AppendOutcome, ioCommit: Outcome)
    : (Node, bool) {
    if s.fatal || !s.role.Leader? then (s, false) else
    (LeaderAppend(s, id, peers, NextEntry(s, command), io, ioCommit), io.Stored?)
  }

  /** An append request that starts at log index next, as the leader builds it. */
  function MakeAppend(s: Node, id: Id, next: nat): AppendRequest
    requires 1 <= next <= |s.log| + 1
  {
    AppendRequest(s.term, id, next - 1, TermAt(s.log, next - 1), s.log[next - 1..], s.commit)
  }

  /** A successful reply of peer p, for a request of this term, that covers len entries. An
      append reply may advance the commit index; a snapshot reply does not try to. */
  function ReceiveAck(s: Node, p: Id, len: nat, peers: set<Id>, advance: bool, ioCommit: Outcome): Node {
    var t := s.(acked := s.acked[p := Max(Get(s.acked, p), len)]);
    if advance then AdvanceCommit(t, peers, ioCommit) else t
  }

  // ------------------------------------------------------------ following

  /** Entry j of a request that follows index prev is in the log, as far as terms can tell. */
  predicate HasTerm(log: Log, prev: nat, entries: seq<Entry>, j: nat)
    requires j < |entries|
  {
    prev + j < |log| && log[prev + j].term == entries[j].term
  }

  /** The first position at or after i at which the request runs out, the log runs out, or
      the two differ in term. */
  function FirstConflict(log: Log, prev: nat, entries: seq<Entry>, i: nat): (k: nat)
    requires i <= |entries|
    ensures i <= k <= |entries| && (prev + i <= |log| ==> prev + k <= |log|)
    ensures forall j {:trigger HasTerm(log, prev, entries, j)} :: i <= j < k ==> HasTerm(log, prev, entries, j)
    ensures k < |entries| ==> !HasTerm(log, prev, entries, k)
    decreases |entries| - i
  {
    if i < |entries| && HasTerm(log, prev, entries, i) then FirstConflict(log, prev, entries, i + 1) else i
  }

  datatype Merge = CommittedConflict(index: nat) | Unchanged | Extended(added: seq<Entry>) | Replaced(log: Log)

  function MergeEntries(log: Log, commit: nat, prev: nat, entries: seq<Entry>): Merge
    requires prev <= |log|
  {
    var i := FirstConflict(log, prev, entries, 0);
    if i == |entries| then Unchanged
    else if prev + i >= |log| then Extended(entries[i..])
    else if prev + i + 1 <= commit then CommittedConflict(prev + i + 1)
    else Replaced(log[..prev + i] + entries[i..])
  }

  function MergedLog(log: Log, m: Merge): Log {
    match m
    case Extended(added) => log + added
    case Replaced(l) => l
    case _ => log
  }

  /** Where the leader should try next after a mismatch at prev: the first entry of the run
      of equal terms that prev belongs to, or the end of a log that is too short. */
  function ConflictIndex(log: Log, snap: nat, prev: nat): nat
    decreases prev
  {
    if prev > |log| then |log| + 1
    else if prev <= snap then snap + 1
    else if prev > snap + 1 && log[prev - 2].term == log[prev - 1].term then ConflictIndex(log, snap, prev - 1)
    else prev
  }

  /** The store call that a merge makes. */
  function WriteMerge(s: Node, m: Merge, ioAdd: AppendOutcome, ioSwap: Outcome): Disk {
    match m
    case Extended(added) => AppendLog(s.disk, added, ioAdd)
    case Replaced(log) => ReplaceLog(s.disk, log, s.snap, ioSwap)
    case _ => s.disk
  }

  predicate WriteOk(m: Merge, ioAdd: AppendOutcome, ioSwap: Outcome) {
    match m
    case Extended(_) => ioAdd.Stored?
    case Replaced(_) => ioSwap.Ok?
    case _ => true
  }

  /** Take up the entries of a request whose previous entry matches. */
  function AcceptEntries(s: Node, m: AppendRequest, ioAdd: AppendOutcome, ioSwap: Outcome, ioCommit: Outcome)
    : (Node, AppendReply)
    requires m.prev <= |s.log|
  {
    var merge := MergeEntries(s.log, s.commit, m.prev, m.entries);
    if merge.CommittedConflict? then (s, Conflict(merge.index)) else
    var t := s.(disk := WriteMerge(s, merge, ioAdd, ioSwap));
    if !WriteOk(merge, ioAdd, ioSwap) then (Fail(t), Refused) else
    FollowCommit(t.(log := MergedLog(s.log, merge)), Min(m.commit, m.prev + |m.entries|), ioCommit)
  }

  function FollowCommit(s: Node, commit: nat, io: Outcome): (Node, AppendReply) {
    if commit <= s.commit then (s, Success) else
    var t := Persist(s.(commit := commit), io);
    if io.Ok? then (t, Success) else (s.(disk := t.disk), Refused)
  }

  /** Become a follower of the sender unless already one in its term. */
  function Follow(s: Node, term: nat, io: Outcome): Node {
    if term > s.term || !s.role.Follower? then BecomeFollower(s, term, io) else s
  }

  function HandleAppend(s: Node, m: AppendRequest, ioTerm: Outcome, ioAdd: AppendOutcome, ioSwap: Outcome,
      ioCommit: Outcome): (Node, AppendReply) {
    if s.fatal || m.term < s.term then (s, Refused) else
    var t := Follow(s, m.term, ioTerm);
    if t.fatal then (t, Refused) else AppendAsFollower(t, m, ioAdd, ioSwap, ioCommit)
  }

  function AppendAsFollower(s: Node, m: AppendRequest, ioAdd: AppendOutcome, ioSwap: Outcome,
      ioCommit: Outcome): (Node, AppendReply) {
    if m.prev < s.snap then (s, Conflict(s.snap + 1))
    else if m.prev > |s.log| || TermAt(s.log, m.prev) != m.prevTerm then
      (s, Conflict(ConflictIndex(s.log, s.snap, m.prev)))
    else AcceptEntries(s, m, ioAdd, ioSwap, ioCommit)
  }

  // ------------------------------------------------------------ snapshot transfer

  predicate SameStream(x: Transfer, m: ChunkRequest) {
    x.Receiving? && x.leader == m.leader && |x.prefix| == |m.prefix| && LastTerm(x.prefix) == LastTerm(m.prefix)
  }

  /** Forget a transfer. */
  function Drop(s: Node): Node {
    s.(transfer := Idle)
  }

  function HandleChunk(s: Node, m: ChunkRequest, ioTerm: Outcome): (Node, ChunkReply) {
    if s.fatal || m.term < s.term then (s, ChunkRefused) else
    var t := Follow(s, m.term, ioTerm);
    if t.fatal then (Drop(t), ChunkRefused)
    else if |m.prefix| <= t.commit then (Drop(t), HaveAll)
    else
      var (x, reply) := TakeChunk(t.transfer, m);
      (t.(transfer := x), reply)
  }

  function TakeChunk(x: Transfer, m: ChunkRequest): (Transfer, ChunkReply) {
    if !SameStream(x, m) && m.offset != 0 then (x, Want(0))
    else
      var y := if SameStream(x, m) then x else Receiving(m.leader, m.prefix, 0);
      if m.offset != y.received then (y, Want(y.received))
      else (y.(received := m.end), if m.done then Install else Taken(m.end))
  }

  /** The full log after a snapshot: the snapshot's own, followed by the entries after it
      if the log has the snapshot's last entry. */
  function LogAfterSnapshot(log: Log, prefix: Log): Log {
    if |prefix| <= |log| && TermAt(log, |prefix|) == LastTerm(prefix) then prefix + log[|prefix|..] else prefix
  }

  /** Write snapshot, log and hard state, in this order, up to the first error. From the moment
      the snapshot file is in place, `Load` finds the new log. */
  function InstallDisk(s: Node, prefix: Log, ioSnap: Outcome, ioLog: Outcome, ioHard: Outcome): (Disk, bool) {
    var log := LogAfterSnapshot(s.log, prefix);
    var d1 := if ioSnap.Lost? then s.disk else s.disk.(log := log, snap := |prefix|);
    if !ioSnap.Ok? then (d1, false) else
    var d2 := ReplaceLog(d1, log, |prefix|, ioLog);
    if !ioLog.Ok? then (d2, false) else (SaveHard(d2, s.term, s.vote, |prefix|, ioHard), ioHard.Ok?)
  }

  /** Once the files are written, switch over in memory. */
  function InstallSnapshot(s: Node, prefix: Log, ioSnap: Outcome, ioLog: Outcome, ioHard: Outcome): (Node, ChunkReply) {
    var (d, ok) := InstallDisk(s, prefix, ioSnap, ioLog, ioHard);
    var t := s.(transfer := Idle, disk := d);
    if !ok then (Fail(t), ChunkRefused)
    else (t.(log := LogAfterSnapshot(s.log, prefix), snap := |prefix|, commit := |prefix|, applied := |prefix|),
        HaveAll)
  }

  /** The second locked section, once the whole body has arrived: check everything again. */
  function FinishInstall(s: Node, m: ChunkRequest, ioTerm: Outcome, ioSnap: Outcome, ioLog: Outcome,
      ioHard: Outcome): (Node, ChunkReply) {
    if s.fatal || m.term < s.term then (Drop(s), ChunkRefused) else
    var t := Follow(s, m.term, ioTerm);
    if t.fatal then (Drop(t), ChunkRefused) else InstallAsFollower(t, m, ioSnap, ioLog, ioHard)
  }

  function InstallAsFollower(s: Node, m: ChunkRequest, ioSnap: Outcome, ioLog: Outcome, ioHard: Outcome)
    : (Node, ChunkReply) {
    if |m.prefix| <= s.commit then (Drop(s), HaveAll)
    else if !SameStream(s.transfer, m) || s.transfer.received != m.end then (s, Want(0))
    else InstallSnapshot(s, s.transfer.prefix, ioSnap, ioLog, ioHard)
  }

  // ------------------------------------------------------------ applying and compacting

  function ApplyNext(s: Node): Node {
    if s.applied < s.commit then s.(applied := s.applied + 1) else s
  }

  /** Compaction writes a snapshot of the applied prefix, outside the node's lock. `Load` then
      keeps the entries after it if the log file has the snapshot's last entry, or names it as
      its base; a log file whose base lies beyond the snapshot is of no use to it. */
  function SaveSnapshot(s: Node, io: Outcome): Node {
    if s.applied <= s.snap || s.saving != 0 || io.Lost? then s else
    var p := s.log[..Min(s.applied, |s.log|)];
    var log := if s.disk.base <= s.applied then LogAfterSnapshot(s.disk.wal, p) else p;
    var d := s.disk.(snap := s.applied, log := log);
    if io.Ok? then s.(saving := s.applied, disk := d) else s.(disk := d)
  }

  /** The second locked section of compaction drops the entries under the snapshot. */
  function FinishSnapshot(s: Node, io: Outcome): Node {
    var t := s.(saving := 0);
    if s.saving <= s.snap || s.saving > s.applied then t
    else
      var d := ReplaceLog(s.disk, s.log, s.saving, io);
      if io.Ok? then t.(snap := s.saving, disk := d) else t.(disk := d)
  }

  // ------------------------------------------------------------ restart

  function RecoveredCommit(d: Disk): nat {
    Min(Max(d.commit, d.snap), |d.log|)
  }

  /** A node built anew from what `Load` returns; the committed entries are applied again. */
  function Restart(d: Disk): Node {
    var c := RecoveredCommit(d);
    Node(Follower, d.term, d.vote, d.log, c, Max(c, d.snap), d.snap, 0, map[], Idle, 0, false,
         d.(commit := c, wal := d.log, base := d.snap, loadable := true))
  }

  const Blank: Node :=
    Node(Follower, 0, None, [], 0, 0, 0, 0, map[], Idle, 0, false, Disk(0, None, 0, [], 0, [], 0, true))
}
