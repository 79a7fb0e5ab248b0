/** Everything one node holds, as a value: in memory, on disk, in the machine and in the
    channels of waiting proposals; and what every locked section keeps of it.

    The predicates here are the parts of `Replicas.Replica.Valid()`: how memory mirrors the node
    on full logs, how snapshot and live log stand for the full log, how the files follow, what
    the machine holds and who waits for what. The lemmas say what each kind of update does to
    them, so that a method needs to know no more than their names. */
module NodeMemory {
  import opened Logs
  import opened KeyValue
  import opened Protocol
  import opened Wal
  import opened Storage
  import opened Compaction
  import opened Waiting

  /** How a map is sent as bytes. */
  datatype MapCodec = MapCodec(encode: Pairs -> Bytes, decode: Bytes -> Option<Pairs>)

  ghost predicate Faithful(c: MapCodec) {
    forall m {:trigger c.encode(m)} :: c.encode(m) != [] && c.decode(c.encode(m)) == Some(m)
  }

  /** The part of a chunked snapshot received so far. */
  datatype Progress = Progress(leader: Id, index: nat, term: nat, buffer: Bytes)

  /** The fields of a node that its lock protects. `inFlight` is the entry the apply loop is
      working on and `ran` its result once the machine has run it. `captured` is a snapshot
      the apply loop has taken but not written, `saving` one it has written. */
  datatype Memory = Memory(
    role: Role,
    term: nat,
    vote: Option<Id>,
    log: seq<Entry>,
    snapshot: Snapshot,
    commit: nat,
    applied: nat,
    noop: nat,
    next: map<Id, nat>,
    acked: map<Id, nat>,
    pending: Option<Progress>,
    fatal: bool,
    inFlight: Option<Entry>,
    ran: Option<Result>,
    captured: Option<Snapshot>,
    saving: Option<Snapshot>)

  /** The memory says what the node on full logs says. */
  ghost predicate Mirrors(m: Memory, s: Node) {
    && m.role == s.role && m.term == s.term && m.vote == s.vote && m.commit == s.commit
    && m.applied == s.applied && m.noop == s.noop && m.acked == s.acked && m.fatal == s.fatal
  }

  /** What belongs to replication and to the apply loop is as it was. */
  ghost predicate Untouched(m: Memory, m': Memory) {
    && m'.next == m.next && m'.inFlight == m.inFlight && m'.ran == m.ran
    && m'.captured == m.captured && m'.saving == m.saving
  }

  lemma UntouchedTrans(m: Memory, m': Memory, m'': Memory)
    ensures Untouched(m, m)
    ensures Untouched(m, m') && Untouched(m', m'') ==> Untouched(m, m'')
  {
  }

  /** Exactly those who wait above the commit index have heard that this node no longer leads. */
  ghost predicate Dismissed(slots: Slots, replies: Replies, slots': Slots, replies': Replies, commit: nat) {
    slots' == UpTo(slots, commit) && replies' == Sent(replies, WaitingAbove(slots, commit), Waiting.NotLeader)
  }

  /** After a dismissal whoever waited still waits, or has been told. */
  lemma WaitsOrTold(slots: Slots, replies: Replies, slots': Slots, replies': Replies, commit: nat, i: nat, w: Ticket)
    requires WaitsAt(slots, i, w) && Dismissed(slots, replies, slots', replies', commit)
    ensures WaitsAt(slots', i, w) || (w in replies' && replies'[w] == Waiting.NotLeader)
  {
    if i > commit {
      assert w in WaitingAbove(slots, commit);
    }
  }

  lemma NobodyDismissed(slots: Slots, replies: Replies, commit: nat)
    requires NobodyAbove(slots, commit)
    ensures Dismissed(slots, replies, slots, replies, commit)
  {
    assert UpTo(slots, commit) == slots;
    assert WaitingAbove(slots, commit) == {};
  }

  /** A node that starts from this disk. */
  ghost function Started(d: Disk): Node {
    Node(Follower, d.term, d.vote, d.log, d.commit, d.commit, d.snap, 0, map[], Idle, 0, false, d)
  }

  // ------------------------------------------------------------ the invariant
  /** Snapshot and live log stand for the full log. */
  ghost predicate LogOk(full: Log, snap: nat, applied: nat, commit: nat, snapshot: Snapshot, log: seq<Entry>) {
    && Represents(full, snapshot, log)
    && snapshot.index == snap <= applied <= commit <= |full|
  }

  /** While no store call has failed, the disk holds the log in memory. */
  ghost predicate Synced(full: Log, applied: nat, d: Disk, lines: seq<Line>, torn: Bytes) {
    && torn == [] && d.log == full && d.wal == full && d.snap <= applied
    && (lines == [] ==> d.base == d.snap && d.loadable)
  }

  /** A snapshot the apply loop is writing stands for the applied log; one it has taken but
      not written stands for it too, or is out of date. */
  ghost predicate SavingOk(full: Log, snap: nat, applied: nat, index: nat, d: Disk, captured: Option<Snapshot>,
      saving: Option<Snapshot>, file: Snapshot) {
    && snap <= d.snap
    && index == (if saving.Some? then saving.value.index else 0)
    && (saving.Some? ==>
          && 0 < index == d.snap <= applied && file == saving.value
          && d.snap <= |full| && d.snap <= |d.log| && full[..d.snap] == d.log[..d.snap])
    && (captured.Some? ==>
          && saving.None?
          && (captured.value.index <= snap || (captured.value.index == applied && SnapshotOf(full, captured.value))))
  }

  /** The machine holds the fold of what is applied, plus at most the entry in flight. */
  ghost predicate MachineOk(full: Log, applied: nat, commit: nat, inFlight: Option<Entry>, ran: Option<Result>,
      data: Pairs) {
    && applied <= commit <= |full|
    && (inFlight.Some? ==> applied < commit && inFlight.value == full[applied])
    && (ran.Some? ==> inFlight.Some? && ran.value == ResultOf(Fold(full[..applied]), full[applied].command))
    && data == Fold(full[..if ran.Some? then applied + 1 else applied])
  }

  ghost predicate PrefixOf(prefix: Log, index: nat, term: nat) {
    Indexed(prefix) && 0 < |prefix| == index && LastTerm(prefix) == term
  }

  /** What has been received is the beginning of the encoded map. */
  ghost predicate TransferOk(x: Transfer, pending: Option<Progress>, c: MapCodec) {
    match pending
    case None => x == Idle
    case Some(p) =>
      && x.Receiving? && x.leader == p.leader && x.received == |p.buffer|
      && PrefixOf(x.prefix, p.index, p.term)
      && p.buffer <= c.encode(Fold(x.prefix))
  }

  /** Whoever waits at an index proposed the entry that is there. */
  ghost predicate WaitForOwn(log: Log, slots: Slots, proposed: Proposals) {
    forall i, k {:trigger slots[i][k]} :: i in slots && 0 <= k < |slots[i]| ==>
      slots[i][k] in proposed && Owns(log, i, proposed[slots[i][k]])
  }

  ghost predicate Owns(log: Log, i: nat, e: Entry) {
    e.index == i && 1 <= i <= |log| && log[i - 1] == e
  }

  /** A result that was delivered is that of the proposer's own command at its own index. */
  ghost predicate RepliesAreOwn(log: Log, applied: nat, replies: Replies, proposed: Proposals) {
    forall w {:trigger replies[w]} :: w in replies && replies[w].Done? ==>
      w in proposed && OwnResult(log, applied, proposed[w], replies[w].result)
  }

  ghost predicate OwnResult(log: Log, applied: nat, e: Entry, r: Result) {
    Owns(log, e.index, e) && e.index <= applied && r == ResultOf(Fold(log[..e.index - 1]), e.command)
  }

  ghost predicate NobodyAbove(slots: Slots, commit: nat) {
    forall i {:trigger i in slots} :: i in slots ==> i <= commit
  }

  ghost predicate WaitersOk(log: Log, applied: nat, slots: Slots, replies: Replies, proposed: Proposals) {
    WaitForOwn(log, slots, proposed) && RepliesAreOwn(log, applied, replies, proposed)
  }

  /** Only a leader has anyone waiting for an uncommitted entry. */
  ghost predicate Attended(s: Node, slots: Slots) {
    (s.role.Leader? || NobodyAbove(slots, s.commit)) && (s.fatal ==> s.role.Follower?)
  }

  // ------------------------------------------------------------ what steps keep

  lemma PersistOk(s: Node, hard: HardState, file: Snapshot, lines: seq<Line>, torn: Bytes,
      captured: Option<Snapshot>, saving: Option<Snapshot>, io: Outcome)
    requires OnDisk(s.disk, hard, file, lines)
    requires SavingOk(s.log, s.snap, s.applied, s.saving, s.disk, captured, saving, file)
    ensures var d := Persist(s, io).disk;
            && OnDisk(d, if io.Lost? then hard else HardState(s.term, s.vote, s.commit), file, lines)
            && SavingOk(s.log, s.snap, s.applied, s.saving, d, captured, saving, file)
            && (Synced(s.log, s.applied, s.disk, lines, torn) ==> Synced(s.log, s.applied, d, lines, torn))
  {
  }

  /** Everyone who waits for an uncommitted entry hears that this node no longer leads. */
  lemma DismissOk(log: Log, applied: nat, slots: Slots, replies: Replies, proposed: Proposals, commit: nat)
    requires WaitersOk(log, applied, slots, replies, proposed)
    ensures WaitersOk(log, applied, UpTo(slots, commit),
            Sent(replies, WaitingAbove(slots, commit), Waiting.NotLeader), proposed)
    ensures NobodyAbove(UpTo(slots, commit), commit)
  {
  }

  lemma LastIs(s: Node, snapshot: Snapshot, log: seq<Entry>)
    requires LogOk(s.log, s.snap, s.applied, s.commit, snapshot, log)
    ensures LastIndex(snapshot, log) == |s.log| && LastTermOf(snapshot, log) == LastTerm(s.log)
  {
  }

  /** Following changes neither the log nor the indices, and fails only with the store. */
  lemma FollowKeeps(s: Node, term: nat, io: Outcome)
    ensures var t := Follow(s, term, io);
            && t.log == s.log && t.commit == s.commit && t.snap == s.snap && t.transfer == s.transfer
            && t.role.Follower?
            && (!s.fatal && t.fatal ==> !io.Ok?)
  {
  }

  lemma SyncedMeans(s: Node, lines: seq<Line>, torn: Bytes)
    requires Synced(s.log, s.applied, s.disk, lines, torn)
    ensures torn == []
  {
  }

  lemma NewerStays(s: Node, d: Disk, prefix: Log, snap: Snapshot)
    requires Newer(s, prefix, snap)
    ensures Newer(s.(disk := d), prefix, snap)
  {
  }

  lemma LogBounds(s: Node, snapshot: Snapshot, log: seq<Entry>)
    requires LogOk(s.log, s.snap, s.applied, s.commit, snapshot, log)
    ensures snapshot.index == s.snap <= s.applied <= s.commit <= |s.log|
  {
  }

  lemma TermIs(s: Node, snapshot: Snapshot, log: seq<Entry>, index: nat)
    requires LogOk(s.log, s.snap, s.applied, s.commit, snapshot, log)
    ensures TermOf(snapshot, log, index) ==
            if index == 0 || s.snap <= index <= |s.log| then Some(TermAt(s.log, index)) else None
  {
  }

  /** A higher commit index, up to the end of the log. */
  lemma CommitOk(s: Node, m: Memory, data: Pairs, commit: nat)
    requires LogOk(s.log, s.snap, s.applied, s.commit, m.snapshot, m.log) && s.commit <= commit <= |s.log|
    requires MachineOk(s.log, s.applied, s.commit, m.inFlight, m.ran, data)
    ensures LogOk(s.log, s.snap, s.applied, commit, m.snapshot, m.log)
    ensures MachineOk(s.log, s.applied, commit, m.inFlight, m.ran, data)
  {
  }

  // ------------------------------------------------------------ changing the log above the commit index

  ghost predicate SameUpTo(a: Log, b: Log, k: nat) {
    k <= |a| && k <= |b| && a[..k] == b[..k]
  }

  lemma SameBelow(a: Log, b: Log, k: nat, j: nat)
    requires SameUpTo(a, b, k) && j <= k
    ensures SameUpTo(a, b, j)
  {
  }

  lemma MachineSwap(full: Log, full': Log, applied: nat, commit: nat, inFlight: Option<Entry>, ran: Option<Result>,
      data: Pairs)
    requires MachineOk(full, applied, commit, inFlight, ran, data) && SameUpTo(full, full', commit)
    ensures MachineOk(full', applied, commit, inFlight, ran, data)
  {
    hide Fold;
    SameBelow(full, full', commit, applied);
    if applied < commit {
      assert full[applied] == full[..commit][applied] && full'[applied] == full'[..commit][applied];
      SameBelow(full, full', commit, applied + 1);
    }
  }

  /** Memory and disk may change independently above the applied index. */
  lemma SavingSwap(full: Log, full': Log, s: Node, d: Disk, captured: Option<Snapshot>, saving: Option<Snapshot>,
      file: Snapshot)
    requires SavingOk(full, s.snap, s.applied, s.saving, s.disk, captured, saving, file)
    requires SameUpTo(full, full', s.applied)
    requires d.snap == s.disk.snap && (saving.Some? ==> SameUpTo(s.disk.log, d.log, d.snap))
    ensures SavingOk(full', s.snap, s.applied, s.saving, d, captured, saving, file)
  {
  }

  lemma OwnsSwap(full: Log, full': Log, k: nat, i: nat, e: Entry)
    requires Owns(full, i, e) && SameUpTo(full, full', k) && i <= k
    ensures Owns(full', i, e)
  {
  }

  lemma RepliesSwap(full: Log, full': Log, applied: nat, replies: Replies, proposed: Proposals)
    requires RepliesAreOwn(full, applied, replies, proposed) && SameUpTo(full, full', applied)
    ensures RepliesAreOwn(full', applied, replies, proposed)
  {
    hide Fold, SameUpTo;
    forall w | w in replies && replies[w].Done?
      ensures w in proposed && OwnResult(full', applied, proposed[w], replies[w].result)
    {
      var e := proposed[w];
      assert OwnResult(full, applied, e, replies[w].result);
      OwnsSwap(full, full', applied, e.index, e);
      SameBelow(full, full', applied, e.index - 1);
      SameMeans(full, full', e.index - 1);
    }
  }

  lemma SameMeans(a: Log, b: Log, k: nat)
    ensures SameUpTo(a, b, k) ==> k <= |a| && k <= |b| && a[..k] == b[..k]
  {
  }

  /** Nobody waits at an index where the log changes. */
  lemma WaitersSwap(full: Log, full': Log, applied: nat, k: nat, slots: Slots, replies: Replies, proposed: Proposals)
    requires WaitersOk(full, applied, slots, replies, proposed) && SameUpTo(full, full', k) && applied <= k
    requires NobodyAbove(slots, k) || k == |full|
    ensures WaitersOk(full', applied, slots, replies, proposed)
  {
    hide SameUpTo, OwnResult;
    SameBelow(full, full', k, applied);
    RepliesSwap(full, full', applied, replies, proposed);
    forall i, j | i in slots && 0 <= j < |slots[i]|
      ensures slots[i][j] in proposed && Owns(full', i, proposed[slots[i][j]])
    {
      assert Owns(full, i, proposed[slots[i][j]]);
      OwnsSwap(full, full', k, i, proposed[slots[i][j]]);
    }
  }

  lemma ExtendSame(full: Log, more: seq<Entry>, k: nat)
    requires k <= |full|
    ensures SameUpTo(full, full + more, k)
  {
  }

  /** The records an append writes: a new file starts with its base. */
  ghost function Batch(file: Snapshot, lines: seq<Line>, entries: seq<Entry>): seq<Line> {
    (if lines == [] then [Base(file.index, file.term)] else []) + Items(entries)
  }

  /** How many of these records the file has in the end. */
  ghost function Left(c: Codec, file: Snapshot, lines: seq<Line>, entries: seq<Entry>, io: FileOutcome): (k: nat)
    ensures k <= |Batch(file, lines, entries)|
  {
    var batch := Batch(file, lines, entries);
    if io.Written? then |batch| else WholeLines(c, batch, Min(io.bytes, |Frame(c, batch)|))
  }

  /** The outcome of an append in terms of entries. */
  ghost function Fate(c: Codec, file: Snapshot, lines: seq<Line>, entries: seq<Entry>,
      io: FileOutcome): (r: AppendOutcome)
    ensures r.Stored? == io.Written?
  {
    if io.Written? then Stored else Failed(KeptEntries(Left(c, file, lines, entries, io), lines == []))
  }

  /** What an append to the log file comes to, if a merge makes one. */
  ghost function MergeFate(log: Log, commit: nat, c: Codec, file: Snapshot, lines: seq<Line>, m: AppendRequest,
      io: FileOutcome): AppendOutcome {
    if m.prev > |log| then Stored else
    match MergeEntries(log, commit, m.prev, m.entries)
    case Extended(added) => Fate(c, file, lines, added, io)
    case _ => Stored
  }

  lemma FateIs(d: Disk, c: Codec, file: Snapshot, lines: seq<Line>, entries: seq<Entry>, io: FileOutcome)
    ensures AppendLog(d, entries, Fate(c, file, lines, entries, io)) ==
            AppendLog(d, entries, Failed(KeptEntries(Left(c, file, lines, entries, io), lines == [])))
  {
  }

  /** Disk and log after an append, whatever its outcome. */
  lemma AppendOk(s: Node, c: Codec, hard: HardState, file: Snapshot, lines: seq<Line>, entries: seq<Entry>,
      io: FileOutcome, captured: Option<Snapshot>, saving: Option<Snapshot>)
    requires OnDisk(s.disk, hard, file, lines) && Synced(s.log, s.applied, s.disk, lines, [])
    requires SavingOk(s.log, s.snap, s.applied, s.saving, s.disk, captured, saving, file)
    requires s.applied <= |s.log| && Contiguous(entries, |s.log|) && entries != []
    ensures var d := AppendLog(s.disk, entries, Fate(c, file, lines, entries, io));
            var lines' := lines + Batch(file, lines, entries)[..Left(c, file, lines, entries, io)];
            && OnDisk(d, hard, file, lines')
            && SavingOk(s.log, s.snap, s.applied, s.saving, d, captured, saving, file)
            && (io.Written? ==> Synced(s.log + entries, s.applied, d, lines', []))
  {
    var k := Left(c, file, lines, entries, io);
    FateIs(s.disk, c, file, lines, entries, io);
    AppendOnDisk(s.disk, hard, file, lines, entries, k);
    hide OnDisk, SnapshotOf, Left;
    var d := AppendLog(s.disk, entries, Fate(c, file, lines, entries, io));
    if saving.Some? {
      ExtendSame(s.disk.log, d.log[|s.disk.log|..], d.snap);
      assert d.log == s.disk.log + d.log[|s.disk.log|..];
      assert SameUpTo(s.log, s.log, s.applied);
      SavingSwap(s.log, s.log, s, d, captured, saving, file);
    }
  }

  /** Memory after entries that the disk already has are added to the log. */
  lemma ExtendOk(s: Node, m: Memory, data: Pairs, more: seq<Entry>, slots: Slots, replies: Replies,
      proposed: Proposals, file: Snapshot)
    requires LogOk(s.log, s.snap, s.applied, s.commit, m.snapshot, m.log) && Contiguous(more, |s.log|)
    requires SavingOk(s.log, s.snap, s.applied, s.saving, s.disk, m.captured, m.saving, file)
    requires MachineOk(s.log, s.applied, s.commit, m.inFlight, m.ran, data)
    requires WaitersOk(s.log, s.applied, slots, replies, proposed)
    ensures LogOk(s.log + more, s.snap, s.applied, s.commit, m.snapshot, m.log + more)
    ensures SavingOk(s.log + more, s.snap, s.applied, s.saving, s.disk, m.captured, m.saving, file)
    ensures MachineOk(s.log + more, s.applied, s.commit, m.inFlight, m.ran, data)
    ensures WaitersOk(s.log + more, s.applied, slots, replies, proposed)
  {
    hide WaitersOk, SnapshotOf, Fold;
    AppendRepresents(s.log, m.snapshot, m.log, more);
    ExtendSame(s.log, more, s.applied);
    ExtendSame(s.log, more, s.commit);
    ExtendSame(s.log, more, |s.log|);
    SavingSwap(s.log, s.log + more, s, s.disk, m.captured, m.saving, file);
    MachineSwap(s.log, s.log + more, s.applied, s.commit, m.inFlight, m.ran, data);
    WaitersSwap(s.log, s.log + more, s.applied, |s.log|, slots, replies, proposed);
  }

  /** A new proposal waits at the index of its own entry, the last one of the log. */
  lemma RegisterOk(log: Log, applied: nat, slots: Slots, replies: Replies, proposed: Proposals, w: Ticket, e: Entry)
    requires WaitersOk(log, applied, slots, replies, proposed) && w !in proposed
    requires log != [] && log[|log| - 1] == e && e.index == |log|
    ensures var before := if e.index in slots then slots[e.index] else [];
            WaitersOk(log, applied, slots[e.index := before + [w]], replies, proposed[w := e])
  {
  }

  // ------------------------------------------------------------ entries under the snapshot

  /** A request without the entries that its receiver's snapshot covers. */
  function Fresh(m: AppendRequest, snap: nat): AppendRequest {
    m.(entries := After(m.entries, snap))
  }

  /** How many entries at the end of a request lie above the snapshot. */
  function FreshTail(entries: seq<Entry>, snap: nat): (n: nat)
    ensures n <= |entries|
    ensures forall i :: |entries| - n <= i < |entries| ==> entries[i].index > snap
    ensures n < |entries| ==> entries[|entries| - n - 1].index <= snap
  {
    if entries == [] || entries[|entries| - 1].index <= snap then 0 else 1 + FreshTail(entries[..|entries| - 1], snap)
  }

  lemma {:induction false} AfterConcat(a: seq<Entry>, b: seq<Entry>, index: nat)
    ensures After(a + b, index) == After(a, index) + After(b, index)
    decreases |b|
  {
    if b == [] {
      assert a + b == a;
    } else {
      var last := |b| - 1;
      assert (a + b)[..|a + b| - 1] == a + b[..last];
      AfterConcat(a, b[..last], index);
    }
  }

  lemma {:induction false} AfterAtMost(x: seq<Entry>, index: nat)
    ensures |After(x, index)| <= |x|
    decreases |x|
  {
    if x != [] {
      AfterAtMost(x[..|x| - 1], index);
    }
  }

  lemma {:induction false} AllFresh(x: seq<Entry>, index: nat)
    requires forall i :: 0 <= i < |x| ==> x[i].index > index
    ensures After(x, index) == x
    decreases |x|
  {
    if x != [] {
      AllFresh(x[..|x| - 1], index);
      assert x == x[..|x| - 1] + [x[|x| - 1]];
    }
  }

  lemma SomeStale(x: seq<Entry>, index: nat, k: nat)
    requires k < |x| && x[k].index <= index
    ensures |After(x, index)| < |x|
  {
    assert x[..k + 1][..k] == x[..k];
    assert x == x[..k + 1] + x[k + 1..];
    AfterConcat(x[..k + 1], x[k + 1..], index);
    AfterAtMost(x[..k], index);
    AfterAtMost(x[k + 1..], index);
  }

  /** One more entry of a request is among the fresh ones exactly if it lies above the snapshot. */
  lemma FreshNext(entries: seq<Entry>, snap: nat, i: nat)
    requires i < |entries|
    ensures var news, j := After(entries, snap), |After(entries[..i], snap)|;
            && After(entries[..i + 1], snap) ==
               After(entries[..i], snap) + (if entries[i].index > snap then [entries[i]] else [])
            && j <= |news| && news[..j] == After(entries[..i], snap)
            && (entries[i].index > snap ==> j < |news| && news[j] == entries[i])
  {
    assert entries[..i + 1][..i] == entries[..i];
    assert entries == entries[..i + 1] + entries[i + 1..];
    AfterConcat(entries[..i + 1], entries[i + 1..], snap);
  }

  /** What follows entry i of a request are exactly its fresh entries from there on if and only
      if these are all at its end. */
  lemma FreshFrom(entries: seq<Entry>, snap: nat, i: nat)
    requires i < |entries| && entries[i].index > snap
    ensures var news, j := After(entries, snap), |After(entries[..i], snap)|;
            j <= |news| && (entries[i..] == news[j..] <==> |news| - j <= FreshTail(entries, snap))
  {
    hide After, FreshTail;
    var rest := entries[i..];
    assert entries == entries[..i] + rest;
    AfterConcat(entries[..i], rest, snap);
    if i < |entries| - FreshTail(entries, snap) {
      FreshAndTail(entries, snap, i);
      SomeStale(rest, snap, |rest| - FreshTail(entries, snap) - 1);
    } else {
      AllFresh(rest, snap);
    }
  }

  lemma FreshAndTail(entries: seq<Entry>, snap: nat, i: nat)
    requires i < |entries| - FreshTail(entries, snap) && entries[i].index > snap
    ensures |After(entries[i..], snap)| > FreshTail(entries, snap)
  {
    hide After;
    var n := FreshTail(entries, snap);
    hide FreshTail;
    var first, middle, tail := entries[i..i + 1], entries[i + 1..|entries| - n], entries[|entries| - n..];
    assert entries[i..] == first + (middle + tail);
    AfterConcat(first, middle + tail, snap);
    AfterConcat(middle, tail, snap);
    AllFresh(first, snap);
    AllFresh(tail, snap);
  }

  /** The answer to entries that do not follow prev one by one: the first index out of step. */
  ghost predicate OutOfStep(entries: seq<Entry>, prev: nat, reply: AppendReply) {
    && reply.Conflict? && prev < reply.next <= prev + |entries| && entries[reply.next - prev - 1].index != reply.next
    && Contiguous(entries[..reply.next - prev - 1], prev)
  }

  /** The answer to a request with such entries, which first needs a previous entry that matches. */
  ghost predicate TurnedDown(s: Node, m: AppendRequest, reply: AppendReply) {
    if m.prev < s.snap then reply == Conflict(s.snap + 1)
    else if m.prev <= |s.log| && TermAt(s.log, m.prev) == m.prevTerm then OutOfStep(m.entries, m.prev, reply)
    else reply == Conflict(ConflictIndex(s.log, s.snap, m.prev))
  }

  /** Should the end of the log be replaced, then all entries of the request from the conflict on
      lie above the snapshot. */
  ghost predicate Spliceable(log: Log, commit: nat, snap: nat, m: AppendRequest) {
    var news := After(m.entries, snap);
    && snap <= m.prev <= |log| && TermAt(log, m.prev) == m.prevTerm
    && MergeEntries(log, commit, m.prev, news).Replaced? ==>
      |news| - FirstConflict(log, m.prev, news, 0) <= FreshTail(m.entries, snap)
  }

  lemma SpliceableMeans(log: Log, commit: nat, snap: nat, m: AppendRequest)
    requires Spliceable(log, commit, snap, m) && snap <= m.prev <= |log| && TermAt(log, m.prev) == m.prevTerm
    ensures var news := After(m.entries, snap);
            MergeEntries(log, commit, m.prev, news).Replaced? ==>
              |news| - FirstConflict(log, m.prev, news, 0) <= FreshTail(m.entries, snap)
  {
  }

  lemma NoneAfter(index: nat)
    ensures After([], index) == []
  {
  }

  /** Requests that follow their previous entry one by one have nothing to skip. */
  lemma ContiguousIsFresh(log: Log, commit: nat, snap: nat, m: AppendRequest)
    requires Contiguous(m.entries, m.prev)
    ensures snap <= m.prev ==> Fresh(m, snap) == m
    ensures Spliceable(log, commit, snap, m)
  {
    AfterContiguous(m.entries, m.prev, snap);
    hide MergeEntries, FirstConflict;
  }

  /** A request that the condition rules out: an entry which conflicts with the log and, after
      it, one that the snapshot covers. The new live log does not follow the snapshot. */
  lemma StaleEntryAfterConflict()
    ensures var log := [Entry(1, 1, Noop), Entry(2, 1, Noop)];
            var m := AppendRequest(2, "a", 1, 1, [Entry(2, 2, Noop), Entry(1, 1, Noop)], 1);
            !Spliceable(log, 1, 1, m) && Contiguous(Fresh(m, 1).entries, 1) && !Contiguous(log[1..1] + m.entries, 1)
  {
    var log := [Entry(1, 1, Noop), Entry(2, 1, Noop)];
    var entries := [Entry(2, 2, Noop), Entry(1, 1, Noop)];
    assert entries[..1] == [Entry(2, 2, Noop)] && entries[..1][..0] == [];
    assert After(entries, 1) == [Entry(2, 2, Noop)];
    assert !HasTerm(log, 1, [Entry(2, 2, Noop)], 0);
    assert (log[1..1] + entries)[1] == Entry(1, 1, Noop);
  }

  // ------------------------------------------------------------ replacing the end of the log

  lemma MergeKeeps(s: Node, snapshot: Snapshot, log: seq<Entry>, prev: nat, entries: seq<Entry>)
    requires LogOk(s.log, s.snap, s.applied, s.commit, snapshot, log)
    requires s.snap <= prev <= |s.log| && Contiguous(entries, prev)
    ensures match MergeEntries(s.log, s.commit, prev, entries)
            case Extended(added) => added != [] && Contiguous(added, |s.log|)
            case Replaced(full) => SameUpTo(s.log, full, s.commit) && Represents(full, snapshot, full[s.snap..])
            case _ => true
  {
    var i := FirstConflict(s.log, prev, entries, 0);
    if i < |entries| && s.commit <= prev + i < |s.log| {
      CutRepresents(s.log, snapshot, log, prev + i - s.snap);
      AppendRepresents(s.log[..prev + i], snapshot, log[..prev + i - s.snap], entries[i..]);
      hide Represents, Contiguous, FirstConflict;
      var full := s.log[..prev + i] + entries[i..];
      assert full[s.snap..] == log[..prev + i - s.snap] + entries[i..] by { RepresentsMeans(s.log, snapshot, log); }
      assert full[..s.commit] == s.log[..s.commit];
    }
  }

  lemma MergeCases(log: Log, commit: nat, prev: nat, entries: seq<Entry>)
    requires prev <= |log|
    ensures var k, merge := FirstConflict(log, prev, entries, 0), MergeEntries(log, commit, prev, entries);
            && prev + k <= |log|
            && (k == |entries| ==> merge == Unchanged)
            && (k < |entries| && prev + k == |log| ==> merge == Extended(entries[k..]))
            && (k < |entries| && prev + k < |log| ==>
                  merge == if prev + k + 1 <= commit then CommittedConflict(prev + k + 1)
                           else Replaced(log[..prev + k] + entries[k..]))
  {
  }

  /** After a merge the log has at least what the request covers. */
  lemma MergeCovers(log: Log, commit: nat, prev: nat, entries: seq<Entry>)
    requires prev <= |log|
    ensures var m := MergeEntries(log, commit, prev, entries);
            !m.CommittedConflict? ==> prev + |entries| <= |MergedLog(log, m)|
  {
  }

  lemma NobodyHigher(slots: Slots, commit: nat, higher: nat)
    requires NobodyAbove(slots, commit) && commit <= higher
    ensures NobodyAbove(slots, higher)
  {
  }

  /** What the lookups say about entry i of a request, before and at the first conflict k. */
  lemma MergeStep(s: Node, snapshot: Snapshot, log: seq<Entry>, prev: nat, entries: seq<Entry>, i: nat)
    requires LogOk(s.log, s.snap, s.applied, s.commit, snapshot, log)
    requires s.snap <= prev <= |s.log| && Contiguous(entries, prev)
    requires i <= FirstConflict(s.log, prev, entries, 0) && i < |entries|
    ensures entries[i].index == prev + i + 1 && LastIndex(snapshot, log) == |s.log|
    ensures var k := FirstConflict(s.log, prev, entries, 0);
            && prev + k <= |s.log|
            && (prev + i < |s.log| ==> (TermOf(snapshot, log, prev + i + 1) == Some(entries[i].term) <==> i < k))
  {
    LookupsAgree(s.log, snapshot, log, prev + i + 1);
    assert i < FirstConflict(s.log, prev, entries, 0) ==> HasTerm(s.log, prev, entries, i);
  }

  lemma AddStep(snapshot: Snapshot, log: seq<Entry>, prev: nat, entries: seq<Entry>, k: nat, i: nat)
    requires Contiguous(entries, prev) && k < i < |entries|
    ensures entries[i].index == prev + i + 1 && LastIndex(snapshot, log + entries[k..i]) == prev + i
  {
  }

  /** Disk and memory after the log file is replaced, whatever the outcome. */
  lemma ReplaceOk(s: Node, m: Memory, hard: HardState, file: Snapshot, lines: seq<Line>, full: Log, live: seq<Entry>,
      io: Outcome)
    requires LogOk(s.log, s.snap, s.applied, s.commit, m.snapshot, m.log)
    requires OnDisk(s.disk, hard, file, lines) && Synced(s.log, s.applied, s.disk, lines, [])
    requires SavingOk(s.log, s.snap, s.applied, s.saving, s.disk, m.captured, m.saving, file)
    requires SameUpTo(s.log, full, s.commit) && Represents(full, m.snapshot, live)
    ensures var d := ReplaceLog(s.disk, full, s.snap, io);
            var lines' := if io.Lost? then lines else [Base(file.index, file.term)] + Items(live);
            && OnDisk(d, hard, file, lines')
            && SavingOk(s.log, s.snap, s.applied, s.saving, d, m.captured, m.saving, file)
            && (io.Ok? ==> Synced(full, s.applied, d, lines', []))
  {
    var d := ReplaceLog(s.disk, full, s.snap, io);
    SameBelow(s.log, full, s.commit, d.snap);
    ReplaceOnDisk(s.disk, hard, file, lines, full, s.snap, io);
    hide OnDisk, SnapshotOf;
    if m.saving.Some? {
      assert SameUpTo(s.log, s.log, s.applied);
      SavingSwap(s.log, s.log, s, d, m.captured, m.saving, file);
    }
  }

  lemma SwapOk(s: Node, m: Memory, data: Pairs, full: Log, live: seq<Entry>, slots: Slots, replies: Replies,
      proposed: Proposals, file: Snapshot)
    requires LogOk(s.log, s.snap, s.applied, s.commit, m.snapshot, m.log)
    requires SameUpTo(s.log, full, s.commit) && Represents(full, m.snapshot, live) && NobodyAbove(slots, s.commit)
    requires SavingOk(s.log, s.snap, s.applied, s.saving, s.disk, m.captured, m.saving, file)
    requires MachineOk(s.log, s.applied, s.commit, m.inFlight, m.ran, data)
    requires WaitersOk(s.log, s.applied, slots, replies, proposed)
    ensures LogOk(full, s.snap, s.applied, s.commit, m.snapshot, live)
    ensures SavingOk(full, s.snap, s.applied, s.saving, s.disk, m.captured, m.saving, file)
    ensures MachineOk(full, s.applied, s.commit, m.inFlight, m.ran, data)
    ensures WaitersOk(full, s.applied, slots, replies, proposed)
  {
    hide WaitersOk, SnapshotOf, Fold;
    SameBelow(s.log, full, s.commit, s.applied);
    if m.saving.Some? {
      assert SameUpTo(s.disk.log, s.disk.log, s.disk.snap);
    }
    SavingSwap(s.log, full, s, s.disk, m.captured, m.saving, file);
    MachineSwap(s.log, full, s.applied, s.commit, m.inFlight, m.ran, data);
    WaitersSwap(s.log, full, s.applied, s.commit, slots, replies, proposed);
  }

  // ------------------------------------------------------------ receiving a snapshot

  /** One chunk as it is sent: some bytes of the encoded map. */
  datatype Chunk = Chunk(term: nat, leader: Id, index: nat, lastTerm: nat, offset: nat, data: Bytes, done: bool)

  /** The chunk is cut from the map that the log prefix of m folds to. */
  ghost predicate ChunkOf(k: Chunk, m: ChunkRequest, c: MapCodec) {
    var body := c.encode(Fold(m.prefix));
    && k.term == m.term && k.leader == m.leader && PrefixOf(m.prefix, k.index, k.lastTerm)
    && k.offset == m.offset && m.end == k.offset + |k.data| <= |body| && k.data == body[m.offset..m.end]
    && k.done == m.done == (m.end == |body|)
  }

  lemma ChunkMeans(k: Chunk, m: ChunkRequest, c: MapCodec)
    requires ChunkOf(k, m, c)
    ensures k.term == m.term && k.leader == m.leader && k.index == |m.prefix|
    ensures k.offset == m.offset && m.end == k.offset + |k.data| && k.done == m.done
    ensures k.done ==> m.end == |c.encode(Fold(m.prefix))|
  {
  }

  /** A chunk that looks like the stream under way is of the same snapshot. */
  ghost predicate OneStream(x: Transfer, m: ChunkRequest) {
    SameStream(x, m) ==> x.prefix == m.prefix
  }

  /** Besides, what the snapshot covers agrees with what is committed. */
  ghost predicate InStep(s: Node, m: ChunkRequest) {
    OneStream(s.transfer, m) && (s.commit < |m.prefix| ==> SameUpTo(s.log, m.prefix, s.commit))
  }

  lemma FollowKeepsStream(s: Node, term: nat, io: Outcome)
    ensures Follow(s, term, io).transfer == s.transfer
  {
  }

  lemma FollowInStep(s: Node, m: ChunkRequest, io: Outcome)
    requires InStep(s, m)
    ensures InStep(Follow(s, m.term, io), m)
  {
  }

  predicate SameProgress(pending: Option<Progress>, k: Chunk) {
    && pending.Some? && pending.value.leader == k.leader
    && pending.value.index == k.index && pending.value.term == k.lastTerm
  }

  lemma SameProgressIs(x: Transfer, pending: Option<Progress>, k: Chunk, m: ChunkRequest, c: MapCodec)
    requires TransferOk(x, pending, c) && ChunkOf(k, m, c)
    ensures SameProgress(pending, k) == SameStream(x, m)
    ensures pending.Some? ==> x.Receiving? && x.received == |pending.value.buffer|
  {
  }

  lemma StartOk(k: Chunk, m: ChunkRequest, c: MapCodec)
    requires ChunkOf(k, m, c)
    ensures TransferOk(Receiving(m.leader, m.prefix, 0), Some(Progress(k.leader, k.index, k.lastTerm, [])), c)
  {
  }

  /** A chunk that starts where the buffer ends makes it longer; the last one completes it. */
  lemma ChunkAdds(x: Transfer, p: Progress, k: Chunk, m: ChunkRequest, c: MapCodec)
    requires TransferOk(x, Some(p), c) && ChunkOf(k, m, c)
    requires x.prefix == m.prefix && k.offset == |p.buffer|
    ensures TransferOk(x.(received := m.end), Some(p.(buffer := p.buffer + k.data)), c)
    ensures k.done ==> p.buffer + k.data == c.encode(Fold(m.prefix))
  {
  }

  lemma SnapshotOfPrefix(k: Chunk, m: ChunkRequest, c: MapCodec)
    requires ChunkOf(k, m, c)
    ensures 0 < k.index == |m.prefix| && Indexed(m.prefix) &&
            SnapshotOf(m.prefix, Snapshot(k.index, k.lastTerm, Fold(m.prefix)))
  {
    hide Fold;
    assert m.prefix[..|m.prefix|] == m.prefix;
  }

  /** A received snapshot goes beyond what is committed and agrees with it. */
  ghost predicate Newer(s: Node, prefix: Log, snap: Snapshot) {
    && Indexed(prefix) && s.commit < snap.index == |prefix| && SnapshotOf(prefix, snap)
    && SameUpTo(s.log, prefix, s.commit)
  }

  lemma NewerMeans(s: Node, prefix: Log, snap: Snapshot)
    requires Newer(s, prefix, snap)
    ensures s.commit < snap.index == |prefix|
  {
  }

  lemma StartsWithSnapshot(log: Log, prefix: Log)
    ensures prefix <= LogAfterSnapshot(log, prefix)
  {
  }

  /** The live log after a received snapshot. */
  function LiveAfter(snapshot: Snapshot, log: seq<Entry>, snap: Snapshot): seq<Entry> {
    if TermOf(snapshot, log, snap.index) == Some(snap.term) then After(log, snap.index) else []
  }

  ghost function SnapWritten(s: Node, prefix: Log, io: Outcome): Disk {
    if io.Lost? then s.disk else s.disk.(log := LogAfterSnapshot(s.log, prefix), snap := |prefix|)
  }

  lemma SnapWriteOk(s: Node, m: Memory, hard: HardState, file: Snapshot, lines: seq<Line>, prefix: Log,
      snap: Snapshot, io: Outcome)
    requires LogOk(s.log, s.snap, s.applied, s.commit, m.snapshot, m.log) && Newer(s, prefix, snap)
    requires OnDisk(s.disk, hard, file, lines) && Synced(s.log, s.applied, s.disk, lines, [])
    requires SavingOk(s.log, s.snap, s.applied, s.saving, s.disk, m.captured, None, file)
    ensures var d := SnapWritten(s, prefix, io);
            var file' := if io.Lost? then file else snap;
            && OnDisk(d, hard, file', lines)
            && SavingOk(s.log, s.snap, s.applied, s.saving, d, m.captured, None, file')
  {
    BaseIsBelow(s.disk, hard, file, lines);
    InstallOnDisk(s.disk, hard, file, lines, prefix, snap);
  }

  /** The second write: the log file gets the entries after the snapshot. */
  lemma LogWriteOk(s: Node, m: Memory, hard: HardState, lines: seq<Line>, prefix: Log, snap: Snapshot,
      live: seq<Entry>, io: Outcome)
    requires LogOk(s.log, s.snap, s.applied, s.commit, m.snapshot, m.log) && Newer(s, prefix, snap)
    requires live == LiveAfter(m.snapshot, m.log, snap)
    requires OnDisk(s.disk, hard, snap, lines) && s.disk.log == LogAfterSnapshot(s.log, prefix) &&
             s.disk.snap == |prefix|
    requires SavingOk(s.log, s.snap, s.applied, s.saving, s.disk, m.captured, None, snap)
    ensures var d := ReplaceLog(s.disk, LogAfterSnapshot(s.log, prefix), |prefix|, io);
            && OnDisk(d, hard, snap, if io.Lost? then lines else [Base(snap.index, snap.term)] + Items(live))
            && SavingOk(s.log, s.snap, s.applied, s.saving, d, m.captured, None, snap)
  {
    InstallRepresents(s.log, m.snapshot, m.log, prefix, snap);
    var full := LogAfterSnapshot(s.log, prefix);
    RepresentsMeans(full, snap, live);
    hide LiveAfter;
    assert full[..|prefix|] == prefix;
    ReplaceOnDisk(s.disk, hard, snap, lines, full, |prefix|, io);
  }

  /** Memory after the switch to the snapshot. */
  lemma InstalledOk(s: Node, m: Memory, d: Disk, lines: seq<Line>, prefix: Log, snap: Snapshot, live: seq<Entry>,
      slots: Slots, replies: Replies, proposed: Proposals)
    requires LogOk(s.log, s.snap, s.applied, s.commit, m.snapshot, m.log) && Newer(s, prefix, snap)
    requires live == LiveAfter(m.snapshot, m.log, snap) && d.snap == |prefix| && NobodyAbove(slots, s.commit)
    requires SavingOk(s.log, s.snap, s.applied, s.saving, s.disk, m.captured, None, snap)
    requires WaitersOk(s.log, s.applied, slots, replies, proposed)
    requires lines != [] && d.log == d.wal == LogAfterSnapshot(s.log, prefix)
    ensures var full := LogAfterSnapshot(s.log, prefix);
            && LogOk(full, |prefix|, |prefix|, |prefix|, snap, live)
            && Synced(full, |prefix|, d, lines, [])
            && SavingOk(full, |prefix|, |prefix|, 0, d, m.captured, None, snap)
            && MachineOk(full, |prefix|, |prefix|, None, None, snap.data)
            && WaitersOk(full, |prefix|, slots, replies, proposed)
            && NobodyAbove(slots, |prefix|)
  {
    var full := LogAfterSnapshot(s.log, prefix);
    InstallRepresents(s.log, m.snapshot, m.log, prefix, snap);
    assert full[..|prefix|] == prefix && prefix[..|prefix|] == prefix;
    hide LiveAfter, Fold, Represents, WaitersOk, LogAfterSnapshot;
    NobodyHigher(slots, s.commit, |prefix|);
    assert SameUpTo(s.log, full, s.commit) by { assert full[..s.commit] == full[..|prefix|][..s.commit]; }
    WaitersSwap(s.log, full, s.applied, s.commit, slots, replies, proposed);
    AppliedMore(full, s.applied, |prefix|, slots, replies, proposed);
  }

  lemma AppliedMore(log: Log, applied: nat, more: nat, slots: Slots, replies: Replies, proposed: Proposals)
    requires WaitersOk(log, applied, slots, replies, proposed) && applied <= more
    ensures WaitersOk(log, more, slots, replies, proposed)
  {
  }

  lemma NewerIs(s: Node, k: Chunk, m: ChunkRequest, c: MapCodec)
    requires ChunkOf(k, m, c) && s.commit < k.index && SameUpTo(s.log, m.prefix, s.commit)
    ensures Newer(s, m.prefix, Snapshot(k.index, k.lastTerm, Fold(m.prefix)))
  {
    SnapshotOfPrefix(k, m, c);
  }

  lemma IdleOk(c: MapCodec)
    ensures TransferOk(Idle, None, c)
  {
  }

  lemma MachineMeans(s: Node, m: Memory, data: Pairs)
    requires MachineOk(s.log, s.applied, s.commit, m.inFlight, m.ran, data)
    ensures m.inFlight.None? ==> m.ran.None?
  {
  }

  lemma AttendedMeans(s: Node, slots: Slots)
    requires Attended(s, slots)
    ensures !s.role.Leader? ==> NobodyAbove(slots, s.commit)
  {
  }

  lemma SavingIdle(s: Node, m: Memory, file: Snapshot)
    requires SavingOk(s.log, s.snap, s.applied, s.saving, s.disk, m.captured, m.saving, file)
    ensures m.saving.None? ==> s.saving == 0
  {
  }

  // ------------------------------------------------------------ applying

  lemma BeginOk(s: Node, m: Memory, data: Pairs)
    requires LogOk(s.log, s.snap, s.applied, s.commit, m.snapshot, m.log)
    requires MachineOk(s.log, s.applied, s.commit, None, None, data) && s.applied < s.commit
    ensures EntryAt(m.snapshot, m.log, s.applied + 1) == Some(s.log[s.applied])
    ensures MachineOk(s.log, s.applied, s.commit, Some(s.log[s.applied]), None, data)
  {
  }

  lemma RunOk(s: Node, e: Entry, data: Pairs)
    requires MachineOk(s.log, s.applied, s.commit, Some(e), None, data)
    ensures MachineOk(s.log, s.applied, s.commit, Some(e), Some(ResultOf(data, e.command)), Applied(data, e.command))
  {
    hide Fold, Applied, ResultOf;
    FoldNext(s.log, s.applied);
  }

  /** The entry in flight is still the next one to apply, whatever happened in between. */
  lemma StillNext(s: Node, m: Memory, e: Entry, ran: Option<Result>, data: Pairs)
    requires LogOk(s.log, s.snap, s.applied, s.commit, m.snapshot, m.log)
    requires MachineOk(s.log, s.applied, s.commit, Some(e), ran, data)
    ensures e.index == s.applied + 1 <= s.commit && EntryAt(m.snapshot, m.log, e.index) == Some(e)
  {
  }

  lemma FinishOk(s: Node, m: Memory, e: Entry, result: Result, data: Pairs)
    requires LogOk(s.log, s.snap, s.applied, s.commit, m.snapshot, m.log)
    requires MachineOk(s.log, s.applied, s.commit, Some(e), Some(result), data)
    ensures LogOk(s.log, s.snap, s.applied + 1, s.commit, m.snapshot, m.log)
    ensures MachineOk(s.log, s.applied + 1, s.commit, None, None, data)
  {
  }

  lemma FinishFilesOk(s: Node, lines: seq<Line>, torn: Bytes, file: Snapshot)
    requires SavingOk(s.log, s.snap, s.applied, s.saving, s.disk, None, None, file)
    ensures SavingOk(s.log, s.snap, s.applied + 1, s.saving, s.disk, None, None, file)
    ensures Synced(s.log, s.applied, s.disk, lines, torn) ==> Synced(s.log, s.applied + 1, s.disk, lines, torn)
  {
  }

  /** Whoever waits at the applied index gets the result of the entry there. */
  lemma DeliverOk(s: Node, e: Entry, result: Result, data: Pairs, slots: Slots, replies: Replies, proposed: Proposals)
    requires MachineOk(s.log, s.applied, s.commit, Some(e), Some(result), data) && e.index == s.applied + 1
    requires WaitersOk(s.log, s.applied, slots, replies, proposed)
    ensures WaitersOk(s.log, s.applied + 1, slots - {e.index},
                      Sent(replies, if e.index in slots then Members(slots[e.index]) else {}, Done(result)), proposed)
  {
  }

  lemma AttendedLess(s: Node, slots: Slots, fewer: Slots)
    requires Attended(s, slots) && fewer.Keys <= slots.Keys
    ensures Attended(s, fewer)
  {
  }

  /** A snapshot taken right after applying stands for the applied log. */
  lemma CaptureOk(s: Node, m: Memory, data: Pairs, file: Snapshot)
    requires LogOk(s.log, s.snap, s.applied, s.commit, m.snapshot, m.log)
    requires MachineOk(s.log, s.applied, s.commit, None, None, data)
    requires SavingOk(s.log, s.snap, s.applied, s.saving, s.disk, None, None, file)
    ensures TermOf(m.snapshot, m.log, s.applied) == Some(TermAt(s.log, s.applied))
    ensures SavingOk(s.log, s.snap, s.applied, s.saving, s.disk,
            Some(Snapshot(s.applied, TermAt(s.log, s.applied), data)), None, file)
  {
  }

  // ------------------------------------------------------------ compacting

  lemma CapturedMeans(s: Node, m: Memory, file: Snapshot)
    requires LogOk(s.log, s.snap, s.applied, s.commit, m.snapshot, m.log)
    requires SavingOk(s.log, s.snap, s.applied, s.saving, s.disk, m.captured, m.saving, file) && m.captured.Some?
    ensures m.saving.None? && s.saving == 0
    ensures m.captured.value.index > m.snapshot.index ==>
            m.captured.value.index == s.applied && SnapshotOf(s.log, m.captured.value)
    ensures SavingOk(s.log, s.snap, s.applied, s.saving, s.disk, None, None, file)
  {
  }

  lemma CompactOk(s: Node, m: Memory, hard: HardState, file: Snapshot, lines: seq<Line>, torn: Bytes, snap: Snapshot,
      io: Outcome)
    requires LogOk(s.log, s.snap, s.applied, s.commit, m.snapshot, m.log)
    requires OnDisk(s.disk, hard, file, lines)
    requires SavingOk(s.log, s.snap, s.applied, s.saving, s.disk, None, None, file)
    requires snap.index == s.applied > s.snap && SnapshotOf(s.log, snap)
    ensures var t := SaveSnapshot(s, io);
            var file' := if io.Lost? then file else snap;
            && t == s.(disk := t.disk, saving := if io.Ok? then s.applied else 0)
            && OnDisk(t.disk, hard, file', lines)
            && SavingOk(s.log, s.snap, s.applied, t.saving, t.disk, None, if io.Ok? then Some(snap) else None, file')
            && (Synced(s.log, s.applied, s.disk, lines, torn) ==> Synced(s.log, s.applied, t.disk, lines, torn))
  {
    var d := s.disk;
    CompactOnDisk(d, hard, file, lines, s.log, snap);
    if d.log == d.wal {
      BaseIsBelow(d, hard, file, lines);
    }
    WholeLogAssembled(s.log, s.applied);
    hide OnDisk, Fold;
  }

  /** Dropping the entries under the snapshot that was just written. An error changes nothing
      in memory, and the log file is sound either way. */
  lemma DropOk(s: Node, m: Memory, hard: HardState, file: Snapshot, lines: seq<Line>, torn: Bytes, io: Outcome)
    requires LogOk(s.log, s.snap, s.applied, s.commit, m.snapshot, m.log)
    requires OnDisk(s.disk, hard, file, lines) && m.saving.Some?
    requires SavingOk(s.log, s.snap, s.applied, s.saving, s.disk, m.captured, m.saving, file)
    ensures s.saving == file.index <= s.applied && file == m.saving.value && m.captured.None?
    ensures var d := ReplaceLog(s.disk, s.log, s.saving, io);
            var live := After(m.log, file.index);
            var lines' := if io.Lost? then lines else [Base(file.index, file.term)] + Items(live);
            && OnDisk(d, hard, file, lines')
            && (Synced(s.log, s.applied, s.disk, lines, torn) ==>
                Synced(s.log, s.applied, d, lines', if io.Lost? then torn else []))
            && SavingOk(s.log, s.snap, s.applied, 0, d, None, None, file)
            && (io.Ok? ==>
                  && LogOk(s.log, s.saving, s.applied, s.commit, file, live)
                  && SavingOk(s.log, s.saving, s.applied, 0, d, None, None, file))
  {
    SameFile(s.log, s.disk, hard, file, lines);
    CompactRepresents(s.log, m.snapshot, m.log, file);
    RepresentsMeans(s.log, file, After(m.log, file.index));
    ReplaceOnDisk(s.disk, hard, file, lines, s.log, s.saving, io);
    hide OnDisk, Fold, Represents, After;
  }

  lemma SameFile(full: Log, d: Disk, hard: HardState, file: Snapshot, lines: seq<Line>)
    requires OnDisk(d, hard, file, lines) && SameUpTo(full, d.log, d.snap)
    ensures file.index == d.snap && SnapshotOf(full, file)
  {
  }

  lemma IdleSaving(s: Node, m: Memory, file: Snapshot)
    requires SavingOk(s.log, s.snap, s.applied, s.saving, s.disk, m.captured, m.saving, file) && m.saving.Some?
    ensures SavingOk(s.log, s.snap, s.applied, 0, s.disk, None, None, file)
  {
  }

  // ------------------------------------------------------------ replicating

  datatype Outgoing = Nothing | SendSnapshot(snapshot: Snapshot) | SendAppend(request: AppendRequest)

  /** The next index for a peer after a reply in the same term. */
  function NextAfter(next: map<Id, nat>, peer: Id, m: AppendRequest, reply: AppendReply): map<Id, nat> {
    match reply
    case Success => next[peer := Max(Get(next, peer), m.prev + |m.entries| + 1)]
    case Conflict(c) => if c > 0 then next[peer := c] else next
    case Refused => next
  }

  /** A success moves a peer's next index up to what follows the request, unless it is higher; a
      conflict moves it to where the peer says; no other peer's moves. */
  lemma NextMeans(next: map<Id, nat>, peer: Id, m: AppendRequest, reply: AppendReply)
    ensures var next' := NextAfter(next, peer, m, reply);
            && (forall p :: p != peer ==> Get(next', p) == Get(next, p))
            && match reply
               case Success => Get(next', peer) == Max(Get(next, peer), m.prev + |m.entries| + 1)
               case Conflict(c) => Get(next', peer) == (if c > 0 then c else Get(next, peer))
               case Refused => next' == next
  {
  }

  /** The live entries from an index above the snapshot on are those of the full log. */
  lemma EntriesFrom(s: Node, snapshot: Snapshot, log: seq<Entry>, next: nat)
    requires LogOk(s.log, s.snap, s.applied, s.commit, snapshot, log) && s.snap < next <= |s.log| + 1
    ensures After(log, next - 1) == s.log[next - 1..]
  {
    assert Contiguous(log, s.snap);
    AfterContiguous(log, s.snap, next - 1);
  }

  lemma SnapshotIs(s: Node, snapshot: Snapshot, log: seq<Entry>)
    requires LogOk(s.log, s.snap, s.applied, s.commit, snapshot, log)
    ensures snapshot.index == s.snap && SnapshotOf(s.log, snapshot)
  {
  }

  /** Removing channels. */
  lemma FewerOk(log: Log, applied: nat, slots: Slots, fewer: Slots, replies: Replies, proposed: Proposals)
    requires WaitersOk(log, applied, slots, replies, proposed)
    requires forall i, w {:trigger WaitsAt(fewer, i, w)} :: WaitsAt(fewer, i, w) ==> WaitsAt(slots, i, w)
    ensures WaitersOk(log, applied, fewer, replies, proposed)
  {
    hide Owns, OwnResult;
    forall i, k | i in fewer && 0 <= k < |fewer[i]|
      ensures fewer[i][k] in proposed && Owns(log, i, proposed[fewer[i][k]])
    {
      assert WaitsAt(fewer, i, fewer[i][k]);
      var j :| 0 <= j < |slots[i]| && slots[i][j] == fewer[i][k];
    }
  }

  /** The machine is at some committed index from the applied one on. */
  lemma MachineAt(s: Node, m: Memory, data: Pairs)
    requires MachineOk(s.log, s.applied, s.commit, m.inFlight, m.ran, data)
    ensures exists k :: s.applied <= k <= s.commit <= |s.log| && data == Fold(s.log[..k])
  {
  }
}
