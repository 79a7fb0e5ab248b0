/** A snapshot and a live log as a representation of a full log, and the disk files as a
    representation of what a restart would find. */
module Compaction {
  import opened Logs
  import opened KeyValue
  import opened Protocol
  import opened Wal
  import opened Storage

  // ------------------------------------------------------------ in memory

  /** The snapshot stands for the first entries of the full log, and the live log is the rest. */
  ghost predicate Represents(full: Log, snap: Snapshot, log: seq<Entry>) {
    && Indexed(full)
    && SnapshotOf(full, snap)
    && log == full[snap.index..]
  }

  ghost predicate SnapshotOf(full: Log, snap: Snapshot) {
    snap.index <= |full| && snap.term == TermAt(full, snap.index) && snap.data == Fold(full[..snap.index])
  }

  function LastIndex(snap: Snapshot, log: seq<Entry>): nat {
    if log == [] then snap.index else log[|log| - 1].index
  }

  function LastTermOf(snap: Snapshot, log: seq<Entry>): nat {
    if log == [] then snap.term else log[|log| - 1].term
  }

  function EntryAt(snap: Snapshot, log: seq<Entry>, index: nat): Option<Entry> {
    if index <= snap.index then None
    else if index - snap.index - 1 >= |log| then None
    else if log[index - snap.index - 1].index == index then Some(log[index - snap.index - 1])
    else None
  }

  function TermOf(snap: Snapshot, log: seq<Entry>, index: nat): Option<nat> {
    if index == 0 then Some(0)
    else if index == snap.index then Some(snap.term)
    else match EntryAt(snap, log, index)
         case None => None
         case Some(e) => Some(e.term)
  }

  /** Looking things up in the snapshot and the live log gives what the full log has, wherever
      it gives an answer; it gives none exactly below the snapshot and beyond the end. */
  lemma LookupsAgree(full: Log, snap: Snapshot, log: seq<Entry>, index: nat)
    requires Represents(full, snap, log)
    ensures LastIndex(snap, log) == |full| && LastTermOf(snap, log) == LastTerm(full)
    ensures TermOf(snap, log, index) ==
            if index == 0 || snap.index <= index <= |full| then Some(TermAt(full, index)) else None
    ensures EntryAt(snap, log, index) == if snap.index < index <= |full| then Some(full[index - 1]) else None
  {
  }

  lemma RepresentsMeans(full: Log, snap: Snapshot, log: seq<Entry>)
    requires Represents(full, snap, log)
    ensures snap.index <= |full| && log == full[snap.index..] && snap.data == Fold(full[..snap.index])
    ensures forall i :: 0 <= i < |log| ==> log[i] == full[snap.index + i] && log[i].index == snap.index + i + 1
  {
  }

  /** Appending to the live log appends to the full log. */
  lemma AppendRepresents(full: Log, snap: Snapshot, log: seq<Entry>, more: seq<Entry>)
    requires Represents(full, snap, log) && Contiguous(more, |full|)
    ensures Represents(full + more, snap, log + more)
  {
    assert (full + more)[..snap.index] == full[..snap.index];
    assert (full + more)[snap.index..] == log + more;
  }

  /** Cutting the live log cuts the full log, above the snapshot. */
  lemma CutRepresents(full: Log, snap: Snapshot, log: seq<Entry>, keep: nat)
    requires Represents(full, snap, log) && keep <= |log|
    ensures Represents(full[..snap.index + keep], snap, log[..keep])
  {
    assert full[..snap.index + keep][..snap.index] == full[..snap.index];
    assert full[..snap.index + keep][snap.index..] == log[..keep];
  }

  /** Moving the snapshot up leaves the full log as it is. */
  lemma CompactRepresents(full: Log, snap: Snapshot, log: seq<Entry>, snap': Snapshot)
    requires Represents(full, snap, log) && SnapshotOf(full, snap') && snap.index <= snap'.index
    ensures Represents(full, snap', After(log, snap'.index))
  {
    AfterContiguous(log, snap.index, snap'.index);
    assert log[snap'.index - snap.index..] == full[snap'.index..];
  }

  /** Dropping what a received snapshot covers. */
  lemma InstallRepresents(full: Log, snap: Snapshot, log: seq<Entry>, prefix: Log, snap': Snapshot)
    requires Represents(full, snap, log) && Indexed(prefix) && SnapshotOf(prefix, snap')
    requires snap'.index == |prefix| && snap.index < |prefix|
    ensures Represents(LogAfterSnapshot(full, prefix), snap',
                       if TermOf(snap, log, snap'.index) == Some(snap'.term) then After(log, snap'.index) else [])
  {
    LookupsAgree(full, snap, log, snap'.index);
    AfterContiguous(log, snap.index, snap'.index);
    assert prefix[..|prefix|] == prefix;
    var full' := LogAfterSnapshot(full, prefix);
    assert full'[..|prefix|] == prefix;
    if |prefix| <= |full| && TermAt(full, |prefix|) == LastTerm(prefix) {
      assert log[|prefix| - snap.index..] == full[|prefix|..];
      assert full'[|prefix|..] == full[|prefix|..];
    }
  }

  // ------------------------------------------------------------ on disk

  /** What `Load` makes of the log behind the log file and the log behind the snapshot. */
  function Assembled(d: Disk): Log
    requires d.snap <= |d.log|
  {
    var p := d.log[..d.snap];
    if d.base <= d.snap then LogAfterSnapshot(d.wal, p) else p
  }

  ghost predicate FileLines(d: Disk, lines: seq<Line>)
    requires d.base <= |d.wal|
  {
    if d.loadable then
      || lines == [Base(d.base, TermAt(d.wal, d.base))] + Items(d.wal[d.base..])
      || (lines == [] && d.base == |d.wal|)
    else AcceptAll(lines).None?
  }

  /** The files hold what the abstract disk says. */
  ghost predicate OnDisk(d: Disk, hard: HardState, snap: Snapshot, lines: seq<Line>) {
    && hard == HardState(d.term, d.vote, d.commit)
    && d.snap == snap.index && SnapshotOf(d.log, snap)
    && d.base <= |d.wal| && Indexed(d.wal) && Indexed(d.log)
    && d.log == Assembled(d)
    && (d.snap == 0 ==> d.base == 0)
    && FileLines(d, lines)
  }

  /** A load from loadable files finds the abstract disk's log, split at the snapshot, and
      leaves the files as the restarted node expects them. */
  lemma LoadFinds(d: Disk, hard: HardState, snap: Snapshot, lines: seq<Line>)
    requires OnDisk(d, hard, snap, lines) && d.loadable
    ensures LoadOf(hard, snap, lines) == Loaded(hard, d.log[d.snap..], snap)
    ensures OnDisk(d.(wal := d.log, base := d.snap), hard, snap, LinesAfterLoad(snap, lines))
    ensures d.snap <= |d.log| && hard == HardState(d.term, d.vote, d.commit) &&
            Represents(d.log, snap, d.log[d.snap..]) && snap.index == d.snap
  {
    var d' := d.(wal := d.log, base := d.snap);
    var p := d.log[..d.snap];
    assert LogAfterSnapshot(d.log, p) == d.log by {
      assert p + d.log[d.snap..] == d.log;
      assert d.snap > 0 ==> p[d.snap - 1] == d.log[d.snap - 1];
    }
    if lines == [] {
      LoadOfEmpty(d, hard, snap);
    } else {
      LoadOfFile(d, hard, snap, lines);
    }
  }

  lemma SnapIsInside(d: Disk, hard: HardState, snap: Snapshot, lines: seq<Line>)
    requires OnDisk(d, hard, snap, lines)
    ensures d.snap <= |d.log|
  {
  }

  lemma LoadRefuses(d: Disk, hard: HardState, snap: Snapshot, lines: seq<Line>)
    requires OnDisk(d, hard, snap, lines) && !d.loadable
    ensures LoadOf(hard, snap, lines) == LoadError && LinesAfterLoad(snap, lines) == lines
  {
  }

  /** What recovery may leave behind if it is cut short: the log file rewritten or not, and the
      commit index raised or not. */
  predicate LeftByRecovery(d: Disk, e: Disk) {
    || e == d
    || (d.loadable && (e == d.(wal := d.log, base := d.snap) ||
                       e == d.(wal := d.log, base := d.snap, commit := RecoveredCommit(d))))
  }

  /** Recovering again from there gives the same node. */
  lemma RecoverAgain(d: Disk, e: Disk)
    requires d.snap <= |d.log|
    ensures LeftByRecovery(d, e) ==> Restart(e) == Restart(d) && e.loadable == d.loadable
    ensures var f := d.(wal := d.log, base := d.snap);
            Restart(f) == Restart(d) && Restart(f.(commit := RecoveredCommit(d))) == Restart(d) &&
            RecoveredCommit(f) == RecoveredCommit(d)
  {
  }

  lemma HardMeans(d: Disk, hard: HardState, snap: Snapshot, lines: seq<Line>)
    requires OnDisk(d, hard, snap, lines)
    ensures hard == HardState(d.term, d.vote, d.commit)
  {
  }

  lemma LoadOfEmpty(d: Disk, hard: HardState, snap: Snapshot)
    requires OnDisk(d, hard, snap, []) && d.loadable
    ensures d.log == d.log[..d.snap]
    ensures LoadOf(hard, snap, []) == Loaded(hard, [], snap) && LinesAfterLoad(snap, []) == []
  {
  }

  lemma LoadOfFile(d: Disk, hard: HardState, snap: Snapshot, lines: seq<Line>)
    requires OnDisk(d, hard, snap, lines) && d.loadable && lines != []
    ensures LoadOf(hard, snap, lines) == Loaded(hard, d.log[d.snap..], snap)
    ensures LinesAfterLoad(snap, lines) == [Base(d.snap, snap.term)] + Items(d.log[d.snap..])
  {
    var entries := d.wal[d.base..];
    var p := d.log[..d.snap];
    BaseAndItems(d.base, TermAt(d.wal, d.base), entries);
    assert d.snap > 0 ==> p[d.snap - 1] == d.log[d.snap - 1];
    assert LastTerm(p) == snap.term;
    if snap.index > 0 {
      ReconcileKeeps(d.wal, d.base, true, snap);
      if d.base <= d.snap <= |d.wal| && TermAt(d.wal, d.snap) == snap.term {
        assert d.log == p + d.wal[d.snap..];
        assert d.log[d.snap..] == d.wal[d.snap..];
      } else {
        assert d.log[d.snap..] == [];
      }
    } else {
      assert d.log == [] + d.wal[0..];
      assert d.wal[0..] == d.wal && d.log[0..] == d.log;
    }
  }

  // ------------------------------------------------------------ store calls

  lemma HardOnDisk(d: Disk, hard: HardState, snap: Snapshot, lines: seq<Line>, term: nat, vote: Option<Id>,
      commit: nat, io: Outcome)
    requires OnDisk(d, hard, snap, lines)
    ensures OnDisk(SaveHard(d, term, vote, commit, io), if io.Lost? then hard else HardState(term, vote, commit),
            snap, lines)
  {
  }

  /** Once a record is refused, so is every longer file. */
  lemma {:induction false} StillRefused(lines: seq<Line>, more: seq<Line>)
    requires AcceptAll(lines).None?
    ensures AcceptAll(lines + more).None?
    decreases |more|
  {
    if more == [] {
      assert lines + more == lines;
    } else {
      var last := |more| - 1;
      StillRefused(lines, more[..last]);
      assert (lines + more)[..|lines + more| - 1] == lines + more[..last];
    }
  }

  /** The outcome of an append on the level of entries, not counting a base record. */
  function KeptEntries(k: nat, isNew: bool): nat {
    if isNew && k > 0 then k - 1 else k
  }

  /** An append that left k of its records in the file. */
  lemma AppendOnDisk(d: Disk, hard: HardState, snap: Snapshot, lines: seq<Line>, entries: seq<Entry>, k: nat)
    requires OnDisk(d, hard, snap, lines) && d.log == d.wal && Contiguous(entries, |d.wal|)
    requires lines == [] ==> d.base == d.snap && d.loadable
    requires k <= |entries| + (if lines == [] then 1 else 0)
    ensures var batch := (if lines == [] then [Base(snap.index, snap.term)] else []) + Items(entries);
            OnDisk(AppendLog(d, entries, Failed(KeptEntries(k, lines == []))), hard, snap, lines + batch[..k])
  {
    var n := KeptEntries(k, lines == []);
    assert Min(n, |entries|) == n;
    BaseIsBelow(d, hard, snap, lines);
    ExtendAssembled(d, entries[..n], snap);
    LinesGrow(d, snap, lines, entries, k);
    hide FileLines, Fold, Assembled, SnapshotOf;
  }

  /** The records in the file grow with the log behind it. */
  lemma LinesGrow(d: Disk, snap: Snapshot, lines: seq<Line>, entries: seq<Entry>, k: nat)
    requires d.base <= |d.wal| && FileLines(d, lines)
    requires lines == [] ==> d.loadable && d.base == snap.index && snap.term == TermAt(d.wal, d.base)
    requires k <= |entries| + (if lines == [] then 1 else 0)
    ensures var batch := (if lines == [] then [Base(snap.index, snap.term)] else []) + Items(entries);
            FileLines(d.(log := d.log + entries[..KeptEntries(k, lines == [])],
                wal := d.wal + entries[..KeptEntries(k, lines == [])]), lines + batch[..k])
  {
    hide AcceptAll, Items, TermAt;
    var kept := KeptEntries(k, lines == []);
    var more := entries[..kept];
    var batch := (if lines == [] then [Base(snap.index, snap.term)] else []) + Items(entries);
    assert entries == more + entries[kept..];
    ItemsSplit(more, entries[kept..]);
    ItemsSplit(d.wal[d.base..], more);
    assert (d.wal + more)[d.base..] == d.wal[d.base..] + more;
    BaseTermStays(d.wal, more, d.base);
    if !d.loadable {
      StillRefused(lines, batch[..k]);
    } else if lines == [] {
      assert k > 0 ==> lines + batch[..k] == [Base(snap.index, snap.term)] + Items(more);
      assert d.wal[d.base..] == [] && [] + more == more;
    } else {
      assert batch[..k] == Items(more);
    }
  }

  lemma BaseTermStays(log: Log, more: seq<Entry>, base: nat)
    requires base <= |log|
    ensures TermAt(log + more, base) == TermAt(log, base)
  {
  }

  /** A log file that agrees with the log starts at or below the snapshot. */
  lemma BaseIsBelow(d: Disk, hard: HardState, snap: Snapshot, lines: seq<Line>)
    requires OnDisk(d, hard, snap, lines) && d.log == d.wal
    ensures d.base <= d.snap
  {
  }

  /** A log and its log file that grow together stay assembled. */
  lemma ExtendAssembled(d: Disk, more: seq<Entry>, snap: Snapshot)
    requires d.base <= d.snap <= |d.log| && d.log == d.wal && SnapshotOf(d.log, snap)
    ensures var d' := d.(log := d.log + more, wal := d.wal + more);
            d'.log == Assembled(d') && SnapshotOf(d'.log, snap)
  {
    var log' := d.log + more;
    assert log'[..snap.index] == d.log[..snap.index];
    WholeLogAssembled(log', d.snap);
  }

  lemma WholeLogAssembled(log: Log, k: nat)
    requires k <= |log|
    ensures LogAfterSnapshot(log, log[..k]) == log
  {
  }

  /** Replacing the log file by the live entries after `from`. It can be loaded again exactly
      if the snapshot file is the snapshot that these entries follow. */
  lemma ReplaceOnDisk(d: Disk, hard: HardState, snap: Snapshot, lines: seq<Line>, full: Log, from: nat, io: Outcome)
    requires OnDisk(d, hard, snap, lines) && Indexed(full)
    requires from <= d.snap <= |full| && full[..d.snap] == d.log[..d.snap]
    ensures OnDisk(ReplaceLog(d, full, from, io), hard, snap,
                   if io.Lost? then lines else [Base(snap.index, snap.term)] + Items(full[from..]))
    ensures !io.Lost? ==> (AcceptAll([Base(snap.index, snap.term)] + Items(full[from..])).Some? <==> d.snap == from)
  {
    hide AcceptAll, Fold;
    var d' := ReplaceLog(d, full, from, io);
    assert d.snap > 0 ==> full[..d.snap][d.snap - 1] == d.log[..d.snap][d.snap - 1];
    BaseAndItems(snap.index, snap.term, full[from..]);
    WholeLogAssembled(full, d.snap);
    if from < d.snap {
      assert full[from..][0].index == from + 1;
    }
  }

  /** Writing the snapshot file of a snapshot received from a leader: from this moment on a
      load finds the log after the snapshot. */
  lemma InstallOnDisk(d: Disk, hard: HardState, snap: Snapshot, lines: seq<Line>, prefix: Log, snap': Snapshot)
    requires OnDisk(d, hard, snap, lines) && d.base <= |prefix|
    requires Indexed(prefix) && SnapshotOf(prefix, snap') && 0 < snap'.index == |prefix|
    ensures OnDisk(d.(log := LogAfterSnapshot(d.wal, prefix), snap := |prefix|), hard, snap', lines)
  {
    var log := LogAfterSnapshot(d.wal, prefix);
    assert prefix[..|prefix|] == prefix && log[..|prefix|] == prefix;
    assert log[|prefix| - 1] == prefix[|prefix| - 1];
  }

  /** Writing the snapshot file of a compaction. */
  lemma CompactOnDisk(d: Disk, hard: HardState, snap: Snapshot, lines: seq<Line>, full: Log, snap': Snapshot)
    requires OnDisk(d, hard, snap, lines) && Indexed(full) && SnapshotOf(full, snap') && 0 < snap'.index
    ensures var p := full[..snap'.index];
            OnDisk(d.(log := if d.base <= snap'.index then LogAfterSnapshot(d.wal, p) else p, snap := snap'.index),
                hard, snap', lines)
  {
    var p := full[..snap'.index];
    var log := if d.base <= snap'.index then LogAfterSnapshot(d.wal, p) else p;
    assert log[..|p|] == p && log[|p| - 1] == p[|p| - 1];
  }
}
