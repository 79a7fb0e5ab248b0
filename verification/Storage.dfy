/** The store: a hard-state file, a snapshot file and a log file. */
module Storage {
  import opened Logs
  import opened KeyValue
  import opened Protocol
  import opened Wal

  datatype HardState = HardState(term: nat, vote: Option<Id>, commit: nat)

  /** Index 0 stands for no snapshot. */
  datatype Snapshot = Snapshot(index: nat, term: nat, data: Pairs)

  // ------------------------------------------------------------ reconciling log and snapshot

  /** The entries beyond an index. */
  function After(entries: seq<Entry>, index: nat): seq<Entry> {
    if entries == [] then []
    else if entries[|entries| - 1].index > index then After(entries[..|entries| - 1], index) + [entries[|entries| - 1]]
    else After(entries[..|entries| - 1], index)
  }

  /** Filter in place over the same array, then copy out. */
  method EntriesAfter(a: array<Entry>, index: nat) returns (out: seq<Entry>, changed: bool)
    modifies a
    ensures out == After(old(a[..]), index)
    ensures changed == (|out| != a.Length)
  {
    var n := 0;
    for i := 0 to a.Length
      invariant n <= i
      invariant a[..n] == After(old(a[..])[..i], index)
      invariant a[i..] == old(a[..])[i..]
    {
      assert old(a[..])[..i + 1][..i] == old(a[..])[..i];
      assert a[i] == a[i..][0] == old(a[..])[i];
      if a[i].index > index {
        a[n] := a[i];
        n := n + 1;
      }
      assert a[i + 1..] == old(a[..])[i + 1..];
    }
    assert old(a[..])[..a.Length] == old(a[..]);
    out := a[..n];
    changed := n != a.Length;
  }

  /** Does the log have the snapshot's last entry? */
  predicate HasBoundary(entries: seq<Entry>, snap: Snapshot) {
    if entries == [] then snap.index == 0 && snap.term == 0
    else if entries[0].index == snap.index then entries[0].term == snap.term
    else HasBoundary(entries[1..], snap)
  }

  /** The entries to keep next to a snapshot, and whether the log file must be rewritten. */
  function Reconciled(wal: Data, snap: Snapshot): (seq<Entry>, bool) {
    var kept := After(wal.entries, snap.index);
    if wal.hasBase && wal.baseIndex == snap.index && wal.baseTerm == snap.term then (kept, |kept| != |wal.entries|)
    else if HasBoundary(wal.entries, snap) then (kept, true)
    else ([], wal.entries != [] || wal.hasBase)
  }

  method Reconcile(wal: Data, snap: Snapshot) returns (entries: seq<Entry>, rewrite: bool)
    ensures (entries, rewrite) == Reconciled(wal, snap)
  {
    var a := new Entry[|wal.entries|](i requires 0 <= i < |wal.entries| => wal.entries[i]);
    assert a[..] == wal.entries;
    if wal.hasBase && wal.baseIndex == snap.index && wal.baseTerm == snap.term {
      entries, rewrite := EntriesAfter(a, snap.index);
    } else if HasBoundary(wal.entries, snap) {
      entries, rewrite := EntriesAfter(a, snap.index);
      rewrite := true;
    } else if wal.entries == [] && !wal.hasBase {
      entries, rewrite := [], false;
    } else {
      entries, rewrite := [], true;
    }
  }

  lemma {:induction false} AfterContiguous(entries: seq<Entry>, base: nat, index: nat)
    requires Contiguous(entries, base)
    ensures After(entries, index) ==
            if index <= base then entries else if index - base <= |entries| then entries[index - base..] else []
    decreases |entries|
  {
    if entries != [] {
      var last := |entries| - 1;
      AfterContiguous(entries[..last], base, index);
      assert entries == entries[..last] + [entries[last]];
      if base < index <= base + last {
        assert entries[index - base..] == entries[..last][index - base..] + [entries[last]];
      }
    }
  }

  lemma {:induction false} BoundaryContiguous(entries: seq<Entry>, base: nat, snap: Snapshot)
    requires Contiguous(entries, base) && snap.index > 0
    ensures HasBoundary(entries, snap) <==>
            base < snap.index <= base + |entries| && entries[snap.index - base - 1].term == snap.term
    decreases |entries|
  {
    if entries != [] && entries[0].index != snap.index {
      BoundaryContiguous(entries[1..], base + 1, snap);
    }
  }

  /** What the log file says its entries are, if it holds the entries of `log` after `base` and
      names that base, or does not. */
  function FileOf(log: Log, base: nat, hasBase: bool): Data
    requires base <= |log|
  {
    if hasBase then Data(true, base, TermAt(log, base), log[base..]) else Data(false, 0, 0, log[base..])
  }

  /** Reconciliation keeps exactly the right suffix. Let `log` be the full log whose entries
      after `base` are in the log file. Those after the snapshot survive if and only if an entry
      of the file, or the base if the file names one, has the snapshot's index and term. Nothing
      is rewritten if the base already is the snapshot, or if the file is empty. */
  lemma ReconcileKeeps(log: Log, base: nat, hasBase: bool, snap: Snapshot)
    requires Indexed(log) && base <= |log| && snap.index > 0
    ensures var (kept, rewrite) := Reconciled(FileOf(log, base, hasBase), snap);
            && kept == (if (base < snap.index || (hasBase && base == snap.index)) && snap.index <= |log| &&
                           TermAt(log, snap.index) == snap.term then log[snap.index..] else [])
            && rewrite == (if hasBase then !(base == snap.index && TermAt(log, base) == snap.term) else base < |log|)
  {
    hide After, HasBoundary;
    var entries := log[base..];
    AfterContiguous(entries, base, snap.index);
    BoundaryContiguous(entries, base, snap);
    if base < snap.index <= |log| {
      assert entries[snap.index - base - 1] == log[snap.index - 1];
      assert entries[snap.index - base..] == log[snap.index..];
    }
  }

  /** The index that the entries read from a log file follow. */
  function Start(wal: Data): nat {
    if wal.hasBase then wal.baseIndex
    else if wal.entries != [] && wal.entries[0].index > 0 then wal.entries[0].index - 1
    else 0
  }

  /** Whatever a log file holds, the entries read from it follow one another. */
  lemma {:induction false} AcceptedContiguous(lines: seq<Line>)
    requires AcceptAll(lines).Some?
    ensures var wal := AcceptAll(lines).value; Contiguous(wal.entries, Start(wal))
    decreases |lines|
  {
    if lines != [] {
      AcceptedContiguous(lines[..|lines| - 1]);
    }
  }

  /** Reconciling again after a rewrite gives the same entries and rewrites nothing. */
  lemma ReconcileTwice(wal: Data, snap: Snapshot)
    requires Contiguous(wal.entries, Start(wal)) && snap.index > 0
    ensures var kept := Reconciled(wal, snap).0;
            Contiguous(kept, snap.index) && Reconciled(Data(true, snap.index, snap.term, kept), snap) == (kept, false)
  {
    var kept := Reconciled(wal, snap).0;
    AfterContiguous(wal.entries, Start(wal), snap.index);
    BoundaryContiguous(wal.entries, Start(wal), snap);
    assert Contiguous(kept, snap.index);
    AfterContiguous(kept, snap.index, snap.index);
  }

  // ------------------------------------------------------------ the store

  /** How an append to the log file ended: an error leaves some of its bytes in the file. */
  datatype FileOutcome = Written | Torn(bytes: nat)

  datatype LoadResult = LoadError | Loaded(hard: HardState, entries: seq<Entry>, snap: Snapshot)

  /** What a load finds, given the records of the log file. */
  function LoadOf(hard: HardState, snap: Snapshot, lines: seq<Line>): LoadResult {
    match AcceptAll(lines)
    case None => LoadError
    case Some(wal) =>
      if snap.index > 0 then Loaded(hard, Reconciled(wal, snap).0, snap)
      else if wal.hasBase && wal.baseIndex > 0 then LoadError
      else Loaded(hard, wal.entries, snap)
  }

  /** A load must rewrite the log file. */
  predicate NeedsRewrite(snap: Snapshot, lines: seq<Line>) {
    AcceptAll(lines).Some? && snap.index > 0 && Reconciled(AcceptAll(lines).value, snap).1
  }

  /** The records of the log file after a load. */
  function LinesAfterLoad(snap: Snapshot, lines: seq<Line>): seq<Line> {
    match AcceptAll(lines)
    case None => lines
    case Some(wal) =>
      if NeedsRewrite(snap, lines) then [Base(snap.index, snap.term)] + Items(Reconciled(wal, snap).0) else lines
  }

  /** A load is refused exactly if the log file cannot be read, or goes on from a base that no
      snapshot stands for. */
  lemma LoadFailsExactlyIf(hard: HardState, snap: Snapshot, lines: seq<Line>)
    ensures LoadOf(hard, snap, lines).LoadError? <==>
            AcceptAll(lines).None? || (snap.index == 0 && lines != [] && lines[0].Base? && lines[0].index > 0)
    ensures LoadOf(hard, snap, lines).Loaded? ==>
            LoadOf(hard, snap, lines).hard == hard && LoadOf(hard, snap, lines).snap == snap
  {
    if AcceptAll(lines).Some? {
      BaseComesFirst(lines);
    }
  }

  /** Loading is idempotent: whatever the log file holds, a second load returns what the first
      did and leaves the file as the first left it. */
  lemma LoadTwice(hard: HardState, snap: Snapshot, lines: seq<Line>)
    ensures var after := LinesAfterLoad(snap, lines);
            LoadOf(hard, snap, after) == LoadOf(hard, snap, lines) && LinesAfterLoad(snap, after) == after
  {
    if AcceptAll(lines).Some? && snap.index > 0 {
      var wal := AcceptAll(lines).value;
      AcceptedContiguous(lines);
      ReconcileTwice(wal, snap);
      BaseAndItems(snap.index, snap.term, Reconciled(wal, snap).0);
    }
  }

  class Store {
    const codec: Codec
    var hard: HardState
    var snap: Snapshot
    /** The log file; empty also stands for a file that does not exist. */
    var wal: Bytes
    /** The records in the log file, and the unfinished line at its end. */
    ghost var lines: seq<Line>
    ghost var torn: Bytes

    ghost predicate Valid()
      reads this
    {
      Lawful(codec) && wal == Frame(codec, lines) + torn && NEWLINE !in torn
    }

    constructor (codec: Codec)
      requires Lawful(codec)
      ensures Valid() && this.codec == codec && lines == [] && torn == []
      ensures hard == HardState(0, None, 0) && snap == Snapshot(0, 0, map[])
    {
      this.codec := codec;
      hard, snap, wal := HardState(0, None, 0), Snapshot(0, 0, map[]), [];
      lines, torn := [], [];
    }

    method SaveHardState(hs: HardState, io: Outcome) returns (ok: bool)
      requires Valid()
      modifies this`hard
      ensures Valid() && ok == io.Ok?
      ensures hard == if io.Lost? then old(hard) else hs
    {
      if !io.Lost? {
        hard := hs;
      }
      ok := io.Ok?;
    }

    method SaveSnapshot(s: Snapshot, io: Outcome) returns (ok: bool)
      requires Valid()
      modifies this`snap
      ensures Valid() && ok == io.Ok?
      ensures snap == if io.Lost? then old(snap) else s
    {
      if !io.Lost? {
        snap := s;
      }
      ok := io.Ok?;
    }

    /** Encode records one after the other. */
    method Encode(batch: seq<Line>) returns (out: Bytes)
      ensures out == Frame(codec, batch)
    {
      out := [];
      for i := 0 to |batch|
        invariant out == Frame(codec, batch[..i])
      {
        assert batch[..i + 1][..i] == batch[..i];
        out := out + codec.encode(batch[i]) + [NEWLINE];
      }
      assert batch[..|batch|] == batch;
    }

    /** The records an append writes: a new file starts with its base. */
    function Batch(entries: seq<Entry>): seq<Line>
      reads this`wal, this`snap
    {
      (if wal == [] then [Base(snap.index, snap.term)] else []) + Items(entries)
    }

    /** Append to a file that ends with a whole line. Whatever happens, the file holds the old
        records and a prefix of the new ones, all of them if the call succeeds. */
    method AppendEntries(entries: seq<Entry>, io: FileOutcome) returns (ok: bool)
      requires Valid() && torn == []
      modifies this`wal, this`lines, this`torn
      ensures Valid() && (entries == [] ==> ok && unchanged(this))
      ensures entries != [] ==> ok == io.Written?
      ensures ok && entries != [] ==> torn == [] && lines == old(lines + Batch(entries))
      ensures !ok ==> lines == old(lines) + old(Batch(entries))[..WholeLines(codec, old(Batch(entries)),
              Min(io.bytes, |Frame(codec, old(Batch(entries)))|))]
    {
      hide Frame, WholeLines, Lawful, Items;
      if entries == [] {
        return true;
      }
      var batch := Batch(entries);
      var data := Encode(batch);
      match io
      case Written =>
        FrameConcat(codec, lines, batch);
        wal := wal + data;
        lines := lines + batch;
        ok := true;
      case Torn(bytes) =>
        var n := Min(bytes, |data|);
        ghost var k := WholeLines(codec, batch, n);
        TornAppend(codec, batch, n);
        FrameConcat(codec, lines, batch[..k]);
        wal := wal + data[..n];
        lines, torn := lines + batch[..k], data[|Frame(codec, batch[..k])|..n];
        ok := false;
    }

    /** Replace the whole file; its base is taken from the snapshot file. */
    method ReplaceEntries(entries: seq<Entry>, io: Outcome) returns (ok: bool)
      requires Valid()
      modifies this`wal, this`lines, this`torn
      ensures Valid() && ok == io.Ok?
      ensures io.Lost? ==> unchanged(this)
      ensures !io.Lost? ==> torn == [] && lines == [Base(snap.index, snap.term)] + Items(entries)
    {
      var batch := [Base(snap.index, snap.term)] + Items(entries);
      var data := Encode(batch);
      if !io.Lost? {
        wal := data;
        lines, torn := batch, [];
      }
      ok := io.Ok?;
    }

    /** Read everything back, cut off a torn tail and reconcile the log with the snapshot. */
    method Load(io: Outcome) returns (r: LoadResult)
      requires Valid()
      modifies this`wal, this`lines, this`torn
      ensures Valid()
      ensures io.Ok? || !NeedsRewrite(snap, old(lines)) ==>
                r == LoadOf(hard, snap, old(lines)) && lines == LinesAfterLoad(snap, old(lines))
      ensures !io.Ok? && NeedsRewrite(snap, old(lines)) ==> r.LoadError?
      ensures r.Loaded? ==> torn == []
      ensures r.Loaded? ==> r == LoadOf(hard, snap, old(lines)) && lines == LinesAfterLoad(snap, old(lines))
      ensures lines == old(lines) || lines == LinesAfterLoad(snap, old(lines))
    {
      var read := ReadLines(codec, wal);
      if AcceptAll(lines).None? {
        BadLineReads(codec, lines, torn);
      } else {
        TornFileReads(codec, lines, torn);
      }
      if read.Bad? {
        return LoadError;
      }
      wal := wal[..read.keep];
      torn := [];
      var entries := read.data.entries;
      if snap.index > 0 {
        var rewrite;
        entries, rewrite := Reconcile(read.data, snap);
        if rewrite {
          var ok := ReplaceEntries(entries, io);
          if !ok {
            return LoadError;
          }
        }
      } else if read.data.hasBase && read.data.baseIndex > 0 {
        return LoadError;
      }
      r := Loaded(hard, entries, snap);
    }
  }
}
