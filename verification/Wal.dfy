/** The log file: one encoded record per line, and a tail that a crash may have torn. */
module Wal {
  import opened Logs

  newtype byte = x: int | 0 <= x < 256
  type Bytes = seq<byte>

  const NEWLINE: byte := 10

  datatype Line = Base(index: nat, term: nat) | Item(entry: Entry)

  /** How records are written and read back, checksum included. */
  datatype Codec = Codec(encode: Line -> Bytes, decode: Bytes -> Option<Line>)

  predicate IsSpace(b: byte) {
    b == 32 || 9 <= b <= 13
  }

  function TrimLeft(s: Bytes): Bytes {
    if s != [] && IsSpace(s[0]) then TrimLeft(s[1..]) else s
  }

  function Trim(s: Bytes): Bytes
    decreases |s|
  {
    if s != [] && IsSpace(s[|s| - 1]) then Trim(s[..|s| - 1]) else TrimLeft(s)
  }

  /** Encoded records have no newline inside and no space around them, and decode to what was
      encoded. */
  ghost predicate Lawful(c: Codec) {
    forall r {:trigger c.encode(r)} ::
      NEWLINE !in c.encode(r) && c.encode(r) != [] && Trim(c.encode(r)) == c.encode(r) &&
          c.decode(c.encode(r)) == Some(r)
  }

  /** The file that holds these records. */
  function Frame(c: Codec, lines: seq<Line>): Bytes {
    if lines == [] then [] else Frame(c, lines[..|lines| - 1]) + c.encode(lines[|lines| - 1]) + [NEWLINE]
  }

  datatype Data = Data(hasBase: bool, baseIndex: nat, baseTerm: nat, entries: seq<Entry>)

  const NoData := Data(false, 0, 0, [])

  /** Take in one more record, if it may follow what was read so far. */
  function Accept(d: Data, r: Line): Option<Data> {
    match r
    case Base(index, term) =>
      if d.hasBase || d.entries != [] then None else Some(Data(true, index, term, []))
    case Item(e) =>
      if e.index == 0 then None
      else if d.hasBase && e.index <= d.baseIndex then None
      else if d.entries == [] && d.hasBase && e.index != d.baseIndex + 1 then None
      else if d.entries != [] && e.index != d.entries[|d.entries| - 1].index + 1 then None
      else Some(d.(entries := d.entries + [e]))
  }

  function AcceptAll(lines: seq<Line>): Option<Data> {
    if lines == [] then Some(NoData) else
    match AcceptAll(lines[..|lines| - 1])
    case None => None
    case Some(d) => Accept(d, lines[|lines| - 1])
  }

  /** The position of the next newline at or after offset, or the end. */
  function LineEnd(data: Bytes, offset: nat): (e: nat)
    requires offset <= |data|
    ensures offset <= e <= |data|
    ensures NEWLINE !in data[offset..e]
    ensures e < |data| ==> data[e] == NEWLINE
    decreases |data| - offset
  {
    if offset < |data| && data[offset] != NEWLINE then
      var e := LineEnd(data, offset + 1);
      assert data[offset..e] == [data[offset]] + data[offset + 1..e];
      e
    else offset
  }

  /** Good: what was read, and how much of the file holds whole lines. */
  datatype ReadResult = Bad | Good(data: Data, keep: nat)

  function ReadFrom(c: Codec, data: Bytes, offset: nat, d: Data): ReadResult
    requires offset <= |data|
    decreases |data| - offset
  {
    if offset == |data| then Good(d, offset) else
    var e := LineEnd(data, offset);
    if e == |data| then Good(d, offset) else
    var line := Trim(data[offset..e]);
    if line == [] then ReadFrom(c, data, e + 1, d) else
    match c.decode(line)
    case None => Bad
    case Some(r) =>
      match Accept(d, r)
      case None => Bad
      case Some(d') => ReadFrom(c, data, e + 1, d')
  }

  function Read(c: Codec, data: Bytes): ReadResult {
    ReadFrom(c, data, 0, NoData)
  }

  /** Read the file line by line. A tail without a newline is cut off. */
  method ReadLines(c: Codec, data: Bytes) returns (r: ReadResult)
    ensures r == Read(c, data)
  {
    var d, offset := NoData, 0;
    while offset < |data|
      invariant offset <= |data|
      invariant ReadFrom(c, data, 0, NoData) == ReadFrom(c, data, offset, d)
    {
      var e := LineEnd(data, offset);
      if e == |data| {
        break;
      }
      var line := Trim(data[offset..e]);
      if line != [] {
        var decoded := c.decode(line);
        if decoded.None? {
          return Bad;
        }
        var next := Accept(d, decoded.value);
        if next.None? {
          return Bad;
        }
        d := next.value;
      }
      offset := e + 1;
    }
    return Good(d, offset);
  }

  // ------------------------------------------------------------ whole lines

  lemma {:induction false} FrameConcat(c: Codec, a: seq<Line>, b: seq<Line>)
    ensures Frame(c, a + b) == Frame(c, a) + Frame(c, b)
    decreases |b|
  {
    if b == [] {
      assert a + b == a;
    } else {
      var last := |b| - 1;
      assert (a + b)[..|a + b| - 1] == a + b[..last];
      FrameConcat(c, a, b[..last]);
    }
  }

  lemma {:induction false} LineEndAt(data: Bytes, offset: nat, e: nat)
    requires offset <= e <= |data| && NEWLINE !in data[offset..e] && (e < |data| ==> data[e] == NEWLINE)
    ensures LineEnd(data, offset) == e
    decreases e - offset
  {
  }

  lemma OneLineReads(c: Codec, data: Bytes, offset: nat, r: Line, d: Data)
    requires Lawful(c) && offset + |c.encode(r)| < |data|
    requires data[offset..offset + |c.encode(r)|] == c.encode(r) && data[offset + |c.encode(r)|] == NEWLINE
    requires Accept(d, r).Some?
    ensures ReadFrom(c, data, offset, d) == ReadFrom(c, data, offset + |c.encode(r)| + 1, Accept(d, r).value)
  {
    LineEndAt(data, offset, offset + |c.encode(r)|);
  }

  /** Reading past whole lines is accepting their records one by one. */
  lemma {:induction false} FramedReads(c: Codec, lines: seq<Line>, rest: Bytes)
    requires Lawful(c) && AcceptAll(lines).Some?
    ensures Read(c, Frame(c, lines) + rest) == ReadFrom(c, Frame(c, lines) + rest, |Frame(c, lines)|,
            AcceptAll(lines).value)
    decreases |lines|
  {
    hide ReadFrom, Lawful;
    if lines != [] {
      var before, r := lines[..|lines| - 1], lines[|lines| - 1];
      var start, line := Frame(c, before), c.encode(r);
      var data := Frame(c, lines) + rest;
      assert data == start + (line + [NEWLINE] + rest);
      FramedReads(c, before, line + [NEWLINE] + rest);
      OneLineReads(c, data, |start|, r, AcceptAll(before).value);
    }
  }

  /** A file of whole lines with a torn tail reads as its whole lines. */
  lemma TornFileReads(c: Codec, lines: seq<Line>, torn: Bytes)
    requires Lawful(c) && AcceptAll(lines).Some? && NEWLINE !in torn
    ensures Read(c, Frame(c, lines) + torn) == Good(AcceptAll(lines).value, |Frame(c, lines)|)
  {
    FramedReads(c, lines, torn);
    var data := Frame(c, lines) + torn;
    assert data[|Frame(c, lines)|..|data|] == torn;
    LineEndAt(data, |Frame(c, lines)|, |data|);
  }

  /** A record that may not follow the ones before it makes the whole file unreadable. */
  lemma {:induction false} BadLineReads(c: Codec, lines: seq<Line>, rest: Bytes)
    requires Lawful(c) && AcceptAll(lines).None?
    ensures Read(c, Frame(c, lines) + rest) == Bad
    decreases |lines|
  {
    var before, r := lines[..|lines| - 1], lines[|lines| - 1];
    var start, line := Frame(c, before), c.encode(r);
    var data := Frame(c, lines) + rest;
    assert data == start + (line + [NEWLINE] + rest);
    if AcceptAll(before).None? {
      BadLineReads(c, before, line + [NEWLINE] + rest);
    } else {
      FramedReads(c, before, line + [NEWLINE] + rest);
      RefusedLineReads(c, data, |start|, r, AcceptAll(before).value);
    }
  }

  lemma RefusedLineReads(c: Codec, data: Bytes, offset: nat, r: Line, d: Data)
    requires Lawful(c) && offset + |c.encode(r)| < |data|
    requires data[offset..offset + |c.encode(r)|] == c.encode(r) && data[offset + |c.encode(r)|] == NEWLINE
    requires Accept(d, r).None?
    ensures ReadFrom(c, data, offset, d) == Bad
  {
  }

  lemma {:induction false} SpacesTrim(s: Bytes)
    requires forall i :: 0 <= i < |s| ==> IsSpace(s[i])
    ensures Trim(s) == []
    decreases |s|
  {
    if s != [] {
      SpacesTrim(s[..|s| - 1]);
    }
  }

  /** Blank lines are skipped. */
  lemma BlankLineReads(c: Codec, lines: seq<Line>, blank: Bytes, torn: Bytes)
    requires Lawful(c) && AcceptAll(lines).Some? && NEWLINE !in torn
    requires NEWLINE !in blank && forall i :: 0 <= i < |blank| ==> IsSpace(blank[i])
    ensures Read(c, Frame(c, lines) + (blank + [NEWLINE] + torn)) ==
            Good(AcceptAll(lines).value, |Frame(c, lines)| + |blank| + 1)
  {
    var start, rest := |Frame(c, lines)|, blank + [NEWLINE] + torn;
    FramedReads(c, lines, rest);
    hide Lawful, AcceptAll, Frame;
    var data := Frame(c, lines) + rest;
    assert data[start..start + |blank|] == blank;
    LineEndAt(data, start, start + |blank|);
    SpacesTrim(blank);
    assert data[start + |blank| + 1..|data|] == torn;
    LineEndAt(data, start + |blank| + 1, |data|);
  }

  /** A whole line that does not decode makes the file unreadable; only a tail may be torn. */
  lemma GarbledLineReads(c: Codec, lines: seq<Line>, garbled: Bytes, rest: Bytes)
    requires Lawful(c) && AcceptAll(lines).Some?
    requires NEWLINE !in garbled && Trim(garbled) != [] && c.decode(Trim(garbled)).None?
    ensures Read(c, Frame(c, lines) + (garbled + [NEWLINE] + rest)) == Bad
  {
    var start, tail := |Frame(c, lines)|, garbled + [NEWLINE] + rest;
    FramedReads(c, lines, tail);
    hide Lawful, AcceptAll, Frame;
    var data := Frame(c, lines) + tail;
    assert data[start..start + |garbled|] == garbled;
    LineEndAt(data, start, start + |garbled|);
  }

  // ------------------------------------------------------------ a torn append

  /** How many whole records n bytes of a batch hold. */
  function WholeLines(c: Codec, batch: seq<Line>, n: nat): (k: nat)
    ensures k <= |batch|
  {
    if batch == [] then 0
    else if n >= |Frame(c, batch)| then |batch|
    else WholeLines(c, batch[..|batch| - 1], n)
  }

  /** A crash at any byte of an append leaves a whole-record prefix of the batch and a tail
      without a newline. */
  lemma {:induction false} TornAppend(c: Codec, batch: seq<Line>, n: nat)
    requires Lawful(c) && n <= |Frame(c, batch)|
    ensures var k := WholeLines(c, batch, n);
            && |Frame(c, batch[..k])| <= n
            && Frame(c, batch)[..n] == Frame(c, batch[..k]) + Frame(c, batch)[|Frame(c, batch[..k])|..n]
            && NEWLINE !in Frame(c, batch)[|Frame(c, batch[..k])|..n]
    decreases |batch|
  {
    var k := WholeLines(c, batch, n);
    if batch == [] || n >= |Frame(c, batch)| {
      assert batch[..k] == batch;
    } else {
      var shorter, line := batch[..|batch| - 1], c.encode(batch[|batch| - 1]);
      var whole, part := Frame(c, batch), Frame(c, shorter);
      if n <= |part| {
        TornAppend(c, shorter, n);
        assert whole[..n] == part[..n];
        assert shorter[..k] == batch[..k];
        assert whole[|Frame(c, batch[..k])|..n] == part[|Frame(c, batch[..k])|..n];
      }
      if n >= |part| {
        WholeFits(c, shorter, n);
        assert batch[..k] == shorter;
        assert whole[|part|..n] == line[..n - |part|];
      }
    }
  }

  lemma WholeFits(c: Codec, batch: seq<Line>, n: nat)
    requires n >= |Frame(c, batch)|
    ensures WholeLines(c, batch, n) == |batch|
  {
  }

  /** Torn-tail recovery: after a crash at any byte n of an append to a sound file, reading
      finds the earlier records and a whole-record prefix of the batch, and cuts the file back
      to exactly these. */
  lemma TornAppendReads(c: Codec, lines: seq<Line>, batch: seq<Line>, n: nat)
    requires Lawful(c) && AcceptAll(lines + batch).Some? && n <= |Frame(c, batch)|
    ensures var k := WholeLines(c, batch, n);
            var file := Frame(c, lines) + Frame(c, batch)[..n];
            && k <= |batch| && (n == |Frame(c, batch)| ==> k == |batch|)
            && AcceptAll(lines + batch[..k]).Some?
            && Read(c, file) == Good(AcceptAll(lines + batch[..k]).value, |Frame(c, lines + batch[..k])|)
            && |Frame(c, lines + batch[..k])| <= |file|
            && file[..|Frame(c, lines + batch[..k])|] == Frame(c, lines + batch[..k])
  {
    hide Read, Lawful, AcceptAll, Frame, WholeLines;
    var k := WholeLines(c, batch, n);
    TornAppend(c, batch, n);
    if n == |Frame(c, batch)| {
      WholeFits(c, batch, n);
    }
    var kept := Frame(c, batch[..k]);
    var torn := Frame(c, batch)[|kept|..n];
    FrameConcat(c, lines, batch[..k]);
    assert Frame(c, lines) + Frame(c, batch)[..n] == Frame(c, lines + batch[..k]) + torn;
    assert lines + batch[..k] == (lines + batch)[..|lines| + k];
    AcceptPrefix(lines + batch, |lines| + k);
    TornFileReads(c, lines + batch[..k], torn);
  }

  lemma {:induction false} AcceptPrefix(lines: seq<Line>, i: nat)
    requires i <= |lines| && AcceptAll(lines).Some?
    ensures AcceptAll(lines[..i]).Some?
    decreases |lines|
  {
    if i == |lines| {
      assert lines[..i] == lines;
    } else {
      var shorter := lines[..|lines| - 1];
      AcceptPrefix(shorter, i);
      assert shorter[..i] == lines[..i];
    }
  }

  // ------------------------------------------------------------ the records the node writes

  function Items(entries: seq<Entry>): seq<Line> {
    seq(|entries|, i requires 0 <= i < |entries| => Item(entries[i]))
  }

  ghost predicate Contiguous(entries: seq<Entry>, after: nat) {
    forall i :: 0 <= i < |entries| ==> entries[i].index == after + 1 + i
  }

  lemma ContiguousLast(entries: seq<Entry>, after: nat)
    requires entries != []
    ensures var last := |entries| - 1;
            Contiguous(entries, after) <==>
              Contiguous(entries[..last], after) && entries[last].index == after + |entries|
  {
    var last := |entries| - 1;
    assert forall i :: 0 <= i < last ==> entries[..last][i] == entries[i];
  }

  lemma ItemsSplit(a: seq<Entry>, b: seq<Entry>)
    ensures Items(a + b) == Items(a) + Items(b) && |Items(a)| == |a|
  {
  }

  lemma ItemsLast(entries: seq<Entry>, first: seq<Line>)
    requires entries != []
    ensures var lines, last := first + Items(entries), |entries| - 1;
            lines != [] && lines[..|lines| - 1] == first + Items(entries[..last]) &&
            lines[|lines| - 1] == Item(entries[last])
  {
  }

  /** A base record and the entries right after it are accepted; no others are. */
  lemma {:induction false} BaseAndItems(index: nat, term: nat, entries: seq<Entry>)
    ensures AcceptAll([Base(index, term)] + Items(entries)).Some? <==> Contiguous(entries, index)
    ensures Contiguous(entries, index) ==>
      AcceptAll([Base(index, term)] + Items(entries)) == Some(Data(true, index, term, entries))
    decreases |entries|
  {
    if entries == [] {
      var lines := [Base(index, term)] + Items(entries);
      assert lines == [Base(index, term)] && lines[..0] == [];
    } else {
      hide Items, Contiguous;
      var last := |entries| - 1;
      BaseAndItems(index, term, entries[..last]);
      ItemsLast(entries, [Base(index, term)]);
      ContiguousLast(entries, index);
      assert entries == entries[..last] + [entries[last]];
      if last > 0 {
        ContiguousLast(entries[..last], index);
      }
    }
  }

  lemma LastItem(entries: seq<Entry>)
    requires entries != []
    ensures var earlier := AcceptAll(Items(entries[..|entries| - 1]));
            AcceptAll(Items(entries)) ==
            if earlier.None? then None else Accept(earlier.value, Item(entries[|entries| - 1]))
  {
    hide Items, Accept;
    ItemsLast(entries, []);
    assert [] + Items(entries) == Items(entries);
    assert [] + Items(entries[..|entries| - 1]) == Items(entries[..|entries| - 1]);
  }

  /** Without a base record, entries are accepted exactly if they start anywhere above 0 and follow
      one another. */
  lemma {:induction false} ItemsAlone(entries: seq<Entry>)
    ensures AcceptAll(Items(entries)).Some? <==>
            entries == [] || (entries[0].index > 0 && Contiguous(entries, entries[0].index - 1))
    ensures AcceptAll(Items(entries)).Some? ==> AcceptAll(Items(entries)) == Some(Data(false, 0, 0, entries))
    decreases |entries|
  {
    if entries != [] {
      var last := |entries| - 1;
      ItemsAlone(entries[..last]);
      LastItem(entries);
      hide Items, Contiguous, AcceptAll;
      assert entries == entries[..last] + [entries[last]];
      if entries[0].index > 0 {
        ContiguousLast(entries, entries[0].index - 1);
        if last > 0 {
          ContiguousLast(entries[..last], entries[0].index - 1);
        }
      }
    }
  }

  /** A readable file has a base exactly if its first record is one, and then the base is that. */
  lemma {:induction false} BaseComesFirst(lines: seq<Line>)
    requires AcceptAll(lines).Some?
    ensures var d := AcceptAll(lines).value;
            && (d.hasBase <==> lines != [] && lines[0].Base?)
            && (d.hasBase ==> d.baseIndex == lines[0].index && d.baseTerm == lines[0].term)
            && (!d.hasBase ==> |d.entries| == |lines|)
    decreases |lines|
  {
    if lines != [] {
      BaseComesFirst(lines[..|lines| - 1]);
    }
  }
}
