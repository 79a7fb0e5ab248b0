/** Sending a snapshot in chunks, from the sender's map to the receiver's. */
module Transfers {
  import opened Logs
  import opened KeyValue
  import opened Protocol
  import opened Wal
  import opened Storage
  import opened Compaction
  import opened NodeMemory
  import opened Replicas

  const DEFAULT_CHUNK_BYTES: nat := 1048576

  function ChunkEnd(total: nat, size: nat, offset: nat): nat {
    if offset + size > total then total else offset + size
  }

  /** The bytes of the body that are sent next. */
  function CutChunk(term: nat, leader: Id, snap: Snapshot, body: Bytes, size: nat, offset: nat): Chunk
    requires offset <= |body|
  {
    var end := ChunkEnd(|body|, size, offset);
    Chunk(term, leader, snap.index, snap.term, offset, body[offset..end], end == |body|)
  }

  /** What these bytes stand for. */
  function ChunkAt(term: nat, leader: Id, prefix: Log, total: nat, size: nat, offset: nat): ChunkRequest {
    var end := ChunkEnd(total, size, offset);
    ChunkRequest(term, leader, prefix, offset, end, end == total)
  }

  /** What the sender cuts from the encoded map of its snapshot is a chunk of the log prefix that
      the snapshot stands for, as every receiver asks. */
  lemma CutIsChunkOf(c: MapCodec, full: Log, snap: Snapshot, term: nat, leader: Id, size: nat, offset: nat)
    requires Indexed(full) && SnapshotOf(full, snap) && 0 < snap.index && offset <= |c.encode(snap.data)|
    ensures var body := c.encode(snap.data);
            ChunkOf(CutChunk(term, leader, snap, body, size, offset),
                    ChunkAt(term, leader, full[..snap.index], |body|, size, offset), c)
  {
    hide Fold;
    assert full[..snap.index][snap.index - 1] == full[snap.index - 1];
  }

  // ------------------------------------------------------------ the receiver meanwhile

  /** A node that may take the stream: chunks of this snapshot are in step with it. */
  ghost predicate MayTake(s: Node, term: nat, leader: Id, prefix: Log) {
    !s.fatal && s.term <= term && InStep(s, ChunkRequest(term, leader, prefix, 0, 0, false))
  }

  /** The receiver once it has followed the sender and taken the first `received` bytes, or has
      found that it needs none. */
  function Streaming(s: Node, term: nat, leader: Id, prefix: Log, received: nat): Node {
    var t := Follow(s, term, Ok);
    if |prefix| <= s.commit then Drop(t) else t.(transfer := Receiving(leader, prefix, received))
  }

  /** The receiver in the end. */
  function Installed(s: Node, term: nat, prefix: Log): Node {
    var t := Follow(s, term, Ok);
    if |prefix| <= s.commit then Drop(t) else InstallSnapshot(t, prefix, Ok, Ok, Ok).0
  }

  /** What an earlier attempt left at a replica is the beginning of this very body. */
  lemma StreamStart(receiver: Replica, m: ChunkRequest)
    requires receiver.Valid() && MayTake(receiver.node, m.term, m.leader, m.prefix)
    ensures SameStream(receiver.node.transfer, m) ==>
              receiver.node.transfer.received <= |receiver.bodies.encode(Fold(m.prefix))|
  {
    hide LogOk, OnDisk, Synced, SavingOk, MachineOk, WaitersOk, Attended, Fold, Replica.Parts;
    if SameStream(receiver.node.transfer, m) {
      LeftBehind(receiver.node.transfer, receiver.mem.pending, receiver.bodies, m);
    }
  }

  /** A replica that has installed the snapshot, with nothing in flight, has its map. */
  lemma InstalledMap(receiver: Replica, s: Node, term: nat, leader: Id, prefix: Log)
    requires receiver.Valid() && receiver.mem.inFlight.None? && receiver.node == Installed(s, term, prefix)
    requires MayTake(s, term, leader, prefix)
    ensures s.commit < |prefix| ==> receiver.sm.data == Fold(prefix) && receiver.mem.snapshot.index == |prefix|
  {
    hide OnDisk, Synced, SavingOk, MachineOk, TransferOk, WaitersOk, Attended, Fold, Replica.Parts, Installed;
    if s.commit < |prefix| {
      InstalledIs(s, term, prefix);
      MapIs(receiver.node, receiver.mem, receiver.sm.data, prefix);
    }
  }

  lemma FollowOnce(s: Node, term: nat)
    requires !s.fatal && s.term <= term
    ensures var t := Follow(s, term, Ok);
            && !t.fatal && t.term == term && t.role.Follower? && t.commit == s.commit && t.log == s.log
            && t.transfer == s.transfer && Follow(t, term, Ok) == t && Follow(Drop(t), term, Ok) == Drop(t)
            && (forall x {:trigger t.(transfer := x)} :: Follow(t.(transfer := x), term, Ok) == t.(transfer := x))
  {
  }

  /** The first chunk of an attempt either starts the stream or hears where an earlier attempt
      of the same sender got to. */
  lemma FirstChunk(s: Node, m: ChunkRequest)
    requires MayTake(s, m.term, m.leader, m.prefix) && m.offset == 0
    ensures var (t, reply) := HandleChunk(s, m, Ok);
            if |m.prefix| <= s.commit then
              t == Streaming(s, m.term, m.leader, m.prefix, 0) && reply == HaveAll
            else if SameStream(s.transfer, m) && s.transfer.received > 0 then
              var got := s.transfer.received;
              t == Streaming(s, m.term, m.leader, m.prefix, got) && reply == Want(got)
            else
              && t == Streaming(s, m.term, m.leader, m.prefix, m.end)
              && reply == (if m.done then Install else Taken(m.end))
  {
    hide Follow, LastTerm;
    FollowOnce(s, m.term);
  }

  lemma NextChunk(s: Node, m: ChunkRequest)
    requires MayTake(s, m.term, m.leader, m.prefix)
    ensures var (t, reply) := HandleChunk(Streaming(s, m.term, m.leader, m.prefix, m.offset), m, Ok);
            && t == Streaming(s, m.term, m.leader, m.prefix, m.end)
            && reply == (if |m.prefix| <= s.commit then HaveAll else if m.done then Install else Taken(m.end))
  {
    hide Follow, LastTerm;
    FollowOnce(s, m.term);
  }

  lemma LastChunk(s: Node, m: ChunkRequest)
    requires MayTake(s, m.term, m.leader, m.prefix) && s.commit < |m.prefix|
    ensures FinishInstall(Streaming(s, m.term, m.leader, m.prefix, m.end), m, Ok, Ok, Ok, Ok) ==
            (Installed(s, m.term, m.prefix), HaveAll)
  {
    hide Follow, LastTerm, Protocol.LogAfterSnapshot;
    FollowOnce(s, m.term);
  }

  lemma StreamMayTake(s: Node, term: nat, leader: Id, prefix: Log, received: nat)
    requires MayTake(s, term, leader, prefix)
    ensures MayTake(Streaming(s, term, leader, prefix, received), term, leader, prefix)
  {
    hide Follow, LastTerm, SameUpTo;
    FollowOnce(s, term);
  }

  /** What an earlier attempt left at the receiver is the beginning of this very body. */
  lemma LeftBehind(x: Transfer, pending: Option<Progress>, c: MapCodec, m: ChunkRequest)
    requires TransferOk(x, pending, c) && SameStream(x, m) && x.prefix == m.prefix
    ensures x.received <= |c.encode(Fold(m.prefix))|
  {
  }

  /** The machine of a node with nothing in flight holds the map of what is applied. */
  lemma MapIs(s: Node, m: Memory, data: Pairs, prefix: Log)
    requires MachineOk(s.log, s.applied, s.commit, m.inFlight, m.ran, data) && m.inFlight.None?
    requires s.applied == |prefix| && prefix <= s.log
    ensures data == Fold(prefix)
  {
    hide Fold;
    assert s.log[..|prefix|] == prefix;
  }

  lemma InstalledIs(s: Node, term: nat, prefix: Log)
    requires !s.fatal && s.term <= term && s.commit < |prefix|
    ensures var t := Installed(s, term, prefix);
            && t.log == Protocol.LogAfterSnapshot(s.log, prefix) && prefix <= t.log
            && t.snap == t.applied == t.commit == |prefix| && !t.fatal && t.disk.loadable
            && t.disk.log == t.log && t.disk.snap == t.disk.commit == |prefix|
  {
    FollowOnce(s, term);
    hide Follow;
  }

  // ------------------------------------------------------------ the stream

  /** What a chunk reply says on the wire: success, and the number of bytes received. */
  function OnWire(reply: ChunkReply): (bool, nat) {
    match reply
    case Want(offset) => (false, offset)
    case Taken(received) => (true, received)
    case HaveAll => (true, 0)
    case _ => (false, 0)
  }

  /** The receiver's handler, both locked sections, when no store call fails. */
  function Handled(s: Node, m: ChunkRequest): (Node, ChunkReply) {
    var (t, reply) := HandleChunk(s, m, Ok);
    if reply.Install? then FinishInstall(t, m, Ok, Ok, Ok, Ok) else (t, reply)
  }

  method Deliver(receiver: Replica, k: Chunk, ghost m: ChunkRequest) returns (success: bool, received: nat)
    requires receiver.Valid() && receiver.mem.saving.None? && receiver.mem.inFlight.None? && k.leader in receiver.peers
    requires ChunkOf(k, m, receiver.bodies) && MayTake(receiver.node, m.term, m.leader, m.prefix)
    modifies receiver, receiver.store, receiver.sm, receiver.waiters
    ensures receiver.Valid() && Untouched(old(receiver.mem), receiver.mem)
    ensures var (s, r) := Handled(old(receiver.node), m);
            receiver.node == s && success == OnWire(r).0 && received == OnWire(r).1
  {
    hide Replica.Sound, Replica.Parts, Attended, Fold, InStep, ChunkOf, HandleChunk, FinishInstall;
    TakeInStep(receiver.node, m);
    ChunkIsDone(receiver.node, k, m, receiver.bodies);
    var reply, body := receiver.HandleChunk(k, Ok, m);
    if reply.Install? {
      reply := receiver.FinishInstall(k, body, Ok, Ok, Ok, Ok, m);
    }
    var wire := OnWire(reply);
    success, received := wire.0, wire.1;
  }

  /** What the two locked sections ask of a chunk holds of a node that may take the stream. */
  lemma TakeInStep(s: Node, m: ChunkRequest)
    requires MayTake(s, m.term, m.leader, m.prefix)
    ensures OneStream(s.transfer, m) && InStep(HandleChunk(s, m, Ok).0, m)
  {
    hide Follow, LastTerm, SameUpTo;
    FollowOnce(s, m.term);
  }

  lemma ChunkIsDone(s: Node, k: Chunk, m: ChunkRequest, c: MapCodec)
    requires ChunkOf(k, m, c)
    ensures HandleChunk(s, m, Ok).1.Install? ==> k.done
  {
    hide Follow, LastTerm;
  }

  /** The handler on a stream: what the first request of an attempt finds, and the others. */
  lemma FirstHandled(s: Node, m: ChunkRequest)
    requires MayTake(s, m.term, m.leader, m.prefix) && m.offset == 0
    ensures var (t, reply) := Handled(s, m);
            if s.commit < |m.prefix| && SameStream(s.transfer, m) && s.transfer.received > 0 then
              var got := s.transfer.received;
              t == Streaming(s, m.term, m.leader, m.prefix, got) && OnWire(reply) == (false, got)
            else
              OnWire(reply).0 && t == Advanced(s, m)
  {
    hide HandleChunk, FinishInstall, Follow;
    FirstChunk(s, m);
    if s.commit < |m.prefix| {
      LastChunk(s, m);
    }
    hide Streaming;
  }

  lemma NextHandled(s: Node, m: ChunkRequest)
    requires MayTake(s, m.term, m.leader, m.prefix)
    ensures var (t, reply) := Handled(Streaming(s, m.term, m.leader, m.prefix, m.offset), m);
            OnWire(reply).0 && t == Advanced(s, m)
  {
    hide HandleChunk, FinishInstall, Follow;
    NextChunk(s, m);
    if s.commit < |m.prefix| {
      LastChunk(s, m);
    }
    hide Streaming;
  }

  /** The receiver after a chunk that it took. */
  function Advanced(s: Node, m: ChunkRequest): Node {
    if m.done then Installed(s, m.term, m.prefix) else Streaming(s, m.term, m.leader, m.prefix, m.end)
  }

  /** Send a snapshot that stands for the first entries of the log `full`. If no store call of
      the receiver fails and nothing else happens to it meanwhile, then, whatever an earlier
      attempt has left there, the stream succeeds. A receiver that had not committed that much
      ends with the snapshot installed, in memory and on disk, and with the sender's map. After
      at most one request that asks where to go on, no byte is sent twice or left out. */
  method SendSnapshot(receiver: Replica, term: nat, leader: Id, snap: Snapshot, chunkBytes: nat, ghost full: Log)
      returns (ok: bool, sent: nat)
    requires Indexed(full) && SnapshotOf(full, snap) && 0 < snap.index
    requires receiver.Valid() && receiver.mem.saving.None? && receiver.mem.inFlight.None? && leader in receiver.peers
    requires MayTake(receiver.node, term, leader, full[..snap.index])
    modifies receiver, receiver.store, receiver.sm, receiver.waiters
    ensures ok && receiver.Valid() && receiver.node == Installed(old(receiver.node), term, full[..snap.index])
    ensures old(receiver.node.commit) < snap.index ==>
              receiver.sm.data == snap.data && receiver.mem.snapshot.index == snap.index
    ensures var size := if chunkBytes == 0 then DEFAULT_CHUNK_BYTES else chunkBytes;
            sent > 2 ==> (sent - 2) * size < |receiver.bodies.encode(snap.data)|
  {
    hide Replica.Sound, Replica.Parts, Attended, Fold, ChunkOf, Handled, Streaming, Installed, MayTake;
    var size := if chunkBytes == 0 then DEFAULT_CHUNK_BYTES else chunkBytes;
    var body := receiver.bodies.encode(snap.data);
    ghost var s, prefix := receiver.node, full[..snap.index];
    var offset: nat := 0;
    sent := 0;
    while true
      invariant receiver.Valid() && Untouched(old(receiver.mem), receiver.mem)
      invariant offset <= |body|
      invariant if sent == 0 then offset == 0 && receiver.node == s
                else receiver.node == Streaming(s, term, leader, prefix, offset)
      invariant sent > 1 ==> (sent - 1) * size <= offset && offset < |body|
      decreases sent == 0, |body| - offset
    {
      var k := CutChunk(term, leader, snap, body, size, offset);
      ghost var m := ChunkAt(term, leader, prefix, |body|, size, offset);
      CutIsChunkOf(receiver.bodies, full, snap, term, leader, size, offset);
      if sent == 0 {
        FirstHandled(s, m);
        StreamStart(receiver, m);
      } else {
        NextHandled(s, m);
        StreamMayTake(s, term, leader, prefix, offset);
      }
      var success, received := Deliver(receiver, k, m);
      sent := sent + 1;
      if !success {
        if received == offset && !k.done {
          return false, sent;
        }
        offset := received;
        if offset > |body| {
          return false, sent;
        }
        continue;
      }
      if k.done {
        InstalledMap(receiver, s, term, leader, prefix);
        return true, sent;
      }
      offset := offset + size;
    }
  }
}
