/** What the methods of a replica ask of the requests they get holds of the requests that are in
    the network of a run. */
module Requests {
  import opened Logs
  import opened History
  import opened Protocol
  import opened Cluster
  import opened RootedCluster
  import opened Growth
  import opened FollowerSteps
  import opened Safety
  import opened Transfers
  import Compaction
  import KeyValue
  import NodeMemory
  import Storage
  import Wal

  /** The entries of an append request follow its previous entry one by one, so that whoever
      gets it has nothing to skip when it takes it up. */
  lemma AppendsAreContiguous(b: seq<State>, steps: seq<Step>, i: nat, m: AppendRequest, s: Node)
    requires Run(b, steps) && i < |b| && m in b[i].appends
    ensures Wal.Contiguous(m.entries, m.prev)
    ensures NodeMemory.Spliceable(s.log, s.commit, s.snap, m) && (s.snap <= m.prev ==> NodeMemory.Fresh(m, s.snap) == m)
  {
    SentContiguous(b, steps, i, m);
    hide Run;
    NodeMemory.ContiguousIsFresh(s.log, s.commit, s.snap, m);
  }

  lemma SentContiguous(b: seq<State>, steps: seq<Step>, i: nat, m: AppendRequest)
    requires Run(b, steps) && i < |b| && m in b[i].appends
    ensures Wal.Contiguous(m.entries, m.prev)
  {
    hide Run, NodesRooted, AppendRooted;
    RunRooted(b, steps, i);
    assert AppendRooted(b[i].h, m);
    SlicesAreContiguous(b[i].h, m);
  }

  lemma SlicesAreContiguous(h: Record, m: AppendRequest)
    requires ReignsOk(h) && AppendRooted(h, m)
    ensures Wal.Contiguous(m.entries, m.prev)
  {
    assert ReignOk(h, m.term);
    hide Sourced, ReignsOk;
    var log := h.reign[m.term].log;
    assert forall k :: 0 <= k < |m.entries| ==> m.entries[k] == log[m.prev + k];
  }

  /** A chunk in the network stands for a snapshot that could be sent: its prefix is indexed
      from 1 and not empty. So the bytes that the sender cuts for it, when its bounds are those
      of the next chunk, are a chunk as every receiver asks. */
  lemma ChunksAreCut(b: seq<State>, steps: seq<Step>, i: nat, m: ChunkRequest, c: NodeMemory.MapCodec, size: nat)
    requires Run(b, steps) && i < |b| && m in b[i].chunks
    ensures NodeMemory.PrefixOf(m.prefix, |m.prefix|, LastTerm(m.prefix))
    ensures var snap := SnapshotFor(m.prefix);
            var body := c.encode(snap.data);
            m.offset <= |body| && m == ChunkAt(m.term, m.leader, m.prefix, |body|, size, m.offset) ==>
              NodeMemory.ChunkOf(CutChunk(m.term, m.leader, snap, body, size, m.offset), m, c)
  {
    hide Run, NodesRooted, ChunkRooted, KeyValue.Fold;
    RunRooted(b, steps, i);
    assert ChunkRooted(b[i].h, m);
    PrefixIsIndexed(b[i].h, m);
    assert m.prefix[..|m.prefix|] == m.prefix;
    var snap := SnapshotFor(m.prefix);
    if m.offset <= |c.encode(snap.data)| {
      CutIsChunkOf(c, m.prefix, snap, m.term, m.leader, size, m.offset);
    }
  }

  lemma PrefixIsIndexed(h: Record, m: ChunkRequest)
    requires ReignsOk(h) && ChunkRooted(h, m)
    ensures Indexed(m.prefix) && 0 < |m.prefix|
  {
    assert ReignOk(h, m.term);
    hide Sourced, ReignsOk;
  }

  /** The snapshot that stands for a whole log. */
  function SnapshotFor(prefix: Log): Storage.Snapshot {
    Storage.Snapshot(|prefix|, LastTerm(prefix), KeyValue.Fold(prefix))
  }

  /** Whatever a leader of a run may cut from its snapshot, the network may carry: there is a
      step that sends exactly the chunk which these bytes stand for. */
  lemma LeadersCutChunks(b: seq<State>, steps: seq<Step>, i: nat, n: Id, snap: Storage.Snapshot,
      c: NodeMemory.MapCodec, size: nat, offset: nat)
    requires Run(b, steps) && i < |b| && n in b[i].nodes && b[i].nodes[n].role.Leader?
    requires 0 < snap.index == b[i].nodes[n].snap && Compaction.SnapshotOf(b[i].nodes[n].log, snap)
    requires offset <= |c.encode(snap.data)|
    ensures var s, body := b[i].nodes[n], c.encode(snap.data);
            var m := ChunkAt(s.term, n, s.log[..s.snap], |body|, size, offset);
            var step := SendChunk(n, offset, m.end, m.done);
            && Enabled(b[i], step) && m in Take(b[i], step).chunks
            && NodeMemory.ChunkOf(CutChunk(s.term, n, snap, body, size, offset), m, c)
  {
    hide Run;
    var s := b[i].nodes[n];
    RunRooted(b, steps, i);
    LogsAreSourced(b[i].h, n, s, InMemory);
    hide Rooted, NodeMemory.ChunkOf;
    SourcedIndexed(b[i].h, s.log);
    CutIsChunkOf(c, s.log, snap, s.term, n, size, offset);
  }

  /** A chunk that looks like the stream its receiver has under way is of the same snapshot, as
      the first locked section asks. In careful runs it also agrees with what the receiver has
      committed, as the second one asks, so that a receiver that has not failed and not moved on
      to a later term may take it. */
  lemma ChunksAreInStep(b: seq<State>, steps: seq<Step>, i: nat, n: Id, m: ChunkRequest)
    requires Run(b, steps) && i < |b| && n in b[i].nodes && m in b[i].chunks
    ensures NodeMemory.OneStream(b[i].nodes[n].transfer, m)
    ensures CarefulRun(b, steps) ==>
              && NodeMemory.InStep(b[i].nodes[n], m)
              && (!b[i].nodes[n].fatal && b[i].nodes[n].term <= m.term ==>
                    MayTake(b[i].nodes[n], m.term, m.leader, m.prefix))
  {
    hide Run;
    StreamsAreOne(b, steps, i, n, m);
    var s := b[i].nodes[n];
    if CarefulRun(b, steps) {
      SnapshotAgrees(b, steps, i, n, m);
      if s.commit < |m.prefix| {
        assert s.log[..s.commit] == m.prefix[..s.commit];
      }
    }
  }
}
