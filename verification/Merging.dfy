/** What merging the entries of a request into a log does to it, for any log and any request
    whose previous entry the log has. */
module Merging {
  import opened Logs
  import opened Protocol

  /** The log and the request disagree about the entry at position k of the log. */
  predicate Departs(log: Log, prev: nat, entries: seq<Entry>, k: nat) {
    prev <= k < |log| && k - prev < |entries| && log[k].term != entries[k - prev].term
  }

  /** Entry j of the request is in the merged log: as it was sent, or as the old log had it. */
  predicate Brings(log: Log, prev: nat, entries: seq<Entry>, merged: Log, j: nat)
    requires j < |entries|
  {
    && prev + j < |merged| && merged[prev + j].term == entries[j].term
    && (merged[prev + j] == entries[j] || (prev + j < |log| && merged[prev + j] == log[prev + j]))
  }

  /** Merge correctness. The old log up to prev stays, the request's entries are all there, and
      so is what is committed. Something is cut off exactly where the log departs from the
      request, above the commit index; if it departs at or below it, the merge is refused. */
  lemma MergeCorrect(log: Log, commit: nat, prev: nat, entries: seq<Entry>)
    requires prev <= |log| && commit <= |log|
    ensures var merge := MergeEntries(log, commit, prev, entries);
            var merged := MergedLog(log, merge);
            && (merge.CommittedConflict? ==>
                  merged == log && 0 < merge.index <= commit && Departs(log, prev, entries, merge.index - 1))
            && (!merge.CommittedConflict? ==>
                  && commit <= |merged| && merged[..commit] == log[..commit]
                  && prev + |entries| <= |merged| && merged[..prev] == log[..prev]
                  && (forall j {:trigger Brings(log, prev, entries, merged, j)} :: 0 <= j < |entries| ==>
                      Brings(log, prev, entries, merged, j)))
            && (merge.Replaced? <==> !(log <= merged))
            && (merge.Replaced? ==>
                  exists k: nat ::
                    Departs(log, prev, entries, k) && commit <= k <= |merged| && merged[..k] == log[..k])
            && (merge.Unchanged? <==>
                  forall j {:trigger HasTerm(log, prev, entries, j)} ::
                    0 <= j < |entries| ==> HasTerm(log, prev, entries, j))
  {
    hide FirstConflict;
    var i := FirstConflict(log, prev, entries, 0);
    var merge := MergeEntries(log, commit, prev, entries);
    var merged := MergedLog(log, merge);
    if i < |entries| && prev + i < |log| {
      assert Departs(log, prev, entries, prev + i);
      if merge.Replaced? {
        assert merged[..prev + i] == log[..prev + i] && merged[prev + i] == entries[i];
        assert merged[..commit] == log[..commit] && merged[..prev] == log[..prev];
      }
    }
    if !merge.CommittedConflict? {
      forall j | 0 <= j < |entries|
        ensures Brings(log, prev, entries, merged, j)
      {
        if j < i {
          assert HasTerm(log, prev, entries, j);
        }
      }
    }
  }

  /** A request that was taken in once, or any beginning of it, changes nothing when it comes
      again, however much has been committed meanwhile. */
  lemma MergeTwice(log: Log, commit: nat, later: nat, prev: nat, entries: seq<Entry>, len: nat)
    requires prev <= |log| && commit <= |log| && len <= |entries|
    requires !MergeEntries(log, commit, prev, entries).CommittedConflict?
    ensures var merged := MergedLog(log, MergeEntries(log, commit, prev, entries));
            prev <= |merged| && MergeEntries(merged, later, prev, entries[..len]).Unchanged?
  {
    MergeCorrect(log, commit, prev, entries);
    var merged := MergedLog(log, MergeEntries(log, commit, prev, entries));
    hide MergeEntries, MergedLog;
    forall j | 0 <= j < len
      ensures HasTerm(merged, prev, entries[..len], j)
    {
      assert Brings(log, prev, entries, merged, j);
    }
    AllThere(merged, later, prev, entries[..len]);
  }

  lemma AllThere(log: Log, commit: nat, prev: nat, entries: seq<Entry>)
    requires prev <= |log| && forall j :: 0 <= j < |entries| ==> HasTerm(log, prev, entries, j)
    ensures MergeEntries(log, commit, prev, entries).Unchanged?
  {
  }
}
