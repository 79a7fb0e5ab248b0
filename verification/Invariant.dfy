/** The invariant of one node relative to the history, and how histories grow. */
module Invariant {
  import opened Logs
  import opened History
  import opened Protocol

  /** What a node has promised is measured against the lower of the terms in memory and on
      disk: neither can fall below it, whatever fails and whenever the node restarts. */
  function Bound(s: Node): nat {
    Min(s.term, s.disk.term)
  }

  ghost predicate LogInv(h: Record, log: Log, bound: nat) {
    Sourced(h, log) && TermsUpTo(log, bound)
  }

  /** The node stands by vote v, in memory and on disk. */
  ghost predicate StandsBy(v: Vote, s: Node) {
    && v.term <= Bound(s)
    && (v.term == s.term ==> s.vote == Some(v.cand))
    && (v.term == s.disk.term ==> s.disk.vote == Some(v.cand))
  }

  ghost predicate VoteInv(h: Record, id: Id, s: Node) {
    forall v {:trigger StandsBy(v, s)} :: v in h.votes && v.voter == id ==> StandsBy(v, s)
  }

  /** The node keeps what it acknowledged by a, in memory and on disk. */
  ghost predicate Keeps(h: Record, a: Ack, s: Node) {
    && AckOk(h, a)
    && a.term <= Bound(s)
    && Held(h, a, s.log, Bound(s))
    && Held(h, a, s.disk.log, Bound(s))
    && Held(h, a, s.disk.wal, Bound(s))
  }

  ghost predicate AckInv(h: Record, id: Id, s: Node) {
    forall a {:trigger Keeps(h, a, s)} :: a in h.acks && a.node == id ==> Keeps(h, a, s)
  }

  ghost predicate CommitInv(h: Record, s: Node) {
    && s.snap <= s.applied <= s.commit <= |s.log|
    && s.commit <= s.disk.commit <= |s.disk.log|
    && s.snap <= s.disk.snap <= |s.disk.log|
    && Committed(h, s.log[..s.commit], Bound(s))
    && Committed(h, s.disk.log[..s.disk.commit], Bound(s))
    && Committed(h, s.disk.log[..s.disk.snap], Bound(s))
    && WalInv(h, s)
  }

  /** The log file by itself has all that is committed here. So has the log in memory, unless a
      snapshot install failed after it had moved the base past the commit index. */
  ghost predicate WalInv(h: Record, s: Node)
    requires s.commit <= |s.log|
  {
    && s.disk.base <= |s.disk.wal|
    && s.commit <= |s.disk.wal| && s.disk.wal[..s.commit] == s.log[..s.commit]
    && s.disk.commit <= |s.disk.wal| && Committed(h, s.disk.wal[..s.disk.commit], Bound(s))
    && (s.disk.base <= s.commit ==> s.disk.commit <= |s.log| && Committed(h, s.log[..s.disk.commit], Bound(s)))
    && (s.saving != 0 ==> s.disk.snap == s.saving <= s.applied && s.disk.base <= s.applied)
  }

  /** The history has the node's leadership, with the log it has now. */
  ghost predicate Reigning(h: Record, id: Id, s: Node) {
    s.term in h.reign && h.reign[s.term].leader == id && h.reign[s.term].log == s.log
  }

  ghost predicate LeaderInv(h: Record, id: Id, s: Node) {
    && Reigning(h, id, s)
    && s.noop == h.reign[s.term].base + 1
    && Get(s.acked, id) == |s.log|
    && (forall p {:trigger Get(s.acked, p)} :: Get(s.acked, p) == 0 || Acked(h, p, s.term, Get(s.acked, p)))
    && (forall c {:trigger c in h.choices} :: c in h.choices && c.term == s.term ==> c.index <= s.commit)
  }

  ghost predicate CandidateInv(h: Record, id: Id, s: Node) {
    && !(s.term in h.reign && h.reign[s.term].leader == id)
    && TermsBelow(s.log, s.term)
    && (exists v :: v in h.votes && v.voter == id && v.cand == id && v.term == s.term && v.candLog == s.log)
  }

  /** As long as no store call has failed, the disk holds the node's term and log. */
  ghost predicate InStep(s: Node) {
    && s.disk.log == s.log && s.disk.wal == s.log
    && s.disk.snap <= s.applied && s.disk.base <= s.applied
    && s.term <= s.disk.term
  }

  ghost predicate RoleInv(h: Record, id: Id, s: Node) {
    && (s.fatal ==> s.role.Follower?)
    && (!s.fatal ==> InStep(s))
    && (s.role.Leader? ==> LeaderInv(h, id, s))
    && (s.role.Candidate? ==> CandidateInv(h, id, s))
  }

  ghost predicate TransferInv(h: Record, s: Node) {
    s.transfer.Receiving? ==> Sourced(h, s.transfer.prefix) && Committed(h, s.transfer.prefix, Bound(s))
  }

  /** Everything but the claims about the current role. */
  ghost predicate CoreInv(h: Record, id: Id, s: Node) {
    && id in h.members
    && LogInv(h, s.log, Bound(s)) && LogInv(h, s.disk.log, Bound(s)) && LogInv(h, s.disk.wal, Bound(s))
    && VoteInv(h, id, s) && AckInv(h, id, s) && CommitInv(h, s) && TransferInv(h, s)
  }

  ghost predicate NodeInv(h: Record, id: Id, s: Node) {
    CoreInv(h, id, s) && RoleInv(h, id, s)
  }

  // ------------------------------------------------------------ growth of histories

  ghost predicate ReignGrows(h: Record, h': Record, n: Id, t: nat)
    requires t in h.reign
  {
    && t in h'.reign
    && h'.reign[t].leader == h.reign[t].leader
    && h'.reign[t].base == h.reign[t].base
    && h'.reign[t].ballots == h.reign[t].ballots
    && h.reign[t].log <= h'.reign[t].log
    && (h.reign[t].leader != n ==> h'.reign[t].log == h.reign[t].log)
  }

  /** From h to h' only node n has acted: nothing recorded is lost, and whatever is new was
      done by n. */
  ghost predicate Grows(h: Record, h': Record, n: Id) {
    && h'.members == h.members
    && h.time <= h'.time
    && h.votes <= h'.votes && h.acks <= h'.acks && h.choices <= h'.choices
    && (forall t {:trigger ReignGrows(h, h', n, t)} {:trigger t in h.reign} :: t in h.reign ==> ReignGrows(h, h', n, t))
    && (forall t {:trigger t in h'.reign} :: t in h'.reign && t !in h.reign ==> h'.reign[t].leader == n)
    && (forall v {:trigger v in h'.votes} :: v in h'.votes && v !in h.votes ==> v.voter == n)
    && (forall a {:trigger a in h'.acks} :: a in h'.acks && a !in h.acks ==> a.node == n)
    && (forall c {:trigger c in h'.choices} :: c in h'.choices && c !in h.choices ==>
          c.term in h'.reign && h'.reign[c.term].leader == n)
  }

  lemma GrowsTrans(h: Record, g: Record, k: Record, n: Id)
    requires Grows(h, g, n) && Grows(g, k, n)
    ensures Grows(h, k, n)
  {
    forall t | t in h.reign
      ensures ReignGrows(h, k, n, t)
    {
      assert ReignGrows(h, g, n, t) && ReignGrows(g, k, n, t);
      PrefixTrans(h.reign[t].log, g.reign[t].log, k.reign[t].log);
    }
    forall t | t in k.reign && t !in h.reign
      ensures k.reign[t].leader == n
    {
      if t in g.reign {
        assert ReignGrows(g, k, n, t);
      }
    }
    forall c | c in k.choices && c !in h.choices
      ensures c.term in k.reign && k.reign[c.term].leader == n
    {
      if c in g.choices {
        assert ReignGrows(g, k, n, c.term);
      }
    }
  }

  lemma SourcedGrows(h: Record, h': Record, n: Id, log: Log)
    requires Grows(h, h', n) && Sourced(h, log)
    ensures Sourced(h', log)
  {
    forall i | 0 <= i < |log|
      ensures SourcedAt(h', log, i)
    {
      assert SourcedAt(h, log, i);
      assert ReignGrows(h, h', n, log[i].term);
      PrefixTrans(log[..i + 1], h.reign[log[i].term].log, h'.reign[log[i].term].log);
    }
  }

  lemma ReignedGrows(h: Record, h': Record, n: Id, t: nat, i: nat)
    requires Grows(h, h', n) && t in h.reign && i <= |h.reign[t].log|
    ensures t in h'.reign && i <= |h'.reign[t].log| && Reigned(h', t, i) == Reigned(h, t, i)
  {
  }

  lemma CommittedGrows(h: Record, h': Record, n: Id, p: Log, t: nat)
    requires Grows(h, h', n) && Committed(h, p, t)
    ensures Committed(h', p, t)
  {
  }

  lemma NotPrefixGrows(x: Log, short: Log, long: Log, u: nat)
    requires !(x <= short) && short <= long && TermsBelow(x, u)
    requires forall k :: |short| <= k < |long| ==> long[k].term == u
    ensures !(x <= long)
  {
    if |short| < |x| && |short| < |long| {
      assert x[|short|].term != long[|short|].term;
    }
  }

  /** A leader's later entries carry its own term, so growing cannot make its log catch up
      with a prefix of an earlier leader that it lacks. */
  lemma OverriddenGrows(h: Record, h': Record, n: Id, t: nat, i: nat, hi: nat)
    requires Grows(h, h', n) && ReignsOk(h) && ReignsOk(h')
    requires t in h.reign && i <= |h.reign[t].log| && Overridden(h, t, i, hi)
    ensures t in h'.reign && i <= |h'.reign[t].log| && Overridden(h', t, i, hi)
  {
    ReignedGrows(h, h', n, t, i);
    var u :| t < u <= hi && u in h.reign && !(Reigned(h, t, i) <= h.reign[u].log);
    assert ReignGrows(h, h', n, u) && ReignOk(h, t) && ReignOk(h', u) && ReignOk(h, u);
    assert forall k :: 0 <= k < i ==> Reigned(h, t, i)[k].term <= t;
    NotPrefixGrows(Reigned(h, t, i), h.reign[u].log, h'.reign[u].log, u);
    assert t < u <= hi && u in h'.reign && !(Reigned(h', t, i) <= h'.reign[u].log);
  }

  lemma HeldGrows(h: Record, h': Record, n: Id, a: Ack, log: Log, hi: nat)
    requires Grows(h, h', n) && ReignsOk(h) && ReignsOk(h')
    requires AckOk(h, a) && Held(h, a, log, hi)
    ensures AckOk(h', a) && Held(h', a, log, hi)
  {
    assert ReignGrows(h, h', n, a.term);
    forall i | 0 < i <= a.len
      ensures Reigned(h', a.term, i) <= log || Overridden(h', a.term, i, hi)
    {
      ReignedGrows(h, h', n, a.term, i);
      if !(Reigned(h, a.term, i) <= log) {
        OverriddenGrows(h, h', n, a.term, i, hi);
      }
    }
  }

  lemma AckedGrows(h: Record, h': Record, n: Id, p: Id, t: nat, i: nat)
    requires Grows(h, h', n) && Acked(h, p, t, i)
    ensures Acked(h', p, t, i)
  {
  }

  /** A later bound only makes the claims about kept entries weaker. */
  lemma HeldLater(h: Record, a: Ack, log: Log, lo: nat, hi: nat)
    requires AckOk(h, a) && Held(h, a, log, lo) && lo <= hi
    ensures Held(h, a, log, hi)
  {
  }

  // ------------------------------------------------------------ bystanders

  lemma CommitInvGrows(h: Record, h': Record, n: Id, s: Node)
    requires Grows(h, h', n) && CommitInv(h, s)
    ensures CommitInv(h', s)
  {
    CommittedGrows(h, h', n, s.log[..s.commit], Bound(s));
    CommittedGrows(h, h', n, s.disk.log[..s.disk.commit], Bound(s));
    CommittedGrows(h, h', n, s.disk.log[..s.disk.snap], Bound(s));
    CommittedGrows(h, h', n, s.disk.wal[..s.disk.commit], Bound(s));
    if s.disk.base <= s.commit {
      CommittedGrows(h, h', n, s.log[..s.disk.commit], Bound(s));
    }
  }

  lemma AckInvGrows(h: Record, h': Record, n: Id, id: Id, s: Node)
    requires Grows(h, h', n) && ReignsOk(h) && ReignsOk(h')
    requires AckInv(h, id, s)
    requires forall a {:trigger a in h'.acks} :: a in h'.acks && a !in h.acks ==> a.node != id || Keeps(h', a, s)
    ensures AckInv(h', id, s)
  {
    forall a | a in h'.acks && a.node == id
      ensures Keeps(h', a, s)
    {
      if a in h.acks {
        assert Keeps(h, a, s);
        HeldGrows(h, h', n, a, s.log, Bound(s));
        HeldGrows(h, h', n, a, s.disk.log, Bound(s));
        HeldGrows(h, h', n, a, s.disk.wal, Bound(s));
      }
    }
  }

  lemma RoleInvGrows(h: Record, h': Record, n: Id, id: Id, s: Node)
    requires Grows(h, h', n) && id != n && RoleInv(h, id, s)
    ensures RoleInv(h', id, s)
  {
  }

  /** A step of node n leaves every other node's invariant in place. */
  lemma Bystander(h: Record, h': Record, n: Id, id: Id, s: Node)
    requires Grows(h, h', n) && ReignsOk(h) && ReignsOk(h')
    requires id != n && NodeInv(h, id, s)
    ensures NodeInv(h', id, s)
  {
    SourcedGrows(h, h', n, s.log);
    SourcedGrows(h, h', n, s.disk.log);
    SourcedGrows(h, h', n, s.disk.wal);
    AckInvGrows(h, h', n, id, s);
    CommitInvGrows(h, h', n, s);
    RoleInvGrows(h, h', n, id, s);
    if s.transfer.Receiving? {
      SourcedGrows(h, h', n, s.transfer.prefix);
      CommittedGrows(h, h', n, s.transfer.prefix, Bound(s));
    }
    forall v | v in h'.votes && v.voter == id
      ensures StandsBy(v, s)
    {
      assert v in h.votes;
    }
  }
}
