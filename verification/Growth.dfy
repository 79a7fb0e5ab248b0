/** How the history grows: an election, a vote, an acknowledgement, an entry, a commit.

    For each kind of event there is a function that adds it to the record and a lemma that says
    when the record stays sound. An election needs votes of a quorum in a term that has no
    leader yet; a vote, that the voter has not given another one in that term and has not
    acknowledged anything the candidate lacks; an acknowledgement, that the node has not voted
    in a later term; an entry, that its leader appends it; a commit, that a quorum has
    acknowledged it. */
module Growth {
  import opened Logs
  import opened History
  import opened Invariant

  /** A leadership that did not change is as sound in the longer history. */
  lemma ReignCarries(h: Record, h': Record, n: Id, t: nat)
    requires Grows(h, h', n) && t in h.reign && ReignOk(h, t)
    requires t in h'.reign && h'.reign[t] == h.reign[t]
    ensures ReignOk(h', t)
  {
    SourcedGrows(h, h', n, h.reign[t].log);
    forall p | p in h'.reign[t].ballots
      ensures BallotOk(h', t, p)
    {
      assert BallotOk(h, t, p);
    }
  }

  ghost predicate NewVoteRooted(h': Record, v: Vote) {
    && VoteOk(h', v)
    && (forall w {:trigger VotePair(v, w)} :: w in h'.votes ==> VotePair(v, w) && VotePair(w, v))
  }

  ghost predicate NewVoteOk(h': Record, v: Vote)
    requires AcksOk(h')
  {
    && NewVoteRooted(h', v)
    && (forall a {:trigger AckBeforeVote(h', a, v)} :: a in h'.acks ==> AckBeforeVote(h', a, v))
  }

  ghost predicate NewAckOk(h': Record, a: Ack)
    requires AckOk(h', a)
  {
    && (forall v {:trigger AckBeforeVote(h', a, v)} :: v in h'.votes ==> AckBeforeVote(h', a, v))
    && (forall t, p {:trigger BallotHeld(h', t, p, a)} :: t in h'.reign && p in h'.reign[t].ballots ==>
        BallotHeld(h', t, p, a))
  }

  ghost predicate NewReignOk(h': Record, t: nat)
    requires AcksOk(h') && t in h'.reign
  {
    forall p, a {:trigger BallotHeld(h', t, p, a)} :: p in h'.reign[t].ballots && a in h'.acks ==>
        BallotHeld(h', t, p, a)
  }

  /** What is left to show when the history grows: the claims about the new items. */
  ghost predicate NewItemsOk(h: Record, h': Record)
    requires AcksOk(h')
  {
    && (forall v {:trigger NewVoteOk(h', v)} :: v in h'.votes && v !in h.votes ==> NewVoteOk(h', v))
    && (forall a {:trigger NewAckOk(h', a)} :: a in h'.acks && a !in h.acks ==> NewAckOk(h', a))
    && (forall t {:trigger NewReignOk(h', t)} :: t in h'.reign && t !in h.reign ==> NewReignOk(h', t))
    && (forall c {:trigger ChoiceOk(h', c)} :: c in h'.choices && c !in h.choices ==> ChoiceOk(h', c))
  }

  /** Elections and logs stay sound if the new leaderships and votes are. */
  lemma RootsCarry(h: Record, h': Record, n: Id)
    requires RootsOk(h) && Grows(h, h', n) && ReignsOk(h')
    requires forall v {:trigger NewVoteRooted(h', v)} :: v in h'.votes && v !in h.votes ==> NewVoteRooted(h', v)
    ensures RootsOk(h')
  {
    forall v | v in h'.votes
      ensures VoteOk(h', v)
    {
      if v in h.votes {
        assert VoteOk(h, v);
        SourcedGrows(h, h', n, v.log);
        SourcedGrows(h, h', n, v.candLog);
      } else {
        assert NewVoteRooted(h', v);
      }
    }
    forall v, w | v in h'.votes && w in h'.votes
      ensures VotePair(v, w)
    {
      if v !in h.votes {
        assert NewVoteRooted(h', v);
      } else if w !in h.votes {
        assert NewVoteRooted(h', w);
        assert VotePair(w, v);
      }
    }
  }

  lemma AckBeforeVoteCarries(h: Record, h': Record, n: Id, a: Ack, v: Vote)
    requires ReignsOk(h) && Grows(h, h', n) && ReignsOk(h')
    requires AckOk(h, a) && AckBeforeVote(h, a, v)
    ensures AckOk(h', a) && AckBeforeVote(h', a, v)
  {
    assert ReignGrows(h, h', n, a.term);
    if a.node == v.voter && a.term < v.term {
      HeldGrows(h, h', n, a, v.log, v.term);
    }
  }

  lemma AcksCarry(h: Record, h': Record, n: Id)
    requires HistoryOk(h) && Grows(h, h', n) && ReignsOk(h') && AcksOk(h') && NewItemsOk(h, h')
    ensures AcksBeforeVotes(h')
  {
    forall a, v | a in h'.acks && v in h'.votes
      ensures AckBeforeVote(h', a, v)
    {
      if a !in h.acks {
        assert NewAckOk(h', a);
      } else if v !in h.votes {
        assert NewVoteOk(h', v);
      } else {
        assert AckBeforeVote(h, a, v);
        AckBeforeVoteCarries(h, h', n, a, v);
      }
    }
  }

  lemma BallotsCarry(h: Record, h': Record, n: Id)
    requires HistoryOk(h) && Grows(h, h', n) && ReignsOk(h') && AcksOk(h') && NewItemsOk(h, h')
    ensures BallotsHeld(h')
  {
    forall t, p, a | t in h'.reign && p in h'.reign[t].ballots && a in h'.acks
      ensures BallotHeld(h', t, p, a)
    {
      if a !in h.acks {
        assert NewAckOk(h', a);
      } else if t !in h.reign {
        assert NewReignOk(h', t);
      } else {
        assert ReignGrows(h, h', n, t);
        assert BallotHeld(h, t, p, a);
        if a.node == p && a.term < t {
          HeldGrows(h, h', n, a, h.reign[t].ballots[p].log, t - 1);
        }
      }
    }
  }

  lemma ChoicesCarry(h: Record, h': Record, n: Id)
    requires HistoryOk(h) && Grows(h, h', n) && AcksOk(h') && NewItemsOk(h, h')
    ensures ChoicesOk(h')
  {
    forall c | c in h'.choices
      ensures ChoiceOk(h', c)
    {
      if c in h.choices {
        assert ChoiceOk(h, c);
        assert ReignGrows(h, h', n, c.term);
        forall q | q in c.quorum
          ensures Acked(h', q, c.term, c.index)
        {
          assert Acked(h, q, c.term, c.index);
          AckedGrows(h, h', n, q, c.term, c.index);
        }
      }
    }
  }

  lemma HistoryCarries(h: Record, h': Record, n: Id)
    requires HistoryOk(h) && Grows(h, h', n) && ReignsOk(h') && AcksOk(h') && NewItemsOk(h, h')
    ensures HistoryOk(h')
  {
    forall v | v in h'.votes && v !in h.votes
      ensures NewVoteRooted(h', v)
    {
      assert NewVoteOk(h', v);
    }
    RootsCarry(h, h', n);
    AcksCarry(h, h', n);
    BallotsCarry(h, h', n);
    ChoicesCarry(h, h', n);
  }

  lemma ReignsCarry(h: Record, h': Record, n: Id)
    requires ReignsOk(h) && Grows(h, h', n) && h'.reign == h.reign
    ensures ReignsOk(h')
  {
    forall t | t in h'.reign
      ensures ReignOk(h', t)
    {
      assert ReignOk(h, t);
      ReignCarries(h, h', n, t);
    }
  }

  lemma OldAcksOk(h: Record, h': Record, n: Id)
    requires AcksOk(h) && Grows(h, h', n)
    requires forall a {:trigger a in h'.acks} :: a in h'.acks && a !in h.acks ==> AckOk(h', a)
    ensures AcksOk(h')
  {
  }

  // ------------------------------------------------------------ time passes

  lemma Tick(h: Record, n: Id)
    requires HistoryOk(h)
    ensures HistoryOk(h.(time := h.time + 1)) && Grows(h, h.(time := h.time + 1), n)
  {
    var h' := h.(time := h.time + 1);
    assert forall t :: t in h.reign ==> ReignGrows(h, h', n, t);
    ReignsCarry(h, h', n);
    OldAcksOk(h, h', n);
    HistoryCarries(h, h', n);
  }

  // ------------------------------------------------------------ a vote

  function AddVote(h: Record, v: Vote): Record {
    h.(votes := h.votes + {v})
  }

  lemma VoteAdded(h: Record, v: Vote)
    requires HistoryOk(h) && VoteOk(AddVote(h, v), v)
    requires forall w {:trigger VotePair(v, w)} :: w in h.votes ==> VotePair(v, w) && VotePair(w, v)
    requires forall a {:trigger AckBeforeVote(h, a, v)} :: a in h.acks ==> AckBeforeVote(h, a, v)
    ensures HistoryOk(AddVote(h, v)) && Grows(h, AddVote(h, v), v.voter)
  {
    var h' := AddVote(h, v);
    var n := v.voter;
    assert forall t :: t in h.reign ==> ReignGrows(h, h', n, t);
    ReignsCarry(h, h', n);
    OldAcksOk(h, h', n);
    forall a | a in h'.acks
      ensures AckBeforeVote(h', a, v)
    {
      assert AckBeforeVote(h, a, v);
      AckBeforeVoteCarries(h, h', n, a, v);
    }
    forall w | w in h'.votes
      ensures VotePair(v, w) && VotePair(w, v)
    {
      if w != v {
        assert VotePair(v, w);
      }
    }
    assert NewVoteOk(h', v);
    HistoryCarries(h, h', n);
  }

  // ------------------------------------------------------------ an acknowledgement

  function AddAck(h: Record, a: Ack): Record {
    h.(acks := h.acks + {a})
  }

  /** A node that has not yet voted in a later term may acknowledge. */
  lemma AckAdded(h: Record, a: Ack)
    requires HistoryOk(h) && AckOk(h, a)
    requires forall v {:trigger v in h.votes} :: v in h.votes && v.voter == a.node ==> v.term <= a.term
    ensures HistoryOk(AddAck(h, a)) && Grows(h, AddAck(h, a), a.node)
  {
    var h' := AddAck(h, a);
    var n := a.node;
    assert forall t :: t in h.reign ==> ReignGrows(h, h', n, t);
    ReignsCarry(h, h', n);
    OldAcksOk(h, h', n);
    forall t, p | t in h'.reign && p in h'.reign[t].ballots
      ensures BallotHeld(h', t, p, a)
    {
      assert ReignOk(h', t);
      assert BallotOk(h', t, p);
    }
    assert NewAckOk(h', a);
    HistoryCarries(h, h', n);
  }

  // ------------------------------------------------------------ a committed index

  function AddChoice(h: Record, c: Choice): Record {
    h.(choices := h.choices + {c})
  }

  lemma ChoiceAdded(h: Record, c: Choice, n: Id)
    requires HistoryOk(h) && ChoiceOk(h, c) && h.reign[c.term].leader == n
    ensures HistoryOk(AddChoice(h, c)) && Grows(h, AddChoice(h, c), n)
  {
    var h' := AddChoice(h, c);
    assert forall t :: t in h.reign ==> ReignGrows(h, h', n, t);
    ReignsCarry(h, h', n);
    OldAcksOk(h, h', n);
    assert forall q :: Acked(h, q, c.term, c.index) ==> Acked(h', q, c.term, c.index);
    assert ChoiceOk(h', c);
    HistoryCarries(h, h', n);
  }

  // ------------------------------------------------------------ a leader's entry

  function AddEntry(h: Record, t: nat, e: Entry): Record
    requires t in h.reign
  {
    h.(reign := h.reign[t := h.reign[t].(log := h.reign[t].log + [e])])
  }

  lemma EntryAdded(h: Record, t: nat, e: Entry)
    requires HistoryOk(h) && t in h.reign
    requires e.term == t && e.index == |h.reign[t].log| + 1
    ensures HistoryOk(AddEntry(h, t, e)) && Grows(h, AddEntry(h, t, e), h.reign[t].leader)
  {
    EntryReigned(h, t, e);
    hide ReignsOk, Grows;
    OldAcksOk(h, AddEntry(h, t, e), h.reign[t].leader);
    HistoryCarries(h, AddEntry(h, t, e), h.reign[t].leader);
  }

  lemma EntryReigned(h: Record, t: nat, e: Entry)
    requires ReignsOk(h) && t in h.reign
    requires e.term == t && e.index == |h.reign[t].log| + 1
    ensures ReignsOk(AddEntry(h, t, e)) && Grows(h, AddEntry(h, t, e), h.reign[t].leader)
  {
    var h' := AddEntry(h, t, e);
    var n := h.reign[t].leader;
    var before, after := h.reign[t].log, h'.reign[t].log;
    assert ReignOk(h, t);
    assert forall u :: u in h.reign ==> ReignGrows(h, h', n, u);
    SourcedGrows(h, h', n, before);
    forall i | 0 <= i < |after|
      ensures SourcedAt(h', after, i)
    {
      if i < |before| {
        assert SourcedAt(h', before, i);
        assert after[..i + 1] == before[..i + 1];
      } else {
        assert after[..i + 1] == after;
      }
    }
    forall p | p in h'.reign[t].ballots
      ensures BallotOk(h', t, p)
    {
      assert BallotOk(h, t, p);
      assert after[..h.reign[t].base] == before[..h.reign[t].base];
    }
    assert ReignOk(h', t);
    forall u | u in h'.reign
      ensures ReignOk(h', u)
    {
      if u != t {
        assert ReignOk(h, u);
        ReignCarries(h, h', n, u);
      }
    }
  }

  // ------------------------------------------------------------ an election won

  function AddReign(h: Record, t: nat, r: Reign): Record {
    h.(reign := h.reign[t := r])
  }

  ghost predicate WonBy(h: Record, t: nat, n: Id, log: Log, ballots: map<Id, Vote>) {
    && IsQuorum(h.members, ballots.Keys)
    && (forall p {:trigger ballots[p]} :: p in ballots ==>
          ballots[p] in h.votes && ballots[p].voter == p && ballots[p].term == t && ballots[p].cand == n &&
              ballots[p].candLog == log)
  }

  /** The first entry of a new leader is its no-op. */
  lemma ReignRooted(h: Record, t: nat, n: Id, log: Log, e: Entry, ballots: map<Id, Vote>)
    requires ReignsOk(h) && t !in h.reign && n in h.members
    requires Sourced(h, log) && TermsBelow(log, t)
    requires e.term == t && e.index == |log| + 1
    requires WonBy(h, t, n, log, ballots)
    ensures ReignsOk(AddReign(h, t, Reign(n, |log|, log + [e], ballots)))
    ensures Grows(h, AddReign(h, t, Reign(n, |log|, log + [e], ballots)), n)
  {
    var r := Reign(n, |log|, log + [e], ballots);
    var h' := AddReign(h, t, r);
    assert forall u :: u in h.reign ==> ReignGrows(h, h', n, u);
    SourcedGrows(h, h', n, log);
    SourcedIndexed(h, log);
    forall i | 0 <= i < |r.log|
      ensures SourcedAt(h', r.log, i)
    {
      if i < |log| {
        assert SourcedAt(h', log, i);
        assert r.log[..i + 1] == log[..i + 1];
      } else {
        assert r.log[..i + 1] == r.log;
      }
    }
    forall p | p in r.ballots
      ensures BallotOk(h', t, p)
    {
      assert r.log[..|log|] == log;
      assert ballots[p] in h.votes;
    }
    assert ReignOk(h', t);
    forall u | u in h'.reign
      ensures ReignOk(h', u)
    {
      if u != t {
        assert ReignOk(h, u);
        ReignCarries(h, h', n, u);
      }
    }
  }

  lemma ReignAdded(h: Record, t: nat, n: Id, log: Log, e: Entry, ballots: map<Id, Vote>)
    requires HistoryOk(h) && t !in h.reign && n in h.members
    requires Sourced(h, log) && TermsBelow(log, t)
    requires e.term == t && e.index == |log| + 1
    requires WonBy(h, t, n, log, ballots)
    ensures HistoryOk(AddReign(h, t, Reign(n, |log|, log + [e], ballots)))
    ensures Grows(h, AddReign(h, t, Reign(n, |log|, log + [e], ballots)), n)
  {
    var h' := AddReign(h, t, Reign(n, |log|, log + [e], ballots));
    ReignRooted(h, t, n, log, e, ballots);
    hide ReignsOk, Grows, Sourced;
    OldAcksOk(h, h', n);
    forall p, a | p in h'.reign[t].ballots && a in h'.acks
      ensures BallotHeld(h', t, p, a)
    {
      assert ballots[p] in h.votes;
      NewBallotHeld(h, h', n, t, p, a, ballots[p]);
    }
    assert NewReignOk(h', t);
    HistoryCarries(h, h', n);
  }

  /** The ballots were cast before the term had a leader, so whatever a voter had let go of
      by then was overridden in an earlier term. */
  lemma NewBallotHeld(h: Record, h': Record, n: Id, t: nat, p: Id, a: Ack, v: Vote)
    requires HistoryOk(h) && ReignsOk(h') && Grows(h, h', n) && t !in h.reign && a in h.acks
    requires t in h'.reign && p in h'.reign[t].ballots && h'.reign[t].ballots[p] == v
    requires v in h.votes && v.voter == p && v.term == t
    ensures AckOk(h', a) && BallotHeld(h', t, p, a)
  {
    assert AckOk(h, a) && AckBeforeVote(h, a, v);
    assert ReignGrows(h, h', n, a.term);
    if a.node == p && a.term < t {
      forall i | 0 < i <= a.len
        ensures Reigned(h, a.term, i) <= v.log || Overridden(h, a.term, i, t - 1)
      {
        if !(Reigned(h, a.term, i) <= v.log) {
          assert Overridden(h, a.term, i, v.term);
        }
      }
      HeldGrows(h, h', n, a, v.log, t - 1);
    }
  }

  /** Terms never decrease along a log. */
  lemma SourcedSorted(h: Record, log: Log)
    requires ReignsOk(h) && Sourced(h, log)
    ensures TermsSorted(log)
  {
    forall i, j | 0 <= i <= j < |log|
      ensures log[i].term <= log[j].term
    {
      assert SourcedAt(h, log, j);
      assert ReignOk(h, log[j].term);
      assert log[..j + 1][i] == h.reign[log[j].term].log[i];
    }
  }

  lemma SourcedIndexed(h: Record, log: Log)
    requires ReignsOk(h) && Sourced(h, log)
    ensures Indexed(log)
  {
    forall i | 0 <= i < |log|
      ensures log[i].index == i + 1
    {
      assert SourcedAt(h, log, i);
      assert ReignOk(h, log[i].term);
      assert log[..i + 1][i] == h.reign[log[i].term].log[i];
    }
  }

  /** Election safety: the term of a quorum's candidate has no other leader. */
  lemma OneLeaderPerTerm(h: Record, t: nat, n: Id, log: Log, ballots: map<Id, Vote>)
    requires RootsOk(h) && WonBy(h, t, n, log, ballots) && t in h.reign
    ensures h.reign[t].leader == n
  {
    assert ReignOk(h, t);
    var m := QuorumsMeet(h.members, ballots.Keys, h.reign[t].ballots.Keys);
    assert BallotOk(h, t, m);
    assert VotePair(ballots[m], h.reign[t].ballots[m]);
  }
}
