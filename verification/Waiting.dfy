/** Proposals that wait for the outcome of their log entry. Each waits on a channel with one
    slot; a second send into it would block. */
module Waiting {
  import opened Logs
  import opened KeyValue

  type Ticket = nat

  datatype Reply = Done(result: Result) | NotLeader | Stopped

  /** Who waits at which log index, what each channel has received, and what each proposer
      proposed. */
  type Slots = map<nat, seq<Ticket>>
  type Replies = map<Ticket, Reply>
  type Proposals = map<Ticket, Entry>

  ghost predicate WaitsAt(slots: Slots, i: nat, w: Ticket) {
    i in slots && w in slots[i]
  }

  ghost predicate Distinct(ws: seq<Ticket>) {
    forall i, j :: 0 <= i < j < |ws| ==> ws[i] != ws[j]
  }

  ghost function Members(ws: seq<Ticket>): set<Ticket> {
    set w | w in ws
  }

  /** The tickets that wait at an index above the given one. */
  ghost function WaitingAbove(slots: Slots, index: nat): set<Ticket> {
    set i, w | i in slots && i > index && w in slots[i] :: w
  }

  function UpTo(slots: Slots, index: nat): Slots {
    map i | i in slots && i <= index :: slots[i]
  }

  /** The channels after r was sent to each of `to`. */
  ghost function Sent(replies: Replies, to: set<Ticket>, r: Reply): Replies {
    replies + map w | w in to :: r
  }

  lemma SentMore(replies: Replies, a: set<Ticket>, b: set<Ticket>, r: Reply)
    ensures Sent(Sent(replies, a, r), b, r) == Sent(replies, a + b, r)
  {
  }

  lemma SentNobody(replies: Replies, r: Reply)
    ensures Sent(replies, {}, r) == replies
  {
  }

  lemma SentOne(replies: Replies, w: Ticket, r: Reply)
    ensures replies[w := r] == Sent(replies, {w}, r)
  {
  }

  /** Taking out one index takes out exactly the tickets that wait there. */
  lemma AboveWithout(slots: Slots, issued: map<Ticket, nat>, i: nat, commit: nat)
    requires i in slots && i > commit
    requires forall j, w {:trigger w in slots[j]} :: j in slots && w in slots[j] ==> w in issued && issued[w] == j
    ensures WaitingAbove(slots, commit) - WaitingAbove(slots - {i}, commit) == Members(slots[i])
  {
    var rest := slots - {i};
    forall w
      ensures w in WaitingAbove(slots, commit) - WaitingAbove(rest, commit) <==> w in Members(slots[i])
    {
      if w in slots[i] {
        assert w in WaitingAbove(slots, commit);
      } else if w in WaitingAbove(slots, commit) {
        var j :| j in slots && j > commit && w in slots[j];
        assert j in rest && w in rest[j];
      }
    }
  }

  class Waiters {
    /** Who waits at which log index. */
    var slots: Slots
    /** What each channel has received. */
    var replies: Replies
    var next: Ticket
    /** Where each ticket was issued. */
    ghost var issued: map<Ticket, nat>
    /** Who has given up. */
    ghost var gone: set<Ticket>

    /** Whoever still waits has received nothing, and waits in one place only. Nobody is forgotten:
        whoever was issued a ticket waits where it was issued, has been told, or has given up. */
    ghost predicate Valid()
      reads this
    {
      && (forall i, k :: i in slots && 0 <= k < |slots[i]| ==>
            slots[i][k] in issued && issued[slots[i][k]] == i && slots[i][k] !in replies)
      && (forall i :: i in slots ==> Distinct(slots[i]))
      && replies.Keys <= issued.Keys
      && (forall w :: w in issued ==> w < next)
      && (forall w {:trigger w in issued} :: w in issued ==>
            w in replies || w in gone || WaitsAt(slots, issued[w], w))
    }

    constructor ()
      ensures Valid() && slots == map[] && replies == map[] && issued == map[] && gone == {}
    {
      slots, replies, next, issued, gone := map[], map[], 0, map[], {};
    }

    method Register(index: nat) returns (w: Ticket)
      requires Valid()
      modifies this
      ensures Valid() && w !in old(issued) && issued == old(issued)[w := index] && replies == old(replies)
      ensures gone == old(gone)
      ensures slots == old(slots)[index := (if index in old(slots) then old(slots)[index] else []) + [w]]
    {
      w := next;
      var before := if index in slots then slots[index] else [];
      slots := slots[index := before + [w]];
      issued := issued[w := index];
      next := next + 1;
    }

    /** Send to channels that are all empty, so none of the sends blocks. */
    method Send(ws: seq<Ticket>, r: Reply)
      requires Distinct(ws) && forall k :: 0 <= k < |ws| ==> ws[k] !in replies
      modifies this`replies
      ensures replies == Sent(old(replies), Members(ws), r)
    {
      hide Sent;
      SentNobody(replies, r);
      assert Members(ws[..0]) == {};
      for k := 0 to |ws|
        invariant forall j :: k <= j < |ws| ==> ws[j] !in replies
        invariant replies == Sent(old(replies), Members(ws[..k]), r)
      {
        assert Members(ws[..k + 1]) == Members(ws[..k]) + {ws[k]};
        SentMore(old(replies), Members(ws[..k]), {ws[k]}, r);
        SentOne(replies, ws[k], r);
        replies := replies[ws[k] := r];
      }
      assert ws[..|ws|] == ws;
    }

    /** Tell everyone who waits at an uncommitted index that this node no longer leads. */
    method FailAbove(commit: nat)
      requires Valid()
      modifies this`slots, this`replies
      ensures Valid() && slots == UpTo(old(slots), commit)
      ensures replies == Sent(old(replies), WaitingAbove(old(slots), commit), NotLeader)
    {
      hide Sent;
      SentNobody(replies, NotLeader);
      assert WaitingAbove(slots, commit) - WaitingAbove(slots, commit) == {};
      var todo := set i | i in slots && i > commit;
      while todo != {}
        invariant Valid()
        invariant todo == set i | i in slots && i > commit
        invariant UpTo(slots, commit) == UpTo(old(slots), commit)
        invariant forall i :: i in slots ==> i in old(slots) && slots[i] == old(slots)[i]
        invariant WaitingAbove(slots, commit) <= WaitingAbove(old(slots), commit)
        invariant replies == Sent(old(replies), WaitingAbove(old(slots), commit) - WaitingAbove(slots, commit),
                  NotLeader)
        decreases todo
      {
        var i :| i in todo;
        ghost var all, before := WaitingAbove(old(slots), commit), WaitingAbove(slots, commit);
        FailOne(i, commit);
        ghost var after := WaitingAbove(slots, commit);
        assert after <= before;
        assert (all - before) + (before - after) == all - after;
        SentMore(old(replies), all - before, before - after, NotLeader);
        todo := todo - {i};
      }
      assert forall i :: i in slots && i > commit ==> i in todo;
      assert slots == UpTo(slots, commit);
      assert WaitingAbove(old(slots), commit) - WaitingAbove(slots, commit) == WaitingAbove(old(slots), commit);
    }

    method FailOne(i: nat, ghost commit: nat)
      requires Valid() && i in slots && i > commit
      modifies this`slots, this`replies
      ensures Valid() && slots == old(slots) - {i}
      ensures replies == Sent(old(replies), WaitingAbove(old(slots), commit) - WaitingAbove(slots, commit), NotLeader)
      ensures UpTo(slots, commit) == UpTo(old(slots), commit)
    {
      var ws := slots[i];
      Send(ws, NotLeader);
      AboveWithout(slots, issued, i, commit);
      slots := slots - {i};
    }

    /** Hand the result of the entry at an index to whoever waits there. */
    method Finish(index: nat, result: Result)
      requires Valid()
      modifies this`slots, this`replies
      ensures Valid() && slots == old(slots) - {index}
      ensures replies == Sent(old(replies), if index in old(slots) then Members(old(slots)[index]) else {},
              Done(result))
    {
      if index in slots {
        var ws := slots[index];
        Send(ws, Done(result));
        slots := slots - {index};
      }
    }

    /** A proposer that gives up takes its channel out. */
    method Remove(index: nat, w: Ticket)
      requires Valid()
      modifies this`slots, this`gone
      ensures Valid() && gone == old(gone) + {w}
      ensures slots.Keys <= old(slots).Keys
      ensures forall i, v {:trigger WaitsAt(slots, i, v)} ::
                WaitsAt(slots, i, v) <==> WaitsAt(old(slots), i, v) && (i != index || v != w)
    {
      gone := gone + {w};
      if index in slots {
        var rest := Without(slots[index], w);
        forall k | 0 <= k < |rest|
          ensures rest[k] in issued && issued[rest[k]] == index && rest[k] !in replies
        {
          assert rest[k] in slots[index];
        }
        slots := if rest == [] then slots - {index} else slots[index := rest];
      }
    }

    /** The channels but the one. */
    method Without(ws: seq<Ticket>, w: Ticket) returns (rest: seq<Ticket>)
      requires Distinct(ws)
      ensures Distinct(rest) && forall v :: v in rest <==> v in ws && v != w
    {
      for k := 0 to |ws|
        invariant forall j :: 0 <= j < k ==> ws[j] != w
      {
        if ws[k] == w {
          return ws[..k] + ws[k + 1..];
        }
      }
      rest := ws;
    }

    /** Shutting down. */
    method StopAll()
      requires Valid()
      modifies this`slots, this`replies
      ensures Valid() && slots == map[]
      ensures forall w :: w in old(replies) ==> w in replies && replies[w] == old(replies)[w]
      ensures forall w :: w in replies && w !in old(replies) ==> replies[w] == Stopped
      ensures forall i, w :: i in old(slots) && w in old(slots)[i] ==> w in replies
    {
      var todo := slots.Keys;
      while todo != {}
        invariant Valid() && todo == slots.Keys
        invariant forall i :: i in slots ==> i in old(slots) && slots[i] == old(slots)[i]
        invariant forall w :: w in old(replies) ==> w in replies && replies[w] == old(replies)[w]
        invariant forall w :: w in replies && w !in old(replies) ==> replies[w] == Stopped
        invariant forall i, w :: i in old(slots) && i !in slots && w in old(slots)[i] ==> w in replies
        decreases todo
      {
        var i :| i in todo;
        Send(slots[i], Stopped);
        slots := slots - {i};
        todo := todo - {i};
      }
    }
  }
}
