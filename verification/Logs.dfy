/** Log entries and full logs. A full log holds every entry a node has ever kept, from index 1 on.
    A node of the program stores only a snapshot and the live suffix after it; the full log is
    what that pair stands for. */
module Logs {

  type Id = string

  datatype Option<+T> = None | Some(value: T)

  datatype Command =
    | Put(key: string, value: string)
    | Delete(key: string)
    | Cas(key: string, expected: string, value: string)
    | Noop
    | Unknown(op: string)

  datatype Entry = Entry(index: nat, term: nat, command: Command)

  /** The entry at position i has index i + 1. */
  type Log = seq<Entry>

  /** The term at a log index; index 0 is before the first entry and has term 0. */
  function TermAt(log: Log, index: nat): nat
    requires index <= |log|
  {
    if index == 0 then 0 else log[index - 1].term
  }

  function LastTerm(log: Log): nat {
    TermAt(log, |log|)
  }

  ghost predicate Indexed(log: Log) {
    forall i :: 0 <= i < |log| ==> log[i].index == i + 1
  }

  ghost predicate TermsSorted(log: Log) {
    forall i, j :: 0 <= i <= j < |log| ==> log[i].term <= log[j].term
  }

  ghost predicate TermsUpTo(log: Log, term: nat) {
    forall i :: 0 <= i < |log| ==> log[i].term <= term
  }

  ghost predicate TermsBelow(log: Log, term: nat) {
    forall i :: 0 <= i < |log| ==> log[i].term < term
  }

  /** The vote check: log c is at least as recent as log v. */
  predicate UpToDate(c: Log, v: Log) {
    LastTerm(c) > LastTerm(v) || (LastTerm(c) == LastTerm(v) && |c| >= |v|)
  }

  /** Being as recent orders all logs, and a log that goes on with sorted terms is more recent. */
  lemma UpToDateOrders(a: Log, b: Log, c: Log)
    ensures UpToDate(a, b) || UpToDate(b, a)
    ensures UpToDate(a, b) && UpToDate(b, c) ==> UpToDate(a, c)
    ensures a <= b && TermsSorted(b) ==> UpToDate(b, a)
    ensures a <= b && TermsSorted(b) && UpToDate(a, b) ==> a == b
  {
    if a <= b && 0 < |a| {
      assert b[|a| - 1] == a[|a| - 1];
    }
  }

  function Min(a: nat, b: nat): nat {
    if a <= b then a else b
  }

  function Max(a: nat, b: nat): nat {
    if a <= b then b else a
  }

  /** Two prefixes of one sequence are comparable. */
  lemma PrefixesCompare<T>(p: seq<T>, q: seq<T>, whole: seq<T>)
    requires p <= whole && q <= whole
    ensures |p| <= |q| ==> p <= q
    ensures |q| <= |p| ==> q <= p
  {
  }

  lemma PrefixTrans<T>(p: seq<T>, q: seq<T>, r: seq<T>)
    requires p <= q && q <= r
    ensures p <= r
  {
  }
}
