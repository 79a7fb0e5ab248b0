/** The key-value machine that committed commands are folded through. */
module KeyValue {
  import opened Logs

  type Pairs = map<string, string>

  datatype Result = Result(ok: bool, found: bool, value: string, swapped: bool, error: string)

  /** The value under a key, or the empty string, as a Go map lookup gives it. */
  function Lookup(m: Pairs, key: string): string {
    if key in m then m[key] else ""
  }

  function Applied(m: Pairs, c: Command): Pairs {
    match c
    case Put(key, value) => m[key := value]
    case Delete(key) => m - {key}
    case Cas(key, expected, value) => if key in m && m[key] == expected then m[key := value] else m
    case _ => m
  }

  function ResultOf(m: Pairs, c: Command): Result {
    match c
    case Put(_, value) => Result(true, true, value, false, "")
    case Delete(key) => Result(true, key in m, Lookup(m, key), false, "")
    case Cas(key, expected, value) =>
      if key in m && m[key] == expected then Result(true, true, value, true, "")
      else Result(true, key in m, Lookup(m, key), false, "")
    case Noop => Result(true, false, "", false, "")
    case Unknown(_) => Result(false, false, "", false, "unknown command")
  }

  /** The map after a log's commands, from the first one on. */
  function Fold(log: Log): Pairs {
    if log == [] then map[] else Applied(Fold(log[..|log| - 1]), log[|log| - 1].command)
  }

  /** A read of the key from the map of this log. */
  predicate Shows(log: Log, key: string, value: string, found: bool) {
    found == (key in Fold(log)) && (found ==> value == Fold(log)[key])
  }

  lemma FoldNext(log: Log, i: nat)
    requires i < |log|
    ensures Fold(log[..i + 1]) == Applied(Fold(log[..i]), log[i].command)
  {
    assert log[..i + 1][..i] == log[..i];
  }

  // ------------------------------------------------------------ what commands do

  /** The key that a command is about. */
  function KeyOf(c: Command): Option<string> {
    match c
    case Put(key, _) => Some(key)
    case Delete(key) => Some(key)
    case Cas(key, _, _) => Some(key)
    case _ => None
  }

  /** The key is in the map with this value. */
  predicate Maps(m: Pairs, key: string, value: string) {
    key in m && m[key] == value
  }

  /** After a put the key has the value; after a delete it is gone; a compare-and-swap puts its
      value exactly if the key had the expected one, and otherwise changes nothing, as do all
      other commands. No other key is touched. */
  lemma AppliedMeans(m: Pairs, c: Command)
    ensures match c
            case Put(key, value) => Maps(Applied(m, c), key, value)
            case Delete(key) => key !in Applied(m, c)
            case Cas(key, expected, value) =>
              if Maps(m, key, expected) then Maps(Applied(m, c), key, value) else Applied(m, c) == m
            case _ => Applied(m, c) == m
    ensures forall k, v :: KeyOf(c) != Some(k) ==> (Maps(Applied(m, c), k, v) <==> Maps(m, k, v))
  {
  }

  /** The result says whether the command is known; for a put, the new value; for a delete, whether
      the key was there and with what value; for a compare-and-swap, whether it has swapped, and the
      value that the key has now, if it has one. */
  lemma ResultMeans(m: Pairs, c: Command)
    ensures var r, m' := ResultOf(m, c), Applied(m, c);
            && (r.ok <==> !c.Unknown?) && (r.error == "" <==> r.ok)
            && (r.swapped <==> c.Cas? && Maps(m, c.key, c.expected))
            && (!r.found ==> r.value == "")
            && match c
               case Put(key, _) => r.found && Maps(m', key, r.value)
               case Delete(key) => (r.found <==> key in m) && (r.found ==> Maps(m, key, r.value))
               case Cas(key, _, _) => (r.found <==> key in m') && (r.found ==> Maps(m', key, r.value))
               case _ => !r.found
  {
  }

  /** The i-th command of the log gives the key a value. */
  predicate SetsAt(log: Log, i: nat, key: string, value: string)
    requires i < |log|
  {
    match log[i].command
    case Put(k, v) => k == key && v == value
    case Cas(k, expected, v) => k == key && v == value && Maps(Fold(log[..i]), key, expected)
    case _ => false
  }

  /** It leaves the key alone: it is about another key, or swaps nothing. */
  predicate SparesAt(log: Log, i: nat, key: string)
    requires i < |log|
  {
    match log[i].command
    case Cas(k, expected, _) => k != key || !Maps(Fold(log[..i]), key, expected)
    case c => KeyOf(c) != Some(key)
  }

  /** A key has a value in the map of a log exactly if some command gave it this value and every
      later one has left it alone. */
  lemma {:induction false} LastWriteCounts(log: Log, key: string, value: string)
    ensures Maps(Fold(log), key, value) <==>
              exists i {:trigger SetsAt(log, i, key, value)} :: 0 <= i < |log| && SetsAt(log, i, key, value) &&
                forall j {:trigger SparesAt(log, j, key)} :: i < j < |log| ==> SparesAt(log, j, key)
    decreases |log|
  {
    if log != [] {
      var last := |log| - 1;
      var before := log[..last];
      LastWriteCounts(before, key, value);
      AppliedMeans(Fold(before), log[last].command);
      forall i | 0 <= i < last
        ensures SetsAt(before, i, key, value) == SetsAt(log, i, key, value)
        ensures SparesAt(before, i, key) == SparesAt(log, i, key)
      {
        assert before[..i] == log[..i];
      }
      if SparesAt(log, last, key) {
        assert !SetsAt(log, last, key, value);
        assert Maps(Fold(log), key, value) <==> Maps(Fold(before), key, value);
      } else {
        assert Maps(Fold(log), key, value) <==> SetsAt(log, last, key, value);
      }
    }
  }

  /** The state machine object. */
  class StateMachine {
    var data: Pairs

    constructor ()
      ensures data == Fold([])
    {
      data := map[];
    }

    method Apply(c: Command) returns (r: Result)
      modifies this
      ensures data == Applied(old(data), c)
      ensures r == ResultOf(old(data), c)
    {
      match c
      case Put(key, value) =>
        data := data[key := value];
        r := Result(true, true, value, false, "");
      case Delete(key) =>
        var previous, found := Lookup(data, key), key in data;
        data := data - {key};
        r := Result(true, found, previous, false, "");
      case Cas(key, expected, value) =>
        var current, found := Lookup(data, key), key in data;
        if !found || current != expected {
          return Result(true, found, current, false, "");
        }
        data := data[key := value];
        r := Result(true, true, value, true, "");
      case Noop =>
        r := Result(true, false, "", false, "");
      case Unknown(_) =>
        r := Result(false, false, "", false, "unknown command");
    }

    method Snapshot() returns (out: Pairs)
      ensures out == data
    {
      out := Copy(data);
    }

    method Restore(snapshot: Pairs)
      modifies this
      ensures data == snapshot
    {
      data := Copy(snapshot);
    }

    method Get(key: string) returns (value: string, found: bool)
      ensures found == (key in data) && value == if found then data[key] else ""
    {
      found := key in data;
      value := Lookup(data, key);
    }
  }

  /** A map copied key by key. */
  method Copy(src: Pairs) returns (dst: Pairs)
    ensures dst == src
  {
    dst := map[];
    var todo := src.Keys;
    while todo != {}
      invariant todo <= src.Keys
      invariant dst.Keys == src.Keys - todo
      invariant forall k :: k in dst ==> k in src && dst[k] == src[k]
      decreases todo
    {
      var key :| key in todo;
      dst := dst[key := src[key]];
      todo := todo - {key};
    }
  }
}
