/** The key-value state machine (src/storage/kv_store.cpp). */
module KvStore {
  import opened RaftTypes

  type Map = map<string, string>

  function Lookup(data: Map, key: string): Option<string> {
    if key in data then Some(data[key]) else None
  }

  /** An absent key reads as the empty string. */
  function ValueOr(value: Option<string>): string {
    if value.Some? then value.value else ""
  }

  datatype Applied = Applied(data: Map, result: CmdResult)

  function Apply(data: Map, cmd: Command): Applied {
    match cmd
    case Put(key, value) => Applied(data[key := value], CmdResult(true, "", ""))
    case Delete(key) => Applied(data - {key}, CmdResult(true, "", ""))
    case Cas(key, expected, value) =>
      var current := ValueOr(Lookup(data, key));
      if current != expected then Applied(data, CmdResult(false, current, "cas_mismatch"))
      else Applied(data[key := value], CmdResult(true, value, ""))
    case Get(key) => Applied(data, CmdResult(true, ValueOr(Lookup(data, key)), ""))
    case AddServer(_) => Applied(data, CmdResult(true, "", ""))
    case RemoveServer(_) => Applied(data, CmdResult(true, "", ""))
  }

  /** The state after applying a stretch of log from the empty store. */
  function Replay(log: seq<LogEntry>): Map {
    if log == [] then map[] else Apply(Replay(log[..|log| - 1]), log[|log| - 1].cmd).data
  }

  // ---------------------------------------------------------------- what the commands do, key by key

  predicate OnKey(cmd: Command, key: string) { !cmd.AddServer? && !cmd.RemoveServer? && cmd.key == key }

  /** What the command leaves at its own key, what it answers, and that it touches no other. */
  ghost predicate Does(cmd: Command, before: Map, after: Map, r: CmdResult) {
    && (forall k | !OnKey(cmd, k) :: Lookup(after, k) == Lookup(before, k))
    && match cmd
       case Put(key, value) => Lookup(after, key) == Some(value) && r == CmdResult(true, "", "")
       case Delete(key) => Lookup(after, key) == None && r == CmdResult(true, "", "")
       case Cas(key, expected, value) =>
         if ValueOr(Lookup(before, key)) == expected then Lookup(after, key) == Some(value) && r == CmdResult(true, value, "")
         else Lookup(after, key) == Lookup(before, key) && r == CmdResult(false, ValueOr(Lookup(before, key)), "cas_mismatch")
       case Get(key) => Lookup(after, key) == Lookup(before, key) && r == CmdResult(true, ValueOr(Lookup(before, key)), "")
       case AddServer(_) => r == CmdResult(true, "", "")
       case RemoveServer(_) => r == CmdResult(true, "", "")
  }

  lemma ApplyDoes(data: Map, cmd: Command)
    ensures Does(cmd, data, Apply(data, cmd).data, Apply(data, cmd).result)
  {
  }

  /** Entry `i` is a put, a delete or a successful cas on the key. */
  predicate Writes(log: seq<LogEntry>, i: nat, key: string)
    requires i < |log|
  {
    && OnKey(log[i].cmd, key) && !log[i].cmd.Get?
    && (log[i].cmd.Cas? ==> ValueOr(Lookup(Replay(log[..i]), key)) == log[i].cmd.expected)
  }

  /** What the last write on the key left is what a replay of the log has there. */
  lemma {:induction false} LastWriteWins(log: seq<LogEntry>, key: string, i: nat)
    requires i < |log| && Writes(log, i, key) && forall j | i < j < |log| :: !Writes(log, j, key)
    ensures Lookup(Replay(log), key) == if log[i].cmd.Delete? then None else Some(log[i].cmd.value)
    decreases |log|
  {
    hide Apply, Lookup;
    var n := |log| - 1;
    ApplyDoes(Replay(log[..n]), log[n].cmd);
    if i < n {
      forall j | i <= j < n ensures Writes(log[..n], j, key) == Writes(log, j, key) { assert log[..n][..j] == log[..j]; }
      LastWriteWins(log[..n], key, i);
      assert !Writes(log, n, key);
    }
  }

  /** A key that nothing was written to has no value. */
  lemma {:induction false} NeverWritten(log: seq<LogEntry>, key: string)
    requires forall j | 0 <= j < |log| :: !Writes(log, j, key)
    ensures Lookup(Replay(log), key) == None
    decreases |log|
  {
    if log != [] {
      hide Apply, Lookup;
      var n := |log| - 1;
      ApplyDoes(Replay(log[..n]), log[n].cmd);
      forall j | 0 <= j < n ensures !Writes(log[..n], j, key) { assert log[..n][..j] == log[..j] && !Writes(log, j, key); }
      NeverWritten(log[..n], key);
      assert !Writes(log, n, key);
    }
  }

  class Store {
    var data: Map

    function Read(key: string): (value: Option<string>)
      reads this
      ensures if key in data then value == Some(data[key]) else value == None
    {
      Lookup(data, key)
    }

    /** Updates the map in place and touches no key but the command's. */
    method Execute(cmd: Command) returns (r: CmdResult)
      modifies this
      ensures Applied(data, r) == Apply(old(data), cmd)
      ensures Does(cmd, old(data), data, r)
    {
      match cmd {
        case Put(key, value) =>
          data := data[key := value];
          return CmdResult(true, "", "");
        case Delete(key) =>
          data := data - {key};
          return CmdResult(true, "", "");
        case Cas(key, expected, value) =>
          var current := if key in data then data[key] else "";
          if current != expected { return CmdResult(false, current, "cas_mismatch"); }
          data := data[key := value];
          return CmdResult(true, value, "");
        case Get(key) =>
          return CmdResult(true, if key in data then data[key] else "", "");
        case AddServer(_) => return CmdResult(true, "", "");
        case RemoveServer(_) => return CmdResult(true, "", "");
      }
    }
  }
}
