/** The record of what clients did and saw (src/harness/history.cpp). */
module History {
  import opened RaftTypes
  import opened Checker

  datatype HistoryEntry = HistoryEntry(
    clientId: nat, requestId: nat, kind: OpKind, key: string, value: string, expected: string,
    invoke: nat, ret: nat, response: string, ok: bool, pending: bool)

  function Invoked(clientId: nat, requestId: nat, kind: OpKind, key: string, now: nat, value: string, expected: string)
    : HistoryEntry
  {
    HistoryEntry(clientId, requestId, kind, key, value, expected, now, 0, "", false, true)
  }

  function Returned(e: HistoryEntry, now: nat, ok: bool, response: string): HistoryEntry {
    e.(ret := now, ok := ok, response := response, pending := false)
  }

  /** What the per-key checker sees of an entry. */
  function Op(e: HistoryEntry): KeyOp {
    KeyOp(e.kind, e.value, e.expected, e.invoke, e.ret, e.response, e.ok, e.pending)
  }
}
