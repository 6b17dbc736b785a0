/** Transcript cards and the order a log keeps them in. */
module Transcript {
  import opened Prelude
  import opened Json

  // A UUID: 128 opaque bits.
  type Id = nat

  datatype Kind =
    | User | Assistant | ToolCall | ToolResult | Permission | Input
    | Failure | Completion | System | CompactSummary | ToolResultElision

  datatype Entry = Entry(
    entryId: Id,
    sequence: U64,
    turnId: Option<Id>,
    kind: Kind,
    text: string,
    payload: Option<Value>,
    sourceKey: string,
    createdAtMs: U64)

  // Sequences start at 1 and rise strictly.
  ghost predicate Increasing(entries: seq<Entry>) {
    && (forall i :: 0 <= i < |entries| ==> entries[i].sequence > 0)
    && (forall i, j :: 0 <= i < j < |entries| ==> entries[i].sequence < entries[j].sequence)
  }

  function LastSequence(entries: seq<Entry>): U64 {
    if entries == [] then 0 else entries[|entries| - 1].sequence
  }

  function After(entries: seq<Entry>, sequence: nat): seq<Entry> {
    if entries == [] then []
    else if entries[0].sequence > sequence then [entries[0]] + After(entries[1..], sequence)
    else After(entries[1..], sequence)
  }
}
