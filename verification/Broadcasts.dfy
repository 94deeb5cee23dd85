/** What the two gated runners may send to a chain, and the traces a run may leave. */
module Broadcasts {
  /** A send that was attempted, whether or not the node confirmed it. */
  datatype Broadcast =
    | Swap
    | Approve(amount: int)
    | Bridge(amount: int)
    | EmptyCall // to the bridge, without calldata

  predicate ToBridge(b: Broadcast) { b.Bridge? || b.EmptyCall? }

  /** Nothing; a swap; then possibly an exact approval of its output; then possibly the deposit. */
  predicate Allowed(trace: seq<Broadcast>, output: int) {
    || trace == []
    || trace == [Swap]
    || trace == [Swap, Approve(output)]
    || (|trace| == 2 && trace[0] == Swap && ToBridge(trace[1]))
    || (|trace| == 3 && trace[0] == Swap && trace[1] == Approve(output) && ToBridge(trace[2]))
  }

  function Last(trace: seq<Broadcast>): Broadcast
    requires trace != []
  {
    trace[|trace|-1]
  }

  predicate HasBridge(trace: seq<Broadcast>) { trace != [] && ToBridge(Last(trace)) }

  predicate HasApproval(trace: seq<Broadcast>) { |trace| >= 2 && trace[1].Approve? }
}
