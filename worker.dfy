/**
 * The entry point that takes the next pending submission: when the pending
 * backlog is empty it returns without doing anything; otherwise it hands the
 * front entry's number to a judging task and deletes that entry.
 * The backlog store is modelled as a sequence, oldest first, whose front is
 * the entry returned and whose delete removes that same entry.
 */
module Worker {

  /** One invocation: nothing to do, or the number handed to judging and the backlog left. */
  datatype Step = Idle | Dispatched(number: nat, rest: seq<nat>)

  /** Take the front of the backlog, if there is one, and delete it. */
  function TakePending(backlog: seq<nat>): (s: Step)
    ensures s == Idle <==> backlog == []
    ensures s.Dispatched? ==> backlog == [s.number] + s.rest
  {
    if backlog == [] then Idle else Dispatched(backlog[0], backlog[1..])
  }

  /** The numbers handed to judging by invoking the entry point until it goes idle. */
  function DispatchOrder(backlog: seq<nat>): seq<nat>
    decreases |backlog|
  {
    match TakePending(backlog)
    case Idle => []
    case Dispatched(n, rest) => [n] + DispatchOrder(rest)
  }

  /** Every pending entry is handed to judging exactly once, oldest first. */
  lemma {:induction false} DispatchOrderIsFifo(backlog: seq<nat>)
    ensures DispatchOrder(backlog) == backlog
    decreases |backlog|
  {
    if backlog != [] {
      DispatchOrderIsFifo(backlog[1..]);
    }
  }
}
