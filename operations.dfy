/**
 * Long-running provider operations and the pure core of every
 * `waitForOperation` loop of the scheduler.
 *
 * The provider is an oracle that answers each call returning an operation
 * (a start, stop, patch or resize, and every re-fetch of an operation) with
 * the next record of a script. Once the script is used up it answers with
 * a finished operation: this is the hypothesis that every operation
 * eventually reaches "DONE", without which the source polls for ever.
 */
module Operations {

  /** The only status the pollers treat as finished. */
  const Done: string := "DONE"

  /**
   * An operation handle: its name, its status and, for compute, the zone
   * URL it runs in (empty where the provider reports none).
   */
  datatype Operation = Operation(name: string, status: string, zone: string)

  /** The answer once the script is exhausted. */
  const Completed: Operation := Operation("", Done, "")

  /** The operation the provider hands back next. */
  function Head(script: seq<Operation>): (op: Operation)
    ensures script == [] ==> op.status == Done
  {
    if script == [] then Completed else script[0]
  }

  /** The script after one answer. */
  function Tail(script: seq<Operation>): (rest: seq<Operation>)
    ensures |rest| == if script == [] then 0 else |script| - 1
  {
    if script == [] then [] else script[1..]
  }

  /** Decreases with every re-fetch of an unfinished operation. */
  function Measure(op: Operation, script: seq<Operation>): (r: nat)
  {
    |script| + (if op.status == Done then 0 else 1)
  }

  /**
   * The operations a poller starting from `op` looks at and finds
   * unfinished, in order: each one costs exactly one re-fetch.
   */
  function Polled(op: Operation, script: seq<Operation>): (r: seq<Operation>)
    decreases Measure(op, script)
  {
    if op.status == Done then [] else [op] + Polled(Head(script), Tail(script))
  }

  /** The script left once the poller has seen "DONE". */
  function Remaining(op: Operation, script: seq<Operation>): (r: seq<Operation>)
    decreases Measure(op, script)
  {
    if op.status == Done then script else Remaining(Head(script), Tail(script))
  }

  /**
   * The statuses a poller sees are `op` followed by the script (and the
   * implicit final "DONE"). It re-fetches exactly as many times as the index
   * of the first "DONE" in that sequence, so never when `op` is already
   * done, and it consumes that many script entries and no more.
   */
  lemma {:induction false} PollingStopsAtFirstDone(op: Operation, script: seq<Operation>)
    ensures var seen := [op] + script + [Completed];
            var k := |Polled(op, script)|;
            && k <= |script| + 1
            && Polled(op, script) == seen[..k]
            && seen[k].status == Done
            && (forall i :: 0 <= i < k ==> seen[i].status != Done)
            && (k == 0 <==> op.status == Done)
            && Remaining(op, script) == script[if k <= |script| then k else |script|..]
    decreases Measure(op, script)
  {
    var seen := [op] + script + [Completed];
    if op.status != Done {
      var next, rest := Head(script), Tail(script);
      PollingStopsAtFirstDone(next, rest);
      var seen' := [next] + rest + [Completed];
      var k' := |Polled(next, rest)|;
      assert Polled(op, script) == [op] + Polled(next, rest);
      assert Remaining(op, script) == Remaining(next, rest);
      if script == [] {
        assert k' == 0;
        assert seen == [op, Completed];
      } else {
        assert seen' == seen[1..];
        assert rest == script[1..];
        assert Polled(op, script) == seen[..k' + 1];
      }
    }
  }
}
