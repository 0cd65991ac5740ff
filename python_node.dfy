/**
 * The Python node of the mixed-language dataflow example: it asks the node
 * runtime for at most 100 events, answers every `INPUT` event with one output
 * on port `random`, and leaves the loop at the first `STOP` event or at the
 * first event of any other type.
 */
module PythonNode {
  import opened Wrappers

  /** The `metadata` entry of an event: passed through unchanged. */
  datatype Metadata = Metadata(entries: map<string, string>)

  /** An event as the Python API hands it over: its `type` string and its `metadata`. */
  datatype PyEvent = PyEvent(kind: string, metadata: Metadata)

  /** One `send_output(port, data, metadata)` call. */
  datatype Output = Output(port: string, data: string, metadata: Metadata)

  const MaxEvents: nat := 100
  const InputKind: string := "INPUT"
  const StopKind: string := "STOP"

  /** How the script leaves its loop. */
  datatype LoopEnd =
    | StopReceived                     // a `STOP` event: "received stop", break
    | UnexpectedEvent(kind: string)    // any other type: "received unexpected event", break
    | BudgetSpent                      // `range(100)` is exhausted
    | NextReturnedNone                 // the stream ended: `event["type"]` on `None` raises

  /** The output the script sends for an `INPUT` event. */
  function Respond(e: PyEvent): (o: Output)
    ensures o.port == "random" && o.data == "random" && o.metadata == e.metadata
  {
    Output("random", "random", e.metadata)
  }

  /** What one run of the loop does: how many events it requests, what it sends, how it ends. */
  datatype ScriptRun = ScriptRun(requested: nat, outputs: seq<Output>, end: LoopEnd)

  /**
   * The loop run over the events the runtime will deliver, with `budget`
   * iterations left.
   */
  function RunScript(events: seq<PyEvent>, budget: nat): (r: ScriptRun)
    decreases budget
  {
    if budget == 0 then ScriptRun(0, [], BudgetSpent)
    else if events == [] then ScriptRun(1, [], NextReturnedNone)
    else
      var e := events[0];
      if e.kind == InputKind then
        var rest := RunScript(events[1..], budget - 1);
        ScriptRun(rest.requested + 1, [Respond(e)] + rest.outputs, rest.end)
      else if e.kind == StopKind then ScriptRun(1, [], StopReceived)
      else ScriptRun(1, [], UnexpectedEvent(e.kind))
  }

  /**
   * What every run satisfies: at most `budget` events are requested; the
   * outputs answer the first events one by one, each of which was an
   * `INPUT`; a run that breaks requested exactly one event more than it
   * answered, and that event is the `STOP`, the unexpected one, or the
   * `None` after the last event; nothing is requested after the break.
   */
  lemma {:induction false} RunScriptShape(events: seq<PyEvent>, budget: nat)
    ensures var r := RunScript(events, budget);
      && r.requested <= budget
      && (if r.end.NextReturnedNone? then r.requested == |events| + 1 else r.requested <= |events|)
      && (r.end.BudgetSpent? <==> r.requested == budget && |r.outputs| == budget)
      && |r.outputs| == (if r.end.BudgetSpent? then r.requested else r.requested - 1)
      && (forall i :: 0 <= i < |r.outputs| ==> events[i].kind == InputKind && r.outputs[i] == Respond(events[i]))
      && (r.end.StopReceived? ==> events[r.requested - 1].kind == StopKind)
      && (r.end.UnexpectedEvent? ==>
            var k := events[r.requested - 1].kind; k == r.end.kind && k != InputKind && k != StopKind)
    decreases budget
  {
    if budget > 0 && events != [] && events[0].kind == InputKind {
      RunScriptShape(events[1..], budget - 1);
    }
  }

  /**
   * The loop stops at the first `STOP` event: when every event before
   * position `j` is an input and `j` is within the budget, the run ends
   * there, having sent one output per earlier event and requested nothing
   * after the `STOP`.
   */
  lemma {:induction false} StopsAtFirstStop(events: seq<PyEvent>, budget: nat, j: nat)
    requires j < |events| && j < budget
    requires events[j].kind == StopKind
    requires forall i :: 0 <= i < j ==> events[i].kind == InputKind
    ensures RunScript(events, budget).end == StopReceived
    ensures RunScript(events, budget).requested == j + 1
    ensures |RunScript(events, budget).outputs| == j
    decreases j
  {
    if j > 0 {
      StopsAtFirstStop(events[1..], budget - 1, j - 1);
    }
    RunScriptShape(events, budget);
  }

  /** The handle the script gets from `Node()`: the runtime's events and what the script sent. */
  class Node {
    /** Events the runtime has not yet handed out; `next()` returns `None` after them. */
    var pending: seq<PyEvent>
    /** Number of `next()` calls so far. */
    var requested: nat
    /** `send_output` calls so far, in order. */
    var sent: seq<Output>

    constructor (events: seq<PyEvent>)
      ensures pending == events && requested == 0 && sent == []
    {
      pending := events;
      requested := 0;
      sent := [];
    }

    method Next() returns (e: Option<PyEvent>)
      modifies this
      ensures requested == old(requested) + 1 && sent == old(sent)
      ensures old(pending) == [] ==> e == None && pending == []
      ensures old(pending) != [] ==> e == Some(old(pending)[0]) && pending == old(pending)[1..]
    {
      requested := requested + 1;
      if pending == [] {
        e := None;
      } else {
        e := Some(pending[0]);
        pending := pending[1..];
      }
    }

    method SendOutput(port: string, data: string, metadata: Metadata)
      modifies this
      ensures sent == old(sent) + [Output(port, data, metadata)]
      ensures pending == old(pending) && requested == old(requested)
    {
      sent := sent + [Output(port, data, metadata)];
    }
  }

  /** A run that follows `requested` answered requests which produced `sent`. */
  function After(requested: nat, sent: seq<Output>, r: ScriptRun): ScriptRun {
    ScriptRun(requested + r.requested, sent + r.outputs, r.end)
  }

  /** Answering an `INPUT` moves one event and one output from the rest of the run to what is done. */
  lemma AfterInput(requested: nat, sent: seq<Output>, events: seq<PyEvent>, budget: nat)
    requires budget > 0 && events != [] && events[0].kind == InputKind
    ensures After(requested, sent, RunScript(events, budget))
      == After(requested + 1, sent + [Respond(events[0])], RunScript(events[1..], budget - 1))
  {
    var t := RunScript(events[1..], budget - 1);
    assert sent + ([Respond(events[0])] + t.outputs) == (sent + [Respond(events[0])]) + t.outputs;
  }

  /** The events left after `n` calls to `next()`. */
  function Unrequested(events: seq<PyEvent>, n: nat): seq<PyEvent> {
    if n <= |events| then events[n..] else []
  }

  /** A request that is not an `INPUT` ends the run with the outputs sent so far. */
  lemma BreakAt(events: seq<PyEvent>, i: nat, sent: seq<Output>, budget: nat)
    requires i <= |events| && budget > 0 && (i == |events| || events[i].kind != InputKind)
    ensures var r := After(i, sent, RunScript(events[i..], budget));
      && r.requested == i + 1 && r.outputs == sent
      && r.end == (if i == |events| then NextReturnedNone
                   else if events[i].kind == StopKind then StopReceived
                   else UnexpectedEvent(events[i].kind))
      && Unrequested(events, i + 1) == (if i == |events| then [] else events[i + 1..])
  {
    if i < |events| {
      assert events[i..][0] == events[i];
    }
    assert sent + [] == sent;
  }

  /** Once the budget is spent, the run ends as it stands. */
  lemma BudgetExit(events: seq<PyEvent>, i: nat, sent: seq<Output>)
    requires i <= |events|
    ensures After(i, sent, RunScript(events[i..], 0)) == ScriptRun(i, sent, BudgetSpent)
    ensures Unrequested(events, i) == events[i..]
  {
    assert sent + [] == sent;
  }

  /** The script's loop, `for i in range(budget)`. */
  method RunLoop(node: Node, budget: nat) returns (end: LoopEnd)
    modifies node
    ensures var r := RunScript(old(node.pending), budget);
      && end == r.end
      && node.requested == old(node.requested) + r.requested
      && node.sent == old(node.sent) + r.outputs
      && node.pending == Unrequested(old(node.pending), r.requested)
  {
    ghost var events := node.pending;
    ghost var done: seq<Output> := [];
    end := BudgetSpent;
    for i := 0 to budget
      invariant i <= |events| && node.pending == events[i..]
      invariant node.requested == old(node.requested) + i
      invariant node.sent == old(node.sent) + done
      invariant RunScript(events, budget) == After(i, done, RunScript(node.pending, budget - i))
    {
      ghost var rest := node.pending;
      var e := node.Next();
      if e.None? {
        BreakAt(events, i, done, budget - i);
        end := NextReturnedNone;
        return;
      }
      var event := e.value;
      if event.kind == InputKind {
        node.SendOutput("random", "random", event.metadata);
        AfterInput(i, done, rest, budget - i);
        done := done + [Respond(event)];
      } else if event.kind == StopKind {
        BreakAt(events, i, done, budget - i);
        end := StopReceived;
        return;
      } else {
        BreakAt(events, i, done, budget - i);
        end := UnexpectedEvent(event.kind);
        return;
      }
    }
    BudgetExit(events, budget, done);
  }

  /** The script: the loop with a budget of 100 events. */
  method RunPythonNode(node: Node) returns (end: LoopEnd)
    modifies node
    ensures var r := RunScript(old(node.pending), MaxEvents);
      && end == r.end
      && node.requested == old(node.requested) + r.requested
      && node.sent == old(node.sent) + r.outputs
      && node.pending == Unrequested(old(node.pending), r.requested)
  {
    end := RunLoop(node, MaxEvents);
  }
}
