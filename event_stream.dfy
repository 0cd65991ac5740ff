/**
 * The node side of the event stream between a dora node and its daemon.
 *
 * A background loop repeatedly asks the daemon for the next batch of events,
 * handing back the drop tokens of the shared-memory inputs the node has
 * finished with, and forwards each event to the node over a rendezvous
 * channel. `RecvCommon` turns what the node receives into the user-facing
 * `Event`.
 *
 * Channel operations, timeouts and the shared-memory mapping are inputs of
 * the model: for each forwarded event, a `Delivery` says whether the node
 * took the event and what then became of its acknowledgement channel.
 */
module EventStream {
  import opened Wrappers
  import opened Bytes

  type DropToken = nat
  type DataId = string
  type OperatorId = string

  /** Per-message metadata: passed through unchanged. */
  datatype Metadata = Metadata(entries: map<string, string>)

  /** Payload of an input as the daemon sends it. */
  datatype DaemonData =
    | Vec(bytes: seq<byte>)
    | SharedMemory(sharedMemoryId: string, len: nat, dropToken: DropToken)
  {
    /** Only shared-memory data must be reported back when the node drops it. */
    function DropTokenOf(): Option<DropToken> {
      match this
      case Vec(_) => None
      case SharedMemory(_, _, token) => Some(token)
    }
  }

  /** Events as the daemon sends them. */
  datatype NodeEvent =
    | Stop
    | Reload(operatorId: Option<OperatorId>)
    | InputClosed(id: DataId)
    | Input(id: DataId, metadata: Metadata, data: Option<DaemonData>)
    | AllInputsClosed
    | OutputDropped(dropToken: DropToken)
  {
    /** Events the background loop handles itself and never forwards. */
    predicate IsInternal() {
      AllInputsClosed? || OutputDropped?
    }
  }

  /** The sender half of the acknowledgement channel that goes with one forwarded event. */
  datatype AckChannel = AckChannel(id: nat)

  /** What the background loop puts on the channel to the node. */
  datatype EventItem =
    | NodeEventItem(event: NodeEvent, ackChannel: AckChannel)
    | FatalError(report: string)

  /** Payload of an input as the node sees it; mapped shared memory keeps the acknowledgement channel alive. */
  datatype Data =
    | VecData(bytes: seq<byte>)
    | SharedMemoryData(mapped: seq<byte>, drop: AckChannel)

  /** The user-facing event. */
  datatype Event =
    | Stop
    | Reload(operatorId: Option<OperatorId>)
    | InputClosed(id: DataId)
    | Input(id: DataId, metadata: Metadata, data: Option<Data>)
    | Error(message: string)

  /** A receive on the node's end of the event channel. */
  datatype Received = Received(item: EventItem) | Disconnected

  /** The text of `Event::Error` for an internal event that reached the node: the outermost context of the report. */
  const InternalErrorText: string := "internal error"
  const FatalErrorPrefix: string := "fatal event stream error: "

  /**
   * `recv_common`: translates what the node receives into its `Event`.
   * `mapShm` stands for mapping a shared-memory region, which may fail with
   * an error text.
   */
  function RecvCommon(received: Received, mapShm: (string, nat) -> Result<seq<byte>, string>): (r: Option<Event>)
    ensures r.None? <==> received.Disconnected?
    ensures r.Some? && r.value.Error? <==>
      && received.Received?
      && (|| received.item.FatalError?
          || received.item.event.IsInternal()
          || (received.item.event.Input? && received.item.event.data.Some?
              && received.item.event.data.value.SharedMemory?
              && mapShm(received.item.event.data.value.sharedMemoryId, received.item.event.data.value.len).Err?))
    ensures r.Some? && received.item.FatalError? ==> r.value.message == FatalErrorPrefix + received.item.report
    ensures r.Some? && received.item.NodeEventItem? && received.item.event.IsInternal() ==>
      r.value == Event.Error(InternalErrorText)
  {
    match received
    case Disconnected => None
    case Received(FatalError(report)) => Some(Event.Error(FatalErrorPrefix + report))
    case Received(NodeEventItem(event, ackChannel)) =>
      Some(match event
        case Stop => Event.Stop
        case Reload(operatorId) => Event.Reload(operatorId)
        case InputClosed(id) => Event.InputClosed(id)
        case Input(id, metadata, data) =>
          (match data
           case None => Event.Input(id, metadata, None)
           case Some(Vec(v)) => Event.Input(id, metadata, Some(VecData(v)))
           case Some(SharedMemory(shmId, len, _)) =>
             match mapShm(shmId, len)
             case Ok(mapped) => Event.Input(id, metadata, Some(SharedMemoryData(mapped, ackChannel)))
             case Err(text) => Event.Error(text))
        case AllInputsClosed => Event.Error(InternalErrorText)
        case OutputDropped(_) => Event.Error(InternalErrorText))
  }

  /** `Stop`, `Reload` and `InputClosed` reach the node as the same-named event with the same fields. */
  lemma ControlEventsPassThrough(event: NodeEvent, ack: AckChannel, mapShm: (string, nat) -> Result<seq<byte>, string>)
    requires event.Stop? || event.Reload? || event.InputClosed?
    ensures var r := RecvCommon(Received(NodeEventItem(event, ack)), mapShm).value;
      && (event.Stop? ==> r.Stop?)
      && (event.Reload? ==> r == Event.Reload(event.operatorId))
      && (event.InputClosed? ==> r == Event.InputClosed(event.id))
  {
  }

  /**
   * An input without data or with inline data reaches the node with the same
   * id, metadata and bytes; shared-memory data reaches it as the mapped region
   * together with the event's acknowledgement channel, unless mapping fails.
   */
  lemma InputsPassThrough(id: DataId, metadata: Metadata, data: Option<DaemonData>, ack: AckChannel,
                          mapShm: (string, nat) -> Result<seq<byte>, string>)
    ensures var r := RecvCommon(Received(NodeEventItem(NodeEvent.Input(id, metadata, data), ack)), mapShm).value;
      match data
      case None => r == Event.Input(id, metadata, None)
      case Some(Vec(v)) => r == Event.Input(id, metadata, Some(VecData(v)))
      case Some(SharedMemory(shmId, len, _)) =>
        if mapShm(shmId, len).Ok? then r == Event.Input(id, metadata, Some(SharedMemoryData(mapShm(shmId, len).value, ack)))
        else r.Error?
  {
  }

  // ---------------------------------------------------------------------
  // The background loop
  // ---------------------------------------------------------------------

  /** What became of the acknowledgement channel of a forwarded event within the 30-second wait. */
  datatype Ack =
    | AckMessage        // something was sent on it: a protocol violation
    | AckTimeout        // still open after the wait: the drop token is leaked
    | AckDisconnected   // the node dropped the event

  /**
   * The environment's side of one event of a batch. For an event that is
   * forwarded, `sent` says whether the node's end of the event channel took
   * it and `ack` what then became of the acknowledgement channel; for an
   * `OutputDropped` event, `sent` says whether the finished-drop-token
   * channel took the token. Events that are not sent ignore both.
   */
  datatype Delivery = Delivery(sent: bool, ack: Ack)

  datatype Arrival = Arrival(event: NodeEvent, delivery: Delivery)

  /** The outcome of one `NextEvent` request to the daemon. */
  datatype Reply =
    | NextEvents(events: seq<Arrival>)
    | UnexpectedReply      // any other `DaemonReply`: logged, the loop asks again
    | RequestFailed        // the request itself failed: logged, the loop asks again

  const AckChannelUsed: string := "Node API should not send anything on ACK channel"

  /** How the loop ends. */
  datatype LoopResult =
    | Finished                 // `Ok(())`: the daemon closed the stream or the node hung up
    | Failed(report: string)   // `Err(report)`
    | Unfinished               // the modelled replies ran out while the loop was still asking

  /**
   * The loop's variables: whether `tx` is still `Some`, the pending drop
   * tokens, the tokens handed to the finished-drop-token channel, the items
   * the node took from the event channel, and the `drop_tokens` of every
   * `NextEvent` request sent.
   */
  datatype LoopState = LoopState(
    txOpen: bool,
    dropTokens: seq<DropToken>,
    finished: seq<DropToken>,
    delivered: seq<EventItem>,
    requests: seq<seq<DropToken>>)

  const Initial := LoopState(true, [], [], [], [])

  datatype Control = Continue | Break(result: LoopResult)

  datatype BatchOutcome = BatchOutcome(state: LoopState, control: Control)

  /** The drop token a forwarded event carries: that of its shared-memory data. */
  function TokenOf(event: NodeEvent): Option<DropToken> {
    match event
    case Input(_, _, Some(data)) => data.DropTokenOf()
    case _ => None
  }

  /** One event of a batch, from the loop's point of view. */
  function Step(s: LoopState, a: Arrival): (o: BatchOutcome) {
    match a.event
    case AllInputsClosed => BatchOutcome(s.(txOpen := false), Continue)
    case OutputDropped(token) =>
      BatchOutcome(if a.delivery.sent then s.(finished := s.finished + [token]) else s, Continue)
    case _ =>
      if !s.txOpen then BatchOutcome(s, Continue)
      else if !a.delivery.sent then BatchOutcome(s, Break(Finished))
      else
        var s1 := s.(delivered := s.delivered + [NodeEventItem(a.event, AckChannel(|s.delivered|))]);
        match a.delivery.ack
        case AckMessage => BatchOutcome(s1, Break(Failed(AckChannelUsed)))
        case AckTimeout => BatchOutcome(s1, Continue)
        case AckDisconnected =>
          var token := TokenOf(a.event);
          BatchOutcome(if token.Some? then s1.(dropTokens := s1.dropTokens + [token.value]) else s1, Continue)
  }

  /** The inner `for event in events` loop over one batch. */
  function Batch(s: LoopState, events: seq<Arrival>): (o: BatchOutcome)
    decreases |events|
  {
    if events == [] then BatchOutcome(s, Continue)
    else
      var o := Step(s, events[0]);
      if o.control.Break? then o else Batch(o.state, events[1..])
  }

  datatype RunOutcome = RunOutcome(state: LoopState, result: LoopResult)

  /** The `'outer` loop over the daemon's replies. */
  function Run(s: LoopState, replies: seq<Reply>): (o: RunOutcome)
    decreases |replies|
  {
    if replies == [] then RunOutcome(s, Unfinished)
    else
      var s1 := s.(requests := s.requests + [s.dropTokens], dropTokens := []);
      match replies[0]
      case NextEvents(events) =>
        if events == [] then RunOutcome(s1, Finished)
        else
          var b := Batch(s1, events);
          if b.control.Break? then RunOutcome(b.state, b.control.result)
          else Run(b.state, replies[1..])
      case UnexpectedReply => Run(s1, replies[1..])
      case RequestFailed => Run(s1, replies[1..])
  }

  /** After the loop: an error is reported to the node as `FatalError` only while `tx` is open. */
  function Report(o: RunOutcome, fatalSent: bool): (s: LoopState) {
    if o.result.Failed? && o.state.txOpen && fatalSent then
      o.state.(delivered := o.state.delivered + [FatalError(o.result.report)])
    else o.state
  }

  /** The whole background thread, from the initial state. */
  function EventLoop(replies: seq<Reply>, fatalSent: bool): (o: RunOutcome) {
    var r := Run(Initial, replies);
    RunOutcome(Report(r, fatalSent), r.result)
  }

  // ---------------------------------------------------------------------
  // Properties of the loop
  // ---------------------------------------------------------------------

  /** Processing a batch in two parts is processing it whole, unless the first part breaks the loop. */
  lemma {:induction false} BatchSplit(s: LoopState, a: seq<Arrival>, b: seq<Arrival>)
    ensures Batch(s, a + b) == if Batch(s, a).control.Break? then Batch(s, a) else Batch(Batch(s, a).state, b)
    decreases |a|
  {
    if a == [] {
      assert a + b == b;
    } else {
      assert (a + b)[1..] == a[1..] + b;
      var o := Step(s, a[0]);
      if o.control.Continue? {
        BatchSplit(o.state, a[1..], b);
      }
    }
  }

  /** Once `tx` is closed, no event of a batch is forwarded, no drop token is collected, and the loop goes on. */
  lemma {:induction false} ClosedStreamDeliversNothing(s: LoopState, events: seq<Arrival>)
    requires !s.txOpen
    ensures var o := Batch(s, events);
      && o.control == Continue
      && !o.state.txOpen
      && o.state.delivered == s.delivered
      && o.state.dropTokens == s.dropTokens
    decreases |events|
  {
    if events != [] {
      ClosedStreamDeliversNothing(Step(s, events[0]).state, events[1..]);
    }
  }

  /**
   * `AllInputsClosed` closes `tx` for good: whatever the batch forwards, it
   * forwards before that event, and a batch that goes on ends with `tx` closed.
   */
  lemma AllInputsClosedCutsOff(s: LoopState, events: seq<Arrival>, k: nat)
    requires k < |events| && events[k].event.AllInputsClosed?
    ensures Batch(s, events).state.delivered == Batch(s, events[..k]).state.delivered
    ensures Batch(s, events).control.Continue? ==> !Batch(s, events).state.txOpen
  {
    assert events == events[..k] + events[k..];
    BatchSplit(s, events[..k], events[k..]);
    var p := Batch(s, events[..k]);
    if p.control.Continue? {
      var closed := Step(p.state, events[k]).state;
      assert events[k..][1..] == events[k + 1..];
      ClosedStreamDeliversNothing(closed, events[k + 1..]);
    }
  }

  /**
   * Once `tx` is closed, no later batch forwards anything either, and the
   * loop cannot fail any more: it ends when the daemon closes the stream.
   */
  lemma {:induction false} ClosedRunDeliversNothing(s: LoopState, replies: seq<Reply>)
    requires !s.txOpen
    ensures Run(s, replies).state.delivered == s.delivered
    ensures !Run(s, replies).state.txOpen
    ensures Run(s, replies).result == Finished || Run(s, replies).result == Unfinished
    decreases |replies|
  {
    if replies != [] {
      var s1 := s.(requests := s.requests + [s.dropTokens], dropTokens := []);
      if replies[0].NextEvents? && replies[0].events != [] {
        ClosedStreamDeliversNothing(s1, replies[0].events);
        ClosedRunDeliversNothing(Batch(s1, replies[0].events).state, replies[1..]);
      } else if !replies[0].NextEvents? {
        ClosedRunDeliversNothing(s1, replies[1..]);
      }
    }
  }

  /**
   * The items on the event channel before the final report: every one is a
   * daemon event that is not internal, and each has its own acknowledgement
   * channel.
   */
  ghost predicate Forwarded(d: seq<EventItem>) {
    forall i | 0 <= i < |d| :: d[i].NodeEventItem? && !d[i].event.IsInternal() && d[i].ackChannel == AckChannel(i)
  }

  lemma {:induction false} BatchForwards(s: LoopState, events: seq<Arrival>)
    requires Forwarded(s.delivered)
    ensures Forwarded(Batch(s, events).state.delivered)
    decreases |events|
  {
    if events != [] {
      BatchForwards(Step(s, events[0]).state, events[1..]);
    }
  }

  lemma {:induction false} RunForwards(s: LoopState, replies: seq<Reply>)
    requires Forwarded(s.delivered)
    ensures Forwarded(Run(s, replies).state.delivered)
    decreases |replies|
  {
    if replies != [] {
      var s1 := s.(requests := s.requests + [s.dropTokens], dropTokens := []);
      if replies[0].NextEvents? && replies[0].events != [] {
        BatchForwards(s1, replies[0].events);
        RunForwards(Batch(s1, replies[0].events).state, replies[1..]);
      } else if !replies[0].NextEvents? {
        RunForwards(s1, replies[1..]);
      }
    }
  }

  /**
   * What the node receives over the whole run: `AllInputsClosed` and
   * `OutputDropped` never; a `FatalError` only as the very last item, only
   * for a loop that failed, and only while `tx` was still open.
   */
  lemma NodeNeverSeesInternalEvents(replies: seq<Reply>, fatalSent: bool)
    ensures var o := EventLoop(replies, fatalSent);
      var d := o.state.delivered;
      forall i | 0 <= i < |d| ::
        if d[i].FatalError? then
          i == |d| - 1 && o.result.Failed? && fatalSent && Run(Initial, replies).state.txOpen
        else !d[i].event.IsInternal() && d[i].ackChannel == AckChannel(i)
  {
    RunForwards(Initial, replies);
  }

  /** Translated by `RecvCommon`, no item the loop forwards becomes the internal-error event. */
  lemma ForwardedEventsAreNotInternalErrors(replies: seq<Reply>, fatalSent: bool, mapShm: (string, nat) -> Result<seq<byte>, string>, i: nat)
    requires i < |EventLoop(replies, fatalSent).state.delivered|
    ensures var item := EventLoop(replies, fatalSent).state.delivered[i];
      var r := RecvCommon(Received(item), mapShm).value;
      r.Error? ==> item.FatalError? || (item.event.Input? && item.event.data.Some? && item.event.data.value.SharedMemory?)
  {
    NodeNeverSeesInternalEvents(replies, fatalSent);
  }

  /** The tokens of the `OutputDropped` events whose token the finished-drop-token channel took. */
  function ReportedTokens(events: seq<Arrival>): (tokens: seq<DropToken>)
    ensures |tokens| <= |events|
  {
    if events == [] then []
    else
      var a := events[0];
      (if a.event.OutputDropped? && a.delivery.sent then [a.event.dropToken] else []) + ReportedTokens(events[1..])
  }

  /** In a batch that does not break the loop, every `OutputDropped` token goes to the finished-drop-token channel, in order. */
  lemma {:induction false} OutputDroppedIsReported(s: LoopState, events: seq<Arrival>)
    requires Batch(s, events).control.Continue?
    ensures Batch(s, events).state.finished == s.finished + ReportedTokens(events)
    decreases |events|
  {
    if events != [] {
      OutputDroppedIsReported(Step(s, events[0]).state, events[1..]);
    }
  }

  /** The drop tokens of the forwarded events whose acknowledgement channel the node dropped. */
  function CollectedTokens(events: seq<Arrival>): (tokens: seq<DropToken>)
    ensures |tokens| <= |events|
  {
    if events == [] then []
    else
      var a := events[0];
      var token := TokenOf(a.event);
      (if !a.event.IsInternal() && a.delivery.ack == AckDisconnected && token.Some? then [token.value] else [])
        + CollectedTokens(events[1..])
  }

  /**
   * While `tx` stays open and the batch does not break the loop, the pending
   * tokens grow by exactly the tokens of the events the node dropped; a
   * timed-out event's token is leaked, and events without shared memory carry none.
   */
  lemma {:induction false} DropTokensCollectedOnDisconnect(s: LoopState, events: seq<Arrival>)
    requires s.txOpen
    requires forall k | 0 <= k < |events| :: !events[k].event.AllInputsClosed?
    requires Batch(s, events).control.Continue?
    ensures Batch(s, events).state.dropTokens == s.dropTokens + CollectedTokens(events)
    decreases |events|
  {
    if events != [] {
      var o := Step(s, events[0]);
      StepCollects(s, events[0]);
      DropTokensCollectedOnDisconnect(o.state, events[1..]);
      CollectedTokensSplit(events);
      assert s.dropTokens + CollectedTokens(events)
        == (s.dropTokens + CollectedTokens([events[0]])) + CollectedTokens(events[1..]);
    }
  }

  lemma CollectedTokensSplit(events: seq<Arrival>)
    requires events != []
    ensures CollectedTokens(events) == CollectedTokens([events[0]]) + CollectedTokens(events[1..])
  {
    assert [events[0]][1..] == [];
  }

  /** One step of `DropTokensCollectedOnDisconnect`. */
  lemma StepCollects(s: LoopState, a: Arrival)
    requires s.txOpen && !a.event.AllInputsClosed? && Step(s, a).control.Continue?
    ensures Step(s, a).state.txOpen
    ensures Step(s, a).state.dropTokens == s.dropTokens + CollectedTokens([a])
  {
    assert [a][1..] == [];
  }

  lemma {:induction false} BatchKeepsRequests(s: LoopState, events: seq<Arrival>)
    ensures Batch(s, events).state.requests == s.requests
    decreases |events|
  {
    if events != [] {
      BatchKeepsRequests(Step(s, events[0]).state, events[1..]);
    }
  }

  /** Requests once sent stay in the record: the loop only appends to it. */
  lemma {:induction false} RunKeepsRequests(s: LoopState, replies: seq<Reply>)
    ensures var r := Run(s, replies).state.requests;
      |r| >= |s.requests| && r[..|s.requests|] == s.requests
    decreases |replies|
  {
    if replies != [] {
      var s1 := s.(requests := s.requests + [s.dropTokens], dropTokens := []);
      var next := s1;
      if replies[0].NextEvents? && replies[0].events != [] {
        BatchKeepsRequests(s1, replies[0].events);
        next := Batch(s1, replies[0].events).state;
      }
      if replies[0].NextEvents? && replies[0].events == [] {
      } else if replies[0].NextEvents? && Batch(s1, replies[0].events).control.Break? {
      } else {
        RunKeepsRequests(next, replies[1..]);
        var r := Run(next, replies[1..]).state.requests;
        assert r[..|s.requests|] == r[..|s1.requests|][..|s.requests|];
      }
    }
  }

  /**
   * Every `NextEvent` request carries all the drop tokens pending when it is
   * sent (`mem::take`), and the loop asks again after any reply that is not a
   * non-empty batch or that does not break the loop.
   */
  lemma RequestCarriesPendingTokens(s: LoopState, replies: seq<Reply>)
    requires replies != []
    ensures var r := Run(s, replies).state.requests;
      |r| > |s.requests| && r[..|s.requests|] == s.requests && r[|s.requests|] == s.dropTokens
  {
    var s1 := s.(requests := s.requests + [s.dropTokens], dropTokens := []);
    var next := s1;
    if replies[0].NextEvents? && replies[0].events != [] {
      BatchKeepsRequests(s1, replies[0].events);
      next := Batch(s1, replies[0].events).state;
    }
    RunKeepsRequests(next, replies[1..]);
    var r := Run(s, replies).state.requests;
    assert r[..|s1.requests|] == s1.requests;
    assert r[..|s.requests|] == r[..|s1.requests|][..|s.requests|];
    assert r[|s.requests|] == r[..|s1.requests|][|s.requests|];
  }

  /** An empty batch ends the loop successfully; any other reply that is not a batch makes it ask again. */
  lemma ReplyOutcomes(s: LoopState, reply: Reply, rest: seq<Reply>)
    ensures var s1 := s.(requests := s.requests + [s.dropTokens], dropTokens := []);
      && (reply == NextEvents([]) ==> Run(s, [reply] + rest) == RunOutcome(s1, Finished))
      && (!reply.NextEvents? ==> Run(s, [reply] + rest) == Run(s1, rest))
  {
    assert ([reply] + rest)[1..] == rest;
  }

  /**
   * `mem::take` empties the pending list: the request after a batch carries
   * exactly the tokens collected during that batch, and the request after any
   * other reply carries none.
   */
  lemma PendingTokensTaken(s: LoopState, reply: Reply, next: Reply, rest: seq<Reply>)
    requires reply.NextEvents? ==>
      && reply.events != [] && s.txOpen
      && (forall k | 0 <= k < |reply.events| :: !reply.events[k].event.AllInputsClosed?)
      && Batch(s.(requests := s.requests + [s.dropTokens], dropTokens := []), reply.events).control.Continue?
    ensures var r := Run(s, [reply, next] + rest).state.requests;
      && |r| > |s.requests| + 1
      && r[|s.requests|] == s.dropTokens
      && r[|s.requests| + 1] == (if reply.NextEvents? then CollectedTokens(reply.events) else [])
  {
    var s1 := s.(requests := s.requests + [s.dropTokens], dropTokens := []);
    assert [reply, next] + rest == [reply] + ([next] + rest);
    RunAfterReply(s, reply, [next] + rest);
    if reply.NextEvents? {
      DropTokensCollectedOnDisconnect(s1, reply.events);
      BatchKeepsRequests(s1, reply.events);
      TakenAfter(s, Batch(s1, reply.events).state, [next] + rest);
    } else {
      TakenAfter(s, s1, [next] + rest);
    }
  }

  /** The bookkeeping of `PendingTokensTaken`, once the first reply is handled. */
  lemma TakenAfter(s: LoopState, after: LoopState, tail: seq<Reply>)
    requires after.requests == s.requests + [s.dropTokens] && tail != []
    ensures var r := Run(after, tail).state.requests;
      && |r| > |s.requests| + 1
      && r[|s.requests|] == s.dropTokens
      && r[|s.requests| + 1] == after.dropTokens
  {
    RequestCarriesPendingTokens(after, tail);
    var r := Run(after, tail).state.requests;
    assert r[|s.requests|] == r[..|after.requests|][|s.requests|];
  }

  /** A reply that neither ends nor breaks the loop leaves it asking again from the state after that reply. */
  lemma RunAfterReply(s: LoopState, reply: Reply, tail: seq<Reply>)
    requires reply.NextEvents? ==>
      reply.events != [] && Batch(s.(requests := s.requests + [s.dropTokens], dropTokens := []), reply.events).control.Continue?
    ensures var s1 := s.(requests := s.requests + [s.dropTokens], dropTokens := []);
      Run(s, [reply] + tail) == Run(if reply.NextEvents? then Batch(s1, reply.events).state else s1, tail)
  {
    assert ([reply] + tail)[0] == reply && ([reply] + tail)[1..] == tail;
  }

  /** A message on the acknowledgement channel of a forwarded event is a fatal error that breaks the loop. */
  lemma AckMessageIsFatal(s: LoopState, a: Arrival)
    requires s.txOpen && !a.event.IsInternal() && a.delivery.sent && a.delivery.ack == AckMessage
    ensures Step(s, a).control == Break(Failed(AckChannelUsed))
    ensures Step(s, a).state == s.(delivered := s.delivered + [NodeEventItem(a.event, AckChannel(|s.delivered|))])
  {
  }

  /** The same within a batch: the batch breaks at that event with the error, `tx` still open. */
  lemma AckMessageFailsBatch(s: LoopState, events: seq<Arrival>, k: nat)
    requires k < |events| && Batch(s, events[..k]).control.Continue? && Batch(s, events[..k]).state.txOpen
    requires var a := events[k]; !a.event.IsInternal() && a.delivery.sent && a.delivery.ack == AckMessage
    ensures Batch(s, events).control == Break(Failed(AckChannelUsed))
    ensures Batch(s, events).state.txOpen
  {
    assert events == events[..k] + events[k..];
    BatchSplit(s, events[..k], events[k..]);
    assert events[k..][0] == events[k];
    AckMessageIsFatal(Batch(s, events[..k]).state, events[k]);
  }

  /**
   * And for the whole thread: when the first batch reaches, with `tx` open,
   * an event whose acknowledgement channel receives a message, the loop
   * fails with that error, and a node that still listens gets it as the
   * last item.
   */
  lemma AckMessageEndsLoop(events: seq<Arrival>, k: nat, rest: seq<Reply>)
    requires k < |events|
    requires Batch(Initial.(requests := [[]]), events[..k]).control.Continue?
    requires Batch(Initial.(requests := [[]]), events[..k]).state.txOpen
    requires var a := events[k]; !a.event.IsInternal() && a.delivery.sent && a.delivery.ack == AckMessage
    ensures var o := EventLoop([NextEvents(events)] + rest, true);
      && o.result == Failed(AckChannelUsed)
      && |o.state.delivered| > 0
      && o.state.delivered[|o.state.delivered| - 1] == FatalError(AckChannelUsed)
  {
    var s1 := Initial.(requests := Initial.requests + [Initial.dropTokens], dropTokens := []);
    assert s1 == Initial.(requests := [[]]);
    AckMessageFailsBatch(s1, events, k);
    assert ([NextEvents(events)] + rest)[0] == NextEvents(events);
  }

  // ---------------------------------------------------------------------
  // What reaches the node
  // ---------------------------------------------------------------------

  /** Whether a batch holds an `AllInputsClosed` event. */
  predicate Closes(events: seq<Arrival>) {
    exists k | 0 <= k < |events| :: events[k].event.AllInputsClosed?
  }

  /**
   * The items a batch forwards while `tx` is open and the node takes every
   * event, with acknowledgement channels numbered from `n`: each event that
   * is not internal, in order, and nothing from the first `AllInputsClosed` on.
   */
  function ForwardedItems(events: seq<Arrival>, n: nat): (items: seq<EventItem>)
    ensures |items| <= |events|
    ensures forall i | 0 <= i < |items| ::
      items[i].NodeEventItem? && !items[i].event.IsInternal() && items[i].ackChannel == AckChannel(n + i)
    decreases |events|
  {
    if events == [] || events[0].event.AllInputsClosed? then []
    else if events[0].event.IsInternal() then ForwardedItems(events[1..], n)
    else [NodeEventItem(events[0].event, AckChannel(n))] + ForwardedItems(events[1..], n + 1)
  }

  /**
   * A batch that goes on from an open `tx` delivers exactly its forwarded
   * items, nothing lost and nothing twice, and leaves `tx` open iff it holds
   * no `AllInputsClosed`.
   */
  lemma {:induction false} BatchDelivers(s: LoopState, events: seq<Arrival>)
    requires s.txOpen && Batch(s, events).control.Continue?
    ensures Batch(s, events).state.delivered == s.delivered + ForwardedItems(events, |s.delivered|)
    ensures Batch(s, events).state.txOpen <==> !Closes(events)
    decreases |events|
  {
    if events == [] {
      assert s.delivered + [] == s.delivered;
    } else {
      var o := Step(s, events[0]);
      if events[0].event.AllInputsClosed? {
        ClosedStreamDeliversNothing(o.state, events[1..]);
        assert s.delivered + [] == s.delivered;
        assert Closes(events) by { assert events[0].event.AllInputsClosed?; }
      } else {
        StepDelivers(s, events[0]);
        BatchDelivers(o.state, events[1..]);
        ClosesTail(events);
        if !events[0].event.IsInternal() {
          var item := NodeEventItem(events[0].event, AckChannel(|s.delivered|));
          var rest := ForwardedItems(events[1..], |s.delivered| + 1);
          assert s.delivered + ([item] + rest) == (s.delivered + [item]) + rest;
        }
      }
    }
  }

  /** One step of `BatchDelivers`: an event other than `AllInputsClosed` keeps `tx` open and delivers itself unless it is internal. */
  lemma StepDelivers(s: LoopState, a: Arrival)
    requires s.txOpen && !a.event.AllInputsClosed? && Step(s, a).control.Continue?
    ensures Step(s, a).state.txOpen
    ensures Step(s, a).state.delivered ==
      s.delivered + (if a.event.IsInternal() then [] else [NodeEventItem(a.event, AckChannel(|s.delivered|))])
  {
  }

  lemma ClosesTail(events: seq<Arrival>)
    requires events != [] && !events[0].event.AllInputsClosed?
    ensures Closes(events) <==> Closes(events[1..])
  {
    if Closes(events) {
      var k :| 0 <= k < |events| && events[k].event.AllInputsClosed?;
      assert events[1..][k - 1] == events[k];
    }
    if Closes(events[1..]) {
      var k :| 0 <= k < |events[1..]| && events[1..][k].event.AllInputsClosed?;
      assert events[k + 1] == events[1..][k];
    }
  }

  /** A node that no longer takes events ends the loop: the batch stops there, forwarding neither that event nor any later one. */
  lemma NodeHangUpEndsBatch(s: LoopState, events: seq<Arrival>, k: nat)
    requires k < |events| && Batch(s, events[..k]).control.Continue? && Batch(s, events[..k]).state.txOpen
    requires !events[k].event.IsInternal() && !events[k].delivery.sent
    ensures Batch(s, events) == BatchOutcome(Batch(s, events[..k]).state, Break(Finished))
  {
    assert events == events[..k] + events[k..];
    BatchSplit(s, events[..k], events[k..]);
    assert events[k..][0] == events[k];
  }

  /** A node that takes every forwarded event and never sends on its acknowledgement channel. */
  predicate Cooperative(events: seq<Arrival>) {
    forall k | 0 <= k < |events| :: !events[k].event.IsInternal() ==> events[k].delivery.sent && events[k].delivery.ack != AckMessage
  }

  predicate CooperativeReplies(replies: seq<Reply>) {
    forall j | 0 <= j < |replies| :: replies[j].NextEvents? ==> Cooperative(replies[j].events)
  }

  lemma {:induction false} CooperativeBatchContinues(s: LoopState, events: seq<Arrival>)
    requires Cooperative(events)
    ensures Batch(s, events).control.Continue?
    decreases |events|
  {
    if events != [] {
      assert forall k | 0 <= k < |events[1..]| :: events[1..][k] == events[k + 1];
      CooperativeBatchContinues(Step(s, events[0]).state, events[1..]);
    }
  }

  /**
   * What a node that takes every event receives over the daemon's replies:
   * the forwarded items of each batch in turn, up to the first empty batch
   * and up to the batch that holds `AllInputsClosed`.
   */
  function RunItems(replies: seq<Reply>, n: nat): (items: seq<EventItem>)
    decreases |replies|
  {
    if replies == [] then []
    else match replies[0]
      case NextEvents(events) =>
        if events == [] then []
        else
          var items := ForwardedItems(events, n);
          if Closes(events) then items else items + RunItems(replies[1..], n + |items|)
      case _ => RunItems(replies[1..], n)
  }

  /** With such a node, the loop delivers exactly `RunItems` and never fails. */
  lemma {:induction false} RunDelivers(s: LoopState, replies: seq<Reply>)
    requires s.txOpen && CooperativeReplies(replies)
    ensures Run(s, replies).state.delivered == s.delivered + RunItems(replies, |s.delivered|)
    ensures !Run(s, replies).result.Failed?
    decreases |replies|
  {
    if replies == [] {
      assert s.delivered + [] == s.delivered;
    } else {
      var s1 := s.(requests := s.requests + [s.dropTokens], dropTokens := []);
      assert forall j | 0 <= j < |replies[1..]| :: replies[1..][j] == replies[j + 1];
      match replies[0]
      case NextEvents(events) =>
        if events == [] {
          assert s.delivered + [] == s.delivered;
        } else {
          assert Cooperative(events) by { assert replies[0].NextEvents?; }
          CooperativeBatchContinues(s1, events);
          BatchDelivers(s1, events);
          var b := Batch(s1, events).state;
          var items := ForwardedItems(events, |s.delivered|);
          if Closes(events) {
            ClosedRunDeliversNothing(b, replies[1..]);
          } else {
            RunDelivers(b, replies[1..]);
            assert s.delivered + (items + RunItems(replies[1..], |b.delivered|))
              == (s.delivered + items) + RunItems(replies[1..], |b.delivered|);
          }
        }
      case UnexpectedReply => RunDelivers(s1, replies[1..]);
      case RequestFailed => RunDelivers(s1, replies[1..]);
    }
  }

  /**
   * The whole thread, for a node that takes every event and drops each:
   * the node receives exactly `RunItems`, every non-internal event in the
   * order the daemon sent it, and no fatal error.
   */
  lemma EventLoopDelivers(replies: seq<Reply>, fatalSent: bool)
    requires CooperativeReplies(replies)
    ensures EventLoop(replies, fatalSent).state.delivered == RunItems(replies, 0)
    ensures !EventLoop(replies, fatalSent).result.Failed?
  {
    RunDelivers(Initial, replies);
  }

  /** The per-batch part of the loop body: forwards each event of one batch. */
  method ForwardBatch(start: LoopState, events: seq<Arrival>) returns (s: LoopState, control: Control)
    ensures BatchOutcome(s, control) == Batch(start, events)
  {
    s := start;
    control := Continue;
    var j := 0;
    while j < |events|
      invariant 0 <= j <= |events|
      invariant Batch(start, events) == Batch(s, events[j..])
    {
      var event, delivery := events[j].event, events[j].delivery;
      assert events[j..][1..] == events[j + 1..];
      j := j + 1;
      var dropToken: Option<DropToken>;
      match event {
        case AllInputsClosed =>
          // close the event stream and skip this internal event
          s := s.(txOpen := false);
          continue;
        case OutputDropped(token) =>
          if delivery.sent {
            s := s.(finished := s.finished + [token]);
          }
          continue;
        case Input(_, _, Some(data)) =>
          dropToken := data.DropTokenOf();
        case _ =>
          dropToken := None;
      }
      if s.txOpen {
        if !delivery.sent {
          // the receiving end of the event channel was closed
          return s, Break(Finished);
        }
        s := s.(delivered := s.delivered + [NodeEventItem(event, AckChannel(|s.delivered|))]);
        match delivery.ack {
          case AckMessage =>
            return s, Break(Failed(AckChannelUsed));
          case AckTimeout =>
            // the drop token, if any, is leaked
          case AckDisconnected =>
            if dropToken.Some? {
              s := s.(dropTokens := s.dropTokens + [dropToken.value]);
            }
        }
      }
    }
  }

  /**
   * The background thread: the `'outer` loop over the daemon's replies, then
   * the report of a fatal result. `fatalSent` says whether the node's end
   * of the event channel would take a `FatalError` item.
   */
  method BackgroundLoop(replies: seq<Reply>, fatalSent: bool) returns (s: LoopState, result: LoopResult)
    ensures RunOutcome(s, result) == EventLoop(replies, fatalSent)
  {
    s := Initial;
    result := Unfinished;
    var n := 0;
    while n < |replies|
      invariant 0 <= n <= |replies|
      invariant Run(Initial, replies) == Run(s, replies[n..])
    {
      assert replies[n..][1..] == replies[n + 1..];
      var reply := replies[n];
      n := n + 1;
      // `std::mem::take(&mut drop_tokens)` moves the pending tokens into the request
      s := s.(requests := s.requests + [s.dropTokens], dropTokens := []);
      match reply {
        case UnexpectedReply =>
          continue;
        case RequestFailed =>
          continue;
        case NextEvents(events) =>
          if events == [] {
            result := Finished;
            break;
          }
          var control;
          s, control := ForwardBatch(s, events);
          if control.Break? {
            result := control.result;
            break;
          }
      }
    }
    if result.Failed? && s.txOpen && fatalSent {
      s := s.(delivered := s.delivered + [FatalError(result.report)]);
    }
  }
}
