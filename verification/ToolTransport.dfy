/** The Goose host's tool transport and the wait around one platform tool call: `ToolTransport` of
    mvp/runtime-hosts/goose-host-v2/src/tool_transport.rs and `execute_platform_tool` of native_agent.rs.
    Every locked section and every poll is a method; a schedule is any sequence of them. */
module ToolTransport {
  import opened Basics
  import Decimal

  datatype ToolResult = ToolResult(completed: bool, output: string)

  datatype Pending = Pending(toolCallId: string, toolId: string)

  /** What became of a call that was begun and is no longer pending. */
  datatype Fate = Delivered(result: ToolResult) | ClosedWith(reason: string) | FailedToSend

  /** Where `execute` stands: begun, after `tool.execute`, after `tool.cancel`, or returned, with what
      came through its channel or with a writer's failure. */
  datatype Stage = Begun | Executing | Cancelling | Received(result: ToolResult) | WriterFailed(reason: string)

  datatype Interrupt = RunCancelled | TimedOut

  /** One call: its number, its ids, how many of its frames are written, and whether it is interrupted. */
  datatype Call = Call(number: nat, toolCallId: string, toolId: string, stage: Stage, sent: nat, interrupted: Option<Interrupt>)

  datatype Frame =
    | Execute(id: string, toolCallId: string, toolId: string)
    | Cancel(id: string, toolCallId: string, toolId: string)

  function FailedResult(reason: string): ToolResult {
    ToolResult(false, reason)
  }

  function RequestId(run: string, n: nat): string {
    "tool-" + run + "-" + Decimal.Text(n)
  }

  lemma RequestIdIsInjective(run: string, a: nat, b: nat)
    requires RequestId(run, a) == RequestId(run, b)
    ensures a == b
  {
    var prefix := "tool-" + run + "-";
    assert RequestId(run, a)[|prefix|..] == Decimal.Text(a);
    assert RequestId(run, b)[|prefix|..] == Decimal.Text(b);
    Decimal.TextIsInjective(a, b);
  }

  function FramesFor(outgoing: seq<Frame>, id: string): seq<Frame> {
    if outgoing == [] then []
    else
      var last := outgoing[|outgoing| - 1];
      FramesFor(outgoing[..|outgoing| - 1], id) + if last.id == id then [last] else []
  }

  lemma FramesForNext(outgoing: seq<Frame>, next: Frame, id: string)
    ensures FramesFor(outgoing + [next], id) == FramesFor(outgoing, id) + if next.id == id then [next] else []
  {
    assert (outgoing + [next])[..|outgoing|] == outgoing;
  }

  /** All the frames a call can ever write, in their order. */
  function FramesOf(id: string, call: Call): (r: seq<Frame>)
    ensures |r| == 2
  {
    [Execute(id, call.toolCallId, call.toolId), Cancel(id, call.toolCallId, call.toolId)]
  }

  function ChannelOf(fate: Fate): Option<ToolResult> {
    match fate
    case Delivered(result) => Some(result)
    case ClosedWith(reason) => Some(FailedResult(reason))
    case FailedToSend => None
  }

  // ----- the invariant -----

  ghost predicate Numbered(run: string, nextRequest: nat, calls: map<string, Call>) {
    forall id | id in calls :: 1 <= calls[id].number <= nextRequest && id == RequestId(run, calls[id].number)
  }

  /** Every begun call is pending or has one fate, never both. */
  ghost predicate Conserved(calls: map<string, Call>, pending: map<string, Pending>, fates: map<string, Fate>,
                            completed: set<string>) {
    && pending.Keys + fates.Keys == calls.Keys && pending.Keys !! fates.Keys
    && (forall id :: id in completed <==> id in fates && fates[id].Delivered?)
    && forall id | id in pending :: pending[id] == Pending(calls[id].toolCallId, calls[id].toolId)
  }

  ghost predicate CallIdsDistinct(calls: map<string, Call>, toolCallIds: set<string>) {
    && (forall a, b | a in calls && b in calls && a != b :: calls[a].toolCallId != calls[b].toolCallId)
    && (forall id | id in calls :: calls[id].toolCallId in toolCallIds)
    && forall t | t in toolCallIds :: IsCalled(calls, t)
  }

  ghost predicate IsCalled(calls: map<string, Call>, toolCallId: string) {
    exists id :: id in calls && calls[id].toolCallId == toolCallId
  }

  ghost predicate ChannelsAgree(channels: map<string, ToolResult>, fates: map<string, Fate>) {
    && (forall id | id in channels :: id in fates && ChannelOf(fates[id]) == Some(channels[id]))
    && forall id | id in fates && ChannelOf(fates[id]).Some? :: id in channels
  }

  /** A call returns only when it has a fate; what it received is what was sent to it. */
  predicate StageAgrees(id: string, call: Call, channels: map<string, ToolResult>, fates: map<string, Fate>) {
    && call.sent <= 2
    && match call.stage
       case Begun => call.sent == 0
       case Executing => call.sent == 1
       case Cancelling => call.sent == 2
       case Received(result) => call.sent >= 1 && id in channels && channels[id] == result
       case WriterFailed(_) => call.sent <= 1 && id in fates
  }

  ghost predicate StagesAgree(calls: map<string, Call>, channels: map<string, ToolResult>, fates: map<string, Fate>) {
    forall id | id in calls :: StageAgrees(id, calls[id], channels, fates)
  }

  /** The frames of a call are its execute and then its cancel, each at most once. */
  ghost predicate FramesAgree(outgoing: seq<Frame>, calls: map<string, Call>) {
    && (forall id | id in calls :: calls[id].sent <= 2 && FramesFor(outgoing, id) == FramesOf(id, calls[id])[..calls[id].sent])
    && forall id | id !in calls :: FramesFor(outgoing, id) == []
  }

  /** The transport and its calls, as a value. */
  datatype State = State(
    run: string, nextRequest: nat, pending: map<string, Pending>, completed: set<string>, toolCallIds: set<string>,
    closedReason: Option<string>, channels: map<string, ToolResult>, calls: map<string, Call>, outgoing: seq<Frame>,
    runCancelled: bool, fates: map<string, Fate>)

  datatype Law = Numbering | Conservation | Distinctness | Channels | Stages | Frames

  ghost predicate Holds(law: Law, s: State) {
    match law
    case Numbering => Numbered(s.run, s.nextRequest, s.calls)
    case Conservation => Conserved(s.calls, s.pending, s.fates, s.completed)
    case Distinctness => CallIdsDistinct(s.calls, s.toolCallIds)
    case Channels => ChannelsAgree(s.channels, s.fates)
    case Stages => StagesAgree(s.calls, s.channels, s.fates)
    case Frames => FramesAgree(s.outgoing, s.calls)
  }

  ghost predicate Coherent(s: State) {
    forall law: Law :: Holds(law, s)
  }

  lemma Laws(s: State)
    requires Coherent(s)
    ensures Numbered(s.run, s.nextRequest, s.calls)
    ensures Conserved(s.calls, s.pending, s.fates, s.completed)
    ensures CallIdsDistinct(s.calls, s.toolCallIds)
    ensures ChannelsAgree(s.channels, s.fates)
    ensures StagesAgree(s.calls, s.channels, s.fates)
    ensures FramesAgree(s.outgoing, s.calls)
  {
    assert Holds(Numbering, s) && Holds(Conservation, s) && Holds(Distinctness, s);
    assert Holds(Channels, s) && Holds(Stages, s) && Holds(Frames, s);
  }

  lemma FromLaws(s: State)
    requires Numbered(s.run, s.nextRequest, s.calls)
    requires Conserved(s.calls, s.pending, s.fates, s.completed)
    requires CallIdsDistinct(s.calls, s.toolCallIds)
    requires ChannelsAgree(s.channels, s.fates)
    requires StagesAgree(s.calls, s.channels, s.fates)
    requires FramesAgree(s.outgoing, s.calls)
    ensures Coherent(s)
  {}

  lemma StageOf(s: State, id: string)
    requires Coherent(s) && id in s.calls
    ensures StageAgrees(id, s.calls[id], s.channels, s.fates)
  {
    assert Holds(Stages, s);
  }

  lemma HasFate(s: State, id: string)
    requires Coherent(s) && id in s.calls && id !in s.pending
    ensures id in s.fates
  {
    assert Holds(Conservation, s);
    assert id in s.pending.Keys + s.fates.Keys;
  }

  lemma NewId(run: string, n: nat, calls: map<string, Call>)
    requires n > 0 && Numbered(run, n - 1, calls)
    ensures RequestId(run, n) !in calls
  {
    if RequestId(run, n) in calls {
      RequestIdIsInjective(run, n, calls[RequestId(run, n)].number);
    }
  }

  // ----- a call begins -----

  lemma BegunDistinct(calls: map<string, Call>, toolCallIds: set<string>, id: string, call: Call)
    requires CallIdsDistinct(calls, toolCallIds) && id !in calls && call.toolCallId !in toolCallIds
    ensures CallIdsDistinct(calls[id := call], toolCallIds + {call.toolCallId})
  {
    var after := calls[id := call];
    assert id in after && after[id].toolCallId == call.toolCallId;
    forall t | t in toolCallIds
      ensures IsCalled(after, t)
    {
      assert IsCalled(calls, t);
      var k :| k in calls && calls[k].toolCallId == t;
      assert k in after && after[k].toolCallId == t;
    }
  }

  lemma BegunConserved(calls: map<string, Call>, pending: map<string, Pending>, fates: map<string, Fate>,
                       completed: set<string>, id: string, call: Call)
    requires Conserved(calls, pending, fates, completed) && id !in calls
    ensures Conserved(calls[id := call], pending[id := Pending(call.toolCallId, call.toolId)], fates, completed)
  {
    assert id !in pending.Keys + fates.Keys;
    assert pending[id := Pending(call.toolCallId, call.toolId)].Keys == pending.Keys + {id};
    assert calls[id := call].Keys == calls.Keys + {id};
  }

  lemma BegunFrames(outgoing: seq<Frame>, calls: map<string, Call>, id: string, call: Call)
    requires FramesAgree(outgoing, calls) && id !in calls && call.sent == 0
    ensures FramesAgree(outgoing, calls[id := call])
  {}

  lemma BegunStages(calls: map<string, Call>, channels: map<string, ToolResult>, fates: map<string, Fate>, id: string, call: Call)
    requires StagesAgree(calls, channels, fates) && call.stage.Begun? && call.sent == 0
    ensures StagesAgree(calls[id := call], channels, fates)
  {}

  lemma BegunNumbered(run: string, n: nat, calls: map<string, Call>, call: Call)
    requires Numbered(run, n, calls) && call.number == n + 1
    ensures Numbered(run, n + 1, calls[RequestId(run, n + 1) := call])
  {}

  lemma BeginKeeps(s: State, toolCallId: string, toolId: string)
    requires Coherent(s) && toolCallId !in s.toolCallIds
    ensures RequestId(s.run, s.nextRequest + 1) !in s.calls && Coherent(Begin(s, toolCallId, toolId))
  {
    Laws(s);
    var n := s.nextRequest + 1;
    var id, call := RequestId(s.run, n), Call(n, toolCallId, toolId, Begun, 0, None);
    NewId(s.run, n, s.calls);
    BegunDistinct(s.calls, s.toolCallIds, id, call);
    BegunConserved(s.calls, s.pending, s.fates, s.completed, id, call);
    BegunFrames(s.outgoing, s.calls, id, call);
    BegunStages(s.calls, s.channels, s.fates, id, call);
    BegunNumbered(s.run, s.nextRequest, s.calls, call);
    FromLaws(Begin(s, toolCallId, toolId));
  }

  // ----- a call moves on -----

  predicate MovesTo(call: Call, next: Call) {
    next.number == call.number && next.toolCallId == call.toolCallId && next.toolId == call.toolId
  }

  lemma MovedDistinct(calls: map<string, Call>, toolCallIds: set<string>, id: string, next: Call)
    requires CallIdsDistinct(calls, toolCallIds) && id in calls && MovesTo(calls[id], next)
    ensures CallIdsDistinct(calls[id := next], toolCallIds)
  {
    var after := calls[id := next];
    forall t | t in toolCallIds
      ensures IsCalled(after, t)
    {
      assert IsCalled(calls, t);
      var k :| k in calls && calls[k].toolCallId == t;
      assert k in after && after[k].toolCallId == t;
    }
  }

  lemma MovedConserved(calls: map<string, Call>, pending: map<string, Pending>, fates: map<string, Fate>,
                       completed: set<string>, id: string, next: Call)
    requires Conserved(calls, pending, fates, completed) && id in calls && MovesTo(calls[id], next)
    ensures Conserved(calls[id := next], pending, fates, completed)
  {
    assert calls[id := next].Keys == calls.Keys;
  }

  lemma MovedFrames(outgoing: seq<Frame>, calls: map<string, Call>, id: string, next: Call)
    requires FramesAgree(outgoing, calls) && id in calls && MovesTo(calls[id], next) && next.sent == calls[id].sent
    ensures FramesAgree(outgoing, calls[id := next])
  {}

  lemma SentFrames(outgoing: seq<Frame>, calls: map<string, Call>, id: string, next: Call)
    requires FramesAgree(outgoing, calls) && id in calls && MovesTo(calls[id], next)
    requires next.sent == calls[id].sent + 1 <= 2
    ensures FramesAgree(outgoing + [FramesOf(id, next)[calls[id].sent]], calls[id := next])
  {
    var n, after := calls[id].sent, calls[id := next];
    var frame := FramesOf(id, next)[n];
    assert FramesOf(id, next)[..n + 1] == FramesOf(id, next)[..n] + [frame];
    forall k
      ensures k in after ==> after[k].sent <= 2 && FramesFor(outgoing + [frame], k) == FramesOf(k, after[k])[..after[k].sent]
      ensures k !in after ==> FramesFor(outgoing + [frame], k) == []
    {
      FramesForNext(outgoing, frame, k);
    }
  }

  lemma MovedNumbered(run: string, nextRequest: nat, calls: map<string, Call>, id: string, next: Call)
    requires Numbered(run, nextRequest, calls) && id in calls && MovesTo(calls[id], next)
    ensures Numbered(run, nextRequest, calls[id := next])
  {}

  lemma MovedStages(calls: map<string, Call>, channels: map<string, ToolResult>, fates: map<string, Fate>, id: string, next: Call)
    requires StagesAgree(calls, channels, fates) && StageAgrees(id, next, channels, fates)
    ensures StagesAgree(calls[id := next], channels, fates)
  {}

  lemma MoveKeeps(s: State, id: string, next: Call)
    requires Coherent(s) && id in s.calls && MovesTo(s.calls[id], next) && next.sent == s.calls[id].sent
    requires StageAgrees(id, next, s.channels, s.fates)
    ensures Coherent(Move(s, id, next))
  {
    Laws(s);
    MovedNumbered(s.run, s.nextRequest, s.calls, id, next);
    MovedStages(s.calls, s.channels, s.fates, id, next);
    MovedDistinct(s.calls, s.toolCallIds, id, next);
    MovedConserved(s.calls, s.pending, s.fates, s.completed, id, next);
    MovedFrames(s.outgoing, s.calls, id, next);
  }

  lemma SendKeeps(s: State, id: string, next: Call)
    requires Coherent(s) && id in s.calls && MovesTo(s.calls[id], next) && next.sent == s.calls[id].sent + 1 <= 2
    requires StageAgrees(id, next, s.channels, s.fates)
    ensures Coherent(Send(s, id, next))
  {
    Laws(s);
    MovedNumbered(s.run, s.nextRequest, s.calls, id, next);
    MovedStages(s.calls, s.channels, s.fates, id, next);
    MovedDistinct(s.calls, s.toolCallIds, id, next);
    MovedConserved(s.calls, s.pending, s.fates, s.completed, id, next);
    SentFrames(s.outgoing, s.calls, id, next);
  }

  // ----- a call is settled -----

  lemma SettledConserved(calls: map<string, Call>, pending: map<string, Pending>, fates: map<string, Fate>,
                         completed: set<string>, id: string, fate: Fate)
    requires Conserved(calls, pending, fates, completed) && id in pending
    ensures Conserved(calls, pending - {id}, fates[id := fate], if fate.Delivered? then completed + {id} else completed)
  {
    assert id in pending.Keys && id !in fates.Keys;
    assert (pending - {id}).Keys == pending.Keys - {id} && fates[id := fate].Keys == fates.Keys + {id};
  }

  function ChannelsAfter(channels: map<string, ToolResult>, id: string, fate: Fate): map<string, ToolResult> {
    if ChannelOf(fate).Some? then channels[id := ChannelOf(fate).value] else channels
  }

  lemma SettledChannels(channels: map<string, ToolResult>, fates: map<string, Fate>, id: string, fate: Fate)
    requires ChannelsAgree(channels, fates) && id !in fates
    ensures ChannelsAgree(ChannelsAfter(channels, id, fate), fates[id := fate])
  {}

  lemma SettledStages(calls: map<string, Call>, channels: map<string, ToolResult>, fates: map<string, Fate>,
                      id: string, fate: Fate)
    requires StagesAgree(calls, channels, fates) && id !in channels
    ensures StagesAgree(calls, ChannelsAfter(channels, id, fate), fates[id := fate])
  {
    forall k | k in calls
      ensures StageAgrees(k, calls[k], ChannelsAfter(channels, id, fate), fates[id := fate])
    {
      assert StageAgrees(k, calls[k], channels, fates);
    }
  }

  /** A pending call leaves for the one fate it gets. */
  lemma SettleKeeps(s: State, id: string, fate: Fate)
    requires Coherent(s) && id in s.pending
    ensures Coherent(Settle(s, id, fate))
  {
    Laws(s);
    SettledConserved(s.calls, s.pending, s.fates, s.completed, id, fate);
    assert id in s.pending.Keys && id !in s.fates;
    SettledChannels(s.channels, s.fates, id, fate);
    SettledStages(s.calls, s.channels, s.fates, id, fate);
  }

  // ----- the steps -----

  /** A `tool.result` frame, if it can be read; `identified` says that it names this run. */
  datatype ResultFrame =
    | Unreadable
    | ResultFrame(id: string, identified: bool, toolCallId: string, toolId: string, result: ToolResult)

  datatype Delivery = Accepted | Invalid | Duplicate | Unknown | Mismatch

  /** What may happen next: a locked section of the transport, a poll of a call, or a signal. */
  datatype Step =
    | BeginCall(toolCallId: string, toolId: string, identified: bool)
    | EmitExecute(id: string, writerUp: bool)
    | Poll(id: string, writerUp: bool)
    | PollSettlement(id: string)
    | DeliverResult(frame: ResultFrame)
    | Close(reason: string)
    | CancelRun
    | InterruptCall(id: string, cause: Interrupt)

  /** Why `begin_call` refuses a call; a call under a cancelled run is refused before it. */
  function Refusal(s: State, toolCallId: string, identified: bool): Option<string> {
    if s.runCancelled then Some("platform tool call was cancelled before execution")
    else if !identified then Some("platform tool call identity is invalid")
    else if s.closedReason.Some? then s.closedReason
    else if toolCallId in s.toolCallIds then Some("platform tool call id was reused")
    else None
  }

  function Verdict(s: State, frame: ResultFrame): Delivery {
    if frame.Unreadable? || frame.id == "" then Invalid
    else if frame.id in s.completed then Duplicate
    else if frame.id !in s.pending then Unknown
    else if !frame.identified || s.pending[frame.id] != Pending(frame.toolCallId, frame.toolId) then Mismatch
    else Accepted
  }

  function Begin(s: State, toolCallId: string, toolId: string): State {
    var n := s.nextRequest + 1;
    var id := RequestId(s.run, n);
    s.(nextRequest := n, toolCallIds := s.toolCallIds + {toolCallId},
       pending := s.pending[id := Pending(toolCallId, toolId)],
       calls := s.calls[id := Call(n, toolCallId, toolId, Begun, 0, None)])
  }

  function Move(s: State, id: string, next: Call): State {
    s.(calls := s.calls[id := next])
  }

  function Send(s: State, id: string, next: Call): State
    requires id in s.calls && s.calls[id].sent < 2
  {
    s.(calls := s.calls[id := next], outgoing := s.outgoing + [FramesOf(id, next)[s.calls[id].sent]])
  }

  function Settle(s: State, id: string, fate: Fate): State {
    s.(pending := s.pending - {id}, fates := s.fates[id := fate],
       completed := if fate.Delivered? then s.completed + {id} else s.completed,
       channels := ChannelsAfter(s.channels, id, fate))
  }

  /** `fail_pending`, and the return of the call. */
  function FailPending(s: State, id: string, reason: string): State
    requires id in s.calls
  {
    Move(if id in s.pending then Settle(s, id, FailedToSend) else s, id, s.calls[id].(stage := WriterFailed(reason)))
  }

  /** `m` with `v` at each of the ids. */
  function Overlay<V>(m: map<string, V>, ids: set<string>, v: V): map<string, V> {
    map id | id in m.Keys + ids :: if id in ids then v else m[id]
  }

  function CloseAll(s: State, reason: string): State {
    s.(closedReason := if s.closedReason.Some? then s.closedReason else Some(reason),
       pending := map[],
       fates := Overlay(s.fates, s.pending.Keys, ClosedWith(reason)),
       channels := Overlay(s.channels, s.pending.Keys, FailedResult(reason)))
  }

  /** One poll of the biased `select!` in `execute`: a result first; without one, a cancelled signal
      writes `tool.cancel`. */
  function Polled(s: State, id: string, writerUp: bool): State
    requires id in s.calls && s.calls[id].sent == 1
  {
    var call := s.calls[id];
    if id in s.channels then Move(s, id, call.(stage := Received(s.channels[id])))
    else if !s.runCancelled && call.interrupted.None? then s
    else if writerUp then Send(s, id, call.(stage := Cancelling, sent := 2))
    else FailPending(s, id, "Goose tool cancellation writer is unavailable")
  }

  /** The state after a step; a step that is not due changes nothing. */
  function Next(s: State, step: Step): State {
    match step
    case BeginCall(toolCallId, toolId, identified) =>
      if Refusal(s, toolCallId, identified).Some? then s else Begin(s, toolCallId, toolId)
    case EmitExecute(id, writerUp) =>
      if id !in s.calls || !s.calls[id].stage.Begun? || s.calls[id].sent != 0 then s
      else if writerUp then Send(s, id, s.calls[id].(stage := Executing, sent := 1))
      else FailPending(s, id, "Goose tool request writer is unavailable")
    case Poll(id, writerUp) =>
      if id !in s.calls || !s.calls[id].stage.Executing? || s.calls[id].sent != 1 then s else Polled(s, id, writerUp)
    case PollSettlement(id) =>
      if id !in s.calls || !s.calls[id].stage.Cancelling? || id !in s.channels then s
      else Move(s, id, s.calls[id].(stage := Received(s.channels[id])))
    case DeliverResult(frame) =>
      if Verdict(s, frame).Accepted? then Settle(s, frame.id, Delivered(frame.result)) else s
    case Close(reason) => CloseAll(s, reason)
    case CancelRun => s.(runCancelled := true)
    case InterruptCall(id, cause) =>
      if id in s.calls then Move(s, id, s.calls[id].(interrupted := Some(cause))) else s
  }

  function Initial(run: string): State {
    State(run, 0, map[], {}, {}, None, map[], map[], [], false, map[])
  }

  function After(s: State, steps: seq<Step>): State
    decreases |steps|
  {
    if steps == [] then s else After(Next(s, steps[0]), steps[1..])
  }

  // ----- what every run keeps -----

  /** After `close` nothing is ever pending again. */
  ghost predicate Sound(s: State) {
    Coherent(s) && (s.closedReason.Some? ==> s.pending == map[])
  }

  lemma FailKeeps(s: State, id: string, reason: string)
    requires Coherent(s) && id in s.calls && s.calls[id].sent <= 1
    ensures Coherent(FailPending(s, id, reason))
  {
    if id in s.pending {
      SettleKeeps(s, id, FailedToSend);
      MoveKeeps(Settle(s, id, FailedToSend), id, s.calls[id].(stage := WriterFailed(reason)));
    } else {
      HasFate(s, id);
      MoveKeeps(s, id, s.calls[id].(stage := WriterFailed(reason)));
    }
  }

  lemma ClosedConserved(s: State, reason: string)
    requires Conserved(s.calls, s.pending, s.fates, s.completed)
    ensures var c := CloseAll(s, reason); Conserved(c.calls, c.pending, c.fates, c.completed)
  {
    var c := CloseAll(s, reason);
    assert c.fates.Keys == s.fates.Keys + s.pending.Keys;
    forall id | id in s.fates
      ensures c.fates[id] == s.fates[id]
    {
      assert id in s.fates.Keys && id !in s.pending.Keys;
    }
  }

  lemma ClosedChannels(s: State, reason: string)
    requires Conserved(s.calls, s.pending, s.fates, s.completed) && ChannelsAgree(s.channels, s.fates)
    ensures ChannelsAgree(CloseAll(s, reason).channels, CloseAll(s, reason).fates)
  {
    forall id | id in s.fates
      ensures id !in s.pending
    {
      assert id in s.fates.Keys && id !in s.pending.Keys;
    }
  }

  lemma ClosedStages(s: State, reason: string)
    requires Coherent(s)
    ensures StagesAgree(s.calls, CloseAll(s, reason).channels, CloseAll(s, reason).fates)
  {
    Laws(s);
    var c := CloseAll(s, reason);
    forall id | id in s.calls
      ensures StageAgrees(id, s.calls[id], c.channels, c.fates)
    {
      assert StageAgrees(id, s.calls[id], s.channels, s.fates);
      assert id in s.channels ==> id in s.fates && id in s.fates.Keys && id !in s.pending.Keys;
    }
  }

  lemma CloseKeeps(s: State, reason: string)
    requires Coherent(s)
    ensures Coherent(CloseAll(s, reason))
  {
    Laws(s);
    var c := CloseAll(s, reason);
    ClosedConserved(s, reason);
    ClosedChannels(s, reason);
    ClosedStages(s, reason);
    FromLaws(c);
  }

  lemma PolledKeeps(s: State, id: string, writerUp: bool)
    requires Coherent(s) && id in s.calls && s.calls[id].stage.Executing? && s.calls[id].sent == 1
    ensures Coherent(Polled(s, id, writerUp))
  {
    var call := s.calls[id];
    if id in s.channels {
      MoveKeeps(s, id, call.(stage := Received(s.channels[id])));
    } else if s.runCancelled || call.interrupted.Some? {
      if writerUp {
        SendKeeps(s, id, call.(stage := Cancelling, sent := 2));
      } else {
        FailKeeps(s, id, "Goose tool cancellation writer is unavailable");
      }
    }
  }

  lemma NextKeeps(s: State, step: Step)
    requires Coherent(s)
    ensures Coherent(Next(s, step))
  {
    match step
    case BeginCall(toolCallId, toolId, identified) =>
      if Refusal(s, toolCallId, identified).None? {
        BeginKeeps(s, toolCallId, toolId);
      }
    case EmitExecute(id, writerUp) =>
      if id in s.calls && s.calls[id].stage.Begun? && s.calls[id].sent == 0 {
        if writerUp {
          SendKeeps(s, id, s.calls[id].(stage := Executing, sent := 1));
        } else {
          FailKeeps(s, id, "Goose tool request writer is unavailable");
        }
      }
    case Poll(id, writerUp) =>
      if id in s.calls && s.calls[id].stage.Executing? && s.calls[id].sent == 1 {
        PolledKeeps(s, id, writerUp);
      }
    case PollSettlement(id) =>
      if id in s.calls && s.calls[id].stage.Cancelling? && id in s.channels {
        StageOf(s, id);
        MoveKeeps(s, id, s.calls[id].(stage := Received(s.channels[id])));
      }
    case DeliverResult(frame) =>
      if Verdict(s, frame).Accepted? {
        SettleKeeps(s, frame.id, Delivered(frame.result));
      }
    case Close(reason) => CloseKeeps(s, reason);
    case CancelRun =>
      Laws(s);
      FromLaws(s.(runCancelled := true));
    case InterruptCall(id, cause) =>
      if id in s.calls {
        StageOf(s, id);
        MoveKeeps(s, id, s.calls[id].(interrupted := Some(cause)));
      }
  }

  lemma FailStaysClosed(s: State, id: string, reason: string)
    requires id in s.calls
    ensures var f := FailPending(s, id, reason); f.closedReason == s.closedReason && f.pending == s.pending - {id}
  {}

  /** Only `close` closes, and it leaves nothing pending; once closed, nothing is added. */
  lemma NextStaysClosed(s: State, step: Step)
    requires s.closedReason.Some? ==> s.pending == map[]
    ensures Next(s, step).closedReason.Some? ==> Next(s, step).pending == map[]
    ensures s.closedReason.Some? ==> Next(s, step).closedReason == s.closedReason
  {
    match step
    case BeginCall(_, _, _) =>
    case EmitExecute(id, writerUp) =>
      if id in s.calls {
        FailStaysClosed(s, id, "Goose tool request writer is unavailable");
      }
    case Poll(id, writerUp) =>
      if id in s.calls {
        FailStaysClosed(s, id, "Goose tool cancellation writer is unavailable");
      }
    case PollSettlement(_) =>
    case DeliverResult(_) =>
    case Close(_) =>
    case CancelRun =>
    case InterruptCall(_, _) =>
  }

  lemma NextIsSound(s: State, step: Step)
    requires Sound(s)
    ensures Sound(Next(s, step))
  {
    NextKeeps(s, step);
    NextStaysClosed(s, step);
  }

  /** Conservation over every run: request ids are unique, every begun call is pending or has exactly
      one fate, results reach the call they name, and a closed transport has nothing pending. */
  lemma {:induction false} EveryRunIsSound(s: State, steps: seq<Step>)
    requires Sound(s)
    ensures Sound(After(s, steps))
    decreases |steps|
  {
    if steps != [] {
      NextIsSound(s, steps[0]);
      EveryRunIsSound(Next(s, steps[0]), steps[1..]);
    }
  }

  lemma InitialIsSound(run: string)
    ensures Sound(Initial(run))
  {
    FromLaws(Initial(run));
  }

  /** Hence every state that a transport can reach is sound. */
  lemma EveryReachableStateIsSound(run: string, steps: seq<Step>)
    ensures Sound(After(Initial(run), steps))
  {
    InitialIsSound(run);
    EveryRunIsSound(Initial(run), steps);
  }

  lemma FailSendsNothing(s: State, id: string, reason: string)
    requires id in s.calls
    ensures FailPending(s, id, reason).outgoing == s.outgoing
  {}

  lemma PolledGrows(s: State, id: string, writerUp: bool)
    requires id in s.calls && s.calls[id].sent == 1
    ensures s.outgoing <= Polled(s, id, writerUp).outgoing
  {
    FailSendsNothing(s, id, "Goose tool cancellation writer is unavailable");
  }

  lemma EmittedGrows(s: State, id: string, writerUp: bool)
    ensures s.outgoing <= Next(s, EmitExecute(id, writerUp)).outgoing
  {
    if id in s.calls {
      FailSendsNothing(s, id, "Goose tool request writer is unavailable");
    }
  }

  lemma OthersSendNothing(s: State, step: Step)
    requires !step.EmitExecute? && !step.Poll?
    ensures Next(s, step).outgoing == s.outgoing
  {}

  /** Frames are never taken back. */
  lemma OutgoingGrows(s: State, step: Step)
    ensures s.outgoing <= Next(s, step).outgoing
  {
    match step
    case EmitExecute(id, writerUp) => EmittedGrows(s, id, writerUp);
    case Poll(id, writerUp) =>
      if id in s.calls && s.calls[id].stage.Executing? && s.calls[id].sent == 1 {
        PolledGrows(s, id, writerUp);
      }
    case _ => OthersSendNothing(s, step);
  }

  lemma {:induction false} FramesForPrefix(outgoing: seq<Frame>, k: nat, id: string)
    requires k <= |outgoing|
    ensures FramesFor(outgoing[..k], id) <= FramesFor(outgoing, id)
  {
    if k < |outgoing| {
      var n := |outgoing| - 1;
      FramesForPrefix(outgoing[..n], k, id);
      assert outgoing[..n][..k] == outgoing[..k];
    } else {
      assert outgoing[..k] == outgoing;
    }
  }

  // ----- what soundness says about each call -----

  lemma FirstOrSecond(before: seq<Frame>, f: Frame, e: Frame, c: Frame)
    requires before + [f] <= [e, c]
    ensures (before == [] && f == e) || (before == [e] && f == c)
  {
    var upTo := before + [f];
    assert upTo[|before|] == f == [e, c][|before|];
    if before != [] {
      assert before[0] == upTo[0] == [e, c][0];
      assert before == [e];
    }
  }

  lemma FramesUpTo(s: State, k: nat)
    requires Sound(s) && k < |s.outgoing|
    ensures var f := s.outgoing[k];
      f.id in s.calls && FramesFor(s.outgoing[..k], f.id) + [f] <= FramesOf(f.id, s.calls[f.id])
  {
    assert Holds(Frames, s);
    FramesWithin(s.outgoing, s.calls, k);
  }

  lemma FramesWithin(outgoing: seq<Frame>, calls: map<string, Call>, k: nat)
    requires FramesAgree(outgoing, calls) && k < |outgoing|
    ensures var f := outgoing[k];
      f.id in calls && FramesFor(outgoing[..k], f.id) + [f] <= FramesOf(f.id, calls[f.id])
  {
    var f := outgoing[k];
    var before, all := FramesFor(outgoing[..k], f.id), FramesFor(outgoing, f.id);
    assert before + [f] <= all by {
      FramesForPrefix(outgoing, k + 1, f.id);
      FramesForNext(outgoing[..k], f, f.id);
      assert outgoing[..k + 1] == outgoing[..k] + [f];
    }
    assert all != [];
    assert f.id in calls;
    assert all <= FramesOf(f.id, calls[f.id]);
  }

  /** Each frame has its place: an execute frame is the first of its request, and a cancel frame follows the
      execute frame with its ids. */
  lemma FramesComeInOrder(s: State, k: nat)
    requires Sound(s) && k < |s.outgoing|
    ensures var f := s.outgoing[k];
      FramesFor(s.outgoing[..k], f.id) == if f.Execute? then [] else [Execute(f.id, f.toolCallId, f.toolId)]
  {
    var f := s.outgoing[k];
    FramesUpTo(s, k);
    var call := s.calls[f.id];
    FirstOrSecond(FramesFor(s.outgoing[..k], f.id), f, Execute(f.id, call.toolCallId, call.toolId),
                  Cancel(f.id, call.toolCallId, call.toolId));
  }

  /** At most one `tool.execute` and at most one `tool.cancel` for a request, in that order. */
  lemma CancelFollowsExecute(s: State, id: string)
    requires Sound(s)
    ensures var frames := FramesFor(s.outgoing, id);
      |frames| <= 2 && (|frames| > 0 ==> frames[0].Execute?) && (|frames| > 1 ==> frames[1].Cancel?)
    ensures id !in s.calls ==> FramesFor(s.outgoing, id) == []
  {
    Laws(s);
  }

  /** A call that has returned has a fate: a delivered result, a close, or a failed write; and a
      result it received is the one that was delivered to it, or the close's failure. */
  lemma ReturnedCallsAreSettled(s: State, id: string)
    requires Sound(s) && id in s.calls
    requires s.calls[id].stage.Received? || s.calls[id].stage.WriterFailed?
    ensures id in s.fates && id !in s.pending
    ensures s.calls[id].stage.Received? ==> ChannelOf(s.fates[id]) == Some(s.calls[id].stage.result)
  {
    Laws(s);
    assert id in s.fates.Keys;
  }

  /** Nothing unbegun is settled, a settled call is not pending, and a delivered one is completed. */
  lemma ExactlyOneFate(s: State, id: string)
    requires Sound(s)
    ensures id in s.calls <==> id in s.pending || id in s.fates
    ensures !(id in s.pending && id in s.fates)
    ensures id in s.completed <==> id in s.fates && s.fates[id].Delivered?
    ensures !(id in s.pending && id in s.completed)
  {
    Laws(s);
    assert id in s.pending.Keys + s.fates.Keys <==> id in s.calls.Keys;
  }

  lemma PendingIdsAreDistinct(s: State, a: string, b: string)
    requires Sound(s) && a in s.pending && b in s.pending && a != b
    ensures s.pending[a].toolCallId != s.pending[b].toolCallId
  {
    Laws(s);
    assert a in s.pending.Keys + s.fates.Keys && b in s.pending.Keys + s.fates.Keys;
  }

  /** A fate is for good, and so is a begun call's identity. */
  lemma {:induction false} FatesStay(s: State, steps: seq<Step>, id: string)
    requires Sound(s) && id in s.fates
    ensures id in After(s, steps).fates && After(s, steps).fates[id] == s.fates[id]
    decreases |steps|
  {
    if steps != [] {
      FateStays(s, steps[0], id);
      NextIsSound(s, steps[0]);
      FatesStay(Next(s, steps[0]), steps[1..], id);
    }
  }

  lemma FailKeepsFate(s: State, call: string, reason: string, id: string)
    requires call in s.calls && id in s.fates && id !in s.pending
    ensures id in FailPending(s, call, reason).fates && FailPending(s, call, reason).fates[id] == s.fates[id]
  {}

  lemma PolledKeepsFate(s: State, call: string, writerUp: bool, id: string)
    requires call in s.calls && s.calls[call].sent == 1 && id in s.fates && id !in s.pending
    ensures id in Polled(s, call, writerUp).fates && Polled(s, call, writerUp).fates[id] == s.fates[id]
  {
    FailKeepsFate(s, call, "Goose tool cancellation writer is unavailable", id);
  }

  lemma ClosedKeepsFate(s: State, reason: string, id: string)
    requires id in s.fates && id !in s.pending
    ensures id in CloseAll(s, reason).fates && CloseAll(s, reason).fates[id] == s.fates[id]
  {}

  lemma FateStays(s: State, step: Step, id: string)
    requires Sound(s) && id in s.fates
    ensures id in Next(s, step).fates && Next(s, step).fates[id] == s.fates[id]
  {
    ExactlyOneFate(s, id);
    match step
    case BeginCall(_, _, _) =>
    case EmitExecute(call, _) =>
      if call in s.calls {
        FailKeepsFate(s, call, "Goose tool request writer is unavailable", id);
      }
    case Poll(call, writerUp) =>
      if call in s.calls && s.calls[call].sent == 1 {
        PolledKeepsFate(s, call, writerUp, id);
      }
    case PollSettlement(_) =>
    case DeliverResult(_) =>
    case Close(reason) => ClosedKeepsFate(s, reason, id);
    case CancelRun =>
    case InterruptCall(_, _) =>
  }

  // ----- whose result a call gets -----

  /** A call keeps its ids. */
  predicate KeepsIds(s: State, n: State, id: string) {
    id in s.calls ==> id in n.calls && MovesTo(s.calls[id], n.calls[id])
  }

  lemma FailKeepsIds(s: State, call: string, reason: string, id: string)
    requires call in s.calls
    ensures KeepsIds(s, FailPending(s, call, reason), id)
  {}

  lemma PolledKeepsIds(s: State, call: string, writerUp: bool, id: string)
    requires call in s.calls && s.calls[call].sent == 1
    ensures KeepsIds(s, Polled(s, call, writerUp), id)
  {
    FailKeepsIds(s, call, "Goose tool cancellation writer is unavailable", id);
  }

  lemma BeginKeepsIds(s: State, toolCallId: string, toolId: string, id: string)
    requires Coherent(s) && toolCallId !in s.toolCallIds
    ensures KeepsIds(s, Begin(s, toolCallId, toolId), id)
  {
    BeginKeeps(s, toolCallId, toolId);
  }

  lemma EmitKeepsIds(s: State, call: string, writerUp: bool, id: string)
    ensures KeepsIds(s, Next(s, EmitExecute(call, writerUp)), id)
  {
    if call in s.calls {
      FailKeepsIds(s, call, "Goose tool request writer is unavailable", id);
    }
  }

  lemma NextKeepsIds(s: State, step: Step, id: string)
    requires Coherent(s)
    ensures KeepsIds(s, Next(s, step), id)
  {
    match step
    case BeginCall(toolCallId, toolId, identified) =>
      if Refusal(s, toolCallId, identified).None? {
        BeginKeepsIds(s, toolCallId, toolId, id);
      }
    case EmitExecute(call, writerUp) => EmitKeepsIds(s, call, writerUp, id);
    case Poll(call, writerUp) =>
      if call in s.calls && s.calls[call].sent == 1 {
        PolledKeepsIds(s, call, writerUp, id);
      }
    case _ =>
  }

  /** The step delivers the result to the call, under its request id and with both of its other ids. */
  predicate Brings(step: Step, id: string, call: Call, result: ToolResult) {
    && step.DeliverResult? && step.frame.ResultFrame? && step.frame.identified
    && step.frame.id == id && step.frame.toolCallId == call.toolCallId && step.frame.toolId == call.toolId
    && step.frame.result == result
  }

  predicate HasResult(s: State, id: string, result: ToolResult) {
    id in s.fates && s.fates[id] == Delivered(result)
  }

  lemma FailBringsNothing(s: State, call: string, reason: string, id: string, result: ToolResult)
    requires call in s.calls && HasResult(FailPending(s, call, reason), id, result)
    ensures HasResult(s, id, result)
  {}

  lemma PolledBringsNothing(s: State, call: string, writerUp: bool, id: string, result: ToolResult)
    requires call in s.calls && s.calls[call].sent == 1 && HasResult(Polled(s, call, writerUp), id, result)
    ensures HasResult(s, id, result)
  {
    if !HasResult(s, id, result) && id !in s.channels {
      FailBringsNothing(s, call, "Goose tool cancellation writer is unavailable", id, result);
    }
  }

  lemma EmitBringsNothing(s: State, call: string, writerUp: bool, id: string, result: ToolResult)
    requires HasResult(Next(s, EmitExecute(call, writerUp)), id, result)
    ensures HasResult(s, id, result)
  {
    if call in s.calls && !writerUp && s.calls[call].stage.Begun? && s.calls[call].sent == 0 {
      FailBringsNothing(s, call, "Goose tool request writer is unavailable", id, result);
    }
  }

  lemma PollBringsNothing(s: State, call: string, writerUp: bool, id: string, result: ToolResult)
    requires HasResult(Next(s, Poll(call, writerUp)), id, result)
    ensures HasResult(s, id, result)
  {
    if call in s.calls && s.calls[call].stage.Executing? && s.calls[call].sent == 1 {
      PolledBringsNothing(s, call, writerUp, id, result);
    }
  }

  lemma CloseBringsNothing(s: State, reason: string, id: string, result: ToolResult)
    requires HasResult(CloseAll(s, reason), id, result)
    ensures HasResult(s, id, result)
  {}

  lemma DeliveryBrings(s: State, frame: ResultFrame, id: string, result: ToolResult)
    requires Conserved(s.calls, s.pending, s.fates, s.completed)
    requires HasResult(Next(s, DeliverResult(frame)), id, result) && !HasResult(s, id, result)
    ensures id in s.calls && Brings(DeliverResult(frame), id, s.calls[id], result)
  {
    assert frame.ResultFrame? && frame.id in s.pending.Keys + s.fates.Keys;
  }

  /** Only such a step gives a call a result. */
  lemma OnlyDeliveryBrings(s: State, step: Step, id: string, result: ToolResult)
    requires Sound(s) && HasResult(Next(s, step), id, result) && !HasResult(s, id, result)
    ensures id in s.calls && Brings(step, id, s.calls[id], result)
  {
    match step
    case EmitExecute(call, writerUp) => EmitBringsNothing(s, call, writerUp, id, result);
    case Poll(call, writerUp) => PollBringsNothing(s, call, writerUp, id, result);
    case Close(reason) => CloseBringsNothing(s, reason, id, result);
    case DeliverResult(frame) =>
      Laws(s);
      DeliveryBrings(s, frame, id, result);
    case _ => OthersBringNothing(s, step, id);
  }

  lemma OthersBringNothing(s: State, step: Step, id: string)
    requires step.BeginCall? || step.PollSettlement? || step.CancelRun? || step.InterruptCall?
    ensures Next(s, step).fates == s.fates
  {}

  /** Nobody else's result: what a call was given was brought by a step that names the call's own ids. */
  lemma {:induction false} ResultsAreBrought(s: State, steps: seq<Step>, id: string, result: ToolResult)
    requires Sound(s) && HasResult(After(s, steps), id, result)
    ensures HasResult(s, id, result) || (id in After(s, steps).calls && exists k ::
      0 <= k < |steps| && Brings(steps[k], id, After(s, steps).calls[id], result))
    decreases |steps|
  {
    if steps != [] {
      var next, rest := Next(s, steps[0]), steps[1..];
      NextIsSound(s, steps[0]);
      ResultsAreBrought(next, rest, id, result);
      if HasResult(next, id, result) {
        if !HasResult(s, id, result) {
          OnlyDeliveryBrings(s, steps[0], id, result);
          NextKeepsIds(s, steps[0], id);
          AfterKeepsIds(next, rest, id);
          assert Brings(steps[0], id, After(s, steps).calls[id], result);
        }
      } else {
        var k :| 0 <= k < |rest| && Brings(rest[k], id, After(next, rest).calls[id], result);
        assert Brings(steps[k + 1], id, After(s, steps).calls[id], result);
      }
    }
  }

  lemma {:induction false} AfterKeepsIds(s: State, steps: seq<Step>, id: string)
    requires Sound(s)
    ensures KeepsIds(s, After(s, steps), id)
    decreases |steps|
  {
    if steps != [] {
      NextKeepsIds(s, steps[0], id);
      NextIsSound(s, steps[0]);
      AfterKeepsIds(Next(s, steps[0]), steps[1..], id);
    }
  }

  /** In every state a transport can reach, a result that a call was given came in a `tool.result` frame with the
      call's own request id, tool call id and tool id. */
  lemma ResultsReachTheirOwnCalls(run: string, steps: seq<Step>, id: string)
    requires var s := After(Initial(run), steps); id in s.fates && s.fates[id].Delivered?
    ensures var s := After(Initial(run), steps);
      id in s.calls && exists k :: 0 <= k < |steps| && Brings(steps[k], id, s.calls[id], s.fates[id].result)
  {
    InitialIsSound(run);
    ResultsAreBrought(Initial(run), steps, id, After(Initial(run), steps).fates[id].result);
  }

  /** A request begun under a cancelled run does not exist: no call that starts then is begun. */
  lemma {:induction false} CancelledRunsBeginNothing(s: State, steps: seq<Step>)
    requires s.runCancelled
    ensures After(s, steps).calls.Keys == s.calls.Keys && After(s, steps).nextRequest == s.nextRequest
    decreases |steps|
  {
    if steps != [] {
      CancelledBeginsNothing(s, steps[0]);
      CancelledRunsBeginNothing(Next(s, steps[0]), steps[1..]);
    }
  }

  lemma CancelledBeginsNothing(s: State, step: Step)
    requires s.runCancelled
    ensures var n := Next(s, step); n.runCancelled && n.calls.Keys == s.calls.Keys && n.nextRequest == s.nextRequest
  {
    match step
    case BeginCall(_, _, _) =>
    case EmitExecute(id, _) =>
      if id in s.calls {
        CallChanges(s, id, s.calls[id].(stage := Executing, sent := 1));
        FailAddsNoCall(s, id, "Goose tool request writer is unavailable");
      }
    case Poll(id, writerUp) =>
      if id in s.calls && s.calls[id].sent == 1 {
        PolledAddsNoCall(s, id, writerUp);
      }
    case PollSettlement(id) =>
      if id in s.calls && id in s.channels {
        CallChanges(s, id, s.calls[id].(stage := Received(s.channels[id])));
      }
    case DeliverResult(_) =>
    case Close(_) =>
    case CancelRun =>
    case InterruptCall(id, cause) =>
      if id in s.calls {
        CallChanges(s, id, s.calls[id].(interrupted := Some(cause)));
      }
  }

  lemma CallChanges(s: State, id: string, next: Call)
    requires id in s.calls
    ensures s.calls[id := next].Keys == s.calls.Keys
  {}

  lemma PolledAddsNoCall(s: State, id: string, writerUp: bool)
    requires id in s.calls && s.calls[id].sent == 1
    ensures var p := Polled(s, id, writerUp);
      p.calls.Keys == s.calls.Keys && p.nextRequest == s.nextRequest && p.runCancelled == s.runCancelled
  {
    FailAddsNoCall(s, id, "Goose tool cancellation writer is unavailable");
    CallChanges(s, id, s.calls[id].(stage := Cancelling, sent := 2));
    if id in s.channels {
      CallChanges(s, id, s.calls[id].(stage := Received(s.channels[id])));
    }
  }

  lemma FailAddsNoCall(s: State, id: string, reason: string)
    requires id in s.calls
    ensures var f := FailPending(s, id, reason);
      f.calls.Keys == s.calls.Keys && f.nextRequest == s.nextRequest && f.runCancelled == s.runCancelled
  {
    assert s.calls[id := s.calls[id].(stage := WriterFailed(reason))].Keys == s.calls.Keys;
  }

  // ----- the transport itself -----

  /** `ToolTransport` with the calls that wait on it. */
  class Transport {
    const run: string
    var nextRequest: nat
    var pending: map<string, Pending>
    var completed: set<string>
    var toolCallIds: set<string>
    var closedReason: Option<string>
    var channels: map<string, ToolResult>
    var calls: map<string, Call>
    var outgoing: seq<Frame>
    var runCancelled: bool
    ghost var fates: map<string, Fate>

    ghost function Now(): State
      reads this
    {
      State(run, nextRequest, pending, completed, toolCallIds, closedReason, channels, calls, outgoing, runCancelled, fates)
    }

    constructor (run: string)
      ensures Now() == Initial(run)
    {
      this.run := run;
      nextRequest, pending, completed, toolCallIds, closedReason := 0, map[], {}, {}, None;
      channels, calls, outgoing, runCancelled, fates := map[], map[], [], false, map[];
    }

    /** The start of `execute` and `begin_call`. */
    method Begin(toolCallId: string, toolId: string, identified: bool) returns (id: Option<string>, refused: ToolResult)
      modifies this
      ensures Now() == Next(old(Now()), BeginCall(toolCallId, toolId, identified))
      ensures id == if Refusal(old(Now()), toolCallId, identified).Some? then None else Some(RequestId(run, nextRequest))
      ensures id.None? ==> refused == FailedResult(Refusal(old(Now()), toolCallId, identified).value)
      ensures id.None? ==> refused == ToolResult(false,
        if runCancelled then "platform tool call was cancelled before execution"
        else if !identified then "platform tool call identity is invalid"
        else if closedReason.Some? then closedReason.value else "platform tool call id was reused")
      ensures id.Some? <==> !runCancelled && identified && closedReason.None? && toolCallId !in old(toolCallIds)
      ensures id.Some? ==>
        && nextRequest == old(nextRequest) + 1 && toolCallIds == old(toolCallIds) + {toolCallId}
        && pending == old(pending)[id.value := Pending(toolCallId, toolId)]
        && calls == old(calls)[id.value := Call(nextRequest, toolCallId, toolId, Begun, 0, None)]
    {
      refused := FailedResult("");
      if runCancelled {
        return None, FailedResult("platform tool call was cancelled before execution");
      }
      if !identified {
        return None, FailedResult("platform tool call identity is invalid");
      }
      if closedReason.Some? {
        return None, FailedResult(closedReason.value);
      }
      if toolCallId in toolCallIds {
        return None, FailedResult("platform tool call id was reused");
      }
      toolCallIds := toolCallIds + {toolCallId};
      nextRequest := nextRequest + 1;
      var request := RequestId(run, nextRequest);
      pending := pending[request := Pending(toolCallId, toolId)];
      calls := calls[request := Call(nextRequest, toolCallId, toolId, Begun, 0, None)];
      id := Some(request);
    }

    /** The call has returned with a writer's failure, and is not pending. */
    ghost predicate HasFailed(id: string, reason: string, before: map<string, Call>, pendingBefore: map<string, Pending>,
                              sent: seq<Frame>)
      requires id in before
      reads this
    {
      && calls == before[id := before[id].(stage := WriterFailed(reason))] && outgoing == sent
      && pending == pendingBefore - {id} && (id in pendingBefore ==> id in fates && fates[id] == FailedToSend)
    }

    method Fail(id: string, reason: string)
      requires id in calls
      modifies this
      ensures Now() == FailPending(old(Now()), id, reason)
      ensures HasFailed(id, reason, old(calls), old(pending), old(outgoing))
    {
      if id in pending {
        fates := fates[id := FailedToSend];
        pending := pending - {id};
      }
      calls := calls[id := calls[id].(stage := WriterFailed(reason))];
    }

    /** `emit_execute`, right behind `begin_call`. */
    method Execute(id: string, writerUp: bool)
      requires id in calls && calls[id].stage.Begun? && calls[id].sent == 0
      modifies this
      ensures Now() == Next(old(Now()), EmitExecute(id, writerUp))
      ensures writerUp ==>
        && outgoing == old(outgoing) + [Frame.Execute(id, old(calls)[id].toolCallId, old(calls)[id].toolId)]
        && calls == old(calls)[id := old(calls)[id].(stage := Executing, sent := 1)]
      ensures !writerUp ==> HasFailed(id, "Goose tool request writer is unavailable", old(calls), old(pending), old(outgoing))
    {
      if !writerUp {
        Fail(id, "Goose tool request writer is unavailable");
        return;
      }
      var call := calls[id];
      outgoing := outgoing + [Frame.Execute(id, call.toolCallId, call.toolId)];
      calls := calls[id := call.(stage := Executing, sent := 1)];
    }

    method PollCall(id: string, writerUp: bool)
      requires id in calls && calls[id].stage.Executing? && calls[id].sent == 1
      modifies this
      ensures Now() == Next(old(Now()), Poll(id, writerUp))
      ensures id in old(channels) ==>
        calls == old(calls)[id := old(calls)[id].(stage := Received(old(channels)[id]))] && outgoing == old(outgoing)
      ensures id !in old(channels) && !old(runCancelled) && old(calls)[id].interrupted.None? ==> Now() == old(Now())
      ensures id !in old(channels) && (old(runCancelled) || old(calls)[id].interrupted.Some?) && writerUp ==>
        && outgoing == old(outgoing) + [Cancel(id, old(calls)[id].toolCallId, old(calls)[id].toolId)]
        && calls == old(calls)[id := old(calls)[id].(stage := Cancelling, sent := 2)]
      ensures id !in old(channels) && (old(runCancelled) || old(calls)[id].interrupted.Some?) && !writerUp ==>
        HasFailed(id, "Goose tool cancellation writer is unavailable", old(calls), old(pending), old(outgoing))
    {
      var call := calls[id];
      if id in channels {
        calls := calls[id := call.(stage := Received(channels[id]))];
      } else if runCancelled || call.interrupted.Some? {
        if !writerUp {
          Fail(id, "Goose tool cancellation writer is unavailable");
          return;
        }
        outgoing := outgoing + [Cancel(id, call.toolCallId, call.toolId)];
        calls := calls[id := call.(stage := Cancelling, sent := 2)];
      }
    }

    method AwaitSettlement(id: string)
      requires id in calls && calls[id].stage.Cancelling?
      modifies this
      ensures Now() == Next(old(Now()), PollSettlement(id))
      ensures id in channels ==> calls == old(calls)[id := old(calls)[id].(stage := Received(channels[id]))]
      ensures id !in channels ==> Now() == old(Now())
    {
      if id in channels {
        calls := calls[id := calls[id].(stage := Received(channels[id]))];
      }
    }

    method Deliver(frame: ResultFrame) returns (r: Delivery)
      modifies this
      ensures Now() == Next(old(Now()), DeliverResult(frame)) && r == Verdict(old(Now()), frame)
      ensures r.Accepted? <==>
        && frame.ResultFrame? && frame.id != "" && frame.id in old(pending) && frame.id !in old(completed)
        && frame.identified && frame.toolCallId == old(pending)[frame.id].toolCallId
        && frame.toolId == old(pending)[frame.id].toolId
      ensures r.Accepted? ==>
        && pending == old(pending) - {frame.id} && completed == old(completed) + {frame.id}
        && channels == old(channels)[frame.id := frame.result] && fates == old(fates)[frame.id := Delivered(frame.result)]
      ensures !r.Accepted? ==> Now() == old(Now())
      ensures r.Invalid? <==> frame.Unreadable? || frame.id == ""
      ensures r.Duplicate? <==> frame.ResultFrame? && frame.id != "" && frame.id in old(completed)
      ensures r.Unknown? <==>
        frame.ResultFrame? && frame.id != "" && frame.id !in old(completed) && frame.id !in old(pending)
    {
      if frame.Unreadable? || frame.id == "" {
        return Invalid;
      }
      if frame.id in completed {
        return Duplicate;
      }
      if frame.id !in pending {
        return Unknown;
      }
      var call := pending[frame.id];
      if !frame.identified || frame.toolCallId != call.toolCallId || frame.toolId != call.toolId {
        return Mismatch;
      }
      pending := pending - {frame.id};
      completed := completed + {frame.id};
      channels := channels[frame.id := frame.result];
      fates := fates[frame.id := Delivered(frame.result)];
      return Accepted;
    }

    /** `close` drains the pending calls and sends each the reason. */
    method CloseTransport(reason: string)
      modifies this
      ensures Now() == Next(old(Now()), Close(reason))
      ensures closedReason == (if old(closedReason).Some? then old(closedReason) else Some(reason)) && pending == map[]
      ensures forall id | id in old(pending) ::
        id in fates && fates[id] == ClosedWith(reason) && id in channels && channels[id] == ToolResult(false, reason)
      ensures forall id | id in old(fates) && id !in old(pending) :: id in fates && fates[id] == old(fates)[id]
      ensures forall id | id in old(channels) && id !in old(pending) :: id in channels && channels[id] == old(channels)[id]
    {
      if closedReason.None? {
        closedReason := Some(reason);
      }
      var drained := pending;
      pending := map[];
      SendClosed(drained, reason);
    }

    /** Sends each drained call the reason. */
    method SendClosed(drained: map<string, Pending>, reason: string)
      modifies this`channels, this`fates
      ensures fates == Overlay(old(fates), drained.Keys, ClosedWith(reason))
      ensures channels == Overlay(old(channels), drained.Keys, FailedResult(reason))
    {
      var left := drained;
      ghost var sent: set<string> := {};
      OverlayNothing(fates, ClosedWith(reason));
      OverlayNothing(channels, FailedResult(reason));
      while left != map[]
        invariant Splits(drained, left, sent)
        invariant SentTo(old(fates), old(channels), sent, reason, fates, channels)
        decreases |left|
      {
        var id :| id in left;
        OneLess(drained, left, sent, id);
        OneSent(old(fates), old(channels), sent, reason, fates, channels, id);
        left := left - {id};
        channels := channels[id := FailedResult(reason)];
        fates := fates[id := ClosedWith(reason)];
        sent := sent + {id};
      }
      SplitsAtEnd(drained, left, sent);
    }

    method CancelAll()
      modifies this`runCancelled
      ensures Now() == Next(old(Now()), CancelRun) && runCancelled
    {
      runCancelled := true;
    }

    /** The outer wait of `execute_platform_tool` gives up on a call. */
    method Interrupt(id: string, cause: Interrupt)
      requires id in calls
      modifies this`calls
      ensures Now() == Next(old(Now()), InterruptCall(id, cause))
      ensures calls == old(calls)[id := old(calls)[id].(interrupted := Some(cause))]
    {
      calls := calls[id := calls[id].(interrupted := Some(cause))];
    }

    /** What `execute_platform_tool` returns for a call: nothing before `execute` has returned, and
        for an interrupted call never its result. */
    method PlatformResult(id: string) returns (r: Option<ToolResult>)
      requires Sound(Now()) && id in calls
      ensures r.Some? ==> id in fates && id !in pending
      ensures r.Some? <==> calls[id].stage.Received? || calls[id].stage.WriterFailed?
      ensures r.Some? && calls[id].interrupted.Some? ==> !r.value.completed
      ensures r.Some? && calls[id].interrupted.None? && calls[id].stage.Received? ==> r == ChannelOf(fates[id])
    {
      var call := calls[id];
      match call.stage
      case Received(result) =>
        ReturnedCallsAreSettled(Now(), id);
        return Some(if call.interrupted.Some? then FailedResult("interrupted") else result);
      case WriterFailed(reason) =>
        ReturnedCallsAreSettled(Now(), id);
        return Some(FailedResult(if call.interrupted.Some? then "interrupted" else reason));
      case _ =>
        return None;
    }

    /** Any schedule of steps takes the transport through the states of the specification. */
    method Serve(steps: seq<Step>)
      requires Sound(Now())
      modifies this
      ensures Now() == After(old(Now()), steps) && Sound(Now())
    {
      for k := 0 to |steps|
        invariant Sound(Now()) && After(Now(), steps[k..]) == After(old(Now()), steps)
      {
        assert steps[k..][0] == steps[k] && steps[k..][1..] == steps[k + 1..];
        NextIsSound(Now(), steps[k]);
        TakeStep(steps[k]);
      }
    }

    method TakeStep(step: Step)
      modifies this
      ensures Now() == Next(old(Now()), step)
    {
      match step
      case BeginCall(toolCallId, toolId, identified) =>
        var id, refused := Begin(toolCallId, toolId, identified);
      case EmitExecute(id, writerUp) =>
        if id in calls && calls[id].stage.Begun? && calls[id].sent == 0 {
          Execute(id, writerUp);
        }
      case Poll(id, writerUp) =>
        if id in calls && calls[id].stage.Executing? && calls[id].sent == 1 {
          PollCall(id, writerUp);
        }
      case PollSettlement(id) =>
        if id in calls && calls[id].stage.Cancelling? {
          AwaitSettlement(id);
        }
      case DeliverResult(frame) =>
        var delivery := Deliver(frame);
      case Close(reason) => CloseTransport(reason);
      case CancelRun => CancelAll();
      case InterruptCall(id, cause) =>
        if id in calls {
          Interrupt(id, cause);
        }
    }
  }

  lemma OverlayNothing<V>(m: map<string, V>, v: V)
    ensures Overlay(m, {}, v) == m
  {}

  lemma OverlayOneMore<V>(m: map<string, V>, ids: set<string>, id: string, v: V)
    ensures Overlay(m, ids + {id}, v) == Overlay(m, ids, v)[id := v]
  {
    var a, b := Overlay(m, ids + {id}, v), Overlay(m, ids, v)[id := v];
    assert a.Keys == m.Keys + (ids + {id}) && b.Keys == m.Keys + ids + {id};
    forall k | k in a
      ensures a[k] == b[k]
    {
      if k != id && k !in ids {
        assert k in m;
      }
    }
  }

  predicate Splits(drained: map<string, Pending>, left: map<string, Pending>, sent: set<string>) {
    left.Keys !! sent && left.Keys + sent == drained.Keys
  }

  predicate SentTo(fates: map<string, Fate>, channels: map<string, ToolResult>, sent: set<string>, reason: string,
                   fatesNow: map<string, Fate>, channelsNow: map<string, ToolResult>) {
    && fatesNow == Overlay(fates, sent, ClosedWith(reason))
    && channelsNow == Overlay(channels, sent, FailedResult(reason))
  }

  lemma SplitsAtEnd(drained: map<string, Pending>, left: map<string, Pending>, sent: set<string>)
    requires Splits(drained, left, sent) && left == map[]
    ensures sent == drained.Keys
  {
    assert left.Keys == {};
  }

  lemma OneLess(drained: map<string, Pending>, left: map<string, Pending>, sent: set<string>, id: string)
    requires Splits(drained, left, sent) && id in left
    ensures Splits(drained, left - {id}, sent + {id}) && |left - {id}| < |left|
  {
    assert (left - {id}).Keys == left.Keys - {id} && |left| == |left.Keys| && |left - {id}| == |(left - {id}).Keys|;
  }

  lemma OneSent(fates: map<string, Fate>, channels: map<string, ToolResult>, sent: set<string>, reason: string,
                fatesNow: map<string, Fate>, channelsNow: map<string, ToolResult>, id: string)
    requires SentTo(fates, channels, sent, reason, fatesNow, channelsNow)
    ensures SentTo(fates, channels, sent + {id}, reason,
                   fatesNow[id := ClosedWith(reason)], channelsNow[id := FailedResult(reason)])
  {
    OverlayOneMore(fates, sent, id, ClosedWith(reason));
    OverlayOneMore(channels, sent, id, FailedResult(reason));
  }
}
