/** The Goose host's event loop: `ActiveTask` and `run` of mvp/runtime-hosts/goose-host-v2/src/host.rs.
    Each branch of the `select!` is a method, and a schedule is any sequence of branches. */
module GooseHost {
  import opened Basics
  import opened QueryMachine
  import ToolTransport

  /** What is written to stdout, one frame a line. */
  datatype Frame =
    | EventFrame(emission: Emission)
    | ToolFrame(identity: Identity, frame: ToolTransport.Frame)
    | Answer(command: string, id: string, accepted: bool)
    | Capabilities(id: string)
    | Sealed(id: string, identity: Identity, cursor: nat)

  /** `query.start` as far as the loop looks at it: a request it cannot read ends the process, one
      that the query machine does not admit is refused. */
  datatype Request =
    | Unreadable
    | Fixture(identity: Identity, disposition: Disposition, admitted: bool)
    | Real(identity: Identity, admitted: bool)

  datatype Command =
    | AskCapabilities(id: string)
    | StartQuery(id: string, request: Request)
    | CancelQuery(id: string, run: Option<string>)
    | ToolResult(frame: ToolTransport.ResultFrame)
    | QueryStatus(id: string, identity: Identity, cursor: Option<nat>)
    | OtherCommand(command: string, id: string)
    | Malformed

  datatype TaskEnd = JoinFailed | Finished(succeeded: bool)

  /** One branch of the `select!`, or a step of the task with its tool transport. */
  datatype Branch =
    | Line(command: Command)
    | InputFailed
    | InputClosed
    | ToolRequest
    | ToolStep(step: ToolTransport.Step)
    | ToolsClosed
    | Provider(event: ProviderEvent)
    | ProviderDone(end: TaskEnd)

  datatype Task = Task(run: string, cancelled: bool, allowed: bool, deferred: Option<string>)

  datatype Exit = Clean | Blocked(reason: string)

  // ----- the law of the wire -----

  /** The query events on the wire. */
  function EventsOf(wire: seq<Frame>): seq<Emission> {
    if wire == [] then []
    else
      var last := wire[|wire| - 1];
      EventsOf(wire[..|wire| - 1]) + if last.EventFrame? then [last.emission] else []
  }

  /** The tool frames on the wire since the last query started. */
  function ToolsSince(wire: seq<Frame>): seq<ToolTransport.Frame> {
    if wire == [] then [] else NextTools(ToolsSince(wire[..|wire| - 1]), wire[|wire| - 1])
  }

  function NextTools(before: seq<ToolTransport.Frame>, next: Frame): seq<ToolTransport.Frame> {
    match next
    case ToolFrame(_, frame) => before + [frame]
    case EventFrame(emission) => if emission.event.Running? then [] else before
    case _ => before
  }

  /** A request has one execute frame, the first with its id, and behind it at most one cancel frame with the
      same ids. */
  predicate MayRequest(before: seq<ToolTransport.Frame>, next: ToolTransport.Frame) {
    ToolTransport.FramesFor(before, next.id) ==
      if next.Execute? then [] else [ToolTransport.Execute(next.id, next.toolCallId, next.toolId)]
  }

  predicate Accepts(frame: Frame) {
    frame.Answer? && frame.command == "query.cancel" && frame.accepted
  }

  /** What a frame may follow: a tool frame only while its query is open, a seal only the terminal it
      names, a cancelled event only the acceptance of the cancel, and that only a cancelled event. */
  predicate MayWrite(before: seq<Frame>, next: Frame) {
    var events := EventsOf(before);
    match next
    case EventFrame(emission) =>
      && MayFollow(events, emission)
      && (emission.event.Cancelled? <==> before != [] && Accepts(before[|before| - 1]))
    case ToolFrame(identity, frame) =>
      && MayRequest(ToolsSince(before), frame)
      && events != [] && !events[|events| - 1].event.IsTerminal() && events[|events| - 1].identity == identity
      && !Accepts(before[|before| - 1])
    case Sealed(_, identity, cursor) =>
      && events != [] && events[|events| - 1].event.IsTerminal()
      && events[|events| - 1].identity == identity && events[|events| - 1].event.cursor == cursor
      && !Accepts(before[|before| - 1])
    case _ => before != [] ==> !Accepts(before[|before| - 1])
  }

  predicate WrittenAt(wire: seq<Frame>, i: nat)
    requires i < |wire|
  {
    MayWrite(wire[..i], wire[i])
  }

  predicate LawfulWire(wire: seq<Frame>) {
    forall i: nat | i < |wire| :: WrittenAt(wire, i)
  }

  lemma WireNext(wire: seq<Frame>, next: Frame)
    requires LawfulWire(wire) && MayWrite(wire, next)
    ensures LawfulWire(wire + [next])
    ensures EventsOf(wire + [next]) == EventsOf(wire) + if next.EventFrame? then [next.emission] else []
    ensures ToolsSince(wire + [next]) == NextTools(ToolsSince(wire), next)
  {
    forall i: nat | i < |wire + [next]|
      ensures WrittenAt(wire + [next], i)
    {
      assert i < |wire| ==> WrittenAt(wire, i);
      assert (wire + [next])[..i] == wire[..i];
    }
    assert (wire + [next])[..|wire|] == wire;
  }

  /** The events of a lawful wire are a lawful trace. */
  lemma {:induction false} WireEventsAreLawful(wire: seq<Frame>)
    requires LawfulWire(wire)
    ensures Lawful(EventsOf(wire))
  {
    if wire != [] {
      var before, last := wire[..|wire| - 1], wire[|wire| - 1];
      WirePrefix(wire, |wire| - 1);
      WireEventsAreLawful(before);
      assert WrittenAt(wire, |wire| - 1);
      if last.EventFrame? {
        LawfulNext(EventsOf(before), last.emission);
      } else {
        assert EventsOf(wire) == EventsOf(before);
      }
    }
  }

  /** A failed write cuts the wire short; what was written is lawful. */
  lemma WirePrefix(wire: seq<Frame>, n: nat)
    requires LawfulWire(wire) && n <= |wire|
    ensures LawfulWire(wire[..n])
  {
    forall i: nat | i < n
      ensures WrittenAt(wire[..n], i)
    {
      assert WrittenAt(wire, i) && wire[..n][..i] == wire[..i];
    }
  }

  // Four readings of the law, for every wire of a host: `Host.Serve` keeps it.

  /** No terminal of the query `identity` is on the wire before the `i`-th frame and after its start. */
  predicate OpenAt(wire: seq<Frame>, i: nat, identity: Identity)
    requires i <= |wire|
  {
    var events := EventsOf(wire[..i]);
    events != [] && events[|events| - 1].identity == identity && !events[|events| - 1].event.IsTerminal()
  }

  /** Tool frames are written only while their query is open: none follows its terminal. */
  lemma ToolFramesAreInside(wire: seq<Frame>, i: nat)
    requires LawfulWire(wire) && i < |wire| && wire[i].ToolFrame?
    ensures OpenAt(wire, i, wire[i].identity)
  {
    assert WrittenAt(wire, i);
  }

  /** A request's execute frame and at most one cancel frame behind it, with the same ids. */
  predicate IsRequest(frames: seq<ToolTransport.Frame>) {
    && |frames| <= 2 && (|frames| > 0 ==> frames[0].Execute?)
    && (|frames| > 1 ==> frames[1] == ToolTransport.Cancel(frames[0].id, frames[0].toolCallId, frames[0].toolId))
  }

  /** Within a query the wire has at most one execute frame for a request, and a cancel frame only behind it. */
  lemma {:induction false} CancelFollowsExecute(wire: seq<Frame>, id: string)
    requires LawfulWire(wire)
    ensures IsRequest(ToolTransport.FramesFor(ToolsSince(wire), id))
  {
    if wire != [] {
      var n := |wire| - 1;
      WirePrefix(wire, n);
      CancelFollowsExecute(wire[..n], id);
      assert WrittenAt(wire, n);
      if wire[n].ToolFrame? {
        ToolTransport.FramesForNext(ToolsSince(wire[..n]), wire[n].frame, id);
      }
    }
  }

  /** A seal names the terminal event that is the last on the wire. */
  lemma SealsNameTheTerminal(wire: seq<Frame>, i: nat)
    requires LawfulWire(wire) && i < |wire| && wire[i].Sealed?
    ensures var events := EventsOf(wire[..i]);
      events != [] && events[|events| - 1].event.IsTerminal()
      && TerminalFor(events[|events| - 1]).identity == wire[i].identity
      && TerminalFor(events[|events| - 1]).cursor == wire[i].cursor
  {
    assert WrittenAt(wire, i);
  }

  /** Acceptance of a cancel and the cancelled event stand side by side. */
  lemma CancelIsAcceptedJustBefore(wire: seq<Frame>, i: nat)
    requires LawfulWire(wire) && i < |wire|
    ensures wire[i].EventFrame? && wire[i].emission.event.Cancelled? ==> i > 0 && Accepts(wire[i - 1])
    ensures i > 0 && Accepts(wire[i - 1]) ==> wire[i].EventFrame? && wire[i].emission.event.Cancelled?
  {
    assert WrittenAt(wire, i);
    if i > 0 {
      assert wire[..i][|wire[..i]| - 1] == wire[i - 1];
    }
  }

  // ----- the loop -----

  predicate NotAccepting(wire: seq<Frame>) {
    wire != [] ==> !Accepts(wire[|wire| - 1])
  }

  /** The task, its event channel and its tool channel belong to the machine's active query; a
      cancelled task that may still publish has a stored cancel. */
  predicate TaskAgrees(task: Option<Task>, events: bool, tools: Option<Identity>, active: Option<Identity>, inputOpen: bool) {
    && (task.Some? <==> events)
    && (task.Some? ==>
          && active.Some? && active.value.run == task.value.run
          && (task.value.cancelled && task.value.allowed ==> task.value.deferred.Some?)
          && (task.value.allowed <==> inputOpen))
    && (tools.Some? ==> task.Some? && tools == active)
  }

  predicate NoTerminalFrom(wire: seq<Frame>, n: nat) {
    forall i | n <= i < |wire| :: !IsTerminalFrame(wire[i])
  }

  /** Once input was lost under a task, no terminal has been written. */
  predicate LossAgrees(lostAt: Option<nat>, task: Option<Task>, inputOpen: bool, wire: seq<Frame>, exit: Option<Exit>) {
    && (task.Some? ==> (lostAt.Some? <==> !task.value.allowed))
    && (lostAt.Some? ==>
          && !inputOpen && lostAt.value <= |wire| && NoTerminalFrom(wire, lostAt.value)
          && (task.None? ==> exit.Some? && exit.value.Blocked?))
  }

  /** While the tool channel is open, the wire has what was received of the transport's frames, in order. */
  ghost predicate ToolsAgree(tools: Option<Identity>, transport: ToolTransport.State, received: nat, wire: seq<Frame>) {
    && ToolTransport.Sound(transport) && received <= |transport.outgoing|
    && (tools.Some? ==> ToolsSince(wire) == transport.outgoing[..received])
  }

  // ----- what each branch does -----

  /** The host and its machine, as a value. */
  datatype Snapshot = Snapshot(
    inputOpen: bool, task: Option<Task>, events: bool, tools: Option<Identity>, transport: ToolTransport.State,
    received: nat, exit: Option<Exit>, wire: seq<Frame>, lostAt: Option<nat>,
    active: Option<Identity>, cursor: nat, terminal: Option<Terminal>, emitted: seq<Emission>)

  ghost predicate Refuses(a: Snapshot, b: Snapshot, frame: Frame) {
    b == a.(wire := a.wire + [frame])
  }

  ghost predicate Stops(a: Snapshot, b: Snapshot) {
    b.exit.Some? && b.exit.value.Blocked? && b == a.(exit := b.exit)
  }

  /** An unreadable start ends the process; one that is not admitted, or comes while a query is active, is refused;
      another is accepted and answered with the first events of its query. */
  ghost predicate Starts(a: Snapshot, b: Snapshot, id: string, request: Request) {
    && (request.Unreadable? ==> Stops(a, b))
    && (!request.Unreadable? && (a.active.Some? || !request.admitted) ==>
          Refuses(a, b, Answer("query.start", id, false)))
    && (a.active.None? && request.Fixture? && request.admitted ==>
          && b.task == a.task && b.exit.None? && b.inputOpen
          && b.wire == a.wire
            + ([Answer("query.start", id, true)] + Frames(Emissions(request.identity, FixtureEvents(request.disposition)))))
    && (a.active.None? && request.Real? && request.admitted ==>
          && b.task == Some(Task(request.identity.run, false, true, None)) && b.active == Some(request.identity)
          && b.exit.None? && b.inputOpen && b.tools == Some(request.identity) && b.received == 0
          && b.transport == ToolTransport.Initial(request.identity.run)
          && b.wire == a.wire + [Answer("query.start", id, true), EventFrame(Emission(request.identity, Running(1)))])
  }

  predicate IsFor(a: Snapshot, run: Option<string>) {
    && run.Some? && a.active.Some? && a.active.value.run == run.value
    && (a.task.Some? ==> a.task.value.deferred.None?)
  }

  /** A cancel that is not for the active run, or the second one, ends the process; under a task it is stored, and
      without one it is accepted and ends the query. */
  ghost predicate Cancels(a: Snapshot, b: Snapshot, id: string, run: Option<string>) {
    && (b.exit.None? <==> IsFor(a, run)) && (b.exit.Some? ==> Stops(a, b))
    && (b.exit.None? && a.task.Some? ==>
          b == a.(task := Some(a.task.value.(deferred := Some(id), cancelled := true))))
    && (b.exit.None? && a.task.None? ==>
          && b.active.None?
          && b.wire == a.wire
            + [Answer("query.cancel", id, true),
               EventFrame(Emission(a.active.value, Cancelled(a.cursor + 1, "user_requested")))])
  }

  /** A tool result settles the pending request that it names with all its ids; any other ends the process. */
  ghost predicate Delivers(a: Snapshot, b: Snapshot, frame: ToolTransport.ResultFrame) {
    && (b.exit.None? <==>
          && a.task.Some? && frame.ResultFrame? && frame.id != "" && frame.identified
          && frame.id in a.transport.pending && frame.id !in a.transport.completed
          && a.transport.pending[frame.id] == ToolTransport.Pending(frame.toolCallId, frame.toolId))
    && (b.exit.Some? ==> Stops(a, b))
    && (b.exit.None? ==>
          && b == a.(transport := b.transport)
          && b.transport.fates == a.transport.fates[frame.id := ToolTransport.Delivered(frame.result)]
          && b.transport.pending == a.transport.pending - {frame.id}
          && b.transport.completed == a.transport.completed + {frame.id})
  }

  /** The next frame of the transport goes to the wire. */
  ghost predicate Requests(a: Snapshot, b: Snapshot) {
    && a.tools.Some? && a.received < |a.transport.outgoing|
    && b == a.(received := a.received + 1, wire := a.wire + [ToolFrame(a.tools.value, a.transport.outgoing[a.received])])
  }

  /** A status that names the terminal's identity and cursor is sealed; any other ends the process. */
  ghost predicate Seals(a: Snapshot, b: Snapshot, id: string, identity: Identity, cursor: Option<nat>) {
    && (b.exit.None? <==>
          && a.terminal.Some? && a.terminal.value.identity == identity
          && cursor == Some(a.terminal.value.cursor))
    && (b.exit.Some? ==> Stops(a, b))
    && (b.exit.None? ==> b == a.(wire := a.wire + [Sealed(id, identity, cursor.value)]))
  }

  ghost predicate Closes(a: Snapshot, b: Snapshot) {
    if a.task.None? then b == a.(inputOpen := false, exit := Some(Clean))
    else
      b == a.(inputOpen := false, lostAt := Some(|a.wire|), task := Some(a.task.value.(allowed := false, cancelled := true)))
  }

  /** The event is the active query's next and goes to the wire. */
  ghost predicate Emits(a: Snapshot, b: Snapshot, event: Event)
    requires a.active.Some?
  {
    var emission := Emission(a.active.value, event);
    b == a.(cursor := a.cursor + 1, emitted := a.emitted + [emission], wire := a.wire + [EventFrame(emission)])
  }

  /** A provider's event: usage leaves no trace, a token or a thought is the query's next event. */
  ghost predicate Provides(a: Snapshot, b: Snapshot, event: ProviderEvent) {
    && a.active.Some?
    && match event
       case Usage => b == a
       case Token(text) => Emits(a, b, Event.OutputToken(a.cursor + 1, text))
       case Reasoning(text) => Emits(a, b, ReasoningObserved(a.cursor + 1, |text|))
  }

  /** The events that a task without a cancel ends with: those of its message if it succeeded and said something,
      and one failed event otherwise. */
  ghost predicate Ends(a: Snapshot, b: Snapshot, succeeded: bool) {
    && a.active.Some?
    && var identity, cursor, said := a.active.value, a.cursor, Spoken(a.emitted);
       b.wire == a.wire +
         if succeeded && said != "" then
           [EventFrame(Emission(identity, OutputMessage(cursor + 1, said))), EventFrame(Emission(identity, Completed(cursor + 2)))]
         else
           [EventFrame(Emission(identity, Failed(cursor + 1, if succeeded then "empty_output" else "provider_failed")))]
  }

  /** The end of the task: behind a lost input, or a failed join, the process ends without a terminal; a cancelled
      task is answered with the stored cancel; another ends with its result. */
  ghost predicate Finishes(a: Snapshot, b: Snapshot, end: TaskEnd) {
    && b.task.None? && b.tools.None? && !b.events && a.task.Some? && a.active.Some? && b.inputOpen == a.inputOpen
    && (b.exit.None? <==> end.Finished? && a.task.value.allowed)
    && (b.exit.Some? ==> b.wire == a.wire && b.exit.value.Blocked?)
    && (b.exit.None? ==> b.active.None? && b.terminal.Some?)
    && (b.exit.None? && a.task.value.cancelled ==>
          && a.task.value.deferred.Some?
          && b.wire == a.wire
            + [Answer("query.cancel", a.task.value.deferred.value, true),
               EventFrame(Emission(a.active.value, Cancelled(a.cursor + 1, "user_requested")))])
    && (b.exit.None? && !a.task.value.cancelled ==> Ends(a, b, end.succeeded))
  }

  ghost predicate Obeys(a: Snapshot, b: Snapshot, command: Command) {
    match command
    case AskCapabilities(id) => Refuses(a, b, Capabilities(id))
    case StartQuery(id, request) => Starts(a, b, id, request)
    case CancelQuery(id, run) => Cancels(a, b, id, run)
    case ToolResult(frame) => Delivers(a, b, frame)
    case QueryStatus(id, identity, cursor) => Seals(a, b, id, identity, cursor)
    case OtherCommand(name, id) => Refuses(a, b, Answer(name, id, false))
    case Malformed => Stops(a, b)
  }

  ghost predicate Takes(a: Snapshot, b: Snapshot, branch: Branch) {
    match branch
    case Line(command) => Obeys(a, b, command)
    case InputFailed => Stops(a, b)
    case InputClosed => Closes(a, b)
    case ToolRequest => Requests(a, b)
    case ToolStep(step) => b == a.(transport := ToolTransport.Next(a.transport, step))
    case ToolsClosed => b == a.(tools := None)
    case Provider(event) => Provides(a, b, event)
    case ProviderDone(end) => Finishes(a, b, end)
  }

  /** Which branches are open. */
  predicate Open(a: Snapshot, branch: Branch) {
    && a.exit.None?
    && match branch
       case Line(_) => a.inputOpen
       case InputFailed => a.inputOpen
       case InputClosed => a.inputOpen
       case ToolRequest => a.tools.Some? && a.received < |a.transport.outgoing|
       case ToolStep(step) => a.task.Some? && !step.DeliverResult?
       case ToolsClosed => a.tools.Some?
       case Provider(_) => a.task.Some?
       case ProviderDone(_) => a.task.Some?
  }

  /** A branch is taken if it is open, and has no effect otherwise. */
  ghost predicate Follows(a: Snapshot, b: Snapshot, branch: Branch) {
    if Open(a, branch) then Takes(a, b, branch) else b == a
  }

  /** The states that the branches of a schedule lead through, one after another. */
  ghost predicate IsRun(states: seq<Snapshot>, schedule: seq<Branch>) {
    |states| == |schedule| + 1 && forall k | 0 <= k < |schedule| :: Follows(states[k], states[k + 1], schedule[k])
  }

  lemma RunGoesOn(states: seq<Snapshot>, schedule: seq<Branch>, k: nat, next: Snapshot)
    requires k < |schedule| && IsRun(states, schedule[..k]) && Follows(states[k], next, schedule[k])
    ensures IsRun(states + [next], schedule[..k + 1])
  {
    var all, some := states + [next], schedule[..k + 1];
    forall i | 0 <= i < |some|
      ensures Follows(all[i], all[i + 1], some[i])
    {
      if i < k {
        assert schedule[..k][i] == some[i];
      }
    }
  }

  class Host {
    const machine: Machine
    var inputOpen: bool
    var task: Option<Task>
    var events: bool
    var tools: Option<Identity>
    /** The transport of the latest task, and how many of its frames the loop has received. */
    var transport: ToolTransport.State
    var received: nat
    var exit: Option<Exit>
    var wire: seq<Frame>
    /** How much was on the wire when stdin closed under a task. */
    ghost var lostAt: Option<nat>

    ghost predicate Valid()
      reads this, machine
    {
      && machine.Valid() && LawfulWire(wire) && EventsOf(wire) == machine.emitted && NotAccepting(wire)
      && TaskAgrees(task, events, tools, machine.active, inputOpen)
      && LossAgrees(lostAt, task, inputOpen, wire, exit)
      && ToolsAgree(tools, transport, received, wire)
      && (exit.None? ==> inputOpen || task.Some?)
    }

    constructor ()
      ensures Valid() && fresh(machine) && wire == [] && exit.None? && inputOpen
    {
      machine := new Machine();
      inputOpen, task, events, tools, exit, wire, lostAt := true, None, false, None, None, [], None;
      transport, received := ToolTransport.Initial(""), 0;
      ToolTransport.InitialIsSound("");
    }

    /** The guards of the `select!`. */
    predicate Enabled(branch: Branch)
      reads this
    {
      && exit.None?
      && match branch
         case Line(_) => inputOpen
         case InputFailed => inputOpen
         case InputClosed => inputOpen
         case ToolRequest => tools.Some? && received < |transport.outgoing|
         case ToolStep(step) => task.Some? && !step.DeliverResult?
         case ToolsClosed => tools.Some?
         case Provider(_) => events
         case ProviderDone(_) => events
    }

    ghost function Now(): Snapshot
      reads this, machine
    {
      Snapshot(inputOpen, task, events, tools, transport, received, exit, wire, lostAt,
               machine.active, machine.cursor, machine.terminal, machine.emitted)
    }

    /** There is always an open branch, until the process ends. */
    lemma BranchesAreOpen(branch: Branch)
      requires Valid()
      ensures Enabled(branch) <==> Open(Now(), branch)
      ensures exit.None? ==> inputOpen || task.Some?
    {}

    method Write(frame: Frame)
      requires LawfulWire(wire) && MayWrite(wire, frame)
      modifies this`wire
      ensures wire == old(wire) + [frame] && LawfulWire(wire)
      ensures EventsOf(wire) == EventsOf(old(wire)) + if frame.EventFrame? then [frame.emission] else []
      ensures ToolsSince(wire) == NextTools(ToolsSince(old(wire)), frame)
    {
      WireNext(wire, frame);
      wire := wire + [frame];
    }

    /** An error that ends the process. */
    method Block(reason: string)
      requires Valid() && exit.None?
      modifies this`exit
      ensures Valid() && exit == Some(Blocked(reason))
    {
      exit := Some(Blocked(reason));
    }

    method Respond(frame: Frame)
      requires Valid() && exit.None? && (frame.Capabilities? || (frame.Answer? && !frame.accepted))
      modifies this`wire
      ensures Valid() && wire == old(wire) + [frame]
    {
      Write(frame);
    }

    /** Writes what the machine has just emitted. */
    method WriteEvents(events: seq<Emission>)
      requires machine.Valid() && LawfulWire(wire)
      requires EventsOf(wire) + events == machine.emitted
      requires NotAccepting(wire)
      requires forall k | 0 <= k < |events| :: !events[k].event.Cancelled?
      modifies this`wire
      ensures LawfulWire(wire) && EventsOf(wire) == machine.emitted
      ensures wire == old(wire) + Frames(events)
      ensures NotAccepting(wire)
    {
      for k := 0 to |events|
        invariant LawfulWire(wire)
        invariant machine.emitted == EventsOf(wire) + events[k..]
        invariant wire == old(wire) + Frames(events[..k])
        invariant NotAccepting(wire)
      {
        OneMoreEvent(machine.emitted, EventsOf(wire), events, k, old(wire));
        Write(EventFrame(events[k]));
      }
      assert events[..|events|] == events;
    }

    method WriteEvent(emission: Emission)
      requires machine.Valid() && LawfulWire(wire)
      requires EventsOf(wire) + [emission] == machine.emitted
      requires NotAccepting(wire)
      requires !emission.event.Cancelled?
      modifies this`wire
      ensures LawfulWire(wire) && EventsOf(wire) == machine.emitted
      ensures wire == old(wire) + [EventFrame(emission)]
      ensures ToolsSince(wire) == NextTools(ToolsSince(old(wire)), EventFrame(emission))
    {
      NextEmission(machine.emitted, EventsOf(wire), emission, []);
      Write(EventFrame(emission));
    }

    method OnStart(id: string, request: Request)
      requires Valid() && exit.None? && inputOpen
      modifies this, machine
      ensures Valid()
      ensures Starts(old(Now()), Now(), id, request)
    {
      match request
      case Unreadable => Block("query.start cannot be read");
      case Fixture(identity, disposition, admitted) => StartFixture(id, identity, disposition, admitted);
      case Real(identity, admitted) => StartReal(id, identity, admitted);
    }

    method StartFixture(id: string, identity: Identity, disposition: Disposition, admitted: bool)
      requires Valid() && exit.None? && inputOpen
      modifies this`wire, machine
      ensures Valid()
      ensures Starts(old(Now()), Now(), id, Fixture(identity, disposition, admitted))
    {
      var started := machine.Start(identity, admitted, disposition);
      if started.Err? {
        Write(Answer("query.start", id, false));
      } else {
        WriteStart(id, identity, started.value);
      }
    }

    /** The acceptance of a start and the query's first events. */
    method WriteStart(id: string, identity: Identity, events: seq<Event>)
      requires machine.Valid() && LawfulWire(wire)
      requires EventsOf(wire) + Emissions(identity, events) == machine.emitted
      requires NotAccepting(wire)
      requires forall k | 0 <= k < |events| :: !events[k].Cancelled?
      modifies this`wire
      ensures LawfulWire(wire) && EventsOf(wire) == machine.emitted
      ensures wire == old(wire) + ([Answer("query.start", id, true)] + Frames(Emissions(identity, events)))
      ensures NotAccepting(wire)
    {
      Write(Answer("query.start", id, true));
      ghost var frames := Frames(Emissions(identity, events));
      WriteEvents(Emissions(identity, events));
      assert old(wire) + [Answer("query.start", id, true)] + frames == old(wire) + ([Answer("query.start", id, true)] + frames);
    }

    method StartReal(id: string, identity: Identity, admitted: bool)
      requires Valid() && exit.None? && inputOpen
      modifies this, machine
      ensures Valid()
      ensures Starts(old(Now()), Now(), id, Real(identity, admitted))
    {
      var started := machine.StartReal(identity, admitted);
      if started.Err? {
        Write(Answer("query.start", id, false));
        return;
      }
      assert Emissions(identity, [started.value]) == [Emission(identity, started.value)];
      FirstFrames(wire, id, identity);
      WriteStart(id, identity, [started.value]);
      OpenTask(identity);
    }

    /** A new task with its event channel, its transport and its tool channel. */
    method OpenTask(identity: Identity)
      requires machine.Valid() && machine.active == Some(identity) && LawfulWire(wire)
      requires EventsOf(wire) == machine.emitted && NotAccepting(wire) && ToolsSince(wire) == []
      requires inputOpen && exit.None? && lostAt.None?
      modifies this`task, this`events, this`tools, this`transport, this`received
      ensures Valid() && task == Some(Task(identity.run, false, true, None)) && tools == Some(identity)
      ensures transport == ToolTransport.Initial(identity.run) && received == 0
    {
      ToolTransport.InitialIsSound(identity.run);
      task, events, tools := Some(Task(identity.run, false, true, None)), true, Some(identity);
      transport, received := ToolTransport.Initial(identity.run), 0;
    }

    /** `query.cancel`: deferred while a task runs, at once without one. */
    method OnCancel(id: string, run: Option<string>)
      requires Valid() && exit.None? && inputOpen
      modifies this, machine
      ensures Valid()
      ensures Cancels(old(Now()), Now(), id, run)
    {
      if run.None? {
        Block("cancel run_id is missing");
      } else if task.Some? {
        if task.value.run != run.value {
          Block("cancel run id does not match the active query");
        } else if task.value.deferred.Some? {
          Block("Goose query cancellation is already pending");
        } else {
          task := Some(task.value.(deferred := Some(id), cancelled := true));
        }
      } else if machine.active.None? || machine.active.value.run != run.value {
        Block("cancel run id does not match the active query");
      } else {
        WriteCancelled(id, machine.active.value);
      }
    }

    /** The acceptance and, right behind it, the cancelled event. */
    method WriteCancelled(id: string, identity: Identity)
      requires machine.Valid() && machine.active == Some(identity) && LawfulWire(wire)
      requires EventsOf(wire) == machine.emitted && NotAccepting(wire)
      modifies this`wire, machine
      ensures machine.Valid() && machine.active.None? && LawfulWire(wire) && EventsOf(wire) == machine.emitted
      ensures machine.terminal.Some? && wire == old(wire) + CancelFrames(id, identity, old(machine.cursor))
      ensures NotAccepting(wire)
    {
      Write(Answer("query.cancel", id, true));
      var event := machine.Cancel(identity.run);
      NextEmission(machine.emitted, EventsOf(wire), Emission(identity, event.value), []);
      Write(EventFrame(Emission(identity, event.value)));
    }

    /** `tool.result`: what the transport does not accept ends the process. */
    method OnToolResult(frame: ToolTransport.ResultFrame)
      requires Valid() && exit.None? && inputOpen
      modifies this`exit, this`transport
      ensures Valid() && Delivers(old(Now()), Now(), frame)
      ensures exit.None? <==> task.Some? && ToolTransport.Verdict(old(transport), frame).Accepted?
      ensures transport ==
        if task.Some? then ToolTransport.Next(old(transport), ToolTransport.DeliverResult(frame)) else old(transport)
      ensures wire == old(wire)
    {
      if task.None? {
        Block("Goose tool.result has no active query");
        return;
      }
      var delivery := ToolTransport.Verdict(transport, frame);
      TransportSteps(ToolTransport.DeliverResult(frame));
      if !delivery.Accepted? {
        Block("Goose tool.result is rejected");
      }
    }

    /** The transport takes a step; what it has sent stays in the channel. */
    method TransportSteps(step: ToolTransport.Step)
      requires Valid() && exit.None?
      modifies this`transport
      ensures Valid() && transport == ToolTransport.Next(old(transport), step)
    {
      ToolTransport.NextIsSound(transport, step);
      ToolTransport.OutgoingGrows(transport, step);
      transport := ToolTransport.Next(transport, step);
    }

    /** The next frame of the tool channel goes to the wire. */
    method OnToolRequest()
      requires Valid() && Enabled(ToolRequest)
      modifies this`wire, this`received
      ensures Valid()
      ensures Requests(old(Now()), Now())
    {
      MayReceive(wire, transport, received);
      ReceivesNext(transport, received);
      Write(ToolFrame(tools.value, transport.outgoing[received]));
      received := received + 1;
    }

    /** `query.status`: a seal only for the terminal's own identity and cursor. */
    method OnStatus(id: string, identity: Identity, cursor: Option<nat>)
      requires Valid() && exit.None? && inputOpen
      modifies this`exit, this`wire
      ensures Valid()
      ensures Seals(old(Now()), Now(), id, identity, cursor)
    {
      if machine.terminal.None? {
        Block("terminal status is unavailable");
      } else if machine.terminal.value.identity != identity || cursor != Some(machine.terminal.value.cursor) {
        Block("terminal seal identity mismatch");
      } else {
        Write(Sealed(id, identity, machine.terminal.value.cursor));
      }
    }

    method OnLine(command: Command)
      requires Valid() && Enabled(Line(command))
      modifies this, machine
      ensures Valid()
      ensures Obeys(old(Now()), Now(), command)
    {
      match command
      case AskCapabilities(id) => Respond(Capabilities(id));
      case StartQuery(id, request) => OnStart(id, request);
      case CancelQuery(id, run) => OnCancel(id, run);
      case ToolResult(frame) => OnToolResult(frame);
      case QueryStatus(id, identity, cursor) => OnStatus(id, identity, cursor);
      case OtherCommand(name, id) =>
        Respond(Answer(name, id, false));
      case Malformed => Block("command frame is malformed");
    }

    /** stdin is closed: without a task the host is done; with one it is cancelled and may not
        publish a terminal any more. */
    method OnInputClosed()
      requires Valid() && Enabled(InputClosed)
      modifies this`inputOpen, this`task, this`lostAt, this`exit
      ensures Valid()
      ensures Closes(old(Now()), Now())
    {
      inputOpen := false;
      if task.Some? {
        task := Some(task.value.(allowed := false, cancelled := true));
        lostAt := Some(|wire|);
      } else {
        exit := Some(Clean);
      }
    }

    method OnProvider(event: ProviderEvent)
      requires Valid() && Enabled(Provider(event))
      modifies this, machine
      ensures Valid()
      ensures Provides(old(Now()), Now(), event)
    {
      var identity := machine.active.value;
      var pushed := machine.PushReal(event);
      if pushed.value.Some? {
        WriteEvent(Emission(identity, pushed.value.value));
      }
    }

    /** The task is over: a lost input allows no terminal; a cancel is accepted and ends the query;
        otherwise the task's result does. */
    method OnProviderDone(end: TaskEnd)
      requires Valid() && Enabled(ProviderDone(end))
      modifies this, machine
      ensures Valid()
      ensures Finishes(old(Now()), Now(), end)
    {
      if end.JoinFailed? {
        StopTask("Goose provider task failed");
      } else if !task.value.allowed {
        StopTask("Goose Host input closed with an unsettled query; terminal is unknown");
      } else {
        EndTask(end.succeeded);
        EndIsTold(old(Now()), Now(), end);
      }
    }

    method StopTask(reason: string)
      requires Valid() && exit.None? && task.Some?
      modifies this`events, this`tools, this`task, this`exit
      ensures Valid() && task.None? && tools.None? && exit == Some(Blocked(reason))
    {
      events, tools, task, exit := false, None, None, Some(Blocked(reason));
    }

    method EndTask(succeeded: bool)
      requires Valid() && exit.None? && task.Some? && task.value.allowed
      modifies this`events, this`tools, this`task, this`wire, machine
      ensures Valid() && task.None? && tools.None? && machine.active.None? && machine.terminal.Some?
      ensures wire == old(wire)
        + EndFrames(old(task).value, succeeded, old(machine.active).value, old(machine.cursor), Spoken(old(machine.emitted)))
    {
      var done, identity := task.value, machine.active.value;
      events, tools, task := false, None, None;
      FinishQuery(succeeded, done, identity);
    }

    method FinishQuery(succeeded: bool, done: Task, identity: Identity)
      requires machine.Valid() && machine.active == Some(identity) && LawfulWire(wire)
      requires EventsOf(wire) == machine.emitted && NotAccepting(wire)
      requires done.cancelled ==> done.deferred.Some?
      modifies this`wire, machine
      ensures machine.Valid() && machine.active.None? && machine.terminal.Some?
      ensures LawfulWire(wire) && EventsOf(wire) == machine.emitted
      ensures NotAccepting(wire)
      ensures wire == old(wire) + EndFrames(done, succeeded, identity, old(machine.cursor), Spoken(old(machine.emitted)))
    {
      if done.cancelled {
        WriteCancelled(done.deferred.value, identity);
      } else {
        var finished := machine.FinishReal(succeeded);
        WriteEvents(Emissions(identity, finished.value));
      }
    }

    method Take(branch: Branch)
      requires Valid() && Enabled(branch)
      modifies this, machine
      ensures Valid()
      ensures Takes(old(Now()), Now(), branch)
    {
      match branch
      case Line(command) => OnLine(command);
      case InputFailed => Block("Host v2 input failed");
      case InputClosed => OnInputClosed();
      case ToolRequest => OnToolRequest();
      case ToolStep(step) => TransportSteps(step);
      case ToolsClosed => tools := None;
      case Provider(event) => OnProvider(event);
      case ProviderDone(end) => OnProviderDone(end);
    }

    /** Every schedule of branches takes the open ones, one after another, and keeps the wire lawful, and free of
        terminals once input was lost. */
    method Serve(schedule: seq<Branch>) returns (ghost states: seq<Snapshot>)
      requires Valid()
      modifies this, machine
      ensures Valid() && LawfulWire(wire)
      ensures lostAt.Some? ==> lostAt.value <= |wire| && NoTerminalFrom(wire, lostAt.value)
      ensures IsRun(states, schedule) && states[0] == old(Now()) && states[|schedule|] == Now()
    {
      states := [Now()];
      for k := 0 to |schedule|
        invariant Valid()
        invariant IsRun(states, schedule[..k]) && states[0] == old(Now()) && states[k] == Now()
      {
        BranchesAreOpen(schedule[k]);
        if Enabled(schedule[k]) {
          Take(schedule[k]);
        }
        RunGoesOn(states, schedule, k, Now());
        states := states + [Now()];
      }
      assert schedule[..|schedule|] == schedule;
    }
  }

  /** What the end of a task writes: a deferred cancel goes before the task's own result. */
  function EndFrames(done: Task, succeeded: bool, identity: Identity, cursor: nat, said: string): seq<Frame> {
    if done.cancelled && done.deferred.Some? then CancelFrames(done.deferred.value, identity, cursor)
    else Frames(Emissions(identity, FinishEvents(succeeded, cursor, said)))
  }

  function CancelFrames(id: string, identity: Identity, cursor: nat): seq<Frame> {
    [Answer("query.cancel", id, true), EventFrame(Emission(identity, Cancelled(cursor + 1, "user_requested")))]
  }

  function Frames(events: seq<Emission>): (r: seq<Frame>)
    ensures |r| == |events| && forall k | 0 <= k < |r| :: r[k] == EventFrame(events[k])
  {
    seq(|events|, i requires 0 <= i < |events| => EventFrame(events[i]))
  }

  lemma EndIsTold(a: Snapshot, b: Snapshot, end: TaskEnd)
    requires a.task.Some? && a.active.Some? && end.Finished? && a.task.value.allowed
    requires a.task.value.cancelled ==> a.task.value.deferred.Some?
    requires b.task.None? && b.tools.None? && !b.events && b.inputOpen == a.inputOpen && b.exit.None?
    requires b.active.None? && b.terminal.Some?
    requires b.wire == a.wire + EndFrames(a.task.value, end.succeeded, a.active.value, a.cursor, Spoken(a.emitted))
    ensures Finishes(a, b, end)
  {
    if !a.task.value.cancelled {
      var events := FinishEvents(end.succeeded, a.cursor, Spoken(a.emitted));
      assert Frames(Emissions(a.active.value, events))
          == if |events| == 1 then [EventFrame(Emission(a.active.value, events[0]))]
             else [EventFrame(Emission(a.active.value, events[0])), EventFrame(Emission(a.active.value, events[1]))];
    }
  }

  lemma MayReceive(wire: seq<Frame>, transport: ToolTransport.State, received: nat)
    requires ToolTransport.Sound(transport) && received < |transport.outgoing|
    requires ToolsSince(wire) == transport.outgoing[..received]
    ensures MayRequest(ToolsSince(wire), transport.outgoing[received])
  {
    ToolTransport.FramesComeInOrder(transport, received);
  }

  lemma ReceivesNext(transport: ToolTransport.State, received: nat)
    requires received < |transport.outgoing|
    ensures transport.outgoing[..received] + [transport.outgoing[received]] == transport.outgoing[..received + 1]
  {}

  lemma FirstFrames(wire: seq<Frame>, id: string, identity: Identity)
    ensures var first := [Answer("query.start", id, true)] + Frames(Emissions(identity, [Running(1)]));
      && first == [Answer("query.start", id, true), EventFrame(Emission(identity, Running(1)))]
      && ToolsSince(wire + first) == []
  {
    var all := wire + ([Answer("query.start", id, true)] + Frames(Emissions(identity, [Running(1)])));
    assert all[|all| - 1] == EventFrame(Emission(identity, Running(1)));
  }

  lemma OneMoreEvent(all: seq<Emission>, before: seq<Emission>, events: seq<Emission>, k: nat, wire: seq<Frame>)
    requires k < |events| && Lawful(all) && all == before + events[k..]
    ensures MayFollow(before, events[k]) && all == before + [events[k]] + events[k + 1..]
    ensures wire + Frames(events[..k]) + [EventFrame(events[k])] == wire + Frames(events[..k + 1])
  {
    assert events[k..] == [events[k]] + events[k + 1..];
    NextEmission(all, before, events[k], events[k + 1..]);
    assert Frames(events[..k + 1]) == Frames(events[..k]) + [EventFrame(events[k])];
  }

  lemma NextEmission(all: seq<Emission>, before: seq<Emission>, next: Emission, rest: seq<Emission>)
    requires Lawful(all) && all == before + ([next] + rest)
    ensures MayFollow(before, next)
  {
    assert FollowsAt(all, |before|);
    assert all[..|before|] == before && all[|before|] == next;
  }

  predicate IsTerminalFrame(frame: Frame) {
    frame.EventFrame? && frame.emission.event.IsTerminal()
  }
}
