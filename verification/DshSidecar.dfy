/** The DSH sidecar and its command loop: `createSidecar` and `serveNdjson` of
    mvp/sidecars/deepseek-harness/src/server.ts, with the cursors of event-mapper.ts and the seal of
    checkpoint.ts. Commands are handled one after another; native events, completions and the end of
    the input come in between, whenever they like. */
module DshSidecar {
  import opened Basics
  import HostWire

  type Identity = HostWire.Identity

  datatype Status = Completed | Failed | Cancelled

  datatype Body = Running | Delta(text: string) | Message(text: string) | End(status: Status)

  datatype Event = Event(identity: Identity, cursor: nat, body: Body)

  /** An event as the rules of the wire see it. */
  function OnWire(e: Event): HostWire.Event {
    HostWire.Event(e.identity, e.cursor, e.body.End?)
  }

  /** What is written to stdout. A late refusal is an error answer to a start that had used up its Grant. */
  datatype Frame =
    | EventFrame(event: Event)
    | Answer(command: string, id: string, accepted: bool)
    | LateRefusal(id: string)
    | Sealed(id: string, identity: Identity, cursor: nat)
    | NotSealed(id: string, identity: Identity, cursor: nat)

  /** What a `query.start` comes to before the sidecar's own checks: refused before the Grant is used
      up, refused after it, or a query of one of the kinds. */
  datatype Request =
    | Malformed
    | RefusedLate
    | Native(identity: Identity)
    | FixtureFailed(identity: Identity)
    | FixtureHeld(identity: Identity)
    | FixtureCompleted(identity: Identity, content: string)

  datatype Command =
    | Capabilities(id: string)
    | Start(id: string, request: Request)
    | Cancel(id: string, run: string)
    | QueryStatus(id: string, identity: Identity, cursor: nat)
    | Other(name: string, id: string)

  /** What may happen next. */
  datatype Step =
    | Line(command: Command)
    | NativeText(number: nat, text: string)
    | Completion(number: nat, result: Result)
    | CancelSettled
    | InputClosed

  /** How a native session ends. */
  datatype Result = Success(content: string) | Failure

  /** The active query; `number` tells one native session's closure from another's. */
  datatype Active = Active(number: nat, identity: Identity, cursor: nat, native: bool)

  /** The command chain: free, or waiting for the cancelled session `number` to complete. */
  datatype Chain = Idle | Cancelling(id: string, number: nat)

  datatype Checkpoint = Checkpoint(identity: Identity, cursor: nat)

  // ----- cursors -----

  /** `mapSessionEvents`: one event a body, with the cursors behind `offset`. */
  function Mapped(identity: Identity, bodies: seq<Body>, offset: nat): (r: seq<Event>)
    ensures |r| == |bodies|
    ensures forall k | 0 <= k < |r| :: r[k] == Event(identity, offset + k + 1, bodies[k])
  {
    seq(|bodies|, k requires 0 <= k < |bodies| => Event(identity, offset + k + 1, bodies[k]))
  }

  // ----- the law of the wire -----

  /** What a wire says: its events, the terminal that can be sealed, and how many Grants it has used up. */
  datatype View = View(events: seq<HostWire.Event>, sealable: Option<HostWire.Event>, spent: nat)

  const NOTHING := View([], None, 0)

  /** A terminal can be sealed until the next query starts or a start is refused late. */
  function Seen(v: View, next: Frame): View {
    match next
    case EventFrame(event) =>
      View(v.events + [OnWire(event)], if event.body.End? then Some(OnWire(event)) else None,
           v.spent + if event.cursor == 1 then 1 else 0)
    case LateRefusal(_) => View(v.events, None, v.spent + 1)
    case _ => v
  }

  /** What the first `n` frames say. */
  function ViewTo(wire: seq<Frame>, n: nat): View
    requires n <= |wire|
  {
    if n == 0 then NOTHING else Seen(ViewTo(wire, n - 1), wire[n - 1])
  }

  function ViewOf(wire: seq<Frame>): View {
    ViewTo(wire, |wire|)
  }

  function EventsOf(wire: seq<Frame>): seq<HostWire.Event> {
    ViewOf(wire).events
  }

  /** Events keep the rules; a status is answered with a seal if and only if what it names can be sealed. */
  predicate MayWrite(v: View, next: Frame) {
    match next
    case EventFrame(event) => HostWire.MayFollow(v.events, OnWire(event))
    case Answer(_, _, _) => true
    case LateRefusal(_) => EndsTerminal(v.events)
    case Sealed(_, identity, cursor) => v.sealable == Some(HostWire.Event(identity, cursor, true))
    case NotSealed(_, identity, cursor) => v.sealable != Some(HostWire.Event(identity, cursor, true))
  }

  predicate EndsTerminal(events: seq<HostWire.Event>) {
    events != [] ==> events[|events| - 1].terminal
  }

  predicate WrittenAt(wire: seq<Frame>, i: nat)
    requires i < |wire|
  {
    MayWrite(ViewTo(wire, i), wire[i])
  }

  predicate LawfulWire(wire: seq<Frame>) {
    forall i: nat | i < |wire| :: WrittenAt(wire, i)
  }

  lemma {:induction false} ViewInside(wire: seq<Frame>, more: seq<Frame>, n: nat)
    requires n <= |wire|
    ensures ViewTo(wire + more, n) == ViewTo(wire, n)
  {
    if n > 0 {
      ViewInside(wire, more, n - 1);
      assert (wire + more)[n - 1] == wire[n - 1];
    }
  }

  lemma WireNext(wire: seq<Frame>, next: Frame)
    requires LawfulWire(wire) && MayWrite(ViewOf(wire), next)
    ensures LawfulWire(wire + [next]) && ViewOf(wire + [next]) == Seen(ViewOf(wire), next)
  {
    var all := wire + [next];
    ViewInside(wire, [next], |wire|);
    forall i: nat | i < |all|
      ensures WrittenAt(all, i)
    {
      assert i < |wire| ==> WrittenAt(wire, i) && all[i] == wire[i];
      if i < |wire| {
        ViewInside(wire, [next], i);
      }
    }
  }

  /** A first part of a lawful wire is lawful, and says what the wire said by then. */
  lemma WirePrefix(wire: seq<Frame>, n: nat)
    requires LawfulWire(wire) && n <= |wire|
    ensures LawfulWire(wire[..n]) && ViewOf(wire[..n]) == ViewTo(wire, n)
  {
    var some, more := wire[..n], wire[n..];
    assert some + more == wire;
    ViewInside(some, more, n);
    forall i: nat | i < n
      ensures WrittenAt(some, i)
    {
      assert WrittenAt(wire, i);
      ViewInside(some, more, i);
    }
  }

  /** The events of a lawful wire keep the rules. */
  lemma {:induction false} WireEventsAreLawful(wire: seq<Frame>)
    requires LawfulWire(wire)
    ensures HostWire.Lawful(EventsOf(wire))
  {
    if wire != [] {
      var n := |wire| - 1;
      WirePrefix(wire, n);
      WireEventsAreLawful(wire[..n]);
      assert WrittenAt(wire, n);
      if wire[n].EventFrame? {
        HostWire.LawfulNext(EventsOf(wire[..n]), OnWire(wire[n].event));
      }
    }
  }

  // ----- when a terminal can be sealed -----

  /** A late refusal with no event behind it. */
  predicate RefusedSince(wire: seq<Frame>) {
    exists i :: 0 <= i < |wire| && wire[i].LateRefusal? && forall j | i < j < |wire| :: !wire[j].EventFrame?
  }

  predicate LastTerminalIs(wire: seq<Frame>, e: HostWire.Event) {
    var events := EventsOf(wire);
    events != [] && events[|events| - 1] == e && e.terminal
  }

  lemma RefusedSinceNext(wire: seq<Frame>, next: Frame)
    ensures RefusedSince(wire + [next]) <==> next.LateRefusal? || (!next.EventFrame? && RefusedSince(wire))
  {
    var all := wire + [next];
    if next.LateRefusal? {
      assert all[|wire|].LateRefusal?;
    }
    if RefusedSince(wire) && !next.EventFrame? {
      var i :| 0 <= i < |wire| && wire[i].LateRefusal? && forall j | i < j < |wire| :: !wire[j].EventFrame?;
      assert all[i].LateRefusal? && forall j | i < j < |all| :: !all[j].EventFrame?;
    }
    if RefusedSince(all) && !next.LateRefusal? {
      var i :| 0 <= i < |all| && all[i].LateRefusal? && forall j | i < j < |all| :: !all[j].EventFrame?;
      assert wire[i].LateRefusal? && forall j | i < j < |wire| :: wire[j] == all[j];
      assert !all[|wire|].EventFrame?;
    }
  }

  /** What can be sealed is the last terminal on the wire, unless a start was refused late since. */
  lemma {:induction false} SealableIsTheRule(wire: seq<Frame>, e: HostWire.Event)
    requires LawfulWire(wire)
    ensures ViewOf(wire).sealable == Some(e) <==> LastTerminalIs(wire, e) && !RefusedSince(wire)
  {
    if wire != [] {
      var n := |wire| - 1;
      WirePrefix(wire, n);
      assert WrittenAt(wire, n);
      SealableIsTheRule(wire[..n], e);
      RefusedSinceNext(wire[..n], wire[n]);
      assert wire == wire[..n] + [wire[n]];
    }
  }

  /** Every status on the wire is sealed if and only if it names the last terminal and no start was
      refused late since. */
  lemma StatusAnswersAreExact(wire: seq<Frame>, i: nat)
    requires LawfulWire(wire) && i < |wire| && (wire[i].Sealed? || wire[i].NotSealed?)
    ensures wire[i].Sealed? <==>
      LastTerminalIs(wire[..i], HostWire.Event(wire[i].identity, wire[i].cursor, true)) && !RefusedSince(wire[..i])
  {
    assert WrittenAt(wire, i);
    WirePrefix(wire, i);
    SealableIsTheRule(wire[..i], HostWire.Event(wire[i].identity, wire[i].cursor, true));
  }

  /** A wire with events has used up a Grant for the first of them. */
  lemma {:induction false} EventsAreSpent(wire: seq<Frame>)
    requires LawfulWire(wire)
    ensures EventsOf(wire) != [] ==> ViewOf(wire).spent >= 1
    ensures EventsOf(wire) != [] && RefusedSince(wire) ==> ViewOf(wire).spent >= 2
    ensures RefusedSince(wire) ==> ViewOf(wire).spent >= 1
  {
    if wire != [] {
      var n := |wire| - 1;
      WirePrefix(wire, n);
      assert WrittenAt(wire, n);
      EventsAreSpent(wire[..n]);
      RefusedSinceNext(wire[..n], wire[n]);
      assert wire == wire[..n] + [wire[n]];
    }
  }

  /** With one Grant, as the process gets it, the last terminal on the wire can always be sealed. */
  lemma OneGrantKeepsTheSeal(wire: seq<Frame>, e: HostWire.Event)
    requires LawfulWire(wire) && ViewOf(wire).spent <= 1
    ensures ViewOf(wire).sealable == Some(e) <==> LastTerminalIs(wire, e)
  {
    SealableIsTheRule(wire, e);
    EventsAreSpent(wire);
  }

  // ----- how the sidecar agrees with the wire -----

  /** The last event on the wire is the `cursor`-th of an open query. */
  predicate EndsOpen(events: seq<HostWire.Event>, identity: Identity, cursor: nat) {
    && events != []
    && var last := events[|events| - 1]; !last.terminal && last.identity == identity && last.cursor == cursor
  }

  /** The cancelled terminal that a settled session left for the waiting cancel to write. */
  predicate AwaitsCancelled(events: seq<HostWire.Event>, chain: Chain, terminal: Option<Event>, running: set<nat>) {
    && chain.Cancelling? && chain.number !in running
    && terminal.Some? && terminal.value.body == End(Cancelled) && terminal.value.cursor > 1
    && EndsOpen(events, terminal.value.identity, terminal.value.cursor - 1)
  }

  function Standing(terminal: Option<Event>): Option<HostWire.Event> {
    if terminal.Some? then Some(OnWire(terminal.value)) else None
  }

  /** An active query is the one open on the wire. Without one, the wire is closed and the terminal is what
      can be sealed, unless a cancel has yet to write it. */
  predicate Agrees(v: View, active: Option<Active>, chain: Chain, terminal: Option<Event>, running: set<nat>) {
    if active.Some? then
      && terminal.None? && v.sealable.None?
      && EndsOpen(v.events, active.value.identity, active.value.cursor) && active.value.cursor >= 1
      && (active.value.native <==> active.value.number in running)
      && (chain.Cancelling? ==> active.value.native && chain.number == active.value.number)
    else
      || AwaitsCancelled(v.events, chain, terminal, running)
      || (EndsTerminal(v.events) && Standing(terminal) == v.sealable && (terminal.Some? ==> terminal.value.body.End?)
          && (chain.Cancelling? ==>
                chain.number !in running && terminal.Some? && terminal.value.body != End(Cancelled)))
  }

  /** The view of a wire that ends with the event. */
  predicate Ends(v: View, e: Event) {
    && v.events != [] && v.events[|v.events| - 1] == OnWire(e)
    && v.sealable == if e.body.End? then Some(OnWire(e)) else None
  }

  /** A query that has just been ended, by anything but a cancel, agrees with the wire. */
  lemma EndAgrees(v: View, e: Event, chain: Chain, running: set<nat>)
    requires Ends(v, e) && e.body.End? && (chain.Cancelling? ==> chain.number !in running && e.body != End(Cancelled))
    ensures Agrees(v, None, chain, Some(e), running)
  {
  }

  /** A checkpoint exists for a completed terminal and names its cursor. */
  predicate CheckpointAgrees(checkpoint: Option<Checkpoint>, terminal: Option<Event>) {
    checkpoint == if terminal.Some? && terminal.value.body == End(Completed)
                  then Some(Checkpoint(terminal.value.identity, terminal.value.cursor)) else None
  }

  /** Sessions have numbers of their own, and only the one a cancel waits for is aborted while active. */
  predicate NumbersAgree(active: Option<Active>, chain: Chain, running: set<nat>, aborted: set<nat>, nextNumber: nat) {
    && (forall n | n in running :: n < nextNumber) && (forall n | n in aborted :: n < nextNumber)
    && (active.Some? ==> active.value.number < nextNumber && (active.value.number in aborted <==> chain.Cancelling?))
  }

  function Joined(running: set<nat>, number: nat, native: bool): set<nat> {
    if native then running + {number} else running
  }

  lemma OpenAgrees(v: View, identity: Identity, number: nat, native: bool, running: set<nat>, aborted: set<nat>)
    requires Ends(v, Event(identity, 1, Running)) && NumbersAgree(None, Idle, running, aborted, number)
    ensures var active := Some(Active(number, identity, 1, native));
      && Agrees(v, active, Idle, None, Joined(running, number, native))
      && NumbersAgree(active, Idle, Joined(running, number, native), aborted, number + 1)
  {}

  /** A Grant is still there, or was used up for a query on the wire or a late refusal, or has expired; a shut
      down sidecar has none left. */
  predicate GrantsAgree(capacity: nat, grants: nat, v: View, inputClosed: bool) {
    v.spent + grants <= capacity && (inputClosed ==> grants == 0)
  }

  // ----- what each step does -----

  /** The sidecar as a value. */
  datatype Snapshot = Snapshot(
    active: Option<Active>, terminal: Option<Event>, checkpoint: Option<Checkpoint>, chain: Chain, inputClosed: bool,
    running: set<nat>, aborted: set<nat>, nextNumber: nat, grants: nat, wire: seq<Frame>)

  /** The answers that tell of no query. */
  predicate Responds(a: Snapshot, b: Snapshot, command: string, id: string, accepted: bool) {
    b == a.(wire := a.wire + [Answer(command, id, accepted)])
  }

  /** A start while a query is active, without a Grant or malformed is refused; any other uses up a Grant. One that is
      refused late clears the terminal; another is answered with the first events of its kind. */
  predicate Starts(a: Snapshot, b: Snapshot, id: string, request: Request) {
    if a.active.Some? || request.Malformed? || a.grants == 0 then Responds(a, b, "query.start", id, false)
    else
      var yes := Answer("query.start", id, true);
      var started := a.(grants := a.grants - 1, terminal := None, checkpoint := None);
      match request
      case RefusedLate => b == started.(wire := a.wire + [LateRefusal(id)])
      case Native(identity) =>
        b == started.(active := Some(Active(a.nextNumber, identity, 1, true)), nextNumber := a.nextNumber + 1,
                      running := a.running + {a.nextNumber}, wire := a.wire + [yes, EventFrame(Event(identity, 1, Running))])
      case FixtureHeld(identity) =>
        b == started.(active := Some(Active(a.nextNumber, identity, 1, false)), nextNumber := a.nextNumber + 1,
                      wire := a.wire + [yes, EventFrame(Event(identity, 1, Running))])
      case FixtureFailed(identity) =>
        var failed := Event(identity, 1, End(Failed));
        b == started.(terminal := Some(failed), wire := a.wire + [yes, EventFrame(failed)])
      case FixtureCompleted(identity, content) =>
        var completed := Event(identity, 3, End(Completed));
        b == started.(terminal := Some(completed), checkpoint := Some(Checkpoint(identity, 3)),
                      wire := a.wire + [yes, EventFrame(Event(identity, 1, Delta(content))),
                                        EventFrame(Event(identity, 2, Message(content))), EventFrame(completed)])
  }

  predicate IsActiveRun(a: Snapshot, run: string) {
    a.active.Some? && a.active.value.identity.run == run
  }

  /** A cancel for another run is refused; a native query is aborted and waited for; a held one ends at once. */
  predicate Cancels(a: Snapshot, b: Snapshot, id: string, run: string) {
    if !IsActiveRun(a, run) then Responds(a, b, "query.cancel", id, false)
    else if a.active.value.native then
      b == a.(aborted := a.aborted + {a.active.value.number}, chain := Cancelling(id, a.active.value.number))
    else
      var ended := Event(a.active.value.identity, a.active.value.cursor + 1, End(Cancelled));
      b == a.(active := None, terminal := Some(ended), checkpoint := None,
              wire := a.wire + [Answer("query.cancel", id, true), EventFrame(ended)])
  }

  /** A status is sealed if it names the terminal, and an error otherwise. */
  predicate Reports(a: Snapshot, b: Snapshot, id: string, identity: Identity, cursor: nat) {
    var sealed := a.terminal.Some? && a.terminal.value.identity == identity && a.terminal.value.cursor == cursor;
    b == a.(wire := a.wire + [if sealed then Sealed(id, identity, cursor) else NotSealed(id, identity, cursor)])
  }

  predicate IsActiveSession(a: Snapshot, number: nat) {
    a.active.Some? && a.active.value.native && a.active.value.number == number
  }

  /** A text of the active session is the query's next event; any other is dropped. */
  predicate Streams(a: Snapshot, b: Snapshot, number: nat, text: string) {
    if !IsActiveSession(a, number) || text == "" then b == a
    else
      var cursor := a.active.value.cursor + 1;
      b == a.(active := Some(a.active.value.(cursor := cursor)),
              wire := a.wire + [EventFrame(Event(a.active.value.identity, cursor, Delta(text)))])
  }

  /** The end of a session that is not active leaves no trace. The active one that succeeds writes its message and
      the completed terminal; one that fails the failed terminal, or nothing yet if it was aborted. */
  predicate Completes(a: Snapshot, b: Snapshot, number: nat, result: Result) {
    var left := a.(running := a.running - {number});
    if !IsActiveSession(a, number) then b == left
    else
      var identity, cursor := a.active.value.identity, a.active.value.cursor;
      match result
      case Success(content) =>
        var completed := Event(identity, cursor + 2, End(Completed));
        b == left.(active := None, terminal := Some(completed), checkpoint := Some(Checkpoint(identity, cursor + 2)),
                   wire := a.wire + [EventFrame(Event(identity, cursor + 1, Message(content))), EventFrame(completed)])
      case Failure =>
        var ended := Event(identity, cursor + 1, End(if number in a.aborted then Cancelled else Failed));
        b == left.(active := None, terminal := Some(ended), checkpoint := None,
                   wire := a.wire + if number in a.aborted then [] else [EventFrame(ended)])
  }

  /** The waiting cancel is accepted with the cancelled terminal, or is an error if the session ended otherwise;
      behind the end of the input nothing is written. */
  predicate Settles(a: Snapshot, b: Snapshot) {
    && a.chain.Cancelling?
    && b == a.(chain := Idle, wire := a.wire +
         if a.inputClosed then []
         else if a.terminal.Some? && a.terminal.value.body == End(Cancelled)
         then [Answer("query.cancel", a.chain.id, true), EventFrame(a.terminal.value)]
         else [Answer("query.cancel", a.chain.id, false)])
  }

  /** At the end of the input the active query is dropped, its session aborted, and nothing is written. */
  predicate ShutsDown(a: Snapshot, b: Snapshot) {
    b == a.(inputClosed := true, active := None, grants := 0,
            aborted := a.aborted + if a.active.Some? && a.active.value.native then {a.active.value.number} else {})
  }

  predicate Obeys(a: Snapshot, b: Snapshot, command: Command) {
    match command
    case Capabilities(id) => Responds(a, b, "runtime.capabilities", id, true)
    case Start(id, request) => Starts(a, b, id, request)
    case Cancel(id, run) => Cancels(a, b, id, run)
    case QueryStatus(id, identity, cursor) => Reports(a, b, id, identity, cursor)
    case Other(name, id) => Responds(a, b, name, id, false)
  }

  predicate Takes(a: Snapshot, b: Snapshot, step: Step) {
    match step
    case Line(command) => Obeys(a, b, command)
    case NativeText(number, text) => Streams(a, b, number, text)
    case Completion(number, result) => Completes(a, b, number, result)
    case CancelSettled => Settles(a, b)
    case InputClosed => ShutsDown(a, b)
  }

  /** Which steps are due: a command while none is waiting, a text at any time, the end of a running session, and
      the rest of a cancel whose session has ended. */
  predicate Open(a: Snapshot, step: Step) {
    match step
    case Line(_) => a.chain.Idle? && !a.inputClosed
    case NativeText(_, _) => true
    case Completion(number, _) => number in a.running
    case CancelSettled => a.chain.Cancelling? && a.chain.number !in a.running
    case InputClosed => !a.inputClosed
  }

  /** The states that steps lead through, one after another; a step that is not due has no effect. */
  predicate Follows(a: Snapshot, b: Snapshot, step: Step) {
    if Open(a, step) then Takes(a, b, step) else b == a
  }

  predicate IsRun(states: seq<Snapshot>, steps: seq<Step>) {
    |states| == |steps| + 1 && forall k | 0 <= k < |steps| :: Follows(states[k], states[k + 1], steps[k])
  }

  lemma RunGoesOn(states: seq<Snapshot>, steps: seq<Step>, k: nat, next: Snapshot)
    requires k < |steps| && IsRun(states, steps[..k]) && Follows(states[k], next, steps[k])
    ensures IsRun(states + [next], steps[..k + 1])
  {
    var all, some := states + [next], steps[..k + 1];
    forall i | 0 <= i < |some|
      ensures Follows(all[i], all[i + 1], some[i])
    {
      if i < k {
        assert steps[..k][i] == some[i];
      }
    }
  }

  class Sidecar {
    var active: Option<Active>
    var terminal: Option<Event>
    var checkpoint: Option<Checkpoint>
    var closed: bool
    var chain: Chain
    var inputClosed: bool
    var running: set<nat>
    var aborted: set<nat>
    var nextNumber: nat
    var wire: seq<Frame>
    /** The Grants that the channel has left, and how many it was given. */
    var grants: nat
    ghost const capacity: nat

    ghost predicate Valid()
      reads this
    {
      && LawfulWire(wire) && CheckpointAgrees(checkpoint, terminal)
      && NumbersAgree(active, chain, running, aborted, nextNumber)
      && (inputClosed <==> closed) && (inputClosed ==> active.None?)
      && (!inputClosed ==> Agrees(ViewOf(wire), active, chain, terminal, running))
      && GrantsAgree(capacity, grants, ViewOf(wire), inputClosed)
    }

    constructor (grants: nat)
      ensures Valid() && capacity == this.grants == grants && wire == []
      ensures active.None? && terminal.None? && chain.Idle? && !inputClosed
    {
      active, terminal, checkpoint, closed, chain, inputClosed := None, None, None, false, Idle, false;
      running, aborted, nextNumber, wire := {}, {}, 0, [];
      this.grants, capacity := grants, grants;
    }

    ghost function Now(): Snapshot
      reads this
    {
      Snapshot(active, terminal, checkpoint, chain, inputClosed, running, aborted, nextNumber, grants, wire)
    }

    method Write(frame: Frame)
      requires LawfulWire(wire) && MayWrite(ViewOf(wire), frame)
      modifies this`wire
      ensures wire == old(wire) + [frame] && LawfulWire(wire) && ViewOf(wire) == Seen(ViewOf(old(wire)), frame)
    {
      WireNext(wire, frame);
      wire := wire + [frame];
    }

    /** An answer that tells of no query: an error, or the capabilities. */
    method Respond(command: string, id: string, accepted: bool)
      requires Valid() && !inputClosed
      modifies this`wire
      ensures Valid() && wire == old(wire) + [Answer(command, id, accepted)]
    {
      Write(Answer(command, id, accepted));
    }

    /** Writes the events of a query from its `offset` on. */
    method WriteEvents(identity: Identity, bodies: seq<Body>, offset: nat)
      requires LawfulWire(wire) && MayBegin(ViewOf(wire), identity, bodies, offset)
      modifies this`wire
      ensures LawfulWire(wire) && wire == old(wire) + Frames(Mapped(identity, bodies, offset))
      ensures bodies == [] ==> ViewOf(wire) == ViewOf(old(wire))
      ensures bodies != [] ==>
        Written(ViewOf(old(wire)), ViewOf(wire), Event(identity, offset + |bodies|, bodies[|bodies| - 1]), offset == 0)
    {
      ghost var before := wire;
      var events := Mapped(identity, bodies, offset);
      for k := 0 to |bodies|
        invariant wire == before + Frames(events[..k])
      {
        OneMoreFrame(before, events, k);
        wire := wire + [EventFrame(events[k])];
      }
      assert events[..|events|] == events;
      EventsWritten(before, identity, bodies, offset, |bodies|);
    }

    method OnStart(id: string, request: Request)
      requires Valid() && chain.Idle? && !inputClosed
      modifies this
      ensures Valid() && chain.Idle? && !inputClosed
      ensures Starts(old(Now()), Now(), id, request)
    {
      if closed || active.Some? || request.Malformed? || grants == 0 {
        Respond("query.start", id, false);
        return;
      }
      if request.RefusedLate? {
        RefuseLate(id);
      } else if request.Native? || request.FixtureHeld? {
        OpenQuery(id, request);
      } else {
        ClosedIsStarted(Now(), id, request);
        CloseQuery(id, request);
      }
    }

    /** A start that is refused after its Grant is used up: the terminal before is forgotten all the same. */
    method RefuseLate(id: string)
      requires Valid() && chain.Idle? && !inputClosed && active.None? && grants > 0
      modifies this`grants, this`terminal, this`checkpoint, this`wire
      ensures Valid()
      ensures Starts(old(Now()), Now(), id, RefusedLate)
    {
      grants, terminal, checkpoint := grants - 1, None, None;
      Write(LateRefusal(id));
    }

    /** The acceptance and the query's first events. */
    method WriteStart(id: string, request: Request)
      requires LawfulWire(wire) && EndsTerminal(EventsOf(wire)) && !request.Malformed? && !request.RefusedLate?
      modifies this`wire
      ensures LawfulWire(wire)
      ensures wire == old(wire) + StartFrames(id, request)
      ensures Written(ViewOf(old(wire)), ViewOf(wire), FirstLast(request), true)
    {
      Write(Answer("query.start", id, true));
      StartMayBegin(ViewOf(wire), request);
      ghost var answered := wire;
      WriteEvents(request.identity, FirstBodies(request), 0);
      StartIsWritten(old(wire), answered, id, request);
    }

    /** A start that opens a query. */
    method OpenQuery(id: string, request: Request)
      requires Valid() && chain.Idle? && !inputClosed && active.None? && grants > 0
      requires request.Native? || request.FixtureHeld?
      modifies this`grants, this`active, this`terminal, this`checkpoint, this`running, this`nextNumber, this`wire
      ensures Valid() && grants == old(grants) - 1 && terminal.None? && checkpoint.None?
      ensures active == Some(Active(old(nextNumber), request.identity, 1, request.Native?)) && nextNumber == old(nextNumber) + 1
      ensures running == old(running) + if request.Native? then {old(nextNumber)} else {}
      ensures wire == old(wire) + [Answer("query.start", id, true), EventFrame(Event(request.identity, 1, Running))]
    {
      grants, terminal, checkpoint := grants - 1, None, None;
      WriteStart(id, request);
      RunningFrames(id, request);
      OpenSession(request.identity, request.Native?);
    }

    method OpenSession(identity: Identity, native: bool)
      requires NumbersAgree(None, Idle, running, aborted, nextNumber) && Ends(ViewOf(wire), Event(identity, 1, Running))
      modifies this`active, this`running, this`nextNumber
      ensures active == Some(Active(old(nextNumber), identity, 1, native)) && nextNumber == old(nextNumber) + 1
      ensures running == old(running) + if native then {old(nextNumber)} else {}
      ensures Agrees(ViewOf(wire), active, Idle, None, running)
      ensures NumbersAgree(active, Idle, running, aborted, nextNumber)
    {
      ghost var sessions, n := running, nextNumber;
      active := Some(Active(nextNumber, identity, 1, native));
      if native {
        running := running + {nextNumber};
      }
      nextNumber := nextNumber + 1;
      OpenAgrees(ViewOf(wire), identity, n, native, sessions, aborted);
    }

    /** A start that brings its query to its end at once. */
    method CloseQuery(id: string, request: Request)
      requires Valid() && chain.Idle? && !inputClosed && active.None? && grants > 0
      requires request.FixtureFailed? || request.FixtureCompleted?
      modifies this`grants, this`terminal, this`checkpoint, this`wire
      ensures Valid() && Now() == Closed(old(Now()), id, request)
    {
      grants := grants - 1;
      WriteStart(id, request);
      var last := FirstLast(request);
      KeepTerminal(last, request.FixtureCompleted?);
    }

    /** The query that is on the wire has ended with the event. */
    method KeepTerminal(last: Event, completed: bool)
      requires LawfulWire(wire) && active.None? && chain.Idle? && !inputClosed && !closed
      requires NumbersAgree(None, chain, running, aborted, nextNumber) && GrantsAgree(capacity, grants, ViewOf(wire), false)
      requires Ends(ViewOf(wire), last) && last.body == End(if completed then Completed else Failed)
      modifies this`terminal, this`checkpoint
      ensures Valid() && terminal == Some(last)
      ensures checkpoint == if completed then Some(Checkpoint(last.identity, last.cursor)) else None
    {
      terminal := Some(last);
      checkpoint := if completed then Some(Checkpoint(last.identity, last.cursor)) else None;
      EndAgrees(ViewOf(wire), last, chain, running);
    }

    /** `query.cancel`: a held query ends at once; a native one is aborted and waited for. */
    method OnCancel(id: string, run: string)
      requires Valid() && chain.Idle? && !inputClosed
      modifies this
      ensures Valid()
      ensures Cancels(old(Now()), Now(), id, run)
    {
      if active.None? || active.value.identity.run != run {
        Respond("query.cancel", id, false);
      } else if active.value.native {
        aborted := aborted + {active.value.number};
        chain := Cancelling(id, active.value.number);
      } else {
        EndHeld(id);
      }
    }

    method EndHeld(id: string)
      requires Valid() && chain.Idle? && !inputClosed && active.Some? && !active.value.native
      modifies this`active, this`terminal, this`checkpoint, this`wire
      ensures Valid() && active.None?
      ensures terminal == Some(Event(old(active).value.identity, old(active).value.cursor + 1, End(Cancelled)))
      ensures wire == old(wire)
        + [Answer("query.cancel", id, true),
           EventFrame(Event(old(active).value.identity, old(active).value.cursor + 1, End(Cancelled)))]
    {
      var event := Event(active.value.identity, active.value.cursor + 1, End(Cancelled));
      active, terminal, checkpoint := None, Some(event), None;
      Write(Answer("query.cancel", id, true));
      Write(EventFrame(event));
    }

    /** `query.status`: a seal for the terminal's own identity and cursor, and an error otherwise. */
    method OnStatus(id: string, identity: Identity, cursor: nat)
      requires Valid() && chain.Idle? && !inputClosed
      modifies this`wire
      ensures Valid()
      ensures Reports(old(Now()), Now(), id, identity, cursor)
    {
      if terminal.None? || terminal.value.identity != identity || terminal.value.cursor != cursor {
        Write(NotSealed(id, identity, cursor));
      } else {
        Write(Sealed(id, identity, cursor));
      }
    }

    /** The next command of the chain; while a cancel waits there is none. */
    method OnLine(command: Command)
      requires Valid() && chain.Idle? && !inputClosed
      modifies this
      ensures Valid()
      ensures Obeys(old(Now()), Now(), command)
    {
      match command
      case Capabilities(id) => Respond("runtime.capabilities", id, true);
      case Start(id, request) => OnStart(id, request);
      case Cancel(id, run) => OnCancel(id, run);
      case QueryStatus(id, identity, cursor) => OnStatus(id, identity, cursor);
      case Other(name, id) => Respond(name, id, false);
    }

    /** A text chunk of a native session; one of a session that is not active any more is dropped. */
    method OnNativeText(number: nat, text: string)
      requires Valid()
      modifies this
      ensures Valid()
      ensures Streams(old(Now()), Now(), number, text)
    {
      if active.None? || !active.value.native || active.value.number != number || text == "" {
        return;
      }
      active := Some(active.value.(cursor := active.value.cursor + 1));
      Write(EventFrame(Event(active.value.identity, active.value.cursor, Delta(text))));
    }

    /** A native session ends. A stale one leaves no trace; a failed one that was cancelled leaves its
        terminal to the cancel that waits for it. */
    method OnCompletion(number: nat, result: Result)
      requires Valid() && number in running
      modifies this
      ensures Valid()
      ensures Completes(old(Now()), Now(), number, result)
    {
      running := running - {number};
      if active.None? || !active.value.native || active.value.number != number {
        return;
      }
      SettleActive(result, number in aborted);
    }

    /** A cancelled session that fails leaves its terminal to the waiting cancel; any other end is written. */
    method SettleActive(result: Result, cancelled: bool)
      requires LawfulWire(wire) && !inputClosed && !closed && active.Some? && terminal.None?
      requires EndsOpen(EventsOf(wire), active.value.identity, active.value.cursor) && active.value.cursor >= 1
      requires active.value.number !in running && (cancelled <==> chain.Cancelling?)
      requires chain.Cancelling? ==> chain.number == active.value.number
      requires NumbersAgree(None, chain, running, aborted, nextNumber)
      requires GrantsAgree(capacity, grants, ViewOf(wire), false)
      modifies this`active, this`terminal, this`checkpoint, this`wire
      ensures Valid() && active.None?
      ensures EndsWith(old(active).value.identity, old(active).value.cursor, result, cancelled, old(wire), wire, terminal)
    {
      var identity, cursor := active.value.identity, active.value.cursor;
      if result.Failure? && cancelled {
        active, terminal, checkpoint := None, Some(Event(identity, cursor + 1, End(Cancelled))), None;
      } else {
        WriteLast(LastBodies(result));
      }
    }

    /** Writes the bodies that end the active session and keeps the last one as the terminal. */
    method WriteLast(bodies: seq<Body>)
      requires LawfulWire(wire) && !inputClosed && !closed && active.Some? && active.value.cursor >= 1
      requires EndsOpen(EventsOf(wire), active.value.identity, active.value.cursor)
      requires chain.Cancelling? ==> chain.number !in running
      requires NumbersAgree(None, chain, running, aborted, nextNumber)
      requires GrantsAgree(capacity, grants, ViewOf(wire), false)
      requires bodies != [] && bodies[|bodies| - 1] in {End(Completed), End(Failed)}
      requires forall k | 0 <= k < |bodies| - 1 :: !bodies[k].End?
      modifies this`active, this`terminal, this`checkpoint, this`wire
      ensures Valid() && active.None? && terminal.Some? && terminal.value.body == bodies[|bodies| - 1]
      ensures wire == old(wire) + Frames(Mapped(old(active).value.identity, bodies, old(active).value.cursor))
    {
      var identity, cursor := active.value.identity, active.value.cursor;
      var last := Event(identity, cursor + |bodies|, bodies[|bodies| - 1]);
      active, terminal := None, Some(last);
      checkpoint := if last.body == End(Completed) then Some(Checkpoint(identity, last.cursor)) else None;
      WriteEvents(identity, bodies, cursor);
      EndAgrees(ViewOf(wire), last, chain, running);
    }

    /** The waiting cancel goes on: it writes the cancelled terminal, or an error if the session had
        ended in another way; nothing after the input is closed. */
    method OnCancelSettled()
      requires Valid() && chain.Cancelling? && chain.number !in running
      modifies this
      ensures Valid()
      ensures Settles(old(Now()), Now())
    {
      var id := chain.id;
      chain := Idle;
      if inputClosed {
        return;
      }
      if terminal.Some? && terminal.value.body == End(Cancelled) {
        Write(Answer("query.cancel", id, true));
        Write(EventFrame(terminal.value));
      } else {
        Write(Answer("query.cancel", id, false));
      }
    }

    /** The input closes: the sidecar shuts down and writes nothing more. */
    method OnInputClosed()
      requires Valid() && !inputClosed
      modifies this
      ensures Valid()
      ensures ShutsDown(old(Now()), Now())
    {
      inputClosed, closed, grants := true, true, 0;
      if active.Some? && active.value.native {
        aborted := aborted + {active.value.number};
      }
      active := None;
    }

    predicate Quiet()
      reads this
    {
      !inputClosed && active.None? && chain.Idle?
    }

    predicate Due(step: Step)
      reads this
    {
      match step
      case Line(_) => chain.Idle? && !inputClosed
      case NativeText(_, _) => true
      case Completion(number, _) => number in running
      case CancelSettled => chain.Cancelling? && chain.number !in running
      case InputClosed => !inputClosed
    }

    method Take(step: Step)
      requires Valid() && Due(step)
      modifies this
      ensures Valid()
      ensures Takes(old(Now()), Now(), step)
    {
      match step
      case Line(command) => OnLine(command);
      case NativeText(number, text) => OnNativeText(number, text);
      case Completion(number, result) => OnCompletion(number, result);
      case CancelSettled => OnCancelSettled();
      case InputClosed => OnInputClosed();
    }

    /** Every interleaving keeps the wire lawful. While the input is open and nothing is going on, the
        terminal that a status can have sealed is the last one on the wire, unless a start was refused late
        since; and that never happens to a sidecar with one Grant, as the process has. */
    method Serve(steps: seq<Step>) returns (ghost states: seq<Snapshot>)
      requires Valid()
      modifies this
      ensures Valid() && LawfulWire(wire)
      ensures IsRun(states, steps) && states[0] == old(Now()) && states[|steps|] == Now()
      ensures Quiet() ==> forall e :: Standing(terminal) == Some(e) <==> LastTerminalIs(wire, e) && !RefusedSince(wire)
      ensures Quiet() && capacity <= 1 ==> forall e :: Standing(terminal) == Some(e) <==> LastTerminalIs(wire, e)
    {
      states := [Now()];
      for k := 0 to |steps|
        invariant Valid()
        invariant IsRun(states, steps[..k]) && states[0] == old(Now()) && states[k] == Now()
      {
        if Due(steps[k]) {
          Take(steps[k]);
        }
        RunGoesOn(states, steps, k, Now());
        states := states + [Now()];
      }
      assert steps[..|steps|] == steps;
      SealsAreExact();
    }

    /** What can be sealed, in every state. */
    lemma SealsAreExact()
      requires Valid()
      ensures Quiet() ==> forall e :: Standing(terminal) == Some(e) <==> LastTerminalIs(wire, e) && !RefusedSince(wire)
      ensures Quiet() && capacity <= 1 ==> forall e :: Standing(terminal) == Some(e) <==> LastTerminalIs(wire, e)
    {
      forall e
        ensures ViewOf(wire).sealable == Some(e) <==> LastTerminalIs(wire, e) && !RefusedSince(wire)
        ensures capacity <= 1 ==> (ViewOf(wire).sealable == Some(e) <==> LastTerminalIs(wire, e))
      {
        SealableIsTheRule(wire, e);
        if capacity <= 1 {
          OneGrantKeepsTheSeal(wire, e);
        }
      }
    }
  }

  lemma RefusalIsNoEvent(wire: seq<Frame>, id: string, e: HostWire.Event)
    requires LawfulWire(wire) && LastTerminalIs(wire, e)
    ensures LastTerminalIs(wire + [LateRefusal(id)], e)
  {
    WireNext(wire, LateRefusal(id));
  }

  /** With a second Grant it can happen: a start that is refused late takes the seal of the query before it
      away, and a status that names its terminal exactly is answered with an error. */
  method LateRefusalLosesTheSeal(identity: Identity, content: string) returns (wire: seq<Frame>)
    ensures LawfulWire(wire) && wire != [] && wire[|wire| - 1] == NotSealed("status", identity, 3)
    ensures LastTerminalIs(wire[..|wire| - 1], HostWire.Event(identity, 3, true))
  {
    ghost var done := HostWire.Event(identity, 3, true);
    var sidecar := new Sidecar(2);
    sidecar.OnStart("first", FixtureCompleted(identity, content));
    ghost var first := sidecar.wire;
    assert LastTerminalIs(first, done) by {
      assert sidecar.terminal == Some(Event(identity, 3, End(Completed)));
      SealableIsTheRule(first, done);
    }
    sidecar.OnStart("second", RefusedLate);
    RefusalIsNoEvent(first, "second", done);
    sidecar.OnStatus("status", identity, 3);
    wire := sidecar.wire;
    assert wire[..|wire| - 1] == first + [LateRefusal("second")];
  }

  function FirstBodies(request: Request): (r: seq<Body>)
    requires !request.Malformed? && !request.RefusedLate?
    ensures |r| > 0 && forall k | 0 <= k < |r| - 1 :: !r[k].End?
  {
    match request
    case Native(_) => [Running]
    case FixtureFailed(_) => [End(Failed)]
    case FixtureHeld(_) => [Running]
    case FixtureCompleted(_, content) => [Delta(content), Message(content), End(Completed)]
  }

  function FirstLast(request: Request): Event
    requires !request.Malformed? && !request.RefusedLate?
  {
    var bodies := FirstBodies(request);
    Event(request.identity, |bodies|, bodies[|bodies| - 1])
  }

  function StartFrames(id: string, request: Request): seq<Frame>
    requires !request.Malformed? && !request.RefusedLate?
  {
    [Answer("query.start", id, true)] + Frames(Mapped(request.identity, FirstBodies(request), 0))
  }

  /** The state behind a start that brings its query to its end at once. */
  function Closed(a: Snapshot, id: string, request: Request): Snapshot
    requires a.grants > 0 && (request.FixtureFailed? || request.FixtureCompleted?)
  {
    var last := FirstLast(request);
    a.(grants := a.grants - 1, terminal := Some(last), wire := a.wire + StartFrames(id, request),
       checkpoint := if request.FixtureCompleted? then Some(Checkpoint(last.identity, last.cursor)) else None)
  }

  lemma ClosedIsStarted(a: Snapshot, id: string, request: Request)
    requires a.active.None? && a.grants > 0 && (request.FixtureFailed? || request.FixtureCompleted?)
    ensures Starts(a, Closed(a, id, request), id, request)
  {
    ClosingFrames(id, request);
  }

  lemma StartMayBegin(v: View, request: Request)
    requires EndsTerminal(v.events) && !request.Malformed? && !request.RefusedLate?
    ensures MayBegin(v, request.identity, FirstBodies(request), 0)
    ensures var bodies := FirstBodies(request); FirstLast(request) == Event(request.identity, 0 + |bodies|, bodies[|bodies| - 1])
  {}

  lemma StartIsWritten(before: seq<Frame>, answered: seq<Frame>, id: string, request: Request)
    requires !request.Malformed? && !request.RefusedLate? && answered == before + [Answer("query.start", id, true)]
    ensures answered + Frames(Mapped(request.identity, FirstBodies(request), 0)) == before + StartFrames(id, request)
  {}

  lemma RunningFrames(id: string, request: Request)
    requires request.Native? || request.FixtureHeld?
    ensures StartFrames(id, request) == [Answer("query.start", id, true), EventFrame(Event(request.identity, 1, Running))]
  {}

  lemma ClosingFrames(id: string, request: Request)
    ensures request.FixtureFailed? ==>
      && FirstLast(request) == Event(request.identity, 1, End(Failed))
      && StartFrames(id, request) == [Answer("query.start", id, true), EventFrame(FirstLast(request))]
    ensures request.FixtureCompleted? ==>
      && FirstLast(request) == Event(request.identity, 3, End(Completed))
      && StartFrames(id, request) ==
           [Answer("query.start", id, true), EventFrame(Event(request.identity, 1, Delta(request.content))),
            EventFrame(Event(request.identity, 2, Message(request.content))), EventFrame(FirstLast(request))]
  {}

  /** What the end of a session writes, if it was not cancelled and failed. */
  function LastBodies(result: Result): (r: seq<Body>)
    ensures forall k | 0 <= k < |r| - 1 :: !r[k].End?
  {
    match result
    case Success(content) => [Message(content), End(Completed)]
    case Failure => [End(Failed)]
  }

  /** How the end of a query's native session shows: a success as its message and, behind it, the completed
      terminal; a failure as the failed terminal, or, if it was cancelled, as nothing yet. */
  predicate EndsWith(identity: Identity, cursor: nat, result: Result, cancelled: bool,
                     before: seq<Frame>, after: seq<Frame>, terminal: Option<Event>) {
    match result
    case Success(content) =>
      var completed := Event(identity, cursor + 2, End(Completed));
      && after == before + [EventFrame(Event(identity, cursor + 1, Message(content))), EventFrame(completed)]
      && terminal == Some(completed)
    case Failure =>
      var ended := Event(identity, cursor + 1, End(if cancelled then Cancelled else Failed));
      after == before + (if cancelled then [] else [EventFrame(ended)]) && terminal == Some(ended)
  }

  function Frames(events: seq<Event>): (r: seq<Frame>)
    ensures |r| == |events| && forall k | 0 <= k < |r| :: r[k] == EventFrame(events[k])
  {
    seq(|events|, k requires 0 <= k < |events| => EventFrame(events[k]))
  }

  /** Only the last body ends the query; the first begins one, or goes on behind the `offset`-th event. */
  predicate MayBegin(v: View, identity: Identity, bodies: seq<Body>, offset: nat) {
    && (forall k | 0 <= k < |bodies| - 1 :: !bodies[k].End?)
    && if offset == 0 then EndsTerminal(v.events) else EndsOpen(v.events, identity, offset)
  }

  /** A query's events have been written, the last one being `e`. */
  predicate Written(before: View, after: View, e: Event, opens: bool) {
    Ends(after, e) && after.spent == before.spent + if opens then 1 else 0
  }

  /** `after` is the view when the first `k` bodies have been written. */
  predicate WrittenTo(before: View, after: View, identity: Identity, bodies: seq<Body>, offset: nat, k: nat)
    requires k <= |bodies|
  {
    if k == 0 then after == before
    else Written(before, after, Event(identity, offset + k, bodies[k - 1]), offset == 0)
  }

  lemma NextMayWrite(before: View, v: View, identity: Identity, bodies: seq<Body>, offset: nat, k: nat)
    requires MayBegin(before, identity, bodies, offset) && k < |bodies|
    requires WrittenTo(before, v, identity, bodies, offset, k)
    ensures var next := EventFrame(Event(identity, offset + k + 1, bodies[k]));
      MayWrite(v, next) && WrittenTo(before, Seen(v, next), identity, bodies, offset, k + 1)
  {}

  lemma OneEventWritten(before: View, some: seq<Frame>, identity: Identity, bodies: seq<Body>, offset: nat, k: nat)
    requires MayBegin(before, identity, bodies, offset) && k < |bodies|
    requires LawfulWire(some) && WrittenTo(before, ViewOf(some), identity, bodies, offset, k)
    ensures var all := some + [EventFrame(Event(identity, offset + k + 1, bodies[k]))];
      LawfulWire(all) && WrittenTo(before, ViewOf(all), identity, bodies, offset, k + 1)
  {
    NextMayWrite(before, ViewOf(some), identity, bodies, offset, k);
    WireNext(some, EventFrame(Event(identity, offset + k + 1, bodies[k])));
  }

  lemma {:induction false} EventsWritten(wire: seq<Frame>, identity: Identity, bodies: seq<Body>, offset: nat, k: nat)
    requires LawfulWire(wire) && MayBegin(ViewOf(wire), identity, bodies, offset) && k <= |bodies|
    ensures var all := wire + Frames(Mapped(identity, bodies, offset)[..k]);
      LawfulWire(all) && WrittenTo(ViewOf(wire), ViewOf(all), identity, bodies, offset, k)
  {
    var events := Mapped(identity, bodies, offset);
    if k == 0 {
      assert wire + Frames(events[..0]) == wire;
    } else {
      EventsWritten(wire, identity, bodies, offset, k - 1);
      OneEventWritten(ViewOf(wire), wire + Frames(events[..k - 1]), identity, bodies, offset, k - 1);
      assert events[k - 1] == Event(identity, offset + k, bodies[k - 1]);
      OneMoreFrame(wire, events, k - 1);
    }
  }

  lemma OneMoreFrame(wire: seq<Frame>, events: seq<Event>, k: nat)
    requires k < |events|
    ensures wire + Frames(events[..k]) + [EventFrame(events[k])] == wire + Frames(events[..k + 1])
  {
    assert Frames(events[..k + 1]) == Frames(events[..k]) + [EventFrame(events[k])];
  }
}
