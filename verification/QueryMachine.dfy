/** The query state machine of the Goose host: `QueryMachine` of
    mvp/runtime-hosts/goose-host-v2/src/query.rs, and the law of the event traces it emits. */
module QueryMachine {
  import opened Basics
  import HostWire

  datatype Result<+T> = Ok(value: T) | Err(reason: string)

  type Identity = HostWire.Identity

  datatype Event =
    | Running(cursor: nat)
    | OutputToken(cursor: nat, text: string)
    | ReasoningObserved(cursor: nat, chars: nat)
    | OutputMessage(cursor: nat, text: string)
    | Completed(cursor: nat)
    | Failed(cursor: nat, reason: string)
    | Cancelled(cursor: nat, reason: string)
  {
    predicate IsTerminal() {
      Completed? || Failed? || Cancelled?
    }
  }

  /** An event as it is emitted, with the identity of its query. */
  datatype Emission = Emission(identity: Identity, event: Event)

  datatype Status = StatusCompleted | StatusFailed | StatusCancelled
  datatype Terminal = Terminal(identity: Identity, cursor: nat, status: Status)

  datatype Disposition = Hold | Fail | Complete

  datatype ProviderEvent = Usage | Token(text: string) | Reasoning(text: string)

  const FIXTURE_OUTPUT := "Goose fixture query completed"

  // ----- the law of a trace -----

  /** The output tokens since the last `Running`, put together. */
  function Spoken(trace: seq<Emission>): string {
    if trace == [] then ""
    else
      var before := trace[..|trace| - 1];
      match trace[|trace| - 1].event
      case Running(_) => ""
      case OutputToken(_, text) => Spoken(before) + text
      case _ => Spoken(before)
  }

  /** What may follow a trace: `Running` with cursor 1 where no query is open; within a query the next
      cursor of the same identity, a message that is all it has said, and `Completed` right behind it. */
  predicate MayFollow(before: seq<Emission>, next: Emission) {
    if next.event.Running? then
      next.event.cursor == 1 && (before != [] ==> before[|before| - 1].event.IsTerminal())
    else
      && before != []
      && var last := before[|before| - 1];
         && !last.event.IsTerminal() && next.identity == last.identity && next.event.cursor == last.event.cursor + 1
         && (next.event.OutputMessage? ==> next.event.text == Spoken(before) && next.event.text != "")
         && (next.event.Completed? <==> last.event.OutputMessage?)
  }

  predicate FollowsAt(trace: seq<Emission>, i: nat)
    requires i < |trace|
  {
    MayFollow(trace[..i], trace[i])
  }

  predicate Lawful(trace: seq<Emission>) {
    forall i: nat | i < |trace| :: FollowsAt(trace, i)
  }

  lemma LawfulNext(trace: seq<Emission>, next: Emission)
    requires Lawful(trace) && MayFollow(trace, next)
    ensures Lawful(trace + [next])
  {
    forall i: nat | i < |trace + [next]|
      ensures FollowsAt(trace + [next], i)
    {
      assert i < |trace| ==> FollowsAt(trace, i);
      assert (trace + [next])[..i] == trace[..i];
    }
  }

  /** A write that fails cuts the trace short; what is left is lawful too. */
  lemma LawfulPrefix(trace: seq<Emission>, n: nat)
    requires Lawful(trace) && n <= |trace|
    ensures Lawful(trace[..n])
  {
    forall i: nat | i < n
      ensures FollowsAt(trace[..n], i)
    {
      assert FollowsAt(trace, i) && trace[..n][..i] == trace[..i];
    }
  }

  /** An emission as the rules of the wire see it. */
  function OnWire(e: Emission): HostWire.Event {
    HostWire.Event(e.identity, e.event.cursor, e.event.IsTerminal())
  }

  function AllOnWire(trace: seq<Emission>): (r: seq<HostWire.Event>)
    ensures |r| == |trace| && forall i | 0 <= i < |r| :: r[i] == OnWire(trace[i])
  {
    seq(|trace|, i requires 0 <= i < |trace| => OnWire(trace[i]))
  }

  lemma {:induction false} CursorsArePositive(trace: seq<Emission>, i: nat)
    requires Lawful(trace) && i < |trace|
    ensures trace[i].event.cursor >= 1
  {
    assert FollowsAt(trace, i);
  }

  /** A lawful trace keeps the rules of the Host v2 wire. */
  lemma ObeysHostRules(trace: seq<Emission>)
    requires Lawful(trace)
    ensures HostWire.Lawful(AllOnWire(trace))
  {
    var events := AllOnWire(trace);
    forall i: nat | i < |events|
      ensures HostWire.FollowsAt(events, i)
    {
      assert FollowsAt(trace, i);
      if i > 0 {
        CursorsArePositive(trace, i - 1);
        assert trace[..i][|trace[..i]| - 1] == trace[i - 1];
        assert events[..i][|events[..i]| - 1] == OnWire(trace[i - 1]);
      }
    }
  }

  /** A query that completes has said something, and its message, right before, is all it said. */
  lemma CompletionHasOutput(trace: seq<Emission>, i: nat)
    requires Lawful(trace) && i < |trace| && trace[i].event.Completed?
    ensures i > 0 && trace[i - 1].event.OutputMessage?
    ensures trace[i - 1].event.text == Spoken(trace[..i - 1]) && trace[i - 1].event.text != ""
  {
    assert FollowsAt(trace, i);
    assert trace[..i][|trace[..i]| - 1] == trace[i - 1];
    assert FollowsAt(trace, i - 1);
  }

  /** The events of a fixture query. */
  function FixtureEvents(disposition: Disposition): (r: seq<Event>)
    ensures forall k | 0 <= k < |r| :: !r[k].Cancelled?
  {
    match disposition
    case Hold => [Running(1)]
    case Fail => [Running(1), Failed(2, "fixture_provider_failed")]
    case Complete => [Running(1), OutputToken(2, FIXTURE_OUTPUT), OutputMessage(3, FIXTURE_OUTPUT), Completed(4)]
  }

  /** How a query ends that has said `said`, without a cancel. */
  function FinishEvents(succeeded: bool, cursor: nat, said: string): (r: seq<Event>)
    ensures forall k | 0 <= k < |r| :: !r[k].Cancelled?
  {
    if !succeeded then [Failed(cursor + 1, "provider_failed")]
    else if said == "" then [Failed(cursor + 1, "empty_output")]
    else [OutputMessage(cursor + 1, said), Completed(cursor + 2)]
  }

  /** How the machine's fields agree with what it has emitted. */
  predicate Consistent(active: Option<Identity>, cursor: nat, output: string, terminal: Option<Terminal>,
                       emitted: seq<Emission>) {
    && Lawful(emitted)
    && !(active.Some? && terminal.Some?)
    && (emitted == [] ==> active.None? && terminal.None?)
    && (emitted != [] ==>
          var last := emitted[|emitted| - 1];
          && cursor == last.event.cursor
          && (active.Some? <==> !last.event.IsTerminal()) && (active.Some? ==> active.value == last.identity)
          && (terminal.Some? <==> last.event.IsTerminal())
          && (terminal.Some? ==> terminal.value == TerminalFor(last)))
    && (active.Some? ==> output == Spoken(emitted) && !emitted[|emitted| - 1].event.OutputMessage?)
  }

  // ----- the machine -----

  class Machine {
    var active: Option<Identity>
    var cursor: nat
    var output: string
    var terminal: Option<Terminal>
    ghost var emitted: seq<Emission>

    ghost predicate Valid()
      reads this
    {
      Consistent(active, cursor, output, terminal, emitted)
    }

    constructor ()
      ensures Valid() && emitted == [] && active.None?
    {
      active, cursor, output, terminal, emitted := None, 0, "", None, [];
    }

    /** `start`; `admitted` says that the envelope and the input pass validation. */
    method Start(identity: Identity, admitted: bool, disposition: Disposition) returns (r: Result<seq<Event>>)
      requires Valid()
      modifies this
      ensures Valid()
      ensures r.Ok? <==> old(active).None? && admitted
      ensures r.Err? ==> Same(old(active), old(cursor), old(output), old(terminal), old(emitted))
      ensures r.Ok? ==> r.value == FixtureEvents(disposition) && cursor == |r.value|
      ensures r.Ok? ==> r.value == (match disposition
        case Hold => [Running(1)]
        case Fail => [Running(1), Failed(2, "fixture_provider_failed")]
        case Complete =>
          var said := "Goose fixture query completed";
          [Running(1), Event.OutputToken(2, said), OutputMessage(3, said), Completed(4)])
      ensures r.Ok? ==> emitted == old(emitted) + Emissions(identity, r.value)
    {
      if active.Some? || !admitted {
        return Err("rejected");
      }
      Open(identity);
      match disposition
      case Hold =>
        return Ok([Running(1)]);
      case Fail =>
        Emit(identity, Failed(2, "fixture_provider_failed"));
        Close(identity, 2, StatusFailed);
        r := Ok([Running(1), Failed(2, "fixture_provider_failed")]);
        assert emitted == old(emitted) + Emissions(identity, r.value);
      case Complete =>
        CompleteFixture(identity, FIXTURE_OUTPUT);
        r := Ok([Running(1), OutputToken(2, FIXTURE_OUTPUT), OutputMessage(3, FIXTURE_OUTPUT), Completed(4)]);
        assert emitted == old(emitted) + Emissions(identity, r.value);
    }

    method Open(identity: Identity)
      requires Valid() && active.None?
      modifies this
      ensures Valid() && active == Some(identity) && cursor == 1
      ensures emitted == old(emitted) + [Emission(identity, Running(1))] && Spoken(emitted) == ""
    {
      cursor, output, terminal, active := 1, "", None, Some(identity);
      Emit(identity, Running(1));
    }

    method CompleteFixture(identity: Identity, said: string)
      requires said != "" && Valid() && active == Some(identity) && cursor == 1 && Spoken(emitted) == ""
      modifies this
      ensures Valid() && active.None?
      ensures emitted == old(emitted)
        + [Emission(identity, Event.OutputToken(2, said)), Emission(identity, OutputMessage(3, said)),
           Emission(identity, Completed(4))]
    {
      Emit(identity, Event.OutputToken(2, said));
      assert "" + said == said;
      EmitEnd(identity, OutputMessage(3, said));
      Close(identity, 4, StatusCompleted);
    }

    method Close(identity: Identity, last: nat, status: Status)
      requires Lawful(emitted) && emitted != []
      requires var e := emitted[|emitted| - 1]; e.event.IsTerminal() && TerminalFor(e) == Terminal(identity, last, status)
      modifies this`cursor, this`active, this`terminal
      ensures Valid() && active.None?
    {
      cursor, active, terminal := last, None, Some(Terminal(identity, last, status));
    }

    /** The message that ends a query, and its completion. */
    ghost method EmitEnd(identity: Identity, message: Event)
      requires Lawful(emitted) && message.OutputMessage? && message.text == Spoken(emitted) && message.text != ""
      requires emitted != []
      requires var last := emitted[|emitted| - 1];
        && !last.event.IsTerminal() && !last.event.OutputMessage?
        && last.identity == identity && message.cursor == last.event.cursor + 1
      modifies this`emitted
      ensures emitted == old(emitted) + [Emission(identity, message), Emission(identity, Completed(message.cursor + 1))]
      ensures Lawful(emitted)
    {
      Emit(identity, message);
      Emit(identity, Completed(message.cursor + 1));
    }

    method StartReal(identity: Identity, admitted: bool) returns (r: Result<Event>)
      requires Valid()
      modifies this
      ensures Valid()
      ensures r.Ok? <==> old(active).None? && admitted
      ensures r.Err? ==> Same(old(active), old(cursor), old(output), old(terminal), old(emitted))
      ensures r.Ok? ==>
        && r.value == Running(1) && active == Some(identity)
        && emitted == old(emitted) + [Emission(identity, r.value)]
    {
      if active.Some? || !admitted {
        return Err("rejected");
      }
      Open(identity);
      return Ok(Running(1));
    }

    method PushReal(event: ProviderEvent) returns (r: Result<Option<Event>>)
      requires Valid()
      modifies this
      ensures Valid() && active == old(active) && terminal == old(terminal)
      ensures r.Ok? <==> active.Some?
      ensures r.Ok? ==> r.value == (match event
        case Usage => None
        case Token(text) => Some(Event.OutputToken(old(cursor) + 1, text))
        case Reasoning(text) => Some(ReasoningObserved(old(cursor) + 1, |text|)))
      ensures emitted == if r.Ok? && r.value.Some? then old(emitted) + [Emission(active.value, r.value.value)] else old(emitted)
      ensures cursor == if r.Ok? && r.value.Some? then old(cursor) + 1 else old(cursor)
    {
      if active.None? {
        return Err("no active Goose query");
      }
      match event
      case Usage =>
        return Ok(None);
      case Token(text) =>
        cursor := cursor + 1;
        output := output + text;
        Emit(active.value, Event.OutputToken(cursor, text));
        return Ok(Some(Event.OutputToken(cursor, text)));
      case Reasoning(text) =>
        cursor := cursor + 1;
        Emit(active.value, ReasoningObserved(cursor, |text|));
        return Ok(Some(ReasoningObserved(cursor, |text|)));
    }

    /** Completion needs some output; without it the query stays active. */
    method CompleteReal() returns (r: Result<seq<Event>>)
      requires Valid()
      modifies this
      ensures Valid()
      ensures r.Ok? <==> old(active).Some? && Spoken(old(emitted)) != ""
      ensures r.Err? ==> Same(old(active), old(cursor), old(output), old(terminal), old(emitted))
      ensures r.Ok? ==>
        && active.None?
        && r.value == [OutputMessage(old(cursor) + 1, Spoken(old(emitted))), Completed(old(cursor) + 2)]
        && emitted == old(emitted) + Emissions(old(active).value, r.value)
    {
      if active.None? || output == "" {
        return Err("no output");
      }
      var identity := active.value;
      active := None;
      cursor := cursor + 1;
      var message := OutputMessage(cursor, output);
      EmitEnd(identity, message);
      cursor := cursor + 1;
      var completed := Completed(cursor);
      output := "";
      Close(identity, cursor, StatusCompleted);
      return Ok([message, completed]);
    }

    method FailReal(reason: string) returns (r: Result<Event>)
      requires Valid()
      modifies this
      ensures Valid()
      ensures r.Ok? <==> old(active).Some?
      ensures r.Err? ==> Same(old(active), old(cursor), old(output), old(terminal), old(emitted))
      ensures r.Ok? ==>
        && active.None? && r.value == Failed(old(cursor) + 1, reason)
        && emitted == old(emitted) + [Emission(old(active).value, r.value)]
    {
      if active.None? {
        return Err("no active Goose query");
      }
      var identity := active.value;
      active := None;
      cursor := cursor + 1;
      output := "";
      var event := Failed(cursor, reason);
      Emit(identity, event);
      Close(identity, cursor, StatusFailed);
      return Ok(event);
    }

    /** An active query always finishes, with exactly one terminal event, the last one. It completes only if the
        provider has succeeded and something was said. */
    method FinishReal(succeeded: bool) returns (r: Result<seq<Event>>)
      requires Valid()
      modifies this
      ensures Valid()
      ensures r.Ok? <==> old(active).Some?
      ensures r.Err? ==> Same(old(active), old(cursor), old(output), old(terminal), old(emitted))
      ensures r.Ok? ==> active.None? && emitted == old(emitted) + Emissions(old(active).value, r.value)
      ensures r.Ok? ==> r.value == FinishEvents(succeeded, old(cursor), Spoken(old(emitted)))
      ensures r.Ok? && succeeded && Spoken(old(emitted)) != "" ==>
        r.value == [OutputMessage(old(cursor) + 1, Spoken(old(emitted))), Completed(old(cursor) + 2)]
      ensures r.Ok? && !(succeeded && Spoken(old(emitted)) != "") ==>
        r.value == [Failed(old(cursor) + 1, if succeeded then "empty_output" else "provider_failed")]
    {
      if succeeded {
        var completed := CompleteReal();
        if completed.Ok? {
          return completed;
        }
      }
      var failed := FailReal(if succeeded then "empty_output" else "provider_failed");
      if failed.Err? {
        return Err(failed.reason);
      }
      return Ok([failed.value]);
    }

    method Cancel(run: string) returns (r: Result<Event>)
      requires Valid()
      modifies this
      ensures Valid()
      ensures r.Ok? <==> old(active).Some? && old(active).value.run == run
      ensures r.Err? ==> Same(old(active), old(cursor), old(output), old(terminal), old(emitted))
      ensures r.Ok? ==>
        && active.None? && r.value == Cancelled(old(cursor) + 1, "user_requested")
        && emitted == old(emitted) + [Emission(old(active).value, r.value)]
    {
      if active.None? || active.value.run != run {
        return Err("cancel run id does not match the active query");
      }
      var identity := active.value;
      active := None;
      cursor := cursor + 1;
      var event := Cancelled(cursor, "user_requested");
      Emit(identity, event);
      output := "";
      Close(identity, cursor, StatusCancelled);
      return Ok(event);
    }

    ghost method Emit(identity: Identity, event: Event)
      requires Lawful(emitted) && MayFollow(emitted, Emission(identity, event))
      modifies this`emitted
      ensures emitted == old(emitted) + [Emission(identity, event)] && Lawful(emitted)
      ensures Spoken(emitted) == match event
        case Running(_) => ""
        case OutputToken(_, text) => Spoken(old(emitted)) + text
        case _ => Spoken(old(emitted))
    {
      LawfulNext(emitted, Emission(identity, event));
      assert (emitted + [Emission(identity, event)])[..|emitted|] == emitted;
      emitted := emitted + [Emission(identity, event)];
    }

    ghost predicate Same(a: Option<Identity>, c: nat, o: string, t: Option<Terminal>, e: seq<Emission>)
      reads this
    {
      active == a && cursor == c && output == o && terminal == t && emitted == e
    }
  }

  function TerminalFor(e: Emission): Terminal
    requires e.event.IsTerminal()
  {
    var status := if e.event.Completed? then StatusCompleted else if e.event.Failed? then StatusFailed else StatusCancelled;
    Terminal(e.identity, e.event.cursor, status)
  }

  function Emissions(identity: Identity, events: seq<Event>): (r: seq<Emission>)
    ensures |r| == |events| && forall k | 0 <= k < |r| :: r[k] == Emission(identity, events[k])
  {
    seq(|events|, i requires 0 <= i < |events| => Emission(identity, events[i]))
  }
}
