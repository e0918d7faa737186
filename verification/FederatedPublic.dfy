/** What a federated turn shows: the streamed text blocks are whole lines, and together they are exactly the
    assistant's message; and the events projected are one contiguous, repeat-proof stream. */
module FederatedPublic {
  import opened Basics
  import opened FederatedTurn
  import opened FederatedMeaning

  // ----- text -----

  /** The text blocks among the parts, put together. */
  function Blocks(parts: seq<Part>): string {
    if parts == [] then ""
    else
      var last := parts[|parts| - 1];
      Blocks(parts[..|parts| - 1]) + if last.TextPart? then last.content else ""
  }

  /** The text blocks of the turn's own log entries, put together. */
  function TextOf(log: seq<Entry>): string {
    if log == [] then ""
    else
      var last := log[|log| - 1];
      TextOf(log[..|log| - 1])
        + if Tagged(last) && last.fact.RuntimeFact? && last.fact.part.TextPart? then last.fact.part.content else ""
  }

  lemma {:induction false} FreshSaysNothing(log: seq<Entry>)
    requires IsFresh(log)
    ensures TextOf(log) == ""
  {
    if log != [] {
      FreshSaysNothing(log[..|log| - 1]);
    }
  }

  lemma Joins(a: string, b: string, c: string)
    ensures a + b + c == a + (b + c)
  {}

  lemma {:induction false} TextGrows(log: seq<Entry>, e: Event, parts: seq<Part>, n: nat)
    requires n <= |parts|
    ensures TextOf(Grown(log, e, parts, n)) == TextOf(log) + Blocks(parts[..n])
  {
    if n == 0 {
      assert Grown(log, e, parts, 0) == log;
    } else {
      var before := Grown(log, e, parts, n - 1);
      TextGrows(log, e, parts, n - 1);
      GrowsByOne(log, e, parts, n - 1);
      assert (before + [EntryOf(e, parts[n - 1], n - 1)])[..|before|] == before;
      assert parts[..n][..n - 1] == parts[..n - 1];
      Joins(TextOf(log), Blocks(parts[..n - 1]), if parts[n - 1].TextPart? then parts[n - 1].content else "");
    }
  }

  predicate NoText(parts: seq<Part>) {
    forall k | 0 <= k < |parts| :: !parts[k].TextPart?
  }

  lemma {:induction false} BlocksOf(first: seq<Part>, tail: seq<Part>)
    requires NoText(tail)
    ensures Blocks(first + tail) == Blocks(first)
    decreases |tail|
  {
    if tail == [] {
      assert first + tail == first;
    } else {
      var n := |tail| - 1;
      BlocksOf(first, tail[..n]);
      assert (first + tail)[..|first + tail| - 1] == first + tail[..n];
    }
  }

  /** What is published is a first part of the body; all of it once the body is complete. */
  predicate Held(t: Text) {
    t.emitted <= |t.body| && (t.completed ==> t.emitted == |t.body|)
  }

  lemma FlushPublishes(policy: Policy, text: string, emitted: nat, boundary: nat, completed: bool, tail: seq<Part>)
    requires emitted <= |text| && boundary <= |text| && NoText(tail)
    requires Flush(policy, text, emitted, boundary, completed, tail).Some?
    ensures var (parts, next) := Flush(policy, text, emitted, boundary, completed, tail).value;
      && next.body == text && next.completed == completed
      && next.emitted == (if emitted < boundary then boundary else emitted)
      && Blocks(parts) == text[emitted..next.emitted]
  {
    if boundary <= emitted {
      BlocksOf([], tail);
      assert [] + tail == tail;
    } else {
      var block := [TextPart(text[emitted..boundary])];
      BlocksOf(block, tail);
      assert block[..0] == [] && Blocks(block) == "" + text[emitted..boundary];
    }
  }

  lemma Continues(text: string, a: nat, b: nat)
    requires a <= b <= |text|
    ensures text[..a] + text[a..b] == text[..b]
  {}

  /** One event: the body grows by what the event says, what is newly published is published in order, a
      delta holds back only what follows the last line end, and a message completes the body. */
  predicate Steps(body: Body, t: Text, parts: seq<Part>, next: Text) {
    && Held(t) && Held(next) && IsPrefixOf(t.body, next.body) && t.emitted <= next.emitted
    && t.body[..t.emitted] + Blocks(parts) == next.body[..next.emitted]
    && (body.Delta? ==> next.body == t.body + body.fragment && !next.completed)
    && (body.Delta? ==> forall i | next.emitted <= i < |next.body| :: next.body[i] != '\n')
    && (body.Message? ==> next.body == body.content && next.completed)
    && (!body.Delta? && !body.Message? ==> next.body == t.body)
    && (body == Change(Completed, true) ==> next.completed || next.body == "")
  }

  lemma DeltaSteps(policy: Policy, fragment: string, valid: bool, t: Text)
    requires Buffered(policy, Delta(fragment, valid), t).Some?
    ensures var (parts, next) := Buffered(policy, Delta(fragment, valid), t).value;
      Steps(Delta(fragment, valid), t, parts, next)
  {
    var text := t.body + fragment;
    FlushPublishes(policy, text, t.emitted, LastLine(text), false, []);
    assert text[..t.emitted] == t.body[..t.emitted];
    Continues(text, t.emitted, Max(t.emitted, LastLine(text)));
  }

  lemma MessageSteps(policy: Policy, content: string, valid: bool, t: Text)
    requires Buffered(policy, Message(content, valid), t).Some?
    ensures var (parts, next) := Buffered(policy, Message(content, valid), t).value;
      Steps(Message(content, valid), t, parts, next)
  {
    FlushPublishes(policy, content, t.emitted, |content|, true, [MessagePart(content)]);
    assert content[..t.emitted] == t.body[..t.emitted];
    Continues(content, t.emitted, |content|);
  }

  lemma OnePartSaysNothing(part: Part, said: string)
    requires !part.TextPart?
    ensures said + Blocks([part]) == said
  {
    BlocksOf([], [part]);
    assert [] + [part] == [part];
  }

  lemma ChangeSteps(policy: Policy, status: Status, valid: bool, t: Text)
    requires Buffered(policy, Change(status, valid), t).Some?
    ensures var (parts, next) := Buffered(policy, Change(status, valid), t).value;
      Steps(Change(status, valid), t, parts, next)
  {
    if status.Completed? && t.body != "" && !t.completed {
      FlushPublishes(policy, t.body, t.emitted, |t.body|, true, [MessagePart(t.body), StatusPart(status)]);
      Continues(t.body, t.emitted, |t.body|);
    } else {
      OnePartSaysNothing(StatusPart(status), t.body[..t.emitted]);
    }
  }

  lemma StepPublishes(policy: Policy, body: Body, t: Text)
    requires Project(policy, body, Some(t)).Some?
    ensures var p := Project(policy, body, Some(t)).value; p.text.Some? && Steps(body, t, p.parts, p.text.value)
  {
    match body
    case Delta(fragment, valid) => DeltaSteps(policy, fragment, valid, t);
    case Message(content, valid) => MessageSteps(policy, content, valid, t);
    case Change(status, valid) => ChangeSteps(policy, status, valid, t);
    case Other(name, shown, valid) => OnePartSaysNothing(OtherPart(name, shown), t.body[..t.emitted]);
  }

  /** The log has published a first part of the body, and all of it once there is a message. */
  ghost predicate Publishes(point: Point) {
    && point.progress.text.Some? && Held(point.progress.text.value)
    && TextAgrees(point.progress.text.value, point.progress.assistant)
    && TextOf(point.log) == point.progress.text.value.body[..point.progress.text.value.emitted]
  }

  lemma ExtendPublishes(s: Setting, i: nat, point: Point, p: Projection)
    requires i < |s.stream| && Publishes(point)
    requires Judge(s.policy, point.progress, s.stream, i) == Advance(p)
    ensures Publishes(Extend(point, s.stream[i], p))
  {
    var e, t := s.stream[i], point.progress.text.value;
    StepPublishes(s.policy, e.body, t);
    ProjectionFacts(s.policy, e.body, t, point.progress.assistant);
    TextGrows(point.log, e, p.parts, |p.parts|);
    assert p.parts[..|p.parts|] == p.parts;
  }

  lemma {:induction false} PointsPublish(s: Setting, i: nat)
    requires i <= |s.stream| && IsFresh(s.log) && PointAt(s, i).Some?
    ensures Publishes(PointAt(s, i).value)
  {
    if i == 0 {
      FreshSaysNothing(s.log);
    } else {
      PointsPublish(s, i - 1);
      var before := PointAt(s, i - 1).value;
      var v := Judge(s.policy, before.progress, s.stream, i - 1);
      if v.Advance? {
        ExtendPublishes(s, i - 1, before, v.projection);
      }
    }
  }

  /** When the turn has an assistant message, the blocks streamed before it are exactly that message. */
  lemma StreamedTextIsTheMessage(s: Setting, i: nat)
    requires i <= |s.stream| && IsFresh(s.log) && PointAt(s, i).Some?
    ensures var point := PointAt(s, i).value;
      point.progress.assistant.Some? ==> TextOf(point.log) == point.progress.assistant.value
  {
    PointsPublish(s, i);
    var t := PointAt(s, i).value.progress.text.value;
    assert t.body[..|t.body|] == t.body;
  }

  /** A completed turn keeps nothing back: everything buffered is published, and it is the message. */
  lemma CompletionPublishesAll(s: Setting, t: nat)
    requires IsFresh(s.log) && ReachesTerminal(s, t) && TerminalAt(s, t) == Completed
    ensures var point := PointAt(s, t).value;
      var p := Judge(s.policy, point.progress, s.stream, t).projection;
      var next := Extend(point, s.stream[t], p);
      && point.progress.text.Some?
      && var body := point.progress.text.value.body;
         TextOf(next.log) == body && next.progress.assistant == if body == "" then None else Some(body)
  {
    var point := PointAt(s, t).value;
    var p := Judge(s.policy, point.progress, s.stream, t).projection;
    PointsPublish(s, t);
    ExtendPublishes(s, t, point, p);
    var next := Extend(point, s.stream[t], p).progress.text.value;
    StepPublishes(s.policy, s.stream[t].body, point.progress.text.value);
    assert next.body[..|next.body|] == next.body;
  }

  // ----- cursors -----

  /** The first `i` events are the cursors 1, 2, 3 and so on, each repeated at most in place and unchanged. */
  ghost predicate OneStream(stream: seq<Event>, i: nat)
    requires i <= |stream|
  {
    && (i > 0 ==> stream[0].cursor == 1)
    && forall j, k | 0 <= j < k < i && k == j + 1 ::
         stream[k] == stream[j] || stream[k].cursor == stream[j].cursor + 1
  }

  /** What is projected is one stream, and the turn's cursor is where it stands. */
  lemma {:induction false} ProjectedEventsAreOneStream(s: Setting, i: nat)
    requires i <= |s.stream| && IsFresh(s.log) && PointAt(s, i).Some?
    ensures OneStream(s.stream, i)
    ensures PointAt(s, i).value.progress.cursor == if i == 0 then 0 else s.stream[i - 1].cursor
  {
    if i > 0 {
      ProjectedEventsAreOneStream(s, i - 1);
      PointsAreSound(s, i - 1);
      var before := PointAt(s, i - 1).value;
      if i > 1 {
        assert Remembers(before.progress, s.stream[i - 2]);
      }
    }
  }
}
