/** Exactly which runtime events a federated turn takes and what it publishes for them: `project_runtime_event`
    and `map_buffered_assistant_text`, stated without the steps they take. */
module FederatedProjection {
  import opened Basics
  import opened FederatedTurn
  import opened FederatedMeaning
  import opened FederatedPublic

  // ----- one event's projection -----

  /** No control characters but tab, line feed and carriage return. */
  predicate IsClean(s: string) {
    forall c | c in s :: c == '\t' || c == '\n' || c == '\r' || (' ' <= c && c as int != 0x7F)
  }

  predicate MayShow(policy: Policy, s: string, limit: nat) {
    0 < |s| <= limit && IsClean(s) && policy.text(s)
  }

  /** The text up to `n` and the part of it that is new may both be published. */
  predicate MayPublish(policy: Policy, text: string, emitted: nat, n: nat)
    requires emitted <= |text| && n <= |text|
  {
    n > emitted ==>
      MayShow(policy, text[..n], 65536) && policy.payload(text[..n]) && MayShow(policy, text[emitted..n], 65536)
  }

  /** The block that is new, if there is one. */
  predicate IsBlock(parts: seq<Part>, text: string, emitted: nat, n: nat)
    requires emitted <= |text| && n <= |text|
  {
    parts == if n > emitted then [TextPart(text[emitted..n])] else []
  }

  /** The last line end of the text is right before `n`, or there is none and `n` is 0. */
  predicate EndsLines(text: string, n: nat) {
    n <= |text| && (n > 0 ==> text[n - 1] == '\n') && forall i | n <= i < |text| :: text[i] != '\n'
  }

  lemma CleanIsNoControl(s: string)
    ensures IsClean(s) <==> forall c | c in s :: !IsControl(c)
  {}

  lemma ShownIsPublic(policy: Policy, s: string, limit: nat)
    ensures MayShow(policy, s, limit) <==> IsPublic(policy, s, limit)
  {
    CleanIsNoControl(s);
  }

  lemma PublishableIs(policy: Policy, text: string, emitted: nat, n: nat, completed: bool, tail: seq<Part>)
    requires emitted <= |text| && n <= |text|
    ensures var flushed := Flush(policy, text, emitted, n, completed, tail);
      && (flushed.Some? <==> MayPublish(policy, text, emitted, n))
      && (flushed.Some? ==> |flushed.value.0| >= |tail| && flushed.value.1 == Text(text, Max(emitted, n), completed)
                            && IsBlock(flushed.value.0[..|flushed.value.0| - |tail|], text, emitted, n)
                            && flushed.value.0[|flushed.value.0| - |tail|..] == tail)
  {
    ShownIsPublic(policy, text[..n], 65536);
    if emitted <= n {
      ShownIsPublic(policy, text[emitted..n], 65536);
    }
  }

  /** A delta is taken if its text is clean and not too long, the body is not complete, and what it lets be
      published, up to its last line end, may be. */
  lemma DeltaIs(policy: Policy, fragment: string, valid: bool, t: Text, n: nat)
    requires TextIsValid(policy, t) && EndsLines(t.body + fragment, n)
    ensures var text, p := t.body + fragment, Project(policy, Delta(fragment, valid), Some(t));
      && (p.Some? <==> valid && 0 < |fragment| <= 4096 && IsClean(fragment) && !t.completed && |text| <= 65536
                       && MayPublish(policy, text, t.emitted, n))
      && (p.Some? ==> IsBlock(p.value.parts, text, t.emitted, n) && p.value.assistant.None? && p.value.terminal.None?
                      && p.value.text == Some(Text(text, Max(t.emitted, n), false)))
  {
    var text := t.body + fragment;
    CleanIsNoControl(fragment);
    assert LastLine(text) == n;
    PublishableIs(policy, text, t.emitted, n, false, []);
    assert IsPending(fragment, 4096) && |text| <= 65536 ==> IsPending(text, 65536);
  }

  /** A message is taken if it may be published, goes on where the body stands and adds nothing to a complete one.
      What is new of it is published as a block, and then the message. */
  lemma MessageIs(policy: Policy, content: string, valid: bool, t: Text)
    requires TextIsValid(policy, t)
    ensures var p := Project(policy, Message(content, valid), Some(t));
      && (p.Some? <==> valid && policy.payload(content) && MayShow(policy, content, 65536) && t.body <= content
                       && (t.completed ==> content == t.body) && MayPublish(policy, content, t.emitted, |content|))
      && (p.Some? ==> p.value.parts != [] && p.value.parts[|p.value.parts| - 1] == MessagePart(content)
                      && IsBlock(p.value.parts[..|p.value.parts| - 1], content, t.emitted, |content|)
                      && p.value.assistant == Some(content) && p.value.terminal.None?
                      && p.value.text == Some(Text(content, |content|, true)))
  {
    ShownIsPublic(policy, content, 65536);
    assert t.body <= content <==> IsPrefixOf(t.body, content);
    if t.body <= content {
      PublishableIs(policy, content, t.emitted, |content|, true, [MessagePart(content)]);
    }
  }

  /** A completed status publishes what is still held back, and the body as the message. */
  lemma CompletionIs(policy: Policy, valid: bool, t: Text)
    requires TextIsValid(policy, t) && t.body != "" && !t.completed
    ensures var p := Project(policy, Change(Completed, valid), Some(t));
      && (p.Some? <==> valid && MayPublish(policy, t.body, t.emitted, |t.body|))
      && (p.Some? ==> |p.value.parts| >= 2 && p.value.parts[|p.value.parts| - 2..] == [MessagePart(t.body), StatusPart(Completed)]
                      && IsBlock(p.value.parts[..|p.value.parts| - 2], t.body, t.emitted, |t.body|)
                      && p.value.assistant == Some(t.body) && p.value.terminal == Some(Completed)
                      && p.value.text == Some(Text(t.body, |t.body|, true)))
  {
    PublishableIs(policy, t.body, t.emitted, |t.body|, true, [MessagePart(t.body), StatusPart(Completed)]);
  }

  /** Any other status is published as it is. */
  lemma StatusIs(policy: Policy, status: Status, valid: bool, t: Text)
    requires TextIsValid(policy, t) && (status == Completed ==> t.body == "" || t.completed)
    ensures Project(policy, Change(status, valid), Some(t)) ==
      if !valid then None
      else Some(Projection([StatusPart(status)], if status == Completed && t.body != "" then Some(t.body) else None,
                           if status in [Completed, Failed, Cancelled] then Some(status) else None, Some(t)))
  {}

  lemma OtherIs(policy: Policy, name: string, shown: bool, valid: bool, t: Text)
    requires TextIsValid(policy, t)
    ensures Project(policy, Other(name, shown, valid), Some(t)) ==
      if valid then Some(Projection([OtherPart(name, shown)], None, None, Some(t))) else None
  {}

  /** A turn without buffered text, from before there was any, publishes each fragment for itself. */
  lemma UnbufferedIs(policy: Policy, body: Body)
    ensures Project(policy, body, None) ==
      match body
      case Delta(fragment, valid) =>
        if valid && policy.payload(fragment) && MayShow(policy, fragment, 4096)
        then Some(Projection([TextPart(fragment)], None, None, None)) else None
      case Message(content, valid) =>
        if valid && policy.payload(content) && MayShow(policy, content, 65536)
        then Some(Projection([MessagePart(content)], Some(content), None, None)) else None
      case Change(status, valid) =>
        if valid
        then Some(Projection([StatusPart(status)], None, if status in [Completed, Failed, Cancelled] then Some(status) else None, None))
        else None
      case Other(name, shown, valid) => if valid then Some(Projection([OtherPart(name, shown)], None, None, None)) else None
  {
    if body.Delta? {
      ShownIsPublic(policy, body.fragment, 4096);
    } else if body.Message? {
      ShownIsPublic(policy, body.content, 65536);
    }
  }

  // ----- the text that a turn holds is always valid -----

  lemma FlushIsValid(policy: Policy, text: string, emitted: nat, n: nat, completed: bool, tail: seq<Part>)
    requires emitted <= |text| <= 65536 && n <= |text| && (text != "" ==> IsPending(text, 65536))
    requires emitted > 0 ==> IsPublic(policy, text[..emitted], 65536)
    requires if completed then n == |text| else
      (n > 0 ==> text[n - 1] == '\n') && (emitted > 0 ==> text[emitted - 1] == '\n')
    requires Flush(policy, text, emitted, n, completed, tail).Some?
    ensures TextIsValid(policy, Flush(policy, text, emitted, n, completed, tail).value.1)
  {}

  lemma ProjectionIsValid(policy: Policy, body: Body, t: Text)
    requires TextIsValid(policy, t) && Project(policy, body, Some(t)).Some?
    ensures var p := Project(policy, body, Some(t)).value; p.text.Some? && TextIsValid(policy, p.text.value)
  {
    match body
    case Delta(fragment, _) =>
      var text := t.body + fragment;
      assert text[..t.emitted] == t.body[..t.emitted];
      FlushIsValid(policy, text, t.emitted, LastLine(text), false, []);
    case Message(content, _) =>
      assert content[..t.emitted] == t.body[..t.emitted];
      FlushIsValid(policy, content, t.emitted, |content|, true, [MessagePart(content)]);
    case Change(status, _) =>
      if status.Completed? && t.body != "" && !t.completed {
        FlushIsValid(policy, t.body, t.emitted, |t.body|, true, [MessagePart(t.body), StatusPart(status)]);
      }
    case Other(_, _, _) =>
  }

  /** The text at a point keeps the rules that the mapper asks of it. */
  lemma {:induction false} PointsHoldValidText(s: Setting, i: nat)
    requires i <= |s.stream| && PointAt(s, i).Some?
    ensures var text := PointAt(s, i).value.progress.text; text.Some? && TextIsValid(s.policy, text.value)
  {
    if i > 0 {
      PointsHoldValidText(s, i - 1);
      var before := PointAt(s, i - 1).value;
      if Judge(s.policy, before.progress, s.stream, i - 1).Advance? {
        ProjectionIsValid(s.policy, s.stream[i - 1].body, before.progress.text.value);
      }
    }
  }

  // ----- which events are taken -----

  /** The next event repeats the one before, or it has the next cursor and can be projected, or it is refused. */
  lemma EventsAreJudged(s: Setting, i: nat)
    requires i < |s.stream| && IsFresh(s.log) && PointAt(s, i).Some?
    ensures var e, text, v := s.stream[i], PointAt(s, i).value.progress.text, Judge(s.policy, PointAt(s, i).value.progress, s.stream, i);
      var isNext := e.cursor == if i == 0 then 1 else s.stream[i - 1].cursor + 1;
      && (v.Skip? <==> i > 0 && e == s.stream[i - 1])
      && (v.Advance? <==> isNext && Project(s.policy, e.body, text).Some?)
      && (v.Advance? ==> v.projection == Project(s.policy, e.body, text).value)
      && (v.Reject? <==> !(i > 0 && e == s.stream[i - 1]) && !(isNext && Project(s.policy, e.body, text).Some?))
  {
    ProjectedEventsAreOneStream(s, i);
    PointsAreSound(s, i);
    DigestsAreSeen(s, i);
    if i > 0 {
      assert Remembers(PointAt(s, i).value.progress, s.stream[i - 1]);
    }
  }

  /** Every digest that is remembered is of an event seen before, under its cursor. */
  lemma {:induction false} DigestsAreSeen(s: Setting, i: nat)
    requires i <= |s.stream| && PointAt(s, i).Some?
    ensures forall c | c in PointAt(s, i).value.progress.digests :: c > 0 && PointAt(s, i).value.progress.digests[c].cursor == c
  {
    if i > 0 {
      DigestsAreSeen(s, i - 1);
    }
  }
}
