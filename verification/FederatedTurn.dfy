/** A federated turn: `_process_federated_runtime_turn`, `_recover_federated_terminal_projection`,
    `_finish_federated_runtime_turn` and `_append` of mvp/src/workbench/api/conversations.py, with
    `project_runtime_event` and `map_buffered_assistant_text`. A run is the list of durable states
    it writes, so that a crash is a prefix of that list. */
module FederatedTurn {
  import opened Basics

  // ----- runtime events and what they project to -----

  datatype Status = Queued | Running | Paused | Completed | Failed | Cancelled {
    predicate IsTerminal() {
      Completed? || Failed? || Cancelled?
    }
  }

  /** `valid` says that the mapper accepts the payload's other fields. */
  datatype Body =
    | Delta(fragment: string, valid: bool)
    | Message(content: string, valid: bool)
    | Change(status: Status, valid: bool)
    | Other(name: string, shown: bool, valid: bool)

  /** The digest of an event stands for the event: digests do not collide. */
  datatype Event = Event(cursor: nat, body: Body)

  /** The buffered assistant text. A turn from before buffering has none. */
  datatype Text = Text(body: string, emitted: nat, completed: bool)

  datatype Part =
    | TextPart(content: string)
    | MessagePart(content: string)
    | StatusPart(status: Status)
    | OtherPart(name: string, shown: bool)

  datatype Projection = Projection(parts: seq<Part>, assistant: Option<string>, terminal: Option<Status>, text: Option<Text>)

  /** What may be published, as text and as a payload value. */
  datatype Policy = Policy(text: string -> bool, payload: string -> bool)

  const MESSAGE_LIMIT := 65536
  const FRAGMENT_LIMIT := 4096
  const SILENCE := Text("", 0, false)

  predicate IsControl(c: char) {
    c < '\t' || c == 0x0b as char || c == 0x0c as char || 0x0e as char <= c < ' ' || c == 0x7f as char
  }

  predicate IsPending(s: string, limit: nat) {
    0 < |s| <= limit && forall c | c in s :: !IsControl(c)
  }

  predicate IsPublic(policy: Policy, s: string, limit: nat) {
    IsPending(s, limit) && policy.text(s)
  }

  function LastLine(s: string): (n: nat)
    ensures n <= |s|
    ensures n > 0 ==> s[n - 1] == '\n'
    ensures forall i | n <= i < |s| :: s[i] != '\n'
  {
    if s == [] then 0
    else if s[|s| - 1] == '\n' then |s|
    else LastLine(s[..|s| - 1])
  }

  predicate TextIsValid(policy: Policy, t: Text) {
    && |t.body| <= MESSAGE_LIMIT && t.emitted <= |t.body|
    && (t.completed ==> t.emitted == |t.body|)
    && (!t.completed && t.emitted > 0 ==> t.body[t.emitted - 1] == '\n')
    && (t.body != "" ==> IsPending(t.body, MESSAGE_LIMIT))
    && (t.emitted > 0 ==> IsPublic(policy, t.body[..t.emitted], MESSAGE_LIMIT))
  }

  /** The one domain event of a runtime event, by the unbuffered mapper. */
  function Plain(policy: Policy, body: Body): Option<Part> {
    if !body.valid then None
    else
      match body
      case Delta(fragment, _) =>
        if policy.payload(fragment) && IsPublic(policy, fragment, FRAGMENT_LIMIT) then Some(TextPart(fragment)) else None
      case Message(content, _) =>
        if policy.payload(content) && IsPublic(policy, content, MESSAGE_LIMIT) then Some(MessagePart(content)) else None
      case Change(status, _) => Some(StatusPart(status))
      case Other(name, shown, _) => Some(OtherPart(name, shown))
  }

  /** Publishes the text up to `boundary`, with `tail` behind it. */
  function Flush(policy: Policy, text: string, emitted: nat, boundary: nat, completed: bool, tail: seq<Part>)
    : Option<(seq<Part>, Text)>
    requires emitted <= |text| && boundary <= |text|
  {
    if boundary <= emitted then Some((tail, Text(text, emitted, completed)))
    else
      var prefix, block := text[..boundary], text[emitted..boundary];
      if IsPublic(policy, prefix, MESSAGE_LIMIT) && policy.payload(prefix) && IsPublic(policy, block, MESSAGE_LIMIT)
      then Some(([TextPart(block)] + tail, Text(text, boundary, completed)))
      else None
  }

  predicate IsPrefixOf(a: string, b: string) {
    |a| <= |b| && b[..|a|] == a
  }

  /** `map_buffered_assistant_text`: text is published in whole lines. */
  function Buffered(policy: Policy, body: Body, t: Text): Option<(seq<Part>, Text)> {
    if !TextIsValid(policy, t) then None
    else
      match body
      case Delta(fragment, valid) =>
        var text := t.body + fragment;
        if !valid || !IsPending(fragment, FRAGMENT_LIMIT) || t.completed || !IsPending(text, MESSAGE_LIMIT) then None
        else Flush(policy, text, t.emitted, LastLine(text), false, [])
      case Message(content, _) =>
        var plain := Plain(policy, body);
        if plain.None? || !IsPrefixOf(t.body, content) || (t.completed && content != t.body) then None
        else Flush(policy, content, t.emitted, |content|, true, [plain.value])
      case Change(status, _) =>
        var plain := Plain(policy, body);
        if plain.None? then None
        else if status.Completed? && t.body != "" && !t.completed then
          Flush(policy, t.body, t.emitted, |t.body|, true, [MessagePart(t.body), plain.value])
        else Some(([plain.value], t))
      case Other(_, _, _) =>
        var plain := Plain(policy, body);
        if plain.None? then None else Some(([plain.value], t))
  }

  /** `project_runtime_event` for the next cursor; None is a protocol error. */
  function Project(policy: Policy, body: Body, text: Option<Text>): Option<Projection> {
    if body.Message? && body.content == "" then None
    else
      var terminal := if body.Change? && body.status.IsTerminal() then Some(body.status) else None;
      var said := if body.Message? then Some(body.content) else None;
      if text.None? then
        var plain := Plain(policy, body);
        if plain.None? then None else Some(Projection([plain.value], said, terminal, None))
      else
        var mapped := Buffered(policy, body, text.value);
        if mapped.None? then None
        else
          var (parts, next) := mapped.value;
          var final := terminal == Some(Completed) && next.body != "";
          Some(Projection(parts, if final then Some(next.body) else said, terminal, Some(next)))
  }

  // ----- the durable store -----

  datatype Outcome = Done | RuntimeFailed | RuntimeCancelled | ReconciliationRequired | Refused(category: string)

  datatype Fact = RuntimeFact(cursor: nat, part: Part) | TurnFinished | TurnFailed(reason: Outcome) | Elsewhere(name: string)

  /** Idempotency keys of `_append`; the ordinal of a turn's terminal is its cursor plus one. */
  datatype Key = RuntimeKey(cursor: nat, part: nat) | TerminalKey(ordinal: nat) | OtherKey(name: string)

  /** `mine`: caused by this turn's reservation; `digest`: the runtime event it carries the digest of. */
  datatype Entry = Entry(key: Key, fact: Fact, mine: bool, digest: Option<Event>)

  /** An entry as the client sees it, with its place in the log. */
  datatype Public = Public(sequence: nat, fact: Fact)

  datatype Progress = Progress(
    cursor: nat, result: seq<Public>, digests: map<nat, Event>, text: Option<Text>, assistant: Option<string>)

  datatype TurnState = TurnState(progress: Progress, outcome: Option<Outcome>)

  datatype EndStatus = EndCompleted | EndFailed | EndReconciliation
  datatype Phase = PhaseCompleted | PhaseFailed | PhaseCancelled | PhaseReconciliation
  datatype Standing = Claimed | Retryable | Ended(status: EndStatus, phase: Phase)

  datatype Durable = Durable(
    log: seq<Entry>, message: Option<string>, turn: TurnState, standing: Standing, result: Option<seq<Public>>)

  const START := Progress(0, [], map[], Some(SILENCE), None)

  predicate Shown(fact: Fact) {
    !(fact.RuntimeFact? && fact.part.OtherPart? && !fact.part.shown)
  }

  function Shows(fact: Fact, at: nat): seq<Public> {
    if Shown(fact) then [Public(at + 1, fact)] else []
  }

  function Find(log: seq<Entry>, key: Key): (i: nat)
    ensures i <= |log|
    ensures i < |log| ==> log[i].key == key
    ensures forall k | 0 <= k < i :: log[k].key != key
  {
    if log == [] then 0
    else
      var i := Find(log[..|log| - 1], key);
      if i < |log| - 1 || log[i].key == key then i else |log|
  }

  /** `_append`: the log afterwards and the entry's place; None if the key holds something else. */
  function Append(log: seq<Entry>, key: Key, fact: Fact, digest: Option<Event>): Option<(seq<Entry>, nat)> {
    var i := Find(log, key);
    if i == |log| then Some((log + [Entry(key, fact, true, digest)], i))
    else if log[i].fact == fact then Some((log, i))
    else None
  }

  function OutcomeOf(status: Status): Outcome
    requires status.IsTerminal()
  {
    match status
    case Completed => Done
    case Cancelled => RuntimeCancelled
    case _ => RuntimeFailed
  }

  function TerminalFact(outcome: Outcome): Fact {
    if outcome.Done? then TurnFinished else TurnFailed(outcome)
  }

  function EndOf(outcome: Outcome): Standing {
    match outcome
    case Done => Ended(EndCompleted, PhaseCompleted)
    case RuntimeCancelled => Ended(EndFailed, PhaseCancelled)
    case ReconciliationRequired => Ended(EndReconciliation, PhaseReconciliation)
    case _ => Ended(EndFailed, PhaseFailed)
  }

  // ----- one run, as the durable states it writes -----

  /** How the runtime's stream ends: normally, with a failure the turn settles on, with a failure
      that asks for another attempt, or with an exception. */
  datatype Ending = Ends | Fails(category: Outcome) | Breaks | Asks | Corrupts | Raises

  function FailCorrupt(d: Durable): Durable {
    d.(turn := TurnState(START, None), standing := Ended(EndFailed, PhaseFailed), result := Some([]))
  }

  function Finish(d: Durable, progress: Progress, outcome: Outcome): seq<Durable> {
    var saved := d.(turn := TurnState(progress, Some(outcome)));
    var fact := TerminalFact(outcome);
    var appended := Append(d.log, TerminalKey(progress.cursor + 1), fact, None);
    if appended.None? then [saved, saved.(standing := Retryable)]
    else
      var (log, at) := appended.value;
      var result := progress.result + Shows(fact, at);
      var last := Durable(log, d.message, TurnState(progress.(result := result), Some(outcome)), EndOf(outcome), Some(result));
      [saved, saved.(log := log), last]
  }

  datatype Appending = Appending(states: seq<Durable>, log: seq<Entry>, result: seq<Public>, clashed: bool)

  /** Appends the parts from `k` on, each under its own key. */
  function AppendParts(d: Durable, e: Event, parts: seq<Part>, k: nat, result: seq<Public>): Appending
    requires k <= |parts|
    decreases |parts| - k
  {
    if k == |parts| then Appending([], d.log, result, false)
    else
      var fact := RuntimeFact(e.cursor, parts[k]);
      var appended := Append(d.log, RuntimeKey(e.cursor, k), fact, Some(e));
      if appended.None? then Appending([d.(standing := Retryable)], d.log, result, true)
      else
        var (log, at) := appended.value;
        var next := d.(log := log);
        var rest := AppendParts(next, e, parts, k + 1, result + Shows(fact, at));
        rest.(states := [next] + rest.states)
  }

  lemma AppendStep(d: Durable, e: Event, parts: seq<Part>, k: nat, result: seq<Public>, log: seq<Entry>, at: nat)
    requires k < |parts|
    requires Append(d.log, RuntimeKey(e.cursor, k), RuntimeFact(e.cursor, parts[k]), Some(e)) == Some((log, at))
    ensures var next := d.(log := log);
      var rest := AppendParts(next, e, parts, k + 1, result + Shows(RuntimeFact(e.cursor, parts[k]), at));
      AppendParts(d, e, parts, k, result) == rest.(states := [next] + rest.states)
  {}

  datatype Verdict = Skip | Reject | Advance(projection: Projection)

  /** The checks on the next event of the stream. */
  function Judge(policy: Policy, progress: Progress, stream: seq<Event>, i: nat): Verdict
    requires i < |stream|
  {
    var e := stream[i];
    if i > 0 && !(stream[i - 1].cursor <= e.cursor <= stream[i - 1].cursor + 1) then Reject
    else if e.cursor <= progress.cursor then
      if e.cursor in progress.digests && progress.digests[e.cursor] == e then Skip else Reject
    else if e.cursor != progress.cursor + 1 then Reject
    else
      var projection := Project(policy, e.body, progress.text);
      if projection.None? then Reject else Advance(projection.value)
  }

  function WriteMessage(d: Durable, content: string): Durable {
    if d.message.Some? then d else d.(message := Some(content))
  }

  function Advanced(progress: Progress, e: Event, p: Projection, result: seq<Public>): Progress {
    Progress(e.cursor, result, progress.digests[e.cursor := e], p.text,
             if p.assistant.Some? then p.assistant else progress.assistant)
  }

  function SaveAdvance(d: Durable, progress: Progress, e: Event, p: Projection, result: seq<Public>): Durable {
    var outcome :=
      if p.terminal.Some? && p.terminal.value.IsTerminal() then Some(OutcomeOf(p.terminal.value)) else d.turn.outcome;
    d.(turn := TurnState(Advanced(progress, e, p, result), outcome))
  }

  /** The states one event's projection writes; `saved` is the last if the loop goes on from there. */
  datatype Taking = Taking(states: seq<Durable>, saved: Option<Durable>)

  function Take(d: Durable, progress: Progress, e: Event, p: Projection): Taking {
    var a := AppendParts(d, e, p.parts, 0, progress.result);
    if a.clashed then Taking(a.states, None)
    else
      var t := TakeMessage(d.(log := a.log), progress, e, p, a.result);
      Taking(a.states + t.states, t.saved)
  }

  function TakeMessage(d: Durable, progress: Progress, e: Event, p: Projection, result: seq<Public>): Taking {
    if p.assistant.None? then
      var saved := SaveAdvance(d, progress, e, p, result);
      Taking([saved], Some(saved))
    else if progress.assistant.Some? && progress.assistant != p.assistant then
      Taking(Finish(d, progress.(result := result), RuntimeFailed), None)
    else
      var told := WriteMessage(d, p.assistant.value);
      if told.message != p.assistant then Taking([told, FailCorrupt(told)], None)
      else
        var saved := SaveAdvance(told, progress, e, p, result);
        Taking([told, saved], Some(saved))
  }

  /** The event loop from the `i`-th event on. `assistant` is what the turn was loaded with. */
  function Loop(policy: Policy, d: Durable, assistant: Option<string>, progress: Progress, terminal: Option<Status>,
                stream: seq<Event>, i: nat, ending: Ending): seq<Durable>
    requires i <= |stream|
    requires terminal.Some? ==> terminal.value.IsTerminal()
    decreases |stream| - i
  {
    if i == |stream| then AtEnd(d, assistant, progress, terminal, ending)
    else
      match Judge(policy, progress, stream, i)
      case Skip => Loop(policy, d, assistant, progress, terminal, stream, i + 1, ending)
      case Reject => Finish(d, progress, RuntimeFailed)
      case Advance(p) =>
        if terminal.Some? then Finish(d, progress, RuntimeFailed)
        else
          var t := Take(d, progress, stream[i], p);
          if t.saved.None? then t.states
          else
            t.states + Loop(policy, t.saved.value, assistant, t.saved.value.turn.progress, TerminalOf(p), stream, i + 1, ending)
  }

  function TerminalOf(p: Projection): (r: Option<Status>)
    ensures r.Some? ==> r.value.IsTerminal()
  {
    if p.terminal.Some? && p.terminal.value.IsTerminal() then p.terminal else None
  }

  function AtEnd(d: Durable, assistant: Option<string>, progress: Progress, terminal: Option<Status>, ending: Ending)
    : seq<Durable>
    requires terminal.Some? ==> terminal.value.IsTerminal()
  {
    match ending
    case Ends => Finish(d, progress, if terminal.Some? then OutcomeOf(terminal.value) else RuntimeFailed)
    case Fails(category) => Finish(d, progress, category)
    case Breaks => Finish(d, progress, RuntimeFailed)
    case Asks => [d.(turn := TurnState(progress.(assistant := assistant), None), standing := Retryable)]
    case Corrupts => [FailCorrupt(d)]
    case Raises => [d.(standing := Retryable)]
  }

  predicate IsTerminalEntry(entry: Entry) {
    entry.mine && entry.fact.RuntimeFact? && entry.fact.part.StatusPart? && entry.fact.part.status.IsTerminal()
  }

  function TerminalEntries(log: seq<Entry>): (r: seq<Entry>)
    ensures forall entry | entry in r :: IsTerminalEntry(entry)
  {
    if log == [] then []
    else
      TerminalEntries(log[..|log| - 1]) + if IsTerminalEntry(log[|log| - 1]) then [log[|log| - 1]] else []
  }

  predicate Tagged(entry: Entry) {
    entry.mine && entry.digest.Some?
  }

  datatype Heard = Heard(result: seq<Public>, assistant: Option<string>, text: Option<Text>) | Garbled

  /** What the turn's own log entries say it has published. */
  function Hear(log: seq<Entry>, assistant: Option<string>, text: Option<Text>): Heard {
    if log == [] then Heard([], assistant, text)
    else
      var n := |log| - 1;
      var heard := Hear(log[..n], assistant, text);
      var entry := log[n];
      if heard.Garbled? || !Tagged(entry) then heard
      else
        var result := heard.result + Shows(entry.fact, n);
        if entry.fact.RuntimeFact? && entry.fact.part.MessagePart? then
          var content := entry.fact.part.content;
          if content == "" || (heard.assistant.Some? && heard.assistant.value != content) then Garbled
          else Heard(result, Some(content), if heard.text.Some? then Some(Text(content, |content|, true)) else None)
        else heard.(result := result)
  }

  /** Recovery from a terminal that the log holds and the turn's state does not. */
  function Recover(d: Durable, terminal: Entry): seq<Durable>
    requires IsTerminalEntry(terminal)
  {
    var progress := d.turn.progress;
    var cursor := terminal.fact.cursor;
    if cursor < 1 || terminal.digest.None? || cursor < progress.cursor then [FailCorrupt(d)]
    else
      var digest := terminal.digest.value;
      if cursor == progress.cursor && !(cursor in progress.digests && progress.digests[cursor] == digest) then [FailCorrupt(d)]
      else
        var heard := Hear(d.log, progress.assistant, progress.text);
        if heard.Garbled? then [FailCorrupt(d)]
        else
          var outcome := OutcomeOf(terminal.fact.part.status);
          var next := Progress(cursor, heard.result, progress.digests[cursor := digest], heard.text, heard.assistant);
          if heard.assistant.None? then Finish(d, next, outcome)
          else
            var told := WriteMessage(d, heard.assistant.value);
            if told.message != heard.assistant then [told, FailCorrupt(told)] else [told] + Finish(told, next, outcome)
  }

  /** A whole run of a claimed turn. */
  function Run(policy: Policy, d: Durable, stream: seq<Event>, ending: Ending): seq<Durable> {
    var progress := d.turn.progress;
    if d.turn.outcome.Some? then Finish(d, progress, d.turn.outcome.value)
    else
      var terminals := TerminalEntries(d.log);
      if |terminals| > 1 then [FailCorrupt(d)]
      else if |terminals| == 1 then Recover(d, terminals[0])
      else Loop(policy, d, progress.assistant, progress, None, stream, 0, ending)
  }

  /** Where a run stands that is stopped after so many writes. */
  function AfterWrites(d: Durable, states: seq<Durable>, writes: nat): Durable {
    if writes == 0 || states == [] then d
    else if writes <= |states| then states[writes - 1]
    else states[|states| - 1]
  }
}
