/** The canonical message history of a turn: `_canonical_messages_for_turn` of
    mvp/src/workbench/api/conversations.py. Durable messages are taken out of the runner's
    history as a multiset and put back turn by turn. */
module CanonicalHistory {
  import opened Basics

  datatype Role = System | User | Assistant | Tool

  /** A durable message; the list is ordered by sequence. */
  datatype Message = Message(commandId: string, sequence: nat, role: Role, content: Option<string>)

  /** A runner message: its text if the content is a string, and everything else it carries. */
  datatype RunnerMessage = RunnerMessage(role: Role, text: Option<string>, rest: string)

  datatype Key = Key(role: Role, content: Option<string>)

  datatype Entry = FromRunner(message: RunnerMessage) | FromTurn(role: Role, content: Option<string>)

  datatype Result<+T> = Ok(value: T) | MissingUserMessage

  function RemoveSuffix(s: string, suffix: string): string {
    if |suffix| <= |s| && s[|s| - |suffix|..] == suffix then s[..|s| - |suffix|] else s
  }

  function UserBase(m: Message): string {
    RemoveSuffix(m.commandId, ":user")
  }

  function ReplyBase(m: Message): string {
    RemoveSuffix(m.commandId, ":assistant")
  }

  predicate IsUserUpTo(m: Message, limit: nat) {
    m.role == User && m.sequence <= limit
  }

  predicate IsReplyTo(m: Message, base: string) {
    m.role == Assistant && ReplyBase(m) == base
  }

  // ----- the specification -----

  function UsersUpTo(durable: seq<Message>, limit: nat): seq<Message> {
    if durable == [] then []
    else
      var last := durable[|durable| - 1];
      UsersUpTo(durable[..|durable| - 1], limit) + if IsUserUpTo(last, limit) then [last] else []
  }

  function Replies(durable: seq<Message>, base: string): seq<Message> {
    if durable == [] then []
    else
      var last := durable[|durable| - 1];
      Replies(durable[..|durable| - 1], base) + if IsReplyTo(last, base) then [last] else []
  }

  function DurableKeys(durable: seq<Message>): multiset<Key> {
    if durable == [] then multiset{}
    else
      var last := durable[|durable| - 1];
      DurableKeys(durable[..|durable| - 1]) + multiset{Key(last.role, last.content)}
  }

  function RunnerKeys(runner: seq<RunnerMessage>): multiset<Key> {
    if runner == [] then multiset{}
    else multiset{Key(runner[0].role, runner[0].text)} + RunnerKeys(runner[1..])
  }

  /** The runner's messages that no durable message accounts for. */
  function Unmatched(runner: seq<RunnerMessage>, counts: multiset<Key>): seq<RunnerMessage> {
    if runner == [] then []
    else
      var key := Key(runner[0].role, runner[0].text);
      if key in counts then Unmatched(runner[1..], counts - multiset{key})
      else [runner[0]] + Unmatched(runner[1..], counts)
  }

  /** The turns: each user message, with its own replies right behind it. */
  function Turns(users: seq<Message>, durable: seq<Message>): seq<Message> {
    if users == [] then []
    else [users[0]] + Replies(durable, UserBase(users[0])) + Turns(users[1..], durable)
  }

  /** Messages as entries of the history. */
  function TurnEntries(turns: seq<Message>): (r: seq<Entry>)
    ensures |r| == |turns| && forall i | 0 <= i < |r| :: r[i] == FromTurn(turns[i].role, turns[i].content)
  {
    seq(|turns|, i requires 0 <= i < |turns| => FromTurn(turns[i].role, turns[i].content))
  }

  function RunnerEntries(prefix: seq<RunnerMessage>): (r: seq<Entry>)
    ensures |r| == |prefix| && forall i | 0 <= i < |r| :: r[i] == FromRunner(prefix[i])
  {
    seq(|prefix|, i requires 0 <= i < |prefix| => FromRunner(prefix[i]))
  }

  function AsEntries(prefix: seq<RunnerMessage>, turns: seq<Message>): seq<Entry> {
    RunnerEntries(prefix) + TurnEntries(turns)
  }

  /** The history as a function of the durable messages, given the current turn's sequence. */
  function History(runner: seq<RunnerMessage>, durable: seq<Message>, limit: nat): seq<Entry> {
    AsEntries(Unmatched(runner, DurableKeys(durable)), Turns(UsersUpTo(durable, limit), durable))
  }

  /** The first message with the current turn's user id. */
  function Current(durable: seq<Message>, commandId: string): (k: nat)
    ensures k <= |durable| && forall i | 0 <= i < k :: durable[i].commandId != commandId + ":user"
    ensures k < |durable| ==> durable[k].commandId == commandId + ":user"
  {
    if durable == [] then 0
    else
      var n := |durable| - 1;
      var k := Current(durable[..n], commandId);
      if k < n || durable[n].commandId == commandId + ":user" then k else n + 1
  }

  function Canonical(runner: seq<RunnerMessage>, durable: seq<Message>, commandId: string): Result<seq<Entry>> {
    var k := Current(durable, commandId);
    if k == |durable| then MissingUserMessage else Ok(History(runner, durable, durable[k].sequence))
  }

  // ----- what the parts of the history are -----

  predicate IsSubsequence<T(==)>(a: seq<T>, b: seq<T>) {
    if a == [] then true
    else b != [] && ((a[0] == b[0] && IsSubsequence(a[1..], b[1..])) || IsSubsequence(a, b[1..]))
  }

  /** The prefix keeps the runner's order. */
  lemma {:induction false} PrefixIsSubsequence(runner: seq<RunnerMessage>, counts: multiset<Key>)
    ensures IsSubsequence(Unmatched(runner, counts), runner)
  {
    if runner != [] {
      var key := Key(runner[0].role, runner[0].text);
      if key in counts {
        PrefixIsSubsequence(runner[1..], counts - multiset{key});
      } else {
        PrefixIsSubsequence(runner[1..], counts);
        assert Unmatched(runner, counts)[1..] == Unmatched(runner[1..], counts);
      }
    }
  }

  /** Conservation: the prefix is the runner's history minus the durable messages, as multisets. */
  lemma {:induction false} PrefixConserves(runner: seq<RunnerMessage>, counts: multiset<Key>)
    ensures RunnerKeys(Unmatched(runner, counts)) == RunnerKeys(runner) - counts
  {
    if runner != [] {
      var key := Key(runner[0].role, runner[0].text);
      if key in counts {
        PrefixConserves(runner[1..], counts - multiset{key});
      } else {
        PrefixConserves(runner[1..], counts);
        assert Unmatched(runner, counts)[1..] == Unmatched(runner[1..], counts);
      }
    }
  }

  lemma {:induction false} UsersAre(durable: seq<Message>, limit: nat, m: Message)
    ensures m in UsersUpTo(durable, limit) <==> m in durable && IsUserUpTo(m, limit)
  {
    if durable != [] {
      UsersAre(durable[..|durable| - 1], limit, m);
      assert durable == durable[..|durable| - 1] + [durable[|durable| - 1]];
    }
  }

  lemma {:induction false} RepliesAre(durable: seq<Message>, base: string, m: Message)
    ensures m in Replies(durable, base) <==> m in durable && IsReplyTo(m, base)
  {
    if durable != [] {
      RepliesAre(durable[..|durable| - 1], base, m);
      assert durable == durable[..|durable| - 1] + [durable[|durable| - 1]];
    }
  }

  /** The turn part holds exactly the user messages up to the current one and the replies to them:
      nothing of a turn queued later. */
  lemma {:induction false} TurnsAre(users: seq<Message>, durable: seq<Message>, m: Message)
    ensures m in Turns(users, durable) <==>
      m in users || exists u :: u in users && m in durable && IsReplyTo(m, UserBase(u))
  {
    if users != [] {
      TurnsAre(users[1..], durable, m);
      RepliesAre(durable, UserBase(users[0]), m);
    }
  }

  /** How many of the users answer to the id `base`. */
  function Askers(users: seq<Message>, base: string): nat {
    if users == [] then 0
    else (if UserBase(users[0]) == base then 1 else 0) + Askers(users[1..], base)
  }

  lemma {:induction false} ReplyCount(durable: seq<Message>, base: string, m: Message)
    ensures multiset(Replies(durable, base))[m] == if IsReplyTo(m, base) then multiset(durable)[m] else 0
  {
    if durable != [] {
      ReplyCount(durable[..|durable| - 1], base, m);
      assert durable == durable[..|durable| - 1] + [durable[|durable| - 1]];
    }
  }

  /** How often a message appears in the turns: a reply once for each user message its id answers to. */
  lemma {:induction false} TurnCount(users: seq<Message>, durable: seq<Message>, m: Message)
    requires multiset(durable)[m] <= 1
    ensures multiset(Turns(users, durable))[m]
         == multiset(users)[m] + if m.role == Assistant && m in durable then Askers(users, ReplyBase(m)) else 0
  {
    if users != [] {
      TurnCount(users[1..], durable, m);
      ReplyCount(durable, UserBase(users[0]), m);
      HeadCount(users, m);
      CountOfParts(users[0], Replies(durable, UserBase(users[0])), Turns(users[1..], durable), m);
    }
  }

  lemma HeadCount(users: seq<Message>, m: Message)
    requires users != []
    ensures multiset(users)[m] == (if users[0] == m then 1 else 0) + multiset(users[1..])[m]
  {
    assert users == [users[0]] + users[1..];
  }

  lemma CountOfParts(head: Message, b: seq<Message>, c: seq<Message>, m: Message)
    ensures multiset([head] + b + c)[m] == (if head == m then 1 else 0) + multiset(b)[m] + multiset(c)[m]
  {}

  predicate DistinctIds(durable: seq<Message>) {
    forall i, j | 0 <= i < j < |durable| :: durable[i].commandId != durable[j].commandId
  }

  predicate NotShared(users: seq<Message>, base: string) {
    forall i, j | 0 <= i < j < |users| :: !(UserBase(users[i]) == base && UserBase(users[j]) == base)
  }

  /** No reply has an id that answers to two of the users. */
  predicate RepliesAreUnambiguous(users: seq<Message>, durable: seq<Message>) {
    forall m | m in durable && m.role == Assistant :: NotShared(users, ReplyBase(m))
  }

  lemma {:induction false} OneAsker(users: seq<Message>, base: string)
    ensures Askers(users, base) == 0 <==> forall i | 0 <= i < |users| :: UserBase(users[i]) != base
    ensures Askers(users, base) <= 1 <==> NotShared(users, base)
  {
    if users != [] {
      var rest := users[1..];
      OneAsker(rest, base);
      assert forall i | 0 <= i < |rest| :: rest[i] == users[i + 1];
      assert forall i | 1 <= i < |users| :: users[i] == rest[i - 1];
    }
  }

  lemma {:induction false} UserCount(durable: seq<Message>, limit: nat, m: Message)
    ensures multiset(UsersUpTo(durable, limit))[m] == if IsUserUpTo(m, limit) then multiset(durable)[m] else 0
  {
    if durable != [] {
      UserCount(durable[..|durable| - 1], limit, m);
      assert durable == durable[..|durable| - 1] + [durable[|durable| - 1]];
    }
  }

  lemma {:induction false} DistinctCount(durable: seq<Message>, m: Message)
    requires DistinctIds(durable)
    ensures multiset(durable)[m] == if m in durable then 1 else 0
  {
    if durable != [] {
      var rest := durable[..|durable| - 1];
      DistinctCount(rest, m);
      assert durable == rest + [durable[|durable| - 1]];
    }
  }

  predicate AtMostOnce(users: seq<Message>, durable: seq<Message>, m: Message) {
    multiset(Turns(users, durable))[m] <= 1
  }

  predicate IsShared(users: seq<Message>, durable: seq<Message>, m: Message) {
    m.role == Assistant && m in durable && !NotShared(users, ReplyBase(m))
  }

  /** Every user message and every reply appears at most once, exactly when no reply answers to two
      users. Ids are the store's key, so they are distinct. */
  lemma EachAtMostOnce(durable: seq<Message>, limit: nat)
    requires DistinctIds(durable)
    ensures var users := UsersUpTo(durable, limit);
      (forall m :: AtMostOnce(users, durable, m)) <==> RepliesAreUnambiguous(users, durable)
  {
    var users := UsersUpTo(durable, limit);
    forall m: Message
      ensures AtMostOnce(users, durable, m) <==> !IsShared(users, durable, m)
    {
      OneMessageOnce(durable, limit, m);
    }
    if RepliesAreUnambiguous(users, durable) {
      assert forall m: Message :: !IsShared(users, durable, m);
    } else {
      var m :| m in durable && m.role == Assistant && !NotShared(users, ReplyBase(m));
      assert IsShared(users, durable, m);
    }
  }

  lemma OneMessageOnce(durable: seq<Message>, limit: nat, m: Message)
    requires DistinctIds(durable)
    ensures AtMostOnce(UsersUpTo(durable, limit), durable, m) <==> !IsShared(UsersUpTo(durable, limit), durable, m)
  {
    UserCount(durable, limit, m);
    DistinctCount(durable, m);
    CountDecides(UsersUpTo(durable, limit), durable, m);
  }

  lemma CountDecides(users: seq<Message>, durable: seq<Message>, m: Message)
    requires multiset(durable)[m] <= 1 && multiset(users)[m] <= 1
    requires m.role == Assistant ==> multiset(users)[m] == 0
    ensures AtMostOnce(users, durable, m) <==> !IsShared(users, durable, m)
  {
    TurnCount(users, durable, m);
    OneAsker(users, ReplyBase(m));
  }

  predicate HasSuffix(s: string, suffix: string) {
    |suffix| <= |s| && s[|s| - |suffix|..] == suffix
  }

  /** Ids as the API writes them, all with the suffix, are unambiguous. */
  lemma SuffixedIdsAreUnambiguous(durable: seq<Message>, limit: nat)
    requires DistinctIds(durable)
    requires forall m | m in durable && m.role == User :: HasSuffix(m.commandId, ":user")
    ensures RepliesAreUnambiguous(UsersUpTo(durable, limit), durable)
  {
    var users := UsersUpTo(durable, limit);
    UsersDistinct(durable, limit);
    forall i, j | 0 <= i < j < |users|
      ensures UserBase(users[i]) != UserBase(users[j])
    {
      UsersAre(durable, limit, users[i]);
      UsersAre(durable, limit, users[j]);
      var a, b := users[i].commandId, users[j].commandId;
      assert a == UserBase(users[i]) + ":user" && b == UserBase(users[j]) + ":user";
    }
  }

  lemma {:induction false} UsersDistinct(durable: seq<Message>, limit: nat)
    requires DistinctIds(durable)
    ensures DistinctIds(UsersUpTo(durable, limit))
  {
    if durable != [] {
      var rest, last := durable[..|durable| - 1], durable[|durable| - 1];
      UsersDistinct(rest, limit);
      forall u | u in UsersUpTo(rest, limit)
        ensures u.commandId != last.commandId
      {
        UsersAre(rest, limit, u);
        var i :| 0 <= i < |rest| && rest[i] == u;
        assert durable[i] == u;
      }
    }
  }

  // ----- what the history is, entry by entry -----

  function KeysOf(messages: seq<Message>): (r: seq<Key>)
    ensures |r| == |messages| && forall i | 0 <= i < |r| :: r[i] == Key(messages[i].role, messages[i].content)
  {
    seq(|messages|, i requires 0 <= i < |messages| => Key(messages[i].role, messages[i].content))
  }

  function SayingsOf(runner: seq<RunnerMessage>): (r: seq<Key>)
    ensures |r| == |runner| && forall i | 0 <= i < |r| :: r[i] == Key(runner[i].role, runner[i].text)
  {
    seq(|runner|, i requires 0 <= i < |runner| => Key(runner[i].role, runner[i].text))
  }

  /** The positions, in increasing order, are exactly those that are kept, and `part` is what stands there. */
  ghost predicate PicksAt<T>(part: seq<T>, all: seq<T>, keep: nat -> bool, at: seq<nat>) {
    && |at| == |part|
    && (forall i | 0 <= i < |at| :: at[i] < |all| && part[i] == all[at[i]])
    && (forall i, j | 0 <= i < j < |at| :: at[i] < at[j])
    && (forall k: nat | k < |all| :: keep(k) <==> k in at)
  }

  /** `part` is what `all` has at the positions that are kept, in the same order. */
  ghost predicate Picks<T>(part: seq<T>, all: seq<T>, keep: nat -> bool) {
    exists at: seq<nat> :: PicksAt(part, all, keep, at)
  }

  /** A message of the runner stays if those before it that say the same use up the durable ones. */
  ghost function Stays(runner: seq<RunnerMessage>, durable: seq<Message>): nat -> bool {
    (k: nat) => k < |runner| &&
      var key := Key(runner[k].role, runner[k].text);
      multiset(SayingsOf(runner[..k]))[key] >= multiset(KeysOf(durable))[key]
  }

  ghost function IsUser(durable: seq<Message>, limit: nat): nat -> bool {
    (k: nat) => k < |durable| && durable[k].role == User && durable[k].sequence <= limit
  }

  /** The id without the suffix; an id that does not end in it is its own base. */
  predicate IsBase(base: string, id: string, suffix: string) {
    if |suffix| <= |id| && id[|id| - |suffix|..] == suffix then base + suffix == id else base == id
  }

  /** The replies to a user message: the assistant's messages with the same base. */
  ghost function IsReply(durable: seq<Message>, user: Message): nat -> bool {
    (k: nat) => k < |durable| && durable[k].role == Assistant && SameBase(durable[k].commandId, user.commandId)
  }

  ghost predicate SameBase(reply: string, user: string) {
    exists base: string :: IsBase(base, reply, ":assistant") && IsBase(base, user, ":user")
  }

  /** One turn: the user's message, and then the replies to it in their stored order. */
  ghost predicate IsTurn(turn: seq<Entry>, user: Message, durable: seq<Message>) {
    exists replies: seq<Message> :: Picks(replies, durable, IsReply(durable, user)) && turn == TurnEntries([user] + replies)
  }

  /** The `k`-th turn is where it should be. */
  ghost predicate TurnAt(part: seq<Entry>, users: seq<Message>, durable: seq<Message>, at: seq<nat>, k: nat)
    requires k < |users| < |at|
  {
    at[k] <= at[k + 1] <= |part| && IsTurn(part[at[k]..at[k + 1]], users[k], durable)
  }

  /** The turns of the users stand one behind another, the `k`-th from `at[k]` to `at[k + 1]`. */
  ghost predicate AreTurns(part: seq<Entry>, users: seq<Message>, durable: seq<Message>, at: seq<nat>) {
    && |at| == |users| + 1 && at[0] == 0 && at[|users|] == |part|
    && forall k: nat | k < |users| :: TurnAt(part, users, durable, at, k)
  }

  ghost predicate AreTheTurns(part: seq<Entry>, durable: seq<Message>, limit: nat) {
    exists users: seq<Message>, at: seq<nat> :: Picks(users, durable, IsUser(durable, limit)) && AreTurns(part, users, durable, at)
  }

  /** As multisets of role and text, the runner's messages minus the durable ones. */
  predicate IsLeft(prefix: seq<RunnerMessage>, runner: seq<RunnerMessage>, durable: seq<Message>) {
    multiset(SayingsOf(prefix)) == multiset(SayingsOf(runner)) - multiset(KeysOf(durable))
  }

  ghost predicate IsPrefix(part: seq<Entry>, runner: seq<RunnerMessage>, durable: seq<Message>) {
    exists prefix: seq<RunnerMessage> ::
      part == RunnerEntries(prefix) && Picks(prefix, runner, Stays(runner, durable)) && IsLeft(prefix, runner, durable)
  }

  /** First the runner's messages that stay, then the turns of the users up to the limit. */
  ghost predicate IsHistory(h: seq<Entry>, runner: seq<RunnerMessage>, durable: seq<Message>, limit: nat) {
    exists prefix: seq<Entry>, turns: seq<Entry> ::
      h == prefix + turns && IsPrefix(prefix, runner, durable) && AreTheTurns(turns, durable, limit)
  }

  /** The first message with the current turn's user id. */
  predicate IsCurrent(durable: seq<Message>, commandId: string, k: nat) {
    && k < |durable| && durable[k].commandId == commandId + ":user"
    && forall i | 0 <= i < k :: durable[i].commandId != commandId + ":user"
  }

  lemma PicksNothing<T>(keep: nat -> bool)
    ensures Picks<T>([], [], keep)
  {
    assert PicksAt<T>([], [], keep, []);
  }

  lemma PicksOneMore<T>(part: seq<T>, all: seq<T>, next: T, keep: nat -> bool, kept: bool)
    requires Picks(part, all, keep) && kept == keep(|all|)
    ensures Picks(part + if kept then [next] else [], all + [next], keep)
  {
    var at: seq<nat> :| PicksAt(part, all, keep, at);
    if kept {
      assert PicksAt(part + [next], all + [next], keep, at + [|all|]);
    } else {
      assert part + [] == part;
      assert PicksAt(part, all + [next], keep, at);
    }
  }

  lemma {:induction false} UsersArePicked(durable: seq<Message>, n: nat, limit: nat)
    requires n <= |durable|
    ensures Picks(UsersUpTo(durable[..n], limit), durable[..n], IsUser(durable, limit))
  {
    if n == 0 {
      PicksNothing<Message>(IsUser(durable, limit));
    } else {
      UsersArePicked(durable, n - 1, limit);
      assert durable[..n] == durable[..n - 1] + [durable[n - 1]] && durable[..n][..n - 1] == durable[..n - 1];
      PicksOneMore(UsersUpTo(durable[..n - 1], limit), durable[..n - 1], durable[n - 1], IsUser(durable, limit),
                   IsUserUpTo(durable[n - 1], limit));
    }
  }

  lemma BaseIs(base: string, id: string, suffix: string)
    ensures IsBase(base, id, suffix) <==> base == RemoveSuffix(id, suffix)
  {
    if |suffix| <= |id| && id[|id| - |suffix|..] == suffix {
      assert id == id[..|id| - |suffix|] + suffix;
      assert base + suffix == id ==> (base + suffix)[..|base|] == id[..|base|];
    }
  }

  lemma SameBaseIs(reply: Message, user: Message)
    ensures SameBase(reply.commandId, user.commandId) <==> ReplyBase(reply) == UserBase(user)
  {
    BaseIs(ReplyBase(reply), reply.commandId, ":assistant");
    BaseIs(ReplyBase(reply), user.commandId, ":user");
    if SameBase(reply.commandId, user.commandId) {
      var base: string :| IsBase(base, reply.commandId, ":assistant") && IsBase(base, user.commandId, ":user");
      BaseIs(base, reply.commandId, ":assistant");
      BaseIs(base, user.commandId, ":user");
    }
  }

  lemma {:induction false} RepliesArePicked(durable: seq<Message>, n: nat, user: Message)
    requires n <= |durable|
    ensures Picks(Replies(durable[..n], UserBase(user)), durable[..n], IsReply(durable, user))
  {
    if n == 0 {
      PicksNothing<Message>(IsReply(durable, user));
    } else {
      RepliesArePicked(durable, n - 1, user);
      SameBaseIs(durable[n - 1], user);
      assert durable[..n] == durable[..n - 1] + [durable[n - 1]] && durable[..n][..n - 1] == durable[..n - 1];
      PicksOneMore(Replies(durable[..n - 1], UserBase(user)), durable[..n - 1], durable[n - 1], IsReply(durable, user),
                   IsReplyTo(durable[n - 1], UserBase(user)));
    }
  }

  lemma TurnIs(user: Message, durable: seq<Message>)
    ensures IsTurn(TurnEntries([user] + Replies(durable, UserBase(user))), user, durable)
  {
    RepliesArePicked(durable, |durable|, user);
    assert durable[..|durable|] == durable;
  }

  lemma {:induction false} TurnsStandInOrder(users: seq<Message>, durable: seq<Message>) returns (at: seq<nat>)
    ensures AreTurns(TurnEntries(Turns(users, durable)), users, durable, at)
  {
    if users == [] {
      at := [0];
    } else {
      var first, rest := [users[0]] + Replies(durable, UserBase(users[0])), Turns(users[1..], durable);
      var later := TurnsStandInOrder(users[1..], durable);
      TurnIs(users[0], durable);
      at := TurnBefore(TurnEntries(first), TurnEntries(rest), users, durable, later);
      assert TurnEntries(first + rest) == TurnEntries(first) + TurnEntries(rest);
    }
  }

  lemma TurnBefore(first: seq<Entry>, rest: seq<Entry>, users: seq<Message>, durable: seq<Message>, later: seq<nat>)
    returns (at: seq<nat>)
    requires users != [] && IsTurn(first, users[0], durable) && AreTurns(rest, users[1..], durable, later)
    ensures AreTurns(first + rest, users, durable, at)
  {
    at := [0] + seq(|later|, i requires 0 <= i < |later| => |first| + later[i]);
    var part := first + rest;
    forall k: nat | k < |users|
      ensures TurnAt(part, users, durable, at, k)
    {
      if k == 0 {
        assert part[0..|first|] == first;
      } else {
        assert TurnAt(rest, users[1..], durable, later, k - 1);
        assert part[at[k]..at[k + 1]] == rest[later[k - 1]..later[k]];
      }
    }
  }

  lemma {:induction false} CountsAre(durable: seq<Message>)
    ensures DurableKeys(durable) == multiset(KeysOf(durable))
  {
    if durable == [] {
      assert KeysOf(durable) == [];
    } else {
      var n := |durable| - 1;
      CountsAre(durable[..n]);
      assert KeysOf(durable) == KeysOf(durable[..n]) + [Key(durable[n].role, durable[n].content)];
    }
  }

  lemma {:induction false} SayingsAre(runner: seq<RunnerMessage>)
    ensures RunnerKeys(runner) == multiset(SayingsOf(runner))
  {
    if runner == [] {
      assert SayingsOf(runner) == [];
    } else {
      SayingsAre(runner[1..]);
      assert SayingsOf(runner) == [Key(runner[0].role, runner[0].text)] + SayingsOf(runner[1..]);
    }
  }

  lemma {:induction false} UnmatchedOneMore(runner: seq<RunnerMessage>, next: RunnerMessage, counts: multiset<Key>)
    ensures var key := Key(next.role, next.text);
      Unmatched(runner + [next], counts)
        == Unmatched(runner, counts) + if RunnerKeys(runner)[key] >= counts[key] then [next] else []
  {
    var all := runner + [next];
    if runner == [] {
      assert all == [next] && all[1..] == [];
    } else {
      var key := Key(runner[0].role, runner[0].text);
      assert all[0] == runner[0] && all[1..] == runner[1..] + [next];
      UnmatchedOneMore(runner[1..], next, if key in counts then counts - multiset{key} else counts);
    }
  }

  lemma {:induction false} UnmatchedIsPicked(runner: seq<RunnerMessage>, n: nat, durable: seq<Message>)
    requires n <= |runner|
    ensures Picks(Unmatched(runner[..n], DurableKeys(durable)), runner[..n], Stays(runner, durable))
  {
    if n == 0 {
      PicksNothing<RunnerMessage>(Stays(runner, durable));
    } else {
      var before, next := runner[..n - 1], runner[n - 1];
      UnmatchedIsPicked(runner, n - 1, durable);
      CountsAre(durable);
      SayingsAre(before);
      UnmatchedOneMore(before, next, DurableKeys(durable));
      assert runner[..n] == before + [next];
      PicksOneMore(Unmatched(before, DurableKeys(durable)), before, next, Stays(runner, durable),
                   RunnerKeys(before)[Key(next.role, next.text)] >= DurableKeys(durable)[Key(next.role, next.text)]);
    }
  }

  lemma PrefixIsLeft(runner: seq<RunnerMessage>, durable: seq<Message>)
    ensures IsLeft(Unmatched(runner, DurableKeys(durable)), runner, durable)
  {
    PrefixConserves(runner, DurableKeys(durable));
    CountsAre(durable);
    SayingsAre(runner);
    SayingsAre(Unmatched(runner, DurableKeys(durable)));
  }

  lemma PrefixIs(runner: seq<RunnerMessage>, durable: seq<Message>)
    ensures IsPrefix(RunnerEntries(Unmatched(runner, DurableKeys(durable))), runner, durable)
  {
    UnmatchedIsPicked(runner, |runner|, durable);
    assert runner[..|runner|] == runner;
    PrefixIsLeft(runner, durable);
  }

  lemma TurnsAreThere(durable: seq<Message>, limit: nat)
    ensures AreTheTurns(TurnEntries(Turns(UsersUpTo(durable, limit), durable)), durable, limit)
  {
    UsersArePicked(durable, |durable|, limit);
    assert durable[..|durable|] == durable;
    var at := TurnsStandInOrder(UsersUpTo(durable, limit), durable);
  }

  /** The history, entry by entry: the runner's messages that no durable message accounts for, in their order,
      and then, user by user, the message and the replies to it. */
  lemma HistoryIs(runner: seq<RunnerMessage>, durable: seq<Message>, limit: nat)
    ensures IsHistory(History(runner, durable, limit), runner, durable, limit)
  {
    PrefixIs(runner, durable);
    TurnsAreThere(durable, limit);
  }

  // ----- the source's passes -----

  method CanonicalMessages(runner: seq<RunnerMessage>, durable: seq<Message>, commandId: string)
    returns (r: Result<seq<Entry>>)
    ensures r.MissingUserMessage? <==> forall i | 0 <= i < |durable| :: durable[i].commandId != commandId + ":user"
    ensures r == Canonical(runner, durable, commandId)
    ensures r.Ok? ==> exists k: nat :: IsCurrent(durable, commandId, k) && IsHistory(r.value, runner, durable, durable[k].sequence)
  {
    var current := FindCurrent(durable, commandId);
    if current == |durable| {
      return MissingUserMessage;
    }
    var users := EligibleUsers(durable, durable[current].sequence);
    var turns := TurnsOf(users, durable);
    var prefix := RemoveDurable(runner, durable);
    HistoryIs(runner, durable, durable[current].sequence);
    assert IsCurrent(durable, commandId, current);
    return Ok(AsEntries(prefix, turns));
  }

  method FindCurrent(durable: seq<Message>, commandId: string) returns (current: nat)
    ensures current == Current(durable, commandId)
  {
    current := 0;
    while current < |durable| && durable[current].commandId != commandId + ":user"
      invariant current <= |durable|
      invariant forall i | 0 <= i < current :: durable[i].commandId != commandId + ":user"
    {
      current := current + 1;
    }
  }

  method TurnsOf(users: seq<Message>, durable: seq<Message>) returns (turns: seq<Message>)
    ensures turns == Turns(users, durable)
  {
    var assistants := GroupReplies(durable, set m | m in users :: UserBase(m));
    turns := AssembleTurns(users, assistants, durable);
  }

  lemma OneTurn(users: seq<Message>, k: nat, durable: seq<Message>, done: seq<Message>)
    requires k < |users|
    ensures done + Turns(users[k..], durable)
         == done + [users[k]] + Replies(durable, UserBase(users[k])) + Turns(users[k + 1..], durable)
  {
    assert users[k..][0] == users[k] && users[k..][1..] == users[k + 1..];
    var replies, rest := Replies(durable, UserBase(users[k])), Turns(users[k + 1..], durable);
    assert done + ([users[k]] + replies + rest) == done + [users[k]] + replies + rest;
  }

  method AssembleTurns(users: seq<Message>, assistants: map<string, seq<Message>>, ghost durable: seq<Message>)
    returns (turns: seq<Message>)
    requires forall k | 0 <= k < |users| ::
      Replies(durable, UserBase(users[k]))
        == if UserBase(users[k]) in assistants then assistants[UserBase(users[k])] else []
    ensures turns == Turns(users, durable)
  {
    turns := [];
    for k := 0 to |users|
      invariant turns + Turns(users[k..], durable) == Turns(users, durable)
    {
      var base := UserBase(users[k]);
      var replies := if base in assistants then assistants[base] else [];
      OneTurn(users, k, durable, turns);
      turns := turns + [users[k]] + replies;
    }
  }

  method EligibleUsers(durable: seq<Message>, limit: nat) returns (users: seq<Message>)
    ensures users == UsersUpTo(durable, limit)
  {
    users := [];
    for k := 0 to |durable|
      invariant users == UsersUpTo(durable[..k], limit)
    {
      assert durable[..k + 1][..k] == durable[..k];
      if durable[k].role == User && durable[k].sequence <= limit {
        users := users + [durable[k]];
      }
    }
    assert durable[..|durable|] == durable;
  }

  method GroupReplies(durable: seq<Message>, eligible: set<string>) returns (assistants: map<string, seq<Message>>)
    ensures forall base | base in eligible ::
      Replies(durable, base) == if base in assistants then assistants[base] else []
  {
    assistants := map[];
    for k := 0 to |durable|
      invariant forall base | base in eligible ::
        Replies(durable[..k], base) == if base in assistants then assistants[base] else []
    {
      assert durable[..k + 1][..k] == durable[..k];
      var m := durable[k];
      if m.role == Assistant {
        var base := ReplyBase(m);
        if base in eligible {
          assistants := assistants[base := (if base in assistants then assistants[base] else []) + [m]];
        }
      }
    }
    assert durable[..|durable|] == durable;
  }

  function Remaining(counts: map<Key, nat>, key: Key): nat {
    if key in counts then counts[key] else 0
  }

  ghost predicate CountsOf(counts: map<Key, nat>, keys: multiset<Key>) {
    forall key :: keys[key] == Remaining(counts, key)
  }

  method CountDurable(durable: seq<Message>) returns (counts: map<Key, nat>)
    ensures CountsOf(counts, DurableKeys(durable))
  {
    counts := map[];
    for k := 0 to |durable|
      invariant CountsOf(counts, DurableKeys(durable[..k]))
    {
      assert durable[..k + 1][..k] == durable[..k];
      var key := Key(durable[k].role, durable[k].content);
      counts := counts[key := Remaining(counts, key) + 1];
    }
    assert durable[..|durable|] == durable;
  }

  function Without(left: multiset<Key>, key: Key): multiset<Key> {
    left - multiset{key}
  }

  lemma OneUnmatched(runner: seq<RunnerMessage>, k: nat, left: multiset<Key>, prefix: seq<RunnerMessage>)
    requires k < |runner|
    ensures var key := Key(runner[k].role, runner[k].text);
      prefix + Unmatched(runner[k..], left)
        == if key in left then prefix + Unmatched(runner[k + 1..], Without(left, key))
           else prefix + [runner[k]] + Unmatched(runner[k + 1..], left)
  {
    assert runner[k..][0] == runner[k] && runner[k..][1..] == runner[k + 1..];
    var rest := Unmatched(runner[k + 1..], left);
    assert prefix + ([runner[k]] + rest) == prefix + [runner[k]] + rest;
  }

  lemma OneFewer(counts: map<Key, nat>, left: multiset<Key>, key: Key, fewer: nat)
    requires CountsOf(counts, left) && fewer + 1 == Remaining(counts, key)
    ensures CountsOf(counts[key := fewer], Without(left, key))
  {}

  method RemoveDurable(runner: seq<RunnerMessage>, durable: seq<Message>) returns (prefix: seq<RunnerMessage>)
    ensures prefix == Unmatched(runner, DurableKeys(durable))
  {
    var counts: map<Key, nat> := CountDurable(durable);
    ghost var left := DurableKeys(durable);
    prefix := [];
    for k := 0 to |runner|
      invariant CountsOf(counts, left)
      invariant prefix + Unmatched(runner[k..], left) == Unmatched(runner, DurableKeys(durable))
    {
      var key := Key(runner[k].role, runner[k].text);
      OneUnmatched(runner, k, left, prefix);
      assert left[key] == Remaining(counts, key);
      if Remaining(counts, key) > 0 {
        var fewer: nat := Remaining(counts, key) - 1;
        OneFewer(counts, left, key, fewer);
        counts := counts[key := fewer];
        left := Without(left, key);
      } else {
        prefix := prefix + [runner[k]];
      }
    }
  }

  // ----- what the history depends on -----

  predicate SameSaying(a: Message, b: Message) {
    a.commandId == b.commandId && a.role == b.role && a.content == b.content
  }

  /** The same messages one by one, but for their sequences. */
  predicate SameSayings(a: seq<Message>, b: seq<Message>) {
    |a| == |b| && forall i | 0 <= i < |a| :: SameSaying(a[i], b[i])
  }

  /** Each of the users has the same replies in both lists. */
  ghost predicate SameReplies(users: seq<Message>, d: seq<Message>, e: seq<Message>) {
    forall i | 0 <= i < |users| :: KeysOf(Replies(d, UserBase(users[i]))) == KeysOf(Replies(e, UserBase(users[i])))
  }

  lemma KeysJoin(a: seq<Message>, b: seq<Message>)
    ensures KeysOf(a + b) == KeysOf(a) + KeysOf(b)
  {}

  lemma {:induction false} SameTurns(us: seq<Message>, vs: seq<Message>, d: seq<Message>, e: seq<Message>)
    requires SameSayings(us, vs) && SameReplies(us, d, e)
    ensures KeysOf(Turns(us, d)) == KeysOf(Turns(vs, e))
  {
    if us != [] {
      var a, b := Replies(d, UserBase(us[0])), Replies(e, UserBase(vs[0]));
      SameTurns(us[1..], vs[1..], d, e);
      KeysJoin([us[0]] + a, Turns(us[1..], d));
      KeysJoin([us[0]], a);
      KeysJoin([vs[0]] + b, Turns(vs[1..], e));
      KeysJoin([vs[0]], b);
      assert KeysOf([us[0]]) == KeysOf([vs[0]]);
    }
  }

  lemma SameEntries(prefix: seq<RunnerMessage>, a: seq<Message>, b: seq<Message>)
    requires KeysOf(a) == KeysOf(b)
    ensures AsEntries(prefix, a) == AsEntries(prefix, b)
  {
    forall i | 0 <= i < |a|
      ensures a[i].role == b[i].role && a[i].content == b[i].content
    {
      assert KeysOf(a)[i] == KeysOf(b)[i];
    }
  }

  /** Where and with which sequences messages are stored is immaterial: two lists give the same history
      if the users up to the current turn, each user's own replies and the messages to take out of the
      runner's history are the same. */
  lemma ReplyOrderIsImmaterial(runner: seq<RunnerMessage>, d: seq<Message>, l: nat, e: seq<Message>, m: nat)
    requires SameSayings(UsersUpTo(d, l), UsersUpTo(e, m))
    requires SameReplies(UsersUpTo(d, l), d, e)
    requires DurableKeys(d) == DurableKeys(e)
    ensures History(runner, d, l) == History(runner, e, m)
  {
    SameTurns(UsersUpTo(d, l), UsersUpTo(e, m), d, e);
    SameEntries(Unmatched(runner, DurableKeys(d)), Turns(UsersUpTo(d, l), d), Turns(UsersUpTo(e, m), e));
  }
}
