/** The message store of a conversation: `append_message` and `list_messages` of
    mvp/src/workbench/conversations/repository.py, with the messages its writers put there, and what the
    canonical history makes of any store. */
module ConversationStore {
  import opened Basics
  import opened CanonicalHistory

  /** What is ever written: a user message of a command, or the assistant's reply to a command. */
  datatype Writing =
    | UserSays(command: string, content: Option<string>)
    | AssistantSays(command: string, content: Option<string>)

  function IdOf(w: Writing): string {
    match w
    case UserSays(command, _) => command + ":user"
    case AssistantSays(command, _) => command + ":assistant"
  }

  function Written(w: Writing, sequence: nat): Message {
    Message(IdOf(w), sequence, if w.UserSays? then User else Assistant, w.content)
  }

  predicate HasId(d: seq<Message>, id: string) {
    exists i :: 0 <= i < |d| && d[i].commandId == id
  }

  /** The store after the writings: an id that is there stays as it is, another gets the next sequence. */
  function Recorded(writings: seq<Writing>): seq<Message> {
    if writings == [] then []
    else
      var last := writings[|writings| - 1];
      var before := Recorded(writings[..|writings| - 1]);
      if HasId(before, IdOf(last)) then before else before + [Written(last, |before| + 1)]
  }

  // ----- what every store is like -----

  predicate WellNamed(m: Message) {
    (m.role == User && HasSuffix(m.commandId, ":user")) || (m.role == Assistant && HasSuffix(m.commandId, ":assistant"))
  }

  predicate IsStored(d: seq<Message>) {
    DistinctIds(d) && forall i | 0 <= i < |d| :: d[i].sequence == i + 1 && WellNamed(d[i])
  }

  lemma SuffixOf(command: string, suffix: string)
    ensures HasSuffix(command + suffix, suffix) && RemoveSuffix(command + suffix, suffix) == command
  {}

  /** An id never carries both suffixes. */
  lemma SuffixesDiffer(id: string)
    ensures HasSuffix(id, ":user") ==> |id| > 0 && id[|id| - 1] == 'r'
    ensures HasSuffix(id, ":assistant") ==> |id| > 0 && id[|id| - 1] == 't'
  {
    if HasSuffix(id, ":user") {
      assert id[|id| - 5..][4] == id[|id| - 1];
    }
    if HasSuffix(id, ":assistant") {
      assert id[|id| - 10..][9] == id[|id| - 1];
    }
  }

  lemma WrittenIsWellNamed(w: Writing, sequence: nat)
    ensures WellNamed(Written(w, sequence))
  {
    SuffixOf(w.command, ":user");
    SuffixOf(w.command, ":assistant");
  }

  /** Whatever is written, ids are distinct, sequences count up, and every id has its role's suffix. */
  lemma {:induction false} RecordedIsStored(writings: seq<Writing>)
    ensures IsStored(Recorded(writings))
  {
    if writings != [] {
      var before, last := Recorded(writings[..|writings| - 1]), writings[|writings| - 1];
      RecordedIsStored(writings[..|writings| - 1]);
      if !HasId(before, IdOf(last)) {
        OneMoreStored(before, last);
      }
    }
  }

  lemma OneMoreStored(before: seq<Message>, w: Writing)
    requires IsStored(before) && !HasId(before, IdOf(w))
    ensures IsStored(before + [Written(w, |before| + 1)])
  {
    WrittenIsWellNamed(w, |before| + 1);
  }

  /** Two writings are of the same message of the same command. */
  predicate SameMessage(a: Writing, b: Writing) {
    a.UserSays? == b.UserSays? && a.command == b.command
  }

  lemma IdsTellMessages(a: Writing, b: Writing)
    ensures IdOf(a) == IdOf(b) <==> SameMessage(a, b)
  {
    SuffixOf(a.command, if a.UserSays? then ":user" else ":assistant");
    SuffixOf(b.command, if b.UserSays? then ":user" else ":assistant");
    SuffixesDiffer(IdOf(a));
    SuffixesDiffer(IdOf(b));
  }

  predicate IsFirst(writings: seq<Writing>, i: nat)
    requires i < |writings|
  {
    forall j | 0 <= j < i :: !SameMessage(writings[j], writings[i])
  }

  /** The `i`-th writing is stored as the `k`-th message, under its command's id, with the role it is of. */
  predicate IsStoredAs(writings: seq<Writing>, i: nat, d: seq<Message>, k: nat) {
    && i < |writings| && k < |d|
    && d[k].commandId == writings[i].command + (if writings[i].UserSays? then ":user" else ":assistant")
    && d[k].role == (if writings[i].UserSays? then User else Assistant)
    && d[k].sequence == k + 1 && d[k].content == writings[i].content
  }

  /** The positions, in increasing order, of the first writings of each message. */
  ghost predicate AreFirsts(writings: seq<Writing>, at: seq<nat>) {
    && (forall j, k | 0 <= j < k < |at| :: at[j] < at[k])
    && (forall j | 0 <= j < |at| :: at[j] < |writings|)
    && (forall i: nat | i < |writings| :: i in at <==> IsFirst(writings, i))
  }

  /** The messages of the store are the first writings of each message, in their order. */
  ghost predicate StoresFirsts(writings: seq<Writing>, d: seq<Message>, at: seq<nat>) {
    && AreFirsts(writings, at)
    && |at| == |d| && (forall k | 0 <= k < |at| :: IsStoredAs(writings, at[k], d, k))
  }

  lemma IdIsKnown(writings: seq<Writing>, d: seq<Message>, at: seq<nat>, next: Writing)
    requires StoresFirsts(writings, d, at)
    ensures HasId(d, IdOf(next)) <==> IsRepeat(writings, next)
  {
    if k :| 0 <= k < |d| && d[k].commandId == IdOf(next) {
      assert IsStoredAs(writings, at[k], d, k);
      IdsTellMessages(writings[at[k]], next);
    }
    if i :| 0 <= i < |writings| && SameMessage(writings[i], next) {
      var first := FirstOf(writings, i);
      var k :| 0 <= k < |at| && at[k] == first;
      assert IsStoredAs(writings, at[k], d, k);
      IdsTellMessages(writings[first], next);
    }
  }

  lemma {:induction false} FirstOf(writings: seq<Writing>, i: nat) returns (first: nat)
    requires i < |writings|
    ensures first <= i && SameMessage(writings[first], writings[i]) && IsFirst(writings, first)
  {
    if j: nat :| j < i && SameMessage(writings[j], writings[i]) {
      first := FirstOf(writings, j);
    } else {
      first := i;
    }
  }

  predicate IsRepeat(writings: seq<Writing>, next: Writing) {
    exists i :: 0 <= i < |writings| && SameMessage(writings[i], next)
  }

  lemma FirstsStay(writings: seq<Writing>, next: Writing, i: nat)
    requires i <= |writings|
    ensures i < |writings| ==> (IsFirst(writings + [next], i) <==> IsFirst(writings, i))
    ensures i == |writings| ==> (IsFirst(writings + [next], i) <==> !IsRepeat(writings, next))
  {
    assert forall j | 0 <= j < |writings| :: (writings + [next])[j] == writings[j];
  }

  lemma RepeatsAddNothing(writings: seq<Writing>, at: seq<nat>, next: Writing)
    requires AreFirsts(writings, at) && IsRepeat(writings, next)
    ensures AreFirsts(writings + [next], at)
  {
    forall i: nat | i < |writings + [next]|
      ensures i in at <==> IsFirst(writings + [next], i)
    {
      FirstsStay(writings, next, i);
    }
  }

  lemma FirstsAddThemselves(writings: seq<Writing>, at: seq<nat>, next: Writing)
    requires AreFirsts(writings, at) && !IsRepeat(writings, next)
    ensures AreFirsts(writings + [next], at + [|writings|])
  {
    var where := at + [|writings|];
    assert where[|at|] == |writings|;
    forall i: nat | i < |writings + [next]|
      ensures i in where <==> IsFirst(writings + [next], i)
    {
      FirstsStay(writings, next, i);
    }
  }

  lemma StoredOneMore(writings: seq<Writing>, d: seq<Message>, at: seq<nat>, next: Writing)
    requires StoresFirsts(writings, d, at) && !IsRepeat(writings, next)
    ensures StoresFirsts(writings + [next], d + [Written(next, |d| + 1)], at + [|writings|])
  {
    var all, more, where := writings + [next], d + [Written(next, |d| + 1)], at + [|writings|];
    FirstsAddThemselves(writings, at, next);
    forall k | 0 <= k < |where|
      ensures IsStoredAs(all, where[k], more, k)
    {
      if k < |at| {
        assert IsStoredAs(writings, at[k], d, k);
      }
    }
  }

  lemma RepeatStoresNothing(writings: seq<Writing>, d: seq<Message>, at: seq<nat>, next: Writing)
    requires StoresFirsts(writings, d, at) && IsRepeat(writings, next)
    ensures StoresFirsts(writings + [next], d, at)
  {
    RepeatsAddNothing(writings, at, next);
    forall k | 0 <= k < |at|
      ensures IsStoredAs(writings + [next], at[k], d, k)
    {
      assert IsStoredAs(writings, at[k], d, k);
    }
  }

  /** Which writings are stored, where and as what: the first of each message of a command, numbered as they come. */
  lemma {:induction false} FirstWritingsAreStored(writings: seq<Writing>) returns (at: seq<nat>)
    ensures StoresFirsts(writings, Recorded(writings), at)
  {
    if writings == [] {
      at := [];
    } else {
      var before, last := writings[..|writings| - 1], writings[|writings| - 1];
      var d := Recorded(before);
      at := FirstWritingsAreStored(before);
      assert before + [last] == writings;
      IdIsKnown(before, d, at, last);
      if IsRepeat(before, last) {
        RepeatStoresNothing(before, d, at, last);
      } else {
        StoredOneMore(before, d, at, last);
        at := at + [|before|];
      }
    }
  }

  /** In any store no message appears twice in the turns. */
  lemma StoredMessagesAppearOnce(d: seq<Message>, limit: nat)
    requires IsStored(d)
    ensures forall m :: AtMostOnce(UsersUpTo(d, limit), d, m)
  {
    SuffixedIdsAreUnambiguous(d, limit);
    EachAtMostOnce(d, limit);
  }

  // ----- arrival order -----

  /** A message without its place. */
  datatype Face = Face(commandId: string, role: Role, content: Option<string>)

  function FaceOf(m: Message): Face {
    Face(m.commandId, m.role, m.content)
  }

  function Faces(d: seq<Message>): (r: seq<Face>)
    ensures |r| == |d| && forall i | 0 <= i < |r| :: r[i] == FaceOf(d[i])
  {
    seq(|d|, i requires 0 <= i < |d| => FaceOf(d[i]))
  }

  function Users(d: seq<Message>): seq<Message> {
    if d == [] then []
    else
      var last := d[|d| - 1];
      Users(d[..|d| - 1]) + if last.role == User then [last] else []
  }

  /** The same messages were stored, and the users' in the same order; replies came at any time. */
  ghost predicate SameConversation(d: seq<Message>, e: seq<Message>) {
    multiset(Faces(d)) == multiset(Faces(e)) && Faces(Users(d)) == Faces(Users(e))
  }

  // The keys of the durable messages only depend on which messages there are.

  function KeyOf(f: Face): Key {
    Key(f.role, f.content)
  }

  function FaceKeys(f: seq<Face>): multiset<Key> {
    if f == [] then multiset{} else FaceKeys(f[..|f| - 1]) + multiset{KeyOf(f[|f| - 1])}
  }

  lemma {:induction false} KeysOfFaces(d: seq<Message>)
    ensures DurableKeys(d) == FaceKeys(Faces(d))
  {
    if d != [] {
      KeysOfFaces(d[..|d| - 1]);
      assert Faces(d)[..|d| - 1] == Faces(d[..|d| - 1]);
    }
  }

  function Without(f: seq<Face>, j: nat): seq<Face>
    requires j < |f|
  {
    f[..j] + f[j + 1..]
  }

  lemma WithoutThenLast(f: seq<Face>, j: nat)
    requires j < |f| - 1
    ensures var n := |f| - 1; Without(f, j)[..n - 1] == Without(f[..n], j) && Without(f, j)[n - 1] == f[n]
  {}

  lemma {:induction false} TakeOut(f: seq<Face>, j: nat)
    requires j < |f|
    ensures FaceKeys(f) == FaceKeys(Without(f, j)) + multiset{KeyOf(f[j])}
  {
    var n := |f| - 1;
    if j == n {
      assert Without(f, j) == f[..n];
    } else {
      TakeOut(f[..n], j);
      calc {
        FaceKeys(f);
        FaceKeys(f[..n]) + multiset{KeyOf(f[n])};
        FaceKeys(Without(f[..n], j)) + multiset{KeyOf(f[j])} + multiset{KeyOf(f[n])};
        { Exchange(FaceKeys(Without(f[..n], j)), KeyOf(f[j]), KeyOf(f[n])); }
        FaceKeys(Without(f[..n], j)) + multiset{KeyOf(f[n])} + multiset{KeyOf(f[j])};
        { LastKey(f, j); }
        FaceKeys(Without(f, j)) + multiset{KeyOf(f[j])};
      }
    }
  }

  lemma LastKey(f: seq<Face>, j: nat)
    requires j < |f| - 1
    ensures FaceKeys(Without(f, j)) == FaceKeys(Without(f[..|f| - 1], j)) + multiset{KeyOf(f[|f| - 1])}
  {
    WithoutThenLast(f, j);
  }

  lemma Exchange(m: multiset<Key>, a: Key, b: Key)
    ensures m + multiset{a} + multiset{b} == m + multiset{b} + multiset{a}
  {}

  lemma WithoutCounts(f: seq<Face>, j: nat)
    requires j < |f|
    ensures multiset(Without(f, j)) == multiset(f) - multiset{f[j]}
  {
    assert f == f[..j] + [f[j]] + f[j + 1..];
  }

  lemma {:induction false} KeysOfSameFaces(f: seq<Face>, g: seq<Face>)
    requires multiset(f) == multiset(g)
    ensures FaceKeys(f) == FaceKeys(g)
    decreases |f|
  {
    if f == [] {
      assert |multiset(g)| == 0;
    } else {
      var n := |f| - 1;
      assert f[n] in multiset(f);
      var j :| 0 <= j < |g| && g[j] == f[n];
      assert Without(f, n) == f[..n];
      WithoutCounts(f, n);
      WithoutCounts(g, j);
      KeysOfSameFaces(f[..n], Without(g, j));
      TakeOut(g, j);
    }
  }

  // A command has at most one reply, whenever it came.

  lemma BaseOfReply(m: Message, base: string)
    requires WellNamed(m)
    ensures IsReplyTo(m, base) <==> m.commandId == base + ":assistant"
  {
    SuffixOf(base, ":assistant");
    if HasSuffix(m.commandId, ":assistant") {
      assert m.commandId == ReplyBase(m) + ":assistant";
    }
    SuffixesDiffer(m.commandId);
  }

  predicate IsReplyAt(d: seq<Message>, base: string, k: nat) {
    k < |d| && d[k].commandId == base + ":assistant"
  }

  lemma {:induction false} OneReply(d: seq<Message>, base: string, k: nat)
    requires IsStored(d) && IsReplyAt(d, base, k)
    ensures Replies(d, base) == [d[k]]
  {
    var n := |d| - 1;
    BaseOfReply(d[n], base);
    if k == n {
      NoReply(d[..n], base);
    } else {
      OneReply(d[..n], base, k);
    }
  }

  lemma {:induction false} NoReply(d: seq<Message>, base: string)
    requires IsStored(d) && !HasId(d, base + ":assistant")
    ensures Replies(d, base) == []
  {
    if d != [] {
      var n := |d| - 1;
      BaseOfReply(d[n], base);
      NoReply(d[..n], base);
    }
  }

  lemma FaceIsThere(d: seq<Message>, e: seq<Message>, k: nat) returns (j: nat)
    requires multiset(Faces(d)) == multiset(Faces(e)) && k < |d|
    ensures j < |e| && FaceOf(e[j]) == FaceOf(d[k])
  {
    assert Faces(d)[k] in multiset(Faces(d));
    assert Faces(d)[k] in Faces(e);
    j :| 0 <= j < |Faces(e)| && Faces(e)[j] == Faces(d)[k];
  }

  lemma SameReplyTo(d: seq<Message>, e: seq<Message>, base: string)
    requires IsStored(d) && IsStored(e) && multiset(Faces(d)) == multiset(Faces(e))
    ensures KeysOf(Replies(d, base)) == KeysOf(Replies(e, base))
  {
    if k: nat :| IsReplyAt(d, base, k) {
      var j := FaceIsThere(d, e, k);
      OneReply(d, base, k);
      OneReply(e, base, j);
    } else {
      if HasId(e, base + ":assistant") {
        var j: nat :| j < |e| && e[j].commandId == base + ":assistant";
        var k := FaceIsThere(e, d, j);
        assert IsReplyAt(d, base, k);
      }
      if HasId(d, base + ":assistant") {
        var k: nat :| k < |d| && d[k].commandId == base + ":assistant";
        assert IsReplyAt(d, base, k);
      }
      NoReply(d, base);
      NoReply(e, base);
    }
  }

  // The users up to the current turn are found by its id, not by its sequence.

  function UpTo(faces: seq<Face>, id: string): seq<Face> {
    if faces == [] then []
    else
      var n := |faces| - 1;
      if exists i :: 0 <= i < n && faces[i].commandId == id then UpTo(faces[..n], id) else faces
  }

  lemma {:induction false} UsersOf(d: seq<Message>, m: Message)
    ensures m in Users(d) <==> m in d && m.role == User
  {
    if d != [] {
      UsersOf(d[..|d| - 1], m);
      assert d == d[..|d| - 1] + [d[|d| - 1]];
    }
  }

  lemma {:induction false} AllUsers(d: seq<Message>, limit: nat)
    requires forall i | 0 <= i < |d| :: d[i].sequence <= limit
    ensures UsersUpTo(d, limit) == Users(d)
  {
    if d != [] {
      AllUsers(d[..|d| - 1], limit);
    }
  }

  /** The current turn's user message is a user's, and the users up to it are those up to its id. */
  lemma {:induction false} UsersUpToCurrent(d: seq<Message>, k: nat)
    requires IsStored(d) && k < |d| && d[k].role == User
    ensures Faces(UsersUpTo(d, d[k].sequence)) == UpTo(Faces(Users(d)), d[k].commandId)
    decreases |d|
  {
    var n, id := |d| - 1, d[k].commandId;
    var before, last := d[..n], d[n];
    if k == n {
      AllUsers(d, d[k].sequence);
      CurrentIsLast(before, last);
    } else {
      UsersUpToCurrent(before, k);
      UsersOf(before, before[k]);
      CurrentIsEarlier(before, last, before[k]);
    }
  }

  lemma UsersPush(before: seq<Message>, last: Message)
    ensures Users(before + [last]) == Users(before) + if last.role == User then [last] else []
  {
    assert (before + [last])[..|before|] == before;
  }

  lemma CurrentIsLast(before: seq<Message>, last: Message)
    requires IsStored(before + [last]) && last.role == User
    ensures UpTo(Faces(Users(before + [last])), last.commandId) == Faces(Users(before + [last]))
  {
    var d, users := before + [last], Users(before);
    UsersPush(before, last);
    forall i | 0 <= i < |users|
      ensures users[i].commandId != last.commandId
    {
      UsersOf(before, users[i]);
      var j :| 0 <= j < |before| && before[j] == users[i];
      assert d[j] == before[j] && d[|before|] == last;
    }
  }

  lemma UpToPush(faces: seq<Face>, f: Face, id: string, i: nat)
    requires i < |faces| && faces[i].commandId == id
    ensures UpTo(faces + [f], id) == UpTo(faces, id)
  {
    assert (faces + [f])[i].commandId == id;
    assert (faces + [f])[..|faces|] == faces;
  }

  lemma CurrentIsEarlier(before: seq<Message>, last: Message, current: Message)
    requires current in Users(before)
    ensures UpTo(Faces(Users(before + [last])), current.commandId) == UpTo(Faces(Users(before)), current.commandId)
  {
    var users := Users(before);
    var i :| 0 <= i < |users| && users[i] == current;
    UsersPush(before, last);
    if last.role == User {
      assert Faces(users + [last]) == Faces(users) + [FaceOf(last)];
      UpToPush(Faces(users), FaceOf(last), current.commandId, i);
    } else {
      assert users + [] == users;
    }
  }

  lemma SameUsersUpTo(d: seq<Message>, k: nat, e: seq<Message>, j: nat)
    requires IsStored(d) && IsStored(e) && SameConversation(d, e)
    requires k < |d| && j < |e| && d[k].role == User && FaceOf(d[k]) == FaceOf(e[j])
    ensures SameSayings(UsersUpTo(d, d[k].sequence), UsersUpTo(e, e[j].sequence))
  {
    UsersUpToCurrent(d, k);
    UsersUpToCurrent(e, j);
    var us, vs := UsersUpTo(d, d[k].sequence), UsersUpTo(e, e[j].sequence);
    forall i | 0 <= i < |us|
      ensures |us| == |vs| && SameSaying(us[i], vs[i])
    {
      assert Faces(us)[i] == Faces(vs)[i];
    }
  }

  lemma CurrentIsUser(d: seq<Message>, commandId: string)
    requires IsStored(d) && Current(d, commandId) < |d|
    ensures d[Current(d, commandId)].role == User
  {
    SuffixOf(commandId, ":user");
    SuffixesDiffer(commandId + ":user");
  }

  lemma CurrentInBoth(d: seq<Message>, e: seq<Message>, commandId: string)
    requires IsStored(d) && IsStored(e) && multiset(Faces(d)) == multiset(Faces(e))
    ensures var k, j := Current(d, commandId), Current(e, commandId);
      (k < |d| <==> j < |e|) && (k < |d| ==> FaceOf(d[k]) == FaceOf(e[j]))
  {
    var k, j := Current(d, commandId), Current(e, commandId);
    if k < |d| {
      var i := FaceIsThere(d, e, k);
      assert e[i].commandId == commandId + ":user";
      assert j <= i;
      assert j == i;
    }
    if j < |e| {
      var i := FaceIsThere(e, d, j);
      assert d[i].commandId == commandId + ":user";
    }
  }

  /** Replies may be stored before or after the user messages of later turns, in any order: the canonical
      messages of every turn are the same. */
  lemma ArrivalOrderIsImmaterial(runner: seq<RunnerMessage>, d: seq<Message>, e: seq<Message>, commandId: string)
    requires IsStored(d) && IsStored(e) && SameConversation(d, e)
    ensures Canonical(runner, d, commandId) == Canonical(runner, e, commandId)
  {
    var k, j := Current(d, commandId), Current(e, commandId);
    CurrentInBoth(d, e, commandId);
    if k < |d| {
      CurrentIsUser(d, commandId);
      SameUsersUpTo(d, k, e, j);
      var users := UsersUpTo(d, d[k].sequence);
      forall i | 0 <= i < |users|
        ensures KeysOf(Replies(d, UserBase(users[i]))) == KeysOf(Replies(e, UserBase(users[i])))
      {
        SameReplyTo(d, e, UserBase(users[i]));
      }
      KeysOfFaces(d);
      KeysOfFaces(e);
      KeysOfSameFaces(Faces(d), Faces(e));
      ReplyOrderIsImmaterial(runner, d, d[k].sequence, e, e[j].sequence);
    }
  }
}
