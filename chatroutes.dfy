/** The chat routes: listing messages, sending one, an admin's view of one
    user's conversation, the list of conversations, deleting a message and
    marking messages read. */
module ChatRoutes {
  import opened Common
  import opened Documents
  import opened AuthMiddleware
  import opened DocumentStore
  import JsStrings

  const MaxTextLength: nat := 1000

  function MessageCreatedAtKey(m: Message): real {
    m.createdAt as real
  }

  // ----- GET /: oldest first, limit 50, offset 0

  /** Admins see every message; anyone else only the messages they sent. */
  function ListQuery(user: Claims, profile: UserProfile, limit: Option<nat>, offset: Option<nat>): Query<Message> {
    var admin := IsAdminRole(profile.role);
    Query((m: Message) => admin || m.userId == user.uid, MessageCreatedAtKey, Ascending, offset.GetOr(0), Some(limit.GetOr(50)))
  }

  function ListMessages(answer: seq<(string, Message)>): Response<seq<(string, Message)>> {
    Success(200, answer)
  }

  /** A caller who is not an admin sees only their own messages, so a reply
      an admin sent never reaches them; admins see every message. Both get
      at most `limit` (50) messages, oldest first, and a page from the start
      leaves out a visible message only when it is full. Messages kept well
      formed by the handlers are listed well formed. */
  lemma ListShowsOwnMessages(messages: map<string, Message>, user: Claims, profile: UserProfile,
                             limit: Option<nat>, offset: Option<nat>, answer: seq<(string, Message)>)
    requires Answers(messages, ListQuery(user, profile, limit, offset), answer)
    ensures var listed := ListMessages(answer).value;
      && |listed| <= limit.GetOr(50)
      && (forall i :: 0 <= i < |listed| ==> listed[i].0 in messages && messages[listed[i].0] == listed[i].1)
      && (!IsAdminRole(profile.role) ==> forall i :: 0 <= i < |listed| ==> listed[i].1.userId == user.uid)
      && (forall i, j :: 0 <= i < j < |listed| ==> listed[i].1.createdAt <= listed[j].1.createdAt)
      && (offset.GetOr(0) == 0 ==> forall id ::
            id in messages && (IsAdminRole(profile.role) || messages[id].userId == user.uid) && id !in Ids(listed)
            ==> |listed| == limit.GetOr(50))
      && (MessagesWellFormed(messages) ==> forall i :: 0 <= i < |listed| ==> WellFormedMessage(listed[i].1))
  {
    var q := ListQuery(user, profile, limit, offset);
    AnswerSound(messages, q, answer);
    forall i, j | 0 <= i < j < |answer| ensures answer[i].1.createdAt <= answer[j].1.createdAt {
      assert InOrder(q.key(answer[i].1), q.key(answer[j].1), q.order);
    }
    if offset.GetOr(0) == 0 {
      forall id | id in messages && (IsAdminRole(profile.role) || messages[id].userId == user.uid) && id !in Ids(answer)
        ensures |answer| == limit.GetOr(50)
      {
        AnswerWithinLimit(messages, q, answer, id);
      }
    }
  }

  // ----- POST /

  /** The checks on the body's `text`, in order: a falsy value or one that
      trims to nothing is 400; a truthy value that is not a string cannot be
      trimmed and ends in the 500 handler; a string longer than 1000
      characters before trimming is 400. */
  function CheckText(text: Json): (v: Verdict)
    ensures v == Reject(400, "Message text is required") <==>
      !Truthy(text) || (text.Text? && JsStrings.Trim(text.s) == "")
    ensures v == Reject(500, "Failed to send message") <==> Truthy(text) && !text.Text?
    ensures v == Reject(400, "Message too long (max 1000 characters)") <==>
      text.Text? && JsStrings.Trim(text.s) != "" && |text.s| > MaxTextLength
    ensures v.Proceed? <==> text.Text? && JsStrings.Trim(text.s) != "" && |text.s| <= MaxTextLength
  {
    if !Truthy(text) then Reject(400, "Message text is required")
    else if !text.Text? then Reject(500, "Failed to send message")
    else if |JsStrings.Trim(text.s)| == 0 then Reject(400, "Message text is required")
    else if |text.s| > MaxTextLength then Reject(400, "Message too long (max 1000 characters)")
    else Proceed
  }

  /** A text of up to 1000 characters that is long only because of
      surrounding white space is still refused: the limit applies before
      trimming. */
  lemma PaddedTextRefused(body: string, padding: nat)
    requires body != [] && |body| <= MaxTextLength && !JsStrings.IsWhitespace(body[0])
    requires |body| + padding > MaxTextLength
    ensures CheckText(Text(body + JsStrings.Repeat(' ', padding))) == Reject(400, "Message too long (max 1000 characters)")
  {
    var s := body + JsStrings.Repeat(' ', padding);
    assert s[0] == body[0];
    assert JsStrings.Trim(s) != "";
  }

  /** What every stored message satisfies: non-empty text of at most 1000
      characters that neither starts nor ends with white space, and the
      admin-reply flag set exactly for the two admin roles. */
  predicate WellFormedMessage(m: Message) {
    && m.text != ""
    && |m.text| <= MaxTextLength
    && !JsStrings.IsWhitespace(m.text[0])
    && !JsStrings.IsWhitespace(m.text[|m.text| - 1])
    && (m.isAdminReply <==> IsAdminRole(m.userRole))
  }

  predicate MessagesWellFormed(messages: map<string, Message>) {
    forall id :: id in messages ==> WellFormedMessage(messages[id])
  }

  /** The message stored for a text that passed `CheckText`. */
  function NewMessage(text: string, user: Claims, profile: UserProfile, now: nat): (m: Message)
    requires JsStrings.Trim(text) != "" && |text| <= MaxTextLength
    ensures m.text == JsStrings.Trim(text) && m.userId == user.uid && m.createdAt == now
    ensures m.userDisplayName == profile.displayName && m.userRole == profile.role
    ensures m.isAdminReply <==> profile.role in {"admin", "superAdmin"}
    ensures WellFormedMessage(m)
  {
    Message(JsStrings.Trim(text), user.uid, profile.displayName, profile.role, IsAdminRole(profile.role), now)
  }

  /** POST /: the checks of `CheckText`; then the trimmed text is stored under
      the id the store generates, with the sender's uid, display name and
      role, and returned with 201. */
  method SendMessage(db: Database, user: Claims, profile: UserProfile, text: Json, now: nat, newId: string)
      returns (r: Response<(string, Message)>)
    requires newId !in db.messages
    modifies db
    ensures CheckText(text).Reject? ==> r == Failure(CheckText(text).code, CheckText(text).error) && db.messages == old(db.messages)
    ensures CheckText(text).Proceed? ==>
      var m := NewMessage(text.s, user, profile, now);
      r == Success(201, (newId, m)) && db.messages == old(db.messages)[newId := m]
    ensures db.users == old(db.users) && db.reports == old(db.reports) && db.pointsLog == old(db.pointsLog)
    ensures MessagesWellFormed(old(db.messages)) ==> MessagesWellFormed(db.messages)
  {
    var check := CheckText(text);
    if check.Reject? {
      return Failure(check.code, check.error);
    }
    var m := NewMessage(text.s, user, profile, now);
    db.messages := db.messages[newId := m];
    r := Success(201, (newId, m));
  }

  // ----- GET /conversation/:userId (admins): oldest first, limit 100

  function ConversationQuery(userId: string, limit: Option<nat>): Query<Message> {
    Query((m: Message) => m.userId == userId, MessageCreatedAtKey, Ascending, 0, Some(limit.GetOr(100)))
  }

  function Conversation(profile: UserProfile, answer: seq<(string, Message)>): (r: Response<seq<(string, Message)>>)
    ensures r.Success? <==> IsAdminRole(profile.role)
    ensures r.Failure? ==> r.code == 403
  {
    match RequireAdmin(Some(profile))
    case Reject(code, error) => Failure(code, error)
    case Proceed => Success(200, answer)
  }

  /** An admin gets the first `limit` (100) messages the user sent, oldest
      first; when the limit is not reached, all of them. */
  lemma ConversationOfUser(messages: map<string, Message>, profile: UserProfile, userId: string,
                           limit: Option<nat>, answer: seq<(string, Message)>)
    requires IsAdminRole(profile.role)
    requires Answers(messages, ConversationQuery(userId, limit), answer)
    ensures Conversation(profile, answer) == Success(200, answer)
    ensures |answer| <= limit.GetOr(100)
    ensures forall i :: 0 <= i < |answer| ==> answer[i].0 in messages && answer[i].1.userId == userId
    ensures forall i, j :: 0 <= i < j < |answer| ==> answer[i].1.createdAt <= answer[j].1.createdAt
    ensures forall id :: id in messages && messages[id].userId == userId && id !in Ids(answer) ==> |answer| == limit.GetOr(100)
  {
    var q := ConversationQuery(userId, limit);
    AnswerSound(messages, q, answer);
    forall i, j | 0 <= i < j < |answer| ensures answer[i].1.createdAt <= answer[j].1.createdAt {
      assert InOrder(q.key(answer[i].1), q.key(answer[j].1), q.order);
    }
    forall id | id in messages && messages[id].userId == userId && id !in Ids(answer)
      ensures |answer| == limit.GetOr(100)
    {
      AnswerWithinLimit(messages, q, answer, id);
    }
  }

  // ----- GET /conversations (admins)

  /** The position of the first occurrence of `x` in `xs`. */
  function FirstIndex(xs: seq<string>, x: string): (k: nat)
    requires x in xs
    ensures k < |xs| && xs[k] == x && x !in xs[..k]
    decreases |xs|
  {
    var front := xs[..|xs| - 1];
    assert xs == front + [xs[|xs| - 1]];
    if x in front then
      var k := FirstIndex(front, x);
      assert xs[..k] == front[..k];
      k
    else |xs| - 1
  }

  /** A position holding `x` with no `x` before it is the first index. */
  lemma FirstIndexUnique(xs: seq<string>, x: string, k: int)
    requires 0 <= k < |xs| && xs[k] == x && x !in xs[..k]
    ensures FirstIndex(xs, x) == k
  {
    var f := FirstIndex(xs, x);
    assert f >= k by {
      forall j | 0 <= j < k ensures xs[j] != x {
        assert xs[j] == xs[..k][j];
      }
    }
    assert f <= k by {
      forall j | 0 <= j < f ensures xs[j] != x {
        assert xs[j] == xs[..f][j];
      }
    }
  }

  /** `[...new Set(xs)]`: the distinct elements in order of first occurrence. */
  function Distinct(xs: seq<string>): (d: seq<string>)
    ensures forall x :: x in d <==> x in xs
    ensures forall i, j :: 0 <= i < j < |d| ==> d[i] != d[j]
    ensures forall i, j :: 0 <= i < j < |d| ==> FirstIndex(xs, d[i]) < FirstIndex(xs, d[j])
    decreases |xs|
  {
    if xs == [] then []
    else
      var prefix, last := xs[..|xs| - 1], xs[|xs| - 1];
      var front := Distinct(prefix);
      assert xs == prefix + [last];
      assert forall x :: x in prefix ==> FirstIndex(xs, x) == FirstIndex(prefix, x);
      if last in front then front
      else
        var d := front + [last];
        assert FirstIndex(xs, last) == |xs| - 1;
        assert forall i :: 0 <= i < |front| ==> FirstIndex(xs, d[i]) < |prefix|;
        d
  }

  /** `{text, createdAt}` of a conversation's last message. */
  datatype LastMessage = LastMessage(text: string, createdAt: nat)

  datatype ConversationSummary = ConversationSummary(
    userId: string,
    userDisplayName: string,
    userRole: string,
    lastMessage: Option<LastMessage>,
    isOnline: bool)

  function Senders(snapshot: seq<(string, Message)>): (s: seq<string>)
    ensures |s| == |snapshot| && forall i :: 0 <= i < |s| ==> s[i] == snapshot[i].1.userId
  {
    seq(|snapshot|, i requires 0 <= i < |snapshot| => snapshot[i].1.userId)
  }

  /** Position `i` holds the first message from `userId` in `snapshot`. */
  predicate FirstFrom(snapshot: seq<(string, Message)>, i: int, userId: string) {
    0 <= i < |snapshot| && snapshot[i].1.userId == userId && forall j :: 0 <= j < i ==> snapshot[j].1.userId != userId
  }

  /** The first message from `userId` in the newest-first snapshot: what the
      query `where userId == userId, orderBy createdAt desc, limit 1` returns
      on the same collection. */
  function LatestFrom(snapshot: seq<(string, Message)>, userId: string): (m: Option<Message>)
    ensures m.None? <==> userId !in Senders(snapshot)
    ensures m.Some? ==> exists i :: FirstFrom(snapshot, i, userId) && snapshot[i].1 == m.value
  {
    if snapshot == [] then None
    else if snapshot[0].1.userId == userId then
      assert FirstFrom(snapshot, 0, userId);
      Some(snapshot[0].1)
    else
      var rest := LatestFrom(snapshot[1..], userId);
      assert Senders(snapshot) == [snapshot[0].1.userId] + Senders(snapshot[1..]);
      assert rest.Some? ==> exists i :: FirstFrom(snapshot, i, userId) && snapshot[i].1 == rest.value by {
        if rest.Some? {
          var k :| FirstFrom(snapshot[1..], k, userId) && snapshot[1..][k].1 == rest.value;
          assert snapshot[k + 1] == snapshot[1..][k];
          forall j | 0 <= j < k + 1 ensures snapshot[j].1.userId != userId {
            if j > 0 { assert snapshot[j] == snapshot[1..][j - 1]; }
          }
          assert FirstFrom(snapshot, k + 1, userId);
        }
      }
      rest
  }

  /** One row of the conversation list. A sender without a profile shows as
      "Unknown User" with role user; a profile's falsy name or role falls
      back the same way; nobody is ever shown online. */
  function Summary(users: map<string, UserProfile>, snapshot: seq<(string, Message)>, userId: string): (s: ConversationSummary)
    ensures s.userId == userId && !s.isOnline
    ensures userId !in users ==> s.userDisplayName == "Unknown User" && s.userRole == UserRole
    ensures userId in users
      ==> s.userDisplayName == (if users[userId].displayName != "" then users[userId].displayName else "Unknown User")
    ensures userId in users ==> s.userRole == (if users[userId].role != "" then users[userId].role else UserRole)
    ensures s.lastMessage.Some? <==> userId in Senders(snapshot)
    ensures s.lastMessage.Some? ==>
      && LatestFrom(snapshot, userId).Some?
      && s.lastMessage.value == LastMessage(LatestFrom(snapshot, userId).value.text, LatestFrom(snapshot, userId).value.createdAt)
  {
    var profile := if userId in users then Some(users[userId]) else None;
    var last := LatestFrom(snapshot, userId);
    ConversationSummary(
      userId,
      if profile.Some? && profile.value.displayName != "" then profile.value.displayName else "Unknown User",
      if profile.Some? && profile.value.role != "" then profile.value.role else UserRole,
      if last.Some? then Some(LastMessage(last.value.text, last.value.createdAt)) else None,
      false)
  }

  /** The snapshot the conversation list starts from: every message, newest
      first. */
  function NewestFirstQuery(): Query<Message> {
    Query((m: Message) => true, MessageCreatedAtKey, Descending, 0, None)
  }

  function SummaryIds(list: seq<ConversationSummary>): (ids: seq<string>)
    ensures |ids| == |list| && forall i :: 0 <= i < |ids| ==> ids[i] == list[i].userId
  {
    seq(|list|, i requires 0 <= i < |list| => list[i].userId)
  }

  function Conversations(profile: UserProfile, users: map<string, UserProfile>, snapshot: seq<(string, Message)>): (r: Response<seq<ConversationSummary>>)
    ensures r.Success? <==> IsAdminRole(profile.role)
    ensures r.Failure? ==> r.code == 403
    ensures r.Success? ==> SummaryIds(r.value) == Distinct(Senders(snapshot))
    ensures r.Success? ==> forall i :: 0 <= i < |r.value| ==> r.value[i] == Summary(users, snapshot, r.value[i].userId)
  {
    match RequireAdmin(Some(profile))
    case Reject(code, error) => Failure(code, error)
    case Proceed =>
      var ids := Distinct(Senders(snapshot));
      var list := seq(|ids|, i requires 0 <= i < |ids| => Summary(users, snapshot, ids[i]));
      assert SummaryIds(list) == ids;
      Success(200, list)
  }

  /** The users who have sent at least one message. */
  function SendersOf(messages: map<string, Message>): set<string> {
    set id | id in messages :: messages[id].userId
  }

  /** The senders in the newest-first snapshot are exactly the users who
      have sent a message. */
  lemma SnapshotSenders(messages: map<string, Message>, snapshot: seq<(string, Message)>)
    requires Answers(messages, NewestFirstQuery(), snapshot)
    ensures forall u :: u in Senders(snapshot) <==> u in SendersOf(messages)
  {
    var q := NewestFirstQuery();
    AnswerSound(messages, q, snapshot);
    forall u | u in Senders(snapshot) ensures u in SendersOf(messages) {
      var i :| 0 <= i < |snapshot| && Senders(snapshot)[i] == u;
      assert messages[snapshot[i].0].userId == u;
    }
    forall u | u in SendersOf(messages) ensures u in Senders(snapshot) {
      var id :| id in messages && messages[id].userId == u;
      var i := AnswerPosition(messages, q, snapshot, id);
      assert Senders(snapshot)[i] == u;
    }
  }

  /** For an admin, the list has exactly one row per user who has sent a
      message, and no one is shown online. */
  lemma ConversationsCoverSenders(messages: map<string, Message>, users: map<string, UserProfile>,
                                  profile: UserProfile, snapshot: seq<(string, Message)>)
    requires IsAdminRole(profile.role)
    requires Answers(messages, NewestFirstQuery(), snapshot)
    ensures Conversations(profile, users, snapshot).Success?
    ensures var list := Conversations(profile, users, snapshot).value;
      && (forall u :: u in SummaryIds(list) <==> u in SendersOf(messages))
      && (forall i, j :: 0 <= i < j < |list| ==> list[i].userId != list[j].userId)
      && (forall i :: 0 <= i < |list| ==> !list[i].isOnline)
  {
    SnapshotSenders(messages, snapshot);
    var list := Conversations(profile, users, snapshot).value;
    var ids := SummaryIds(list);
    assert ids == Distinct(Senders(snapshot));
    forall i, j | 0 <= i < j < |list| ensures list[i].userId != list[j].userId {
      assert ids[i] == list[i].userId && ids[j] == list[j].userId;
    }
  }

  /** The newest message from `u` sits at `u`'s first position in the
      newest-first snapshot. */
  lemma FirstIsNewest(messages: map<string, Message>, snapshot: seq<(string, Message)>, u: string, i: int, id: string)
    requires Answers(messages, NewestFirstQuery(), snapshot)
    requires FirstFrom(snapshot, i, u)
    requires id in messages && messages[id].userId == u
    ensures messages[id].createdAt <= snapshot[i].1.createdAt
  {
    var q := NewestFirstQuery();
    AnswerSound(messages, q, snapshot);
    var j := AnswerPosition(messages, q, snapshot, id);
    assert snapshot[j].1.userId == u;
    assert i <= j;
    if i < j {
      assert InOrder(q.key(snapshot[i].1), q.key(snapshot[j].1), q.order);
    }
  }

  /** A row's last message is the sender's newest: no message from that user
      in the collection is more recent. */
  lemma LastMessageIsNewest(messages: map<string, Message>, users: map<string, UserProfile>,
                            snapshot: seq<(string, Message)>, u: string)
    requires Answers(messages, NewestFirstQuery(), snapshot)
    requires u in SendersOf(messages)
    ensures var s := Summary(users, snapshot, u);
      && s.lastMessage.Some?
      && forall id :: id in messages && messages[id].userId == u ==> messages[id].createdAt <= s.lastMessage.value.createdAt
  {
    SnapshotSenders(messages, snapshot);
    var last := LatestFrom(snapshot, u);
    var i :| FirstFrom(snapshot, i, u) && snapshot[i].1 == last.value;
    forall id | id in messages && messages[id].userId == u ensures messages[id].createdAt <= last.value.createdAt {
      FirstIsNewest(messages, snapshot, u, i, id);
    }
  }

  /** A sender's newest message sits at their first position among the
      snapshot's senders. */
  lemma LatestAtFirstIndex(snapshot: seq<(string, Message)>, u: string)
    requires u in Senders(snapshot)
    ensures LatestFrom(snapshot, u) == Some(snapshot[FirstIndex(Senders(snapshot), u)].1)
  {
    var senders := Senders(snapshot);
    var m := LatestFrom(snapshot, u);
    var i :| FirstFrom(snapshot, i, u) && snapshot[i].1 == m.value;
    forall j | 0 <= j < i ensures senders[..i][j] != u {
      assert senders[..i][j] == snapshot[j].1.userId;
    }
    FirstIndexUnique(senders, u, i);
  }

  /** Of two senders, the one who appears first in the newest-first snapshot
      has the more recent latest message. */
  lemma EarlierSenderIsNewer(users: map<string, UserProfile>, snapshot: seq<(string, Message)>, u: string, v: string)
    requires Ordered(snapshot, MessageCreatedAtKey, Descending)
    requires u in Senders(snapshot) && v in Senders(snapshot)
    requires FirstIndex(Senders(snapshot), u) < FirstIndex(Senders(snapshot), v)
    ensures Summary(users, snapshot, u).lastMessage.Some? && Summary(users, snapshot, v).lastMessage.Some?
    ensures Summary(users, snapshot, u).lastMessage.value.createdAt >= Summary(users, snapshot, v).lastMessage.value.createdAt
  {
    LatestAtFirstIndex(snapshot, u);
    LatestAtFirstIndex(snapshot, v);
    var a, b := FirstIndex(Senders(snapshot), u), FirstIndex(Senders(snapshot), v);
    assert InOrder(MessageCreatedAtKey(snapshot[a].1), MessageCreatedAtKey(snapshot[b].1), Descending);
  }

  /** For an admin, the rows come in order of their latest message, newest
      first, and every row has one. */
  lemma ConversationsNewestFirst(messages: map<string, Message>, users: map<string, UserProfile>,
                                 profile: UserProfile, snapshot: seq<(string, Message)>)
    requires IsAdminRole(profile.role)
    requires Answers(messages, NewestFirstQuery(), snapshot)
    ensures Conversations(profile, users, snapshot).Success?
    ensures var list := Conversations(profile, users, snapshot).value;
      && (forall i :: 0 <= i < |list| ==> list[i].lastMessage.Some?)
      && (forall i, j :: 0 <= i < j < |list| ==>
            list[i].lastMessage.value.createdAt >= list[j].lastMessage.value.createdAt)
  {
    AnswerSound(messages, NewestFirstQuery(), snapshot);
    var list := Conversations(profile, users, snapshot).value;
    var ids := Distinct(Senders(snapshot));
    forall i | 0 <= i < |list| ensures list[i].lastMessage.Some? && list[i] == Summary(users, snapshot, ids[i]) {
      assert SummaryIds(list)[i] == ids[i];
    }
    forall i, j | 0 <= i < j < |list|
      ensures list[i].lastMessage.value.createdAt >= list[j].lastMessage.value.createdAt
    {
      EarlierSenderIsNewer(users, snapshot, ids[i], ids[j]);
    }
  }

  // ----- DELETE /:messageId (admins)

  /** DELETE /:messageId: non-admins get 403; otherwise the message with that
      id, if any, is removed and every other message stays as it was. The
      store's delete succeeds for an id that names no message. */
  method DeleteMessage(db: Database, profile: UserProfile, messageId: string) returns (r: Response<string>)
    modifies db
    ensures r.Success? <==> IsAdminRole(profile.role)
    ensures !IsAdminRole(profile.role) ==> r == Failure(403, "Insufficient permissions") && db.messages == old(db.messages)
    ensures IsAdminRole(profile.role) ==> r == Success(200, "Message deleted successfully") && db.messages == old(db.messages) - {messageId}
    ensures db.users == old(db.users) && db.reports == old(db.reports) && db.pointsLog == old(db.pointsLog)
    ensures MessagesWellFormed(old(db.messages)) ==> MessagesWellFormed(db.messages)
  {
    var gate := RequireAdmin(Some(profile));
    if gate.Reject? {
      return Failure(gate.code, gate.error);
    }
    db.messages := db.messages - {messageId};
    r := Success(200, "Message deleted successfully");
  }

  // ----- PUT /:userId/read (admins)

  /** PUT /:userId/read changes nothing and succeeds for every admin. */
  function MarkRead(profile: UserProfile, userId: string): (r: Response<string>)
    ensures r.Success? <==> IsAdminRole(profile.role)
    ensures r.Success? ==> r == Success(200, "Messages marked as read")
    ensures r.Failure? ==> r == Failure(403, "Insufficient permissions")
  {
    match RequireAdmin(Some(profile))
    case Reject(code, error) => Failure(code, error)
    case Proceed => Success(200, "Messages marked as read")
  }
}
