/** The messaging service: reshaping conversation and message rows for the
    chat screens, sending a message (insert, then touch the conversation), and
    finding or creating the one conversation of an unordered pair of users. */
module MessageService {
  import opened Common
  import opened Ordering

  const NoMessagesYet := "No messages yet"
  const UnknownName := "Unknown"
  const DefaultAvatar := "https://picsum.photos/200"

  /** A row of the conversations table. */
  datatype Conversation = Conversation(
    id: Id, participant1: Id, participant2: Id, createdAt: Timestamp, lastMessageAt: Option<Timestamp>)

  /** A row of the messages table. */
  datatype Message = Message(
    id: Id, conversationId: Id, senderId: Id, content: Option<string>, msgType: Option<string>,
    mediaUrl: Option<string>, duration: Option<string>, createdAt: Timestamp, isRead: bool)

  /** The profile columns the conversation query joins in for each participant. */
  datatype ProfileRef = ProfileRef(id: Option<Id>, fullName: Option<string>, avatarUrl: Option<string>)

  /** The embedded message columns of a conversation row. */
  datatype MessageSummary = MessageSummary(content: Option<string>, isRead: bool)

  /** One row of the conversation query: the conversation with both participants'
      profiles and its messages, as the backend returns them. */
  datatype ConversationRow = ConversationRow(
    conv: Conversation, participant1Profile: Option<ProfileRef>, participant2Profile: Option<ProfileRef>,
    messages: seq<MessageSummary>)

  datatype UserView = UserView(id: string, name: string, email: string, avatarUrl: string, role: string)

  /** A conversation as the list screen shows it; `lastMessageAt` is the instant
      that is then formatted for display. */
  datatype ConversationView = ConversationView(
    id: Id, withUser: UserView, lastMessage: string, lastMessageAt: Timestamp, unreadCount: nat)

  datatype Sender = Me | Them

  /** A message as the chat screen shows it; `time` is the instant that is then formatted. */
  datatype MessageView = MessageView(
    id: Id, text: Option<string>, sender: Sender, time: Timestamp, msgType: string,
    mediaUrl: Option<string>, duration: Option<string>)

  // ---------------------------------------------------------------- transforms

  /** The participant who is not the current user. */
  function OtherProfile(row: ConversationRow, me: Id): Option<ProfileRef> {
    if row.conv.participant1 == me then row.participant2Profile else row.participant1Profile
  }

  function ProfileField(p: Option<ProfileRef>, field: ProfileRef -> Option<string>): Option<string> {
    if p.Some? then field(p.value) else None
  }

  predicate IsUnread(m: MessageSummary) {
    !m.isRead
  }

  function LastContent(ms: seq<MessageSummary>): Option<string> {
    if ms == [] then None else ms[|ms| - 1].content
  }

  /** The transform of one conversation row for user `me`. */
  function ConversationOf(row: ConversationRow, me: Id): (v: ConversationView)
    ensures v.id == row.conv.id
    ensures v.unreadCount == Count(row.messages, IsUnread)
    ensures v.lastMessageAt == row.conv.lastMessageAt.GetOr(row.conv.createdAt)
  {
    var other := OtherProfile(row, me);
    ConversationView(
      row.conv.id,
      UserView(OrDefault(ProfileField(other, (p: ProfileRef) => p.id), ""),
               OrDefault(ProfileField(other, (p: ProfileRef) => p.fullName), UnknownName),
               "",
               OrDefault(ProfileField(other, (p: ProfileRef) => p.avatarUrl), DefaultAvatar),
               "member"),
      OrDefault(LastContent(row.messages), NoMessagesYet),
      row.conv.lastMessageAt.GetOr(row.conv.createdAt),
      Count(row.messages, IsUnread))
  }

  /** The conversation shows the other participant: participant 2's profile when
      the user is participant 1, participant 1's otherwise; a missing or empty name
      reads 'Unknown'. The last message is the last one's content, or
      'No messages yet'. */
  lemma ConversationShowsOther(row: ConversationRow, me: Id)
    ensures var v := ConversationOf(row, me);
      var other := if row.conv.participant1 == me then row.participant2Profile else row.participant1Profile;
      (other.Some? && Truthy(other.value.fullName) ==> v.withUser.name == other.value.fullName.value)
      && (other.None? || !Truthy(other.value.fullName) ==> v.withUser.name == UnknownName)
      && (row.messages != [] && Truthy(row.messages[|row.messages| - 1].content) ==>
            v.lastMessage == row.messages[|row.messages| - 1].content.value)
      && (row.messages == [] ==> v.lastMessage == NoMessagesYet)
  {
  }

  /** Unread and read messages together make up the list: the unread count is
      the list's length minus the number of read messages, and it is zero
      exactly when every message is read. */
  lemma {:induction false} UnreadPartition(ms: seq<MessageSummary>)
    ensures Count(ms, IsUnread) + Count(ms, (m: MessageSummary) => m.isRead) == |ms|
    ensures Count(ms, IsUnread) == 0 <==> forall i :: 0 <= i < |ms| ==> ms[i].isRead
  {
    if ms != [] {
      UnreadPartition(ms[1..]);
      assert ms == [ms[0]] + ms[1..];
      if !ms[0].isRead {
        assert ms[0] in Filter(ms, IsUnread);
      }
    }
  }

  predicate Participates(c: Conversation, me: Id) {
    c.participant1 == me || c.participant2 == me
  }

  /** The rows of `.or(participant_1.eq.me, participant_2.eq.me)`, in table order. */
  function Mine(rows: seq<ConversationRow>, me: Id): (r: seq<ConversationRow>)
    ensures |r| <= |rows|
    ensures forall row :: row in r <==> row in rows && Participates(row.conv, me)
  {
    Filter(rows, (row: ConversationRow) => Participates(row.conv, me))
  }

  function ConversationViews(rows: seq<ConversationRow>, me: Id): (r: seq<ConversationView>)
    ensures |r| == |rows|
    ensures forall i :: 0 <= i < |rows| ==> r[i] == ConversationOf(rows[i], me)
  {
    if rows == [] then [] else [ConversationOf(rows[0], me)] + ConversationViews(rows[1..], me)
  }

  /** The views of the user's conversations: one for each conversation the user
      takes part in, and each of such a conversation. */
  lemma MineViewsComplete(rows: seq<ConversationRow>, me: Id)
    ensures var r := ConversationViews(Mine(rows, me), me);
      (forall row :: row in rows && Participates(row.conv, me) ==> ConversationOf(row, me) in r)
      && (forall v :: v in r ==> exists row :: row in rows && Participates(row.conv, me) && v == ConversationOf(row, me))
  {
    var mine := Mine(rows, me);
    var r := ConversationViews(mine, me);
    forall row | row in rows && Participates(row.conv, me) ensures ConversationOf(row, me) in r {
      var i :| 0 <= i < |mine| && mine[i] == row;
      assert r[i] == ConversationOf(row, me);
    }
    forall v | v in r ensures exists row :: row in rows && Participates(row.conv, me) && v == ConversationOf(row, me) {
      var i :| 0 <= i < |r| && r[i] == v;
      assert mine[i] in mine;
    }
  }

  /** `getConversations`: the user's conversations, reshaped. Without a signed-in
      user, or when the query fails, the data is empty and an error is returned.
      Otherwise there is one view per conversation the user takes part in, and
      every view is of such a conversation. */
  function GetConversations(user: Option<Id>, rows: seq<ConversationRow>, query: Step): (r: Result<seq<ConversationView>>)
    ensures user.None? ==> r == Err(NotAuthenticated)
    ensures user.Some? && query.FailsWith? ==> r == Err(query.message)
    ensures r.Ok? <==> user.Some? && query.Succeeds?
    ensures r.Ok? ==> |r.value| == |Mine(rows, user.value)|
    ensures r.Ok? ==> forall i :: 0 <= i < |r.value| ==> r.value[i] == ConversationOf(Mine(rows, user.value)[i], user.value)
    ensures r.Ok? ==> forall row :: row in rows && Participates(row.conv, user.value) ==>
      ConversationOf(row, user.value) in r.value
    ensures r.Ok? ==> forall v :: v in r.value ==>
      exists row :: row in rows && Participates(row.conv, user.value) && v == ConversationOf(row, user.value)
  {
    if user.None? then Err(NotAuthenticated)
    else if query.FailsWith? then Err(query.message)
    else
      MineViewsComplete(rows, user.value);
      Ok(ConversationViews(Mine(rows, user.value), user.value))
  }

  /** The transform of one message row for the signed-in user (if any). */
  function MessageOf(m: Message, user: Option<Id>): (v: MessageView)
    ensures v.sender == Me <==> user.Some? && m.senderId == user.value
    ensures v.msgType == if Truthy(m.msgType) then m.msgType.value else "text"
    ensures v.id == m.id && v.text == m.content && v.time == m.createdAt
    ensures v.mediaUrl == m.mediaUrl && v.duration == m.duration
  {
    MessageView(m.id, m.content, if user.Some? && m.senderId == user.value then Me else Them,
                m.createdAt, OrDefault(m.msgType, "text"), m.mediaUrl, m.duration)
  }

  /** Descending by this key is ascending by creation time. */
  function MessageOrder(m: Message): int {
    0 - m.createdAt
  }

  /** `.eq('conversation_id', id).order('created_at', { ascending: true })`. */
  function ConversationMessages(rows: seq<Message>, conversationId: Id): (ms: seq<Message>)
    ensures forall i, j :: 0 <= i < j < |ms| ==> ms[i].createdAt <= ms[j].createdAt
    ensures multiset(ms) == multiset(Filter(rows, (m: Message) => m.conversationId == conversationId))
    ensures forall m :: m in ms <==> m in rows && m.conversationId == conversationId
  {
    var ms := SortDesc(Filter(rows, (m: Message) => m.conversationId == conversationId), MessageOrder);
    assert forall i, j :: 0 <= i < j < |ms| ==> MessageOrder(ms[i]) >= MessageOrder(ms[j]);
    ms
  }

  function MessageViews(ms: seq<Message>, user: Option<Id>): (r: seq<MessageView>)
    ensures |r| == |ms|
    ensures forall i :: 0 <= i < |ms| ==> r[i] == MessageOf(ms[i], user)
  {
    if ms == [] then [] else [MessageOf(ms[0], user)] + MessageViews(ms[1..], user)
  }

  /** The views of a conversation's messages are oldest first, there is one for
      each of its messages, and each is of one of them. */
  lemma ConversationMessageViews(rows: seq<Message>, conversationId: Id, user: Option<Id>)
    ensures var r := MessageViews(ConversationMessages(rows, conversationId), user);
      (forall i, j :: 0 <= i < j < |r| ==> r[i].time <= r[j].time)
      && (forall m :: m in rows && m.conversationId == conversationId ==> MessageOf(m, user) in r)
      && (forall v :: v in r ==> exists m :: m in rows && m.conversationId == conversationId && v == MessageOf(m, user))
  {
    var ms := ConversationMessages(rows, conversationId);
    var r := MessageViews(ms, user);
    forall m | m in rows && m.conversationId == conversationId ensures MessageOf(m, user) in r {
      var i :| 0 <= i < |ms| && ms[i] == m;
      assert r[i] == MessageOf(m, user);
    }
    forall v | v in r ensures exists m :: m in rows && m.conversationId == conversationId && v == MessageOf(m, user) {
      var i :| 0 <= i < |r| && r[i] == v;
      assert ms[i] in ms;
    }
  }

  /** `getMessages(conversationId)`: the conversation's messages, oldest first,
      one view per message of the conversation, or the query's error (whose
      `data` is then empty). */
  function GetMessages(conversationId: Id, rows: seq<Message>, user: Option<Id>, query: Step): (r: Result<seq<MessageView>>)
    ensures query.FailsWith? ==> r == Err(query.message)
    ensures r.Ok? <==> query.Succeeds?
    ensures r.Ok? ==> |r.value| == |ConversationMessages(rows, conversationId)|
    ensures r.Ok? ==>
      forall i :: 0 <= i < |r.value| ==> r.value[i] == MessageOf(ConversationMessages(rows, conversationId)[i], user)
    ensures r.Ok? ==> forall i, j :: 0 <= i < j < |r.value| ==> r.value[i].time <= r.value[j].time
    ensures r.Ok? ==> forall m :: m in rows && m.conversationId == conversationId ==> MessageOf(m, user) in r.value
    ensures r.Ok? ==>
      forall v :: v in r.value ==> exists m :: m in rows && m.conversationId == conversationId && v == MessageOf(m, user)
  {
    if query.FailsWith? then Err(query.message)
    else
      ConversationMessageViews(rows, conversationId, user);
      Ok(MessageViews(ConversationMessages(rows, conversationId), user))
  }

  // ---------------------------------------------------------------- writes

  datatype MessageState = MessageState(conversations: seq<Conversation>, messages: seq<Message>)

  datatype Sent = Sent(after: MessageState, result: Result<Message>)

  datatype Created = Created(after: MessageState, result: Result<Conversation>)

  /** The conversations table after `update({ last_message_at: now }).eq('id', id)`. */
  function Touch(cs: seq<Conversation>, id: Id, now: Timestamp): (r: seq<Conversation>)
    ensures |r| == |cs|
    ensures forall i :: 0 <= i < |cs| ==>
      r[i] == if cs[i].id == id then cs[i].(lastMessageAt := Some(now)) else cs[i]
  {
    seq(|cs|, i requires 0 <= i < |cs| => if cs[i].id == id then cs[i].(lastMessageAt := Some(now)) else cs[i])
  }

  /** `sendMessage(conversationId, content, type = 'text', mediaUrl)`: insert the
      message, then touch the conversation (whose result is not checked). */
  function Send(s: MessageState, user: Option<Id>, conversationId: Id, content: string, newId: Id, now: Timestamp,
                insert: Step, touch: Step, msgType: string := "text", mediaUrl: Option<string> := None): (r: Sent)
    ensures user.None? ==> r == Sent(s, Err(NotAuthenticated))
    ensures user.Some? && insert.FailsWith? ==> r == Sent(s, Err(insert.message))
    ensures r.result.Ok? <==> user.Some? && insert.Succeeds?
    ensures r.result.Ok? ==>
      r.after.messages == s.messages + [r.result.value]
      && r.result.value.senderId == user.value && r.result.value.conversationId == conversationId
      && r.result.value.content == Some(content) && r.result.value.msgType == Some(msgType)
      && r.result.value.mediaUrl == mediaUrl && r.result.value.createdAt == now && !r.result.value.isRead
    ensures r.result.Ok? && touch.Succeeds? ==> r.after.conversations == Touch(s.conversations, conversationId, now)
    ensures r.result.Ok? && touch.FailsWith? ==> r.after.conversations == s.conversations
  {
    if user.None? then Sent(s, Err(NotAuthenticated))
    else if insert.FailsWith? then Sent(s, Err(insert.message))
    else
      var m := Message(newId, conversationId, user.value, Some(content), Some(msgType), mediaUrl, None, now, false);
      var cs := if touch.Succeeds? then Touch(s.conversations, conversationId, now) else s.conversations;
      Sent(MessageState(cs, s.messages + [m]), Ok(m))
  }

  /** The conversation is between `a` and `b`, in either order. */
  predicate IsPair(c: Conversation, a: Id, b: Id) {
    (c.participant1 == a && c.participant2 == b) || (c.participant1 == b && c.participant2 == a)
  }

  /** No two conversations are for the same unordered pair. */
  ghost predicate OnePerPair(cs: seq<Conversation>) {
    forall i, j :: 0 <= i < j < |cs| ==> !IsPair(cs[j], cs[i].participant1, cs[i].participant2)
  }

  function PairRows(cs: seq<Conversation>, a: Id, b: Id): (r: seq<Conversation>)
    ensures forall c :: c in r <==> c in cs && IsPair(c, a, b)
  {
    Filter(cs, (c: Conversation) => IsPair(c, a, b))
  }

  /** `createConversation(participantId)`: the pair's conversation if the lookup
      finds exactly one, otherwise a new one with the user as participant 1. */
  function Create(s: MessageState, user: Option<Id>, participantId: Id, newId: Id, now: Timestamp,
                  lookup: Step, insert: Step): (r: Created)
    ensures user.None? ==> r == Created(s, Err(NotAuthenticated))
    ensures user.Some? && lookup.Succeeds? && |PairRows(s.conversations, user.value, participantId)| == 1 ==>
      r == Created(s, Ok(PairRows(s.conversations, user.value, participantId)[0]))
    ensures user.Some? && (lookup.FailsWith? || |PairRows(s.conversations, user.value, participantId)| != 1) ==>
      r == if insert.FailsWith? then Created(s, Err(insert.message))
           else Created(s.(conversations := s.conversations + [Conversation(newId, user.value, participantId, now, None)]),
                        Ok(Conversation(newId, user.value, participantId, now, None)))
    ensures r.after.messages == s.messages
    ensures r.result.Ok? ==> user.Some? && IsPair(r.result.value, user.value, participantId)
  {
    if user.None? then Created(s, Err(NotAuthenticated))
    else
      var me := user.value;
      var existing := if lookup.Succeeds? then Single(PairRows(s.conversations, me, participantId)) else None;
      if existing.Some? then Created(s, Ok(existing.value))
      else if insert.FailsWith? then Created(s, Err(insert.message))
      else
        var c := Conversation(newId, me, participantId, now, None);
        Created(s.(conversations := s.conversations + [c]), Ok(c))
  }

  lemma {:induction false} PairRowsNone(cs: seq<Conversation>, a: Id, b: Id)
    requires forall c :: c in cs ==> !IsPair(c, a, b)
    ensures PairRows(cs, a, b) == []
  {
    if cs != [] {
      assert cs[0] in cs;
      PairRowsNone(cs[1..], a, b);
    }
  }

  /** Under "one conversation per pair", at most one row matches a pair. */
  lemma {:induction false} PairRowsAtMostOne(cs: seq<Conversation>, a: Id, b: Id)
    requires OnePerPair(cs)
    ensures |PairRows(cs, a, b)| <= 1
  {
    if cs != [] {
      var rest := cs[1..];
      assert OnePerPair(rest) by {
        forall i, j | 0 <= i < j < |rest| ensures !IsPair(rest[j], rest[i].participant1, rest[i].participant2) {
          assert rest[i] == cs[i + 1] && rest[j] == cs[j + 1];
        }
      }
      PairRowsAtMostOne(rest, a, b);
      assert cs == [cs[0]] + rest;
      if IsPair(cs[0], a, b) {
        forall c | c in rest ensures !IsPair(c, a, b) {
          var j :| 0 <= j < |rest| && rest[j] == c;
          assert cs[j + 1] == c;
          assert !IsPair(cs[j + 1], cs[0].participant1, cs[0].participant2);
        }
        PairRowsNone(rest, a, b);
        assert PairRows(cs, a, b) == [cs[0]] + PairRows(rest, a, b);
      } else {
        assert PairRows(cs, a, b) == PairRows(rest, a, b);
      }
    }
  }

  /** When the lookup succeeds, an existing conversation of the pair, stored in
      either order, is returned and nothing is inserted; and "one conversation
      per pair" is kept. */
  lemma CreateFindsExisting(s: MessageState, me: Id, participantId: Id, newId: Id, now: Timestamp,
                            lookup: Step, insert: Step)
    requires OnePerPair(s.conversations) && lookup.Succeeds?
    ensures var r := Create(s, Some(me), participantId, newId, now, lookup, insert);
      OnePerPair(r.after.conversations)
      && (forall c :: c in s.conversations && IsPair(c, me, participantId) ==> r == Created(s, Ok(c)))
  {
    var cs := s.conversations;
    var rows := PairRows(cs, me, participantId);
    PairRowsAtMostOne(cs, me, participantId);
    if rows == [] {
      var r := Create(s, Some(me), participantId, newId, now, lookup, insert);
      if r.after != s {
        var c := r.result.value;
        var cs' := r.after.conversations;
        forall i, j | 0 <= i < j < |cs'| ensures !IsPair(cs'[j], cs'[i].participant1, cs'[i].participant2) {
          if j == |cs| {
            assert cs'[i] == cs[i] && cs[i] !in rows;
          } else {
            assert cs'[i] == cs[i] && cs'[j] == cs[j];
          }
        }
      }
    } else {
      assert |rows| == 1;
      forall c | c in cs && IsPair(c, me, participantId)
        ensures Create(s, Some(me), participantId, newId, now, lookup, insert) == Created(s, Ok(c))
      {
        assert c in rows;
      }
    }
  }

  /** The service's tables. */
  class MessageTables {
    var conversations: seq<Conversation>
    var messages: seq<Message>

    function State(): MessageState
      reads this
    {
      MessageState(conversations, messages)
    }

    constructor (conversations: seq<Conversation>, messages: seq<Message>)
      ensures State() == MessageState(conversations, messages)
    {
      this.conversations := conversations;
      this.messages := messages;
    }

    /** `sendMessage(conversationId, content, type = 'text', mediaUrl)`. */
    method SendMessage(user: Option<Id>, conversationId: Id, content: string, newId: Id, now: Timestamp,
                       insert: Step, touch: Step, msgType: string := "text", mediaUrl: Option<string> := None)
      returns (r: Result<Message>)
      modifies this
      ensures State() == Send(old(State()), user, conversationId, content, newId, now, insert, touch, msgType, mediaUrl).after
      ensures r == Send(old(State()), user, conversationId, content, newId, now, insert, touch, msgType, mediaUrl).result
    {
      if user.None? {
        return Err(NotAuthenticated);
      }
      if insert.FailsWith? {
        return Err(insert.message);
      }
      var m := Message(newId, conversationId, user.value, Some(content), Some(msgType), mediaUrl, None, now, false);
      messages := messages + [m];
      if touch.Succeeds? {
        conversations := Touch(conversations, conversationId, now);
      }
      r := Ok(m);
    }

    /** `createConversation(participantId)`. */
    method CreateConversation(user: Option<Id>, participantId: Id, newId: Id, now: Timestamp,
                              lookup: Step, insert: Step) returns (r: Result<Conversation>)
      modifies this
      ensures State() == Create(old(State()), user, participantId, newId, now, lookup, insert).after
      ensures r == Create(old(State()), user, participantId, newId, now, lookup, insert).result
    {
      if user.None? {
        return Err(NotAuthenticated);
      }
      var existing := None;
      if lookup.Succeeds? {
        existing := Single(PairRows(conversations, user.value, participantId));
      }
      if existing.Some? {
        return Ok(existing.value);
      }
      if insert.FailsWith? {
        return Err(insert.message);
      }
      var c := Conversation(newId, user.value, participantId, now, None);
      conversations := conversations + [c];
      r := Ok(c);
    }
  }
}
