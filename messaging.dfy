/** Client-freelancer messaging: conversations holding ordered messages with
    read flags, the store behind `start_conversation`, the conversation detail
    view (which marks messages read), `send_message` and
    `unread_messages_count`, and the serializers' `last_message` and
    `unread_count`. The store keeps a logical clock that stands for
    `auto_now_add` / `auto_now`: every write happens at a later instant. */
module Messaging {
  import opened Common
  import opened Accounts
  import opened Sorting

  datatype Message = Message(id: nat, sender: nat, content: string, isRead: bool, createdAt: int)

  /** A conversation between one client and one freelancer, optionally about a project. */
  datatype Conversation = Conversation(
    id: nat, client: nat, freelancer: nat, project: Option<nat>,
    createdAt: int, updatedAt: int, messages: seq<Message>)

  predicate Participant(c: Conversation, user: nat) {
    c.client == user || c.freelancer == user
  }

  /** The message is one `user` still has to read. */
  predicate UnreadBy(m: Message, user: nat) {
    !m.isRead && m.sender != user
  }

  /** `get_unread_count` with a request user: unread messages the user did not send. */
  function UnreadCount(msgs: seq<Message>, user: nat): (n: nat)
    ensures n <= |msgs|
    ensures n == 0 <==> forall i :: 0 <= i < |msgs| ==> !UnreadBy(msgs[i], user)
  {
    if msgs == [] then 0
    else (if UnreadBy(msgs[0], user) then 1 else 0) + UnreadCount(msgs[1..], user)
  }

  lemma {:induction false} UnreadCountAppend(msgs: seq<Message>, m: Message, user: nat)
    ensures UnreadCount(msgs + [m], user) == UnreadCount(msgs, user) + (if UnreadBy(m, user) then 1 else 0)
  {
    if msgs != [] {
      assert (msgs + [m])[1..] == msgs[1..] + [m];
      UnreadCountAppend(msgs[1..], m, user);
    }
  }

  /** `get_unread_count` as the serializer computes it: 0 without a request user. */
  function SerializedUnreadCount(c: Conversation, requestUser: Option<nat>): (n: nat)
    ensures requestUser.None? ==> n == 0
    ensures requestUser.Some? ==> n == UnreadCount(c.messages, requestUser.value)
  {
    match requestUser
    case None => 0
    case Some(u) => UnreadCount(c.messages, u)
  }

  /** Messages are kept in strictly increasing creation order. */
  predicate StrictlyOrdered(msgs: seq<Message>) {
    forall i, j :: 0 <= i < j < |msgs| ==> msgs[i].createdAt < msgs[j].createdAt
  }

  /** `messages.last()` under the `created_at` ordering. */
  function LastMessage(msgs: seq<Message>): (r: Option<Message>)
    ensures r.None? <==> msgs == []
    ensures r.Some? ==> r.value in msgs
  {
    if msgs == [] then None else Some(msgs[|msgs| - 1])
  }

  /** In an ordered conversation the last message is the newest one. */
  lemma LastMessageIsNewest(msgs: seq<Message>, m: Message)
    requires StrictlyOrdered(msgs) && m in msgs
    ensures LastMessage(msgs).Some?
    ensures m == LastMessage(msgs).value || m.createdAt < LastMessage(msgs).value.createdAt
  {
    var i :| 0 <= i < |msgs| && msgs[i] == m;
    if i < |msgs| - 1 {
      assert msgs[i].createdAt < msgs[|msgs| - 1].createdAt;
    }
  }

  /** What the list serializer shows of the last message. */
  datatype MessageSummary = MessageSummary(content: string, senderEmail: string, createdAt: int)

  function LastMessageSummary(msgs: seq<Message>, emailOf: nat -> string): (r: Option<MessageSummary>)
    ensures r.None? <==> msgs == []
    ensures r.Some? ==> var m := LastMessage(msgs).value;
      r.value.content == m.content && r.value.senderEmail == emailOf(m.sender) && r.value.createdAt == m.createdAt
  {
    match LastMessage(msgs)
    case None => None
    case Some(m) => Some(MessageSummary(m.content, emailOf(m.sender), m.createdAt))
  }

  /** The bulk update of the detail view: every unread message not sent by
      `reader` becomes read. */
  function MarkRead(msgs: seq<Message>, reader: nat): (r: seq<Message>)
    ensures |r| == |msgs|
    ensures forall i :: 0 <= i < |msgs| ==>
      r[i] == (if msgs[i].sender != reader then msgs[i].(isRead := true) else msgs[i])
  {
    if msgs == [] then []
    else [if msgs[0].sender != reader then msgs[0].(isRead := true) else msgs[0]] + MarkRead(msgs[1..], reader)
  }

  /** After marking, the reader has nothing unread, and what others have unread is unchanged. */
  lemma {:induction false} MarkReadEffect(msgs: seq<Message>, reader: nat, other: nat)
    requires other != reader
    ensures UnreadCount(MarkRead(msgs, reader), reader) == 0
    ensures UnreadCount(MarkRead(msgs, reader), other) == Count(msgs, (m: Message) => !m.isRead && m.sender == reader)
  {
    if msgs != [] {
      MarkReadEffect(msgs[1..], reader, other);
      assert MarkRead(msgs, reader)[1..] == MarkRead(msgs[1..], reader);
    }
  }

  /** `MarkRead` keeps ids, senders, contents and creation times. */
  lemma MarkReadKeepsOrder(msgs: seq<Message>, reader: nat)
    requires StrictlyOrdered(msgs)
    ensures StrictlyOrdered(MarkRead(msgs, reader))
  {
  }

  /** The conversations the user takes part in, most recently updated first. */
  function ConversationsOf(convs: seq<Conversation>, user: nat): (r: seq<Conversation>)
    ensures forall c :: c in r <==> c in convs && Participant(c, user)
    ensures SortedDesc(r, UpdatedKey)
  {
    SelectSorted(convs, (c: Conversation) => Participant(c, user), UpdatedKey)
  }

  function UpdatedKey(c: Conversation): Rank { Rank(c.updatedAt as real, 0.0, 0.0) }

  /** `unread_messages_count`: unread messages not sent by the user, over the
      conversations the user takes part in. */
  function UnreadTotal(convs: seq<Conversation>, user: nat): nat {
    if convs == [] then 0
    else
      var here := if Participant(convs[0], user) then UnreadCount(convs[0].messages, user) else 0;
      here + UnreadTotal(convs[1..], user)
  }

  /** Replacing one conversation changes the total by the change in that conversation alone. */
  lemma {:induction false} UnreadTotalUpdate(convs: seq<Conversation>, k: nat, c: Conversation, user: nat)
    requires k < |convs| && Participant(c, user) == Participant(convs[k], user)
    ensures UnreadTotal(convs[k := c], user) + (if Participant(c, user) then UnreadCount(convs[k].messages, user) else 0)
         == UnreadTotal(convs, user) + (if Participant(c, user) then UnreadCount(c.messages, user) else 0)
  {
    if k > 0 {
      UnreadTotalUpdate(convs[1..], k - 1, c, user);
      assert convs[k := c][1..] == convs[1..][k - 1 := c];
    } else {
      assert convs[k := c][1..] == convs[1..];
    }
  }

  lemma {:induction false} UnreadTotalAppend(convs: seq<Conversation>, c: Conversation, user: nat)
    ensures UnreadTotal(convs + [c], user) == UnreadTotal(convs, user) + (if Participant(c, user) then UnreadCount(c.messages, user) else 0)
  {
    if convs != [] {
      assert (convs + [c])[1..] == convs[1..] + [c];
      UnreadTotalAppend(convs[1..], c, user);
    }
  }

  /** Position of the conversation with the given id. */
  function ConversationIndex(convs: seq<Conversation>, id: nat): (r: Option<nat>)
    ensures r.Some? ==> r.value < |convs| && convs[r.value].id == id
    ensures r.None? ==> forall i :: 0 <= i < |convs| ==> convs[i].id != id
  {
    if convs == [] then None
    else if convs[0].id == id then Some(0)
    else match ConversationIndex(convs[1..], id)
      case None => None
      case Some(k) => Some(k + 1)
  }

  /** Position of the conversation with the given (client, freelancer, project). */
  function TripleIndex(convs: seq<Conversation>, client: nat, freelancer: nat, project: Option<nat>): (r: Option<nat>)
    ensures r.Some? ==> (r.value < |convs| && convs[r.value].client == client
      && convs[r.value].freelancer == freelancer && convs[r.value].project == project)
    ensures r.None? ==> forall i :: 0 <= i < |convs| ==>
      (convs[i].client, convs[i].freelancer, convs[i].project) != (client, freelancer, project)
  {
    if convs == [] then None
    else if convs[0].client == client && convs[0].freelancer == freelancer && convs[0].project == project then Some(0)
    else match TripleIndex(convs[1..], client, freelancer, project)
      case None => None
      case Some(k) => Some(k + 1)
  }

  /** The project a `project_id` names; a falsy one (missing or 0) names none. */
  function RequestedProject(projectId: Option<int>): (r: Option<int>)
    ensures r.Some? <==> projectId.Some? && projectId.value != 0
    ensures r.Some? ==> r == projectId
  {
    if projectId.None? || projectId.value == 0 then None else projectId
  }

  /** The (client, freelancer) pair a conversation between the requester and the
      other user would have, if their roles allow one. */
  function Pairing(requester: User, otherRole: Role, otherId: nat): (r: Option<(nat, nat)>)
    ensures r.Some? <==> (requester.role == Client && otherRole == Freelancer) || (requester.role == Freelancer && otherRole == Client)
    ensures r.Some? && requester.role == Client ==> r.value == (requester.id, otherId)
    ensures r.Some? && requester.role == Freelancer ==> r.value == (otherId, requester.id)
  {
    if requester.role == Client && otherRole == Freelancer then Some((requester.id, otherId))
    else if requester.role == Freelancer && otherRole == Client then Some((otherId, requester.id))
    else None
  }

  /** Unique ids below `nextId`, one conversation per (client, freelancer,
      project), messages in creation order, and nothing stamped at or after `clock`. */
  ghost predicate ConversationsValid(convs: seq<Conversation>, nextId: nat, clock: int) {
    && (forall i, j :: 0 <= i < j < |convs| ==> convs[i].id != convs[j].id)
    && (forall i, j :: 0 <= i < j < |convs| ==>
          (convs[i].client, convs[i].freelancer, convs[i].project)
          != (convs[j].client, convs[j].freelancer, convs[j].project))
    && (forall i :: 0 <= i < |convs| ==> convs[i].id < nextId)
    && (forall i :: 0 <= i < |convs| ==> StrictlyOrdered(convs[i].messages))
    && (forall i, m :: 0 <= i < |convs| && m in convs[i].messages ==> m.createdAt < clock)
  }

  /** Replacing a conversation by one with the same identity and well-ordered,
      earlier messages keeps the store valid. */
  lemma ReplaceKeepsValid(convs: seq<Conversation>, nextId: nat, clock: int, clock': int, k: nat, c: Conversation)
    requires ConversationsValid(convs, nextId, clock) && k < |convs| && clock <= clock'
    requires c.id == convs[k].id && c.client == convs[k].client
    requires c.freelancer == convs[k].freelancer && c.project == convs[k].project
    requires StrictlyOrdered(c.messages)
    requires forall m :: m in c.messages ==> m.createdAt < clock'
    ensures ConversationsValid(convs[k := c], nextId, clock')
  {
    var after := convs[k := c];
    forall i, m | 0 <= i < |after| && m in after[i].messages ensures m.createdAt < clock' {
      if i != k {
        assert after[i] == convs[i];
      }
    }
  }

  /** Marking one conversation's messages read keeps the store well formed and
      leaves the reader nothing unread there. */
  lemma MarkReadKeepsValid(convs: seq<Conversation>, nextId: nat, clock: int, k: nat, reader: nat)
    requires ConversationsValid(convs, nextId, clock) && k < |convs|
    ensures ConversationsValid(convs[k := convs[k].(messages := MarkRead(convs[k].messages, reader))], nextId, clock)
    ensures UnreadCount(MarkRead(convs[k].messages, reader), reader) == 0
  {
    var c := convs[k];
    assert StrictlyOrdered(c.messages);
    assert forall m :: m in c.messages ==> m.createdAt < clock;
    MarkReadKeepsOrder(c.messages, reader);
    MarkReadKeepsTimes(c.messages, reader, clock);
    ReplaceKeepsValid(convs, nextId, clock, clock, k, c.(messages := MarkRead(c.messages, reader)));
    MarkReadEffect(c.messages, reader, reader + 1);
  }

  /** Marked messages keep their creation times, so they stay before the clock. */
  lemma MarkReadKeepsTimes(msgs: seq<Message>, reader: nat, clock: int)
    requires forall m :: m in msgs ==> m.createdAt < clock
    ensures forall m :: m in MarkRead(msgs, reader) ==> m.createdAt < clock
  {
    forall m | m in MarkRead(msgs, reader) ensures m.createdAt < clock {
      var j :| 0 <= j < |msgs| && MarkRead(msgs, reader)[j] == m;
      assert msgs[j] in msgs;
    }
  }

  /** A new, empty conversation with the next id and a triple not yet in use
      keeps the store well formed once the id counter and the clock move on. */
  lemma AppendKeepsValid(convs: seq<Conversation>, nextId: nat, clock: int, c: Conversation)
    requires ConversationsValid(convs, nextId, clock)
    requires TripleIndex(convs, c.client, c.freelancer, c.project).None?
    requires c.id == nextId && c.messages == []
    ensures ConversationsValid(convs + [c], nextId + 1, clock + 1)
  {
    var after := convs + [c];
    forall i, m | 0 <= i < |after| && m in after[i].messages ensures m.createdAt < clock + 1 {
      assert i < |convs| && after[i] == convs[i];
    }
  }

  /** The view the detail endpoint returns. The message list comes from the
      prefetch made before the read flags were updated; `last_message` and
      `unread_count` are queried afresh. */
  datatype DetailView = DetailView(messages: seq<Message>, lastMessage: Option<Message>, unreadCount: nat)

  class MessageStore {
    var users: map<nat, Role>
    var conversations: seq<Conversation>
    var nextConversationId: nat
    var nextMessageId: nat
    var clock: int

    ghost predicate Valid()
      reads this
    {
      ConversationsValid(conversations, nextConversationId, clock)
    }

    constructor (users: map<nat, Role>, start: int)
      ensures Valid()
      ensures this.users == users && conversations == [] && clock == start
    {
      this.users := users;
      conversations := [];
      nextConversationId := 1;
      nextMessageId := 1;
      clock := start;
    }

    /** `start_conversation`: 400 without a (truthy) `user_id`, 404 for an unknown
        user, 400 unless one side is a client and the other a freelancer. An
        existing conversation for the triple is returned with 200; otherwise one is
        created with 201. A falsy `project_id` means no project; a project id the
        database does not know makes the insert fail (500). */
    method StartConversation(requester: User, userId: Option<int>, projectId: Option<int>, knownProjects: set<nat>)
      returns (status: nat, conv: Option<Conversation>)
      requires Valid()
      modifies this
      ensures Valid()
      ensures users == old(users)
      ensures (userId.None? || userId == Some(0)) ==> status == 400
      ensures userId.Some? && userId.value != 0 && (userId.value < 0 || userId.value as nat !in users) ==> status == 404
      ensures status in {200, 201} ==> (userId.Some? && userId.value > 0 && userId.value as nat in users
        && Pairing(requester, users[userId.value as nat], userId.value as nat).Some?)
      ensures status == 200 ==> (conv.Some? && conv.value in old(conversations) && Participant(conv.value, requester.id)
        && conversations == old(conversations) && clock == old(clock))
      ensures status == 201 ==> (conv.Some? && conversations == old(conversations) + [conv.value]
        && conv.value.messages == [] && Participant(conv.value, requester.id)
        && conv.value.id == old(nextConversationId) && conv.value.createdAt == old(clock))
      ensures status != 201 ==> conversations == old(conversations)
      ensures userId.Some? && userId.value > 0 && userId.value as nat in users ==>
        var pair := Pairing(requester, users[userId.value as nat], userId.value as nat);
        var project := RequestedProject(projectId);
        && (pair.None? ==> status == 400)
        && (pair.Some? && project.Some? && project.value < 0 ==> status == 500)
        && (pair.Some? && (project.None? || project.value >= 0) ==>
              var key := if project.None? then None else Some(project.value as nat);
              var k := TripleIndex(old(conversations), pair.value.0, pair.value.1, key);
              && (k.Some? ==> status == 200 && conv == Some(old(conversations)[k.value]))
              && (k.None? ==> status == (if key.None? || key.value in knownProjects then 201 else 500))
              && (status == 201 ==> conv.value.client == pair.value.0 && conv.value.freelancer == pair.value.1))
      ensures status == 201 ==> nextConversationId == old(nextConversationId) + 1 && clock == old(clock) + 1
      ensures status != 201 ==> nextConversationId == old(nextConversationId) && clock == old(clock)
      ensures nextMessageId == old(nextMessageId)
      ensures status in {200, 201} ==> (projectId.None? || projectId == Some(0) ==> conv.value.project == None)
      ensures status in {200, 201} ==> (projectId.Some? && projectId.value != 0 ==> projectId.value > 0 && conv.value.project == Some(projectId.value as nat))
    {
      conv := None;
      if userId.None? || userId.value == 0 {
        return 400, None;
      }
      if userId.value < 0 || userId.value as nat !in users {
        return 404, None;
      }
      var other := userId.value as nat;
      var pair := Pairing(requester, users[other], other);
      if pair.None? {
        return 400, None;
      }
      var project: Option<nat> := None;
      if projectId.Some? && projectId.value != 0 {
        if projectId.value < 0 {
          return 500, None;
        }
        project := Some(projectId.value as nat);
      }
      var convs, id, now := conversations, nextConversationId, clock;
      var existing := TripleIndex(convs, pair.value.0, pair.value.1, project);
      if existing.Some? {
        return 200, Some(convs[existing.value]);
      }
      if project.Some? && project.value !in knownProjects {
        return 500, None;
      }
      var c := Conversation(id, pair.value.0, pair.value.1, project, now, now, []);
      AppendKeepsValid(convs, id, now, c);
      conv := Some(c);
      status := 201;
      conversations, nextConversationId, clock := convs + [c], id + 1, now + 1;
    }

    /** The conversation detail view: 404 unless the conversation exists and the
        requester takes part in it; otherwise every unread message in it not sent
        by the requester is marked read, and nothing else changes. */
    method Retrieve(requester: nat, id: nat) returns (status: nat, view: Option<DetailView>)
      requires Valid()
      modifies this
      ensures Valid()
      ensures var k := ConversationIndex(old(conversations), id);
        status == (if k.Some? && Participant(old(conversations)[k.value], requester) then 200 else 404)
      ensures status == 404 ==> conversations == old(conversations) && view.None?
      ensures status == 200 ==> var k := ConversationIndex(old(conversations), id).value;
        var c := old(conversations)[k];
        && conversations == old(conversations)[k := c.(messages := MarkRead(c.messages, requester))]
        && view == Some(DetailView(c.messages, LastMessage(MarkRead(c.messages, requester)), 0))
      ensures users == old(users) && clock == old(clock)
      ensures nextConversationId == old(nextConversationId) && nextMessageId == old(nextMessageId)
    {
      var convs := conversations;
      var k := ConversationIndex(convs, id);
      if k.None? || !Participant(convs[k.value], requester) {
        return 404, None;
      }
      var c := convs[k.value];
      var marked := MarkRead(c.messages, requester);
      MarkReadKeepsValid(convs, nextConversationId, clock, k.value, requester);
      status := 200;
      view := Some(DetailView(c.messages, LastMessage(marked), UnreadCount(marked, requester)));
      conversations := convs[k.value := c.(messages := marked)];
    }

    /** `send_message`: an admin's role names no conversation field, which the ORM
        rejects (500); 404 unless the conversation exists with the requester in the
        slot of their role; 400 for missing or empty content. Otherwise one unread
        message by the requester is appended and the conversation's `updated_at`
        is refreshed (201). */
    method SendMessage(requester: User, id: nat, content: Option<string>) returns (status: nat, sent: Option<Message>)
      requires Valid()
      modifies this
      ensures Valid()
      ensures var k := ConversationIndex(old(conversations), id);
        status == (if requester.role == Admin then 500
                   else if k.None? then 404
                   else if requester.role == Client && old(conversations)[k.value].client != requester.id then 404
                   else if requester.role == Freelancer && old(conversations)[k.value].freelancer != requester.id then 404
                   else if content.None? || content.value == "" then 400
                   else 201)
      ensures status != 201 ==> conversations == old(conversations) && sent.None? && clock == old(clock)
      ensures status == 201 ==> var k := ConversationIndex(old(conversations), id).value;
        var c := old(conversations)[k];
        var m := Message(old(nextMessageId), requester.id, content.value, false, old(clock));
        && sent == Some(m)
        && conversations == old(conversations)[k := c.(messages := c.messages + [m], updatedAt := old(clock))]
        && clock == old(clock) + 1 && nextMessageId == old(nextMessageId) + 1
      ensures users == old(users) && nextConversationId == old(nextConversationId)
    {
      if requester.role == Admin {
        return 500, None;
      }
      var k := ConversationIndex(conversations, id);
      if k.None? {
        return 404, None;
      }
      var c := conversations[k.value];
      if (requester.role == Client && c.client != requester.id) || (requester.role == Freelancer && c.freelancer != requester.id) {
        return 404, None;
      }
      if content.None? || content.value == "" {
        return 400, None;
      }
      var m := Message(nextMessageId, requester.id, content.value, false, clock);
      ghost var c' := c.(messages := c.messages + [m], updatedAt := clock);
      assert StrictlyOrdered(c'.messages) by {
        forall x | x in c.messages ensures x.createdAt < clock {
          assert c in conversations;
        }
      }
      ReplaceKeepsValid(conversations, nextConversationId, clock, clock + 1, k.value, c');
      conversations := conversations[k.value := c.(messages := c.messages + [m], updatedAt := clock)];
      clock := clock + 1;
      nextMessageId := nextMessageId + 1;
      status := 201;
      sent := Some(m);
    }

    /** `unread_messages_count` for the user. */
    function Unread(user: nat): nat
      reads this
    {
      UnreadTotal(conversations, user)
    }
  }

  /** A sent message adds one to the other participant's unread total and nothing to the sender's. */
  lemma SendRaisesOtherUnread(convs: seq<Conversation>, k: nat, m: Message, time: int, other: nat)
    requires k < |convs| && Participant(convs[k], other) && Participant(convs[k], m.sender)
    requires other != m.sender && !m.isRead
    ensures var c := convs[k];
      var after := convs[k := c.(messages := c.messages + [m], updatedAt := time)];
      UnreadTotal(after, other) == UnreadTotal(convs, other) + 1
      && UnreadTotal(after, m.sender) == UnreadTotal(convs, m.sender)
  {
    var c := convs[k];
    var c' := c.(messages := c.messages + [m], updatedAt := time);
    UnreadCountAppend(c.messages, m, other);
    UnreadCountAppend(c.messages, m, m.sender);
    UnreadTotalUpdate(convs, k, c', other);
    UnreadTotalUpdate(convs, k, c', m.sender);
  }

  /** Opening a conversation takes its unread messages off the reader's total. */
  lemma RetrieveClearsUnread(convs: seq<Conversation>, k: nat, reader: nat)
    requires k < |convs| && Participant(convs[k], reader)
    ensures var c := convs[k];
      var after := convs[k := c.(messages := MarkRead(c.messages, reader))];
      UnreadTotal(after, reader) + UnreadCount(c.messages, reader) == UnreadTotal(convs, reader)
      && UnreadCount(after[k].messages, reader) == 0
  {
    var c := convs[k];
    MarkReadEffect(c.messages, reader, reader + 1);
    UnreadTotalUpdate(convs, k, c.(messages := MarkRead(c.messages, reader)), reader);
  }
}
