/** The two messaging screens of the frontend: the full messaging component
    and the simpler messaging page. Both list the user's conversations, show
    the other participant of each, search them, load one conversation's
    messages and send a message; the full component also polls the list,
    refreshes the open conversation from it and toasts its failures. */
module ChatUi {
  import opened Common
  import opened Text

  /** A participant as the conversation API sends it. */
  datatype Person = Person(id: nat, email: string, firstName: string, lastName: string, role: string)

  datatype ChatMessage = ChatMessage(id: nat, content: string, sender: Person)

  /** A conversation as listed or retrieved; `messages` is None when the
      payload has none. */
  datatype ConversationRow = ConversationRow(id: nat, client: Person, freelancer: Person, messages: Option<seq<ChatMessage>>)

  /** `getOtherUser`: the freelancer for a client viewer, the client for anyone
      else (a missing viewer included). */
  function OtherUser(viewerRole: Option<string>, c: ConversationRow): (p: Person)
    ensures viewerRole == Some("client") ==> p == c.freelancer
    ensures viewerRole != Some("client") ==> p == c.client
  {
    if viewerRole == Some("client") then c.freelancer else c.client
  }

  // ---------------------------------------------------------------------------
  // Search
  // ---------------------------------------------------------------------------

  /** The search test: the lowered term occurs in the other participant's
      lowered "first last" name or lowered e-mail. `lower` is `toLowerCase`. */
  predicate MatchesSearch(viewerRole: Option<string>, term: string, lower: string -> string, c: ConversationRow) {
    var other := OtherUser(viewerRole, c);
    Includes(lower(other.firstName + " " + other.lastName), lower(term)) || Includes(lower(other.email), lower(term))
  }

  /** `filteredConversations`. */
  function FilteredConversations(cs: seq<ConversationRow>, viewerRole: Option<string>, term: string,
                                 lower: string -> string): (r: seq<ConversationRow>)
    ensures forall c :: c in r <==> c in cs && MatchesSearch(viewerRole, term, lower, c)
    ensures multiset(r) <= multiset(cs)
  {
    FilterMembershipAll(cs, c => MatchesSearch(viewerRole, term, lower, c));
    Filter(cs, c => MatchesSearch(viewerRole, term, lower, c))
  }

  /** The search keeps conversations in their listed order. */
  lemma FilterKeepsOrder(a: seq<ConversationRow>, b: seq<ConversationRow>, viewerRole: Option<string>, term: string,
                         lower: string -> string)
    ensures FilteredConversations(a + b, viewerRole, term, lower) ==
      FilteredConversations(a, viewerRole, term, lower) + FilteredConversations(b, viewerRole, term, lower)
  {
    FilterAppend(a, b, c => MatchesSearch(viewerRole, term, lower, c));
  }

  /** An empty search term keeps every conversation. */
  lemma EmptySearchKeepsAll(cs: seq<ConversationRow>, viewerRole: Option<string>, lower: string -> string)
    requires lower("") == ""
    ensures FilteredConversations(cs, viewerRole, "", lower) == cs
  {
    forall i | 0 <= i < |cs| ensures MatchesSearch(viewerRole, "", lower, cs[i]) {
      IncludesEmpty(lower(OtherUser(viewerRole, cs[i]).email));
    }
    FilterAllPass(cs, c => MatchesSearch(viewerRole, "", lower, c));
  }

  // ---------------------------------------------------------------------------
  // Message list
  // ---------------------------------------------------------------------------

  /** The sender's avatar marks the first message and every change of sender. */
  predicate ShowAvatar(ms: seq<ChatMessage>, i: nat)
    requires i < |ms|
  {
    i == 0 || ms[i - 1].sender.id != ms[i].sender.id
  }

  /** Appending a message leaves the earlier avatars alone and shows one for
      the new message exactly when its sender differs from the last one. */
  lemma AvatarAfterAppend(ms: seq<ChatMessage>, m: ChatMessage)
    ensures forall i :: 0 <= i < |ms| ==> ShowAvatar(ms + [m], i) == ShowAvatar(ms, i)
    ensures ShowAvatar(ms + [m], |ms|) <==> ms == [] || ms[|ms| - 1].sender.id != m.sender.id
  {
  }

  /** `conversations.find(c => c.id === id)`. */
  function FindById(cs: seq<ConversationRow>, id: nat): (r: Option<ConversationRow>)
    ensures r.None? <==> forall i :: 0 <= i < |cs| ==> cs[i].id != id
    ensures r.Some? ==> exists i :: (
      && 0 <= i < |cs| && cs[i] == r.value && r.value.id == id
      && forall j :: 0 <= j < i ==> cs[j].id != id)
  {
    if cs == [] then None
    else if cs[0].id == id then Some(cs[0])
    else
      var r := FindById(cs[1..], id);
      if r.Some? then
        var i :| 0 <= i < |cs[1..]| && cs[1..][i] == r.value && r.value.id == id
          && forall j :: 0 <= j < i ==> cs[1..][j].id != id;
        assert cs[i + 1] == r.value;
        r
      else r
  }

  /** What the conversation list call produced: a list, data that is not an
      array, an API error, or an exception. */
  datatype ListReply = Listed(items: seq<ConversationRow>) | NotAList | ApiError(error: string) | Thrown

  /** `sendMessage`'s guard: text that is not blank, a conversation open, no
      send in flight. */
  predicate CanSend(text: string, selected: Option<ConversationRow>, sending: bool) {
    !IsBlank(text) && selected.Some? && !sending
  }

  class Chat {
    /** Whether this is the full component (search applied to the list,
        polling refresh of the open conversation, failure toasts) or the simple
        page. */
    const enhanced: bool
    var conversations: seq<ConversationRow>
    var selected: Option<ConversationRow>
    var messages: seq<ChatMessage>
    var newMessage: string
    var searchTerm: string
    var loading: bool
    var sending: bool

    constructor (enhanced: bool)
      ensures this.enhanced == enhanced
      ensures conversations == [] && selected.None? && messages == [] && newMessage == "" && searchTerm == ""
      ensures loading && !sending
    {
      this.enhanced := enhanced;
      conversations, selected, messages := [], None, [];
      newMessage, searchTerm := "", "";
      loading, sending := true, false;
    }

    /** `fetchConversations`. A list replaces the conversations; in the full
        component it also replaces the messages with those of the listed
        conversation whose id is `selectedSeen` (the open conversation as the
        calling render saw it), when that one carries messages. Anything else
        empties the list. Loading ends either way. */
    method FetchConversations(reply: ListReply, selectedSeen: Option<nat>)
      modifies this
      ensures reply.Listed? ==> conversations == reply.items
      ensures !reply.Listed? ==> conversations == []
      ensures (reply.Listed? && enhanced && selectedSeen.Some?
               && FindById(reply.items, selectedSeen.value).Some?
               && FindById(reply.items, selectedSeen.value).value.messages.Some?) ==>
        messages == FindById(reply.items, selectedSeen.value).value.messages.value
      ensures !(reply.Listed? && enhanced && selectedSeen.Some?
               && FindById(reply.items, selectedSeen.value).Some?
               && FindById(reply.items, selectedSeen.value).value.messages.Some?) ==>
        messages == old(messages)
      ensures !loading && sending == old(sending) && selected == old(selected)
      ensures newMessage == old(newMessage) && searchTerm == old(searchTerm)
    {
      match reply {
        case Listed(items) =>
          conversations := items;
          if enhanced && selectedSeen.Some? {
            var found := FindById(items, selectedSeen.value);
            if found.Some? && found.value.messages.Some? {
              messages := found.value.messages.value;
            }
          }
        case NotAList =>
          conversations := [];
        case ApiError(_) =>
          conversations := [];
        case Thrown =>
          conversations := [];
      }
      loading := false;
    }

    /** `fetchConversationMessages`: a retrieved conversation becomes the open
        one and its messages (or none) the list; an error changes nothing, and
        an exception also raises a toast in the full component. */
    method OpenConversation(reply: Reply<ConversationRow>) returns (failureToast: bool)
      modifies this
      ensures reply.Reply? && reply.data.Some? ==>
        selected == reply.data && messages == (if reply.data.value.messages.Some? then reply.data.value.messages.value else [])
      ensures !(reply.Reply? && reply.data.Some?) ==> selected == old(selected) && messages == old(messages)
      ensures failureToast <==> enhanced && reply.Threw?
      ensures conversations == old(conversations) && newMessage == old(newMessage) && searchTerm == old(searchTerm)
      ensures loading == old(loading) && sending == old(sending)
    {
      failureToast := false;
      if reply.Reply? && reply.data.Some? {
        var c := reply.data.value;
        messages := if c.messages.Some? then c.messages.value else [];
        selected := Some(c);
      } else if reply.Threw? {
        failureToast := enhanced;
      }
    }

    /** `sendMessage`. Unless the guard holds nothing happens. Otherwise the
        text goes to the open conversation; a returned message is appended at
        the end, the input cleared and the list fetched again; an exception
        raises a toast in the full component. `sending` is reset at the end. */
    method SendMessage(reply: Reply<ChatMessage>) returns (sent: Option<(nat, string)>, refetch: bool, failureToast: bool)
      modifies this
      ensures !old(CanSend(newMessage, selected, sending)) ==>
        sent.None? && !refetch && !failureToast && messages == old(messages) && newMessage == old(newMessage)
        && sending == old(sending)
      ensures old(CanSend(newMessage, selected, sending)) ==> (
        && sent == Some((old(selected).value.id, old(newMessage)))
        && !sending
        && (reply.Reply? && reply.data.Some? ==> messages == old(messages) + [reply.data.value] && newMessage == "" && refetch)
        && (!(reply.Reply? && reply.data.Some?) ==> messages == old(messages) && newMessage == old(newMessage) && !refetch)
        && (failureToast <==> enhanced && reply.Threw?))
      ensures conversations == old(conversations) && selected == old(selected) && searchTerm == old(searchTerm)
      ensures loading == old(loading)
    {
      sent, refetch, failureToast := None, false, false;
      if !CanSend(newMessage, selected, sending) {
        return;
      }
      sent := Some((selected.value.id, newMessage));
      var msgs, text := messages, newMessage;
      if reply.Reply? && reply.data.Some? {
        msgs, text, refetch := msgs + [reply.data.value], "", true;
      } else if reply.Threw? {
        failureToast := enhanced;
      }
      messages, newMessage, sending := msgs, text, false;
    }

    method SetSearchTerm(term: string)
      modifies this
      ensures searchTerm == term
      ensures conversations == old(conversations) && messages == old(messages) && selected == old(selected)
      ensures newMessage == old(newMessage) && loading == old(loading) && sending == old(sending)
    {
      searchTerm := term;
    }

    /** The conversations the list shows: the search result in the full
        component; the simple page computes the same filter but lists every
        conversation. */
    function ShownConversations(viewerRole: Option<string>, lower: string -> string): (r: seq<ConversationRow>)
      reads this
      ensures enhanced ==> r == FilteredConversations(conversations, viewerRole, searchTerm, lower)
      ensures !enhanced ==> r == conversations
    {
      if enhanced then FilteredConversations(conversations, viewerRole, searchTerm, lower) else conversations
    }
  }
}
