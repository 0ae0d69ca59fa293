// The current chat window: incoming messages for the open conversation,
// typing indicators by phone number, loading a conversation's history,
// sending a text and searching the conversation list.
module ChatWindow {
  import opened Common
  import opened ChatTypes

  datatype Conversation = Conversation(id: string, contactName: Option<string>, phoneNumber: Option<string>, unreadCount: nat)

  /** The message belongs to the conversation, whether it names it by id or embeds it. */
  predicate BelongsTo(m: Message, conversationId: string)
  {
    match m.conversation
    case RefId(id) => id == conversationId
    case RefObject(id) => id == conversationId
    case NoRef => false
  }

  /** `handleNewMessage` on the message list: appended, unsorted, when it is new and for the open conversation. */
  function WithNewMessage(shown: seq<Message>, selected: Option<Conversation>, m: Message): (r: seq<Message>)
    ensures selected.None? || !BelongsTo(m, selected.value.id) || IsDuplicate(shown, m) ==> r == shown
    ensures selected.Some? && BelongsTo(m, selected.value.id) && !IsDuplicate(shown, m) ==> r == shown + [m]
  {
    if selected.Some? && BelongsTo(m, selected.value.id) && !IsDuplicate(shown, m) then shown + [m] else shown
  }

  /** Delivering the same message twice shows it once. */
  lemma NewMessageIdempotent(shown: seq<Message>, selected: Option<Conversation>, m: Message)
    ensures var once := WithNewMessage(shown, selected, m);
      WithNewMessage(once, selected, m) == once
  {
    var once := WithNewMessage(shown, selected, m);
    if once != shown {
      assert m in once;
    }
  }

  /** What a `getMessages` call answered. */
  datatype History = Listed(messages: seq<Message>) | NotAList | Failed

  /** Search: every conversation for an empty term, else a name containing it or a phone containing it. */
  predicate MatchesSearch(c: Conversation, term: string)
  {
    term == "" ||
    (c.contactName.Some? && Includes(Lower(c.contactName.value), Lower(term))) ||
    (c.phoneNumber.Some? && Includes(c.phoneNumber.value, Lower(term)))
  }

  function SearchFor(term: string): Conversation -> bool
  {
    (c: Conversation) => MatchesSearch(c, term)
  }

  /** `filteredConversations`: the matching conversations, in list order. */
  function Filtered(cs: seq<Conversation>, term: string): (r: seq<Conversation>)
    ensures forall c :: c in r <==> c in cs && MatchesSearch(c, term)
    ensures term == "" ==> r == cs
  {
    forall c ensures c in Filter(cs, SearchFor(term)) <==> c in cs && MatchesSearch(c, term) {
      FilterMembership(cs, SearchFor(term), c);
    }
    EmptySearchKeepsAll(cs, term);
    Filter(cs, SearchFor(term))
  }

  lemma EmptySearchKeepsAll(cs: seq<Conversation>, term: string)
    ensures term == "" ==> Filter(cs, SearchFor(term)) == cs
  {
    if term == "" {
      FilterKeepsAll(cs, SearchFor(term));
    }
  }

  /** The search ignores the case of the term: typed in upper case, lower case or as is, it finds the same conversations. */
  lemma SearchIgnoresCase(c: Conversation, term: string)
    ensures MatchesSearch(c, Upper(term)) <==> MatchesSearch(c, term)
    ensures MatchesSearch(c, Lower(term)) <==> MatchesSearch(c, term)
  {
    LowerUpper(term);
    LowerIdempotent(term);
  }

  class Window {
    var selected: Option<Conversation>
    var messages: seq<Message>
    var typing: set<string>

    constructor ()
      ensures selected.None? && messages == [] && typing == {}
    {
      selected := None;
      messages := [];
      typing := {};
    }

    /**
     * `handleNewMessage`. `markRead` is the request to mark the open
     * conversation read; `reload` is the refresh of the conversation list,
     * which happens whenever a conversation is open.
     */
    method HandleNewMessage(m: Message) returns (markRead: bool, reload: bool)
      modifies this
      ensures messages == WithNewMessage(old(messages), selected, m)
      ensures selected == old(selected) && typing == old(typing)
      ensures reload <==> selected.Some?
      ensures markRead <==> selected.Some? && BelongsTo(m, selected.value.id) && m.direction == "inbound" && selected.value.unreadCount > 0
    {
      markRead, reload := false, false;
      if selected.None? {
        return;
      }
      if BelongsTo(m, selected.value.id) {
        messages := WithNewMessage(messages, selected, m);
        markRead := m.direction == "inbound" && selected.value.unreadCount > 0;
      }
      reload := true;
    }

    /** `handleTyping`, keyed by the contact's phone number. */
    method HandleTyping(phoneNumber: string, isTyping: bool)
      modifies this
      ensures typing == if isTyping then old(typing) + {phoneNumber} else old(typing) - {phoneNumber}
      ensures selected == old(selected) && messages == old(messages)
    {
      if isTyping {
        typing := typing + {phoneNumber};
      } else {
        typing := typing - {phoneNumber};
      }
    }

    /**
     * `handleSelectConversation`: the conversation is opened first, then its
     * history replaces the messages, oldest first. A failed call leaves the
     * previous messages; `markRead` asks to mark it read when it had unread ones.
     */
    method SelectConversation(c: Conversation, history: History) returns (markRead: bool)
      modifies this
      ensures selected == Some(c) && typing == old(typing)
      ensures history.Listed? ==> messages == InOrder(history.messages)
      ensures history.NotAList? ==> messages == []
      ensures history.Failed? ==> messages == old(messages)
      ensures markRead <==> !history.Failed? && c.unreadCount > 0
    {
      selected := Some(c);
      match history {
        case Listed(ms) => messages := InOrder(ms);
        case NotAList => messages := [];
        case Failed => return false;
      }
      markRead := c.unreadCount > 0;
    }

    /**
     * `handleSendMessage`: blank text or no open conversation does nothing;
     * otherwise, once the send succeeds, a pending outbound copy of the text
     * (`id` is `temp-` and the clock) is appended.
     */
    method SendMessage(text: string, sent: bool, now: int, id: string)
      modifies this
      ensures selected == old(selected) && typing == old(typing)
      ensures old(selected).None? || IsBlank(text) || !sent ==> messages == old(messages)
      ensures old(selected).Some? && !IsBlank(text) && sent ==>
        && |messages| == |old(messages)| + 1 && messages[..|old(messages)|] == old(messages)
        && var m := messages[|messages| - 1];
           m.direction == "outbound" && m.status == "pending" && m.textBody == Some(text)
           && m.conversation == RefId(old(selected).value.id) && m.createdAt == now
    {
      if selected.None? || Trim(text) == "" || !sent {
        return;
      }
      var temp := Message(id, "", RefId(selected.value.id), "outbound", "pending", Some(text), now, None, None);
      messages := messages + [temp];
    }
  }
}
