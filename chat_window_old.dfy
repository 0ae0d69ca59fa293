// The previous chat window: the real-time handlers for new messages, status
// updates and typing, the de-duplication of sent and uploaded messages, the
// upload size limit and the grouping of the conversation by day.
module ChatWindowOld {
  import opened Common
  import opened ChatTypes

  datatype Conversation = Conversation(id: string, lastMessageAt: Option<int>, preview: string, unreadCount: nat)

  // ---------------------------------------------------------------------
  // handleMessageReceived
  // ---------------------------------------------------------------------

  /** The open conversation after a message for `conversationId` arrives. */
  function Received(shown: seq<Message>, selected: Option<string>, conversationId: string, m: Message): (r: seq<Message>)
    ensures selected != Some(conversationId) || IsDuplicate(shown, m) ==> r == shown
    ensures selected == Some(conversationId) && !IsDuplicate(shown, m) ==>
      multiset(r) == multiset(shown) + multiset{m} && Chronological(r)
  {
    if selected == Some(conversationId) && !IsDuplicate(shown, m) then InOrder(shown + [m]) else shown
  }

  /** An accepted message appears exactly once, since nothing shown shares its id. */
  lemma ReceivedOnce(shown: seq<Message>, selected: Option<string>, conversationId: string, m: Message)
    requires selected == Some(conversationId) && !IsDuplicate(shown, m)
    ensures multiset(Received(shown, selected, conversationId, m))[m] == 1
  {
    assert m !in shown;
  }

  /** A message newer than everything shown is simply appended. */
  lemma NewestReceivedLast(shown: seq<Message>, selected: Option<string>, conversationId: string, m: Message)
    requires selected == Some(conversationId) && !IsDuplicate(shown, m)
    requires Chronological(shown) && forall x :: x in shown ==> x.createdAt <= m.createdAt
    ensures Received(shown, selected, conversationId, m) == shown + [m]
  {
    var s := shown + [m];
    assert Chronological(s) by {
      forall i, j | 0 <= i < j < |s| ensures s[i].createdAt <= s[j].createdAt {
        if j == |shown| { assert s[i] in shown; }
      }
    }
    InOrderOfChronological(s);
  }

  /** `text_body?.substring(0, 50) || 'Mídia'`. */
  function Preview(textBody: Option<string>): (r: string)
    ensures |r| <= 50 && r != ""
    ensures textBody.Some? && textBody.value != "" ==> r == textBody.value[..Min(50, |textBody.value|)]
  {
    if textBody.Some? && textBody.value != "" then textBody.value[..Min(50, |textBody.value|)] else "Mídia"
  }

  function Min(a: nat, b: nat): nat { if a < b then a else b }

  /** The unread counter of the conversation the message belongs to. */
  function UnreadAfter(count: nat, isSelected: bool, direction: string): (r: nat)
    ensures isSelected && direction == "inbound" ==> r == 0
    ensures !isSelected && direction == "inbound" ==> r == count + 1
    ensures direction != "inbound" ==> r == count
  {
    if isSelected && direction == "inbound" then 0
    else if direction == "inbound" then count + 1
    else count
  }

  function Touched(c: Conversation, selected: Option<string>, conversationId: string, m: Message): (r: Conversation)
    ensures r.id == c.id
    ensures c.id != conversationId ==> r == c
  {
    if c.id == conversationId then
      c.(lastMessageAt := Some(m.createdAt), preview := Preview(m.textBody),
         unreadCount := UnreadAfter(c.unreadCount, selected == Some(c.id), m.direction))
    else c
  }

  /** Sort key of the conversation list: most recent first, a missing date counting as 0. */
  function NewestFirst(): Conversation -> int
  {
    (c: Conversation) => -GetOr(c.lastMessageAt, 0)
  }

  /** The conversation list after the message: the matching conversation updated, then re-sorted. */
  function ConversationsAfter(cs: seq<Conversation>, selected: Option<string>, conversationId: string, m: Message): (r: seq<Conversation>)
    ensures |r| == |cs|
    ensures forall i, j :: 0 <= i < j < |r| ==> GetOr(r[i].lastMessageAt, 0) >= GetOr(r[j].lastMessageAt, 0)
    ensures multiset(r) == multiset(seq(|cs|, i requires 0 <= i < |cs| => Touched(cs[i], selected, conversationId, m)))
  {
    var touched := seq(|cs|, i requires 0 <= i < |cs| => Touched(cs[i], selected, conversationId, m));
    SortByKeySorted(touched, NewestFirst());
    var r := SortByKey(touched, NewestFirst());
    assert forall i, j :: 0 <= i < j < |r| ==> NewestFirst()(r[i]) <= NewestFirst()(r[j]);
    r
  }

  /** The conversation that received the message moves to the top: it is the newest one there is. */
  lemma ReceivingConversationFirst(cs: seq<Conversation>, selected: Option<string>, conversationId: string, m: Message)
    requires exists c :: c in cs && c.id == conversationId
    requires forall c :: c in cs ==> GetOr(c.lastMessageAt, 0) <= m.createdAt
    ensures var r := ConversationsAfter(cs, selected, conversationId, m);
      GetOr(r[0].lastMessageAt, 0) == m.createdAt
  {
    var touched := seq(|cs|, i requires 0 <= i < |cs| => Touched(cs[i], selected, conversationId, m));
    var r := ConversationsAfter(cs, selected, conversationId, m);
    var c :| c in cs && c.id == conversationId;
    var k :| 0 <= k < |cs| && cs[k] == c;
    assert touched[k] in multiset(r);
    var j :| 0 <= j < |r| && r[j] == touched[k];
    assert r[0] in multiset(touched);
    var i :| 0 <= i < |touched| && touched[i] == r[0];
    assert GetOr(r[0].lastMessageAt, 0) <= m.createdAt by {
      if cs[i].id != conversationId { assert r[0] == cs[i] && cs[i] in cs; }
    }
    if j > 0 {
      assert GetOr(r[0].lastMessageAt, 0) >= GetOr(r[j].lastMessageAt, 0);
    }
  }

  // ---------------------------------------------------------------------
  // handleStatusUpdated
  // ---------------------------------------------------------------------

  datatype StatusEvent = StatusEvent(messageId: string, whatsappId: string, status: string, timestamp: Option<string>)

  predicate Matches(msg: Message, ev: StatusEvent)
  {
    msg.id == ev.messageId || (ev.whatsappId != "" && msg.whatsappId == ev.whatsappId)
  }

  function WithStatus(msg: Message, ev: StatusEvent): (r: Message)
    ensures r.status == ev.status && r.id == msg.id && r.whatsappId == msg.whatsappId
    ensures r.deliveredAt != msg.deliveredAt ==> ev.status == "delivered" && r.deliveredAt == ev.timestamp
    ensures r.readAt != msg.readAt ==> ev.status == "read" && r.readAt == ev.timestamp
    ensures r.(status := msg.status, deliveredAt := msg.deliveredAt, readAt := msg.readAt) == msg
  {
    var stamped := ev.timestamp.Some? && ev.timestamp.value != "";
    if ev.status == "delivered" && stamped then msg.(status := ev.status, deliveredAt := ev.timestamp)
    else if ev.status == "read" && stamped then msg.(status := ev.status, readAt := ev.timestamp)
    else msg.(status := ev.status)
  }

  /** Only the matching messages change, and only in their status and its timestamp. */
  function StatusApplied(ms: seq<Message>, ev: StatusEvent): (r: seq<Message>)
    ensures |r| == |ms|
    ensures forall i :: 0 <= i < |ms| && !Matches(ms[i], ev) ==> r[i] == ms[i]
    ensures forall i :: 0 <= i < |ms| && Matches(ms[i], ev) ==> r[i] == WithStatus(ms[i], ev)
  {
    seq(|ms|, i requires 0 <= i < |ms| => if Matches(ms[i], ev) then WithStatus(ms[i], ev) else ms[i])
  }

  /** A read receipt with a time stamps the read time and leaves the delivery time alone. */
  lemma ReadReceipt(msg: Message, id: string, at: string)
    requires msg.id == id && at != ""
    ensures var r := StatusApplied([msg], StatusEvent(id, "", "read", Some(at)))[0];
      r.readAt == Some(at) && r.deliveredAt == msg.deliveredAt && r.status == "read"
  {
  }

  // ---------------------------------------------------------------------
  // Sending and uploading
  // ---------------------------------------------------------------------

  /** A message the API returned after sending or uploading joins the list unless its id is already there. */
  function AppendedOwn(shown: seq<Message>, m: Message): (r: seq<Message>)
    ensures (exists x :: x in shown && x.id == m.id) ==> r == shown
    ensures !(exists x :: x in shown && x.id == m.id) ==> multiset(r) == multiset(shown) + multiset{m} && Chronological(r)
  {
    if exists x :: x in shown && x.id == m.id then shown else InOrder(shown + [m])
  }

  /** 16 MiB, the largest file the upload accepts. */
  const MAX_UPLOAD_BYTES: nat := 16 * 1024 * 1024

  datatype UploadStep = Ignored | TooLarge | Upload

  /** The guards of `handleFileSelect`, in order. */
  function UploadGuard(fileSize: Option<nat>, hasConversation: bool, hasAccount: bool): (r: UploadStep)
    ensures r == Upload <==> fileSize.Some? && hasConversation && hasAccount && fileSize.value <= MAX_UPLOAD_BYTES
    ensures r == TooLarge ==> fileSize.Some? && fileSize.value > 16777216
  {
    if fileSize.None? || !hasConversation || !hasAccount then Ignored
    else if fileSize.value > MAX_UPLOAD_BYTES then TooLarge
    else Upload
  }

  // ---------------------------------------------------------------------
  // groupedMessages
  // ---------------------------------------------------------------------

  function OnDay(day: int -> string, d: string): Message -> bool
  {
    (m: Message) => day(m.createdAt) == d
  }

  /** `groups` holds, for every day, exactly the messages of `ms` on that day, and no empty group. */
  ghost predicate GroupsOf(ms: seq<Message>, day: int -> string, groups: map<string, seq<Message>>)
  {
    forall d :: Filter(ms, OnDay(day, d)) == (if d in groups then groups[d] else []) && (d in groups ==> groups[d] != [])
  }

  lemma GroupStep(ms: seq<Message>, i: nat, day: int -> string, groups: map<string, seq<Message>>)
    requires i < |ms| && GroupsOf(ms[..i], day, groups)
    ensures var d := day(ms[i].createdAt);
      GroupsOf(ms[..i + 1], day, groups[d := (if d in groups then groups[d] else []) + [ms[i]]])
  {
    var d := day(ms[i].createdAt);
    var after := groups[d := (if d in groups then groups[d] else []) + [ms[i]]];
    forall e ensures Filter(ms[..i + 1], OnDay(day, e)) == (if e in after then after[e] else []) && (e in after ==> after[e] != []) {
      GroupStepAt(ms, i, day, groups, e);
    }
  }

  lemma GroupStepAt(ms: seq<Message>, i: nat, day: int -> string, groups: map<string, seq<Message>>, e: string)
    requires i < |ms| && GroupsOf(ms[..i], day, groups)
    ensures var d := day(ms[i].createdAt);
      var after := groups[d := (if d in groups then groups[d] else []) + [ms[i]]];
      Filter(ms[..i + 1], OnDay(day, e)) == (if e in after then after[e] else []) && (e in after ==> after[e] != [])
  {
    FilterPrefixStep(ms, i, OnDay(day, e));
    assert Filter(ms[..i], OnDay(day, e)) == (if e in groups then groups[e] else []);
  }

  /**
   * `messages.reduce` into a record keyed by `yyyy-MM-dd`; `day` is that
   * formatting of an instant. Each day holds exactly the messages of that
   * day, in their original order, and every message's day has a group.
   */
  method GroupByDay(ms: seq<Message>, day: int -> string) returns (groups: map<string, seq<Message>>)
    ensures forall m :: m in ms ==> day(m.createdAt) in groups
    ensures forall d :: d in groups ==> groups[d] == Filter(ms, OnDay(day, d)) && groups[d] != []
  {
    groups := map[];
    var i := 0;
    while i < |ms|
      invariant 0 <= i <= |ms|
      invariant GroupsOf(ms[..i], day, groups)
    {
      GroupStep(ms, i, day, groups);
      var d := day(ms[i].createdAt);
      var group := if d in groups then groups[d] else [];
      groups := groups[d := group + [ms[i]]];
      i := i + 1;
    }
    assert ms[..i] == ms;
    forall m | m in ms ensures day(m.createdAt) in groups {
      FilterMembership(ms, OnDay(day, day(m.createdAt)), m);
    }
  }

  /** A message sits in the group of its own day and in no other. */
  lemma GroupedOnce(ms: seq<Message>, day: int -> string, groups: map<string, seq<Message>>, m: Message, d: string)
    requires forall d :: d in groups ==> groups[d] == Filter(ms, OnDay(day, d))
    requires m in ms && d in groups
    ensures m in groups[d] <==> d == day(m.createdAt)
  {
    FilterMembership(ms, OnDay(day, d), m);
  }

  // ---------------------------------------------------------------------
  // The window's state
  // ---------------------------------------------------------------------

  class Window {
    var selected: Option<string>
    var messages: seq<Message>
    var conversations: seq<Conversation>
    var typing: set<string>

    constructor ()
      ensures selected.None? && messages == [] && conversations == [] && typing == {}
    {
      selected := None;
      messages := [];
      conversations := [];
      typing := {};
    }

    /**
     * `handleMessageReceived`. `markRead` is the request to mark the open
     * conversation as read; `notify` is the toast for a message elsewhere.
     */
    method HandleMessageReceived(conversationId: string, m: Message) returns (markRead: bool, notify: bool)
      modifies this
      ensures messages == Received(old(messages), selected, conversationId, m)
      ensures conversations == ConversationsAfter(old(conversations), selected, conversationId, m)
      ensures selected == old(selected) && typing == old(typing)
      ensures markRead <==> selected == Some(conversationId) && m.direction == "inbound"
      ensures notify <==> selected != Some(conversationId) && m.direction == "inbound"
    {
      messages := Received(messages, selected, conversationId, m);
      markRead := selected == Some(conversationId) && m.direction == "inbound";
      conversations := ConversationsAfter(conversations, selected, conversationId, m);
      notify := selected != Some(conversationId) && m.direction == "inbound";
    }

    method HandleStatusUpdated(ev: StatusEvent)
      modifies this
      ensures messages == StatusApplied(old(messages), ev)
      ensures selected == old(selected) && conversations == old(conversations) && typing == old(typing)
    {
      messages := StatusApplied(messages, ev);
    }

    /** `handleTyping`: the set of conversations whose contact is typing. */
    method HandleTyping(conversationId: string, isTyping: bool)
      modifies this
      ensures isTyping ==> typing == old(typing) + {conversationId}
      ensures !isTyping ==> typing == old(typing) - {conversationId}
      ensures selected == old(selected) && messages == old(messages) && conversations == old(conversations)
    {
      if isTyping {
        typing := typing + {conversationId};
      } else {
        typing := typing - {conversationId};
      }
    }

    /** The message returned by a successful send or upload. */
    method AppendOwn(m: Message)
      modifies this
      ensures messages == AppendedOwn(old(messages), m)
      ensures selected == old(selected) && conversations == old(conversations) && typing == old(typing)
    {
      messages := AppendedOwn(messages, m);
    }
  }
}
