// Messages and conversations as both chat windows see them, with the two
// rules they share: when an incoming message duplicates one already shown,
// and the chronological order of a conversation.
module ChatTypes {
  import opened Common

  /** The `conversation` field of a message: an id, an embedded conversation object, or nothing. */
  datatype ConversationRef = RefId(id: string) | RefObject(objectId: string) | NoRef

  /**
   * A WhatsApp message. `whatsappId` is "" when the message has none;
   * `createdAt` is the instant `new Date(created_at)` denotes.
   */
  datatype Message = Message(
    id: string, whatsappId: string, conversation: ConversationRef, direction: string, status: string,
    textBody: Option<string>, createdAt: int, deliveredAt: Option<string>, readAt: Option<string>)

  /** The message is already on screen: same id, or the same non-empty WhatsApp id. */
  predicate IsDuplicate(shown: seq<Message>, m: Message)
  {
    exists x :: x in shown && (x.id == m.id || (x.whatsappId != "" && x.whatsappId == m.whatsappId))
  }

  /** Sort key of `new Date(a.created_at).getTime() - new Date(b.created_at).getTime()`. */
  function CreatedAt(): Message -> int
  {
    (m: Message) => m.createdAt
  }

  predicate Chronological(ms: seq<Message>)
  {
    forall i, j :: 0 <= i < j < |ms| ==> ms[i].createdAt <= ms[j].createdAt
  }

  /** A copy sorted oldest first; equal instants keep their order. */
  function InOrder(ms: seq<Message>): (r: seq<Message>)
    ensures multiset(r) == multiset(ms)
    ensures Chronological(r)
  {
    SortByKeySorted(ms, CreatedAt());
    SortByKey(ms, CreatedAt())
  }

  /** Messages sent at the same instant keep the order the history gave them. */
  lemma InOrderStable(ms: seq<Message>, t: int)
    ensures Filter(InOrder(ms), KeyIs(CreatedAt(), t)) == Filter(ms, KeyIs(CreatedAt(), t))
  {
    SortByKeyStable(ms, CreatedAt(), t);
  }

  /** Sorting a conversation that is already in order changes nothing. */
  lemma InOrderOfChronological(ms: seq<Message>)
    requires Chronological(ms)
    ensures InOrder(ms) == ms
  {
    SortByKeyOfSorted(ms, CreatedAt());
  }
}
