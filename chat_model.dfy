/** The chat document: its users, the ordered list of (encrypted) messages and
    the block status, with the schema defaults and the scheduled job that prunes
    messages older than three days from every chat. */
module ChatModel {
  import opened Common
  import opened Helpers
  import Pruning

  /** A stored message. Its `content` is the nested path `{ iv, encryptedData }`,
      so what a chat can hold there is an encrypted envelope. */
  datatype Message = Message(sender: Id, content: Envelope, createdAt: int)

  /** `status.blocked` and `status.blockedBy` (absent until someone blocks). */
  datatype Status = Status(blocked: bool, blockedBy: Option<Id>)

  /** The schema default of a new chat: not blocked, no blocker. */
  const DefaultStatus: Status := Status(false, None)

  /** The value of a chat document. */
  datatype ChatDoc = ChatDoc(users: seq<Id>, messages: seq<Message>, status: Status)

  /** The `createdAt` a stored message gets. The schema default is
      `default: new Date()`, evaluated once when the schema is defined, so a
      message saved without a `createdAt` gets `schemaLoadedAt`, the time the
      server loaded the model, whatever the time of the save. */
  function StoredCreatedAt(given: Option<int>, schemaLoadedAt: int): (r: int)
    ensures given.Some? ==> r == given.value
    ensures given.None? ==> r == schemaLoadedAt
  {
    if given.Some? then given.value else schemaLoadedAt
  }

  // ---------------------------------------------------------------------------
  // deleteOldMessages

  const MessageRetentionDays: int := 3

  /** The period of the `setInterval` that reruns the job. */
  const MessageCleanupPeriodMs: int := 3 * 24 * 60 * 60 * 1000

  /** `moment().subtract(3, 'days')` for the time `now` in milliseconds. */
  function MessageCutoff(now: int): int
  {
    now - MessageRetentionDays * Pruning.DayMs
  }

  function MessageTime(m: Message): int
  {
    m.createdAt
  }

  /** The `$pull` of messages whose `createdAt` is before `cutoff`, applied to one chat. */
  function PruneChat(c: ChatDoc, cutoff: int): (r: ChatDoc)
    ensures r.users == c.users && r.status == c.status
    ensures forall m :: m in r.messages ==> m in c.messages && m.createdAt >= cutoff
  {
    c.(messages := Pruning.KeepSince(c.messages, MessageTime, cutoff))
  }

  /** `deleteOldMessages`: the `updateMany` over all chats at time `now`. */
  function DeleteOldMessages(chats: seq<ChatDoc>, now: int): (r: seq<ChatDoc>)
    ensures |r| == |chats|
    ensures forall i :: 0 <= i < |r| ==> r[i] == PruneChat(chats[i], MessageCutoff(now))
  {
    seq(|chats|, i requires 0 <= i < |chats| => PruneChat(chats[i], MessageCutoff(now)))
  }

  /** The job runs every three days and removes messages more than three days old. */
  lemma MessageCleanupTiming(now: int)
    ensures MessageCleanupPeriodMs == 259200000
    ensures MessageCutoff(now) == now - 259200000
  {
  }

  /** Exactly the messages before the cut-off go: one at or after it keeps every
      copy, one before it keeps none. */
  lemma PruneChatExact(c: ChatDoc, cutoff: int, m: Message)
    ensures m.createdAt < cutoff ==> m !in PruneChat(c, cutoff).messages
    ensures m.createdAt >= cutoff ==> multiset(PruneChat(c, cutoff).messages)[m] == multiset(c.messages)[m]
  {
    Pruning.KeepSinceExact(c.messages, MessageTime, cutoff);
  }

  /** Surviving messages keep their relative order: pruning a list made of two
      parts prunes each part where it stands. */
  lemma PruneChatKeepsOrder(c: ChatDoc, earlier: seq<Message>, later: seq<Message>, cutoff: int)
    requires c.messages == earlier + later
    ensures PruneChat(c, cutoff).messages ==
              Pruning.KeepSince(earlier, MessageTime, cutoff) + Pruning.KeepSince(later, MessageTime, cutoff)
  {
    Pruning.KeepSinceAppend(earlier, later, MessageTime, cutoff);
  }

  /** A second run with the same cut-off changes nothing. */
  lemma PruneChatIdempotent(c: ChatDoc, cutoff: int)
    ensures PruneChat(PruneChat(c, cutoff), cutoff) == PruneChat(c, cutoff)
  {
    Pruning.KeepSinceIdempotent(c.messages, MessageTime, cutoff);
  }
}
