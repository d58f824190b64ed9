/**
 * The records of types/index.ts that the client-side logic reads and updates.
 * Timestamps (`createdAt`, `lastMessageAt`) are epoch milliseconds; the ISO
 * strings of the source parse to exactly these numbers.
 */
module Types {
  import opened Wrappers

  datatype User = User(id: string, email: string, username: string)

  datatype Personality = Personality(
    friendliness: int, humor: int, intelligence: int, romantic: int, flirty: int,
    dominant: Option<int>)

  datatype Status = Online | Offline

  datatype Companion = Companion(
    id: string,
    name: string,
    avatar: string,
    bio: string,
    category: string,
    personality: Personality,
    tags: seq<string>,
    age: int,
    status: Status)

  datatype StoryKind = Image | Video

  datatype Story = Story(
    id: string,
    companionId: string,
    kind: StoryKind,
    mediaUrl: string,
    viewed: bool,
    orderIndex: int)

  datatype Sender = UserSender | AiSender

  datatype Message = Message(
    id: string,
    conversationId: string,
    sender: Sender,
    content: string,
    imageUrl: Option<string>,
    isGeneratingImage: Option<bool>,
    createdAt: int)

  /**
   * A `Partial<Message>`: `None` is a key the object does not have; for the
   * optional fields `Some(None)` is a key present with value `undefined`.
   */
  datatype MessagePatch = MessagePatch(
    id: Option<string>,
    conversationId: Option<string>,
    sender: Option<Sender>,
    content: Option<string>,
    imageUrl: Option<Option<string>>,
    isGeneratingImage: Option<Option<bool>>,
    createdAt: Option<int>)

  /** `{ ...msg, ...patch }`: every key the patch has overrides the message's. */
  function ApplyMessagePatch(m: Message, p: MessagePatch): (r: Message)
    ensures p.id.None? ==> r.id == m.id
    ensures p.content.Some? ==> r.content == p.content.value
    ensures p == MessagePatch(None, None, None, None, None, None, None) ==> r == m
  {
    Message(
      p.id.GetOr(m.id),
      p.conversationId.GetOr(m.conversationId),
      p.sender.GetOr(m.sender),
      p.content.GetOr(m.content),
      p.imageUrl.GetOr(m.imageUrl),
      p.isGeneratingImage.GetOr(m.isGeneratingImage),
      p.createdAt.GetOr(m.createdAt))
  }

  datatype Conversation = Conversation(
    id: string,
    companionId: string,
    lastMessage: Option<string>,
    lastMessageAt: Option<int>,
    unreadCount: Option<int>,
    createdAt: int)

  /** A `Partial<Conversation>` (absent keys are `None`). */
  datatype ConversationPatch = ConversationPatch(
    id: Option<string>,
    companionId: Option<string>,
    lastMessage: Option<string>,
    lastMessageAt: Option<int>,
    unreadCount: Option<int>,
    createdAt: Option<int>)

  /** `{ ...c, ...p }`. */
  function ApplyConversationPatch(c: Conversation, p: ConversationPatch): (r: Conversation)
    ensures p.companionId.None? ==> r.companionId == c.companionId
    ensures p.companionId.Some? ==> r.companionId == p.companionId.value
  {
    Conversation(
      p.id.GetOr(c.id),
      p.companionId.GetOr(c.companionId),
      if p.lastMessage.Some? then p.lastMessage else c.lastMessage,
      if p.lastMessageAt.Some? then p.lastMessageAt else c.lastMessageAt,
      if p.unreadCount.Some? then p.unreadCount else c.unreadCount,
      p.createdAt.GetOr(c.createdAt))
  }

  /** A whole conversation spread over another: its own keys only. */
  function AsPatch(c: Conversation): ConversationPatch
  {
    ConversationPatch(Some(c.id), Some(c.companionId), c.lastMessage, c.lastMessageAt,
                      c.unreadCount, Some(c.createdAt))
  }

  datatype EventType = ChatEvent | StoryView | Milestone | MoodChange

  /** A memory; its `metadata` is the pair `content` and `icon`. */
  datatype Memory = Memory(
    id: string,
    userId: string,
    companionId: string,
    eventType: EventType,
    content: string,
    icon: string,
    createdAt: int)
}

/** The records of src/types/index.ts, the older client's data model. */
module SrcTypes {

  datatype Companion = Companion(
    id: string, name: string, bio: string, category: string, tags: seq<string>, age: int)

  datatype Story = Story(
    id: string, companionId: string, viewed: bool, duration: int)

  datatype Sender = UserSender | CompanionSender

  datatype Message = Message(
    id: string, companionId: string, sender: Sender, content: string, timestamp: string)
}
