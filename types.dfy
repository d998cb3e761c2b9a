/**
 * The records shared by the chat client (types.ts): users, chats, messages
 * and attachments. Optional JSON fields are `Option`s; an absent field and a
 * JSON `null` are both `None`.
 */
module Types {
  import opened Common

  datatype User = User(
    id: string,
    firstname: string,
    lastname: string,
    username: string,
    email: string)

  /** The `type` union of a message. */
  datatype MessageKind = Text | Image | Video | VideoNote | Audio | Voice | File | System

  datatype AttachmentKind = ImageFile | VideoFile | AudioFile | VoiceFile | OtherFile

  datatype Attachment = Attachment(
    kind: AttachmentKind,
    url: string,
    name: Option<string>,
    size: Option<int>,
    mimeType: Option<string>,
    durationSeconds: Option<int>)

  datatype Message = Message(
    messageId: string,
    chatId: string,
    senderId: string,
    receiverId: string,
    content: string,
    createdAt: string,
    read: bool,
    kind: Option<MessageKind>,
    replyToMessageId: Option<string>,
    system: Option<bool>,
    attachmentUrl: Option<string>,
    attachmentName: Option<string>,
    attachmentSize: Option<int>,
    attachmentMimeType: Option<string>,
    attachmentDurationMs: Option<int>,
    attachments: Option<seq<Attachment>>)

  /**
   * A conversation. `user1Id`/`user2Id` are required by the interface, but the
   * entry the client builds when a temporary chat is reconciled spreads a message
   * into it and so has none; they are optional here. `otherUser` is kept as the
   * peer's id, the only part of it the client reads. `chatId` and `chat_id` are the
   * alternative id keys a server entry may carry instead of `id`.
   */
  datatype Chat = Chat(
    id: string,
    chatId: Option<string>,
    chat_id: Option<string>,
    user1Id: Option<string>,
    user2Id: Option<string>,
    createdAt: string,
    lastMessageAt: string,
    unreadCount: Option<int>,
    lastMessage: Option<Message>,
    otherUserId: Option<string>)

  /** A message with no optional field present. */
  function PlainMessage(messageId: string, chatId: string, senderId: string, receiverId: string,
                        content: string, createdAt: string, read: bool): (m: Message)
    ensures m.messageId == messageId && m.chatId == chatId && m.content == content
    ensures m.kind == None && m.system == None && m.attachmentName == None
  {
    Message(messageId, chatId, senderId, receiverId, content, createdAt, read,
            None, None, None, None, None, None, None, None, None)
  }

  /**
   * `{ ...base, ...patch }` where `patch` is a message received from the server:
   * its required fields win, and each optional field wins when it is present. An
   * explicit `null` from the server is not told apart from an absent field.
   */
  function MergeMessage(base: Message, patch: Message): (m: Message)
    ensures m.messageId == patch.messageId && m.content == patch.content
    ensures m.kind == patch.kind.OrElse(base.kind)
    ensures m.attachmentUrl == patch.attachmentUrl.OrElse(base.attachmentUrl)
  {
    Message(
      patch.messageId, patch.chatId, patch.senderId, patch.receiverId, patch.content,
      patch.createdAt, patch.read,
      patch.kind.OrElse(base.kind),
      patch.replyToMessageId.OrElse(base.replyToMessageId),
      patch.system.OrElse(base.system),
      patch.attachmentUrl.OrElse(base.attachmentUrl),
      patch.attachmentName.OrElse(base.attachmentName),
      patch.attachmentSize.OrElse(base.attachmentSize),
      patch.attachmentMimeType.OrElse(base.attachmentMimeType),
      patch.attachmentDurationMs.OrElse(base.attachmentDurationMs),
      patch.attachments.OrElse(base.attachments))
  }

  /** Merging a message over itself, or a message into itself, changes nothing: the spread is idempotent. */
  lemma MergeIdempotent(base: Message, patch: Message)
    ensures MergeMessage(MergeMessage(base, patch), patch) == MergeMessage(base, patch)
    ensures MergeMessage(patch, patch) == patch
  {
  }
}
