/**
 * The client-side caches of pages/ChatDashboard.tsx and the updaters applied
 * to them: the `['chats']` entry (a list of chats plus a `totalUnread`
 * counter the server sent) and the `['messages', chatId]` entries (one list
 * of messages per chat).
 *
 * Nothing here sorts: the list keeps the order the server gave, and chats the
 * client adds go at the end.
 */
module ChatCache {
  import opened Common
  import opened JsString
  import opened Types

  const TEMP_PREFIX := "temp-"
  const CLEARED_PREFIX := "cleared-"
  const CLEARED_TEXT := "Chat tozalangan"

  /** The `['chats']` cache entry. */
  datatype ChatsView = ChatsView(chats: seq<Chat>, totalUnread: int)

  /** The `['messages', chatId]` entries. */
  type MessageCache = map<string, seq<Message>>

  // ------------------------------------------------------------------ identity and counters

  /** `getChatId`: `chat.id || chat.chatId || chat.chat_id || null`, the first non-empty id key. */
  function GetChatId(c: Chat): (r: Option<string>)
    ensures r.Some? ==> r.value != ""
    ensures r.Some? ==> r.value == c.id || c.chatId == r || c.chat_id == r
    ensures c.id != "" ==> r == Some(c.id)
    ensures c.id == "" && c.chatId.Some? && c.chatId.value != "" ==> r == c.chatId
    ensures r.None? <==> c.id == "" && (c.chatId.None? || c.chatId.value == "")
                         && (c.chat_id.None? || c.chat_id.value == "")
  {
    if c.id != "" then Some(c.id)
    else if c.chatId.Some? && c.chatId.value != "" then c.chatId
    else if c.chat_id.Some? && c.chat_id.value != "" then c.chat_id
    else None
  }

  predicate IsChat(c: Chat, id: string)
  {
    GetChatId(c) == Some(id)
  }

  /** `c.unreadCount || 0` */
  function UnreadOf(c: Chat): int
  {
    c.unreadCount.GetOr(0)
  }

  function SumUnread(chats: seq<Chat>): int
  {
    if chats == [] then 0 else UnreadOf(chats[0]) + SumUnread(chats[1..])
  }

  /** The server's counter agrees with the per-chat counts. */
  predicate Consistent(v: ChatsView)
  {
    v.totalUnread == SumUnread(v.chats)
  }

  predicate NonNegativeUnread(chats: seq<Chat>)
  {
    forall i :: 0 <= i < |chats| ==> UnreadOf(chats[i]) >= 0
  }

  lemma {:induction false} SumUnreadAppend(a: seq<Chat>, b: seq<Chat>)
    ensures SumUnread(a + b) == SumUnread(a) + SumUnread(b)
  {
    if a == [] {
      assert a + b == b;
    } else {
      assert (a + b)[1..] == a[1..] + b;
      SumUnreadAppend(a[1..], b);
    }
  }

  lemma {:induction false} SumUnreadUpdate(chats: seq<Chat>, k: nat, c: Chat)
    requires k < |chats|
    ensures SumUnread(chats[k := c]) == SumUnread(chats) - UnreadOf(chats[k]) + UnreadOf(c)
  {
    if k > 0 {
      assert chats[k := c][1..] == chats[1..][k - 1 := c];
      SumUnreadUpdate(chats[1..], k - 1, c);
    }
  }

  lemma {:induction false} SumUnreadNonNegative(chats: seq<Chat>)
    requires NonNegativeUnread(chats)
    ensures SumUnread(chats) >= 0
  {
    if chats != [] {
      SumUnreadNonNegative(chats[1..]);
    }
  }

  /** `findIndex(c => getChatId(c) === id)` */
  function FindChat(chats: seq<Chat>, id: string): (r: Option<nat>)
    ensures r.Some? ==> r.value < |chats| && IsChat(chats[r.value], id)
    ensures r.Some? ==> forall j :: 0 <= j < r.value ==> !IsChat(chats[j], id)
    ensures r.None? ==> forall j :: 0 <= j < |chats| ==> !IsChat(chats[j], id)
  {
    if chats == [] then None
    else if IsChat(chats[0], id) then Some(0)
    else match FindChat(chats[1..], id)
      case None => None
      case Some(k) => Some(k + 1)
  }

  // ------------------------------------------------------------------ incoming message

  /** `newMsg.chatId || chat_id`; the `chat_id` fallback is not modelled. */
  function IncomingChatId(msg: Message): Option<string>
  {
    if msg.chatId != "" then Some(msg.chatId) else None
  }

  /** An incoming message counts as unread when it is not mine and its chat is not the open one. */
  predicate CountsAsUnread(msg: Message, me: Option<string>, current: Option<string>)
  {
    var fromMe := me == Some(msg.senderId);
    var open := current.Some? && current == IncomingChatId(msg);
    !fromMe && !open
  }

  function Delta(b: bool): int
  {
    if b then 1 else 0
  }

  /** The minimal entry added for a message from a chat the list does not have. */
  function ChatFromMessage(msg: Message, unread: int, now: string): (c: Chat)
    ensures c.lastMessage == Some(msg) && UnreadOf(c) == unread
    ensures IncomingChatId(msg).Some? ==> IsChat(c, msg.chatId)
  {
    var incoming := IncomingChatId(msg);
    Chat(incoming.GetOr(TEMP_PREFIX + now), incoming, None, Some(msg.senderId), Some(msg.receiverId),
         msg.createdAt, msg.createdAt, Some(unread), Some(msg), None)
  }

  /** The chats-cache update of the `onMessage` handler. `current` is the open chat's id and
      `now` stands for `Date.now()`. */
  function IncomingMessage(v: ChatsView, msg: Message, me: Option<string>, current: Option<string>,
                           now: string): (r: ChatsView)
    ensures r.totalUnread == v.totalUnread + Delta(CountsAsUnread(msg, me, current))
    ensures var incoming := IncomingChatId(msg);
      var idx := if incoming.Some? then FindChat(v.chats, incoming.value) else None;
      match idx
      case None =>
        && |r.chats| == |v.chats| + 1 && r.chats[..|v.chats|] == v.chats
        && r.chats[|v.chats|].lastMessage == Some(msg)
        && UnreadOf(r.chats[|v.chats|]) == Delta(CountsAsUnread(msg, me, current))
      case Some(k) =>
        && |r.chats| == |v.chats|
        && (forall j :: 0 <= j < |v.chats| && j != k ==> r.chats[j] == v.chats[j])
        && r.chats[k].lastMessage == Some(msg) && r.chats[k].lastMessageAt == msg.createdAt
        && r.chats[k].id == v.chats[k].id && r.chats[k].user1Id == v.chats[k].user1Id
        && UnreadOf(r.chats[k])
           == (if CountsAsUnread(msg, me, current) then UnreadOf(v.chats[k]) + 1 else 0)
  {
    var counts := CountsAsUnread(msg, me, current);
    var incoming := IncomingChatId(msg);
    var idx := if incoming.Some? then FindChat(v.chats, incoming.value) else None;
    match idx
    case None =>
      ChatsView(v.chats + [ChatFromMessage(msg, Delta(counts), now)], v.totalUnread + Delta(counts))
    case Some(k) =>
      var existing := v.chats[k];
      var unread := if counts then UnreadOf(existing) + 1 else 0;
      var updated := existing.(lastMessageAt := msg.createdAt, lastMessage := Some(msg), unreadCount := Some(unread));
      ChatsView(v.chats[k := updated], v.totalUnread + Delta(counts))
  }

  /** A message that counts as unread keeps the counter equal to the sum of the per-chat counts. */
  lemma IncomingCountedKeepsConsistent(v: ChatsView, msg: Message, me: Option<string>,
                                       current: Option<string>, now: string)
    requires Consistent(v) && CountsAsUnread(msg, me, current)
    ensures Consistent(IncomingMessage(v, msg, me, current, now))
  {
    var r := IncomingMessage(v, msg, me, current, now);
    var incoming := IncomingChatId(msg);
    var idx := if incoming.Some? then FindChat(v.chats, incoming.value) else None;
    match idx
    case None =>
      var c := ChatFromMessage(msg, 1, now);
      assert r.chats == v.chats + [c];
      SumUnreadAppend(v.chats, [c]);
      assert SumUnread([c]) == UnreadOf(c) + SumUnread([]);
    case Some(k) =>
      SumUnreadUpdate(v.chats, k, r.chats[k]);
      assert r.chats == v.chats[k := r.chats[k]];
  }

  /** A message that does not count (mine, or in the open chat) zeroes its chat's count but leaves
      the counter alone: if that chat had unread messages, the counter drifts from the sum. */
  lemma IncomingUncountedDrifts(v: ChatsView, msg: Message, me: Option<string>,
                                current: Option<string>, now: string, k: nat)
    requires Consistent(v) && !CountsAsUnread(msg, me, current)
    requires IncomingChatId(msg).Some? && FindChat(v.chats, msg.chatId) == Some(k)
    requires UnreadOf(v.chats[k]) != 0
    ensures !Consistent(IncomingMessage(v, msg, me, current, now))
  {
    var r := IncomingMessage(v, msg, me, current, now);
    SumUnreadUpdate(v.chats, k, r.chats[k]);
    assert r.chats == v.chats[k := r.chats[k]];
  }

  // ------------------------------------------------------------------ opening a chat

  /** `(c.unreadCount || 0) > 0` for the chat being opened. */
  predicate HasUnreadIn(c: Chat, id: string)
  {
    IsChat(c, id) && UnreadOf(c) > 0
  }

  /** The amount cleared when chat `id` is opened. */
  function ClearedAmount(chats: seq<Chat>, id: string): int
  {
    if chats == [] then 0
    else (if HasUnreadIn(chats[0], id) then UnreadOf(chats[0]) else 0) + ClearedAmount(chats[1..], id)
  }

  function ClearUnread(chats: seq<Chat>, id: string): (r: seq<Chat>)
    ensures |r| == |chats|
    ensures forall i :: 0 <= i < |chats| ==>
      r[i] == if HasUnreadIn(chats[i], id) then chats[i].(unreadCount := Some(0)) else chats[i]
  {
    if chats == [] then []
    else [if HasUnreadIn(chats[0], id) then chats[0].(unreadCount := Some(0)) else chats[0]]
         + ClearUnread(chats[1..], id)
  }

  /** The effect that runs while chat `id` is open. */
  function OpenChat(v: ChatsView, id: string): (r: ChatsView)
    ensures r.chats == ClearUnread(v.chats, id)
    ensures r.totalUnread == Max0(v.totalUnread - ClearedAmount(v.chats, id))
  {
    ChatsView(ClearUnread(v.chats, id), Max0(v.totalUnread - ClearedAmount(v.chats, id)))
  }

  function Max0(x: int): (r: int)
    ensures r >= 0 && r >= x && (r == 0 || r == x)
  {
    if x < 0 then 0 else x
  }

  lemma {:induction false} ClearUnreadSum(chats: seq<Chat>, id: string)
    ensures SumUnread(ClearUnread(chats, id)) == SumUnread(chats) - ClearedAmount(chats, id)
  {
    if chats != [] {
      ClearUnreadSum(chats[1..], id);
      assert ClearUnread(chats, id)[1..] == ClearUnread(chats[1..], id);
    }
  }

  lemma {:induction false} ClearUnreadNonNegative(chats: seq<Chat>, id: string)
    requires NonNegativeUnread(chats)
    ensures NonNegativeUnread(ClearUnread(chats, id))
  {
  }

  /** Opening a chat keeps a consistent, non-negative cache consistent; the opened chat ends with no
      unread count and every other chat is untouched. */
  lemma OpenChatKeepsConsistent(v: ChatsView, id: string)
    requires Consistent(v) && NonNegativeUnread(v.chats)
    ensures var r := OpenChat(v, id);
      && Consistent(r)
      && (forall i :: 0 <= i < |r.chats| && IsChat(r.chats[i], id) ==> UnreadOf(r.chats[i]) <= 0)
      && (forall i :: 0 <= i < |r.chats| && !IsChat(v.chats[i], id) ==> r.chats[i] == v.chats[i])
  {
    ClearUnreadSum(v.chats, id);
    ClearUnreadNonNegative(v.chats, id);
    SumUnreadNonNegative(ClearUnread(v.chats, id));
  }

  lemma {:induction false} ClearedAmountNone(chats: seq<Chat>, id: string)
    requires forall i :: 0 <= i < |chats| ==> !HasUnreadIn(chats[i], id)
    ensures ClearedAmount(chats, id) == 0
  {
    if chats != [] {
      ClearedAmountNone(chats[1..], id);
    }
  }

  /** The effect runs after every render while a chat is open; running it again changes nothing. */
  lemma OpenChatIdempotent(v: ChatsView, id: string)
    ensures OpenChat(OpenChat(v, id), id) == OpenChat(v, id)
  {
    var once := ClearUnread(v.chats, id);
    assert forall i :: 0 <= i < |once| ==> !HasUnreadIn(once[i], id);
    ClearedAmountNone(once, id);
    assert ClearUnread(once, id) == once;
  }

  // ------------------------------------------------------------------ editing

  /** The messages-cache update for an edit: every message with that id gets the edit spread over it. */
  function EditMessages(list: seq<Message>, edited: Message): (r: seq<Message>)
    ensures |r| == |list|
    ensures forall i :: 0 <= i < |list| ==>
      r[i] == if list[i].messageId == edited.messageId then MergeMessage(list[i], edited) else list[i]
  {
    if list == [] then []
    else [if list[0].messageId == edited.messageId then MergeMessage(list[0], edited) else list[0]]
         + EditMessages(list[1..], edited)
  }

  /** The chats-cache update for an edit: a chat of the message's conversation whose last message is
      the edited one gets it merged. */
  function EditChat(c: Chat, edited: Message): Chat
  {
    if IsChat(c, edited.chatId) && c.lastMessage.Some? && c.lastMessage.value.messageId == edited.messageId
    then c.(lastMessage := Some(MergeMessage(c.lastMessage.value, edited)))
    else c
  }

  function EditChats(v: ChatsView, edited: Message): (r: ChatsView)
    ensures r.totalUnread == v.totalUnread && |r.chats| == |v.chats|
    ensures forall i :: 0 <= i < |v.chats| ==> r.chats[i] == EditChat(v.chats[i], edited)
  {
    ChatsView(seq(|v.chats|, i requires 0 <= i < |v.chats| => EditChat(v.chats[i], edited)), v.totalUnread)
  }

  /** Applying the same edit twice is the same as applying it once, in both caches. */
  lemma EditIdempotent(list: seq<Message>, v: ChatsView, edited: Message)
    ensures EditMessages(EditMessages(list, edited), edited) == EditMessages(list, edited)
    ensures EditChats(EditChats(v, edited), edited) == EditChats(v, edited)
  {
    var once := EditMessages(list, edited);
    forall i | 0 <= i < |list| ensures EditMessages(once, edited)[i] == once[i] {
      MergeIdempotent(list[i], edited);
    }
    var c1 := EditChats(v, edited);
    forall i | 0 <= i < |v.chats| ensures EditChat(c1.chats[i], edited) == c1.chats[i] {
      if v.chats[i].lastMessage.Some? { MergeIdempotent(v.chats[i].lastMessage.value, edited); }
    }
  }

  /** An edit changes no chat's identity, unread count or position, and no message's id. */
  lemma EditKeepsShape(list: seq<Message>, v: ChatsView, edited: Message)
    ensures forall i :: 0 <= i < |list| ==> EditMessages(list, edited)[i].messageId == list[i].messageId
    ensures forall i :: 0 <= i < |v.chats| ==>
      && EditChats(v, edited).chats[i].id == v.chats[i].id
      && UnreadOf(EditChats(v, edited).chats[i]) == UnreadOf(v.chats[i])
  {
  }

  // ------------------------------------------------------------------ deleting a message

  /** `old.filter(m => m.messageId !== id)` */
  function RemoveMessage(list: seq<Message>, id: string): (r: seq<Message>)
    ensures |r| <= |list|
    ensures forall i :: 0 <= i < |r| ==> r[i].messageId != id && r[i] in list
  {
    if list == [] then []
    else if list[0].messageId == id then RemoveMessage(list[1..], id)
    else [list[0]] + RemoveMessage(list[1..], id)
  }

  /** Removing an id that is not there changes nothing, and removing it shortens the list otherwise. */
  lemma {:induction false} RemoveMessageAbsent(list: seq<Message>, id: string)
    ensures (forall i :: 0 <= i < |list| ==> list[i].messageId != id) <==> RemoveMessage(list, id) == list
  {
    if list != [] {
      RemoveMessageAbsent(list[1..], id);
      if list[0].messageId == id {
        assert |RemoveMessage(list, id)| < |list|;
      }
    }
  }

  /** The SYSTEM message that stands in for an emptied conversation. */
  function ClearedMarker(chatId: string, senderId: string, receiverId: string, clearedAt: string): (m: Message)
    ensures m.messageId == CLEARED_PREFIX + chatId && m.chatId == chatId && m.read
    ensures m.kind == Some(System) && m.system == Some(true) && m.content == CLEARED_TEXT
  {
    Message(CLEARED_PREFIX + chatId, chatId, senderId, receiverId, CLEARED_TEXT, clearedAt, true,
            Some(System), None, Some(true), None, None, None, None, None, None)
  }

  /** The update applied to each chat of the conversation once `remaining` is what is left of it. */
  function AfterDelete(c: Chat, remaining: seq<Message>, marker: Message, clearedAt: string): Chat
  {
    if remaining == [] then c.(lastMessage := Some(marker), lastMessageAt := clearedAt, unreadCount := Some(0))
    else
      var last := remaining[|remaining| - 1];
      c.(lastMessage := Some(last), lastMessageAt := if last.createdAt != "" then last.createdAt else c.lastMessageAt)
  }

  /** The chats-cache update after message deletion in chat `chatId`. */
  function MessageDeletedChats(v: ChatsView, chatId: string, remaining: seq<Message>, marker: Message,
                               clearedAt: string): (r: ChatsView)
    ensures r.totalUnread == v.totalUnread && |r.chats| == |v.chats|
    ensures forall i :: 0 <= i < |v.chats| && !IsChat(v.chats[i], chatId) ==> r.chats[i] == v.chats[i]
    ensures forall i :: 0 <= i < |v.chats| && IsChat(v.chats[i], chatId) ==>
      && r.chats[i].lastMessage == Some(if remaining == [] then marker else remaining[|remaining| - 1])
      && (remaining == [] ==> UnreadOf(r.chats[i]) == 0)
      && (remaining != [] ==> r.chats[i].unreadCount == v.chats[i].unreadCount)
  {
    ChatsView(seq(|v.chats|, i requires 0 <= i < |v.chats| =>
                    if IsChat(v.chats[i], chatId) then AfterDelete(v.chats[i], remaining, marker, clearedAt)
                    else v.chats[i]),
              v.totalUnread)
  }

  /** Emptying a conversation that had unread messages leaves the counter out of step. */
  lemma ClearedChatDrifts(v: ChatsView, chatId: string, marker: Message, clearedAt: string, k: nat)
    requires Consistent(v) && k < |v.chats| && IsChat(v.chats[k], chatId) && UnreadOf(v.chats[k]) != 0
    requires forall j :: 0 <= j < |v.chats| && j != k ==> !IsChat(v.chats[j], chatId)
    ensures !Consistent(MessageDeletedChats(v, chatId, [], marker, clearedAt))
  {
    var r := MessageDeletedChats(v, chatId, [], marker, clearedAt);
    assert r.chats == v.chats[k := r.chats[k]];
    SumUnreadUpdate(v.chats, k, r.chats[k]);
  }

  // ------------------------------------------------------------------ deleting a chat

  function RemoveChat(chats: seq<Chat>, id: string): (r: seq<Chat>)
    ensures |r| <= |chats|
    ensures forall i :: 0 <= i < |r| ==> !IsChat(r[i], id) && r[i] in chats
  {
    if chats == [] then []
    else if IsChat(chats[0], id) then RemoveChat(chats[1..], id)
    else [chats[0]] + RemoveChat(chats[1..], id)
  }

  /** Every chat without that id survives, in order. */
  lemma {:induction false} RemoveChatKeepsOthers(chats: seq<Chat>, id: string)
    ensures |RemoveChat(chats, id)| == |chats| - CountChats(chats, id)
    ensures CountChats(chats, id) == 0 ==> RemoveChat(chats, id) == chats
  {
    if chats != [] {
      RemoveChatKeepsOthers(chats[1..], id);
    }
  }

  function CountChats(chats: seq<Chat>, id: string): nat
  {
    if chats == [] then 0 else (if IsChat(chats[0], id) then 1 else 0) + CountChats(chats[1..], id)
  }

  /** The chat-deleted update: every entry with that id goes, and the counter drops by the first
      entry's count, floored at 0. */
  function AfterChatDeleted(v: ChatsView, id: string): (r: ChatsView)
    ensures r.chats == RemoveChat(v.chats, id)
    ensures r.totalUnread == Max0(v.totalUnread - match FindChat(v.chats, id)
                                                  case None => 0
                                                  case Some(k) => UnreadOf(v.chats[k]))
  {
    var removed := match FindChat(v.chats, id) case None => 0 case Some(k) => UnreadOf(v.chats[k]);
    ChatsView(RemoveChat(v.chats, id), Max0(v.totalUnread - removed))
  }

  lemma {:induction false} RemoveChatSum(chats: seq<Chat>, id: string)
    requires CountChats(chats, id) <= 1
    ensures SumUnread(RemoveChat(chats, id))
         == SumUnread(chats) - match FindChat(chats, id) case None => 0 case Some(k) => UnreadOf(chats[k])
  {
    if chats != [] {
      RemoveChatSum(chats[1..], id);
      if IsChat(chats[0], id) {
        CountZeroNotFound(chats[1..], id);
      }
    }
  }

  lemma {:induction false} CountZeroNotFound(chats: seq<Chat>, id: string)
    requires CountChats(chats, id) == 0
    ensures FindChat(chats, id) == None && RemoveChat(chats, id) == chats
  {
    if chats != [] {
      CountZeroNotFound(chats[1..], id);
    }
  }

  /** With at most one entry for the chat and non-negative counts, deleting it keeps the cache
      consistent. */
  lemma ChatDeletedKeepsConsistent(v: ChatsView, id: string)
    requires Consistent(v) && NonNegativeUnread(v.chats) && CountChats(v.chats, id) <= 1
    ensures Consistent(AfterChatDeleted(v, id))
    ensures forall i :: 0 <= i < |AfterChatDeleted(v, id).chats| ==> !IsChat(AfterChatDeleted(v, id).chats[i], id)
  {
    RemoveChatSum(v.chats, id);
    var r := RemoveChat(v.chats, id);
    assert NonNegativeUnread(r) by {
      forall i | 0 <= i < |r| ensures UnreadOf(r[i]) >= 0 {
        assert r[i] in v.chats;
      }
    }
    SumUnreadNonNegative(r);
  }

  // ------------------------------------------------------------------ temporary chat with a user

  function TempChatId(peerId: string): (id: string)
    ensures StartsWith(id, TEMP_PREFIX) && id != ""
  {
    TEMP_PREFIX + peerId
  }

  /** `chats.find(c => c.user1Id === peer || c.user2Id === peer)` */
  function FindPeerChat(chats: seq<Chat>, peer: string): (r: Option<nat>)
    ensures r.Some? ==> r.value < |chats| && (chats[r.value].user1Id == Some(peer) || chats[r.value].user2Id == Some(peer))
    ensures r.None? ==> forall i :: 0 <= i < |chats| ==> chats[i].user1Id != Some(peer) && chats[i].user2Id != Some(peer)
  {
    if chats == [] then None
    else if chats[0].user1Id == Some(peer) || chats[0].user2Id == Some(peer) then Some(0)
    else match FindPeerChat(chats[1..], peer)
      case None => None
      case Some(k) => Some(k + 1)
  }

  function TempChat(me: Option<string>, peer: string, now: string): (c: Chat)
    ensures IsChat(c, TempChatId(peer)) && UnreadOf(c) == 0 && c.lastMessage == None
    ensures c.user2Id == Some(peer) && c.otherUserId == Some(peer)
  {
    Chat(TempChatId(peer), Some(TempChatId(peer)), None, me, Some(peer), now, now, Some(0), None, Some(peer))
  }

  /** The updater that adds the `temp-<peer>` chat unless an entry with that id exists. */
  function EnsureTempChat(v: ChatsView, me: Option<string>, peer: string, now: string): (r: ChatsView)
    ensures r.totalUnread == v.totalUnread
    ensures FindChat(v.chats, TempChatId(peer)).Some? ==> r == v
    ensures FindChat(v.chats, TempChatId(peer)).None? ==> r.chats == v.chats + [TempChat(me, peer, now)]
  {
    if FindChat(v.chats, TempChatId(peer)).Some? then v
    else ChatsView(v.chats + [TempChat(me, peer, now)], v.totalUnread)
  }

  /** Starting a chat with the same user twice adds one entry, whatever the clock says. */
  lemma EnsureTempChatIdempotent(v: ChatsView, me: Option<string>, peer: string, now1: string, now2: string)
    ensures EnsureTempChat(EnsureTempChat(v, me, peer, now1), me, peer, now2) == EnsureTempChat(v, me, peer, now1)
    ensures CountChats(EnsureTempChat(v, me, peer, now1).chats, TempChatId(peer)) >= 1
  {
    var id := TempChatId(peer);
    if FindChat(v.chats, id).None? {
      var c := TempChat(me, peer, now1);
      var chats := v.chats + [c];
      assert chats[|v.chats|] == c;
      assert IsChat(chats[|v.chats|], id);
      CountAppendOne(v.chats, c, id);
    } else {
      CountPositiveFound(v.chats, id);
    }
  }

  lemma {:induction false} CountAppendOne(chats: seq<Chat>, c: Chat, id: string)
    requires IsChat(c, id)
    ensures CountChats(chats + [c], id) == CountChats(chats, id) + 1
  {
    if chats == [] {
      assert chats + [c] == [c];
    } else {
      assert (chats + [c])[1..] == chats[1..] + [c];
      CountAppendOne(chats[1..], c, id);
    }
  }

  lemma {:induction false} CountPositiveFound(chats: seq<Chat>, id: string)
    requires FindChat(chats, id).Some?
    ensures CountChats(chats, id) >= 1
  {
    if !IsChat(chats[0], id) {
      CountPositiveFound(chats[1..], id);
    }
  }

  /** The route chosen when a user is picked from the search results (`None` = a temp chat). */
  function PeerRoute(chats: seq<Chat>, peer: string): (r: string)
    ensures r != ""
    ensures FindPeerChat(chats, peer).None? ==> r == TempChatId(peer)
  {
    match FindPeerChat(chats, peer)
    case Some(k) => (match GetChatId(chats[k]) case Some(id) => id case None => TempChatId(peer))
    case None => TempChatId(peer)
  }

  // ------------------------------------------------------------------ reconciling a sent attachment

  /** `saved.chatId || chatId` */
  function RealChatId(saved: Message, chatId: string): string
  {
    if saved.chatId != "" then saved.chatId else chatId
  }

  /** The temp chat is replaced when it was temporary and the server names another chat. */
  predicate MovesChat(saved: Message, chatId: string)
  {
    StartsWith(chatId, TEMP_PREFIX) && RealChatId(saved, chatId) != chatId
  }

  /** The messages-cache update when the upload of temp message `tempId` in `chatId` returns `saved`:
      the temp message is dropped and the saved one appended at the end, under the real id when the
      chat moves (whatever that key held before is replaced). */
  function ReconcileMessages(cache: MessageCache, chatId: string, tempId: string, saved: Message): (r: MessageCache)
    ensures var key := if MovesChat(saved, chatId) then RealChatId(saved, chatId) else chatId;
      && r == cache[key := RemoveMessage(ListAt(cache, chatId), tempId) + [saved]]
      && r[key][|r[key]| - 1] == saved
  {
    var rest := RemoveMessage(ListAt(cache, chatId), tempId) + [saved];
    if MovesChat(saved, chatId) then cache[RealChatId(saved, chatId) := rest] else cache[chatId := rest]
  }

  /** The entry that replaces a temporary chat: the saved message spread into a chat, so it has no
      user ids. */
  function ChatFromSaved(saved: Message, realId: string): (c: Chat)
    ensures c.id == realId && c.lastMessage == Some(saved) && UnreadOf(c) == 0
    ensures c.user1Id == None && c.user2Id == None
  {
    Chat(realId, Some(realId), None, None, None, saved.createdAt, saved.createdAt, Some(0), Some(saved), None)
  }

  function SavedInto(c: Chat, chatId: string, saved: Message): Chat
  {
    if IsChat(c, chatId) then c.(lastMessageAt := saved.createdAt, lastMessage := Some(saved), unreadCount := Some(0))
    else c
  }

  /** The chats-cache update after an upload returns `saved`. */
  function ReconcileChats(v: ChatsView, chatId: string, saved: Message): (r: ChatsView)
    ensures r.totalUnread == v.totalUnread
    ensures MovesChat(saved, chatId) ==>
      r.chats == RemoveChat(v.chats, chatId) + [ChatFromSaved(saved, RealChatId(saved, chatId))]
    ensures !MovesChat(saved, chatId) ==> (|r.chats| == |v.chats| &&
      forall i :: 0 <= i < |v.chats| ==> r.chats[i] == SavedInto(v.chats[i], chatId, saved))
  {
    if MovesChat(saved, chatId)
    then ChatsView(RemoveChat(v.chats, chatId) + [ChatFromSaved(saved, RealChatId(saved, chatId))], v.totalUnread)
    else ChatsView(seq(|v.chats|, i requires 0 <= i < |v.chats| => SavedInto(v.chats[i], chatId, saved)),
                   v.totalUnread)
  }

  /** The saved message does not take the temp message's place: it goes last. When the temp message
      was not last, the two lists differ at its old position. */
  lemma SavedGoesLast(list: seq<Message>, p: nat, saved: Message)
    requires p < |list| - 1 && saved != list[p + 1]
    requires forall i :: 0 <= i < |list| && i != p ==> list[i].messageId != list[p].messageId
    ensures var r := RemoveMessage(list, list[p].messageId) + [saved];
      |r| == |list| && r[p] != saved
  {
    var id := list[p].messageId;
    RemoveOneAt(list, p);
    var r := RemoveMessage(list, id) + [saved];
    assert r[p] == list[p + 1];
  }

  lemma {:induction false} RemoveOneAt(list: seq<Message>, p: nat)
    requires p < |list|
    requires forall i :: 0 <= i < |list| && i != p ==> list[i].messageId != list[p].messageId
    ensures RemoveMessage(list, list[p].messageId) == list[..p] + list[p + 1..]
  {
    var id := list[p].messageId;
    if p == 0 {
      RemoveMessageAbsent(list[1..], id);
    } else {
      RemoveOneAt(list[1..], p - 1);
      assert list[1..][..p - 1] == list[1..p];
      assert list[1..][p..] == list[p + 1..];
      assert [list[0]] + list[1..p] == list[..p];
    }
  }

  /** Two uploads into the same temporary chat both reconcile to the real chat, and the second one adds
      a second entry for it: the first already removed the temp entry, so nothing is replaced. */
  lemma TwoUploadsDuplicateChat(v: ChatsView, tempId: string, s1: Message, s2: Message)
    requires StartsWith(tempId, TEMP_PREFIX) && s1.chatId != "" && s1.chatId == s2.chatId && s1.chatId != tempId
    requires CountChats(v.chats, s1.chatId) == 0
    ensures CountChats(ReconcileChats(ReconcileChats(v, tempId, s1), tempId, s2).chats, s1.chatId) == 2
  {
    var realId := s1.chatId;
    var once := ReconcileChats(v, tempId, s1);
    var c1 := ChatFromSaved(s1, realId);
    var removed := RemoveChat(v.chats, tempId);
    RemoveChatCount(v.chats, tempId, realId);
    CountAppendOne(removed, c1, realId);
    var twice := ReconcileChats(once, tempId, s2);
    var c2 := ChatFromSaved(s2, realId);
    assert CountChats(once.chats, tempId) == 0 by {
      CountAppendNot(removed, c1, tempId);
      RemovedNone(v.chats, tempId);
    }
    CountZeroNotFound(once.chats, tempId);
    CountAppendOne(once.chats, c2, realId);
  }

  lemma {:induction false} RemoveChatCount(chats: seq<Chat>, id: string, other: string)
    requires other != id
    ensures CountChats(RemoveChat(chats, id), other) == CountChats(chats, other)
  {
    if chats != [] {
      RemoveChatCount(chats[1..], id, other);
    }
  }

  lemma {:induction false} RemovedNone(chats: seq<Chat>, id: string)
    ensures CountChats(RemoveChat(chats, id), id) == 0
  {
    if chats != [] {
      RemovedNone(chats[1..], id);
    }
  }

  lemma {:induction false} CountAppendNot(chats: seq<Chat>, c: Chat, id: string)
    requires !IsChat(c, id)
    ensures CountChats(chats + [c], id) == CountChats(chats, id)
  {
    if chats == [] {
      assert chats + [c] == [c];
    } else {
      assert (chats + [c])[1..] == chats[1..] + [c];
      CountAppendNot(chats[1..], c, id);
    }
  }
}
