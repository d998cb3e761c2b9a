# blsat-block in Dafny

This project models the logic of blsat-block, a TypeScript repository that holds three separate
applications, and proves properties of that model:

- **The chat client.**
  - `services/messageService.ts`: the STOMP connection manager (reconnect backoff, a single pending
    timer, attempt counter, remembered handlers), the subscriptions and frame handling, typing
    publication, and the REST send payload.
  - `services/api.ts`: the axios interceptors. Credentials are attached, and a 401 is refreshed once,
    with a queue of parked requests.
  - `store/authStore.ts`: the session store and its persisted subset.
  - `pages/ChatDashboard.tsx`: the chat caches and their updaters (incoming message, open chat,
    edit, delete message, delete chat, temporary chats), optimistic sends and their reconciliation,
    typing in both directions, and the small helpers (chunking, type choice, durations, the audio
    queue, emoji insertion).
- **The block puzzle.**
  - `components/game/game-board.tsx`: the 8 by 8 board (placement, line clearing, scoring, refill,
    game over, power-ups).
  - `components/game/block-shapes.ts`: the shape table and the dealer.
  - The economy: `app/page.tsx` (scores, gold, inventory), the power-up shop, code redemption, free
    gold links and daily tasks.
- **The account forms.**
  - `lib/utils.ts`.
  - The one-time-code screen.
  - The e-mail, username and password changes.
  - Sign-up.
  - The device list.

Each source file is one module, except `pages/ChatDashboard.tsx`, which is split into three: `ChatCache` (the
query-cache updaters), `ChatHelpers` (the small pure helpers) and `ChatDashboard` (the page itself). The shared JavaScript string built-ins are in `JsString`, the chat
records of `types.ts` are in `Types`, and `Common` and `Forms` hold shared definitions.

**How the model is written**
- Pure code (filters, branch chains, table lookups) becomes functions, with lemmas about them.
- A React component or a module whose state changes step by step becomes a class. Its methods state
  the whole new state in terms of the old one.
- A handler that awaits a server call is split at the await:
  - the first half applies the guards and returns the request it would send;
  - the second half takes the call's outcome (`Answered(response)` or `Threw(message)`) as a
    parameter.
- The chat page's class has one setter per state field (`SetView`, `SetMessages`, … `SetPendingDelete`), standing for React's `setState` functions. They are glue for the handlers and have no row in the table below.
- Timers are explicit events (`Tick`, `FireTimer`, `TypingTimerFired`).
- Each `Math.random()` draw is an exact real in [0, 1) passed in.
- `Date.now()` texts and localStorage contents are parameters or fields.

## Model

| member | source | states |
|---|---|---|
| Types.PlainMessage | types.ts:42-64 | a message built from its required fields alone has every optional field absent |
| Types.MergeMessage | pages/ChatDashboard.tsx:928 | `{ ...m, ...edited }`: the server's required fields win, each optional field of the patch wins when present and the old one is kept otherwise (a null counts as absent) |
| Types.MergeIdempotent | pages/ChatDashboard.tsx:928 | merging the same patch twice changes nothing more, and merging a message over itself is the identity |
| AuthStore.InitialState | store/authStore.ts:15-19 | before rehydration there are no tokens and no user, and the device id is the one saved under `X-Device-Id` |
| AuthStore.Partialize | store/authStore.ts:30-34 | what is persisted is exactly the two tokens and the user |
| AuthStore.Rehydrate | store/authStore.ts:28-35 | rehydration keeps the current device id, and with nothing stored keeps the state as it is |
| AuthStore.DeviceIdNotPersisted | store/authStore.ts:30-34 | the persisted form does not depend on the device id |
| AuthStore.ReloadRoundTrip | store/authStore.ts:13-37 | a reload gives back every persisted field exactly, with the device id taken from `X-Device-Id` |
| AuthStore.Store.constructor | store/authStore.ts:15-19 | the new store's state is the initial state |
| AuthStore.Store.SetAuth | store/authStore.ts:20 | both tokens are replaced; user and device id are unchanged |
| AuthStore.Store.SetUser | store/authStore.ts:21 | only the user changes |
| AuthStore.Store.SetDeviceId | store/authStore.ts:22 | only the device id changes |
| AuthStore.Store.Logout | store/authStore.ts:23-26 | tokens and user are cleared, the device id is kept, and nothing of the session is left to persist |
| Api.Bearer | services/api.ts:19 | the header value is `Bearer ` followed by exactly the token |
| Api.Credential | services/api.ts:13-23 | a refresh call carries the refresh token and every other call the access token, each only when it is non-empty |
| Api.CredentialNeverCrosses | services/api.ts:17-23 | when the tokens differ, the refresh call never carries the access token and no other call carries the refresh token |
| Api.AddAuthHeaders | services/api.ts:12-29 | url and retry mark are kept, headers become present; `Authorization` and `X-Device-Id` are set when there is a credential or device id and every other header is left as it was |
| Api.RetriedAtMostOnce | services/api.ts:73-81 | a request marked `_retry` never triggers another refresh, and only a 401 triggers one |
| Api.WithToken | services/api.ts:90-91 | the retried request keeps its url and mark and carries `Bearer <token>` |
| Api.ResolveQueue | services/api.ts:39-42 | one outcome per parked request, in order: retried with the new token when there is one, rejected otherwise |
| Api.ResolveQueueAllOrNothing | services/api.ts:84-93 | with a token every parked request is retried, without one every parked request is rejected |
| Api.ResolveQueueSnoc | services/api.ts:38-42 | resolving a queue with one more request appends exactly that request's outcome |
| Api.RefreshRequest | services/api.ts:51-56 | the refresh POST goes to `/api/auth/refresh` with the refresh token as bearer credential |
| Api.PerformRefresh | services/api.ts:44-66 | no refresh token: logout and a throw, no request; otherwise the POST is sent and a success stores both new tokens, an unsuccessful answer logs out, a failed request leaves the store as it is |
| Api.RefreshCoordinator.constructor | services/api.ts:35-36 | no refresh in flight and nothing parked |
| Api.RefreshCoordinator.OnResponseError | services/api.ts:71-98 | a non-refreshable error is rejected with nothing changed; otherwise the request is marked `_retry` and either parked behind the refresh in flight or starts one |
| Api.RefreshCoordinator.ResolveParked | services/api.ts:39-42 | the parked requests are resolved in order and the queue is emptied |
| Api.RefreshCoordinator.FinishRefresh | services/api.ts:97-112 | on success the parked requests and the original are retried with the new token; on any failure the user is logged out, every parked request is rejected and the page goes to sign-in; the flag is cleared either way |
| MessageService.KeepTruthy | services/messageService.ts:57 | an optional text field is kept exactly when it is present and non-empty, and then unchanged |
| MessageService.BuildSendBody | services/messageService.ts:54-74 | the receiver, type, `system` and duration are copied; content and reply id only when truthy; the body is multipart exactly when a file is attached, and then carries that file |
| MessageService.FalsyFieldsDropped | services/messageService.ts:57-61 | an empty content or reply id is sent as if absent, while `system: false` and a duration of 0 are still sent |
| MessageService.MapType | services/messageService.ts:296-307 | each typing status maps to its message type, both voice statuses to `VOICE`, no status to none |
| MessageService.MapTypeCollisions | services/messageService.ts:296-307 | two different statuses announce the same type only when they are the two voice statuses |
| MessageService.MapTypeRange | services/messageService.ts:296-307 | a status never maps to `VIDEO_NOTE` or `SYSTEM`, and maps to a type exactly when present |
| MessageService.QueueAndTopic | services/messageService.ts:142-159 | each event kind is subscribed on a user queue and a user topic with the same handler |
| MessageService.PairCount | services/messageService.ts:142-159 | a queue-and-topic pair counts twice on its own channel and never on another |
| MessageService.CountChannelAppend | services/messageService.ts:137-240 | counting subscriptions of a channel distributes over concatenation |
| MessageService.CountAt | services/messageService.ts:137-240 | the subscriptions made on connect count, per channel, as the handlers given predict |
| MessageService.SubscriptionCounts | services/messageService.ts:137-240 | messages and typing are subscribed twice, notifications once, and each optional event twice exactly when its handler was given |
| MessageService.HandleFrame | services/messageService.ts:142-149 | a handler receives the frame exactly when its body parses; an empty body is ignored and an unparseable one logged; only the notification callback lets a parse error escape |
| MessageService.Deliver | services/messageService.ts:137-240 | one outcome per subscription of the frame's channel |
| MessageService.DeliverAppend | services/messageService.ts:137-240 | delivering to two lists of subscriptions is delivering to each in turn |
| MessageService.MessageDeliveredTwice | services/messageService.ts:142-159 | a parsed message arriving on the message channel reaches `onMessage` twice, once from the queue and once from the topic |
| MessageService.NoDeliveryOffChannel | services/messageService.ts:137-240 | a frame on a channel nobody subscribed to produces no outcome |
| MessageService.ReconnectDelay | services/messageService.ts:94-95 | the backoff is 2000 ms, then 5000 ms, then 10000 ms from the second attempt on |
| MessageService.ReconnectDelayMonotone | services/messageService.ts:94-95 | the backoff never shrinks as the attempts grow |
| MessageService.Schedule | services/messageService.ts:92-96 | with a timer pending nothing changes; otherwise a timer is armed with the current backoff |
| MessageService.ScheduleIdempotent | services/messageService.ts:93 | scheduling twice is scheduling once, and afterwards a timer is pending |
| MessageService.Connect | services/messageService.ts:111-135 | without a token, a user, or with a client already active nothing changes; otherwise the handlers are remembered, the counter is reset and a client with the bearer credential is built |
| MessageService.FireTimer | services/messageService.ts:96-108 | without a pending timer there is no callback, and nothing changes |
| MessageService.FireTimerEffect | services/messageService.ts:96-108 | the firing clears the timer and raises the counter by one, unless a new client is built from remembered handlers, which resets it |
| MessageService.FireTimerWhileActive | services/messageService.ts:96-120 | against a still-active client the firing only clears the timer and counts |
| MessageService.LibraryConnected | services/messageService.ts:137-140 | on connect the counter is reset and the client is connected with the full subscription list |
| MessageService.TransportFailure | services/messageService.ts:241-252 | every failure kind arms a reconnect timer (keeping a pending one) without touching the counter or the remembered handlers |
| MessageService.Disconnect | services/messageService.ts:258-265 | the timer is cancelled and the client dropped; counter and handlers are kept |
| MessageService.TransitionsPreserveValid | services/messageService.ts:83-265 | every transition keeps a live client built from the remembered handlers with a bearer credential |
| MessageService.FailureRoundsCount | services/messageService.ts:92-135 | k rounds of socket close and timer firing against an active client raise the counter by exactly k and leave the library's own 3000 ms reconnect in charge |
| MessageService.DisconnectThenLateClose | services/messageService.ts:245-265 | after a disconnect, a late close callback arms a timer whose firing builds a new client for a signed-in user |
| MessageService.TypingPublish | services/messageService.ts:295-320 | a typing frame is published exactly when the client is connected, with the receiver and flag given |
| MessageService.ChatDeletedPublish | services/messageService.ts:322-327 | without a client nothing happens; through a connected one the payload is published unchanged |
| MessageService.StompSession.constructor | services/messageService.ts:83-90 | no client, no timer, no attempts, no handlers |
| MessageService.StompSession.ScheduleReconnect | services/messageService.ts:92-109 | the new state is `Schedule` of the old |
| MessageService.StompSession.ConnectStomp | services/messageService.ts:111-256 | the new state is `Connect` of the old |
| MessageService.StompSession.ReconnectTimerFired | services/messageService.ts:96-108 | the new state is `FireTimer` of the old |
| MessageService.StompSession.OnConnect | services/messageService.ts:137-240 | the new state is `LibraryConnected` of the old |
| MessageService.StompSession.OnTransportFailure | services/messageService.ts:241-252 | the new state is `TransportFailure` of the old |
| MessageService.StompSession.DisconnectStomp | services/messageService.ts:258-265 | the new state is `Disconnect` of the old |
| MessageService.StompSession.SendStompTyping | services/messageService.ts:295-320 | the frame published is `TypingPublish` of the state, which is unchanged |
| MessageService.StompSession.SendChatDeletedEvent | services/messageService.ts:322-327 | the result is `ChatDeletedPublish` of the state, which is unchanged |
| ChatHelpers.ChunkText | pages/ChatDashboard.tsx:120-126 | the chunks concatenate back to the text; all but the last have exactly `size` characters, none is empty, their number is the length divided by `size` rounded up, and the empty text gives `[""]` |
| ChatHelpers.FullLength | pages/ChatDashboard.tsx:120-126 | chunks of exactly `size` characters concatenate to `size` times their number |
| ChatHelpers.ChunkCount | pages/ChatDashboard.tsx:120-126 | the number of chunks is the text length divided by the chunk size, rounded up |
| ChatHelpers.ChunkStep | pages/ChatDashboard.tsx:120-126 | one more slice extends the text read so far; it is full unless it reaches the end of the text, and then it is the last |
| ChatHelpers.ChunkBounds | pages/ChatDashboard.tsx:120-126 | full chunks followed by one partial chunk are all non-empty and within the size, and their number is the length divided by the size, rounded up |
| ChatHelpers.PickMessageType | pages/ChatDashboard.tsx:1490-1496 | the MIME type, lowercased, gives `IMAGE`, `VIDEO`, `VOICE` for ogg/webm audio, `AUDIO` for any other audio, and `FILE` otherwise; never text, system or video note |
| ChatHelpers.SendStatusAnnouncesKind | pages/ChatDashboard.tsx:1148-1155 | every picked type has a sending status, that status is not "writing text", and it announces the picked type again |
| ChatHelpers.Receiver | pages/ChatDashboard.tsx:1288 | the peer is one of the chat's two users and, when they differ, never me; in a chat I am not in it is `user1Id` |
| ChatHelpers.SendTypingState | pages/ChatDashboard.tsx:1284-1291 | a frame leaves only with a chat selected and a status that is none or "writing text"; it goes to the peer, never to me when the chat's users differ, with the flag set exactly when a status was given |
| ChatHelpers.AttachmentStatusNotPublished | pages/ChatDashboard.tsx:1148-1155 | the sending statuses computed for a file are never published |
| ChatHelpers.NormalizeTyping | pages/ChatDashboard.tsx:888-894 | an incoming frame counts as "writing text" exactly when its status says so in any case, or it is typing with type `TEXT` |
| ChatHelpers.ToUpperIdempotent | pages/ChatDashboard.tsx:889 | uppercasing twice is uppercasing once |
| ChatHelpers.NormalizeTypingCases | pages/ChatDashboard.tsx:888-899 | case in the status does not matter, and any other status without a text type shows the peer as not typing |
| ChatHelpers.CanEditMessage | pages/ChatDashboard.tsx:659-664 | a message may be edited exactly when I sent it and it has no type or type `TEXT` |
| ChatHelpers.SystemMessagesNotEditable | pages/ChatDashboard.tsx:659-664 | a system message and the marker of an emptied chat can never be edited |
| ChatHelpers.TwoDigits | pages/ChatDashboard.tsx:359 | a number under 60 padded to two characters is two digits that read back as the number |
| ChatHelpers.FormatDuration | pages/ChatDashboard.tsx:355-361 | no positive duration reads `00:00`; otherwise the text before the colon reads back as the rounded minutes and the two digits after it as the remaining seconds |
| ChatHelpers.ShortDurationLabel | pages/ChatDashboard.tsx:355-361 | a duration under half a second reads `0:00`, which differs from the no-duration label |
| ChatHelpers.FindAudio | pages/ChatDashboard.tsx:395 | `findIndex`: the first position with the id, or none when no item has it |
| ChatHelpers.NextAudio | pages/ChatDashboard.tsx:391-398 | the next item exists exactly when the queue belongs to the playing chat and the current item is found before the last position |
| ChatHelpers.PrevAudio | pages/ChatDashboard.tsx:400-407 | the previous item exists exactly when the queue belongs to the playing chat and the current item is found after the first position |
| ChatHelpers.NextPrevRoundTrip | pages/ChatDashboard.tsx:391-407 | with distinct ids, next then previous (and previous then next) lands on the item we started from |
| ChatHelpers.FindDistinct | pages/ChatDashboard.tsx:395 | with distinct ids, looking up an item's id finds its own position |
| ChatHelpers.InsertEmoji | pages/ChatDashboard.tsx:374-389 | the new input never exceeds 4096 characters, and without a text area it is the old input plus the emoji, cut to 4096 |
| ChatHelpers.InsertEmojiAtCaret | pages/ChatDashboard.tsx:380-382 | when the result fits, the emoji sits at the caret and removing it gives the input with the selection deleted |
| ChatHelpers.InsertEmojiAtEnd | pages/ChatDashboard.tsx:380-382 | a caret at the end, or no caret position reported, is the same as appending |
| ChatCache.GetChatId | pages/ChatDashboard.tsx:674 | a chat's id is its `id` when non-empty, else its non-empty `chatId`, else its non-empty `chat_id`, else none; a found id is one of the three and never empty |
| ChatCache.SumUnreadAppend | pages/ChatDashboard.tsx:346-351 | the per-chat unread counts add up over concatenated lists |
| ChatCache.SumUnreadUpdate | pages/ChatDashboard.tsx:875-881 | replacing one chat changes the sum by the difference of its counts |
| ChatCache.SumUnreadNonNegative | pages/ChatDashboard.tsx:346-351 | non-negative counts have a non-negative sum |
| ChatCache.FindChat | pages/ChatDashboard.tsx:856 | `findIndex` by chat id: the first chat with the id, or none when no chat has it |
| ChatCache.ChatFromMessage | pages/ChatDashboard.tsx:861-873 | the entry added for an unknown chat carries the message as last message, the given unread count, and the message's chat id |
| ChatCache.IncomingMessage | pages/ChatDashboard.tsx:851-885 | the counter rises by one exactly when the message is not mine and not in the open chat; an unknown chat is appended with that count, a known one gets the message as last message and its count raised by one or zeroed, every other chat unchanged |
| ChatCache.IncomingCountedKeepsConsistent | pages/ChatDashboard.tsx:851-885 | an unread message keeps the counter equal to the sum of the per-chat counts |
| ChatCache.IncomingUncountedDrifts | pages/ChatDashboard.tsx:877 | a message of mine or in the open chat zeroes a non-zero count without lowering the counter, so the counter drifts from the sum |
| ChatCache.ClearUnread | pages/ChatDashboard.tsx:1052-1058 | same length; the open chat's positive count becomes 0 and every other chat is unchanged |
| ChatCache.OpenChat | pages/ChatDashboard.tsx:1048-1061 | the chats are cleared for the open chat and the counter drops by the amount cleared, never below 0 |
| ChatCache.Max0 | pages/ChatDashboard.tsx:1059 | `Math.max(0, x)` is x or 0, whichever is larger |
| ChatCache.ClearUnreadSum | pages/ChatDashboard.tsx:1051-1059 | clearing lowers the sum of counts by exactly the amount cleared |
| ChatCache.ClearUnreadNonNegative | pages/ChatDashboard.tsx:1052-1058 | clearing keeps every count non-negative |
| ChatCache.OpenChatKeepsConsistent | pages/ChatDashboard.tsx:1048-1061 | opening a chat keeps a consistent cache consistent, leaves the opened chat with no unread count and every other chat untouched |
| ChatCache.ClearedAmountNone | pages/ChatDashboard.tsx:1051-1058 | when no chat has unread messages for the id, nothing is cleared |
| ChatCache.OpenChatIdempotent | pages/ChatDashboard.tsx:1048-1061 | running the effect again changes nothing |
| ChatCache.EditMessages | pages/ChatDashboard.tsx:927-929 | same length; each message with the edited id gets the edit spread over it, the others stay |
| ChatCache.EditChats | pages/ChatDashboard.tsx:930-942 | the counter and the list length are kept and each chat is updated on its own |
| ChatCache.EditIdempotent | pages/ChatDashboard.tsx:927-942 | applying the same edit twice is applying it once, in both caches |
| ChatCache.EditKeepsShape | pages/ChatDashboard.tsx:927-942 | an edit changes no message id and no chat's identity, unread count or position |
| ChatCache.RemoveMessage | pages/ChatDashboard.tsx:808 | the filtered list is no longer, holds no message with the id, and only messages of the original |
| ChatCache.RemoveMessageAbsent | pages/ChatDashboard.tsx:808 | the filter changes the list exactly when some message has the id |
| ChatCache.ClearedMarker | pages/ChatDashboard.tsx:818-828 | the marker is the read system message `cleared-<chat>` of that chat with the fixed text |
| ChatCache.MessageDeletedChats | pages/ChatDashboard.tsx:812-835 | the counter and other chats are kept; the chat gets the marker and count 0 when emptied, otherwise its last remaining message when there is one |
| ChatCache.ClearedChatDrifts | pages/ChatDashboard.tsx:829-834 | emptying a conversation with unread messages zeroes its count but not the counter, which then drifts |
| ChatCache.RemoveChat | pages/ChatDashboard.tsx:914 | the filtered list is no longer, holds no chat with the id, and only chats of the original |
| ChatCache.RemoveChatKeepsOthers | pages/ChatDashboard.tsx:914 | the list shrinks by the number of chats with the id, and is unchanged when there is none |
| ChatCache.AfterChatDeleted | pages/ChatDashboard.tsx:913-916 | every entry with the id goes and the counter drops by the first such entry's count, never below 0 |
| ChatCache.RemoveChatSum | pages/ChatDashboard.tsx:913-916 | with at most one entry for the id, removing it lowers the sum by that entry's count |
| ChatCache.CountZeroNotFound | pages/ChatDashboard.tsx:913-916 | with no entry for the id, nothing is found and nothing removed |
| ChatCache.ChatDeletedKeepsConsistent | pages/ChatDashboard.tsx:907-922 | with at most one entry and non-negative counts, deleting keeps the cache consistent and no entry with the id remains |
| ChatCache.TempChatId | pages/ChatDashboard.tsx:1537 | a temporary chat id starts with `temp-` |
| ChatCache.FindPeerChat | pages/ChatDashboard.tsx:1532 | the first chat with the peer as either user, or none when no chat has them |
| ChatCache.TempChat | pages/ChatDashboard.tsx:1544-1553 | the temporary chat has the `temp-<peer>` id, no unread messages, no last message, and the peer as second user |
| ChatCache.EnsureTempChat | pages/ChatDashboard.tsx:1538-1557 | an existing `temp-<peer>` entry leaves the cache as it is; otherwise the temporary chat is appended |
| ChatCache.EnsureTempChatIdempotent | pages/ChatDashboard.tsx:1538-1557 | starting the same chat twice adds one entry, whatever the clock says |
| ChatCache.CountAppendOne | pages/ChatDashboard.tsx:1541-1554 | appending a chat with the id counts one more |
| ChatCache.CountPositiveFound | pages/ChatDashboard.tsx:1539 | a found chat is counted at least once |
| ChatCache.PeerRoute | pages/ChatDashboard.tsx:2040-2058 | the route is never empty, and without a chat with that user it is the `temp-<user>` chat |
| ChatCache.ReconcileMessages | pages/ChatDashboard.tsx:1198-1219 | the temp message is dropped and the saved one appended last, under the real chat id when the chat moves |
| ChatCache.ChatFromSaved | pages/ChatDashboard.tsx:1210 | the replacing entry has the real id, the saved message as last message, no unread count and no user ids |
| ChatCache.ReconcileChats | pages/ChatDashboard.tsx:1207-1225 | the counter is kept; a moved chat replaces every temp entry by one entry at the end, otherwise the matching chats get the saved message |
| ChatCache.SavedGoesLast | pages/ChatDashboard.tsx:1216-1218 | the saved message does not take the temp message's place: when the temp message was not last, the list differs at its position |
| ChatCache.RemoveOneAt | pages/ChatDashboard.tsx:1217 | removing a unique id removes exactly that position |
| ChatCache.TwoUploadsDuplicateChat | pages/ChatDashboard.tsx:1199-1213 | two uploads into the same temporary chat leave two entries for the real chat |
| ChatCache.RemoveChatCount | pages/ChatDashboard.tsx:1208 | removing one id does not change the count of another |
| ChatCache.RemovedNone | pages/ChatDashboard.tsx:1208 | after removing an id, no entry with it remains |
| ChatCache.CountAppendNot | pages/ChatDashboard.tsx:1210 | appending a chat without the id leaves its count unchanged |
| ChatDashboard.ErrorNotice | pages/ChatDashboard.tsx:1368-1373 | a failed call shows its 401 text, its 403 text, its 404 text (which deleting a chat does not have), or the generic failure text |
| ChatDashboard.SelectedIndex | pages/ChatDashboard.tsx:686 | the open chat is the first whose id equals the route's, and there is none when no chat has it |
| ChatDashboard.SelectedIdOf | pages/ChatDashboard.tsx:686-687 | an open chat id is always the route's and belongs to a listed chat |
| ChatDashboard.SelectedMatchesRoute | pages/ChatDashboard.tsx:686-687 | the route's chat is open exactly when the list holds a chat with that id |
| ChatDashboard.UploadFor | pages/ChatDashboard.tsx:1148-1185 | the temp message of a file is `<now>-<name>` in the open chat, carries the picked type, and its request is the multipart upload of that file to the peer; it is tracked exactly when the file exceeds 1 000 000 bytes |
| ChatDashboard.UploadsOfAccepted | pages/ChatDashboard.tsx:1143-1147 | exactly the files up to 200 MB are uploaded, in order, one upload per file |
| ChatDashboard.UploadsAreMultipart | pages/ChatDashboard.tsx:1179-1185 | every upload is a multipart request carrying a file within the limit and the type shown on its temp message |
| ChatDashboard.Temps | pages/ChatDashboard.tsx:1171 | one temp message per upload, in order |
| ChatDashboard.TrackAllEntries | pages/ChatDashboard.tsx:1172-1178 | progress entries are added exactly for the tracked uploads and every other entry is left as it was |
| ChatDashboard.ErrorAfterCases | pages/ChatDashboard.tsx:1121-1147 | with every file within the limit the banner is untouched; otherwise it names the last file over the limit |
| ChatDashboard.ErrorAfterWithin | pages/ChatDashboard.tsx:1121-1147 | when no file is over the limit the banner is what it was |
| ChatDashboard.ErrorAfterLast | pages/ChatDashboard.tsx:1121-1147 | the banner names the oversized file that no later oversized file follows |
| ChatDashboard.TextTemps | pages/ChatDashboard.tsx:1240-1253 | one temp `TEXT` message per segment, in order, in the open chat, with the segment as content |
| ChatDashboard.TextRequests | pages/ChatDashboard.tsx:1254-1259 | one JSON `TEXT` request per segment with the segment as content and no file |
| ChatDashboard.NatToStringInjective | pages/ChatDashboard.tsx:1242 | different indexes print differently |
| ChatDashboard.TextTempIdsDistinct | pages/ChatDashboard.tsx:1242 | the temp messages of one text send have pairwise distinct ids |
| ChatDashboard.StartTexts | pages/ChatDashboard.tsx:1134-1265 | the segments concatenate to the text, each non-empty and at most 4096 characters; one request and one temp message per segment |
| ChatDashboard.StartUploads | pages/ChatDashboard.tsx:1142-1237 | the loop over the files gives exactly the uploads, temp messages, progress entries and banner the file-by-file definitions give |
| ChatDashboard.PickStep | pages/ChatDashboard.tsx:1142-1237 | one more file adds its upload when within the limit, and otherwise names the banner |
| ChatDashboard.UploadStep | pages/ChatDashboard.tsx:1142-1237 | one more upload appends its temp message and, when tracked, sets its progress entry to the file size |
| ChatDashboard.ComposeSend | pages/ChatDashboard.tsx:1126-1272 | without an open chat or anything to send nothing happens; otherwise uploads or text segments are started, the composer is reset and "stopped" is published, and nothing else on the page changes |
| ChatDashboard.DeletedBy | pages/ChatDashboard.tsx:1324 | `deletedBy` is my id when I have one, `unknown` when there is no open chat either, and never empty |
| ChatDashboard.Dashboard.constructor | pages/ChatDashboard.tsx:677-690 | empty caches, nothing typed, nothing pending, on the given route |
| ChatDashboard.Dashboard.ChatsLoaded | pages/ChatDashboard.tsx:677-685 | only the chats entry changes |
| ChatDashboard.Dashboard.MessagesLoaded | pages/ChatDashboard.tsx:705-706 | only that chat's message list changes |
| ChatDashboard.Dashboard.Navigate | pages/ChatDashboard.tsx:686 | only the route changes |
| ChatDashboard.Dashboard.RegisterStompHandlers | pages/ChatDashboard.tsx:803-947 | the handlers remember the chat open when they were registered |
| ChatDashboard.Dashboard.OpenChatEffect | pages/ChatDashboard.tsx:1048-1061 | with a chat open the chats entry becomes `OpenChat` of it; otherwise nothing changes |
| ChatDashboard.Dashboard.OnIncomingMessage | pages/ChatDashboard.tsx:842-886 | the message is appended to the open chat's list when it belongs there, and the chats entry becomes `IncomingMessage` of it |
| ChatDashboard.Dashboard.OnTypingEvent | pages/ChatDashboard.tsx:887-906 | the sender's typing flag is set exactly when the frame normalises to "writing text", and its status entry exists exactly then |
| ChatDashboard.Dashboard.OnChatDeletedEvent | pages/ChatDashboard.tsx:907-922 | without a chat id nothing changes; otherwise the chat leaves both caches, and if it was open the route goes back and the toast shows |
| ChatDashboard.Dashboard.OnMessageEditedEvent | pages/ChatDashboard.tsx:923-943 | without a message id nothing changes; otherwise the edit is merged into both caches |
| ChatDashboard.Dashboard.OnMessageDeletedEvent | pages/ChatDashboard.tsx:804-839 | without ids nothing changes; otherwise the message is removed, the chat's last message or marker follows, and the toast shows when the chat open at registration was emptied |
| ChatDashboard.Dashboard.StartChatWith | pages/ChatDashboard.tsx:2039-2078 | a chat with the user that has an id is opened; otherwise the temp chat is added at most once and opened |
| ChatDashboard.Dashboard.StartChatFromMention | pages/ChatDashboard.tsx:1522-1558 | an existing chat with the user is opened by its id, even a missing one; otherwise the temp chat is added at most once and opened |
| ChatDashboard.Dashboard.HandleTyping | pages/ChatDashboard.tsx:1293-1303 | the input is capped at 4096 characters; with a chat open "writing" goes to the peer and the single stop timer is armed for that chat |
| ChatDashboard.Dashboard.TypingTimerFired | pages/ChatDashboard.tsx:1300-1302 | "stopped" goes to the peer of the chat the timer was armed for, and the timer is gone |
| ChatDashboard.Dashboard.SendMessage | pages/ChatDashboard.tsx:1126-1272 | the page moves to the state `SentAs` describes |
| ChatDashboard.Dashboard.StoreSend | pages/ChatDashboard.tsx:1136 | only the message cache, progress entries and banner change |
| ChatDashboard.Dashboard.ResetComposer | pages/ChatDashboard.tsx:1267-1270 | no text, no attachments, no reply, not a system message |
| ChatDashboard.Dashboard.Reconcile | pages/ChatDashboard.tsx:1195-1235 | the saved message replaces the temp one in both caches, the route follows a moved chat and the progress entry goes; nothing else changes |
| ChatDashboard.Dashboard.UploadSettled | pages/ChatDashboard.tsx:1195-1235 | with a saved message both caches are reconciled and the route follows a moved chat; either way the progress entry goes and "stopped" is published |
| ChatDashboard.Dashboard.TextSettled | pages/ChatDashboard.tsx:1260-1263 | a failure only shows the not-sent banner; the temp message stays either way |
| ChatDashboard.Dashboard.RequestDeleteChat | pages/ChatDashboard.tsx:1311-1316 | the given chat, or else the open one, awaits confirmation |
| ChatDashboard.Dashboard.ConfirmDeleteChat | pages/ChatDashboard.tsx:1318-1345 | nothing pending, nothing happens; a failed delete shows its banner; a successful one publishes the event and, unless publishing throws, drops the chat and shows the toast; the confirmation is cleared |
| ChatDashboard.Dashboard.DropChat | pages/ChatDashboard.tsx:1326-1335 | the chat leaves both caches, the "deleted" toast shows, the confirmation is cleared and, when the chat was open, the route goes back to the list |
| ChatDashboard.Dashboard.DeleteFailed | pages/ChatDashboard.tsx:1318-1345 | an abandoned deletion changes only the banner and clears the confirmation |
| ChatDashboard.Dashboard.StoreEdit | pages/ChatDashboard.tsx:1347-1377 | the edit is merged into both caches and the "edited" toast shows; nothing else changes |
| ChatDashboard.Dashboard.EditMessage | pages/ChatDashboard.tsx:1347-1377 | a cancelled prompt does nothing; otherwise the trimmed answer is sent, and the server's message (or the old one with the new text) is merged into both caches, or the failure's banner shows |
| ChatDashboard.Dashboard.DeleteMessage | pages/ChatDashboard.tsx:1379-1422 | a failure shows its banner; a success removes the message, updates the chat's last message or marker and shows which toast fits |
| BlockShapes.ListedIncreasing | components/game/block-shapes.ts:10-380 | in a list where each cell comes before the next (row by row, left to right), every earlier cell comes before every later one |
| BlockShapes.ListedWellFormed | components/game/block-shapes.ts:10-380 | cells listed in that order are in the 5 by 5 box and never repeat |
| BlockShapes.ListedOf1 | components/game/block-shapes.ts:10-380 | a list of 1 cell, each in the box, is listed the way the table lists cells |
| BlockShapes.ListedOf2 | components/game/block-shapes.ts:10-380 | a list of 2 cells, each in the box and each before the next, is listed the way the table lists cells |
| BlockShapes.ListedOf3 | components/game/block-shapes.ts:10-380 | a list of 3 cells, each in the box and each before the next, is listed the way the table lists cells |
| BlockShapes.ListedOf4 | components/game/block-shapes.ts:10-380 | a list of 4 cells, each in the box and each before the next, is listed the way the table lists cells |
| BlockShapes.ListedOf5 | components/game/block-shapes.ts:10-380 | a list of 5 cells, each in the box and each before the next, is listed the way the table lists cells |
| BlockShapes.ListedOf9 | components/game/block-shapes.ts:10-380 | a list of 9 cells, each in the box and each before the next, is listed the way the table lists cells |
| BlockShapes.PartsRated | components/game/block-shapes.ts:10-380 | the simple, medium and complex parts of the table hold shapes of their own rating only |
| BlockShapes.SimpleListed | components/game/block-shapes.ts:11-102 | every simple shape lists its cells in order within the box |
| BlockShapes.MediumListed | components/game/block-shapes.ts:103-302 | every medium shape lists its cells in order within the box |
| BlockShapes.ComplexListed | components/game/block-shapes.ts:303-379 | every complex shape lists its cells in order within the box |
| BlockShapes.SmallListed | components/game/block-shapes.ts:12-30 | the single cell and the two dominoes list their cells in order within the box |
| BlockShapes.ThreesListed | components/game/block-shapes.ts:31-61 | the two straight triominoes and the 2 by 2 square list their cells in order within the box |
| BlockShapes.CornersListed | components/game/block-shapes.ts:62-101 | the four corner pieces list their cells in order within the box |
| BlockShapes.FoursListed | components/game/block-shapes.ts:104-125 | the two straight tetrominoes list their cells in order within the box |
| BlockShapes.LListed | components/game/block-shapes.ts:126-169 | the four L pieces list their cells in order within the box |
| BlockShapes.JListed | components/game/block-shapes.ts:170-213 | the four J pieces list their cells in order within the box |
| BlockShapes.TListed | components/game/block-shapes.ts:214-257 | the four T pieces list their cells in order within the box |
| BlockShapes.SZListed | components/game/block-shapes.ts:258-301 | the two S and two Z pieces list their cells in order within the box |
| BlockShapes.FivesListed | components/game/block-shapes.ts:304-327 | the two straight pentominoes list their cells in order within the box |
| BlockShapes.SquareListed | components/game/block-shapes.ts:328-343 | the 3 by 3 square lists its nine cells in order within the box |
| BlockShapes.BigListed | components/game/block-shapes.ts:344-379 | the two big L pieces and the plus list their cells in order within the box |
| BlockShapes.BaseShapesWellFormed | components/game/block-shapes.ts:10-380 | the table has 34 shapes, each with at least one cell, offsets in 0..4 and no repeated cell |
| BlockShapes.FilterAppend | components/game/block-shapes.ts:400-402 | filtering by rating distributes over concatenation |
| BlockShapes.FilterAllOf | components/game/block-shapes.ts:400-402 | filtering a part of one rating keeps all of it for that rating and nothing for another |
| BlockShapes.PoolSplit | components/game/block-shapes.ts:400-402 | each pool is the filter of the three parts, in table order |
| BlockShapes.PoolContents | components/game/block-shapes.ts:400-402 | the pools are exactly the three parts: 10 simple, 18 medium and 6 complex shapes |
| BlockShapes.SimplePool | components/game/block-shapes.ts:400-402 | with every part rated as its name says, the simple pool is exactly the simple part of the table |
| BlockShapes.MediumPool | components/game/block-shapes.ts:400-402 | with every part rated as its name says, the medium pool is exactly the medium part of the table |
| BlockShapes.ComplexPool | components/game/block-shapes.ts:400-402 | with every part rated as its name says, the complex pool is exactly the complex part of the table |
| BlockShapes.ComplexPercentMonotone | components/game/block-shapes.ts:384-398 | a higher score never lowers the share of harder shapes, which lies between 25 and 90 per cent and is 25 per cent at score 0 |
| BlockShapes.PoolFor | components/game/block-shapes.ts:410-419 | a draw below 0.4 times the share picks the complex pool, below the share the medium pool, otherwise the simple pool |
| BlockShapes.PickIndex | components/game/block-shapes.ts:421 | `Math.floor(r * n)` for a draw in [0, 1) is an index of a non-empty pool |
| BlockShapes.PickInRange | components/game/block-shapes.ts:421 | the floor of a draw times the length lies in 0..n-1 |
| BlockShapes.Dealt | components/game/block-shapes.ts:407-426 | a dealt shape is a copy of a table shape from the pool the first draw selects, with id `<name>-<time>-<i>` |
| BlockShapes.PoolMember | components/game/block-shapes.ts:400-402 | a pool member is a table shape of the pool's rating |
| BlockShapes.GetRandomShapes | components/game/block-shapes.ts:382-430 | exactly `count` shapes, the i-th dealt from the i-th draw pair: each a copy of a table shape from the selected pool with its own id |
| BlockShapes.GetShapeSize | components/game/block-shapes.ts:432-440 | width and height are at least 1, bound every cell, and are reached by some cell unless they are 1 |
| PowerUpShop.Adjust | components/game/power-ups.tsx:81-82 | after adding `delta` to one kind's count, that kind holds exactly `delta` more and every other kind is unchanged |
| PowerUpShop.InventoryExt | components/game/power-ups.tsx:81-82 | two inventories with the same count of every kind are the same record |
| PowerUpShop.AdjustUndo | components/game/power-ups.tsx:81-82 | subtracting what was added gives back the original inventory |
| PowerUpShop.Price | components/game/power-ups.tsx:20-70 | every power-up costs between 300 and 1500 gold |
| PowerUpShop.HandleBuy | components/game/power-ups.tsx:73-86 | too little gold refuses the purchase; enough gold and no confirmation does nothing; enough gold and a confirmation charges the item's price, leaves a non-negative balance and adds exactly one of that kind, nothing else |
| GamePage.InsertionPoint | app/page.tsx:60 | the place a new entry goes is within the list |
| GamePage.Take | app/page.tsx:60 | `slice(0, n)` gives the first `min(n, length)` entries |
| GamePage.InsertionPointSplits | app/page.tsx:60 | in a list sorted highest first, every entry before the insertion point scores at least the new one and every entry after it scores less |
| GamePage.InsertSorted | app/page.tsx:60 | inserting at that point keeps the list sorted and adds exactly the new entry |
| GamePage.InsertKeepsOrder | app/page.tsx:60 | inserting into a sorted list keeps it sorted |
| GamePage.InsertAddsEntry | app/page.tsx:60 | an insertion adds exactly the new entry, whatever the list |
| GamePage.InsertAtEnd | app/page.tsx:60 | an entry scoring no more than every entry goes last |
| GamePage.InsertedAt | app/page.tsx:60 | after insertion, entries before the point are unchanged, the point holds the new entry, and the rest are shifted by one |
| GamePage.SortDescCorrect | app/page.tsx:60 | the stable sort orders by descending score and is a permutation of its input |
| GamePage.SortDescSorted | app/page.tsx:60 | the sort leaves an already sorted list unchanged |
| GamePage.SaveIntoSorted | app/page.tsx:55-62 | on a sorted list the new entry lands after every entry scoring at least as much, the result stays sorted, and its length grows by one up to a cap of 50 |
| GamePage.BlockBlastGame.constructor | app/page.tsx:24-39 | the page starts with high score 0, no gold, no scores and no power-ups |
| GamePage.BlockBlastGame.SaveScore | app/page.tsx:55-68 | the score list becomes the sorted, capped list with the new entry; the high score rises only for a higher score; nothing else changes |
| GamePage.BlockBlastGame.UpdateGold | app/page.tsx:75-79 | gold changes by the signed amount and nothing else changes |
| GamePage.BlockBlastGame.UpdatePowerUps | app/page.tsx:81-84 | the inventory is replaced whole and nothing else changes |
| GamePage.BlockBlastGame.Buy | app/page.tsx:110-117 | a buy on the power-ups screen ends as the shop's rule decides; a purchase lowers gold by the price and adds one of the kind, and any other outcome changes nothing |
| DailyTasks.FilterKindExact | components/game/daily-tasks.tsx:15-16 | a type filter keeps exactly the entries of that type, in their original order |
| DailyTasks.SubsequenceSkip | components/game/daily-tasks.tsx:15-16 | skipping an entry of the longer list keeps a subsequence one |
| DailyTasks.SubsequenceDrop | components/game/daily-tasks.tsx:15-16 | dropping the first entry of a subsequence leaves a subsequence |
| DailyTasks.EasyHardDisjoint | components/game/daily-tasks.tsx:15-16 | the easy and hard lists together hold at most every entry of the list, and an entry of any other type is in neither |
| DailyTasks.SplitCount | components/game/daily-tasks.tsx:15-16 | the two lists' lengths add up to at most the length of the whole list |
| DailyTasks.ProgressPercentBounds | components/game/daily-tasks.tsx:18-20 | the bar never passes 100; for a positive target and non-negative progress it lies in 0..100 and is full exactly when the target is reached |
| DailyTasks.ClaimButtonShown | components/game/daily-tasks.tsx:80-89 | a completed task shows the check mark; the claim button shows exactly when `canClaim` holds (progress at the target, not completed), and then the bar is full |
| FreeGold.ActiveOnly | components/game/free-gold.tsx:39 | the list keeps exactly the active links and never grows |
| FreeGold.FindLink | components/game/free-gold.tsx:68 | a found link is one of the list with that id; when nothing is found no link has that id |
| FreeGold.UnclaimedPartition | components/game/free-gold.tsx:89-90 | unclaimed and claimed links split the list, each counted once; the unclaimed ones are exactly the listed links whose id is not claimed |
| FreeGold.FreeGoldScreen.constructor | components/game/free-gold.tsx:23-27 | the screen starts loading, with no links, no claims, nothing pending and the countdown at 0 |
| FreeGold.FreeGoldScreen.LoadClaimedLinks | components/game/free-gold.tsx:47-61 | nothing saved changes nothing; claims saved on another day are reset to none and today's date is stored; claims saved today are loaded as they are |
| FreeGold.FreeGoldScreen.LinksFetched | components/game/free-gold.tsx:34-45 | an answer replaces the links by its active ones, a failure keeps them, and loading ends either way |
| FreeGold.FreeGoldScreen.LinkClick | components/game/free-gold.tsx:80-87 | a claimed link does nothing; any other becomes the pending link with a 10-second countdown |
| FreeGold.FreeGoldScreen.Tick | components/game/free-gold.tsx:63-78 | the countdown drops by one; when it reaches 0 with a listed link pending under a non-empty id, that link's reward is paid once and the link is added to the claims, which are stored; an empty pending id is falsy and left alone; a pending link is never one already claimed |
| FreeGold.FreeGoldScreen.Settle | components/game/free-gold.tsx:67-77 | a listed pending link (its id non-empty, as the guard demands) is paid and added to the stored claims; an unlisted one pays nothing; nothing is pending afterwards |
| RedeemCode.FindCodeFirst | components/game/redeem-code.tsx:66 | the lookup finds the first active code with exactly that text, and nothing exactly when there is none |
| RedeemCode.EarnedListExact | components/game/redeem-code.tsx:92-96 | the success dialog lists a power-up kind, with its count, exactly when the code gives a positive count of it |
| RedeemCode.Accepted | components/game/redeem-code.tsx:56-82 | a code is granted exactly when the fetch answered, an active code matches, and this device has used it fewer times than its limit |
| RedeemCode.Redeemer.constructor | components/game/redeem-code.tsx:29-39 | mounting loads the saved used codes, or none, and the saved counters |
| RedeemCode.Redeemer.SetCode | components/game/redeem-code.tsx:148 | the typed text is kept uppercased |
| RedeemCode.Redeemer.Submit | components/game/redeem-code.tsx:41-54 | a blank trimmed code or one already used here is refused with an alert and no request; otherwise the request starts and loading is set |
| RedeemCode.Redeemer.Receive | components/game/redeem-code.tsx:56-114 | a granted code increments its counter, is appended to the used codes, opens the success dialog with its reward, is handed on and clears the input; anything else gives the invalid-code alert; loading ends either way |
| RedeemCode.Redeemer.Record | components/game/redeem-code.tsx:85-90 | the counter and the used-code list are written and nothing else |
| RedeemCode.Redeemer.ShowReward | components/game/redeem-code.tsx:98-99 | the reward is set and the success dialog opened |
| RedeemCode.Redeemer.CloseSuccess | components/game/redeem-code.tsx:116-120 | the success dialog closes and the reward is cleared |
| GameBoard.EmptyBoard | components/game/game-board.tsx:34-42 | the starting board is 8 by 8 with every cell empty |
| GameBoard.BoardExt | components/game/game-board.tsx:34-42 | two boards that agree on every cell are the same board |
| GameBoard.CanPlaceShape | components/game/game-board.tsx:80-91 | a shape fits exactly when each of its cells lands on the board and on an empty cell |
| GameBoard.CanAnyShapeBePlaced | components/game/game-board.tsx:94-107 | the answer is yes exactly when some slot holds a shape that fits at some origin on the board |
| GameBoard.CoversStep | components/game/game-board.tsx:193-197 | a cell is covered by the first n+1 shape cells exactly when the first n cover it or the next one lands on it |
| GameBoard.PlacedBoard | components/game/game-board.tsx:190-197 | placing gives a proper board |
| GameBoard.PlacedAt | components/game/game-board.tsx:190-197 | after placing, a cell the shape covers is filled in the shape's colour and every other cell is unchanged |
| GameBoard.PlacedBoardFills | components/game/game-board.tsx:188-197 | for a shape that fits, every covered cell is filled with its colour, the rest are unchanged, and every shape cell lands on the board |
| GameBoard.FillStep | components/game/game-board.tsx:193-197 | filling the cell one more shape offset lands on extends the board filled so far by exactly that cell |
| GameBoard.FilledAll | components/game/game-board.tsx:190-197 | once every offset of the shape is filled, the board is the placed board |
| GameBoard.PlaceCells | components/game/game-board.tsx:190-197 | the loop over the shape's cells gives exactly the placed board |
| GameBoard.FullRowsExact | components/game/game-board.tsx:136-141 | the rows scheduled for clearing are exactly the full rows, in increasing order |
| GameBoard.FullColsExact | components/game/game-board.tsx:143-148 | the columns scheduled for clearing are exactly the full columns, in increasing order |
| GameBoard.ClearedBoard | components/game/game-board.tsx:169-180 | clearing gives a proper board |
| GameBoard.ClearedAt | components/game/game-board.tsx:169-180 | after clearing, a cell in a full row or a full column is empty and every other cell is unchanged |
| GameBoard.ClearLeavesNoFullLine | components/game/game-board.tsx:130-183 | after clearing no row and no column is full |
| GameBoard.NoFullRows | components/game/game-board.tsx:136-141 | with no full row below n, none is scheduled |
| GameBoard.NoFullCols | components/game/game-board.tsx:143-148 | with no full column below n, none is scheduled |
| GameBoard.ClearWithoutFullLines | components/game/game-board.tsx:130-183 | a board with no full line clears nothing and is left as it is |
| GameBoard.ClearIdempotent | components/game/game-board.tsx:130-183 | clearing a cleared board clears nothing more |
| GameBoard.ClearRows | components/game/game-board.tsx:170-174 | the listed rows are emptied and every other cell is unchanged |
| GameBoard.ClearCols | components/game/game-board.tsx:175-179 | the listed columns are emptied and every other cell is unchanged |
| GameBoard.ClearLines | components/game/game-board.tsx:130-183 | the method returns the cleared board and the number of full rows plus full columns |
| GameBoard.ScoreGainClosedForm | components/game/game-board.tsx:200-206 | a move earns 10 per cell plus 150 per cleared line less 50 once any line goes; each extra line is worth at least 100 more, and the gain is never below the cell points |
| GameBoard.ClearRect | components/game/game-board.tsx:382-395 | the cells of the rectangle are emptied and every other cell is unchanged |
| GameBoard.Deal | components/game/game-board.tsx:225 | a deal fills all three slots |
| GameBoard.DealThree | components/game/game-board.tsx:225 | `getRandomShapes(3)` in the slots is the deal of three shapes drawn at score 0 |
| GameBoard.ComposePlacement | components/game/game-board.tsx:186-251 | a shape that does not fit changes nothing; one that fits is placed, full lines are cleared, the score grows by the move's points, the used slot is emptied, three new shapes come when all slots are empty, and the game ends with the new score reported when no remaining shape fits |
| GameBoard.SettleSlots | components/game/game-board.tsx:218-235 | the used slot is emptied; when every slot is empty three new shapes are dealt and the game goes on, otherwise the game is over, with the score reported as final, exactly when no remaining shape fits anywhere on the board |
| GameBoard.GameSession.constructor | components/game/game-board.tsx:34-51 | the screen starts with an empty board, no slots, score 0 and no drag or power-up |
| GameBoard.GameSession.Start | components/game/game-board.tsx:69-77 | a held start bonus is spent for a starting score of 500, otherwise the score is 0; three shapes are dealt |
| GameBoard.GameSession.UsePowerUp | components/game/game-board.tsx:55-66 | a held board refresh is spent on a new deal; a held eraser or bomb is armed; a kind not held, and any other kind, does nothing |
| GameBoard.GameSession.HandleCellClick | components/game/game-board.tsx:369-408 | with a power-up armed, the cells it blasts, cut at the board's edges, are emptied, one charge is spent (the eraser only on a filled cell) and it is disarmed; with none armed nothing happens |
| GameBoard.GameSession.DragStart | components/game/game-board.tsx:254-271 | once the game is over a drag does not start; otherwise the slot's shape and index are remembered |
| GameBoard.GameSession.DragMove | components/game/game-board.tsx:274-302 | while dragging, the placement is marked valid exactly when the shape fits at the position; without a drag nothing changes |
| GameBoard.GameSession.DragEnd | components/game/game-board.tsx:305-333 | a release after a valid move places the shape as the placement rule says; the drag state is cleared either way |
| GameBoard.GameSession.Apply | components/game/game-board.tsx:214-235 | the session takes over the computed board, slots, score and game-over flag |
| GameBoard.GameSession.EndDrag | components/game/game-board.tsx:327-330 | the dragged shape, its index and the valid flag are cleared and nothing else changes |
| GameBoard.GameSession.Restart | components/game/game-board.tsx:436-449 | restarting gives an empty board, score 0, the game resumed and a new deal |
| GameBoard.PlacementKeepsConsistent | components/game/game-board.tsx:186-251 | a placement keeps the state consistent, never lowers the score, and leaves no full line on the board |
| Utils.MaskEmail | lib/utils.ts:20-25 | the mask is empty exactly when the address is |
| Utils.MaskEmailMasked | lib/utils.ts:20-25 | an address with a name and a domain shows the name's first and last character around `***`, then `@` and the domain; anything after a second `@` is dropped |
| Utils.MaskEmailUnchanged | lib/utils.ts:20-25 | text without `@`, an address starting with `@`, and one with an empty domain are returned unchanged |
| Utils.FirstTwoParts | lib/utils.ts:20-25 | the first two `@`-separated parts of such an address are its name and its domain |
| Utils.LeadingAtUnchanged | lib/utils.ts:20-25 | an address starting with `@` is returned unchanged |
| Utils.EmptyDomainUnchanged | lib/utils.ts:20-25 | an address with nothing after its first `@`, or only a second `@`, is returned unchanged |
| Utils.KeptAppend | lib/utils.ts:58-60 | filtering the arguments distributes over concatenation |
| Utils.CnSkipsFalsy | lib/utils.ts:58-60 | a falsy argument contributes nothing, wherever it stands |
| Utils.CnAppend | lib/utils.ts:58-60 | two argument lists that each keep something are joined with exactly one space between |
| Utils.CnSingle | lib/utils.ts:58-60 | one truthy argument is printed as it is; only falsy arguments give the empty string |
| Utils.NoneKept | lib/utils.ts:58-60 | arguments that are all falsy keep nothing |
| Utils.LastSeenBranch | lib/utils.ts:33-53 | no date, an empty one or an unparsable one gives the blank phrase; otherwise under a minute is "just now", under an hour is the whole number of minutes (1 to 59) it has been, then today, then yesterday, then the date |
| Utils.LastSeenText | lib/utils.ts:34-55 | the text is empty exactly for the blank phrase |
| JsString.ToUpper | components/game/redeem-code.tsx:148 | upper-casing, restricted to the ASCII letters, keeps the length and maps each character on its own |
| JsString.ToLower | pages/SettingsChangeEmail.tsx:30 | lower-casing, restricted to the ASCII letters, keeps the length and maps each character on its own |
| JsString.CaseFolds | pages/SettingsChangeEmail.tsx:30 | for the ASCII case mapping, changing case is idempotent and ignores a previous change of case, so a case-insensitive comparison does not depend on how either side was written |
| JsString.TrimStartShape | pages/SettingsChangeUsername.tsx:22 | `trimStart` drops a leading run of white space, and the result does not start with white space |
| JsString.TrimEndShape | pages/SettingsChangeUsername.tsx:22 | `trimEnd` drops a trailing run of white space, and the result does not end with white space |
| JsString.TrimShape | pages/SettingsChangeUsername.tsx:22 | `trim` leaves an infix that neither starts nor ends with white space, with only white space dropped around it |
| JsString.TrimLower | pages/SettingsChangeEmail.tsx:24-30 | trimming and lower-casing commute |
| JsString.TrimStartLower | pages/SettingsChangeEmail.tsx:24-30 | `trimStart` and lower-casing commute |
| JsString.TrimEndLower | pages/SettingsChangeEmail.tsx:24-30 | `trimEnd` and lower-casing commute |
| JsString.BlankIffAllSpace | components/game/redeem-code.tsx:42-47 | a string trims to nothing exactly when every character is white space |
| JsString.Prefix | pages/OTPVerify.tsx:49 | `slice(0, n)` is the first `min(n, length)` characters |
| JsString.Suffix | pages/ChatDashboard.tsx:382 | `slice(n)` is the last `length - n` characters, or nothing |
| JsString.DigitsOnly | pages/OTPVerify.tsx:49 | stripping non-digits leaves only digits and never lengthens the text |
| JsString.DigitsOnlyFixpoint | pages/SettingsChangeEmail.tsx:134 | stripping non-digits leaves a string unchanged exactly when it has only digits |
| JsString.Split | lib/utils.ts:22 | a split gives at least one part, and no part contains the separator |
| JsString.JoinSplit | lib/utils.ts:22 | joining the parts of a split with the separator gives back the string |
| JsString.SplitAt | lib/utils.ts:22 | a first piece without the separator, followed by the separator, is the first part and the rest split on their own |
| JsString.JoinAppend | lib/utils.ts:59 | joining two non-empty part lists is joining each with the separator between them |
| JsString.SplitWithoutSeparator | lib/utils.ts:22 | a string without the separator splits into itself alone |
| JsString.NatToString | pages/OTPVerify.tsx:162 | a non-negative integer prints as decimal digits with no leading zero that read back as its value |
| JsString.PadStart2 | pages/OTPVerify.tsx:162 | `padStart(2, '0')` leaves two or more characters alone and otherwise puts zeros in front up to two |
| Forms.ErrorText | pages/OTPVerify.tsx:90 | the server's message or the fallback: never empty when the fallback is not |
| OtpVerify.LastChar | pages/OTPVerify.tsx:34 | a box keeps one character, the last one typed, and is empty only for empty input |
| OtpVerify.Chars | pages/OTPVerify.tsx:52 | one box per character, holding that character |
| OtpVerify.PastedDigits | pages/OTPVerify.tsx:49 | a paste keeps at most the first six digits of the text, in order, and all of them when there are fewer |
| OtpVerify.CodeComplete | pages/OTPVerify.tsx:63-64 | the joined code reaches six characters exactly when there are six boxes, all filled |
| OtpVerify.JoinShortParts | pages/OTPVerify.tsx:63 | boxes of at most one character join to at most as many characters, and exactly as many when all are filled |
| OtpVerify.PasteJoins | pages/OTPVerify.tsx:52-63 | the boxes a paste fills join back to the pasted digits |
| OtpVerify.TimerTextReadsBack | pages/OTPVerify.tsx:162 | the countdown text is minutes, a colon and exactly two digits of seconds, which read back as the seconds left |
| OtpVerify.TwoDigits | pages/OTPVerify.tsx:162 | seconds below 60, padded, are two digits of that value |
| OtpVerify.OtpScreen.constructor | pages/OTPVerify.tsx:13-17 | six empty boxes, no error, a 120-second countdown, not loading |
| OtpVerify.OtpScreen.Tick | pages/OTPVerify.tsx:25-27 | the interval, which exists only for a non-empty identifier, takes the countdown down by one and never below 0 |
| OtpVerify.OtpScreen.Change | pages/OTPVerify.tsx:31-35 | input that is not all digits is ignored; otherwise the box keeps the last character typed and the other boxes are unchanged |
| OtpVerify.OtpScreen.Paste | pages/OTPVerify.tsx:48-53 | a paste without digits does nothing; otherwise the boxes become the pasted digits, one each, and join back to them (fewer than six digits leave fewer boxes) |
| OtpVerify.OtpScreen.Verify | pages/OTPVerify.tsx:61-73 | a request goes out exactly when all six boxes are filled, to the endpoint the type selects, with the joined code; loading starts and the error is cleared |
| OtpVerify.OtpScreen.VerifyDone | pages/OTPVerify.tsx:75-93 | tokens of a success are stored and the page goes home exactly when the user fetch succeeds too; a refusal shows the server's message; a throw shows its message or the default; loading ends in every case |
| OtpVerify.OtpScreen.Resend | pages/OTPVerify.tsx:96-109 | with time left or no identifier nothing happens; a sign-in with a password asks for a new code; any other case tells the user to go back |
| OtpVerify.OtpScreen.ResendDone | pages/OTPVerify.tsx:101-112 | success restarts the two-minute countdown; anything else shows the server's message or the default text |
| SettingsChangeEmail.CheckNewEmail | pages/SettingsChangeEmail.tsx:24-34 | a new address that is all white space is refused as blank; one whose trimmed form equals the current address up to letter case is refused as the same; otherwise the trimmed address, non-empty and without white space at either end, is sent |
| SettingsChangeEmail.CheckIgnoresCase | pages/SettingsChangeEmail.tsx:30 | lower-casing the typed address never changes the verdict; it only lower-cases the address that would be sent |
| SettingsChangeEmail.EmailScreen.constructor | pages/SettingsChangeEmail.tsx:14-18 | the screen opens on the address step with the current address, no code and no messages |
| SettingsChangeEmail.EmailScreen.SetNewEmail | pages/SettingsChangeEmail.tsx:15 | only the address in the form changes |
| SettingsChangeEmail.EmailScreen.SetCode | pages/SettingsChangeEmail.tsx:134 | the code field keeps only the digits typed |
| SettingsChangeEmail.EmailScreen.Send | pages/SettingsChangeEmail.tsx:20-37 | a blank or unchanged address shows its error and sends nothing; otherwise the step moves to verify and the trimmed address is sent; the messages are cleared first |
| SettingsChangeEmail.EmailScreen.SendDone | pages/SettingsChangeEmail.tsx:38-49 | success shows the server's text or the default one; a refusal or a throw shows the error and returns to the address step; loading ends |
| SettingsChangeEmail.EmailScreen.Verify | pages/SettingsChangeEmail.tsx:52-60 | the trimmed address and code are sent, the messages cleared and loading started |
| SettingsChangeEmail.EmailScreen.VerifyDone | pages/SettingsChangeEmail.tsx:61-74 | on success the reloaded user is stored and the form restarts from the new address on the address step; a refusal or a throw shows the error and keeps the verify step; loading ends |
| SettingsChangeEmail.EmailScreen.Updated | pages/SettingsChangeEmail.tsx:64-66 | the success text, the address step and the restarted form are set together |
| SettingsChangeEmail.EmailScreen.Reset | pages/SettingsChangeEmail.tsx:157-162 | back to the address step with the current address, no code and no messages |
| SettingsChangeUsername.CheckUsername | pages/SettingsChangeUsername.tsx:22-26 | a name is accepted exactly when its trimmed form has 3 to 40 characters; the name sent is that trimmed form, found inside the typed text and without white space at either end |
| SettingsChangeUsername.CheckUsernameTrimmed | pages/SettingsChangeUsername.tsx:22-26 | a name of only white space is refused, and a 3 to 40 character name without white space at either end is sent as typed |
| SettingsChangeUsername.UsernameScreen.constructor | pages/SettingsChangeUsername.tsx:13-16 | the input starts from the current username, or empty |
| SettingsChangeUsername.UsernameScreen.SetUsername | pages/SettingsChangeUsername.tsx:13 | only the typed name changes |
| SettingsChangeUsername.UsernameScreen.Submit | pages/SettingsChangeUsername.tsx:18-29 | the messages are cleared; a name of the wrong length shows the length error and sends nothing; otherwise loading starts and the trimmed name is sent |
| SettingsChangeUsername.UsernameScreen.SubmitDone | pages/SettingsChangeUsername.tsx:30-41 | on success the reloaded user is stored and the success text shown; a refusal or a throw shows the server's message or the default; loading ends |
| SettingsChangePassword.Toggled | pages/SettingsChangePassword.tsx:76 | an eye button flips its own field's visibility and leaves the others |
| SettingsChangePassword.ToggleTwice | pages/SettingsChangePassword.tsx:76 | pressing the same eye twice restores the visibility |
| SettingsChangePassword.PasswordScreen.constructor | pages/SettingsChangePassword.tsx:15-23 | three empty fields, all hidden, no messages, not loading |
| SettingsChangePassword.PasswordScreen.SetField | pages/SettingsChangePassword.tsx:72 | only the edited field changes |
| SettingsChangePassword.PasswordScreen.Toggle | pages/SettingsChangePassword.tsx:76 | only that field's visibility flips |
| SettingsChangePassword.PasswordScreen.Submit | pages/SettingsChangePassword.tsx:25-35 | the messages are cleared; a request goes out exactly when the new password and its confirmation agree, carrying the whole form; otherwise the mismatch error is shown |
| SettingsChangePassword.PasswordScreen.SubmitDone | pages/SettingsChangePassword.tsx:36-50 | a success with data replaces the session's tokens, empties the form and shows the success text; anything else shows the server's message or the default, keeps the form and leaves the tokens; loading ends |
| SignUp.WithField | pages/SignUp.tsx:43-45 | an input change sets its own field and leaves the others |
| SignUp.SignUpVerifies | pages/SignUp.tsx:32 | the code screen opened after a sign-up verifies with the sign-up endpoint for the signed-up address |
| SignUp.SignUpScreen.constructor | pages/SignUp.tsx:9-17 | an empty form, no error, not loading |
| SignUp.SignUpScreen.Change | pages/SignUp.tsx:43-45 | only the named field changes |
| SignUp.SignUpScreen.Submit | pages/SignUp.tsx:19-30 | a request goes out exactly when the password has at least 8 characters, carrying the form; otherwise the length error is shown |
| SignUp.SignUpScreen.SubmitDone | pages/SignUp.tsx:31-40 | success goes to the code screen for the sent address; a refusal shows the server's message; a throw shows it or the default; loading ends |
| SettingsDevices.OnlyAppend | pages/SettingsDevices.tsx:40 | filtering by `me` distributes over concatenation |
| SettingsDevices.OnlyOne | pages/SettingsDevices.tsx:40 | a one-entry list keeps its entry exactly when it is in the group |
| SettingsDevices.OnlyAll | pages/SettingsDevices.tsx:40 | a list entirely in the group is kept whole; one entirely outside it gives nothing |
| SettingsDevices.OnlyKeepsAll | pages/SettingsDevices.tsx:40 | a list entirely in the group is kept whole |
| SettingsDevices.OnlyDropsAll | pages/SettingsDevices.tsx:40 | a list entirely outside the group gives nothing |
| SettingsDevices.OnlyMembers | pages/SettingsDevices.tsx:40 | a filter keeps exactly the entries of its group |
| SettingsDevices.OnlySplit | pages/SettingsDevices.tsx:40 | the two filters together keep every entry exactly once |
| SettingsDevices.InsertIntoGroups | pages/SettingsDevices.tsx:39 | a stable insertion by rank into "this device, then the others" puts the entry at the end of its own group |
| SettingsDevices.SortIsPartition | pages/SettingsDevices.tsx:39 | the stable sort by `me` is exactly this device's entries followed by the others, each group in the received order |
| SettingsDevices.SortStep | pages/SettingsDevices.tsx:39 | one more entry keeps the sort equal to the two groups in received order |
| SettingsDevices.InsertIntoOnly | pages/SettingsDevices.tsx:39 | inserting into the two groups puts the entry at the end of its own group |
| SettingsDevices.OnlyGroupsAppend | pages/SettingsDevices.tsx:40 | appending an entry appends it to its own group only |
| SettingsDevices.MeFirstPartitioned | pages/SettingsDevices.tsx:40 | partitioning an already partitioned list gives it back |
| SettingsDevices.FetchedOrder | pages/SettingsDevices.tsx:38-41 | the stored list is a permutation of the received one with this device's entries first, each group in the received order; the partition after the sort changes nothing |
| SettingsDevices.SortByMe | pages/SettingsDevices.tsx:39 | the array ends up holding the stable sort by `me` of what it held |
| SettingsDevices.Arrange | pages/SettingsDevices.tsx:38-40 | sorting in place and partitioning give this device's entries first, then the others, each in the received order |
| SettingsDevices.DeviceIconIgnoresCase | pages/SettingsDevices.tsx:94-105 | the icon does not depend on the letter case of the device type |
| SettingsDevices.LogoutButtonsLast | pages/SettingsDevices.tsx:205-207 | in a fetched list every entry with a logout button comes after all entries without one |
| SettingsDevices.DevicesScreen.constructor | pages/SettingsDevices.tsx:26-30 | no devices, no error, nothing loading, no confirmation open |
| SettingsDevices.DevicesScreen.Fetch | pages/SettingsDevices.tsx:32-36 | loading starts, the error is cleared and the device list is requested |
| SettingsDevices.DevicesScreen.FetchDone | pages/SettingsDevices.tsx:37-47 | a success stores the received list (none counts as empty) with this device first; a refusal or a throw shows the error and keeps the old list; loading ends |
| SettingsDevices.DevicesScreen.AskLogout | pages/SettingsDevices.tsx:205-207 | the logout button of another device opens the confirmation for it |
| SettingsDevices.DevicesScreen.Cancel | pages/SettingsDevices.tsx:232 | the confirmation closes and nothing else changes |
| SettingsDevices.DevicesScreen.Logout | pages/SettingsDevices.tsx:54-58 | the confirmed device, shown only for a non-empty id, is logged out; the action starts and the error is cleared |
| SettingsDevices.DevicesScreen.LogoutEverywhere | pages/SettingsDevices.tsx:71-75 | enabled only when not busy and with devices listed; all other devices are logged out; the action starts and the error is cleared |
| SettingsDevices.DevicesScreen.LogoutDone | pages/SettingsDevices.tsx:59-85 | success starts a new fetch; a refusal or a throw shows the server's message or that logout's default text and fetches nothing; the confirmation is left open; the action ends |

## Left out

- Foreign libraries are not modelled: the STOMP and SockJS client internals, axios, `URL`, `JSON.parse`/`JSON.stringify` and `FormData`. Frames are decoded records, and requests and responses are outcome values.
- Promise interleaving and real time are not modelled. Timers are explicit events, and each awaited call's outcome is delivered to the second half of its handler.
- Locale formatting and clock reads are parameters: `toLocaleString`, `toLocaleTimeString`, `toDateString` and `formatTime`.
- Floating-point and pixel geometry are not modelled, for they are arithmetic on screen coordinates or ratios:
  - the daily task bar `progress / target * 100`, which is exact real division here;
  - upload progress percentages;
  - `formatBytes`;
  - audio seek and voice level;
  - the drag pixel-to-cell rounding in `handleDragMove`/`handleDragEnd`, where the row and column they compute are inputs.
- Rendering is left out: JSX, the regex-driven text formatters (`renderInline`, `renderFormatted`, `renderHighlightedCode`, `parseEmojiOnly`), audio playback, MediaRecorder, focus and scrolling, sounds and vibration.
- The preview and clearing-animation cells of the game board, and the board's `alert`/`confirm` dialogs, are not modelled. A confirmation's answer is a parameter.
- `generateDeviceId` is not modelled: it uses SHA-256 through `crypto.subtle`.
- The localStorage copies written beside the game state (scores, high score, gold, power-ups) are not modelled. The free-gold claims and the redeem counters are fields of their screens.
- The game difficulty: the board always calls `getRandomShapes(3)` with the default score 0, so the share of harder shapes stays at 25 per cent during play. The model keeps that as written.
- The daily task record is declared in a page module that is not part of this model. Only the fields the component reads are kept.
- A corrupted redeem counter in localStorage makes `parseInt` give `NaN` in the source. The model reads only the counters the component itself writes.
- The redeem modal's `isOpen` flag and the input's `maxLength={12}` are not modelled. The flag is closed by `closeSuccess` and is pure display; the length cap is an HTML attribute.
- The HTML `required` and `maxLength` attributes of the forms are browser validation and are not modelled.
- Focus moves between the code boxes are not modelled. A missing or empty identifier redirects to sign-in and starts no timer, so the timer's tick requires a non-empty identifier.
- Of a device record, only the id, `active`, `me` and `deviceType` are kept. The display fields (browser, location, dates) only feed the markup.
- SettingsDevices.SortByMe: `Array.prototype.sort` is modelled by its result, the stable sort that the language requires. The engine's own algorithm is not modelled.
- The `chat_id` fallback for the chat id of an incoming message (`newMsg.chatId || newMsg.chat_id`) is not modelled. The message's `chatId` is used. A chat entry's `chat_id` is modelled, in `ChatCache.GetChatId`.
- MergeMessage (Types): absent and `null` optional fields are one value, `None`. Under `{ ...m, ...edited }` an explicit `null` from the server overwrites the cached field, while the model keeps the cached value.

String lengths. JavaScript's `length`, `slice` and indexing count UTF-16 code units; a Dafny `string` counts Unicode code points. The two agree on every character of the Basic Multilingual Plane. A character outside it (most emoji) is one code point but two code units, and `slice` can cut such a pair in half, which a Dafny `char` cannot hold. The members below count code points:

- Prefix (JsString): `slice(0, n)` keeps n code points, not n code units, and never splits a surrogate pair.
- Suffix (JsString): `slice(n)` drops n code points, not n code units.
- ChunkText (ChatHelpers): the 4096-character chunks are 4096 code points, so a text with characters outside the Basic Multilingual Plane is cut at other places than the source cuts it.
- InsertEmoji (ChatHelpers): the caret, the selection and the 4096 cap are in code points; the source's `selectionStart`/`selectionEnd` and `length` are code units.
- HandleTyping (ChatDashboard.Dashboard): the typed text is cut at 4096 code points, not 4096 code units.
- ComposeSend (ChatDashboard): the send segments come from `ChunkText` and so count code points.
- SendMessage (ChatDashboard.Dashboard): its segments are those of `ComposeSend`, in code points.
- MaskEmail (Utils): the first and last character of the name are whole code points; the source's `name[0]` and `name[name.length - 1]` are single code units, half of a character outside the Basic Multilingual Plane.
- CheckUsername (SettingsChangeUsername): the 3 to 40 length bounds count code points.
- Submit (SettingsChangeUsername.UsernameScreen): it applies `CheckUsername`, so its length bounds count code points.
- Submit (SignUp.SignUpScreen): the 8-character password minimum counts code points; four emoji have length 8 in the source and pass, and are refused here.

Letter case. `toUpperCase` and `toLowerCase` apply the full Unicode case mapping, which can change a string's length (`ß` upper-cases to `SS`) and maps letters such as the dotless `ı` to ASCII `I`. The model maps the ASCII letters only and leaves every other character alone:

- ToUpper (JsString): maps `a`-`z` only.
- ToLower (JsString): maps `A`-`Z` only.
- CaseFolds (JsString): proved of the ASCII mapping only. It is false of the full mapping: `"ß".toUpperCase().toLowerCase()` is `"ss"`, not `"ß".toLowerCase()`.
- TrimLower (JsString): proved of the ASCII lower-casing only.
- TrimStartLower (JsString): proved of the ASCII lower-casing only.
- TrimEndLower (JsString): proved of the ASCII lower-casing only.
- ToUpperIdempotent (ChatHelpers): proved of the ASCII upper-casing only.
- NormalizeTyping (ChatHelpers): only ASCII letters are upper-cased, so a status such as `wrıting_text` (dotless ı), which the source turns into `WRITING_TEXT`, is not recognised here.
- NormalizeTypingCases (ChatHelpers): case is ignored for ASCII letters only.
- PickMessageType (ChatHelpers): the MIME type is lower-cased in ASCII only.
- SetCode (RedeemCode.Redeemer): the typed code is upper-cased in ASCII only.
- Submit (RedeemCode.Redeemer): the trimmed code is upper-cased in ASCII only.
- CheckNewEmail (SettingsChangeEmail): the comparison with the current address lower-cases ASCII letters only.
- CheckIgnoresCase (SettingsChangeEmail): case is ignored for ASCII letters only.
- Send (SettingsChangeEmail.EmailScreen): it applies `CheckNewEmail`, with the same ASCII-only comparison.
- DeviceIconIgnoresCase (SettingsDevices): the device type is lower-cased in ASCII only.
- A call that fails without a server message is modelled as carrying the empty message. The default text is then shown, as `message || fallback` does.
- Settings, store, main menu, score board, admin panel, sign-in, forgot-password, profile, route files and configuration are not part of this model. They are UI without logic of their own, or glue to other services.
