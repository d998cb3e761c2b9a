/**
 * services/messageService.ts: the REST send payload, and the STOMP connection
 * manager kept in module-level variables (the client, the pending reconnect
 * timer, the attempt counter and the remembered handlers).
 *
 * The library client is reduced to what the module observes of it: it exists
 * (is `active`) from `activate()` until the module drops it, it is `connected`
 * between its connect and close callbacks, and it reconnects on its own every
 * `reconnectDelay` ms. Its callbacks are events: `LibraryConnected` (onConnect)
 * and `TransportFailure` (onStompError, onWebSocketClose, onWebSocketError).
 * A timer is an event too (`FireTimer`).
 */
module MessageService {
  import opened Common
  import opened JsString
  import opened Types

  // ------------------------------------------------------------------ REST send payload

  /** A file picked for upload. */
  datatype FileInfo = FileInfo(name: string, size: nat, mimeType: string)

  /** The argument of `sendMessageRest`. */
  datatype SendRequest = SendRequest(
    receiverId: Option<string>,
    content: Option<string>,
    kind: Option<MessageKind>,
    replyToMessageId: Option<string>,
    system: Option<bool>,
    attachmentDurationMs: Option<int>,
    attachment: Option<FileInfo>)

  /** The fields of `basePayload` that are present. */
  datatype Payload = Payload(
    receiverId: Option<string>,
    content: Option<string>,
    kind: Option<MessageKind>,
    replyToMessageId: Option<string>,
    system: Option<bool>,
    attachmentDurationMs: Option<int>)

  /** A JSON body, or a multipart form holding the payload as a JSON part and the file. */
  datatype SendBody = JsonBody(payload: Payload) | Multipart(payload: Payload, file: FileInfo)

  function KeepTruthy(s: Option<string>): (r: Option<string>)
    ensures r.Some? <==> Truthy(s)
    ensures r.Some? ==> r == s
  {
    if Truthy(s) then s else None
  }

  /** The body `sendMessageRest` posts to `/api/chats/send`. */
  function BuildSendBody(req: SendRequest): (b: SendBody)
    ensures b.payload.receiverId == req.receiverId
    ensures b.payload.content.Some? <==> Truthy(req.content)
    ensures b.payload.replyToMessageId.Some? <==> Truthy(req.replyToMessageId)
    ensures b.payload.kind == req.kind
    ensures b.payload.system == req.system
    ensures b.payload.attachmentDurationMs == req.attachmentDurationMs
    ensures b.Multipart? <==> req.attachment.Some?
    ensures b.Multipart? ==> b.file == req.attachment.value
  {
    var p := Payload(req.receiverId, KeepTruthy(req.content), req.kind,
                     KeepTruthy(req.replyToMessageId), req.system, req.attachmentDurationMs);
    if req.attachment.Some? then Multipart(p, req.attachment.value) else JsonBody(p)
  }

  /** An empty content or reply id is sent exactly as if it were absent, while `system: false`
      and a zero duration are sent. */
  lemma FalsyFieldsDropped(req: SendRequest)
    ensures BuildSendBody(req.(content := Some(""))) == BuildSendBody(req.(content := None))
    ensures BuildSendBody(req.(replyToMessageId := Some(""))) == BuildSendBody(req.(replyToMessageId := None))
    ensures BuildSendBody(req.(system := Some(false))) != BuildSendBody(req.(system := None))
    ensures BuildSendBody(req.(attachmentDurationMs := Some(0))) != BuildSendBody(req.(attachmentDurationMs := None))
  {
    assert BuildSendBody(req.(system := Some(false))).payload.system == Some(false);
    assert BuildSendBody(req.(attachmentDurationMs := Some(0))).payload.attachmentDurationMs == Some(0);
  }

  // ------------------------------------------------------------------ typing frames

  datatype TypingStatus =
    WritingText | WritingVoice | SendingVoice | SendingAudio | SendingVideo | SendingPhoto | SendingFile

  /** `mapType`: the message type announced with a typing status. */
  function MapType(st: Option<TypingStatus>): (k: Option<MessageKind>)
    ensures st == Some(WritingText) ==> k == Some(Text)
    ensures st == Some(WritingVoice) || st == Some(SendingVoice) ==> k == Some(Voice)
    ensures st == Some(SendingAudio) ==> k == Some(Audio)
    ensures st == Some(SendingVideo) ==> k == Some(Video)
    ensures st == Some(SendingPhoto) ==> k == Some(Image)
    ensures st == Some(SendingFile) ==> k == Some(File)
    ensures st == None ==> k == None
  {
    match st
    case None => None
    case Some(s) =>
      match s
      case WritingText => Some(Text)
      case WritingVoice => Some(Voice)
      case SendingVoice => Some(Voice)
      case SendingAudio => Some(Audio)
      case SendingVideo => Some(Video)
      case SendingPhoto => Some(Image)
      case SendingFile => Some(File)
  }

  /** Two statuses announce the same type only when they are the two voice statuses. */
  lemma MapTypeCollisions(a: TypingStatus, b: TypingStatus)
    requires a != b && MapType(Some(a)) == MapType(Some(b))
    ensures {a, b} == {WritingVoice, SendingVoice}
  {
  }

  /** A status never maps to the video-note or system type. */
  lemma MapTypeRange(st: Option<TypingStatus>)
    ensures MapType(st) != Some(VideoNote) && MapType(st) != Some(System)
    ensures MapType(st).Some? <==> st.Some?
  {
  }

  /** The body published to `/app/typing`. */
  datatype TypingFrame = TypingFrame(receiverId: Option<string>, typing: bool,
                                     status: Option<TypingStatus>, kind: Option<MessageKind>)

  /** Payload of the chat-deleted event published to `/app/chat-deleted`. */
  datatype ChatDeletedEvent = ChatDeletedEvent(chatId: string, deletedBy: string, deletedAt: string)

  /** What `stompClient?.publish(...)` does: nothing without a client; the library refuses
      (throws) when its client is not connected. */
  datatype PublishResult<T> = Published(frame: T) | NoClient | NotConnected

  // ------------------------------------------------------------------ subscriptions and frames

  /** Identity of a callback the page registers. */
  type HandlerId = nat

  datatype Handlers = Handlers(
    onMessage: HandlerId,
    onTyping: HandlerId,
    onChatDeleted: Option<HandlerId>,
    onMessageEdited: Option<HandlerId>,
    onMessageDeleted: Option<HandlerId>)

  datatype Channel = Messages | Typing | Notifications | ChatDeleted | MessageEdited | MessageDeleted

  datatype Subscription = Subscription(destination: string, channel: Channel, handler: Option<HandlerId>)

  function QueueAndTopic(userId: string, name: string, ch: Channel, h: HandlerId): (subs: seq<Subscription>)
    ensures |subs| == 2 && subs[0].channel == ch && subs[1].channel == ch
    ensures subs[0].handler == Some(h) && subs[1].handler == Some(h)
  {
    [Subscription("/user/queue/" + name, ch, Some(h)),
     Subscription("/topic/users/" + userId + "/" + name, ch, Some(h))]
  }

  lemma PairCount(userId: string, name: string, ch: Channel, h: HandlerId, c: Channel)
    ensures CountChannel(QueueAndTopic(userId, name, ch, h), c) == if c == ch then 2 else 0
  {
    var p := QueueAndTopic(userId, name, ch, h);
    assert p[1..][1..] == [];
    assert CountChannel(p[1..], c) == (if c == ch then 1 else 0) + CountChannel(p[1..][1..], c);
  }

  function OptionalPair(userId: string, name: string, ch: Channel, h: Option<HandlerId>): (subs: seq<Subscription>)
    ensures forall i :: 0 <= i < |subs| ==> subs[i].channel == ch
  {
    if h.Some? then QueueAndTopic(userId, name, ch, h.value) else []
  }

  /** The destinations `onConnect` subscribes to for a user. */
  function Subscriptions(userId: string, h: Handlers): seq<Subscription>
  {
    QueueAndTopic(userId, "messages", Messages, h.onMessage)
    + QueueAndTopic(userId, "typing", Typing, h.onTyping)
    + [Subscription("/user/queue/notifications", Notifications, None)]
    + OptionalPair(userId, "chat-deleted", ChatDeleted, h.onChatDeleted)
    + OptionalPair(userId, "message-edited", MessageEdited, h.onMessageEdited)
    + OptionalPair(userId, "message-deleted", MessageDeleted, h.onMessageDeleted)
  }

  function CountChannel(subs: seq<Subscription>, ch: Channel): nat
  {
    if subs == [] then 0
    else (if subs[0].channel == ch then 1 else 0) + CountChannel(subs[1..], ch)
  }

  lemma {:induction false} CountChannelAppend(a: seq<Subscription>, b: seq<Subscription>, ch: Channel)
    ensures CountChannel(a + b, ch) == CountChannel(a, ch) + CountChannel(b, ch)
  {
    if a == [] {
      assert a + b == b;
    } else {
      assert (a + b)[1..] == a[1..] + b;
      CountChannelAppend(a[1..], b, ch);
    }
  }

  function ExpectedCount(h: Handlers, ch: Channel): nat
  {
    match ch
    case Messages => 2
    case Typing => 2
    case Notifications => 1
    case ChatDeleted => if h.onChatDeleted.Some? then 2 else 0
    case MessageEdited => if h.onMessageEdited.Some? then 2 else 0
    case MessageDeleted => if h.onMessageDeleted.Some? then 2 else 0
  }

  lemma CountAt(userId: string, h: Handlers, ch: Channel)
    ensures CountChannel(Subscriptions(userId, h), ch) == ExpectedCount(h, ch)
  {
    var m := QueueAndTopic(userId, "messages", Messages, h.onMessage);
    var t := QueueAndTopic(userId, "typing", Typing, h.onTyping);
    var n := [Subscription("/user/queue/notifications", Notifications, None)];
    var c := OptionalPair(userId, "chat-deleted", ChatDeleted, h.onChatDeleted);
    var e := OptionalPair(userId, "message-edited", MessageEdited, h.onMessageEdited);
    var d := OptionalPair(userId, "message-deleted", MessageDeleted, h.onMessageDeleted);
    CountChannelAppend(m, t, ch);
    CountChannelAppend(m + t, n, ch);
    CountChannelAppend(m + t + n, c, ch);
    CountChannelAppend(m + t + n + c, e, ch);
    CountChannelAppend(m + t + n + c + e, d, ch);
    PairCount(userId, "messages", Messages, h.onMessage, ch);
    PairCount(userId, "typing", Typing, h.onTyping, ch);
    assert n[1..] == [];
    assert CountChannel(n, ch) == (if ch == Notifications then 1 else 0) + CountChannel(n[1..], ch);
    if h.onChatDeleted.Some? { PairCount(userId, "chat-deleted", ChatDeleted, h.onChatDeleted.value, ch); }
    if h.onMessageEdited.Some? { PairCount(userId, "message-edited", MessageEdited, h.onMessageEdited.value, ch); }
    if h.onMessageDeleted.Some? { PairCount(userId, "message-deleted", MessageDeleted, h.onMessageDeleted.value, ch); }
  }

  /** Every event kind is subscribed twice (a user queue and a user topic), notifications once,
      and each optional kind only when its handler is supplied. */
  lemma SubscriptionCounts(userId: string, h: Handlers)
    ensures CountChannel(Subscriptions(userId, h), Messages) == 2
    ensures CountChannel(Subscriptions(userId, h), Typing) == 2
    ensures CountChannel(Subscriptions(userId, h), Notifications) == 1
    ensures CountChannel(Subscriptions(userId, h), ChatDeleted) == if h.onChatDeleted.Some? then 2 else 0
    ensures CountChannel(Subscriptions(userId, h), MessageEdited) == if h.onMessageEdited.Some? then 2 else 0
    ensures CountChannel(Subscriptions(userId, h), MessageDeleted) == if h.onMessageDeleted.Some? then 2 else 0
  {
    CountAt(userId, h, Messages);
    CountAt(userId, h, Typing);
    CountAt(userId, h, Notifications);
    CountAt(userId, h, ChatDeleted);
    CountAt(userId, h, MessageEdited);
    CountAt(userId, h, MessageDeleted);
  }

  /** A frame's body as the handler sees it: missing or empty, not JSON, or decoded. */
  datatype Body<T> = NoBody | Unparseable | Parsed(value: T)

  datatype FrameOutcome<T> =
    | Ignored                          // `if (!msg.body) return`
    | ParseErrorLogged                 // the handler's catch
    | Delivered(handler: HandlerId, payload: T)
    | NotificationLogged(payload: T)   // console.log only
    | Uncaught                         // JSON.parse throws out of the notifications handler

  /** What one subscription's callback does with one frame. */
  function HandleFrame<T>(sub: Subscription, body: Body<T>): (o: FrameOutcome<T>)
    ensures sub.handler.Some? ==> (o.Delivered? <==> body.Parsed?)
    ensures sub.handler.Some? && body.NoBody? ==> o.Ignored?
    ensures sub.handler.Some? && body.Unparseable? ==> o.ParseErrorLogged?
    ensures sub.handler.None? ==> (o.Uncaught? <==> !body.Parsed?)
    ensures !o.Uncaught? <==> sub.handler.Some? || body.Parsed?
  {
    match sub.handler
    case None => (if body.Parsed? then NotificationLogged(body.value) else Uncaught)
    case Some(h) =>
      match body
      case NoBody => Ignored
      case Unparseable => ParseErrorLogged
      case Parsed(v) => Delivered(h, v)
  }

  /** The outcomes of one frame arriving on every subscription of a channel. */
  function Deliver<T>(subs: seq<Subscription>, ch: Channel, body: Body<T>): (r: seq<FrameOutcome<T>>)
    ensures |r| == CountChannel(subs, ch)
  {
    if subs == [] then []
    else (if subs[0].channel == ch then [HandleFrame(subs[0], body)] else []) + Deliver(subs[1..], ch, body)
  }

  lemma {:induction false} DeliverAppend<T>(a: seq<Subscription>, b: seq<Subscription>, ch: Channel, body: Body<T>)
    ensures Deliver(a + b, ch, body) == Deliver(a, ch, body) + Deliver(b, ch, body)
  {
    if a == [] {
      assert a + b == b;
    } else {
      assert (a + b)[1..] == a[1..] + b;
      DeliverAppend(a[1..], b, ch, body);
    }
  }

  /** A message published to both the user queue and the user topic is handed to `onMessage`
      twice: nothing deduplicates it. */
  lemma MessageDeliveredTwice<T>(userId: string, h: Handlers, v: T)
    ensures Deliver(Subscriptions(userId, h), Messages, Parsed(v))
         == [Delivered(h.onMessage, v), Delivered(h.onMessage, v)]
  {
    var m := QueueAndTopic(userId, "messages", Messages, h.onMessage);
    var t := QueueAndTopic(userId, "typing", Typing, h.onTyping);
    var n := [Subscription("/user/queue/notifications", Notifications, None)];
    var c := OptionalPair(userId, "chat-deleted", ChatDeleted, h.onChatDeleted);
    var e := OptionalPair(userId, "message-edited", MessageEdited, h.onMessageEdited);
    var d := OptionalPair(userId, "message-deleted", MessageDeleted, h.onMessageDeleted);
    var body: Body<T> := Parsed(v);
    DeliverAppend(m, t, Messages, body);
    DeliverAppend(m + t, n, Messages, body);
    DeliverAppend(m + t + n, c, Messages, body);
    DeliverAppend(m + t + n + c, e, Messages, body);
    DeliverAppend(m + t + n + c + e, d, Messages, body);
    NoDeliveryOffChannel(t, Messages, body);
    NoDeliveryOffChannel(n, Messages, body);
    NoDeliveryOffChannel(c, Messages, body);
    NoDeliveryOffChannel(e, Messages, body);
    NoDeliveryOffChannel(d, Messages, body);
    assert m[1..][1..] == [];
  }

  lemma {:induction false} NoDeliveryOffChannel<T>(subs: seq<Subscription>, ch: Channel, body: Body<T>)
    requires forall i :: 0 <= i < |subs| ==> subs[i].channel != ch
    ensures Deliver(subs, ch, body) == []
  {
    if subs != [] {
      NoDeliveryOffChannel(subs[1..], ch, body);
    }
  }

  // ------------------------------------------------------------------ connection state machine

  const RECONNECT_DELAYS: seq<nat> := [2000, 5000, 10000]
  /** The library client's own reconnect interval. */
  const LIBRARY_RECONNECT_DELAY: nat := 3000

  /** `delays[Math.min(reconnectAttempts, delays.length - 1)]` */
  function ReconnectDelay(attempts: nat): (d: nat)
    ensures attempts == 0 ==> d == 2000
    ensures attempts == 1 ==> d == 5000
    ensures attempts >= 2 ==> d == 10000
  {
    RECONNECT_DELAYS[if attempts < |RECONNECT_DELAYS| - 1 then attempts else |RECONNECT_DELAYS| - 1]
  }

  lemma ReconnectDelayMonotone(a: nat, b: nat)
    requires a <= b
    ensures ReconnectDelay(a) <= ReconnectDelay(b)
  {
  }

  /** The library client as the module sees it. */
  datatype StompClient = StompClient(
    authorization: string,
    userId: string,
    handlers: Handlers,
    reconnectDelay: nat,
    connected: bool,
    subscriptions: seq<Subscription>)

  /** The module-level variables. `last` holds the five remembered handlers, which are always
      assigned together; `lastOnMessage && lastOnTyping` holds exactly when it is present. */
  datatype Session = Session(
    client: Option<StompClient>,
    timer: Option<nat>,
    attempts: nat,
    last: Option<Handlers>)

  const InitialSession := Session(None, None, 0, None)

  datatype TransportFailureKind = StompError | SocketClose | SocketError

  /** What the module keeps true: a live client was built from the remembered handlers, with a
      bearer header, a 3000 ms library reconnect interval, and subscriptions only while connected. */
  predicate Valid(s: Session)
  {
    s.client.Some? ==>
      && s.last == Some(s.client.value.handlers)
      && s.client.value.reconnectDelay == LIBRARY_RECONNECT_DELAY
      && StartsWith(s.client.value.authorization, "Bearer ")
      && (s.client.value.connected || s.client.value.subscriptions == [])
  }

  /** `scheduleReconnect` */
  function Schedule(s: Session): (r: Session)
    ensures s.timer.Some? ==> r == s
    ensures s.timer.None? ==> r == s.(timer := Some(ReconnectDelay(s.attempts)))
  {
    if s.timer.Some? then s else s.(timer := Some(ReconnectDelay(s.attempts)))
  }

  /** At most one reconnect timer: scheduling again while one is pending changes nothing. */
  lemma ScheduleIdempotent(s: Session)
    ensures Schedule(Schedule(s)) == Schedule(s)
    ensures Schedule(s).timer.Some?
  {
  }

  /** `connectStomp`, with the token and user read from the auth store. */
  function Connect(s: Session, accessToken: Option<string>, user: Option<User>, h: Handlers): (r: Session)
    ensures !Truthy(accessToken) || user.None? || s.client.Some? ==> r == s
    ensures Truthy(accessToken) && user.Some? && s.client.None? ==>
      && r.last == Some(h) && r.attempts == 0 && r.timer == s.timer
      && r.client == Some(StompClient("Bearer " + accessToken.value, user.value.id, h,
                                      LIBRARY_RECONNECT_DELAY, false, []))
  {
    if !Truthy(accessToken) || user.None? then s
    else if s.client.Some? then s
    else s.(last := Some(h), attempts := 0,
            client := Some(StompClient("Bearer " + accessToken.value, user.value.id, h,
                                       LIBRARY_RECONNECT_DELAY, false, [])))
  }

  /** The reconnect timer's callback. Without a pending timer there is no callback to run. */
  function FireTimer(s: Session, accessToken: Option<string>, user: Option<User>): (r: Session)
    ensures s.timer.None? ==> r == s
  {
    if s.timer.None? then s
    else
      var cleared := s.(timer := None, attempts := s.attempts + 1);
      if cleared.last.Some? then Connect(cleared, accessToken, user, cleared.last.value) else cleared
  }

  /** When the timer fires it is cleared and the counter rises by exactly one, unless a new client
      is built, which resets the counter; a client is built only for remembered handlers. */
  lemma FireTimerEffect(s: Session, accessToken: Option<string>, user: Option<User>)
    requires s.timer.Some?
    ensures var r := FireTimer(s, accessToken, user);
      && r.timer == None
      && (r.client == s.client ==> r.attempts == s.attempts + 1 && r.last == s.last)
      && (r.client != s.client ==> s.last.Some? && r.attempts == 0 && r.last == s.last)
  {
  }

  /** A still-active client makes the timer's `connectStomp` a no-op: the timer only counts. */
  lemma FireTimerWhileActive(s: Session, accessToken: Option<string>, user: Option<User>)
    requires s.timer.Some? && s.client.Some?
    ensures FireTimer(s, accessToken, user) == s.(timer := None, attempts := s.attempts + 1)
  {
  }

  /** `onConnect`: the counter is reset and the subscriptions are (re)made. */
  function LibraryConnected(s: Session): (r: Session)
    ensures s.client.None? ==> r == s
    ensures s.client.Some? ==>
      && r.attempts == 0 && r.timer == s.timer && r.last == s.last
      && r.client == Some(s.client.value.(connected := true,
           subscriptions := Subscriptions(s.client.value.userId, s.client.value.handlers)))
  {
    match s.client
    case None => s
    case Some(c) =>
      s.(attempts := 0,
         client := Some(c.(connected := true, subscriptions := Subscriptions(c.userId, c.handlers))))
  }

  /** `onStompError`/`onWebSocketClose`/`onWebSocketError`: a lost socket drops the connection and
      its subscriptions; every kind schedules a reconnect. The callback may come from a client the
      module has already dropped, in which case only the timer is affected. */
  function TransportFailure(s: Session, kind: TransportFailureKind): (r: Session)
    ensures r.attempts == s.attempts && r.last == s.last && r.timer.Some?
    ensures s.timer.Some? ==> r.timer == s.timer
    ensures s.timer.None? ==> r.timer == Some(ReconnectDelay(s.attempts))
    ensures r.client.Some? <==> s.client.Some?
  {
    var dropped :=
      if s.client.Some? && kind != StompError
      then s.(client := Some(s.client.value.(connected := false, subscriptions := [])))
      else s;
    Schedule(dropped)
  }

  /** `disconnectStomp` */
  function Disconnect(s: Session): (r: Session)
    ensures r.timer == None && r.client == None
    ensures r.attempts == s.attempts && r.last == s.last
  {
    s.(timer := None, client := None)
  }

  /** Every transition keeps the module's invariant. */
  lemma TransitionsPreserveValid(s: Session, token: Option<string>, user: Option<User>, h: Handlers,
                                 kind: TransportFailureKind)
    requires Valid(s)
    ensures Valid(Schedule(s)) && Valid(Connect(s, token, user, h)) && Valid(FireTimer(s, token, user))
    ensures Valid(LibraryConnected(s)) && Valid(TransportFailure(s, kind)) && Valid(Disconnect(s))
  {
    assert StartsWith("Bearer " + (if token.Some? then token.value else ""), "Bearer ");
  }

  /** `k` rounds of "the socket closes, then the backoff timer fires" against a client that stays
      active: the library keeps reconnecting every 3000 ms while the module's counter keeps
      climbing, so the module's own schedule reaches its 10 s ceiling. */
  function FailureRounds(s: Session, token: Option<string>, user: Option<User>, k: nat): Session
    decreases k
  {
    if k == 0 then s
    else FailureRounds(FireTimer(TransportFailure(s, SocketClose), token, user), token, user, k - 1)
  }

  lemma {:induction false} FailureRoundsCount(s: Session, token: Option<string>, user: Option<User>, k: nat)
    requires s.client.Some? && s.timer.None? && Valid(s)
    ensures var r := FailureRounds(s, token, user, k);
      && r.attempts == s.attempts + k && r.timer == None
      && r.client.Some? && r.client.value.reconnectDelay == LIBRARY_RECONNECT_DELAY
    decreases k
  {
    if k > 0 {
      var s1 := FireTimer(TransportFailure(s, SocketClose), token, user);
      FireTimerWhileActive(TransportFailure(s, SocketClose), token, user);
      TransitionsPreserveValid(s, token, user, s.client.value.handlers, SocketClose);
      TransitionsPreserveValid(TransportFailure(s, SocketClose), token, user, s.client.value.handlers, SocketClose);
      FailureRoundsCount(s1, token, user, k - 1);
    }
  }

  /** Disconnecting does not stop reconnection for good: a close callback of the dropped client
      arms a new timer, and when it fires with a session still signed in a new client is built. */
  lemma DisconnectThenLateClose(s: Session, token: Option<string>, user: Option<User>)
    requires s.last.Some? && Truthy(token) && user.Some?
    ensures var r := FireTimer(TransportFailure(Disconnect(s), SocketClose), token, user);
      r.client.Some? && r.attempts == 0 && r.timer == None
  {
  }

  /** `sendStompTyping`: published only through a connected client. */
  function TypingPublish(s: Session, receiverId: Option<string>, typing: bool,
                         status: Option<TypingStatus>): (r: Option<TypingFrame>)
    ensures r.Some? <==> s.client.Some? && s.client.value.connected
    ensures r.Some? ==> r.value.receiverId == receiverId && r.value.typing == typing
                        && r.value.status == status && r.value.kind == MapType(status)
  {
    if s.client.Some? && s.client.value.connected
    then Some(TypingFrame(receiverId, typing, status, MapType(status)))
    else None
  }

  /** `sendChatDeletedEvent` */
  function ChatDeletedPublish(s: Session, ev: ChatDeletedEvent): (r: PublishResult<ChatDeletedEvent>)
    ensures r.NoClient? <==> s.client.None?
    ensures r.Published? <==> s.client.Some? && s.client.value.connected
    ensures r.Published? ==> r.frame == ev
  {
    match s.client
    case None => NoClient
    case Some(c) => if c.connected then Published(ev) else NotConnected
  }

  /** The module-level variables, updated in place by the exported functions and callbacks. */
  class StompSession {
    var client: Option<StompClient>
    var timer: Option<nat>
    var attempts: nat
    var last: Option<Handlers>

    function State(): Session
      reads this
    {
      Session(client, timer, attempts, last)
    }

    constructor ()
      ensures State() == InitialSession
    {
      client, timer, attempts, last := None, None, 0, None;
    }

    method ScheduleReconnect()
      modifies this
      ensures State() == Schedule(old(State()))
    {
      if timer.None? {
        timer := Some(ReconnectDelay(attempts));
      }
    }

    method ConnectStomp(accessToken: Option<string>, user: Option<User>, h: Handlers)
      modifies this
      ensures State() == Connect(old(State()), accessToken, user, h)
    {
      if !Truthy(accessToken) || user.None? { return; }
      if client.Some? { return; }
      last := Some(h);
      attempts := 0;
      client := Some(StompClient("Bearer " + accessToken.value, user.value.id, h,
                                 LIBRARY_RECONNECT_DELAY, false, []));
    }

    method ReconnectTimerFired(accessToken: Option<string>, user: Option<User>)
      modifies this
      ensures State() == FireTimer(old(State()), accessToken, user)
    {
      if timer.None? { return; }
      timer := None;
      attempts := attempts + 1;
      if last.Some? {
        ConnectStomp(accessToken, user, last.value);
      }
    }

    method OnConnect()
      modifies this
      ensures State() == LibraryConnected(old(State()))
    {
      if client.Some? {
        var c := client.value;
        attempts := 0;
        client := Some(c.(connected := true, subscriptions := Subscriptions(c.userId, c.handlers)));
      }
    }

    method OnTransportFailure(kind: TransportFailureKind)
      modifies this
      ensures State() == TransportFailure(old(State()), kind)
    {
      if client.Some? && kind != StompError {
        client := Some(client.value.(connected := false, subscriptions := []));
      }
      ScheduleReconnect();
    }

    method DisconnectStomp()
      modifies this
      ensures State() == Disconnect(old(State()))
    {
      timer := None;
      client := None;
    }

    method SendStompTyping(receiverId: Option<string>, typing: bool, status: Option<TypingStatus>)
      returns (frame: Option<TypingFrame>)
      ensures frame == TypingPublish(State(), receiverId, typing, status)
    {
      if client.None? || !client.value.connected {
        return None;
      }
      frame := Some(TypingFrame(receiverId, typing, status, MapType(status)));
    }

    method SendChatDeletedEvent(ev: ChatDeletedEvent) returns (r: PublishResult<ChatDeletedEvent>)
      ensures r == ChatDeletedPublish(State(), ev)
    {
      if client.None? { return NoClient; }
      r := if client.value.connected then Published(ev) else NotConnected;
    }
  }
}
