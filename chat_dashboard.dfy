/**
 * The state of the chat page (pages/ChatDashboard.tsx) and its handlers: the
 * query caches, the typing maps and the pending stop-typing timer, the upload
 * progress entries, the composer (input, attachments, reply, system flag), the
 * route and the notices shown to the user.
 *
 * A server call is a parameter carrying its outcome; `now` stands for
 * `Date.now()` as decimal digits and `createdAt` for `new Date().toISOString()`.
 */
module ChatDashboard {
  import opened Common
  import opened JsString
  import opened Types
  import opened MessageService
  import opened ChatCache
  import opened ChatHelpers

  const MAX_FILE_BYTES: nat := 200 * 1024 * 1024
  /** Files above this size get an upload progress entry. */
  const PROGRESS_THRESHOLD: nat := 1000000
  /** The stop-typing timer in milliseconds. */
  const TYPING_IDLE_MS: nat := 2000

  /** The texts the page shows in its error banner or its toast. */
  datatype Notice =
    | FileTooLarge(fileName: string)
    | NotSent
    | ChatClearedToast | MessageDeletedToast | MessageEditedToast | ChatDeletedToast
    | Unauthorized(op: Operation) | Forbidden(op: Operation) | NotFound(op: Operation) | Failed(op: Operation)

  datatype Operation = DeleteChatOp | EditOp | DeleteMessageOp

  /** The outcome of a REST call: success, or an error with its HTTP status when there was a response. */
  datatype ServerOutcome<T> = Ok(data: T) | Error(status: Option<int>)

  /** The banner for a failed call, by status. A failed chat delete has no 404 text. */
  function ErrorNotice(op: Operation, status: Option<int>): (n: Notice)
    ensures status == Some(401) ==> n == Unauthorized(op)
    ensures status == Some(403) ==> n == Forbidden(op)
    ensures status == Some(404) && op != DeleteChatOp ==> n == NotFound(op)
    ensures status != Some(401) && status != Some(403) && (status != Some(404) || op == DeleteChatOp) ==> n == Failed(op)
  {
    if status == Some(401) then Unauthorized(op)
    else if status == Some(403) then Forbidden(op)
    else if status == Some(404) && op != DeleteChatOp then NotFound(op)
    else Failed(op)
  }

  datatype Page = Page(
    view: ChatsView,
    messages: MessageCache,
    route: Option<string>,
    isTyping: map<string, bool>,
    typingType: map<string, TypingStatus>,
    typingTimer: Option<Chat>,
    progress: map<string, nat>,
    input: string,
    attachments: seq<FileInfo>,
    replyTo: Option<Message>,
    isSystem: bool,
    error: Option<Notice>,
    toast: Option<Notice>,
    pendingDelete: Option<string>,
    handlersSelected: Option<string>)

  // ------------------------------------------------------------------ the open chat

  /** `params.chatId || null` */
  function RouteTarget(route: Option<string>): Option<string>
  {
    if route.Some? && route.value != "" then route else None
  }

  /** `chats.find(c => getChatId(c) === (params.chatId || null))`: with no route, the first chat
      without any id matches. */
  function SelectedIndex(chats: seq<Chat>, route: Option<string>): (r: Option<nat>)
    ensures r.Some? ==> r.value < |chats| && GetChatId(chats[r.value]) == RouteTarget(route)
    ensures r.Some? ==> forall j :: 0 <= j < r.value ==> GetChatId(chats[j]) != RouteTarget(route)
    ensures r.None? ==> forall j :: 0 <= j < |chats| ==> GetChatId(chats[j]) != RouteTarget(route)
  {
    if chats == [] then None
    else if GetChatId(chats[0]) == RouteTarget(route) then Some(0)
    else match SelectedIndex(chats[1..], route)
      case None => None
      case Some(k) => Some(k + 1)
  }

  function SelectedChatOf(p: Page): Option<Chat>
  {
    match SelectedIndex(p.view.chats, p.route)
    case None => None
    case Some(k) => Some(p.view.chats[k])
  }

  /** `selectedChatId`: the open chat's id, `None` when no chat is open or it has no id. */
  function SelectedIdOf(p: Page): (r: Option<string>)
    ensures r.Some? ==> SelectedChatOf(p).Some? && RouteTarget(p.route) == r
  {
    match SelectedChatOf(p)
    case None => None
    case Some(c) => GetChatId(c)
  }

  /** An open chat is the one the route names. */
  lemma SelectedMatchesRoute(p: Page, id: string)
    requires RouteTarget(p.route) == Some(id)
    ensures SelectedIdOf(p) == Some(id) <==> FindChat(p.view.chats, id).Some?
  {
    if FindChat(p.view.chats, id).Some? {
      var k := FindChat(p.view.chats, id).value;
      assert GetChatId(p.view.chats[k]) == RouteTarget(p.route);
    }
  }

  // ------------------------------------------------------------------ sending

  /** What every message of one send shares. */
  datatype SendContext = SendContext(
    chatId: string,
    receiver: Option<string>,
    sender: string,
    content: string,
    replyTo: Option<string>,
    system: bool,
    now: string,
    createdAt: string)

  /** `replyTo?.messageId || null` */
  function ReplyId(replyTo: Option<Message>): Option<string>
  {
    if replyTo.Some? && replyTo.value.messageId != "" then Some(replyTo.value.messageId) else None
  }

  /** The guards of `handleSendMessage`. */
  predicate Sendable(p: Page)
  {
    SelectedChatOf(p).Some? && SelectedIdOf(p).Some? && (Trim(p.input) != [] || p.attachments != [])
  }

  function ContextOf(p: Page, me: Option<string>, now: string, createdAt: string): SendContext
    requires Sendable(p)
  {
    SendContext(SelectedIdOf(p).value, Receiver(SelectedChatOf(p).value, me),
                if me.Some? then me.value else "", Prefix(p.input, MAX_MESSAGE_LEN),
                ReplyId(p.replyTo), p.isSystem, now, createdAt)
  }

  /** One upload in flight: the temp message shown meanwhile, the request sent, and whether it has a
      progress entry. */
  datatype PendingUpload = PendingUpload(chatId: string, temp: Message, request: SendRequest, tracked: bool, total: nat)

  function UploadFor(f: FileInfo, ctx: SendContext): (u: PendingUpload)
    ensures u.chatId == ctx.chatId && u.temp.chatId == ctx.chatId
    ensures u.temp.messageId == ctx.now + "-" + f.name
    ensures u.temp.kind == Some(PickMessageType(f.mimeType)) && u.request.kind == u.temp.kind
    ensures u.request.attachment == Some(f) && u.request.receiverId == ctx.receiver
    ensures u.tracked <==> f.size > PROGRESS_THRESHOLD
  {
    var kind := PickMessageType(f.mimeType);
    var temp := Message(ctx.now + "-" + f.name, ctx.chatId, ctx.sender, ctx.receiver.GetOr(""), ctx.content,
                        ctx.createdAt, false, Some(kind), ctx.replyTo, Some(ctx.system), None, Some(f.name),
                        None, None, None, None);
    var req := SendRequest(ctx.receiver, Some(ctx.content), Some(kind), ctx.replyTo, Some(ctx.system), None, Some(f));
    PendingUpload(ctx.chatId, temp, req, f.size > PROGRESS_THRESHOLD, f.size)
  }

  /** The files that pass the size check, in order. */
  function Accepted(files: seq<FileInfo>): seq<FileInfo>
  {
    if files == [] then []
    else
      var last := files[|files| - 1];
      Accepted(files[..|files| - 1]) + (if last.size > MAX_FILE_BYTES then [] else [last])
  }

  /** The uploads started for `files`, in order. */
  function Uploads(files: seq<FileInfo>, ctx: SendContext): seq<PendingUpload>
  {
    if files == [] then []
    else
      var last := files[|files| - 1];
      Uploads(files[..|files| - 1], ctx) + (if last.size > MAX_FILE_BYTES then [] else [UploadFor(last, ctx)])
  }

  /** Exactly the files within the limit are uploaded, in order, each for its own temp message. */
  lemma {:induction false} UploadsOfAccepted(files: seq<FileInfo>, ctx: SendContext)
    ensures |Uploads(files, ctx)| == |Accepted(files)|
    ensures forall k :: 0 <= k < |Accepted(files)| ==>
      Uploads(files, ctx)[k] == UploadFor(Accepted(files)[k], ctx) && Accepted(files)[k].size <= MAX_FILE_BYTES
    ensures forall f :: f in Accepted(files) <==> f in files && f.size <= MAX_FILE_BYTES
  {
    if files != [] {
      var init := files[..|files| - 1];
      UploadsOfAccepted(init, ctx);
      assert files == init + [files[|files| - 1]];
    }
  }

  /** Every upload is a multipart request carrying its file and the type shown on its temp message. */
  lemma UploadsAreMultipart(files: seq<FileInfo>, ctx: SendContext)
    ensures forall k :: 0 <= k < |Uploads(files, ctx)| ==>
      var u := Uploads(files, ctx)[k];
      && BuildSendBody(u.request).Multipart?
      && BuildSendBody(u.request).file.size <= MAX_FILE_BYTES
      && BuildSendBody(u.request).payload.kind == u.temp.kind
  {
    UploadsOfAccepted(files, ctx);
  }

  function Temps(us: seq<PendingUpload>): (r: seq<Message>)
    ensures |r| == |us| && forall k :: 0 <= k < |us| ==> r[k] == us[k].temp
  {
    seq(|us|, k requires 0 <= k < |us| => us[k].temp)
  }

  /** The progress entries after starting `us`. */
  function TrackAll(m: map<string, nat>, us: seq<PendingUpload>): map<string, nat>
  {
    if us == [] then m
    else
      var rest := TrackAll(m, us[..|us| - 1]);
      var u := us[|us| - 1];
      if u.tracked then rest[u.temp.messageId := u.total] else rest
  }

  /** The entries added are those of the tracked uploads, each with its file size; the others stay. */
  lemma {:induction false} TrackAllEntries(m: map<string, nat>, us: seq<PendingUpload>, id: string)
    ensures id in TrackAll(m, us) <==> id in m || exists k | 0 <= k < |us| :: us[k].tracked && us[k].temp.messageId == id
    ensures (forall k :: 0 <= k < |us| ==> !us[k].tracked || us[k].temp.messageId != id) ==>
      Lookup(TrackAll(m, us), id) == Lookup(m, id)
  {
    if us != [] {
      var init := us[..|us| - 1];
      TrackAllEntries(m, init, id);
      var u := us[|us| - 1];
      if exists k | 0 <= k < |init| :: init[k].tracked && init[k].temp.messageId == id {
        var k :| 0 <= k < |init| && init[k].tracked && init[k].temp.messageId == id;
        assert us[k] == init[k];
      }
      if exists k | 0 <= k < |us| :: us[k].tracked && us[k].temp.messageId == id {
        var k :| 0 <= k < |us| && us[k].tracked && us[k].temp.messageId == id;
        if k < |init| { assert init[k] == us[k]; }
      }
    }
  }

  /** The error banner after the size checks: the last oversized file's name. */
  function ErrorAfter(e: Option<Notice>, files: seq<FileInfo>): Option<Notice>
  {
    if files == [] then e
    else if files[|files| - 1].size > MAX_FILE_BYTES then Some(FileTooLarge(files[|files| - 1].name))
    else ErrorAfter(e, files[..|files| - 1])
  }

  /** With every file within the limit the banner is untouched; otherwise it names the last file
      over the limit. */
  lemma {:induction false} ErrorAfterCases(e: Option<Notice>, files: seq<FileInfo>)
    ensures (forall k :: 0 <= k < |files| ==> files[k].size <= MAX_FILE_BYTES) ==> ErrorAfter(e, files) == e
    ensures forall k :: 0 <= k < |files| && files[k].size > MAX_FILE_BYTES &&
                        (forall j :: k < j < |files| ==> files[j].size <= MAX_FILE_BYTES) ==>
                        ErrorAfter(e, files) == Some(FileTooLarge(files[k].name))
  {
    if forall k :: 0 <= k < |files| ==> files[k].size <= MAX_FILE_BYTES {
      ErrorAfterWithin(e, files);
    }
    forall k | 0 <= k < |files| && files[k].size > MAX_FILE_BYTES &&
               (forall j :: k < j < |files| ==> files[j].size <= MAX_FILE_BYTES)
      ensures ErrorAfter(e, files) == Some(FileTooLarge(files[k].name))
    {
      ErrorAfterLast(e, files, k);
    }
  }

  lemma {:induction false} ErrorAfterWithin(e: Option<Notice>, files: seq<FileInfo>)
    requires forall k :: 0 <= k < |files| ==> files[k].size <= MAX_FILE_BYTES
    ensures ErrorAfter(e, files) == e
  {
    if files != [] {
      var init := files[..|files| - 1];
      assert forall k :: 0 <= k < |init| ==> init[k] == files[k];
      ErrorAfterWithin(e, init);
    }
  }

  lemma {:induction false} ErrorAfterLast(e: Option<Notice>, files: seq<FileInfo>, k: nat)
    requires k < |files| && files[k].size > MAX_FILE_BYTES
    requires forall j :: k < j < |files| ==> files[j].size <= MAX_FILE_BYTES
    ensures ErrorAfter(e, files) == Some(FileTooLarge(files[k].name))
    decreases |files|
  {
    if k < |files| - 1 {
      var init := files[..|files| - 1];
      assert init[k] == files[k];
      assert forall j :: k < j < |init| ==> init[j] == files[j];
      ErrorAfterLast(e, init, k);
    }
  }

  function TextTemp(segment: string, idx: nat, ctx: SendContext): Message
  {
    Message(ctx.now + "-" + NatToString(idx), ctx.chatId, ctx.sender, ctx.receiver.GetOr(""), segment,
            ctx.createdAt, false, Some(Text), ctx.replyTo, Some(ctx.system), None, None, None, None, None, None)
  }

  /** The temp messages of a text send: one per segment, in order, with the segment as content. */
  function TextTemps(segments: seq<string>, ctx: SendContext): (r: seq<Message>)
    ensures |r| == |segments|
    ensures forall k :: 0 <= k < |r| ==> r[k].content == segments[k] && r[k].kind == Some(Text) && r[k].chatId == ctx.chatId
  {
    seq(|segments|, k requires 0 <= k < |segments| => TextTemp(segments[k], k, ctx))
  }

  function TextRequests(segments: seq<string>, ctx: SendContext): (r: seq<SendRequest>)
    ensures |r| == |segments|
    ensures forall k :: 0 <= k < |r| ==> r[k].content == Some(segments[k]) && r[k].attachment == None && r[k].kind == Some(Text)
  {
    seq(|segments|, k requires 0 <= k < |segments| => SendRequest(ctx.receiver, Some(segments[k]), Some(Text),
                                                                  ctx.replyTo, Some(ctx.system), None, None))
  }

  lemma NatToStringInjective(a: nat, b: nat)
    requires NatToString(a) == NatToString(b)
    ensures a == b
  {
  }

  /** The temp messages of one text send have pairwise distinct ids. */
  lemma TextTempIdsDistinct(segments: seq<string>, ctx: SendContext)
    ensures forall i, j :: 0 <= i < j < |segments| ==> TextTemps(segments, ctx)[i].messageId != TextTemps(segments, ctx)[j].messageId
  {
    var r := TextTemps(segments, ctx);
    forall i, j | 0 <= i < j < |segments| ensures r[i].messageId != r[j].messageId {
      var pre := ctx.now + "-";
      assert r[i].messageId == pre + NatToString(i) && r[j].messageId == pre + NatToString(j);
      assert r[i].messageId[|pre|..] == NatToString(i) && r[j].messageId[|pre|..] == NatToString(j);
    }
  }

  /** A text send: the text split into segments of at most 4096 characters, one request and one
      temp message (appended to `list`) per segment. */
  method StartTexts(text: string, ctx: SendContext, list: seq<Message>)
    returns (segments: seq<string>, texts: seq<SendRequest>, list': seq<Message>)
    ensures Concat(segments) == text
    ensures text != [] ==> forall k :: 0 <= k < |segments| ==> 0 < |segments[k]| <= MAX_MESSAGE_LEN
    ensures texts == TextRequests(segments, ctx)
    ensures list' == list + TextTemps(segments, ctx)
  {
    segments := ChunkText(text, MAX_MESSAGE_LEN);
    texts := TextRequests(segments, ctx);
    list' := list + TextTemps(segments, ctx);
  }

  /** The loop over the picked files: each one within the limit gets its temp message appended to
      `list`, its progress entry when it is large, and its upload; each one over the limit replaces
      the error banner. */
  method StartUploads(files: seq<FileInfo>, ctx: SendContext, list: seq<Message>, prog: map<string, nat>,
                      err: Option<Notice>)
    returns (uploads: seq<PendingUpload>, list': seq<Message>, prog': map<string, nat>, err': Option<Notice>)
    ensures uploads == Uploads(files, ctx)
    ensures list' == list + Temps(uploads)
    ensures prog' == TrackAll(prog, uploads)
    ensures err' == ErrorAfter(err, files)
  {
    uploads, list', prog', err' := [], list, prog, err;
    var i := 0;
    while i < |files|
      invariant 0 <= i <= |files|
      invariant uploads == Uploads(files[..i], ctx)
      invariant list' == list + Temps(uploads)
      invariant prog' == TrackAll(prog, uploads)
      invariant err' == ErrorAfter(err, files[..i])
    {
      var f := files[i];
      PickStep(files, i, ctx, err);
      if f.size > MAX_FILE_BYTES {
        err' := Some(FileTooLarge(f.name));
      } else {
        var u := UploadFor(f, ctx);
        UploadStep(list, prog, uploads, u);
        list' := list' + [u.temp];
        if u.tracked {
          prog' := prog'[u.temp.messageId := u.total];
        }
        uploads := uploads + [u];
      }
      i := i + 1;
    }
    assert files[..|files|] == files;
  }

  /** One more file picked: it adds its upload when within the limit and names the banner when over. */
  lemma PickStep(files: seq<FileInfo>, i: nat, ctx: SendContext, err: Option<Notice>)
    requires i < |files|
    ensures files[i].size > MAX_FILE_BYTES ==>
      Uploads(files[..i + 1], ctx) == Uploads(files[..i], ctx)
      && ErrorAfter(err, files[..i + 1]) == Some(FileTooLarge(files[i].name))
    ensures files[i].size <= MAX_FILE_BYTES ==>
      Uploads(files[..i + 1], ctx) == Uploads(files[..i], ctx) + [UploadFor(files[i], ctx)]
      && ErrorAfter(err, files[..i + 1]) == ErrorAfter(err, files[..i])
  {
    assert files[..i + 1][..i] == files[..i];
  }

  /** One more upload started: its temp message is appended and, when tracked, its progress entry
      is set. */
  lemma UploadStep(list: seq<Message>, prog: map<string, nat>, us: seq<PendingUpload>, u: PendingUpload)
    ensures list + Temps(us + [u]) == list + Temps(us) + [u.temp]
    ensures TrackAll(prog, us + [u]) == if u.tracked then TrackAll(prog, us)[u.temp.messageId := u.total] else TrackAll(prog, us)
  {
    assert (us + [u])[..|us|] == us;
  }

  /** What one `handleSendMessage` does to page `p`, giving page `q`. Unless it is a valid send
      (no chat open, no id, or nothing to send), nothing happens. With attachments, each file within
      the limit gets a temp message and an upload, and the text, if any, is their caption. Without,
      the trimmed text is split into segments of at most 4096 characters, each with a temp message
      and a request. Then the composer is reset and "stopped" is published. */
  predicate SentAs(p: Page, me: Option<string>, now: string, createdAt: string, q: Page,
                   uploads: seq<PendingUpload>, segments: seq<string>, texts: seq<SendRequest>,
                   typingOff: Option<TypingSignal>)
  {
    && (!Sendable(p) ==> q == p && uploads == [] && segments == [] && texts == [] && typingOff == None)
    && (Sendable(p) ==>
      var ctx := ContextOf(p, me, now, createdAt); var hasFiles := p.attachments != [];
      && (hasFiles ==> uploads == Uploads(p.attachments, ctx) && segments == [] && texts == [])
      && (!hasFiles ==> uploads == [] && Concat(segments) == Trim(p.input) && texts == TextRequests(segments, ctx))
      && (forall k :: 0 <= k < |segments| ==> 0 < |segments[k]| <= MAX_MESSAGE_LEN)
      && q == p.(
           messages := p.messages[ctx.chatId := ListAt(p.messages, ctx.chatId)
                                        + (if hasFiles then Temps(uploads) else TextTemps(segments, ctx))],
           progress := TrackAll(p.progress, uploads),
           error := ErrorAfter(p.error, p.attachments),
           input := "", attachments := [], replyTo := None, isSystem := false)
      && typingOff == Some(TypingSignal(ctx.receiver, false, None)))
  }

  /** `handleSendMessage` on the page's values; only the composer, the message cache, the progress
      entries and the error banner can change. */
  method ComposeSend(p: Page, me: Option<string>, now: string, createdAt: string)
    returns (q: Page, uploads: seq<PendingUpload>, segments: seq<string>, texts: seq<SendRequest>,
             typingOff: Option<TypingSignal>)
    ensures SentAs(p, me, now, createdAt, q, uploads, segments, texts, typingOff)
    ensures q == p.(messages := q.messages, progress := q.progress, error := q.error, input := q.input,
                    attachments := q.attachments, replyTo := q.replyTo, isSystem := q.isSystem)
  {
    q, uploads, segments, texts, typingOff := p, [], [], [], None;
    if !Sendable(p) {
      return;
    }
    var ctx := ContextOf(p, me, now, createdAt);
    var msgs := ListAt(p.messages, ctx.chatId);
    var prog := p.progress;
    var err := p.error;
    if p.attachments != [] {
      uploads, msgs, prog, err := StartUploads(p.attachments, ctx, msgs, prog, err);
    } else {
      segments, texts, msgs := StartTexts(Trim(p.input), ctx, msgs);
    }
    q := p.(messages := p.messages[ctx.chatId := msgs], progress := prog, error := err,
            input := "", attachments := [], replyTo := None, isSystem := false);
    typingOff := SendTypingState(SelectedChatOf(p), me, None);
  }

  /** `deletedBy` in `confirmDeleteChat`: the user's own id, else the open chat's other user, else
      "unknown". */
  function DeletedBy(me: Option<string>, sel: Option<Chat>): (r: string)
    ensures me.Some? && me.value != "" ==> r == me.value
    ensures (me.None? || me.value == "") && sel.None? ==> r == "unknown"
    ensures r != ""
  {
    if me.Some? && me.value != "" then me.value
    else if sel.Some? && Receiver(sel.value, me).Some? && Receiver(sel.value, me).value != ""
    then Receiver(sel.value, me).value else "unknown"
  }

  // ------------------------------------------------------------------ the page

  class Dashboard {
    /** `user?.id` */
    const me: Option<string>

    var view: ChatsView
    var messages: MessageCache
    var route: Option<string>
    var isTyping: map<string, bool>
    var typingType: map<string, TypingStatus>
    /** The chat captured by the pending stop-typing timer (`typingTimeoutRef`). */
    var typingTimer: Option<Chat>
    /** `uploadProgress`: each tracked temp message id with its file size. */
    var progress: map<string, nat>
    var input: string
    var attachments: seq<FileInfo>
    var replyTo: Option<Message>
    var isSystem: bool
    var error: Option<Notice>
    var toast: Option<Notice>
    var pendingDelete: Option<string>
    /** `selectedChatId` as it was when the STOMP handlers were registered; the message-deleted
        handler reads this copy. */
    var handlersSelected: Option<string>

    function State(): Page
      reads this
    {
      Page(view, messages, route, isTyping, typingType, typingTimer, progress, input, attachments, replyTo,
           isSystem, error, toast, pendingDelete, handlersSelected)
    }

    function SelectedChat(): Option<Chat>
      reads this
    {
      SelectedChatOf(State())
    }

    function SelectedId(): Option<string>
      reads this
    {
      SelectedIdOf(State())
    }

    /** The page on first render: empty caches, nothing typed. */
    constructor (me: Option<string>, route: Option<string>)
      ensures this.me == me
      ensures State() == Page(ChatsView([], 0), map[], route, map[], map[], None, map[], "", [], None, false,
                              None, None, None, None)
    {
      this.me := me;
      view, messages, this.route := ChatsView([], 0), map[], route;
      isTyping, typingType, typingTimer, progress := map[], map[], None, map[];
      input, attachments, replyTo, isSystem := "", [], None, false;
      error, toast, pendingDelete, handlersSelected := None, None, None, None;
    }

    // The state setters, one per field, as the page's state hooks give them.

    method SetView(v: ChatsView)
      modifies this
      ensures State() == old(State()).(view := v)
    {
      view := v;
    }

    method SetMessages(m: MessageCache)
      modifies this
      ensures State() == old(State()).(messages := m)
    {
      messages := m;
    }

    method SetRoute(r: Option<string>)
      modifies this
      ensures State() == old(State()).(route := r)
    {
      route := r;
    }

    method SetProgress(prog: map<string, nat>)
      modifies this
      ensures State() == old(State()).(progress := prog)
    {
      progress := prog;
    }

    method SetError(e: Option<Notice>)
      modifies this
      ensures State() == old(State()).(error := e)
    {
      error := e;
    }

    method SetToast(t: Option<Notice>)
      modifies this
      ensures State() == old(State()).(toast := t)
    {
      toast := t;
    }

    method SetInput(v: string)
      modifies this
      ensures State() == old(State()).(input := v)
    {
      input := v;
    }

    method SetAttachments(files: seq<FileInfo>)
      modifies this
      ensures State() == old(State()).(attachments := files)
    {
      attachments := files;
    }

    method SetReplyTo(m: Option<Message>)
      modifies this
      ensures State() == old(State()).(replyTo := m)
    {
      replyTo := m;
    }

    method SetIsSystem(b: bool)
      modifies this
      ensures State() == old(State()).(isSystem := b)
    {
      isSystem := b;
    }

    method SetPendingDelete(id: Option<string>)
      modifies this
      ensures State() == old(State()).(pendingDelete := id)
    {
      pendingDelete := id;
    }

    /** The `['chats']` query resolved (first load, or the refetch after an invalidation). */
    method ChatsLoaded(v: ChatsView)
      modifies this
      ensures State() == old(State()).(view := v)
    {
      view := v;
    }

    /** A `['messages', chatId]` query resolved. */
    method MessagesLoaded(chatId: string, list: seq<Message>)
      modifies this
      ensures State() == old(State()).(messages := old(messages)[chatId := list])
    {
      messages := messages[chatId := list];
    }

    method Navigate(r: Option<string>)
      modifies this
      ensures State() == old(State()).(route := r)
    {
      route := r;
    }

    /** The effect that calls `connectStomp` ran: its handlers close over the current open chat id. */
    method RegisterStompHandlers()
      modifies this
      ensures State() == old(State()).(handlersSelected := old(SelectedId()))
    {
      handlersSelected := SelectedId();
    }

    /** The effect that clears the open chat's unread count. */
    method OpenChatEffect()
      modifies this
      ensures old(SelectedId()).None? ==> State() == old(State())
      ensures old(SelectedId()).Some? ==> State() == old(State()).(view := OpenChat(old(view), old(SelectedId()).value))
    {
      var id := SelectedId();
      if id.Some? {
        view := OpenChat(view, id.value);
      }
    }

    // ---------------------------------------------------------------- STOMP events

    /** `onMessage` */
    method OnIncomingMessage(msg: Message, now: string)
      modifies this
      ensures var cur := old(SelectedChat()); var curId := old(SelectedId());
        var shown := curId.Some? && (Some(msg.chatId) == curId || cur.value.otherUserId == Some(msg.senderId));
        State() == old(State()).(
          messages := if shown then old(messages)[curId.value := ListAt(old(messages), curId.value) + [msg]] else old(messages),
          view := IncomingMessage(old(view), msg, me, curId, now))
    {
      var cur := SelectedChat();
      var curId := SelectedId();
      if curId.Some? && (Some(msg.chatId) == curId || cur.value.otherUserId == Some(msg.senderId)) {
        messages := messages[curId.value := ListAt(messages, curId.value) + [msg]];
      }
      view := IncomingMessage(view, msg, me, curId, now);
    }

    /** `onTyping` */
    method OnTypingEvent(senderId: string, typing: Option<bool>, kind: Option<string>, status: Option<string>)
      modifies this
      ensures var st := NormalizeTyping(status, typing, kind);
        State() == old(State()).(
          isTyping := old(isTyping)[senderId := st == Some(WritingText)],
          typingType := if st.Some? then old(typingType)[senderId := st.value] else old(typingType) - {senderId})
      ensures isTyping[senderId] <==> senderId in typingType
    {
      var st := NormalizeTyping(status, typing, kind);
      isTyping := isTyping[senderId := st == Some(WritingText)];
      if st.Some? {
        typingType := typingType[senderId := st.value];
      } else {
        typingType := typingType - {senderId};
      }
    }

    /** `onChatDeleted` */
    method OnChatDeletedEvent(chatId: Option<string>)
      modifies this
      ensures chatId.None? || chatId.value == "" ==> State() == old(State())
      ensures chatId.Some? && chatId.value != "" ==>
        var id := chatId.value; var open := old(SelectedChat()).Some? && GetChatId(old(SelectedChat()).value) == chatId;
        State() == old(State()).(
          view := AfterChatDeleted(old(view), id),
          messages := old(messages) - {id},
          route := if open then None else old(route),
          toast := if open then Some(ChatDeletedToast) else old(toast))
    {
      if chatId.None? || chatId.value == "" {
        return;
      }
      var id := chatId.value;
      var open := SelectedChat().Some? && GetChatId(SelectedChat().value) == chatId;
      SetView(AfterChatDeleted(view, id));
      SetMessages(messages - {id});
      if open {
        SetRoute(None);
        SetToast(Some(ChatDeletedToast));
      }
    }

    /** `onMessageEdited` */
    method OnMessageEditedEvent(edited: Option<Message>)
      modifies this
      ensures edited.None? || edited.value.messageId == "" ==> State() == old(State())
      ensures edited.Some? && edited.value.messageId != "" ==>
        var e := edited.value;
        State() == old(State()).(
          messages := old(messages)[e.chatId := EditMessages(ListAt(old(messages), e.chatId), e)],
          view := EditChats(old(view), e))
    {
      if edited.None? || edited.value.messageId == "" {
        return;
      }
      var e := edited.value;
      messages := messages[e.chatId := EditMessages(ListAt(messages, e.chatId), e)];
      view := EditChats(view, e);
    }

    /** `handleMessageDeletedEvent`. The toast compares with the chat that was open when the handlers
        were registered. */
    method OnMessageDeletedEvent(messageId: string, chatId: string, clearedAt: string)
      modifies this
      ensures messageId == "" || chatId == "" ==> State() == old(State())
      ensures messageId != "" && chatId != "" ==>
        var remaining := RemoveMessage(ListAt(old(messages), chatId), messageId);
        State() == old(State()).(
          messages := old(messages)[chatId := remaining],
          view := MessageDeletedChats(old(view), chatId, remaining, ClearedMarker(chatId, "", "", clearedAt), clearedAt),
          toast := if old(handlersSelected) == Some(chatId) && remaining == [] then Some(ChatClearedToast) else old(toast))
    {
      if messageId == "" || chatId == "" {
        return;
      }
      var remaining := RemoveMessage(ListAt(messages, chatId), messageId);
      SetMessages(messages[chatId := remaining]);
      SetView(MessageDeletedChats(view, chatId, remaining, ClearedMarker(chatId, "", "", clearedAt), clearedAt));
      if handlersSelected == Some(chatId) && remaining == [] {
        SetToast(Some(ChatClearedToast));
      }
    }

    // ---------------------------------------------------------------- starting a chat

    /** A user picked from the search results: open their chat if it has an id, otherwise add (at most
        once) and open the `temp-<id>` chat. */
    method StartChatWith(peer: string, now: string)
      modifies this
      ensures var k := FindPeerChat(old(view).chats, peer);
        if k.Some? && GetChatId(old(view).chats[k.value]).Some?
        then State() == old(State()).(route := GetChatId(old(view).chats[k.value]))
        else State() == old(State()).(view := EnsureTempChat(old(view), me, peer, now), route := Some(TempChatId(peer)))
      ensures route == Some(PeerRoute(old(view).chats, peer))
    {
      var k := FindPeerChat(view.chats, peer);
      if k.Some? && GetChatId(view.chats[k.value]).Some? {
        route := GetChatId(view.chats[k.value]);
        return;
      }
      view := EnsureTempChat(view, me, peer, now);
      route := Some(TempChatId(peer));
    }

    /** A mention clicked: an existing chat with the user is opened by its id even when it has none
        (the route then reads "null"). */
    method StartChatFromMention(peer: string, now: string)
      modifies this
      ensures var k := FindPeerChat(old(view).chats, peer);
        if k.Some?
        then State() == old(State()).(route := Some(GetChatId(old(view).chats[k.value]).GetOr("null")))
        else State() == old(State()).(view := EnsureTempChat(old(view), me, peer, now), route := Some(TempChatId(peer)))
    {
      var k := FindPeerChat(view.chats, peer);
      if k.Some? {
        route := Some(GetChatId(view.chats[k.value]).GetOr("null"));
        return;
      }
      view := EnsureTempChat(view, me, peer, now);
      route := Some(TempChatId(peer));
    }

    // ---------------------------------------------------------------- typing, outbound

    /** `handleTyping`: the input is capped, and with a chat open "writing" is published and the single
        stop-typing timer is restarted for that chat. */
    method HandleTyping(value: string) returns (signal: Option<TypingSignal>)
      modifies this
      ensures old(SelectedChat()).None? ==> State() == old(State()).(input := Prefix(value, MAX_MESSAGE_LEN)) && signal == None
      ensures old(SelectedChat()).Some? ==>
        && State() == old(State()).(input := Prefix(value, MAX_MESSAGE_LEN), typingTimer := old(SelectedChat()))
        && signal == Some(TypingSignal(Receiver(old(SelectedChat()).value, me), true, Some(WritingText)))
    {
      var sel := SelectedChat();
      input := Prefix(value, MAX_MESSAGE_LEN);
      if sel.None? {
        return None;
      }
      signal := SendTypingState(sel, me, Some(WritingText));
      typingTimer := sel;
    }

    /** The stop-typing timer fired: "stopped" goes to the chat it was armed for. */
    method TypingTimerFired() returns (signal: Option<TypingSignal>)
      modifies this
      ensures old(typingTimer).None? ==> State() == old(State()) && signal == None
      ensures old(typingTimer).Some? ==>
        && State() == old(State()).(typingTimer := None)
        && signal == Some(TypingSignal(Receiver(old(typingTimer).value, me), false, None))
    {
      if typingTimer.None? {
        return None;
      }
      signal := SendTypingState(typingTimer, me, None);
      typingTimer := None;
    }

    // ---------------------------------------------------------------- handleSendMessage

    /** `handleSendMessage`: the page moves to the state `ComposeSend` computes. */
    method SendMessage(now: string, createdAt: string)
      returns (uploads: seq<PendingUpload>, segments: seq<string>, texts: seq<SendRequest>, typingOff: Option<TypingSignal>)
      modifies this
      ensures SentAs(old(State()), me, now, createdAt, State(), uploads, segments, texts, typingOff)
    {
      var p := State();
      var q;
      q, uploads, segments, texts, typingOff := ComposeSend(p, me, now, createdAt);
      if Sendable(p) {
        StoreSend(q.messages, q.progress, q.error);
        ResetComposer();
      }
    }

    /** The message cache, the progress entries and the error banner after a send. */
    method StoreSend(m: MessageCache, prog: map<string, nat>, err: Option<Notice>)
      modifies this
      ensures State() == old(State()).(messages := m, progress := prog, error := err)
    {
      SetMessages(m);
      SetProgress(prog);
      SetError(err);
    }

    /** The composer after a send: no text, no attachments, no reply, not a system message. */
    method ResetComposer()
      modifies this
      ensures State() == old(State()).(input := "", attachments := [], replyTo := None, isSystem := false)
    {
      SetInput("");
      SetAttachments([]);
      SetReplyTo(None);
      SetIsSystem(false);
    }

    /** An upload settled. With the saved message the caches are reconciled (and a temp chat that got
        its real id is replaced and the route follows it); with none (a failure, or a response without
        data) the temp message stays. Either way the progress entry goes and "stopped" is published to
        the chat the send was made in. */
    method UploadSettled(u: PendingUpload, saved: Option<Message>) returns (typingOff: Option<TypingSignal>)
      modifies this
      ensures saved.None? ==> State() == old(State()).(progress := old(progress) - {u.temp.messageId})
      ensures saved.Some? ==> var m := saved.value;
        State() == old(State()).(
          messages := ReconcileMessages(old(messages), u.chatId, u.temp.messageId, m),
          view := ReconcileChats(old(view), u.chatId, m),
          route := if MovesChat(m, u.chatId) then Some(RealChatId(m, u.chatId)) else old(route),
          progress := old(progress) - {u.temp.messageId})
      ensures typingOff == Some(TypingSignal(u.request.receiverId, false, None))
    {
      if saved.Some? {
        Reconcile(u, saved.value);
      } else {
        progress := progress - {u.temp.messageId};
      }
      typingOff := Some(TypingSignal(u.request.receiverId, false, None));
    }

    /** The saved message of upload `u` replaces its temp message in both caches; the route follows
        a temp chat that got its real id, and the progress entry goes. */
    method Reconcile(u: PendingUpload, m: Message)
      modifies this
      ensures State() == old(State()).(
        messages := ReconcileMessages(old(messages), u.chatId, u.temp.messageId, m),
        view := ReconcileChats(old(view), u.chatId, m),
        route := if MovesChat(m, u.chatId) then Some(RealChatId(m, u.chatId)) else old(route),
        progress := old(progress) - {u.temp.messageId})
    {
      SetMessages(ReconcileMessages(messages, u.chatId, u.temp.messageId, m));
      SetView(ReconcileChats(view, u.chatId, m));
      if MovesChat(m, u.chatId) {
        SetRoute(Some(RealChatId(m, u.chatId)));
      }
      SetProgress(progress - {u.temp.messageId});
    }

    /** A text segment's request settled: a failure only shows the banner; the temp message is never
        replaced, on either outcome. */
    method TextSettled(ok: bool)
      modifies this
      ensures ok ==> State() == old(State())
      ensures !ok ==> State() == old(State()).(error := Some(NotSent))
    {
      if !ok {
        error := Some(NotSent);
      }
    }

    // ---------------------------------------------------------------- deleting a chat

    /** `handleDeleteChat`: asks for confirmation of the given chat, or of the open one. */
    method RequestDeleteChat(chatId: Option<string>)
      modifies this
      ensures var target := if chatId.Some? && chatId.value != "" then chatId else old(SelectedId());
        State() == old(State()).(pendingDelete := if target.Some? then target else old(pendingDelete))
    {
      var target := if chatId.Some? && chatId.value != "" then chatId else SelectedId();
      if target.Some? {
        pendingDelete := target;
      }
    }

    /** `confirmDeleteChat`. After the server deleted the chat the event is published; when the client
        exists but is not connected, publishing throws and the local removal is skipped. */
    method ConfirmDeleteChat(outcome: ServerOutcome<()>, stomp: StompSession, deletedAt: string)
      returns (published: Option<PublishResult<ChatDeletedEvent>>)
      modifies this
      ensures old(pendingDelete).None? ==> State() == old(State()) && published == None
      ensures old(pendingDelete).Some? && outcome.Error? ==>
        State() == old(State()).(error := Some(ErrorNotice(DeleteChatOp, outcome.status)), pendingDelete := None)
        && published == None
      ensures old(pendingDelete).Some? && outcome.Ok? ==>
        var id := old(pendingDelete).value;
        var r := ChatDeletedPublish(stomp.State(), ChatDeletedEvent(id, DeletedBy(me, old(SelectedChat())), deletedAt));
        && published == Some(r)
        && (r.NotConnected? ==> State() == old(State()).(error := Some(Failed(DeleteChatOp)), pendingDelete := None))
        && (!r.NotConnected? ==> State() == old(State()).(
              view := AfterChatDeleted(old(view), id),
              messages := old(messages) - {id},
              toast := Some(ChatDeletedToast),
              route := if old(SelectedId()) == Some(id) then None else old(route),
              pendingDelete := None))
    {
      published := None;
      if pendingDelete.None? {
        return;
      }
      var id := pendingDelete.value;
      if outcome.Error? {
        DeleteFailed(ErrorNotice(DeleteChatOp, outcome.status));
        return;
      }
      var r := stomp.SendChatDeletedEvent(ChatDeletedEvent(id, DeletedBy(me, SelectedChat()), deletedAt));
      published := Some(r);
      if r.NotConnected? {
        DeleteFailed(Failed(DeleteChatOp));
        return;
      }
      DropChat(id);
    }

    /** The deletion is abandoned with `notice` on the banner. */
    method DeleteFailed(notice: Notice)
      modifies this
      ensures State() == old(State()).(error := Some(notice), pendingDelete := None)
    {
      SetError(Some(notice));
      SetPendingDelete(None);
    }

    /** The chat leaves the list and the message cache and the "deleted" toast shows; if it was the
        open one, the route goes back to the chat list. */
    method DropChat(id: string)
      modifies this
      ensures State() == old(State()).(
        view := AfterChatDeleted(old(view), id),
        messages := old(messages) - {id},
        toast := Some(ChatDeletedToast),
        route := if old(SelectedId()) == Some(id) then None else old(route),
        pendingDelete := None)
    {
      var wasOpen := SelectedId() == Some(id);
      SetView(AfterChatDeleted(view, id));
      SetMessages(messages - {id});
      SetToast(Some(ChatDeletedToast));
      if wasOpen {
        SetRoute(None);
      }
      SetPendingDelete(None);
    }

    // ---------------------------------------------------------------- editing and deleting a message

    /** `handleEditMessage`. `answer` is what the prompt returned (`None` when cancelled); the request
        sends the trimmed answer, and on success the server's message (or the old one with the new
        text) is merged into both caches. */
    method EditMessage(msg: Message, answer: Option<string>, outcome: ServerOutcome<Option<Message>>)
      returns (request: Option<string>)
      modifies this
      ensures answer.None? ==> State() == old(State()) && request == None
      ensures answer.Some? ==> request == Some(Trim(answer.value))
      ensures answer.Some? && outcome.Error? ==>
        State() == old(State()).(error := Some(ErrorNotice(EditOp, outcome.status)))
      ensures answer.Some? && outcome.Ok? ==>
        var e := if outcome.data.Some? then outcome.data.value else msg.(content := Trim(answer.value));
        State() == old(State()).(
          messages := old(messages)[e.chatId := EditMessages(ListAt(old(messages), e.chatId), e)],
          view := EditChats(old(view), e),
          toast := Some(MessageEditedToast))
    {
      if answer.None? {
        return None;
      }
      var trimmed := Trim(answer.value);
      request := Some(trimmed);
      if outcome.Error? {
        error := Some(ErrorNotice(EditOp, outcome.status));
        return;
      }
      var e := if outcome.data.Some? then outcome.data.value else msg.(content := trimmed);
      StoreEdit(e);
    }

    /** Both caches take the edited message and the "edited" toast shows. */
    method StoreEdit(e: Message)
      modifies this
      ensures State() == old(State()).(
        messages := old(messages)[e.chatId := EditMessages(ListAt(old(messages), e.chatId), e)],
        view := EditChats(old(view), e),
        toast := Some(MessageEditedToast))
    {
      SetMessages(messages[e.chatId := EditMessages(ListAt(messages, e.chatId), e)]);
      SetView(EditChats(view, e));
      SetToast(Some(MessageEditedToast));
    }

    /** `handleDeleteMessage`: the caches change only after the server deleted the message. */
    method DeleteMessage(msg: Message, outcome: ServerOutcome<()>, clearedAt: string)
      modifies this
      ensures outcome.Error? ==> State() == old(State()).(error := Some(ErrorNotice(DeleteMessageOp, outcome.status)))
      ensures outcome.Ok? ==>
        var remaining := RemoveMessage(ListAt(old(messages), msg.chatId), msg.messageId);
        State() == old(State()).(
          messages := old(messages)[msg.chatId := remaining],
          view := MessageDeletedChats(old(view), msg.chatId, remaining,
                                      ClearedMarker(msg.chatId, msg.senderId, msg.receiverId, clearedAt), clearedAt),
          toast := Some(if remaining == [] then ChatClearedToast else MessageDeletedToast))
    {
      if outcome.Error? {
        error := Some(ErrorNotice(DeleteMessageOp, outcome.status));
        return;
      }
      var remaining := RemoveMessage(ListAt(messages, msg.chatId), msg.messageId);
      SetMessages(messages[msg.chatId := remaining]);
      SetView(MessageDeletedChats(view, msg.chatId, remaining,
                                  ClearedMarker(msg.chatId, msg.senderId, msg.receiverId, clearedAt), clearedAt));
      SetToast(Some(if remaining == [] then ChatClearedToast else MessageDeletedToast));
    }
  }
}
