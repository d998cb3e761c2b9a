/**
 * The small computations of pages/ChatDashboard.tsx: splitting long text into
 * messages, choosing a message type for a file, the typing indicator in both
 * directions, which messages may be edited, the duration label, the audio
 * queue and emoji insertion.
 */
module ChatHelpers {
  import opened Common
  import opened JsString
  import opened Types
  import opened MessageService
  import opened ChatCache

  const MAX_MESSAGE_LEN: nat := 4096

  // ------------------------------------------------------------------ chunkText

  function Concat(parts: seq<string>): string
  {
    if parts == [] then [] else Concat(parts[..|parts| - 1]) + parts[|parts| - 1]
  }

  function Min(a: int, b: int): int
  {
    if a < b then a else b
  }

  /** `chunkText`: consecutive slices of `size` characters; `[""]` for the empty string. */
  method ChunkText(text: string, size: nat) returns (chunks: seq<string>)
    requires size > 0
    ensures Concat(chunks) == text
    ensures |chunks| >= 1
    ensures text == [] ==> chunks == [[]]
    ensures text != [] ==> (|chunks| - 1) * size < |text| <= |chunks| * size
    ensures forall k :: 0 <= k < |chunks| ==> |chunks[k]| <= size
    ensures forall k :: 0 <= k < |chunks| - 1 ==> |chunks[k]| == size
    ensures text != [] ==> forall k :: 0 <= k < |chunks| ==> chunks[k] != []
  {
    chunks := [];
    var i := 0;
    while i < |text|
      invariant i <= |text| ==> Concat(chunks) == text[..i] && Full(chunks, size)
      invariant i > |text| ==> Concat(chunks) == text && LastPartial(chunks, size)
      invariant i == 0 <==> chunks == []
      decreases |text| - i
    {
      var j := Min(i + size, |text|);
      var piece := text[i..j];
      ChunkStep(text, chunks, i, size);
      chunks := chunks + [piece];
      i := i + size;
    }
    if chunks == [] {
      chunks := [[]];
    } else {
      if i == |text| {
        FullIsPartial(chunks, size);
      }
      ChunkBounds(chunks, size);
    }
  }

  /** Every chunk has exactly `size` characters. */
  predicate Full(chunks: seq<string>, size: nat)
  {
    forall k :: 0 <= k < |chunks| ==> |chunks[k]| == size
  }

  /** Some chunks, each of them full but the last, which holds between 1 and `size` characters. */
  predicate LastPartial(chunks: seq<string>, size: nat)
  {
    && chunks != []
    && Full(chunks[..|chunks| - 1], size)
    && 0 < |chunks[|chunks| - 1]| <= size
  }

  /** One more slice: while it is full the chunks stay full; the slice that reaches the end of the
      text is the last one. */
  lemma ChunkStep(text: string, chunks: seq<string>, i: nat, size: nat)
    requires size > 0 && i < |text| && Concat(chunks) == text[..i] && Full(chunks, size)
    ensures var j := Min(i + size, |text|); var next := chunks + [text[i..j]];
      && (i + size <= |text| ==> Concat(next) == text[..i + size] && Full(next, size))
      && (i + size > |text| ==> Concat(next) == text && LastPartial(next, size))
  {
    var j := Min(i + size, |text|);
    var next := chunks + [text[i..j]];
    assert next[..|chunks|] == chunks;
    assert text[..j] == text[..i] + text[i..j];
    assert text[..|text|] == text;
    assert Concat(next) == text[..j];
    if i + size <= |text| {
      assert forall k :: 0 <= k < |next| ==> next[k] == if k < |chunks| then chunks[k] else text[i..j];
    }
  }

  lemma FullIsPartial(chunks: seq<string>, size: nat)
    requires chunks != [] && size > 0 && Full(chunks, size)
    ensures LastPartial(chunks, size)
  {
    assert forall k :: 0 <= k < |chunks| - 1 ==> chunks[..|chunks| - 1][k] == chunks[k];
  }

  /** What the method promises, from the shape of the chunks. */
  lemma ChunkBounds(chunks: seq<string>, size: nat)
    requires LastPartial(chunks, size)
    ensures (|chunks| - 1) * size < |Concat(chunks)| <= |chunks| * size
    ensures forall k :: 0 <= k < |chunks| ==> 0 < |chunks[k]| <= size
    ensures forall k :: 0 <= k < |chunks| - 1 ==> |chunks[k]| == size
  {
    var init := chunks[..|chunks| - 1];
    assert forall k :: 0 <= k < |chunks| - 1 ==> chunks[k] == init[k];
    ChunkCount(chunks, size);
  }

  lemma {:induction false} FullLength(parts: seq<string>, size: nat)
    requires forall k :: 0 <= k < |parts| ==> |parts[k]| == size
    ensures |Concat(parts)| == |parts| * size
  {
    if parts != [] {
      var n := |parts|;
      FullLength(parts[..n - 1], size);
      assert (n - 1) * size + size == n * size;
    }
  }

  /** The number of chunks is the length divided by the size, rounded up. */
  lemma ChunkCount(chunks: seq<string>, size: nat)
    requires |chunks| >= 1
    requires forall k :: 0 <= k < |chunks| ==> 0 < |chunks[k]| <= size
    requires forall k :: 0 <= k < |chunks| - 1 ==> |chunks[k]| == size
    ensures (|chunks| - 1) * size < |Concat(chunks)| <= |chunks| * size
  {
    var n := |chunks|;
    var init := chunks[..n - 1];
    assert forall k :: 0 <= k < |init| ==> |init[k]| == size;
    FullLength(init, size);
    assert Concat(chunks) == Concat(init) + chunks[n - 1];
    var full := (n - 1) * size;
    assert |Concat(chunks)| == full + |chunks[n - 1]|;
    assert full + size == n * size;
  }

  // ------------------------------------------------------------------ attachment types

  /** `pickMessageType`, on the file's MIME type. */
  function PickMessageType(mime: string): (k: MessageKind)
    ensures k == Image <==> StartsWith(ToLower(mime), "image/")
    ensures k == Video <==> StartsWith(ToLower(mime), "video/")
    ensures k == Voice || k == Audio <==> StartsWith(ToLower(mime), "audio/")
    ensures k == Voice <==> (StartsWith(ToLower(mime), "audio/")
                             && (Contains(ToLower(mime), "ogg") || Contains(ToLower(mime), "webm")))
    ensures k != Text && k != System && k != VideoNote
  {
    var t := ToLower(mime);
    if StartsWith(t, "image/") then Image
    else if StartsWith(t, "video/") then Video
    else if StartsWith(t, "audio/") then (if Contains(t, "ogg") || Contains(t, "webm") then Voice else Audio)
    else File
  }

  /** The typing status derived from an attachment's message type before it is sent. */
  function SendStatusFor(k: MessageKind): Option<TypingStatus>
  {
    match k
    case Voice => Some(SendingVoice)
    case Audio => Some(SendingAudio)
    case Video => Some(SendingVideo)
    case Image => Some(SendingPhoto)
    case File => Some(SendingFile)
    case _ => None
  }

  /** Every picked type has a sending status, and that status announces the same type again. */
  lemma SendStatusAnnouncesKind(mime: string)
    ensures var k := PickMessageType(mime);
      SendStatusFor(k).Some? && SendStatusFor(k) != Some(WritingText) && MapType(SendStatusFor(k)) == Some(k)
  {
  }

  // ------------------------------------------------------------------ typing, outbound

  /** The peer of a chat as the page computes it (`user1Id === me ? user2Id : user1Id`): one of
      the two participants and, when they differ, never me. A chat I am not in gives its first user. */
  function Receiver(c: Chat, me: Option<string>): (r: Option<string>)
    ensures r == c.user1Id || r == c.user2Id
    ensures c.user1Id != c.user2Id ==> r != me
    ensures me != c.user1Id && me != c.user2Id ==> r == c.user1Id
  {
    if c.user1Id == me then c.user2Id else c.user1Id
  }

  /** What `sendTypingState` hands to `sendStompTyping`. */
  datatype TypingSignal = TypingSignal(receiverId: Option<string>, typing: bool, status: Option<TypingStatus>)

  /** `sendTypingState`: only "writing text" and "stopped" leave the page. */
  function SendTypingState(selected: Option<Chat>, me: Option<string>, status: Option<TypingStatus>): (r: Option<TypingSignal>)
    ensures r.Some? <==> selected.Some? && (status.None? || status == Some(WritingText))
    ensures r.Some? ==> && r.value.receiverId == Receiver(selected.value, me)
                        && r.value.typing == status.Some?
                        && r.value.status == (if status.Some? then Some(WritingText) else None)
    ensures r.Some? && selected.value.user1Id != selected.value.user2Id ==> r.value.receiverId != me
  {
    if selected.None? then None
    else if status.Some? && status != Some(WritingText) then None
    else Some(TypingSignal(Receiver(selected.value, me), status.Some?, if status.Some? then Some(WritingText) else None))
  }

  /** The "sending a file" statuses computed while uploading are never published. */
  lemma AttachmentStatusNotPublished(selected: Option<Chat>, me: Option<string>, mime: string)
    ensures SendTypingState(selected, me, SendStatusFor(PickMessageType(mime))) == None
  {
  }

  // ------------------------------------------------------------------ typing, inbound

  /** The normalisation applied to an incoming typing frame. */
  function NormalizeTyping(status: Option<string>, typing: Option<bool>, kind: Option<string>): (r: Option<TypingStatus>)
    ensures r.Some? ==> r == Some(WritingText)
    ensures r.Some? <==> ToUpper(status.GetOr("")) == "WRITING_TEXT"
                         || (typing == Some(true) && ToUpper(kind.GetOr("")) == "TEXT")
  {
    if ToUpper(status.GetOr("")) == "WRITING_TEXT" then Some(WritingText)
    else if typing == Some(true) && ToUpper(kind.GetOr("")) == "TEXT" then Some(WritingText)
    else None
  }

  lemma ToUpperIdempotent(s: string)
    ensures ToUpper(ToUpper(s)) == ToUpper(s)
  {
  }

  /** Case does not matter, and a peer that reports any status other than writing text (typing or
      not) ends up shown as not typing. */
  lemma NormalizeTypingCases(status: string, typing: Option<bool>, kind: Option<string>)
    ensures NormalizeTyping(Some(ToUpper(status)), typing, kind) == NormalizeTyping(Some(status), typing, kind)
    ensures ToUpper(status) != "WRITING_TEXT" && ToUpper(kind.GetOr("")) != "TEXT" ==>
      NormalizeTyping(Some(status), typing, kind) == None
  {
    ToUpperIdempotent(status);
  }

  // ------------------------------------------------------------------ canEditMessage

  /** `canEditMessage`: only my own text messages (or messages without a type). */
  function CanEditMessage(msg: Message, me: Option<string>): (r: bool)
    ensures r <==> me == Some(msg.senderId) && (msg.kind.None? || msg.kind == Some(Text))
  {
    if me != Some(msg.senderId) then false
    else if msg.kind.Some? && msg.kind != Some(Text) then false
    else if msg.kind == Some(System) then false
    else true
  }

  /** Neither a system message nor the marker of an emptied chat can be edited, by anyone. */
  lemma SystemMessagesNotEditable(msg: Message, me: Option<string>, chatId: string, s: string, r: string, at: string)
    ensures msg.kind == Some(System) ==> !CanEditMessage(msg, me)
    ensures !CanEditMessage(ClearedMarker(chatId, s, r, at), me)
  {
  }

  // ------------------------------------------------------------------ formatDuration

  /** `Math.round(ms / 1000)` for a positive whole number of milliseconds. */
  function RoundedSeconds(ms: nat): nat
  {
    (ms + 500) / 1000
  }

  lemma TwoDigits(x: nat)
    requires x < 60
    ensures var s := PadStart2(NatToString(x)); |s| == 2 && AllDigits(s) && DecimalValue(s) == x
  {
    var s := PadStart2(NatToString(x));
    if x < 10 {
      assert NatToString(x) == [DigitChar(x)];
      assert s == ['0', DigitChar(x)];
      assert s[..1] == ['0'];
      assert DecimalValue(['0']) == 0 by {
        assert ['0'][..0] == [];
      }
    } else {
      assert NatToString(x) == NatToString(x / 10) + [DigitChar(x % 10)];
    }
  }

  /** `formatDuration`: "00:00" when there is no positive duration, else minutes, a colon and two
      digits of seconds, of the rounded number of seconds. */
  function FormatDuration(ms: Option<int>): (r: string)
    ensures ms.None? || ms.value <= 0 ==> r == "00:00"
    ensures ms.Some? && ms.value > 0 ==> var t := RoundedSeconds(ms.value);
      && |r| >= 4 && r[|r| - 3] == ':'
      && AllDigits(r[..|r| - 3]) && AllDigits(r[|r| - 2..])
      && DecimalValue(r[..|r| - 3]) == t / 60 && DecimalValue(r[|r| - 2..]) == t % 60
  {
    if ms.None? || ms.value <= 0 then "00:00"
    else
      var t := RoundedSeconds(ms.value);
      var m := NatToString(t / 60);
      var s := PadStart2(NatToString(t % 60));
      TwoDigits(t % 60);
      var r := m + ":" + s;
      assert r[..|r| - 3] == m && r[|r| - 2..] == s;
      r
  }

  /** A duration under half a second reads "0:00", which is not the "no duration" label. */
  lemma ShortDurationLabel(ms: int)
    requires 0 < ms < 500
    ensures |FormatDuration(Some(ms))| == 4 && FormatDuration(Some(ms)) != "00:00"
  {
    var r := FormatDuration(Some(ms));
    assert RoundedSeconds(ms) == 0;
    assert r == NatToString(0) + ":" + PadStart2(NatToString(0));
    assert NatToString(0) == "0";
  }

  // ------------------------------------------------------------------ audio queue

  datatype AudioItem = AudioItem(id: string, url: string)

  /** The queue of voice/audio messages of one chat. */
  datatype AudioQueue = AudioQueue(chatId: Option<string>, items: seq<AudioItem>)

  /** The queue as seen while `active` is the chat of the playing audio. */
  function QueueFor(active: Option<string>, q: AudioQueue): seq<AudioItem>
  {
    if active == q.chatId then q.items else []
  }

  function FindAudio(list: seq<AudioItem>, id: string): (r: Option<nat>)
    ensures r.Some? ==> r.value < |list| && list[r.value].id == id
    ensures r.Some? ==> forall j :: 0 <= j < r.value ==> list[j].id != id
    ensures r.None? ==> forall j :: 0 <= j < |list| ==> list[j].id != id
  {
    if list == [] then None
    else if list[0].id == id then Some(0)
    else match FindAudio(list[1..], id)
      case None => None
      case Some(k) => Some(k + 1)
  }

  /** `getNextAudio` */
  function NextAudio(active: Option<string>, q: AudioQueue, currentId: string): (r: Option<AudioItem>)
    ensures r.Some? ==> active == q.chatId && r.value in q.items
    ensures r.Some? <==> match FindAudio(QueueFor(active, q), currentId)
                         case None => false
                         case Some(i) => i + 1 < |QueueFor(active, q)|
  {
    var list := QueueFor(active, q);
    match FindAudio(list, currentId)
    case Some(i) => if i + 1 < |list| then Some(list[i + 1]) else None
    case None => None
  }

  /** `getPrevAudio` */
  function PrevAudio(active: Option<string>, q: AudioQueue, currentId: string): (r: Option<AudioItem>)
    ensures r.Some? ==> active == q.chatId && r.value in q.items
    ensures r.Some? <==> match FindAudio(QueueFor(active, q), currentId)
                         case None => false
                         case Some(i) => i > 0
  {
    var list := QueueFor(active, q);
    match FindAudio(list, currentId)
    case Some(i) => if i > 0 then Some(list[i - 1]) else None
    case None => None
  }

  predicate DistinctIds(items: seq<AudioItem>)
  {
    forall i, j :: 0 <= i < j < |items| ==> items[i].id != items[j].id
  }

  /** With distinct ids, going forward and then back lands on the item we started from, and so
      does going back and then forward. */
  lemma NextPrevRoundTrip(active: Option<string>, q: AudioQueue, i: nat)
    requires DistinctIds(q.items) && i < |q.items| && active == q.chatId
    ensures var cur := q.items[i];
      && (NextAudio(active, q, cur.id).Some? ==> PrevAudio(active, q, NextAudio(active, q, cur.id).value.id) == Some(cur))
      && (PrevAudio(active, q, cur.id).Some? ==> NextAudio(active, q, PrevAudio(active, q, cur.id).value.id) == Some(cur))
  {
    var items := q.items;
    FindDistinct(items, i);
    if i + 1 < |items| { FindDistinct(items, i + 1); }
    if i > 0 { FindDistinct(items, i - 1); }
  }

  lemma FindDistinct(items: seq<AudioItem>, i: nat)
    requires DistinctIds(items) && i < |items|
    ensures FindAudio(items, items[i].id) == Some(i)
  {
  }

  // ------------------------------------------------------------------ insertEmoji

  /** The text area's caret, when the element exists (`selectionStart`, `selectionEnd`). */
  datatype Caret = Caret(start: Option<nat>, end: Option<nat>)

  /** `insertEmoji`'s new input. */
  function InsertEmoji(input: string, emo: string, caret: Option<Caret>): (r: string)
    ensures |r| <= MAX_MESSAGE_LEN
    ensures caret.None? ==> r == Prefix(input + emo, MAX_MESSAGE_LEN)
  {
    match caret
    case None => Prefix(input + emo, MAX_MESSAGE_LEN)
    case Some(c) =>
      var start := c.start.GetOr(|input|);
      var end := c.end.GetOr(|input|);
      Prefix(input[..Min(start, |input|)] + emo + Suffix(input, end), MAX_MESSAGE_LEN)
  }

  /** When the result fits, the emoji sits at the caret and removing it gives back the input with
      the selection deleted; with a collapsed caret, the input itself. */
  lemma InsertEmojiAtCaret(input: string, emo: string, start: nat, end: nat)
    requires start <= end <= |input| && |input| - (end - start) + |emo| <= MAX_MESSAGE_LEN
    ensures var r := InsertEmoji(input, emo, Some(Caret(Some(start), Some(end))));
      && |r| == |input| - (end - start) + |emo|
      && r[start..start + |emo|] == emo
      && r[..start] + r[start + |emo|..] == input[..start] + input[end..]
      && (start == end ==> r[..start] + r[start + |emo|..] == input)
  {
    var r := InsertEmoji(input, emo, Some(Caret(Some(start), Some(end))));
    var whole := input[..start] + emo + input[end..];
    assert r == whole;
    assert whole[start..start + |emo|] == emo;
    assert whole[..start] == input[..start];
    assert whole[start + |emo|..] == input[end..];
    if start == end {
      assert input[..start] + input[start..] == input;
    }
  }

  /** The caret at the end, or no caret position reported, is the same as appending. */
  lemma InsertEmojiAtEnd(input: string, emo: string)
    ensures InsertEmoji(input, emo, Some(Caret(None, None))) == InsertEmoji(input, emo, None)
    ensures InsertEmoji(input, emo, Some(Caret(Some(|input|), Some(|input|)))) == InsertEmoji(input, emo, None)
  {
    assert input[..|input|] == input;
  }
}
