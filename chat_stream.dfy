/**
 * app/api/chat/stream/route.ts: the server-sent-events relay. It checks the
 * request, forwards it to the back end's public chat endpoint, and replays
 * the finished reply word by word as `data: <json>\n\n` events (the event
 * stream format of the WHATWG HTML Living Standard, section 9.2), closed by
 * exactly one terminal event.
 */
module ChatStream {
  import opened Wrappers
  import opened Strings
  import opened Json

  datatype HistoryEntry = HistoryEntry(role: string, content: string)

  /** The parsed request body; an absent key is `None`. */
  datatype StreamRequest = StreamRequest(
    companionId: Option<string>,
    message: Option<string>,
    mood: Option<string>,
    history: Option<seq<HistoryEntry>>)

  /** The body forwarded to the back end's `/api/chat/public`. */
  datatype BackendRequest = BackendRequest(
    companionId: string, message: string, mood: string, history: seq<HistoryEntry>)

  /** What the forwarded call produced: a thrown error, a non-OK status, or a parsed body. */
  datatype BackendAnswer =
    | Threw
    | NotOk(status: int)
    | Answer(response: Option<string>, companion: Option<string>)

  /** One stream event before serialisation. */
  datatype Frame =
    | Content(text: string)
    | Done(companionId: string, companion: string)

  datatype StreamResponse =
    | JsonError(status: int, error: string)
    | EventStream(events: seq<string>)

  const DefaultReply := "Hey there! I'm happy to chat with you."
  const DefaultName := "AI Companion"
  const DefaultMood := "romantic"

  /** JavaScript truthiness of an optional string. */
  predicate Truthy(s: Option<string>) { s.Some? && s.value != "" }

  // ------------------------------------------------------------ request side

  /** The body sent to the back end: mood and history filled in when falsy. */
  function Forward(id: string, message: string, req: StreamRequest): (b: BackendRequest)
    ensures b.companionId == id && b.message == message
    ensures b.mood == (if Truthy(req.mood) then req.mood.value else "romantic")
    ensures b.history == (if req.history.Some? then req.history.value else [])
  {
    BackendRequest(id, message,
                   if Truthy(req.mood) then req.mood.value else DefaultMood,
                   if req.history.Some? then req.history.value else [])
  }

  /** The reply text: the back end's `response`, or the fixed greeting when it is falsy. */
  function ReplyText(response: Option<string>): (r: string)
    ensures r != ""
    ensures Truthy(response) ==> r == response.value
  {
    if Truthy(response) then response.value else DefaultReply
  }

  function CompanionName(companion: Option<string>): (r: string)
    ensures r != ""
    ensures Truthy(companion) ==> r == companion.value
  {
    if Truthy(companion) then companion.value else DefaultName
  }

  // ------------------------------------------------------------- chunking

  /** Chunk `i` of the reply: the first word alone, every later word after one space. */
  function ChunkText(words: seq<string>, i: nat): string
    requires i < |words|
  {
    if i == 0 then words[0] else " " + words[i]
  }

  /** The content frames, one per `" "`-separated field, then the terminal frame. */
  function FramesFor(reply: string, id: string, name: string): seq<Frame>
  {
    var words := Split(reply, ' ');
    seq(|words|, i requires 0 <= i < |words| => Content(ChunkText(words, i))) + [Done(id, name)]
  }

  /** Concatenation of the texts of the content frames. */
  function ContentText(frames: seq<Frame>): string
  {
    if frames == [] then ""
    else (if frames[0].Content? then frames[0].text else "") + ContentText(frames[1..])
  }

  // --------------------------------------------------------- serialisation

  const ContentKey := "data: {\"content\":"
  const ContentTail := ",\"done\":false}\n\n"
  const DoneKey := ",\"done\":true,\"companionId\":"
  const CompanionKey := ",\"companion\":"
  const EventEnd := "}\n\n"

  /** `data: ${JSON.stringify(frame)}\n\n`, keys in the order the source writes them. */
  function Encode(f: Frame): string
  {
    match f
    case Content(t) => EncodeContent(t)
    case Done(id, name) => ContentKey + Quote("") + DoneKey + Quote(id) + CompanionKey + Quote(name) + EventEnd
  }

  function EncodeContent(t: string): string
  {
    ContentKey + Quote(t) + ContentTail
  }

  function EncodeAll(frames: seq<Frame>): (r: seq<string>)
    ensures |r| == |frames|
    ensures forall k :: 0 <= k < |frames| ==> r[k] == Encode(frames[k])
  {
    seq(|frames|, k requires 0 <= k < |frames| => Encode(frames[k]))
  }

  /** Reads one serialised event back into a frame. */
  function Decode(e: string): Option<Frame>
  {
    if !(ContentKey <= e) then None
    else match ParseString(e[|ContentKey|..])
      case None => None
      case Some((text, rest)) => DecodeAfterContent(text, rest)
  }

  /** What follows the `content` value: the end of a content event, or the terminal event's keys. */
  function DecodeAfterContent(text: string, rest: string): Option<Frame>
  {
    if rest == ContentTail then Some(Content(text))
    else if text != "" || !(DoneKey <= rest) then None
    else match ParseString(rest[|DoneKey|..])
      case None => None
      case Some((id, rest2)) => DecodeCompanion(id, rest2)
  }

  function DecodeCompanion(id: string, rest: string): Option<Frame>
  {
    if !(CompanionKey <= rest) then None
    else match ParseString(rest[|CompanionKey|..])
      case None => None
      case Some((name, rest2)) => if rest2 == EventEnd then Some(Done(id, name)) else None
  }

  // -------------------------------------------------------------- the route

  /**
   * The `start` callback of the ReadableStream: one event per word, then the
   * terminal event, enqueued in order.
   */
  method StreamReply(fullResponse: string, companionId: string, companionName: string)
    returns (events: seq<string>)
    ensures events == EncodeAll(FramesFor(fullResponse, companionId, companionName))
  {
    var words := Split(fullResponse, ' ');
    var contents := ContentEvents(words);
    events := contents + [Encode(Done(companionId, companionName))];
    FramesForShape(fullResponse, companionId, companionName);
    var frames := FramesFor(fullResponse, companionId, companionName);
    forall k | 0 <= k < |frames| ensures events[k] == Encode(frames[k]) {
      if k < |words| {
        ChunkEventsAt(words, |words|, k, EncodeContent);
        assert events[k] == contents[k];
      }
    }
    EncodeAllEqual(events, frames);
  }

  /** The events of the first `n` chunks, each written by `encode`, in order. */
  function ChunkEvents(words: seq<string>, n: nat, encode: string -> string): (r: seq<string>)
    requires n <= |words|
    ensures |r| == n
  {
    if n == 0 then [] else ChunkEvents(words, n - 1, encode) + [encode(ChunkText(words, n - 1))]
  }

  lemma {:induction false} ChunkEventsAt(words: seq<string>, n: nat, k: nat, encode: string -> string)
    requires k < n <= |words|
    ensures ChunkEvents(words, n, encode)[k] == encode(ChunkText(words, k))
  {
    if k < n - 1 {
      ChunkEventsAt(words, n - 1, k, encode);
    }
  }

  /** The loop over the words: one content event per word, in order. */
  method ContentEvents(words: seq<string>) returns (events: seq<string>)
    ensures events == ChunkEvents(words, |words|, EncodeContent)
  {
    events := [];
    var i := 0;
    while i < |words|
      invariant 0 <= i <= |words|
      invariant events == ChunkEvents(words, i, EncodeContent)
    {
      events := events + [EncodeContent(ChunkText(words, i))];
      i := i + 1;
    }
  }

  /**
   * `POST`: `body` is the parsed JSON (`None` when parsing threw), `backend`
   * the outcome of the forwarded call; `forwarded` is the body sent to the
   * back end, `None` when no call is made.
   */
  method Post(body: Option<StreamRequest>, backend: BackendAnswer)
    returns (resp: StreamResponse, forwarded: Option<BackendRequest>)
    ensures body.None? ==> resp == JsonError(500, "Failed to process chat request") && forwarded.None?
    ensures body.Some? && !(Truthy(body.value.companionId) && Truthy(body.value.message)) ==>
              resp == JsonError(400, "companionId and message are required") && forwarded.None?
    ensures body.Some? && Truthy(body.value.companionId) && Truthy(body.value.message) ==>
              forwarded == Some(Forward(body.value.companionId.value, body.value.message.value, body.value))
    ensures forwarded.Some? && !backend.Answer? ==> resp == JsonError(500, "Failed to process chat request")
    ensures forwarded.Some? && backend.Answer? ==>
              resp == EventStream(EncodeAll(FramesFor(ReplyText(backend.response),
                                                      forwarded.value.companionId,
                                                      CompanionName(backend.companion))))
    ensures resp.EventStream? ==> forwarded.Some?
  {
    if body.None? {
      return JsonError(500, "Failed to process chat request"), None;
    }
    var req := body.value;
    if !Truthy(req.companionId) || !Truthy(req.message) {
      return JsonError(400, "companionId and message are required"), None;
    }
    forwarded := Some(Forward(req.companionId.value, req.message.value, req));
    if !backend.Answer? {
      return JsonError(500, "Failed to process chat request"), forwarded;
    }
    var fullResponse := ReplyText(backend.response);
    var companionName := CompanionName(backend.companion);
    var events := StreamReply(fullResponse, req.companionId.value, companionName);
    resp := EventStream(events);
  }

  // ---------------------------------------------------------------- lemmas

  lemma FramesForShape(reply: string, id: string, name: string)
    ensures |FramesFor(reply, id, name)| == |Split(reply, ' ')| + 1
    ensures forall k :: 0 <= k < |Split(reply, ' ')| ==>
              FramesFor(reply, id, name)[k] == Content(ChunkText(Split(reply, ' '), k))
    ensures FramesFor(reply, id, name)[|Split(reply, ' ')|] == Done(id, name)
  {
  }

  lemma EncodeAllEqual(events: seq<string>, frames: seq<Frame>)
    requires |events| == |frames|
    requires forall k :: 0 <= k < |frames| ==> events[k] == Encode(frames[k])
    ensures events == EncodeAll(frames)
  {
  }

  lemma {:induction false} ContentTextAppend(a: seq<Frame>, b: seq<Frame>)
    ensures ContentText(a + b) == ContentText(a) + ContentText(b)
    decreases |a|
  {
    if a == [] {
      assert a + b == b;
    } else {
      assert (a + b)[1..] == a[1..] + b;
      ContentTextAppend(a[1..], b);
    }
  }

  /** The texts of the content frames of the words `words[..n]`, spliced with spaces. */
  lemma {:induction false} ChunksJoin(words: seq<string>, n: nat)
    requires 1 <= n <= |words|
    ensures ContentText(seq(n, i requires 0 <= i < n => Content(ChunkText(words, i))))
            == Join(words[..n], ' ')
    decreases n
  {
    var fs := seq(n, i requires 0 <= i < n => Content(ChunkText(words, i)));
    if n == 1 {
      assert fs == [Content(words[0])];
      assert ContentText(fs) == words[0] + ContentText([]);
      assert words[..1] == [words[0]];
    } else {
      var gs := seq(n - 1, i requires 0 <= i < n - 1 => Content(ChunkText(words, i)));
      assert fs == gs + [Content(" " + words[n - 1])];
      ContentTextAppend(gs, [Content(" " + words[n - 1])]);
      assert ContentText([Content(" " + words[n - 1])]) == " " + words[n - 1] + ContentText([]);
      ChunksJoin(words, n - 1);
      JoinSnoc(words[..n - 1], words[n - 1]);
      assert words[..n - 1] + [words[n - 1]] == words[..n];
    }
  }

  lemma {:induction false} JoinSnoc(parts: seq<string>, w: string)
    requires |parts| >= 1
    ensures Join(parts + [w], ' ') == Join(parts, ' ') + " " + w
    decreases |parts|
  {
    if |parts| == 1 {
      assert (parts + [w])[1..] == [w];
    } else {
      assert (parts + [w])[1..] == parts[1..] + [w];
      JoinSnoc(parts[1..], w);
    }
  }

  /** Concatenating the streamed chunks in order gives back the whole reply. */
  lemma ChunksReassemble(reply: string, id: string, name: string)
    ensures ContentText(FramesFor(reply, id, name)) == reply
  {
    var words := Split(reply, ' ');
    var fs := seq(|words|, i requires 0 <= i < |words| => Content(ChunkText(words, i)));
    ContentTextAppend(fs, [Done(id, name)]);
    assert ContentText([Done(id, name)]) == "" + ContentText([]);
    ChunksJoin(words, |words|);
    assert words[..|words|] == words;
    JoinSplit(reply, ' ');
  }

  /**
   * One content frame per `" "`-separated field (so one more than the number
   * of spaces, empty fields included), then exactly one terminal frame, last.
   */
  lemma FrameShape(reply: string, id: string, name: string)
    ensures |FramesFor(reply, id, name)| == CountChar(reply, ' ') + 2
    ensures forall k :: 0 <= k < |FramesFor(reply, id, name)| ==>
              (FramesFor(reply, id, name)[k].Done? <==> k == |FramesFor(reply, id, name)| - 1)
    ensures FramesFor(reply, id, name)[|FramesFor(reply, id, name)| - 1] == Done(id, name)
    ensures FramesFor(reply, id, name)[0] == Content(Split(reply, ' ')[0])
  {
    SplitLength(reply, ' ');
  }

  lemma Regroup3(a: string, b: string, c: string)
    ensures a + b + c == a + (b + c)
  {
  }

  lemma Regroup5(a: string, b: string, c: string, d: string, e: string)
    ensures a + b + c + d + e == a + (b + (c + d + e))
  {
  }

  lemma Regroup7(a: string, b: string, c: string, d: string, e: string, f: string, g: string)
    ensures a + b + c + d + e + f + g == a + b + (c + d + e + f + g)
  {
  }

  lemma PrefixDrop(a: string, b: string)
    ensures a <= a + b && (a + b)[|a|..] == b
  {
  }

  lemma DecodeCompanionEncode(id: string, name: string)
    ensures DecodeCompanion(id, CompanionKey + Quote(name) + EventEnd) == Some(Done(id, name))
  {
    PrefixDrop(CompanionKey, Quote(name) + EventEnd);
    Regroup3(CompanionKey, Quote(name), EventEnd);
    QuoteRoundTrip(name, EventEnd);
  }

  lemma DecodeAfterContentEncode(id: string, name: string)
    ensures DecodeAfterContent("", DoneKey + Quote(id) + CompanionKey + Quote(name) + EventEnd)
            == Some(Done(id, name))
  {
    var tail := CompanionKey + Quote(name) + EventEnd;
    var rest := DoneKey + Quote(id) + CompanionKey + Quote(name) + EventEnd;
    Regroup5(DoneKey, Quote(id), CompanionKey, Quote(name), EventEnd);
    assert rest != ContentTail by {
      assert rest[7] == DoneKey[7];
    }
    PrefixDrop(DoneKey, Quote(id) + tail);
    QuoteRoundTrip(id, tail);
    DecodeCompanionEncode(id, name);
  }

  /** After the `content` key and a string literal, decoding goes on with the rest. */
  lemma DecodeAfterKey(v: string, rest: string)
    ensures Decode(ContentKey + Quote(v) + rest) == DecodeAfterContent(v, rest)
  {
    Regroup3(ContentKey, Quote(v), rest);
    PrefixDrop(ContentKey, Quote(v) + rest);
    QuoteRoundTrip(v, rest);
  }

  lemma DecodeContentEvent(t: string)
    ensures Decode(ContentKey + Quote(t) + ContentTail) == Some(Content(t))
  {
    DecodeAfterKey(t, ContentTail);
  }

  lemma DecodeDoneEvent(id: string, name: string)
    ensures Decode(ContentKey + Quote("") + DoneKey + Quote(id) + CompanionKey + Quote(name) + EventEnd)
            == Some(Done(id, name))
  {
    var rest := DoneKey + Quote(id) + CompanionKey + Quote(name) + EventEnd;
    Regroup7(ContentKey, Quote(""), DoneKey, Quote(id), CompanionKey, Quote(name), EventEnd);
    DecodeAfterKey("", rest);
    DecodeAfterContentEncode(id, name);
  }

  /** Every event the route writes reads back as the frame it encodes. */
  lemma DecodeEncode(f: Frame)
    ensures Decode(Encode(f)) == Some(f)
  {
    match f
    case Content(t) => DecodeContentEvent(t);
    case Done(id, name) => DecodeDoneEvent(id, name);
  }

  /** A content event and the terminal event are never the same text. */
  lemma EncodingDistinguishes(f: Frame, g: Frame)
    requires Encode(f) == Encode(g)
    ensures f == g
  {
    DecodeEncode(f);
    DecodeEncode(g);
  }
}
