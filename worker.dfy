/** The Worker entry point of src/index.ts: route dispatch (`fetch`,
    src/index.ts:40-64) and the chat handler (`handleChatRequest`,
    src/index.ts:67-126). The two collaborators the Worker calls are not
    part of this model: the asset server's answer to a request is the
    opaque `Asset(request)` response, and the model runtime `env.AI.run` is a function parameter
    from the call to the chunks it streams back, `None` when the call
    fails. */
module Worker {
  import opened Wrappers
  import opened Text
  import opened ChunkFilter

  /** The model every chat request is sent to. */
  const MODEL_ID: string := "@cf/deepseek-ai/deepseek-r1-distill-qwen-32b"

  /** The system prompt; its wording does not matter to this model. */
  const SYSTEM_PROMPT: string

  /** The token budget of every call. */
  const MAX_TOKENS: nat := 1024

  /** The body of the 500 response, `JSON.stringify({ error: "Failed to process request" })`. */
  const ERROR_BODY: string := "{\"error\":\"Failed to process request\"}"

  datatype Header = Header(name: string, value: string)

  /** Headers of the streamed reply. */
  const STREAM_HEADERS: seq<Header> :=
    [ Header("content-type", "text/event-stream; charset=utf-8"),
      Header("cache-control", "no-cache"),
      Header("connection", "keep-alive") ]

  /** Headers of the error reply. */
  const ERROR_HEADERS: seq<Header> := [Header("content-type", "application/json")]

  /** The parts of a request the Worker looks at: the URL's path name and
      the method. */
  datatype Request = Request(path: string, verb: string)

  /** A chat message, `{ role, content }`. */
  datatype Message = Message(role: string, content: string)

  /** The parsed body `{ messages?: ChatMessage[] }`; `None` stands for a
      missing (or null) `messages` field. */
  datatype ChatBody = ChatBody(messages: Option<seq<Message>>)

  /** What one `env.AI.run(MODEL_ID, { messages, max_tokens, stream })` is called with. */
  datatype AiCall = AiCall(model: string, messages: seq<Message>, maxTokens: nat, stream: bool)

  datatype Response =
    | Asset(request: Request)                                // whatever `env.ASSETS.fetch(request)` answers
    | Plain(status: nat, text: string)                       // `new Response(text, { status })`
    | Json(status: nat, headers: seq<Header>, text: string)
    | Stream(status: nat, headers: seq<Header>, chunks: seq<string>)

  /** The reply of the `catch` branch. */
  const FAILED: Response := Json(500, ERROR_HEADERS, ERROR_BODY)

  // ---------------------------------------------------------------------
  // Routing

  datatype Route = ToAssets | MethodNotAllowed | ToChat | NotFound

  predicate StartsWith(s: string, prefix: string)
  {
    |prefix| <= |s| && s[..|prefix|] == prefix
  }

  /** Which branch of `fetch` a request takes. The test `pathname === "/"`
      adds nothing to `!pathname.startsWith("/api/")`, so every path outside
      `/api/` and only those go to the assets; under `/api/` only the exact
      path `/api/chat` is served, and only to POST. */
  function RouteFor(request: Request): (r: Route)
    ensures r == ToAssets <==> !StartsWith(request.path, "/api/")
    ensures r == MethodNotAllowed <==> request.path == "/api/chat" && request.verb != "POST"
    ensures r == ToChat <==> request.path == "/api/chat" && request.verb == "POST"
    ensures r == NotFound <==> StartsWith(request.path, "/api/") && request.path != "/api/chat"
  {
    if request.path == "/" || !StartsWith(request.path, "/api/") then ToAssets
    else if request.path == "/api/chat" then
      if request.verb != "POST" then MethodNotAllowed else ToChat
    else NotFound
  }

  /** Paths and methods are compared exactly: no trailing-slash, prefix or
      case tolerance. */
  lemma RouteEdges(verb: string)
    ensures RouteFor(Request("/", verb)) == ToAssets
    ensures RouteFor(Request("/api", verb)) == ToAssets
    ensures RouteFor(Request("/API/chat", verb)) == ToAssets
    ensures RouteFor(Request("/api/", verb)) == NotFound
    ensures RouteFor(Request("/api/chat/", verb)) == NotFound
    ensures RouteFor(Request("/api/chat", "post")) == MethodNotAllowed
  {
    assert "/api"[..] == "/api";
  }

  // ---------------------------------------------------------------------
  // Message assembly

  function SystemMessage(): (m: Message)
  {
    Message("system", SYSTEM_PROMPT)
  }

  /** `body.messages ?? []`. */
  function ClientMessages(body: ChatBody): (ms: seq<Message>)
  {
    match body.messages
    case Some(ms) => ms
    case None => []
  }

  /** The messages sent upstream: the system message first, then the
      client's messages, all of them, unchanged and in their order. */
  function Outgoing(body: ChatBody): (r: seq<Message>)
    ensures |r| == |ClientMessages(body)| + 1
    ensures r[0] == SystemMessage()
    ensures r[1..] == ClientMessages(body)
  {
    [SystemMessage()] + ClientMessages(body)
  }

  /** The array of messages taken from the body; `unshift` changes it in place. */
  class MessageList {
    var items: seq<Message>

    constructor (items: seq<Message>)
      ensures this.items == items
    {
      this.items := items;
    }

    /** `Array.prototype.unshift` with one element: returns the new length. */
    method Unshift(m: Message) returns (length: nat)
      modifies this
      ensures items == [m] + old(items)
      ensures length == |items|
    {
      items := [m] + items;
      length := |items|;
    }
  }

  /** src/index.ts:73-79. */
  method AssembleMessages(body: ChatBody) returns (messages: seq<Message>)
    ensures messages == Outgoing(body)
  {
    var list := new MessageList(ClientMessages(body));
    var length := list.Unshift(SystemMessage());
    messages := list.items;
  }

  /** Counts the messages with the system role. */
  function SystemCount(ms: seq<Message>): (n: nat)
  {
    if ms == [] then 0
    else (if ms[0].role == "system" then 1 else 0) + SystemCount(ms[1..])
  }

  /** The system message is added whatever the client sent: one more system
      message than the client's, an existing one neither replaced nor merged. */
  lemma SystemMessageAlwaysAdded(body: ChatBody)
    ensures SystemCount(Outgoing(body)) == SystemCount(ClientMessages(body)) + 1
  {
    var r := Outgoing(body);
    assert r[1..] == ClientMessages(body);
  }

  /** Without a `messages` field only the system message is sent. */
  lemma MissingMessagesSendsOnlySystem(body: ChatBody)
    requires body.messages.None?
    ensures Outgoing(body) == [SystemMessage()]
  {
  }

  /** The call `handleChatRequest` makes upstream. */
  function ChatCall(body: ChatBody): (call: AiCall)
    ensures call.model == MODEL_ID && call.maxTokens == 1024 && call.stream
    ensures call.messages == Outgoing(body)
  {
    AiCall(MODEL_ID, Outgoing(body), MAX_TOKENS, true)
  }

  // ---------------------------------------------------------------------
  // Replies

  /** What `handleChatRequest` answers; `upstream` stands for `env.AI.run`.
      `parsed` is what `request.json()` and `body.messages ?? []` come to:
      `Some(ChatBody(Some(ms)))` for an object whose `messages` is an array,
      `Some(ChatBody(None))` for any other non-null JSON value whose
      `messages` is missing or null (a primitive such as `42` and an array
      included), and `None` whenever the `try` block throws before the model
      is called: invalid JSON, a `null` body, or a `messages` value that has
      no `unshift`. */
  function ChatReply(parsed: Option<ChatBody>, upstream: AiCall -> Option<seq<string>>): (r: Response)
    ensures r.Stream? <==> parsed.Some? && upstream(ChatCall(parsed.value)).Some?
    ensures r.Stream? ==>
              && r.status == 200 && r.headers == STREAM_HEADERS
              && r.chunks == Filtered(upstream(ChatCall(parsed.value)).value)
    ensures !r.Stream? ==> r == FAILED
  {
    match parsed
    case None => FAILED
    case Some(body) =>
      match upstream(ChatCall(body))
      case None => FAILED
      case Some(chunks) => Stream(200, STREAM_HEADERS, Filtered(chunks))
  }

  /** What `fetch` answers. */
  function Reply(request: Request, parsed: Option<ChatBody>, upstream: AiCall -> Option<seq<string>>): (r: Response)
    ensures RouteFor(request) == ToAssets ==> r == Asset(request)
    ensures RouteFor(request) == MethodNotAllowed ==> r == Plain(405, "Method Not Allowed")
    ensures RouteFor(request) == NotFound ==> r == Plain(404, "Not Found")
    ensures RouteFor(request) == ToChat ==> r == ChatReply(parsed, upstream)
  {
    match RouteFor(request)
    case ToAssets => Asset(request)
    case MethodNotAllowed => Plain(405, "Method Not Allowed")
    case NotFound => Plain(404, "Not Found")
    case ToChat => ChatReply(parsed, upstream)
  }

  /** Only a POST to `/api/chat` reads the body or reaches the model: for
      every other request the reply is the same whatever the body and the
      model would give. */
  lemma OnlyChatConsultsModel(request: Request, p1: Option<ChatBody>, p2: Option<ChatBody>,
                              u1: AiCall -> Option<seq<string>>, u2: AiCall -> Option<seq<string>>)
    requires request.path != "/api/chat" || request.verb != "POST"
    ensures Reply(request, p1, u1) == Reply(request, p2, u2)
  {
  }

  /** A streamed reply answers only a POST to `/api/chat`; it carries no
      more chunks than the model streamed, and each of its chunks is
      non-empty, trimmed, and obtained by deleting characters from one of
      the model's chunks. */
  lemma StreamedChunksAreClean(request: Request, parsed: Option<ChatBody>, upstream: AiCall -> Option<seq<string>>)
    requires Reply(request, parsed, upstream).Stream?
    ensures request.path == "/api/chat" && request.verb == "POST"
    ensures parsed.Some? && upstream(ChatCall(parsed.value)).Some?
    ensures |Reply(request, parsed, upstream).chunks| <= |upstream(ChatCall(parsed.value)).value|
    ensures forall k :: 0 <= k < |Reply(request, parsed, upstream).chunks| ==>
              && Reply(request, parsed, upstream).chunks[k] != []
              && Trimmed(Reply(request, parsed, upstream).chunks[k])
              && FromSomeChunk(Reply(request, parsed, upstream).chunks[k], upstream(ChatCall(parsed.value)).value)
  {
    FilteredComesFromChunks(upstream(ChatCall(parsed.value)).value);
  }

  /** `handleChatRequest` (src/index.ts:67-126). */
  method HandleChat(parsed: Option<ChatBody>, upstream: AiCall -> Option<seq<string>>) returns (response: Response)
    ensures response == ChatReply(parsed, upstream)
  {
    if parsed.None? {
      return FAILED;
    }
    var messages := AssembleMessages(parsed.value);
    var call := AiCall(MODEL_ID, messages, MAX_TOKENS, true);
    match upstream(call)
    case None =>
      response := FAILED;
    case Some(chunks) =>
      var out := PipeThrough(chunks);
      response := Stream(200, STREAM_HEADERS, out);
  }

  /** `fetch` (src/index.ts:41-63). */
  method Fetch(request: Request, parsed: Option<ChatBody>, upstream: AiCall -> Option<seq<string>>) returns (response: Response)
    ensures response == Reply(request, parsed, upstream)
  {
    var route := RouteFor(request);
    match route
    case ToAssets =>
      response := Asset(request);
    case MethodNotAllowed =>
      response := Plain(405, "Method Not Allowed");
    case NotFound =>
      response := Plain(404, "Not Found");
    case ToChat =>
      response := HandleChat(parsed, upstream);
  }
}
