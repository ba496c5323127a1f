# Chat Worker with a think-tag filter, in Dafny

This project models the request handling of a Cloudflare Worker that
serves a chat front end and forwards chat requests to a hosted reasoning
model. Four parts are modelled:

- **Routing.** Paths outside `/api/` go to the static asset server.
  `/api/chat` accepts only POST. Every other `/api/` path gets 404.
- **Message assembly.** The system prompt goes in front of the client's
  messages. The model call then gets its fixed configuration: model id,
  1024 tokens, streaming on.
- **Stream filter.** Each chunk the model streams back is cleaned on its
  own by `stripThink`. Empty results are dropped.
- **`stripThink` itself.** It makes two global, case-insensitive regex
  replacements and then trims:
  - the first removes `<think>…</think>` regions, with lazy matching;
  - the second removes leftover `<think>` and `</think>` markers.

Modules:

| file | module | contents |
|---|---|---|
| `wrappers.dfy` | `Wrappers` | `Option` |
| `text.dfy` | `Text` | the shared text helpers, listed below the table |
| `strip_think.dfy` | `ThinkStrip` | the two replacements as scans, and `StripThink` |
| `chunk_filter.dfy` | `ChunkFilter` | the `transform` callback, the controller's queue, and the piping loop |
| `worker.dfy` | `Worker` | routing, the message list and its `unshift`, the chat handler, and `fetch` |

The shared text helpers in `Text` are:

- ASCII case folding
- case-insensitive literal matching
- the `trim` whitespace set and `Trim`
- the subsequence relation

The model follows the code. Where descriptions of the Worker suggest
otherwise, the code prevails:

- The filter keeps no state between chunks.
- Each chunk is trimmed separately.
- The system message is always added in front, even when the client
  already sent one.

Because of the first point, a think block split across chunks leaks:

- **Every marker lies whole inside one chunk.** Only the markers are
  removed, and the body is passed on. `ChunkFilter.SplitBlockLeaksBody`
  proves this for the chunks `[opener, body, closer, answer]`. The opener
  and closer may be in any case. `body` and `answer` must be non-empty,
  trimmed and free of `<`. The client then receives `[body, answer]`.
- **A marker is split across two chunks.** Neither chunk contains it,
  so it passes through in pieces. `ChunkFilter.SplitMarkerPassesThrough`
  proves that `["<thi", "nk>" + x + "</think>" + y]` reaches the client as
  `["<thi", trim("nk>" + x + y)]`, for any `x` and `y` without `<`. The
  opener is never removed, and `x` is delivered.

`ThinkStrip.RemovalCanFormMarker` proves that deleting one marker can form
a new one: `<thi<think>nk>` becomes `<think>`.

## Model

| member | source | states |
|---|---|---|
| Text.Fold | src/index.ts:34-35 | the `i` flag's folding of ASCII: upper-case letters map to their lower-case partner and every other character is left alone |
| Text.Trim | src/index.ts:36 | the result has no JavaScript whitespace at either end; that set, `Text.IsWhitespace`, is the ECMAScript WhiteSpace and LineTerminator code points |
| Text.TrimKeepsLeadingNonWhitespace | src/index.ts:36 | a text starting with a non-whitespace character trims to a non-empty text starting with that character |
| Text.TrimRemovesOnlyOuterWhitespace | src/index.ts:36 | `trim` returns a contiguous slice of its input, and everything cut off on either side is whitespace |
| Text.TrimFixedPoint | src/index.ts:36 | `trim` leaves a text unchanged exactly when it has no whitespace at either end |
| Text.TrimIsSubsequence | src/index.ts:36 | `trim` only deletes characters |
| ThinkStrip.FindClose | src/index.ts:34 | the first case-insensitive `</think>` at or after a position, or that there is none |
| ThinkStrip.RegionAt | src/index.ts:34 | a region matches at the front exactly when an opener is there and a closer follows it; the lazy match ends at the first such closer |
| ThinkStrip.RemoveRegions | src/index.ts:34 | the first replacement never makes the text longer |
| ThinkStrip.RemoveMarkers | src/index.ts:35 | the second replacement never makes the text longer |
| ThinkStrip.StripThink | src/index.ts:32-37 | the result is trimmed and no longer than the input |
| ThinkStrip.RemoveRegionsOnlyDeletes | src/index.ts:34 | the first replacement only deletes characters |
| ThinkStrip.RemoveMarkersOnlyDeletes | src/index.ts:35 | the second replacement only deletes characters |
| ThinkStrip.StripThinkOnlyDeletes | src/index.ts:32-37 | the output is a subsequence of the input: nothing is added or reordered |
| ThinkStrip.RemoveRegionsWithoutClose | src/index.ts:34 | text with no closer passes the first replacement unchanged |
| ThinkStrip.RemoveRegionsWithoutOpen | src/index.ts:34 | text with no opener passes the first replacement unchanged |
| ThinkStrip.RemoveMarkersWithoutMarkers | src/index.ts:35 | text with no marker passes the second replacement unchanged |
| ThinkStrip.StripThinkWithoutMarkers | src/index.ts:32-37 | text with no marker in any case comes out merely trimmed |
| ThinkStrip.RegionAtFront | src/index.ts:34 | an opener, a body without a closer, and a closer, at the front, form one region that ends right after that closer |
| ThinkStrip.RemoveRegionsKeepsPrefix | src/index.ts:34 | plain text in front of a `<` passes the first replacement unchanged, and the scan resumes at the `<` |
| ThinkStrip.RemoveRegionsSplice | src/index.ts:34 | a region after plain text is deleted with its contents, and the scan goes on behind it |
| ThinkStrip.RemoveMarkersKeepsPrefix | src/index.ts:35 | plain text in front of a `<` passes the second replacement unchanged |
| ThinkStrip.RemoveMarkersSplice | src/index.ts:35 | a marker of either kind, in any case, after plain text is deleted, and the scan goes on behind it |
| ThinkStrip.LoneOpenerHasNoCloser | src/index.ts:34 | an opener between plain texts leaves no closer for the first replacement to pair it with |
| ThinkStrip.LoneCloserHasNoOpener | src/index.ts:34 | a closer between plain texts leaves no opener in front of it |
| ThinkStrip.StripThinkRegion | src/index.ts:32-37 | a region between plain texts is removed, and the texts around it are joined and trimmed |
| ThinkStrip.StripThinkStrayMarker | src/index.ts:32-37 | an unpaired opener or closer between plain texts is removed alone, and the surrounding text is kept |
| ThinkStrip.LoneMarkerVanishes | src/index.ts:32-37 | a text that is one marker is cleaned to the empty string |
| ThinkStrip.PlainTrimmedKept | src/index.ts:32-37 | trimmed text without `<` comes out unchanged |
| ThinkStrip.UpperCaseMarkers | src/index.ts:34-35 | `<THINK>`, `<Think>`, `</THINK>` and `</Think>` are markers |
| ThinkStrip.TwoRegionsRemoved | src/index.ts:34 | both regions of `a<think>x</think>b<think>y</think>c` go, leaving `abc` trimmed |
| ThinkStrip.EmptyRegionRemoved | src/index.ts:34 | `a<think></think>b` becomes `ab` |
| ThinkStrip.UnterminatedOpenerKeepsText | src/index.ts:34-35 | in `<think>x` only the opener is removed, leaving `x` |
| ThinkStrip.StrayCloserRemoved | src/index.ts:35-36 | `hello </think> world` becomes `hello  world`, keeping both spaces |
| ThinkStrip.FirstCloserEndsRegion | src/index.ts:34-35 | the lazy body stops at the first closer, and a later closer is removed as a stray marker |
| ThinkStrip.OpenersDoNotNest | src/index.ts:34-35 | a second opener inside a region is part of its body, and the region ends at the first closer |
| ThinkStrip.FormingInputHasNoRegion | src/index.ts:34 | `<thi<think>nk>` contains no region |
| ThinkStrip.FormingInputJoinsMarker | src/index.ts:35 | deleting the inner marker of `<thi<think>nk>` joins the rest into `<think>` |
| ThinkStrip.RemovalCanFormMarker | src/index.ts:32-37 | `stripThink` can return a marker: `<thi<think>nk>` gives `<think>` |
| ChunkFilter.Emitted | src/index.ts:96-103 | one chunk yields its cleaned text when that is non-empty, and nothing otherwise |
| ChunkFilter.Filtered | src/index.ts:95-106 | the output has at most one chunk per input chunk, each non-empty and trimmed |
| ChunkFilter.Cleaned | src/index.ts:98 | the i-th entry is the i-th chunk cleaned on its own |
| ChunkFilter.FilteredIsCleanedWithoutEmpty | src/index.ts:95-106 | the stream carries exactly the non-empty cleaned chunks, in input order |
| ChunkFilter.FilteredComesFromChunks | src/index.ts:96-103 | every emitted chunk is some input chunk cleaned, and arises from it by deleting characters |
| ChunkFilter.FilteredAppend | src/index.ts:95-106 | no state crosses chunks: filtering two runs back to back equals filtering each and concatenating |
| ChunkFilter.Controller.Enqueue | src/index.ts:101 | appends one chunk to the controller's queue |
| ChunkFilter.Transform | src/index.ts:96-103 | the queue grows by exactly what `Emitted` gives for the chunk |
| ChunkFilter.PipeThrough | src/index.ts:106 | calling `transform` once per chunk, in order, yields `Filtered` of the chunks |
| ChunkFilter.FilteredSingle | src/index.ts:96-103 | a one-chunk stream yields what `transform` enqueues for it |
| ChunkFilter.SplitBlockLeaksBody | src/index.ts:95-106 | an opener and a closer in any case, each in a chunk of its own, vanish; a non-empty, trimmed, `<`-free body between them reaches the client, followed by the answer |
| ChunkFilter.SplitMarkerPassesThrough | src/index.ts:95-106 | an opener split across two chunks as `<thi` and `nk>` is not removed: the first chunk passes unchanged, and the second loses only its closer |
| Worker.RouteFor | src/index.ts:46-62 | with `Worker.StartsWith` as `startsWith`: assets get exactly the paths outside `/api/`; 405 exactly for non-POST `/api/chat`; the handler exactly for POST `/api/chat`; 404 for every other `/api/` path |
| Worker.RouteEdges | src/index.ts:49-55 | `/`, `/api` and `/API/chat` go to assets; `/api/` and `/api/chat/` get 404; method `post` gets 405 |
| Worker.Outgoing | src/index.ts:73-79 | the system message comes first, followed by all the client's messages (`Worker.ClientMessages`, which is `body.messages ?? []`), unchanged and in order |
| Worker.MessageList.Unshift | src/index.ts:76-79 | puts the message in front of the list and returns the new length |
| Worker.AssembleMessages | src/index.ts:73-79 | the list after `unshift` is `Outgoing` of the body |
| Worker.SystemMessageAlwaysAdded | src/index.ts:73-79 | the outgoing list has exactly one more system message than the client sent; an existing one is neither replaced nor merged |
| Worker.MissingMessagesSendsOnlySystem | src/index.ts:73 | when `messages` is missing, only the system message is sent |
| Worker.ChatCall | src/index.ts:82-89 | the call names the fixed model, 1024 tokens and streaming, together with the outgoing messages |
| Worker.ChatReply | src/index.ts:71-125 | a stream reply exactly when the body parsed and the model call succeeded, carrying the filtered chunks and the three stream headers; otherwise the JSON 500 reply |
| Worker.Reply | src/index.ts:46-62 | the response for each route: the asset server's answer to that request, 405 "Method Not Allowed", 404 "Not Found", or the chat reply |
| Worker.OnlyChatConsultsModel | src/index.ts:49-62 | only a POST to `/api/chat` reads the body or calls the model: any other request gets the same reply whatever those would give |
| Worker.StreamedChunksAreClean | src/index.ts:54-106 | a stream reply comes only from a POST to `/api/chat` whose body parsed and whose model call succeeded; it has no more chunks than the model streamed, and each chunk is non-empty, trimmed, and a model chunk cleaned with characters only deleted |
| Worker.HandleChat | src/index.ts:67-126 | computes `ChatReply` by the source's steps: assemble, call, pipe |
| Worker.Fetch | src/index.ts:41-63 | computes `Reply` |

## Left out

- `env.AI.run` is a foreign call. It is a function parameter from the call to the chunks it streams back, or `None` when it rejects.
- Errors raised by the upstream stream after the response has started are not modelled.
- `env.ASSETS.fetch` is a foreign call. Its answer is the opaque `Asset(request)` response, which is distinct for each request.
- `request.json()` parsing is not modelled. The handler gets its outcome as an `Option`. `None` covers three cases, which all reach the same `catch` branch:
  - invalid JSON;
  - a body whose `messages` cannot be read;
  - a `messages` value that is not an array.
- URL parsing is not modelled. The request is modelled by its path name and method.
- `console.error` is left out because it is output only.
- `TextEncoder` and `TextDecoder` are left out. Chunks are taken as already-decoded text. Multi-byte characters split across chunks are not modelled.
- SSE framing is not modelled. Chunks are passed on as the model streams them.
- Stream and `Response` plumbing is not modelled, and neither are asynchrony or back-pressure. A streamed reply is status 200 with its headers and the sequence of chunks it delivers.
- The runtime's default `content-type` on the 404 and 405 replies is not modelled.
- The wording of `SYSTEM_PROMPT` is an unspecified constant. Nothing here depends on it.
- Text is a sequence of Dafny characters, not UTF-16 code units. Case folding covers ASCII only. This is exact for the ASCII markers under a non-Unicode `i` flag, because no non-ASCII character folds to an ASCII one.
- The `trim` whitespace set is written out explicitly: the ECMAScript WhiteSpace and LineTerminator code points.
- No think block split over chunks is removed, and none is claimed to be. The filter is per chunk by design, so leak-freedom does not hold: see `ChunkFilter.SplitBlockLeaksBody`.
- Idempotence of `stripThink` does not hold (see `ThinkStrip.RemovalCanFormMarker`), and is not claimed.
- Invariance of the output under re-chunking does not hold, and is not claimed.
