# Verified model of the SmartMet Server connection handling

The server answers HTTP requests over persistent connections. One `AsyncConnection` object reads octets in whatever
pieces they arrive, parses one request at a time, keeps what is left over for the next one, negotiates persistence in
the client's own protocol version, and answers through one of five paths: a stock reply, a buffered reply, a stream of
known length, a chunked stream, or a backend's response handed through. About twenty handlers share its fields, so one
wrong reset or one miscounted octet makes the client read the next response from the wrong place.

This project models that object, handler by handler, and proves what it is for over every run: any handlers, any cut of
the input into reads, any partial writes and write failures, timers that fire at any time, and a shutdown at any moment.
Around it stand four smaller cores: the chunked coding, the scanners of raw header sections and header lists, the
protocols of the server (timer lock, connection cap, `run()` racing `shutdown()`), and the sliding-window limiter.

| file | contents |
|---|---|
| Text, Wrappers | searching, trimming and options |
| HeaderTokens | comma separated header values, hop-by-hop fields, version negotiation |
| RequestHead | the scanner of a request head in the receive buffer |
| ChunkedCodec | chunked transfer coding, both directions (section 7.1 of RFC 9112) |
| Messages, RequestStream | requests, responses and the wire; the parser as the server relies on it |
| Replies | what one request is answered with, as a function of the request and of what its handler left |
| ClientDecoder | a client that reads responses off a connection (section 6.3 of RFC 9112) |
| ConnectionModel | the state of a connection and one function per handler |
| ConnectionInvariants | what every step keeps |
| ConnectionHistory | what no step takes back |
| ConnectionSteps | what a step does, and what it cannot do |
| ConnectionRuns | runs, and what every run keeps: requests, budget, shutdown |
| ConnectionTheorems | what a client reads over every run, refinement of fresh connections, what replies announce |
| ConnectionEnds | exactly when the connection is kept at the end of a reply |
| ConnectionClosing | the replies that end a connection before its handler is called, and the interim reply |
| ConnectionRequests | what becomes of a parsed request: persistence, its pool or its refusal, what its handler is given |
| ConnectionAnswers | what the client is sent, from what the handler left, and when the connection is kept after it |
| ConnectionLimits | the limit on header sections: exactly when a stream can be refused |
| ConnectionFindings | what turned out not to hold, with runs that come to it |
| AsyncConnection | the class: the source's fields, updated in place; each handler keeps the invariant and its promise |
| TimerProtocol, ConnectionCap, ServerLifecycle | interleaved steps of the timer lock, the accept path and the shutdown |
| EventLimiter | the limiter, over an array shifted in place |

`dafny verify dfyconfig.toml` checks all of it.

## How the connection is modelled

`AsyncConnection.Connection` has the fields of `Connection.h` and `AsyncConnection.h`. Every method ensures that the
state after it is a function of the state before it; a handler, which the outside calls for something outstanding,
requires the invariant, restores it, and says what its call comes to on the wire. What the outside
decides is an argument of the step (`Env`, `Input`): the shutdown flag at each of the up to three places where it is
read, the outcome of every write, what the pools, the handler and the streamer answer. A `Trace` records what is
outstanding (a multiset of continuations, and the timer waits not handled yet) and what happened: everything written,
read, parsed and exchanged.

Each handler is one atomic step, except in `TimerProtocol`, which interleaves at the lock. The wire is a sequence of
header sections, one item each, and octets. Assumed of the environment: a completed read hands over what arrived; a
write delivers a positive number of items or fails; a write on a closed socket, or on one that failed before, delivers
nothing; a wait is aborted only by a later arming or cancel. Assumed of the parser (`RequestStream.Reliable`): a request
it completes takes at least one octet and no more than there are, and a verdict other than "incomplete" stays when more
octets arrive. Assumed of a handler that refuses a request: it leaves the response alone. The decoding theorems speak of
replies that are `ClientDecoder.Sound`: a final status, no body under a status that has none, no framing fields of the
handler's own, and neither of the first two findings below. That condition is exact: a client can read the sound replies
and no others (`ClientDecoder.SoundExactly`). What is said about announced persistence supposes that a chunked response
carries HTTP/1.1 (`Replies.ChunksKnown`).

## What turned out not to hold

- A stock reply writes its body also in answer to HEAD (source/AsyncConnection.cpp:1893-1911), although
  docs/HTTP-Client-Guide.md:348 promises no body for any resource. The client finds the next reply exactly when the
  stock body is empty (`ClientDecoder.StockReplyToHead`); `ConnectionFindings.HeadToNobody` is the run.
- A buffered response without a status becomes a 501 whose Content-Length is that of the content it replaces
  (source/AsyncConnection.cpp:1685-1705). It is read right exactly when the two lengths agree
  (`ClientDecoder.UnsetStatusReply`). `ConnectionFindings.UnsetStatusIsSent` is the run,
  `ConnectionFindings.UnsetStatusMisleads` one with a content of one octet.
- `sendSimpleReply` looks only at the second of its two writes. When the header section cannot be written, the
  connection is kept all the same exactly when the body is empty, as in the reply to `OPTIONS *`
  (`ConnectionSteps.LostHeaderSection`); `ConnectionFindings.OptionsLosesHeader` is the run. What the client has then
  read is right as far as it goes (`ConnectionTheorems.DecodesUpToFailure`).
- The limit on header sections is looked at only between two reads, so whether a section above it is refused depends on
  how the stream was cut (`ConnectionFindings.CutDecides`). Some cut of a stream is refused exactly when a prefix of it
  leaves a section that is too large and has no end yet (`ConnectionLimits.RefusedExactly`). Whatever the cut, what is
  parsed is a prefix of what the stream holds (`ConnectionRuns.SegmentationIndependence`).
- A reply can announce that the connection persists and be the last one all the same. When such a reply comes to its end
  on a socket that works, whatever kind of reply it is, the connection is kept if and only if the server is not seen to
  shut down then and a stream of announced length delivered that length (`ConnectionEnds.AnnouncedMeansKept`, and
  `ConnectionEnds.KeptExactly` for what did not announce it). Both causes happen on a concrete server:
  `ConnectionFindings.ShutdownCutsIn` and, with no shutdown anywhere, `ConnectionFindings.StreamFallsShort`. A stream that
  is broken off before its end, by its streamer, a failed write or a full queue, may have announced persistence too, and
  the connection is never kept after it (`ConnectionEnds.LastStaysLast`). A request negotiated after the shutdown began is told
  so (`ConnectionTheorems.ShutdownIsAnnounced`).
- At the granularity of the lock an idle expiry can report a 408 to a client that has just begun to send
  (`TimerProtocol.IdleExpiryCanReport`); an expiry is silent exactly when the last change of the idle flag was to idle
  (`TimerProtocol.SilentIffLastWentIdle`).
- What HEAD announces is not always what GET would (section 9.3.2 of RFC 9110): a buffered response that is marked as
  chunked loses its Content-Length after HEAD only (source/AsyncConnection.cpp:1679-1685), and a stream of known length
  under a status without a body keeps it after GET only. In all other cases the two agree
  (`ClientDecoder.HeadAnnouncesGet`).
- When the wait of `shutdown()` gives up instead of draining, a completion handler can use a destroyed executor
  (`ServerLifecycle.TouchAfterTimeout`): once a teardown has begun, exactly when one is running
  (`ServerLifecycle.TouchPossibleIff`).

## Model

| member | source | states |
|---|---|---|
| ConnectionRuns.EveryRun | source/AsyncConnection.cpp:214-2012 | In every run at most one of handshake, read, posted read, pool task and write is outstanding, and the state satisfies the invariant its handler relies on |
| ConnectionRuns.NothingTakenBack | source/AsyncConnection.cpp:144-2012 | Between any two states of a run what was written, read, parsed and exchanged stays, and a closed socket stays closed and silent |
| ConnectionRuns.SegmentationIndependence | source/AsyncConnection.cpp:328-367 | However the input is cut into reads, the requests parsed are a prefix of those in the stream, all of them when more is awaited, and the buffer is exactly the unconsumed rest |
| ConnectionRuns.SameStreamSameRequests | source/AsyncConnection.cpp:338-357 | Two connections that received the same octets in different pieces and wait for more have parsed the same requests and hold the same rest |
| ConnectionRuns.ShutdownIsFinal | source/AsyncConnection.cpp:303-312 | With a flag that stays set, after the event in which it is seen no connection is kept and no request is parsed in any later state of any run |
| ConnectionRuns.ParsedUnderFlag | source/AsyncConnection.cpp:757-795 | A request that is parsed in the event in which the flag is set before its negotiation is not to be kept |
| ConnectionRuns.RequestBudget | source/AsyncConnection.cpp:770-771 | With a maximum set, no more requests than that are parsed on a connection, and after a reply no more than it announced |
| ConnectionTheorems.WholeConnectionDecodes | source/AsyncConnection.cpp:799-865 | Whenever a connection waits for input, a client that decodes everything written finds one final response per parsed request, in request order, each with the status the handler chose and the content it left as content coding made of it, or what its streamer delivered, and stands on a message boundary |
| ConnectionTheorems.DecodesUpToFailure | source/AsyncConnection.cpp:1893-1934 | When a write has failed and the connection still waits, the client finds the responses to the first requests, whole and in order, and waits for the next |
| ConnectionTheorems.LastReplyDecodes | source/AsyncConnection.cpp:1209-1358 | The reply after which the connection is not kept is found by the client too, complete and with nothing after it; a stream of announced length if and only if it delivered that length, and when it fell short the client sees that it is not complete |
| ConnectionTheorems.PartialReplyShows | source/AsyncConnection.cpp:1150-1591 | At any moment while a reply of any kind is under way, what was written of it so far is not a complete reply to the client: of a stream of announced length as long as that is not reached |
| ConnectionTheorems.FailedStreamShows | source/AsyncConnection.cpp:1426-1447 | A streamer that fails in the middle of a chunked body, or at its first look, leads to a closed connection on which the client sees that the reply is incomplete, also when its header section could not be sent |
| ConnectionTheorems.RefinesFreshConnection | source/AsyncConnection.cpp:810-831 | With handlers that are functions of the request, every reply on a connection, kept, under way or the last one, equals the reply of any other connection to that request, but for Date, Connection and Keep-Alive |
| ConnectionTheorems.ReplyIsOnWire | source/AsyncConnection.cpp:1268-1739 | What the wire holds after the replies before is a part of that reply while it is under way, and all of it in the end |
| ConnectionTheorems.KeptWasAnnounced | source/AsyncConnection.cpp:1766-1828 | After every exchange that kept the connection the client had been told, in its own version, that it persists |
| ConnectionTheorems.ShutdownIsAnnounced | source/AsyncConnection.cpp:1766-1828 | After the shutdown was seen by the negotiation, a reply announces persistence exactly when it is one that allows it, and then its request was negotiated before |
| ConnectionTheorems.ContinueOnlyWhenAsked | source/AsyncConnection.cpp:622-665 | In every state of every run a 100 Continue was sent to the request under way only if its raw head asks for it in a version from 1.1 up, and no interim head but that one stands behind the replies before, unless the reply being sent is one or is a response of a backend |
| ConnectionEnds.KeptExactly | source/AsyncConnection.cpp:799-865 | In every run, whenever a reply of any kind comes to its end on a socket that works, the exchange is recorded if and only if the reply lets the connection be reused, delivered what it announced, and the server is not seen to shut down; and reuse is what it told the client |
| ConnectionEnds.RepliesEnd | source/AsyncConnection.cpp:1268-1358 | In every run a reply comes to its end when its last piece has been written, and a stream of announced length when its streamer has nothing more to deliver |
| ConnectionEnds.AnnouncedMeansKept | source/AsyncConnection.cpp:1337-1349 | A reply that announced persistence keeps the connection exactly on a server that is not seen to shut down, and as a stream of announced length exactly when it delivered that length |
| ConnectionEnds.LastStaysLast | source/AsyncConnection.cpp:803-808 | After a request that is served no further, its reply ended or broken off, no connection is kept and no request parsed in any later state of the run |
| ConnectionClosing.UnparsedEvents | source/AsyncConnection.cpp:303-378 | In every run, an event that completes no request keeps nothing and either leads to exactly one reply, of the status that says why (shutdown, 400, 408, 413, 417, 431), and to the close, or sends nothing but the interim reply when that is due |
| ConnectionClosing.ClosingReplyDecodes | source/AsyncConnection.cpp:1875-1934 | A client that is owed a reply when the connection is closed on it reads that reply after all earlier ones, whole and with nothing behind it, in every later state; after HEAD the octets of its body stay behind |
| ConnectionClosing.ContinueExactly | source/AsyncConnection.cpp:622-680 | In every run, on a socket that works: when a head becomes complete before its request, the wire grows by exactly one 100 Continue and more is awaited if and only if an element of Expect is 100-continue and the version is 1.1 or later; another expectation is refused with 417; and no other octets are answered |
| ConnectionRequests.RequestGoes | source/AsyncConnection.cpp:386-560 | In every run, a parsed request is negotiated as one after which the connection is kept exactly if its fields ask for it and settings, budget and flag allow it; it waits in exactly the pool it belongs to, or is answered 400 (no Host, then closed), 404, high load or 503, whole on a socket that works |
| ConnectionRequests.KeptWasGranted | source/AsyncConnection.cpp:757-795 | No connection is ever kept after a 1.1 request with an element close in Connection, after a 1.0 request that does not ask for it, with keep-alive disabled or the budget used up, or without a Host in 1.1 |
| ConnectionRequests.HandlerIsHanded | source/AsyncConnection.cpp:415-431 | The request for the handler has the content, resource and version of the parsed one, its method but GET for HEAD, the original method noted exactly then, and every field but those of the hop |
| ConnectionRequests.HandlerIsGiven | source/AsyncConnection.cpp:868-943 | In every run, what a handler is called on is the request last parsed, as a handler is to see it, and a response nobody has touched |
| ConnectionRequests.RefusalAnswers | source/AsyncConnection.cpp:939-946 | In every run, a request its handler refuses is answered 400, whole on a socket that works |
| ConnectionRequests.NobodyToAnswer | source/AsyncConnection.cpp:881-943 | In every run, a client that has left, as the connection or the handler finds, gets nothing, and nothing is outstanding any more |
| ConnectionAnswers.ContentArrives | source/AsyncConnection.cpp:1646-1705 | Whenever the connection waits, the client finds for each request answered with a buffered response the status the handler chose and exactly its content, as coded from the request the handler was given, and the content itself where coding leaves it alone |
| ConnectionAnswers.LastContentArrives | source/AsyncConnection.cpp:1646-1705 | The same of the last reply of a connection, with nothing behind it |
| ConnectionAnswers.HeadsArrive | source/AsyncConnection.cpp:1672-1705 | The reply to each request stands on the wire behind the header section that follows from what its handler left: status, version, length, coding, persistence, date and the decorated and coded fields |
| ConnectionAnswers.LastHeadArrives | source/AsyncConnection.cpp:1672-1705 | The same of the reply that is under way, and of the last one |
| ConnectionAnswers.BufferedIsWhole | source/AsyncConnection.cpp:868-990 | What is being written after a buffered answer is that header section and the coded content |
| ConnectionAnswers.StreamIsBegun | source/AsyncConnection.cpp:1032-1149 | In every run, the first look at a streamer begins the write of what it delivered, framed as the response says behind its header section, asks again when there is nothing yet, and otherwise ends the reply or gives it its last chunk |
| ConnectionAnswers.StreamGoesOn | source/AsyncConnection.cpp:1936-2011 | In every run, after a piece that was written whole and after an empty one the streamer is asked for more by the pool of the request, or, when that takes no more tasks, the reply is broken off by a 503 and the connection closed |
| ConnectionAnswers.KeptIff | source/AsyncConnection.cpp:757-865 | In every run, a reply that ends on a socket that works keeps the connection if and only if that was negotiated, no element of Connection in the response is close, it is not in chunks for 1.0 nor handed through, a stream kept to its length, and no shutdown is seen |
| ConnectionLimits.RefusedIff | source/AsyncConnection.cpp:565-577 | Octets that complete no request are answered 431 if and only if the header section among them is too large |
| ConnectionLimits.RefusedMeansTooLarge | source/AsyncConnection.cpp:565-577 | In every run, a connection answered 431 was left, after the requests in what it received, with a header section that is too large and has no end |
| ConnectionLimits.RefusedExactly | source/AsyncConnection.cpp:565-577 | Wherever a connection waits in whatever run, some cut of the stream that then arrives is answered 431 if and only if some prefix of it leaves a header section that is too large and has no end yet |
| ConnectionFindings.CutDecides | source/AsyncConnection.cpp:565-583 | A parser, a limit and a stream that is served whole and answered 431 when it is cut |
| ConnectionFindings.HeadToNobody | source/AsyncConnection.cpp:1893-1911 | In every run, after HEAD of a resource nobody serves the connection is kept and the client is left in front of the octets of the 404 body |
| ConnectionFindings.OptionsLosesHeader | source/AsyncConnection.cpp:1893-1934 | In every run, when the header section of the reply to OPTIONS * cannot be written the exchange is recorded and the connection waits on |
| ConnectionFindings.UnsetStatusIsSent | source/AsyncConnection.cpp:1685-1715 | In every run, what is sent for a buffered response without a status is a 501 that is read right if and only if its body has the length of the content it replaces |
| ConnectionFindings.UnsetStatusMisleads | source/AsyncConnection.cpp:1685-1705 | A server, a handler and a request after which the client takes the first octet of the 501 body for all of it |
| ConnectionFindings.AnnouncedYetClosed | source/AsyncConnection.cpp:799-806 | In every run, when the last octet of a buffered reply that announced persistence is written, the connection is kept if and only if the shutdown is not seen |
| ConnectionFindings.StreamMiscounts | source/AsyncConnection.cpp:1337-1349 | In every run, a stream that ends before it delivered anything of the length it announced has announced persistence and is the last reply, with no shutdown anywhere |
| ConnectionFindings.ShutdownCutsIn | source/AsyncConnection.cpp:799-806 | A run of a concrete server whose first reply announces persistence and is the last one, because the shutdown is seen as its last octet is written |
| ConnectionFindings.StreamFallsShort | source/AsyncConnection.cpp:1337-1349 | A run without a shutdown whose first reply, a stream, announces persistence and is the last one |
| ConnectionFindings.BothHappen | source/AsyncConnection.cpp:1893-1934 | A server on which the findings about HEAD and OPTIONS happen to the first request |
| ConnectionHistory.StepGrows | source/AsyncConnection.cpp:214-2012 | No step takes back what was written, read, parsed or exchanged, writes to a closed socket or reopens it, takes anything in when it sees the shutdown, or then keeps a connection |
| ConnectionInvariants.StepKeeps | source/AsyncConnection.cpp:214-2012 | Whatever can happen next, with whatever outcome, leads from a state that satisfies the invariant to one that does |
| ConnectionInvariants.RecordKeeps | source/AsyncConnection.cpp:799-831 | The reset list is sufficient: after it every per-request field is as on a new connection and the wire is the transcript of the exchanges so far |
| ConnectionInvariants.FinishKeeps | source/AsyncConnection.cpp:799-865 | Leaving a response keeps the invariant when the reply, if the connection is to be kept, is wholly on the wire |
| ConnectionInvariants.ReadKeeps | source/AsyncConnection.cpp:303-378 | Reading keeps the invariant: whatever arrives, in whatever pieces, the buffer and the count agree and the requests parsed are those in the stream |
| ConnectionInvariants.TimerKeeps | source/AsyncConnection.cpp:178-212 | A firing, stale or not, keeps the invariant |
| ConnectionInvariants.CompletedKeeps | source/AsyncConnection.cpp:868-990 | Calling the handler and beginning its reply keeps the invariant on all five paths |
| ConnectionInvariants.ChunkKeeps | source/AsyncConnection.cpp:1268-1358 | Pulling the next chunk of a stream of known length, or of a backend's response, keeps the wire equal to the prologue, the head section sent once, and the chunks so far |
| ConnectionInvariants.ChunkedKeeps | source/AsyncConnection.cpp:1361-1479 | Pulling the next chunk of a chunked stream keeps the wire equal to the prologue, the head section and the framed chunks so far |
| ConnectionInvariants.WrittenKeeps | source/AsyncConnection.cpp:1150-1591 | Any partial write, or a failed one, keeps the invariant |
| ConnectionInvariants.StockCloses | source/AsyncConnection.cpp:1875-1934 | A stock reply on a connection that is not to be kept closes it, so that it can never reach the timer or the read again |
| ConnectionSteps.StockOnWire | source/AsyncConnection.cpp:1875-1934 | A stock reply on a connection that is not kept puts itself on the wire once, with the length of its own body and the word that the connection closes, all of it when the socket works |
| ConnectionSteps.ExpiryOnlyCloses | source/AsyncConnection.cpp:178-206 | An expiry closes the socket, without a word when idle and otherwise with one 408 behind what was written, never arms the timer again and leaves what is outstanding alone |
| ConnectionSteps.TimerLeavesReplies | source/AsyncConnection.cpp:868-879 | From the cancel before the handler to the next arming, no firing writes, closes or changes anything, however many are outstanding |
| ConnectionSteps.WaitIsBounded | source/AsyncConnection.cpp:833-843 | Every wait for a handshake, for input or for a thread has a live timer, set to the keep-alive time when idle and to the request time otherwise |
| ConnectionSteps.PartialWrite | source/AsyncConnection.cpp:1157-1181 | A partial write delivers the next items of the piece, no more and no fewer, and strictly shortens what is left to send |
| ConnectionSteps.StreamedBytesOnWire | source/AsyncConnection.cpp:1268-1330 | Between chunks the wire holds, after what came before, the header section once, or none for a backend's response, and then exactly the octets that were counted |
| ConnectionSteps.ChunkedBytesOnWire | source/AsyncConnection.cpp:1361-1419 | In a chunked reply the wire holds the head section once and the chunks in their framing, which with the terminator decode to what was produced, and the counter excludes the framing |
| ConnectionSteps.UnparsedNeverKept | source/AsyncConnection.cpp:343-367 | Input that completes no request leaves the connection waiting, with at most one 100 Continue sent, or ended: it is never kept by a reply |
| ConnectionSteps.QueuedWhere | source/AsyncConnection.cpp:433-556 | A request is queued exactly when somebody serves it, the server is not overloaded or the request is an administrator's, and the queue has room, and then in exactly one pool |
| ConnectionSteps.RefusedWith | source/AsyncConnection.cpp:442-556 | A request that is not queued is answered 404, high load or 503, by the reason |
| ConnectionSteps.LostHeaderSection | source/AsyncConnection.cpp:1893-1924 | When writing the header section fails, the connection is kept exactly if the body is empty |
| ConnectionSteps.BufferedStep | source/AsyncConnection.cpp:868-990 | When the handler answers with a buffered response, the reply to that request by that handler and nothing else is what is being written |
| Replies.SameReply | source/AsyncConnection.cpp:1742-1763 | A reply is determined by the request and the outcome but for the date and the announcement of persistence |
| Replies.ReuseIsAnnounced | source/AsyncConnection.cpp:1766-1828 | The reply tells a client, in its own version, that the connection persists exactly when the connection is to be reused (section 9.3 of RFC 9112) |
| Replies.AnnouncedBudget | source/AsyncConnection.cpp:1817-1827 | A kept HTTP/1.0 reply announces exactly the number of requests left, and the unsigned subtraction never wraps |
| Replies.NoChunksBeforeV11 | source/AsyncConnection.cpp:1785-1793 | A connection to an HTTP/1.0 client is never kept after a chunked response |
| Replies.HandlerSees | source/AsyncConnection.cpp:415-431 | A handler sees no hop-by-hop field and no client's claim about the original method, GET with a note of it for HEAD, and the method, resource, version, content and every other field untouched |
| ClientDecoder.TranscriptDecodes | source/AsyncConnection.cpp:799-865 | The transcript of any series of delivered replies decodes to one response each with the produced body, ending where the next begins |
| ClientDecoder.DecodeOfRender | source/AsyncConnection.cpp:1635-1739 | What is sent for one request, an interim reply included, decodes whatever follows to the handler's status, or 501, and to its content as it was coded, or what its streamer delivered |
| ClientDecoder.HeadIsProduced | source/AsyncConnection.cpp:1742-1828 | The header section that is sent is, field by field, the one that follows from the response the handler left |
| ClientDecoder.HeadAnnouncesGet | source/AsyncConnection.cpp:1664-1691 | The answer to HEAD announces the status that a GET would, and its length exactly when only a streamed response is marked as chunked and none is streamed with a length under a status without a body |
| ClientDecoder.CutReply | source/AsyncConnection.cpp:1361-1479 | No strict prefix of a reply decodes as a complete one, whatever its framing |
| ClientDecoder.PrefixDecodes | source/AsyncConnection.cpp:799-865 | From the beginning of a transcript a client reads the first responses, each whole and right, and then waits for the next |
| ClientDecoder.CountedDecodes | source/AsyncConnection.cpp:1337-1349 | Of a stream of announced length a client makes nothing while it fell short, itself when it kept to the length, and its beginning when there was more |
| ClientDecoder.SoundExactly | source/AsyncConnection.cpp:1635-1739 | Of the replies delivered as announced a client can read exactly the sound ones, whatever follows them: the condition on handlers and stock replies is exact |
| ClientDecoder.StockReplyToHead | source/AsyncConnection.cpp:1893-1911 | A stock reply to HEAD leaves the client at the next reply if and only if the stock body is empty |
| ClientDecoder.UnsetStatusReply | source/AsyncConnection.cpp:1685-1715 | The 501 sent for a response without a status is read right if and only if its body has the length of the content it replaces |
| AsyncConnection.Connection.constructor | include/AsyncConnection.h:482-509 | A new connection has the initial values of all fields and nothing outstanding |
| AsyncConnection.Connection.Start | source/AsyncConnection.cpp:235-284 | From the initial state: the request timer runs for the request time, the handshake or the read is outstanding, and the invariant holds |
| AsyncConnection.Connection.RejectConnection | source/AsyncConnection.cpp:739-755 | A connection over the limit gets one 503 that announces its length and the close, and is closed without a timer or anything outstanding |
| AsyncConnection.Connection.HandleHandshake | source/AsyncConnection.cpp:286-301 | The invariant is kept; a handshake leads to the first read, or closes the socket, without a word either way |
| AsyncConnection.Connection.HandleRead | source/AsyncConnection.cpp:303-378 | The invariant is kept, nothing is taken back and nothing kept unannounced; octets join the buffer, at most one request is parsed off its front, and the rest stays |
| AsyncConnection.Connection.HandleTimer | source/AsyncConnection.cpp:178-212 | The invariant is kept; a stale firing changes nothing but the waits, an idle expiry closes without a word, another one with one 408 behind what was written |
| AsyncConnection.Connection.HandleCompletedRead | source/AsyncConnection.cpp:868-990 | The invariant is kept; the handler gets the parsed request as a handler is to see it and an untouched response, a client that has left gets nothing, and of a buffered answer the header section that follows from it and its coded content are what is being written |
| AsyncConnection.Connection.RunChunkTask | source/AsyncConnection.cpp:1268-1358 | The invariant is kept; the next chunk goes out as it is behind a header section held back, and a stream after which the connection is kept delivered what it announced |
| AsyncConnection.Connection.RunChunkedTask | source/AsyncConnection.cpp:1361-1479 | The invariant is kept; a chunk goes out in its framing, the end as the last chunk, and a failure closes the socket and sends no end |
| AsyncConnection.Connection.WriteRegularReply | source/AsyncConnection.cpp:1538-1591 | The invariant is kept; the wire grows by exactly the items delivered, the whole reply stands there in the end, and a failed write ends the connection |
| AsyncConnection.Connection.WriteStreamReply | source/AsyncConnection.cpp:1482-1536 | The invariant is kept; the wire grows by exactly the items delivered, and a failed write ends the connection |
| AsyncConnection.Connection.WriteChunkedReply | source/AsyncConnection.cpp:1150-1206 | The invariant is kept; the wire grows by exactly the items delivered, and a failed write ends the connection |
| AsyncConnection.Connection.FinalizeChunkedReply | source/AsyncConnection.cpp:1209-1265 | The invariant is kept; the wire grows by exactly the items delivered, and the whole chunked reply stands there in the end |
| AsyncConnection.Connection.Handle | source/AsyncConnection.cpp:286-2012 | Every handler, called with something that is outstanding, makes the step of the model, restores the invariant, takes nothing back and keeps no connection unannounced |
| AsyncConnection.Connection.EvaluateKeepAlive | source/AsyncConnection.cpp:757-795 | The connection may persist if and only if keep-alive is enabled, the flag is not set, the budget is not used up, and no element of Connection is close (1.1), or an element of it, or of Proxy-Connection without it, is keep-alive (1.0), in whatever case |
| AsyncConnection.Connection.Decide | source/AsyncConnection.cpp:1766-1828 | The version of the reply, the veto of the response and the fields that announce persistence are those of the reference reply |
| AsyncConnection.Connection.HandleExpectContinue | source/AsyncConnection.cpp:622-680 | A head looked at for the first time that asks for it gets exactly one 100 Continue on a socket that works, and reading goes on; one that expects something else is refused; any other octets are met with silence and reading goes on |
| AsyncConnection.Connection.StripRequest | source/AsyncConnection.cpp:415-431 | The request becomes the one the handler is to see: same content, resource and version, GET for HEAD, and no field of the hop |
| ChunkedCodec.HexRoundTrip | source/Utility.cpp:63-73 | A length as it is printed in hexadecimal reads back as itself, is never empty, and begins with 0 only for 0 |
| ChunkedCodec.DecodeOfFramed | source/AsyncConnection.cpp:1371-1416 | Every streamer history, empty chunks included, decodes to the concatenation of its chunks, and no terminator comes before its end |
| ChunkedCodec.RoundTrip | source/AsyncConnection.cpp:1361-1471 | A terminated body decodes to exactly what was produced and ends exactly where it ends |
| ChunkedCodec.TruncationShows | source/AsyncConnection.cpp:1426-1447 | No strict prefix of a chunked body decodes as complete |
| ChunkedCodec.DecodeIsStable | source/AsyncConnection.cpp:1449-1451 | A complete or broken chunked body stays so whatever follows it |
| RequestHead.PeekRequestHead | source/Utility.cpp:231-280 | The index arithmetic reads what a reading line by line gives: the version on the request line and the first Expect field, trimmed |
| RequestHead.VersionOnLine | source/Utility.cpp:231-280 | The search for the version never runs past the first line break |
| RequestHead.HeadIsStable | source/Utility.cpp:231-280 | Once the header section is complete, octets that arrive later change nothing that was read from it |
| RequestHead.WrittenHeadIsRead | source/Utility.cpp:231-280 | Of any head that a client writes the scanner finds the version and the value of the first Expect field, whatever its case, the other fields and what follows |
| HeaderTokens.HasHeaderToken | source/Utility.cpp:172-201 | The loop finds the token if and only if it is one of the trimmed elements of the comma separated list, in any case |
| HeaderTokens.ElementsOfList | source/Utility.cpp:172-201 | The elements of a list are those of its parts, in order |
| HeaderTokens.TokenIsFound | source/Utility.cpp:172-201 | A token is found wherever it stands in a list, in whatever case and with whatever spaces and tabs around it |
| HeaderTokens.CollectElements | source/AsyncConnection.cpp:704-723 | The loop collects exactly the trimmed non-empty elements of the list |
| HeaderTokens.StripHopByHopHeaders | source/AsyncConnection.cpp:682-737 | No fixed hop-by-hop field and no field that Connection names is left, and every other field is untouched (section 7.6.1 of RFC 9110) |
| HeaderTokens.VersionOfNumbers | source/Utility.cpp:203-229 | A version of two numbers is answered as 1.1 exactly from 1.1 up |
| HeaderTokens.VersionExactly | source/Utility.cpp:203-229 | Nothing but a version of two numbers from 1.1 up is answered as 1.1 |
| Text.SameInAnyCase | source/Utility.cpp:188-189 | Two strings agree in lower case exactly when they differ at most in the case of ASCII letters |
| Text.TrimTakesPadding | source/Utility.cpp:184-188 | Trimming takes off the spaces and tabs at both ends and nothing else |
| RequestStream.ReadsAll | source/AsyncConnection.cpp:347-357 | When the parser waits for more, what was read one by one is what the whole stream holds |
| RequestStream.ReadsPrefix | source/AsyncConnection.cpp:347-357 | What was read one by one is a prefix of the requests in any continuation of the stream |
| TimerProtocol.FiringActsIff | source/AsyncConnection.cpp:168-190 | A firing acts exactly when its wait has not ended before and the arms and cancels since its own arming number a multiple of 2^64 |
| TimerProtocol.StaleFiringsAreIgnored | source/AsyncConnection.cpp:168-190 | Short of a wrap-around, a firing acts exactly when nothing armed or cancelled the timer after its own arming, in any interleaving at the lock |
| TimerProtocol.SilentWhileHandling | source/AsyncConnection.cpp:872-879 | From the cancel in the handler to the next arming no firing acts, however many are outstanding |
| TimerProtocol.ExpiryMeans | source/AsyncConnection.cpp:190-206 | With atomic handlers an idle connection expires silently, a late request gets a 408, and every other firing of the run is ignored: it happens once |
| TimerProtocol.OneExpiry | source/AsyncConnection.cpp:178-206 | With atomic handlers at most one firing of a run acts |
| TimerProtocol.ArmedBetween | source/AsyncConnection.cpp:168-190 | At the granularity of the lock, between two firings that act the timer was armed |
| TimerProtocol.IdleExpiryCanReport | source/AsyncConnection.cpp:318-325 | Between the change of the idle flag and the arming, an idle expiry is reported as a 408 |
| TimerProtocol.SilentIffLastWentIdle | source/AsyncConnection.cpp:192-206 | At the granularity of the lock an expiry is silent exactly when the last change of the idle flag, if there was one, was to idle |
| ConnectionCap.CapHolds | source/AsyncServer.cpp:205-239 | Over all interleavings with destructions the counter equals the number of live counted connections and never exceeds a limit that is set |
| ConnectionCap.NoUnderflow | source/Connection.cpp:61-70 | The destructor never takes the unsigned counter below zero |
| ConnectionCap.RefusedOnlyWhenFull | source/AsyncServer.cpp:212-236 | A connection is refused exactly when the server was full at the check |
| ConnectionCap.OneLineAnEpisode | source/AsyncServer.cpp:222-231 | Two log lines about the limit are always separated by an admitted connection |
| ServerLifecycle.EveryRun | source/AsyncServer.cpp:34-133 | The invariant of workers, wait, mutex, pools and log holds in every interleaving of run, workers and any number of shutdown calls |
| ServerLifecycle.PoolsAreStarted | source/AsyncServer.cpp:48-67 | Once run() has released the mutex, each pool was started exactly once, in the order admin, slow, fast, if and only if no shutdown was requested before its check; otherwise none was |
| ServerLifecycle.ShutdownIsComplete | source/AsyncServer.cpp:97-128 | Once a shutdown call has finished, every pool has been destroyed exactly once, in their order, and the reactor is down |
| ServerLifecycle.ShutdownCanFinish | source/AsyncServer.cpp:90-128 | Wherever a call waits and no worker runs, its next look ends the wait as drained, and it can take everything down alone |
| ServerLifecycle.NoStartAfterTeardown | source/AsyncServer.cpp:48-67 | No pool is started after, or while, pools are destroyed, also when shutdown comes first |
| ServerLifecycle.DestroyedOnce | source/AsyncServer.cpp:97-124 | Each pool is destroyed at most once, however often shutdown is called |
| ServerLifecycle.PoolsBeforeReactor | source/AsyncServer.cpp:120-127 | Every pool is destroyed before the reactor is shut down |
| ServerLifecycle.NoTouchAfterDrain | source/AsyncServer.cpp:90-95 | When the wait ended by draining, no completion handler uses an executor after the teardown began |
| ServerLifecycle.TouchPossibleIff | source/AsyncServer.cpp:90-120 | For any number of workers and any run, once a teardown has begun a completion handler can still use an executor if and only if one is running; after a drain none is |
| ServerLifecycle.TouchAfterTimeout | source/AsyncServer.cpp:94-95 | A run in which the wait gives up and a completion handler uses an executor that is destroyed |
| EventLimiter.MaxEventFreq.constructor | main/smartmetd.cpp:78-82 | A new limiter has accepted nothing |
| EventLimiter.MaxEventFreq.Check | main/smartmetd.cpp:84-105 | An event is refused exactly when as many accepted events as the array holds lie in the window that ends now; otherwise it joins the history; the array holds the latest events in order, and no window anywhere holds more of them than its size |
| EventLimiter.MaxEventFreq.DropFirst | main/smartmetd.cpp:95-100 | The shift in place leaves exactly the events that are retained, in order |
| EventLimiter.MaxEventFreq.FirstInside | main/smartmetd.cpp:90-93 | The search stops at the first event that is still in the window |
| EventLimiter.WindowHoldsAtMost | main/smartmetd.cpp:78-112 | A window of that length holds no more accepted events than the maximum, wherever it is put |

## Left out

- The accept path, the shutdown and the timer at its lock are changed by several threads, so they are modelled on values,
  as interleaved steps; that their fields are updated in place is not captured there.
- The text of header sections: a header section is one item of the wire, so a write that stops inside one shows as
  nothing written, and the serialisation and the client's parsing of it are not modelled.
- TLS, sockets, the io_context and the thread pools beyond the outcomes listed above.
- The request parser, content coding, entity-tags and the Cache-Control, Vary and Server fields: parameters of the
  settings, arbitrary functions of what the source gives them.
- The status of the library's reply to `OPTIONS *` is taken to be 204; the library is not part of this model.
- The client address: only whether it is known.
- Access logs, hooks, the request dump and every message that is logged, except the report of the connection limit.
- The cancellation token with its probe and its time limit, except that a request whose client has left is dropped.
- `notifyClientDisconnect`: nothing starts it, so the flag it would set never changes; its value is arbitrary here.
- The destructor closes the socket when nothing is outstanding; the order of destruction is modelled only for the counter.
- Exceptions that escape a handler's body: they are caught and logged, and leave the connection as it was.
- Numbers in fields, such as Content-Length, are numbers and not their decimal text.
- `unsigned long` conversions of version numbers with signs or leading blanks, which the server's own conversion may accept.
- AsyncConnection.Connection.HandleTimer: the stamp does not wrap around here; the wrap-around is in `TimerProtocol`.
- ConnectionTheorems.WholeConnectionDecodes: assumes that no write has failed; for connections on which one has and that
  still wait, see `ConnectionTheorems.DecodesUpToFailure`.
- ConnectionTheorems.ContinueOnlyWhenAsked: where interim heads stand on the wire is said up to a failed write or a
  timeout, and not after a request that was dropped or a reply that was broken off.
- ConnectionTheorems.LastReplyDecodes: of the replies to parsed requests, the sound ones that are not handed through; for
  those that end a connection before its handler is called see `ConnectionClosing.ClosingReplyDecodes`.
- ConnectionTheorems.PartialReplyShows: a backend's response that is handed through has framing of its own, which is not
  read here, and an unsound reply can be taken for a complete one.
- ConnectionEnds.KeptExactly: says nothing once a write has failed; the replies that are then still recorded are those of
  `ConnectionSteps.LostHeaderSection`.
- ConnectionInvariants.RecordKeeps: the flag that the hook about a backend was called, itsBackendNotified, which the
  source resets as well, is not a field here, because the hooks are left out.
- Configuration reading, signal handling and its watchdog, `main`, the admin and load-test tools.
