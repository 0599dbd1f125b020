# Verified models of the network library

Dafny models of six components of a C/C++ TCP, HTTP and WebSocket library, with proofs of what they are for:

| files | component |
|---|---|
| `HttpChars`, `HttpMachine`, `HttpInvariants`, `HttpCount`, `HttpRuns`, `HttpParser`, `HttpFeed`, `HttpGrammar`, `HttpRecognisers`, `HttpStreams` | the resumable HTTP/1.x parser, strict build |
| `HttpValues`, `HttpMessages`, `HttpContents`, `HttpPipelines`, `HttpRequests`, `HttpRefusals` | what the parser makes of messages as they are written |
| `HttpResponse` | the response printer, and its round trip through the parser |
| `HttpUrl`, `HttpUrlParts`, `HttpUrlGrammar` | the URL splitter, and the language it accepts |
| `Sha1`, `Sha1Answers` | streaming SHA-1 against FIPS PUB 180-1, and the examples of its appendix |
| `IdHeap`, `TimerManager`, `PriorityTimers` | the two timer managers, and the heap of ids |
| `TypePool`, `MultiPool` | the pooled allocators |
| `WebSocket` | WebSocket framing, sections 5.2 and 5.3 of RFC 6455 |
| `IoBuffer` | the linear I/O buffer |
| `Wrappers` | the option type shared by these |

`dafny verify dfyconfig.toml` checks everything.

**The parser.** `HttpMachine.Switch` is the body of the `switch` as a function of the parser's fields and one byte: it
says how the fields change and which callback, mark, advance or `goto reexecute` follows. `HttpMachine.Run` folds it
over a stream, delivering every byte of data at once, and `HttpCounting.Gauge` counts its header bytes. That is the
meaning against which the class `HttpParsing.HttpParser` is proved: its `Execute` keeps marks into the buffer, counts
header bytes in 32 bits, skips with `memchr`, advances over bodies in bulk, runs callbacks that may pause or refuse, and
returns how many bytes it consumed. Its contract says that, for every continuation of the stream, the machine does from
the old fields on the whole buffer what it does from the new fields on the bytes not consumed, that the count agrees,
that the parser stops for a callback only if its answer says so, and that even after a refusal or an overflow nothing was
reported that the machine does not report. Split invariance and pause transparency are one consequence, stated over whole
streams (`FeedBoth`). Traces are compared with adjacent data of one kind merged. Every invariant that the source asserts
is proved over every run, traces of every kind of parser are in a grammar that also counts body bytes, and the keyword
and number recognisers accept exactly what they should.

What the machine means is tied to text that does not mention its tables and states: `HttpContents.Message` is a request
or response as written, with header lines of every meaning and a body with a length, in chunks, or up to the end of the
stream, and `HttpPipelines.MessagesRun` says that from the text of any conversation the parser makes exactly its events,
ending ready for the next message, closed, waiting for the end of the stream, or handed over to another protocol. The
character tables are listed entry by entry. `HttpUrlGrammar.AcceptedUrls` gives the URLs that the splitter accepts as a
language.

**Where the code departs from what one would expect**, the model follows the code:

- The table `unhex` lists 128 of its 256 entries, so bytes from 128 on count as the hexadecimal digit zero
  (src/net/http/http_parser.c:224).
- The header limit depends on how the stream is cut: a call that ends inside a header name or value counts one byte too
  many, and a value that turns out to be a bad length is not compared with the limit. `HttpCounting.Gauge` is the exact
  count, `HttpFeeding.Feed` says that the limit is exceeded if and only if that count says so, and
  `HttpFeeding.CutsCount` gives, from a new parser, the requests that are fine in one call and too long in two. A call
  that is paused in the middle of a header byte counts it again when it is resumed; `HttpFeeding.Roomy` is a condition on
  the stream and its pieces alone under which no pauses lead to an overflow.
- The status OK prints as `200 OKUNKNOWN`, since its case falls through (src/net/http/HttpFormat.h:192-196).
- WebSocket frames of 2^31 bytes and more are built but not read back; `WebSocketFrames.RoundTrip` is an equivalence.
- The offsets of the URL splitter have 16 bits; `HttpUrl.SlashPath` shows where they stop being right. The port is read
  by `strtoul`, which does not stop at the end of the buffer; `HttpUrl.PortNumber` says when it reads the port.
- `ox_type_pool_claim` on a pool with no blocks per slab adds an empty slab on each call and returns nothing.
- The pool number stored in a block is a `char`, and so is the bound of the search by length.

## Model

| member | source | states |
|---|---|---|
| HttpMachine.SwitchShape | src/net/http/http_parser.c:80-141 | Every pass through the switch sets, keeps or flushes only the mark of the run that the state belongs to, so at most one mark is ever set, and states outside runs hold none. |
| HttpMachine.ReexecuteLowersRank | src/net/http/http_parser.c:66-67 | Every `goto reexecute` strictly lowers a rank of the state, so a byte is looked at finitely often, whatever the callbacks answer. |
| HttpMachine.RunConcat | src/net/http/http_parser.c:628-2097 | The byte-by-byte meaning of a stream is that of its first part continued on the rest: fields, trace, bytes left and halt. |
| HttpChars.AlphaNumTable | src/net/http/http_parser.c:412-415 | Letters, digits and hexadecimal digits, listed. |
| HttpChars.UserInfoTable | src/net/http/http_parser.c:416-421 | The bytes of user information, listed, in both directions. |
| HttpChars.HostTable | src/net/http/http_parser.c:429 | The bytes of host names, listed, in both directions. |
| HttpChars.UrlTable | src/net/http/http_parser.c:243-276 | The bits of the table of URL bytes, listed, in both directions. |
| HttpChars.TokenTable | src/net/http/http_parser.c:182-221 | The non-zero entries of the table of tokens, listed, in both directions. |
| HttpChars.TokenOfTable | src/net/http/http_parser.c:182-221 | What the entries are: the lower-case letter for an upper-case one, else the byte itself. |
| HttpChars.UnhexTable | src/net/http/http_parser.c:224-233 | The values of hexadecimal digits in either case, and what the table holds for all other bytes. |
| HttpInvariants.SwitchInv | src/net/http/http_parser.c:1435-1437 | One pass keeps the asserted invariants: legal header state per state, chunked flag in chunk states, lengths neither zero nor the sentinel in bodies. |
| HttpInvariants.ValueCharInv | src/net/http/http_parser.c:1531-1713 | The value recogniser keeps them too; in particular the length stays below the sentinel. |
| HttpInvariants.RunInv | src/net/http/http_parser.c:1893-2081 | Over every run: the invariants hold at its end, all input is consumed unless the run fails or switches protocol, it has switched protocol exactly when an upgraded message is complete, and a failure is a parse error. |
| HttpCounting.GaugeConcat | src/net/http/http_parser.c:154-161 | The header count of a stream is that of its first part continued on the rest: count, highest count, and highest count compared with the limit. |
| HttpCounting.PeakMost | src/net/http/http_parser.c:1441-1446 | What a call compares with the limit is at most one more than the header bytes. |
| HttpCounting.MostShift | src/net/http/http_parser.c:154-161 | A count that is off by some number stays off by at most that, until it restarts. |
| HttpCounting.LooksBound | src/net/http/http_parser.c:695-699 | No more header bytes are looked at for the first time than there are bytes, however often the count restarts. |
| HttpCounting.LooksShift | src/net/http/http_parser.c:695-699 | How many there are does not depend on the count, and on where a call begins only by the byte at which it begins. |
| HttpCounting.GaugeRun | src/net/http/http_parser.c:695-699 | The counter moves with the machine. |
| HttpCounting.HeaderStates | src/net/http/http_parser.c:281-360 | The states that count are those numbered up to the end of the headers in the order of the source, and three of them restart the count. |
| HttpCounting.CountRestarts | src/net/http/http_parser.c:1842-2056 | Over every run: in a body, in the data of a chunk and where the size of the next one begins, the count is zero. |
| HttpRuns.RunBelow | src/net/http/http_parser.c:628-2097 | What has been reported stays reported: every trace is a beginning of those of its continuations. |
| HttpRuns.GeneralGlide | src/net/http/http_parser.c:1555-1578 | In the general header state the skipped bytes leave all fields as they are, byte by byte. |
| HttpRuns.BodyGlide | src/net/http/http_parser.c:1888-1922 | Advancing over body bytes in bulk equals consuming them one by one. |
| HttpRuns.MeetsScan | src/net/http/http_parser.c:1710-1713 | Counting a name or value after scanning it equals counting its bytes one by one, and is compared with the limit no less. |
| HttpRuns.MeetsBulk | src/net/http/http_parser.c:1888-1922 | Body bytes do not count. |
| HttpRuns.FewerScan | src/net/http/http_parser.c:1710-1713 | Scanning a name or value looks at no more header bytes than single steps do. |
| HttpParsing.HttpParser.constructor | src/net/http/http_parser.c:2150-2159 | A new parser is at the start state of its kind and satisfies the invariant. |
| HttpParsing.HttpParser.SetPaused | src/net/http/http_parser.c:2446-2458 | Pausing and unpausing change only the error number, and only if there is no error. |
| HttpParsing.HttpParser.Tell | src/net/http/http_parser.c:80-96 | A callback is run once; the parser is paused exactly if it pauses, fails exactly if it refuses, and goes on otherwise. |
| HttpParsing.HttpParser.Flush | src/net/http/http_parser.c:105-125 | The bytes from the mark to the given end are delivered, once, and the mark is cleared. |
| HttpParsing.HttpParser.Count | src/net/http/http_parser.c:154-161 | The 32-bit header count, and overflow exactly when it exceeds the limit. |
| HttpParsing.HttpParser.Perform | src/net/http/http_parser.c:98-141 | Carrying out an action with marks agrees with delivering its byte at once, for each way of returning. |
| HttpParsing.HttpParser.ScanName | src/net/http/http_parser.c:1329-1446 | The inner loop over a header name does what single steps do and stops at the first byte that is no token. |
| HttpParsing.HttpParser.SkipGeneral | src/net/http/http_parser.c:1555-1578 | The `memchr` skip passes no CR or LF, except when there is none within the header limit. |
| HttpParsing.HttpParser.ScanValue | src/net/http/http_parser.c:1531-1713 | The inner loop over a header value does what single steps do, for every header state; only in a value longer than the limit does it go past the line end. |
| HttpParsing.HttpParser.ValueCr | src/net/http/http_parser.c:1537-1542 | A CR is counted after its callback, so a pause there leaves the value uncounted; otherwise count and limit agree with the counter. |
| HttpParsing.HttpParser.BodyPass | src/net/http/http_parser.c:2021-2042 | A pass over body or chunk data agrees with the machine and its counter up to the byte it stops at. |
| HttpParsing.HttpParser.CountByte | src/net/http/http_parser.c:698-699 | A byte looked at for the first time counts one in a header state; where that exceeds the limit, so does the count of the buffer. |
| HttpParsing.HttpParser.FlushAll | src/net/http/http_parser.c:2067-2087 | At the end of the buffer exactly the data of the run in progress is delivered. |
| HttpParsing.HttpParser.EndOfStream | src/net/http/http_parser.c:648-667 | An empty buffer completes a message that runs to the end of the stream, is accepted between messages and is an error elsewhere. |
| HttpParsing.HttpParser.Execute | src/net/http/http_parser.c:628-2097 | Fields, trace, error and bytes consumed agree with the byte-by-byte machine for every continuation, with fast paths, marks and pauses; a call that is neither paused nor refused exceeds the limit if and only if the counter does, and otherwise leaves its count; a paused one adds at most one byte; the parser stops for a callback only if its answer says so; after a refusal or an overflow the trace is a beginning of the machine's; a call paused without consuming a byte has lowered the rank; nothing happens in an error state. |
| HttpFeeding.Feed | src/net/http/http_parser.c:628-2097 | A stream fed in any pieces, resuming after every pause with the bytes not consumed, agrees with the machine on the whole stream; a callback error is a refusal; there is one call for each piece and for each pause, and at most four for each byte and piece; without pauses the limit is exceeded if and only if the count of the pieces says so; wherever callbacks pause it is not exceeded if the header bytes, three times those looked at and the pieces are together within it, nor if the header bytes and the calls are. |
| HttpFeeding.FedResult | src/net/http/http_parser.c:628-2097 | What has been fed ended where the machine ends on the whole stream: fields, error, bytes left, and trace up to one piece of data undelivered on a parse error. |
| HttpFeeding.FedBelow | src/net/http/http_parser.c:2091-2096 | However feeding ended, also by a refusal or an overflow, what was reported is a beginning of the machine's trace. |
| HttpFeeding.FeedBoth | src/net/http/http_parser.c:628-2097 | Split invariance and pause transparency: the same stream cut and paused in two ways gives the same fields, error, bytes left and trace, for callbacks that never refuse, wherever they pause, and streams whose header bytes and pieces leave room in the limit, a condition on the input alone; with the exact condition where nothing pauses; always beginnings of one trace. |
| HttpFeeding.BookedBalanced | src/net/http/http_parser.c:695-699 | One call keeps the balance: what pauses in the middle of bytes add to the count is at most three for each header byte left behind for good, since such a pause lowers the rank of the state. |
| HttpFeeding.OverWeight | src/net/http/http_parser.c:154-161 | A call that exceeds the limit does so by no more than the header bytes of the stream and that balance account for. |
| HttpFeeding.ShortRoomy | src/net/http/http_parser.c:154-161 | Every stream whose length, times four, is within the limit together with the pieces is safe from it, wherever callbacks pause. |
| HttpFeeding.NameGauge | src/net/http/http_parser.c:1441-1446 | The bytes of a name count one each, and one more at the end of the call. |
| HttpFeeding.CutsCount | src/net/http/http_parser.c:1441-1446 | From a new parser, for every length of a header name: overflow in one call if and only if the name is above a bound, in two calls if and only if it reaches it. |
| HttpGrammar.SwitchArrives | src/net/http/http_parser.c:714-2058 | Each pass of a parser for requests, responses or both moves along the grammar of its traces. |
| HttpGrammar.TraceGrammar | src/net/http/http_parser.c:714-2058 | Every trace of a request parser is made of messages begin, url, (field value)*, headers complete, body or chunks with trailer, complete; of a response parser, with begins and status in place of the url, or a body up to the end of the stream; bodies add up to the declared length and chunks to their sizes. |
| HttpGrammar.PrefixesParse | src/net/http/http_parser.c:714-2058 | Every prefix of a trace in the grammar is in it. |
| HttpGrammar.BelowParse | src/net/http/http_parser.c:2091-2096 | So is every beginning that breaks off inside a piece of data. |
| HttpGrammar.Completable | src/net/http/http_parser.c:714-2058 | Every trace in the grammar can be continued to a stream of whole messages, if only by the end of the stream. |
| HttpGrammar.MergeIsMerged | src/net/http/http_parser.c:105-125 | Merging leaves no two adjacent data events of one kind. |
| HttpGrammar.BodiesAddUp | src/net/http/http_parser.c:1842-2058 | Read off a merged trace of any kind of parser: the body before a message's end has the length its headers declared, the body before a chunk's end that of its chunk header. |
| HttpGrammar.AllAccounted | src/net/http/http_parser.c:1842-2058 | So for all bodies of a trace. |
| HttpGrammar.BodyUnderWay | src/net/http/http_parser.c:1842-2042 | A body being read has not more bytes than declared, unless it runs to the end of the stream. |
| HttpGrammar.EndlessHeads | src/net/http/http_parser.c:1880-1886 | A message that may go on to the end of the stream has headers without a length, and at most one piece of body after them. |
| HttpGrammar.EndedAccounted | src/net/http/http_parser.c:648-656 | When the stream ends, all bodies are accounted for but that of a last message without a declared length. |
| HttpRecognisers.GuessSound | src/net/http/http_parser.c:990-1082 | While a method is read, the bytes seen are the beginning of the guessed method, so the index never passes its end. |
| HttpRecognisers.GuessComplete | src/net/http/http_parser.c:990-1082 | Each of the 31 methods is guessed from its own name. |
| HttpRecognisers.MethodRun | src/net/http/http_parser.c:947-1082 | Reading a word from the start state leaves the parser with exactly that guess and index, or with the error for a bad method. |
| HttpRecognisers.MethodRecognised | src/net/http/http_parser.h:89-126 | A word followed by a space is accepted if and only if it is one of the methods of the table, and then as that method. |
| HttpRecognisers.MethodNames | src/net/http/http_parser.h:89-126 | The words accepted as methods are the 31 names, listed. |
| HttpRecognisers.StateStandsFor | src/net/http/http_parser.c:1305-1446 | After any header name the header state is the one that stands for its lower-case form. |
| HttpRecognisers.HeaderRecognised | src/net/http/http_parser.c:1448-1456 | At the colon the header state names a special header if and only if the lower-case name equals it. |
| HttpRecognisers.NameRun | src/net/http/http_parser.c:1279-1446 | The parser run over a name reports it and is in that header state. |
| HttpRecognisers.LengthRun | src/net/http/http_parser.c:1585-1610 | A Content-Length is accepted if and only if it consists of digits and embedded spaces and its decimal value passes the guard; the length is then that value, without wrap-around and below the sentinel. |
| HttpRecognisers.ChunkSizeRun | src/net/http/http_parser.c:1956-1991 | A chunk size is accepted if and only if its hexadecimal value passes the guard, and is then that value. |
| HttpValues.CodingRead | src/net/http/http_parser.c:1488-1496 | While a Transfer-Encoding value is read the parser is in the state of having read a beginning of `chunked` in any case, that word with blanks behind it, or anything else. |
| HttpValues.OptionsRead | src/net/http/http_parser.c:1505-1703 | So it is with the words of a Connection list, which it reads one by one, with the effect of those that a comma has ended. |
| HttpValues.OptionFlags | src/net/http/http_parser.c:1690-1745 | A Connection list sets a flag if and only if one of its options is the word for it, in any case. |
| HttpMessages.CodingLaw | src/net/http/http_parser.c:1725-1749 | After a Transfer-Encoding line the body comes in chunks if and only if the value, in any case and without the blanks behind it, is `chunked`, or that was so before. |
| HttpMessages.FieldRun | src/net/http/http_parser.c:1279-1790 | A header line, with any blanks, line end and meaning, is reported as its name and value, and changes exactly the flags and length that its text says. |
| HttpMessages.FieldsRun | src/net/http/http_parser.c:1279-1790 | So are all lines, in the order written. |
| HttpMessages.FoldRun | src/net/http/http_parser.c:1725-1731 | A line that begins with a blank continues the value before it, with the blank and without the line end. |
| HttpMessages.NumberRun | src/net/http/http_parser.c:794-900 | Version and status numbers up to 999 are read as their decimal values. |
| HttpMessages.RequestLineRun | src/net/http/http_parser.c:947-1277 | A request line is read as its method, target and version, which may be missing and is then 0.9. |
| HttpMessages.ReplyLineRun | src/net/http/http_parser.c:751-945 | A status line is read as its version, code and phrase. |
| HttpContents.NextMessage | src/net/http/http_parser.c:2100-2140 | After a message the parser expects the next one if and only if the connection is persistent, by version and options, and the body had an end of its own; which codes have no body. |
| HttpContents.ClosedRun | src/net/http/http_parser.c:704-712 | On a closed connection everything but line ends is refused. |
| HttpContents.HeadersDoneActs | src/net/http/http_parser.c:1842-1886 | What follows the headers: another protocol, the end of the message, or a body in chunks, of a length, or up to the end of the stream. |
| HttpContents.IdentityRun | src/net/http/http_parser.c:1888-1938 | A body of the announced length is reported whole, and then the end of the message. |
| HttpContents.ChunkedRun | src/net/http/http_parser.c:1940-2058 | A body in chunks, with any hexadecimal sizes, extensions and trailers, is reported chunk by chunk with the trailers and the end of the message. |
| HttpPipelines.MessageRun | src/net/http/http_parser.c:714-2058 | From the text of any message the parser makes exactly its events, keeps its version, method and status, and is then ready for the next message, closed, waiting for the end of the stream, or has stopped right behind the message for another protocol. |
| HttpPipelines.MessagesRun | src/net/http/http_parser.c:714-2058 | The same for any number of messages one after another, with nothing left over but what follows a change of protocol. |
| HttpPipelines.EitherRun | src/net/http/http_parser.c:714-749 | A parser for either kind takes any first line as the parser for that kind does. |
| HttpPipelines.LineEndsRun | src/net/http/http_parser.c:704-957 | Line ends between messages are passed over; in front of a response each begins a message once more. |
| HttpPipelines.ParseMessages | src/net/http/http_parser.c:628-2097 | A conversation that arrives in any pieces, with any pauses, is reported as exactly its events, as long as no callback refuses and the header limit is not exceeded, which a short enough stream does not do. |
| HttpRequests.ChunkedRequest | src/net/http/http_parser.c:1940-2058 | A request in version 1.1 with ordinary headers, a Transfer-Encoding line and any chunks with hexadecimal sizes, written out: exactly its url, headers and chunks and one whole message, nothing left over, and ready for the next. |
| HttpRequests.OneConnection | src/net/http/http_parser.c:2122-2140 | A request in version 1.0 or 1.1 with one Connection option: whole, and the parser then expects another one if and only if the option is `keep-alive` in 1.0, or is not `close` in 1.1. |
| HttpRequests.UpgradeRequest | src/net/http/http_parser.c:1802-1861 | A request for another protocol: whole, and everything behind it is left alone. |
| HttpRefusals.LineEnds | src/net/http/http_parser.c:943-2056 | Behind a CR, and at the end of headers, sizes and chunks, exactly the wanted line end is taken, and which error there is else. |
| HttpRefusals.Starts | src/net/http/http_parser.c:704-989 | Which bytes may begin a message, in every kind of parser and after the last message, and which error there is else. |
| HttpRefusals.ProtocolNames | src/net/http/http_parser.c:773-1189 | The letters of the protocol name, exactly, and blanks only in front of it in a request. |
| HttpRefusals.Versions | src/net/http/http_parser.c:794-1262 | Which bytes may stand in a version, below 1000, and which error there is else. |
| HttpRefusals.StatusCodes | src/net/http/http_parser.c:863-941 | Which bytes may stand in and behind a status code, below 1000, and which error there is else; phrases are never refused. |
| HttpRefusals.Headers | src/net/http/http_parser.c:1279-1723 | In names exactly tokens, the colon and line ends are taken; of values only lengths are refused. |
| HttpRefusals.Bodies | src/net/http/http_parser.c:1888-2042 | No byte of a body, of the data of a chunk or of its extension is refused, and a size begins with a digit. |
| HttpPrinting.HttpResponse.AddHeadValue | src/net/http/HttpFormat.h:174-177 | A header is added or replaced. |
| HttpPrinting.HttpResponse.SetBody | src/net/http/HttpFormat.h:179-183 | The body is set and its length becomes the header Content-Length. |
| HttpPrinting.HttpResponse.GetStatusLine | src/net/http/HttpFormat.h:187-199 | The status line as printed, with the fall-through. |
| HttpPrinting.HttpResponse.GetHeaders | src/net/http/HttpFormat.h:201-207 | Each header is printed exactly once, in some order. |
| HttpPrinting.HttpResponse.GetResult | src/net/http/HttpFormat.h:185-217 | Status line, all headers in some order, empty line and body. |
| HttpPrinting.DecimalsValue | src/net/http/HttpFormat.h:182 | A printed length is a legal Content-Length with that value. |
| HttpPrinting.LineRun | src/net/http/http_parser.c:1279-1790 | A printed header line is parsed back to its name and value, and a length header to its length. |
| HttpPrinting.LinesRun | src/net/http/http_parser.c:1279-1790 | So are all lines, in the order printed. |
| HttpPrinting.RoundTrip | src/net/http/http_parser.c:751-1938 | A printed response is parsed back to exactly its headers and body with one message, and the parser is ready for the next. |
| HttpPrinting.NotBeforeLast | src/net/http/http_parser.c:1842-1938 | The message is not reported complete before the last byte. |
| HttpStreams.FedGrammar | src/net/http/http_parser.c:628-2097 | Whatever a parser of any kind is fed in whatever pieces, and however that ends, what it has reported is in its grammar with all bodies accounted for. |
| HttpStreams.FeedStream | src/net/http/http_parser.c:628-2097 | The same for a new parser and a whole stream with any callbacks. |
| HttpStreams.ClosedGrammar | src/net/http/http_parser.c:648-667 | The trace at the end of a stream is in the grammar with that end, and is of whole messages exactly in the states where the stream may end, but for a response parser that has seen leading line ends only. |
| HttpStreams.FeedToEnd | src/net/http/http_parser.c:628-2097 | Any stream in any pieces and then its end: the trace is that of the machine, completed by message_complete in a body without a declared length; the end is refused exactly in the states that do not allow it, and then the last message is not whole. |
| HttpStreams.AnyOrder | src/net/http/HttpFormat.h:201-207 | The order in which the map is traversed does not matter for the round trip. |
| HttpStreams.PrintedMost | src/net/http/http_parser.c:698-699 | Of a printed response at most the bytes before the body count or are looked at as header bytes. |
| HttpStreams.ParsePrinted | src/net/http/HttpFormat.h:185-217 | A printed response that arrives in any pieces, with any pauses, gives its headers and body back, as long as no callback refuses and four times the bytes before the body and the pieces are together within the limit, or those bytes and the calls; the body may have any length. |
| HttpUrl.UrlCharStep | src/net/http/http_parser.c:481-626 | The URL automaton never goes back to an earlier part, and only delimiters lead between parts. |
| HttpUrl.HostCharStep | src/net/http/http_parser.c:2180-2259 | So does the automaton over the server part. |
| HttpUrl.Scan | src/net/http/http_parser.c:2351-2411 | The first loop fails exactly if the automaton dies; otherwise its table holds, to 16 bits, exactly the bytes that the automaton assigns to each part, and it reports an at sign exactly if the automaton passed one in the server part. |
| HttpUrl.ParseHost | src/net/http/http_parser.c:2261-2340 | The second loop reads only the server part, succeeds exactly if its automaton may end there, and then the table holds exactly the bytes of user information, host and port. |
| HttpUrl.ParseUrl | src/net/http/http_parser.c:2342-2444 | For every URL whose server part ends within 16 bits: success if and only if both automata accept, a scheme has a host, CONNECT has exactly host and port, and the number at the port is a port number; the table is then that of the owners of the bytes. |
| HttpUrl.OwnersOrdered | src/net/http/http_parser.c:2355-2411 | Bytes belong to scheme, user information, host, port, path, query, fragment in this order. |
| HttpUrl.UnownedDelimits | src/net/http/http_parser.c:2363-2369 | A byte that belongs to no field is one of `: / ? # @ [ ]`. |
| HttpUrl.Layout | src/net/http/http_parser.c:2342-2444 | After a success all fields are non-empty, in bounds, disjoint and in order, gaps are delimiters, and CONNECT sets exactly host and port; up to 65535 bytes the stored table is exact. |
| HttpUrl.SlashPath | src/net/http/http_parser.h:277-285 | For every length of a path of slashes: it is accepted, and its stored entry is right if and only if the length fits in 16 bits. |
| HttpUrl.PortNumber | src/net/http/http_parser.c:2431-2441 | The number read is the decimal value of exactly the bytes of the port, unless the port ends the buffer and digits follow it in memory. |
| HttpUrlParts.TextOwners | src/net/http/http_parser.c:2342-2411 | In a URL put together from well-formed parts, with names or bracketed addresses and zones, with or without a scheme, every byte is assigned to the part it came from. |
| HttpUrlParts.PartsFound | src/net/http/http_parser.c:2342-2444 | The fields of such a URL are exactly its parts that are not empty. |
| HttpUrlParts.Composed | src/net/http/http_parser.c:2342-2444 | Such a URL is accepted if and only if the digits that are read at its port are a port number and, for CONNECT, only host and port leave fields. |
| HttpUrlGrammar.PartsOf | src/net/http/http_parser.c:2342-2444 | Every accepted URL but the empty one is put together from well-formed parts. |
| HttpUrlGrammar.AcceptedUrls | src/net/http/http_parser.c:2342-2444 | The language of the splitter: accepted if and only if empty, and not for CONNECT, or put together from well-formed parts, with a port number that is one and, for CONNECT, only a host and a port. |
| Sha1Rounds.ChForm | src/utils/SHA1.cpp:58-59 | The rewritten choice function is that of section 5 of FIPS PUB 180-1. |
| Sha1Rounds.MajForm | src/utils/SHA1.cpp:61 | The rewritten majority function is that of section 5 of FIPS PUB 180-1. |
| Sha1Rounds.RoundForm | src/utils/SHA1.cpp:57-62 | One macro, which only renames registers, is one step of section 7. |
| Sha1Rounds.NextWordIsW | src/utils/SHA1.cpp:54-55 | The 16-word schedule rewritten in place gives the next word of the 80-word schedule. |
| Sha1Stream.CSHA1.Reset | src/utils/SHA1.cpp:76-87 | The state of the empty message. |
| Sha1Stream.CSHA1.Round | src/utils/SHA1.cpp:57-62 | A round in place keeps the schedule and advances the registers by one step. |
| Sha1Stream.CSHA1.Eighty | src/utils/SHA1.cpp:96-116 | The unrolled rounds are the 80 steps. |
| Sha1Stream.CSHA1.Transform | src/utils/SHA1.cpp:89-129 | The compression of section 7, for every state and block. |
| Sha1Stream.CSHA1.AddCount | src/utils/SHA1.cpp:138-140 | The two counter words are the bit count modulo 2^64, with the carry. |
| Sha1Stream.CSHA1.Update | src/utils/SHA1.cpp:132-155 | Registers, buffer and count are those of the message continued by the data, for any amount. |
| Sha1Stream.CSHA1.PadZeros | src/utils/SHA1.cpp:214-215 | The padding loop ends, after exactly the zeros of section 4. |
| Sha1Stream.CSHA1.Final | src/utils/SHA1.cpp:203-233 | The digest is SHA-1 of everything given to Update. |
| Sha1Stream.HashPieces | src/utils/SHA1.cpp:132-233 | However a message is cut into calls, the digest is SHA-1 of the whole. |
| Sha1Answers.AbcDigest | src/utils/SHA1.cpp:89-233 | The digest of the one-block message of the appendix of FIPS PUB 180-1, as literal bytes. |
| Sha1Answers.LongerDigest | src/utils/SHA1.cpp:89-233 | The digest of its two-block message. |
| TimerManager.AddKeeps | src/utils/timeaction.c:234-272 | Adding keeps: pending ids stand for distinct unfired adds with the keys, callbacks and arguments they were added with, nothing pending is due before what has fired, and what was called is what the add fired asked for. |
| TimerManager.CancelKeeps | src/utils/timeaction.c:274-281 | Cancelling keeps it, also on ids that are not pending. |
| TimerManager.DropKeeps | src/utils/timeaction.c:214-218 | So does popping a cancelled timer. |
| TimerManager.FireKeeps | src/utils/timeaction.c:219-230 | So does firing the earliest live timer, when it is due. |
| TimerManager.GrowKeeps | src/utils/timeaction.c:116-126 | So does growing the node array under the heap. |
| TimerManager.TimerMgr.constructor | src/utils/timeaction.c:164-180 | A new manager has all ids free. |
| IdHeap.Insert | src/utils/timeaction.c:268 | The ids are those before and the new one, and the heap is in order of keys kept elsewhere. |
| IdHeap.Pop | src/utils/timeaction.c:216 | The ids are those before without the top, and the heap is in order. |
| IdHeap.TopIsLeast | src/utils/timeaction.c:60-70 | The top of a heap in order has the least key. |
| IdHeap.OtherKeys | src/utils/timeaction.c:60-70 | Keys of ids that are not in the heap may change without disturbing its order. |
| TimerManager.TimerMgr.Grow | src/utils/timeaction.c:79-162 | Growth keeps all nodes and the order of the heap, and every id stays in exactly one of free stack and heap. |
| TimerManager.TimerMgr.Add | src/utils/timeaction.c:234-272 | Fails exactly without a callback or without nodes; otherwise hands out an id that was not pending, with the due time; no pending id changes its key, and the heap stays in order. |
| TimerManager.TimerMgr.Del | src/utils/timeaction.c:274-281 | The add that a pending id stands for is cancelled; the id stays pending, so it is not reissued. |
| TimerManager.TimerMgr.Turn | src/utils/timeaction.c:201-231 | One turn with a sampled time stops only if no live timer is due, drops a cancelled timer, or fires one live timer that is due and removes it. |
| TimerManager.TimerMgr.AllServed | src/utils/timeaction.c:201-231 | When nothing live is due, every add due by then has fired or is cancelled. |
| TimerManager.TimerMgr.Act | src/utils/timeaction.c:234-281 | One action of a callback leaves the clock, adds, pending ids and cancellations that it should: an add with its due time under an id that was free, or, for an id that is pending, the cancellation of the add that it stands for then. |
| TimerManager.TimerMgr.ActAll | src/utils/timeaction.c:234-281 | So do all actions of a callback, in order. |
| TimerManager.TimerMgr.Schedule | src/utils/timeaction.c:193-232 | With callbacks that add positive delays only, one call ends, and every add due at the sampled time has then fired or is cancelled. What happens, step by step, is allowed: only cancelled timers are dropped, only the first live one that is due fires, and then its callback does at once what it does; clock, due times, callbacks, pending ids and cancellations afterwards are those of these steps. |
| TimerManager.DeletedStays | src/utils/timeaction.c:274-281 | In any such steps: deleting an id that is pending cancels the add that it stands for at that moment, for good. |
| TimerManager.ReplayAdds | src/utils/timeaction.c:234-272 | In any such steps: clock, due times and callbacks follow from the actions and clock readings alone. |
| TimerManager.RunEvents | src/utils/timeaction.c:193-281 | Over every run, re-entrant or not and with stale sampled times: ids partitioned between free stack and heap; every add recorded with its due time, callback and argument, which it keeps; what is pending and cancelled is what the steps of the run leave; cancellations and firings are never undone; each add fires at most once, not early, never after being cancelled, and what is called then is the callback with the argument of that add; due times of fired timers never go down while no delay is negative. |
| PriorityTimers.TimerMgr.AddTimer | src/timer/Timer.h:37-45 | A new timer ends at the clock plus its delay. |
| PriorityTimers.TimerMgr.Cancel | src/timer/Timer.cpp:10-13 | A queued timer that is cancelled stays queued and inactive; cancelling one that is no longer queued changes nothing else. |
| PriorityTimers.TimerMgr.Turn | src/timer/Timer.cpp:28-44 | One turn takes off a timer that ends first and whose end has strictly passed, calls it exactly if it is active, and stops only if no end has passed. |
| PriorityTimers.TimerMgr.NearEndMs | src/timer/Timer.cpp:51-62 | No timer ends within the wait, and one ends with it unless the wait is over. |
| PriorityTimers.FiredOnce | src/timer/Timer.cpp:20-44 | Firing the first of the queue keeps: at most once, after its end, not cancelled, in order of end times, with its own callback. |
| PriorityTimers.RunEvents | src/timer/Timer.cpp:10-44 | The same over every run, with every add recorded with its end time and callback, what is queued and cancelled being what the steps of the run leave, the callbacks called those of the timers fired, cancellations never undone, and order while no delay is negative. |
| PriorityTimers.GoesAdds | src/timer/Timer.h:37-45 | Clock, end times and callbacks follow from what was entered. |
| PriorityTimers.AllServed | src/timer/Timer.cpp:28-44 | When no queued end has passed, every add whose end has passed was called or is cancelled. |
| PriorityTimers.Schedule | src/timer/Timer.cpp:28-44 | With re-entrant callbacks that may cancel any timer, and a clock read on every turn: the same, turn by turn, with what each callback adds and cancels done right after it is called; and a call that ends has called or found cancelled every timer whose end has passed. |
| TypePool.Pool.constructor | src/utils/typepool.c:84-109 | A new pool has one slab of free blocks. |
| TypePool.Pool.Exhausted | src/utils/typepool.c:130-159 | The live blocks are as many as the capacity exactly when every stack is empty. |
| TypePool.Pool.Conserved | src/utils/typepool.c:50-82 | In each slab free and live blocks add up to its size. |
| TypePool.Pool.Scan | src/utils/typepool.c:143-148 | The top of the first stack, from the head of the list, that is not empty, and the slab after it; nothing exactly if all are empty. |
| TypePool.Pool.ClaimHelp | src/utils/typepool.c:130-159 | The top of the hinted slab, and the hint stays; else what the scan finds, and the hint is then the slab after it or none; nothing exactly if all stacks are empty. |
| TypePool.Pool.Claim | src/utils/typepool.c:161-173 | The block was not live; the pool grows by one slab if and only if every block is live. |
| TypePool.Pool.Reclaim | src/utils/typepool.c:175-183 | The block goes back to the stack of its own slab, wherever the hint points, and is the next to be claimed. |
| TypePool.Pool.Increase | src/utils/typepool.c:185-196 | Growth by a caller appends a slab and is not counted. |
| TypePool.Pool.NodeNum | src/utils/typepool.c:198-202 | The slabs counted are the peak of live blocks divided by the slab size, rounded up, and at least one. |
| TypePool.FrugalCount | src/utils/typepool.c:161-173 | The invariant kept by growth is equivalent to that closed form. |
| TypePool.RunPool | src/utils/typepool.c:161-202 | Over every run of claims and reclaims the blocks held are distinct and the slab count is given by the peak of the run. |
| MultiPool.Pools.constructor | src/utils/multipool.c:20-48 | One pool per length, each length increased by the addition. |
| MultiPool.Pools.Apart | src/utils/multipool.c:66-85 | No block is live in two pools. |
| MultiPool.Pools.Claim | src/utils/multipool.c:66-85 | A block of the pool named, marked with it, and nothing for a number out of range. |
| MultiPool.Pools.LenClaim | src/utils/multipool.c:87-114 | A block of the first pool whose blocks are long enough, among the pools that a `char` can count. |
| MultiPool.Pools.Reclaim | src/utils/multipool.c:116-125 | A block of a pool up to number 127 goes back to that pool, and no other pool changes. |
| MultiPool.Pools.ConfigLen | src/utils/multipool.c:127-145 | The configured length of the block's own pool, or -1 for pools 128 to 255. |
| MultiPool.RunPools | src/utils/multipool.c:66-125 | Over every run on up to 127 pools the caller holds exactly the blocks that its steps entitle it to, each from the pool named or the first that fits; the live blocks of each pool are those held from it, distinct and at least as long as asked for. |
| WebSocketFrames.MaskedTwice | src/net/http/WebSocketFormat.h:91-94 | Masking twice with one key gives the payload back. |
| WebSocketFrames.XorBit | src/net/http/WebSocketFormat.h:181 | A bit of two combined bytes is set if and only if their bits differ. |
| WebSocketFrames.MaskedDiffers | src/net/http/WebSocketFormat.h:91-94 | A masked byte differs from the payload byte exactly in the bits of the key byte of its position modulo four. |
| WebSocketFrames.Build | src/net/http/WebSocketFormat.h:50-102 | The frame of section 5.2 with the shortest length form, for every payload, type, flag and mask. |
| WebSocketFrames.Extract | src/net/http/WebSocketFormat.h:109-191 | Reports and appends what the frame at the head of the buffer carries; on failure leaves payload and size; no sum leaves 32 bits. |
| WebSocketFrames.WireDecodes | src/net/http/WebSocketFormat.h:109-191 | Every frame, in any length form, decodes to what it carries, whatever follows. |
| WebSocketFrames.DecodedIsWire | src/net/http/WebSocketFormat.h:109-191 | Whatever is accepted is a frame carrying what is reported. |
| WebSocketFrames.Accepted | src/net/http/WebSocketFormat.h:109-191 | The extractor reports a message if and only if the buffer begins with a frame carrying it. |
| WebSocketFrames.Stable | src/net/http/WebSocketFormat.h:109-191 | A success is unchanged by appending bytes. |
| WebSocketFrames.RoundTrip | src/net/http/WebSocketFormat.h:50-191 | Extracting what was built gives payload, type, flag and length back if and only if the payload is under 2^31 bytes and the type has four bits. |
| WebSocketFrames.PrefixRejected | src/net/http/WebSocketFormat.h:109-191 | No strict prefix of a built frame is accepted. |
| WebSocketFrames.StreamDecodes | src/net/http/WebSocketFormat.h:50-191 | Concatenated frames decode to exactly the messages sent, up to an unfinished frame, which is left over. |
| WebSocketFrames.HelloFrames | src/net/http/WebSocketFormat.h:50-102 | The unmasked and fragmented frames of section 5.7 of RFC 6455, as literal bytes. |
| WebSocketFrames.HelloFrame | src/net/http/WebSocketFormat.h:50-191 | Its masked frame, built and read. |
| WebSocketFrames.LongHeaders | src/net/http/WebSocketFormat.h:60-77 | Its headers for payloads of 256 bytes and 64 KiB. |
| IoBuffer.Buffer.ReadableCount | src/utils/buffer.c:111-115 | The number of readable bytes; wrapped around once the reader has overtaken the writer. |
| IoBuffer.Buffer.Init | src/utils/buffer.c:72-77 | Whatever was in the buffer is gone and all of it can be written, also after the reader has overtaken the writer. |
| IoBuffer.Buffer.AdjustToHead | src/utils/buffer.c:54-70 | Compaction keeps the readable bytes and frees all other room. |
| IoBuffer.Buffer.AddWritePos | src/utils/buffer.c:91-99 | Bytes put behind the write cursor become readable; a move out of the array is ignored. |
| IoBuffer.Buffer.AddReadPos | src/utils/buffer.c:101-109 | Takes bytes off the front; the exact condition under which the reader stays behind the writer. |
| IoBuffer.Buffer.Write | src/utils/buffer.c:155-181 | Succeeds if and only if the bytes fit beside the readable ones, then appends exactly, else changes nothing; at most one self-call. |
| IoBuffer.Buffer.Append | src/utils/buffer.c:159-164 | Bytes copied behind the write cursor are appended exactly. |
| IoBuffer.AlwaysFifo | src/utils/buffer.c:54-181 | For the bounded queue, over every run: what has entered is what has left, taken or dropped by an initialisation, followed by what waits, within the capacity. |
| IoBuffer.Perform | src/utils/buffer.c:54-181 | Every operation on the buffer is that operation on the queue, with the bytes taken and the room left before a compaction. |
| IoBuffer.RunOps | src/utils/buffer.c:54-181 | Every run from an empty buffer is that run of the queue, and the bytes read are those that left it for the reader. |

## Left out

- Sockets, polling, sessions, the HTTP and RPC servers, the thread pool and message queue: input and output and
  synchronisation around code that is not part of this model.
- `wsHandshake`, `base64`, `md5calc.cpp`, `array.c`, files, process status and coroutines: they would only add easy
  members, or repeat the SHA-1 work.
- Printing of requests, and responses other than OK: their status or query text does not parse back.
- HttpMessages.FieldRun: in a `Connection` list a known word that is cut short takes the comma behind it for a part of
  itself, so such options stand only at the end of a list here, and options after the first begin with a letter or digit.
- HttpParsing.HttpParser.Execute: buffers of 2^32 - 81920 bytes or more, where the 32-bit count could wrap around within
  one call, carry no promise about trace and count.
- HttpFeeding.FeedBoth: feeding stops at an error or a switch of protocol; on a parse error one piece of marked data may
  be undelivered in one cut and delivered in another, as in the code.
- HttpFeeding.Feed: the exact condition for the limit is for callbacks that do not pause; a pause at the end of a value
  leaves it uncounted and a pause before a byte is consumed counts it again, so with pauses the condition is sufficient
  only.
- HttpStreams.FeedToEnd: after the end of a stream the code leaves the parser in the state of the body, so that more bytes
  would be reported as body data after message_complete; nothing is fed after the end here.
- HttpPrinting.RoundTrip: headers with a special meaning other than the length set by setBody are excluded, and values
  with line ends or leading blanks, which the parser does not give back unchanged.
- HttpUrl.ParseUrl: if the server part ends beyond 16 bits only memory safety is stated, because the second loop then
  works on another part of the URL.
- Sha1Stream.CSHA1.Update: data of 2^32 - 63 bytes or more in one call, where the loop bound would wrap around.
- TimerManager.TimerMgr.Schedule: termination is claimed for positive delays only, where it holds. `heap.c` and `stack.c`
  are not part of this model: the heap is the binary heap of `IdHeap` and the stack a sequence. Sums of clock and delay
  beyond 64 bits are not modelled, and the clock is taken never to go back.
- PriorityTimers.Schedule: how many turns a call makes depends on the clock, so the clock readings it sees are a parameter.
- TypePool.RunPool: allocation succeeds, blocks are abstract identities, and a caller reclaims only what it holds.
- IoBuffer.Buffer.Write: moving the read cursor past the write cursor, which the code allows, is excluded by the
  invariant; AddReadPos says exactly when it happens.
- Callbacks, the clock, random numbers, the traversal order of hash maps and the memory after a URL are parameters.
