/**
 The byte-driven machine of `http_parser_execute`.

 `Switch` is the big `switch` on the parser state: what one byte does in one state, as a record of the
 macro the source uses (set a mark, run a callback with or without consuming the byte, re-execute, ...).
 `Tick` reads such a record byte by byte, delivering every data byte at once, and `Run` folds `Tick` over
 a stream. `Run` is the meaning that the buffer-driven parser is proved to implement.
 */
module HttpMachine {
  import opened HttpChars

  const ULLONG_MAX: nat := 0xFFFF_FFFF_FFFF_FFFF
  const TWO_TO_THE_64: nat := 0x1_0000_0000_0000_0000
  const HTTP_MAX_HEADER_SIZE: nat := 81920

  datatype Kind = Request | Response | Both

  datatype Method =
    | DELETE | GET | HEAD | POST | PUT | CONNECT | OPTIONS | TRACE | COPY | LOCK | MKCOL | MOVE
    | PROPFIND | PROPPATCH | SEARCH | UNLOCK | BIND | REBIND | UNBIND | ACL | REPORT | MKACTIVITY
    | CHECKOUT | MERGE | MSEARCH | NOTIFY | SUBSCRIBE | UNSUBSCRIBE | PATCH | PURGE | MKCALENDAR

  function MethodString(m: Method): string {
    match m
    case DELETE => "DELETE" case GET => "GET" case HEAD => "HEAD" case POST => "POST" case PUT => "PUT"
    case CONNECT => "CONNECT" case OPTIONS => "OPTIONS" case TRACE => "TRACE" case COPY => "COPY"
    case LOCK => "LOCK" case MKCOL => "MKCOL" case MOVE => "MOVE" case PROPFIND => "PROPFIND"
    case PROPPATCH => "PROPPATCH" case SEARCH => "SEARCH" case UNLOCK => "UNLOCK" case BIND => "BIND"
    case REBIND => "REBIND" case UNBIND => "UNBIND" case ACL => "ACL" case REPORT => "REPORT"
    case MKACTIVITY => "MKACTIVITY" case CHECKOUT => "CHECKOUT" case MERGE => "MERGE"
    case MSEARCH => "M-SEARCH" case NOTIFY => "NOTIFY" case SUBSCRIBE => "SUBSCRIBE"
    case UNSUBSCRIBE => "UNSUBSCRIBE" case PATCH => "PATCH" case PURGE => "PURGE"
    case MKCALENDAR => "MKCALENDAR"
  }

  datatype State =
    | Dead
    | StartReqOrRes | ResOrRespH | StartRes | ResH | ResHT | ResHTT | ResHTTP
    | ResFirstMajor | ResMajor | ResFirstMinor | ResMinor
    | ResFirstStatusCode | ResStatusCode | ResStatusStart | ResStatus | ResLineAlmostDone
    | StartReq | ReqMethod | SpacesBeforeUrl
    | Schema | SchemaSlash | SchemaSlashSlash | ServerStart | Server | ServerWithAt
    | Path | QueryStart | Query | FragmentStart | Fragment
    | ReqHttpStart | ReqH | ReqHT | ReqHTT | ReqHTTP
    | ReqFirstMajor | ReqMajor | ReqFirstMinor | ReqMinor | ReqLineAlmostDone
    | HeaderFieldStart | HeaderField | ValueDiscardWs | ValueDiscardWsAlmostDone | ValueDiscardLws
    | ValueStart | HeaderValue | ValueLws | HeaderAlmostDone
    | ChunkSizeStart | ChunkSize | ChunkParameters | ChunkSizeAlmostDone
    | HeadersAlmostDone | HeadersDone
    | ChunkData | ChunkDataAlmostDone | ChunkDataDone | BodyIdentity | BodyIdentityEof | MessageDone

  /** PARSING_HEADER: the states up to `s_headers_done` count their bytes against the header limit. */
  predicate ParsingHeader(s: State) {
    !(s.ChunkData? || s.ChunkDataAlmostDone? || s.ChunkDataDone? || s.BodyIdentity? || s.BodyIdentityEof? ||
      s.MessageDone?)
  }

  datatype HeaderState =
    | General | HC | HCO | HCON
    | MatchConnection | MatchProxy | MatchLength | MatchTransfer | MatchUpgrade
    | HConnection | HLength | HTransfer | HUpgrade
    | MatchChunked | TokenStart | MatchKeepAlive | MatchClose | MatchConnUpgrade | ConnToken
    | TransferChunked | ConnKeepAlive | ConnClose | ConnUpgrade

  datatype Flags = Flags(chunked: bool, keepAlive: bool, close: bool, connUpgrade: bool,
                         trailing: bool, upgrade: bool, skipBody: bool)

  const NO_FLAGS := Flags(false, false, false, false, false, false, false)

  datatype Errno =
    | OK | Paused | Callback | InvalidEofState | HeaderOverflow | ClosedConnection | InvalidVersion | InvalidStatus
    | InvalidMethod | InvalidUrl | LfExpected | InvalidHeaderToken | InvalidContentLength
    | InvalidChunkSize | InvalidConstant | Strict

  /** The fields of `struct http_parser`, except the byte counter `nread` and `http_errno`. */
  datatype Core = Core(kind: Kind, flags: Flags, state: State, hs: HeaderState, index: nat, length: nat,
                       major: nat, minor: nat, status: nat, verb: Method, upgrade: bool)

  /** `http_parser_init` */
  function Initial(kind: Kind): Core {
    Core(kind, NO_FLAGS, (match kind case Request => StartReq case Response => StartRes case Both => StartReqOrRes),
         General, 0, 0, 0, 0, 0, DELETE, false)
  }

  datatype DataKind = FieldData | ValueData | UrlData | BodyData | StatusData

  /** Callback invocations, with what a callback can read at that moment. */
  datatype Event =
    | Data(kind: DataKind, bytes: string)
    | MessageBegin
    | HeadersComplete(length: nat, chunked: bool, connect: bool)
    | MessageComplete
    | ChunkHeader(length: nat)
    | ChunkComplete

  /** What `switch` does with one byte: the successor fields and the macro that ends the case. */
  datatype Act =
    | Next(c: Core)                   // break
    | Mark(c: Core, k: DataKind)      // MARK(k); break
    | Keep(c: Core, k: DataKind)      // break, inside a run that is already marked
    | FlushNext(c: Core, k: DataKind) // CALLBACK_DATA(k); break
    | FlushAgain(c: Core, k: DataKind)// CALLBACK_DATA_NOADVANCE(k); REEXECUTE()
    | EmptyAgain(c: Core, k: DataKind)// MARK(k); CALLBACK_DATA_NOADVANCE(k); REEXECUTE()
    | LastAgain(c: Core, k: DataKind) // CALLBACK_DATA_(k, p - mark + 1, p - data); REEXECUTE()
    | Again(c: Core)                  // REEXECUTE()
    | NotifyNext(c: Core, e: Event)   // CALLBACK_NOTIFY(e); break
    | NotifyExit(c: Core, e: Event)   // CALLBACK_NOTIFY(e); RETURN(p - data + 1)
    | NotifyAgain(c: Core, e: Event)  // CALLBACK_NOTIFY_NOADVANCE(e); REEXECUTE()
    | HeadersAgain(c: Core)           // the on_headers_complete protocol; REEXECUTE()
    | Fail(c: Core, errno: Errno)     // goto error

  // ----- http_message_needs_eof, http_should_keep_alive, NEW_MESSAGE -----

  predicate NeedsEof(c: Core) {
    && !c.kind.Request?
    && !(c.status / 100 == 1 || c.status == 204 || c.status == 304 || c.flags.skipBody)
    && !(c.flags.chunked || c.length != ULLONG_MAX)
  }

  predicate ShouldKeepAlive(c: Core) {
    && (if c.major > 0 && c.minor > 0 then !c.flags.close else c.flags.keepAlive)
    && !NeedsEof(c)
  }

  function NewMessage(c: Core): State {
    if !ShouldKeepAlive(c) then Dead else if c.kind.Request? then StartReq else StartRes
  }

  // ----- the switch, by groups of states -----

  function Bump(i: nat): nat {
    (i + 1) % 256 // an 8-bit field
  }

  function Expect(c: Core, ch: char, want: char, s: State): Act {
    if ch != want then Fail(c, Strict) else Next(c.(state := s))
  }

  function StartStep(c: Core, ch: char): Act {
    if c.state.StartReqOrRes? then
      if ch == CR || ch == LF then Next(c)
      else
        var c := c.(flags := NO_FLAGS, length := ULLONG_MAX);
        if ch == 'H' then NotifyNext(c.(state := ResOrRespH), MessageBegin)
        else Again(c.(kind := Request, state := StartReq))
    else if c.state.ResOrRespH? then
      if ch == 'T' then Next(c.(kind := Response, state := ResHT))
      else if ch != 'E' then Fail(c, InvalidConstant)
      else Next(c.(kind := Request, verb := HEAD, index := 2, state := ReqMethod))
    else if c.state.StartRes? then
      var c := c.(flags := NO_FLAGS, length := ULLONG_MAX);
      if ch == 'H' then NotifyNext(c.(state := ResH), MessageBegin)
      else if ch == CR || ch == LF then NotifyNext(c, MessageBegin)
      else Fail(c, InvalidConstant)
    else if c.state.StartReq? then
      if ch == CR || ch == LF then Next(c)
      else
        var c := c.(flags := NO_FLAGS, length := ULLONG_MAX);
        if !IsAlpha(ch) then Fail(c, InvalidMethod)
        else
          var c := c.(verb := FirstGuess(ch).1, index := 1);
          if !FirstGuess(ch).0 then Fail(c, InvalidMethod)
          else NotifyNext(c.(state := ReqMethod), MessageBegin)
    else // s_dead
      if ch == CR || ch == LF then Next(c) else Fail(c, ClosedConnection)
  }

  /** The method guessed from its first letter; `.0` is false for a letter that starts no method. */
  function FirstGuess(ch: char): (bool, Method) {
    if ch == 'A' then (true, ACL) else if ch == 'B' then (true, BIND) else if ch == 'C' then (true, CONNECT)
    else if ch == 'D' then (true, DELETE) else if ch == 'G' then (true, GET) else if ch == 'H' then (true, HEAD)
    else if ch == 'L' then (true, LOCK) else if ch == 'M' then (true, MKCOL) else if ch == 'N' then (true, NOTIFY)
    else if ch == 'O' then (true, OPTIONS) else if ch == 'P' then (true, POST) else if ch == 'R' then (true, REPORT)
    else if ch == 'S' then (true, SUBSCRIBE) else if ch == 'T' then (true, TRACE) else if ch == 'U' then (true, UNLOCK)
    else (false, DELETE)
  }

  /** `matcher[index]`, whose last character is the terminating NUL. */
  function MatcherAt(w: string, i: nat): char {
    if i < |w| then w[i] else '\0'
  }

  /** The guess that replaces `m` when the byte at `i` is not the one `m` has there. */
  function NextGuess(m: Method, i: nat, ch: char): (bool, Method) {
    if m.CONNECT? then
      if i == 1 && ch == 'H' then (true, CHECKOUT) else if i == 2 && ch == 'P' then (true, COPY) else (false, m)
    else if m.MKCOL? then
      if i == 1 && ch == 'O' then (true, MOVE) else if i == 1 && ch == 'E' then (true, MERGE)
      else if i == 1 && ch == '-' then (true, MSEARCH) else if i == 2 && ch == 'A' then (true, MKACTIVITY)
      else if i == 3 && ch == 'A' then (true, MKCALENDAR) else (false, m)
    else if m.SUBSCRIBE? then
      if i == 1 && ch == 'E' then (true, SEARCH) else (false, m)
    else if m.REPORT? then
      if i == 2 && ch == 'B' then (true, REBIND) else (false, m)
    else if i == 1 && m.POST? then
      if ch == 'R' then (true, PROPFIND) else if ch == 'U' then (true, PUT) else if ch == 'A' then (true, PATCH)
      else (false, m)
    else if i == 2 then
      if m.PUT? then (if ch == 'R' then (true, PURGE) else (false, m))
      else if m.UNLOCK? then
        (if ch == 'S' then (true, UNSUBSCRIBE) else if ch == 'B' then (true, UNBIND) else (false, m))
      else (false, m)
    else if i == 4 && m.PROPFIND? && ch == 'P' then (true, PROPPATCH)
    else (false, m)
  }

  function MethodStep(c: Core, ch: char): Act {
    if ch == '\0' then Fail(c, InvalidMethod)
    else
      var want := MatcherAt(MethodString(c.verb), c.index);
      if ch == ' ' && want == '\0' then Next(c.(state := SpacesBeforeUrl, index := Bump(c.index)))
      else if ch == want then Next(c.(index := Bump(c.index)))
      else
        var (ok, m) := NextGuess(c.verb, c.index, ch);
        if ok then Next(c.(verb := m, index := Bump(c.index))) else Fail(c, InvalidMethod)
  }

  function ResponseLineStep(c: Core, ch: char): Act {
    if c.state.ResH? then Expect(c, ch, 'T', ResHT)
    else if c.state.ResHT? then Expect(c, ch, 'T', ResHTT)
    else if c.state.ResHTT? then Expect(c, ch, 'P', ResHTTP)
    else if c.state.ResHTTP? then Expect(c, ch, '/', ResFirstMajor)
    else if c.state.ResFirstMajor? then
      if !IsNum(ch) then Fail(c, InvalidVersion) else Next(c.(major := Digit(ch), state := ResMajor))
    else if c.state.ResMajor? then
      if ch == '.' then Next(c.(state := ResFirstMinor)) else MajorStep(c, ch)
    else if c.state.ResFirstMinor? then
      if !IsNum(ch) then Fail(c, InvalidVersion) else Next(c.(minor := Digit(ch), state := ResMinor))
    else if c.state.ResMinor? then
      if ch == ' ' then Next(c.(state := ResFirstStatusCode)) else MinorStep(c, ch)
    else if c.state.ResFirstStatusCode? then
      if IsNum(ch) then Next(c.(status := Digit(ch), state := ResStatusCode))
      else if ch == ' ' then Next(c) else Fail(c, InvalidStatus)
    else if c.state.ResStatusCode? then
      if ch == ' ' then Next(c.(state := ResStatusStart))
      else if ch == CR then Next(c.(state := ResLineAlmostDone))
      else if ch == LF then Next(c.(state := HeaderFieldStart))
      else CodeStep(c, ch)
    else if c.state.ResStatusStart? then
      if ch == CR then Next(c.(state := ResLineAlmostDone))
      else if ch == LF then Next(c.(state := HeaderFieldStart))
      else Mark(c.(state := ResStatus, index := 0), StatusData)
    else if c.state.ResStatus? then
      if ch == CR then FlushNext(c.(state := ResLineAlmostDone), StatusData)
      else if ch == LF then FlushNext(c.(state := HeaderFieldStart), StatusData)
      else Keep(c, StatusData)
    else // s_res_line_almost_done
      Expect(c, ch, LF, HeaderFieldStart)
  }

  function CodeStep(c: Core, ch: char): Act {
    if !IsNum(ch) then Fail(c, InvalidStatus)
    else
      var c := c.(status := c.status * 10 + Digit(ch));
      if c.status > 999 then Fail(c, InvalidStatus) else Next(c)
  }

  function MajorStep(c: Core, ch: char): Act {
    if !IsNum(ch) then Fail(c, InvalidVersion)
    else
      var c := c.(major := c.major * 10 + Digit(ch));
      if c.major > 999 then Fail(c, InvalidVersion) else Next(c)
  }

  function MinorStep(c: Core, ch: char): Act {
    if !IsNum(ch) then Fail(c, InvalidVersion)
    else
      var c := c.(minor := c.minor * 10 + Digit(ch));
      if c.minor > 999 then Fail(c, InvalidVersion) else Next(c)
  }

  /** `parse_url_char` */
  function ParseUrlChar(s: State, ch: char): State {
    if ch == ' ' || ch == CR || ch == LF || ch == '\t' || ch == '\U{0C}' then Dead
    else if s.SpacesBeforeUrl? then (if ch == '/' || ch == '*' then Path else if IsAlpha(ch) then Schema else Dead)
    else if s.Schema? then (if IsAlpha(ch) then s else if ch == ':' then SchemaSlash else Dead)
    else if s.SchemaSlash? then (if ch == '/' then SchemaSlashSlash else Dead)
    else if s.SchemaSlashSlash? then (if ch == '/' then ServerStart else Dead)
    else if s.ServerWithAt? && ch == '@' then Dead
    else if s.ServerWithAt? || s.ServerStart? || s.Server? then ServerChar(ch)
    else if s.Path? then
      (if IsUrlChar(ch) then s else if ch == '?' then QueryStart else if ch == '#' then FragmentStart else Dead)
    else if s.QueryStart? || s.Query? then
      (if IsUrlChar(ch) || ch == '?' then Query else if ch == '#' then FragmentStart else Dead)
    else if s.FragmentStart? then (if IsUrlChar(ch) || ch == '?' then Fragment else if ch == '#' then s else Dead)
    else if s.Fragment? && (IsUrlChar(ch) || ch == '?' || ch == '#') then s
    else Dead
  }

  function ServerChar(ch: char): State {
    if ch == '/' then Path else if ch == '?' then QueryStart else if ch == '@' then ServerWithAt
    else if IsUserInfoChar(ch) || ch == '[' || ch == ']' then Server else Dead
  }

  function UrlStep(c: Core, ch: char): Act {
    if c.state.SpacesBeforeUrl? then
      if ch == ' ' then Next(c)
      else
        var s := ParseUrlChar(if c.verb.CONNECT? then ServerStart else c.state, ch);
        if s.Dead? then Fail(c.(state := Dead), InvalidUrl) else Mark(c.(state := s), UrlData)
    else if (ch == ' ' || ch == CR || ch == LF) && InnerUrl(c.state) then
      if ch == ' ' then FlushNext(c.(state := ReqHttpStart), UrlData)
      else FlushNext(c.(major := 0, minor := 9, state := if ch == CR then ReqLineAlmostDone else HeaderFieldStart),
        UrlData)
    else if ch == ' ' || ch == CR || ch == LF then Fail(c, InvalidUrl)
    else
      var s := ParseUrlChar(c.state, ch);
      if s.Dead? then Fail(c.(state := Dead), InvalidUrl) else Keep(c.(state := s), UrlData)
  }

  /** URL states in which white space ends the URL. */
  predicate InnerUrl(s: State) {
    s.Server? || s.ServerWithAt? || s.Path? || s.QueryStart? || s.Query? || s.FragmentStart? || s.Fragment?
  }

  function RequestLineStep(c: Core, ch: char): Act {
    if c.state.ReqHttpStart? then
      if ch == 'H' then Next(c.(state := ReqH)) else if ch == ' ' then Next(c) else Fail(c, InvalidConstant)
    else if c.state.ReqH? then Expect(c, ch, 'T', ReqHT)
    else if c.state.ReqHT? then Expect(c, ch, 'T', ReqHTT)
    else if c.state.ReqHTT? then Expect(c, ch, 'P', ReqHTTP)
    else if c.state.ReqHTTP? then Expect(c, ch, '/', ReqFirstMajor)
    else if c.state.ReqFirstMajor? then
      if !('1' <= ch <= '9') then Fail(c, InvalidVersion) else Next(c.(major := Digit(ch), state := ReqMajor))
    else if c.state.ReqMajor? then
      if ch == '.' then Next(c.(state := ReqFirstMinor)) else MajorStep(c, ch)
    else if c.state.ReqFirstMinor? then
      if !IsNum(ch) then Fail(c, InvalidVersion) else Next(c.(minor := Digit(ch), state := ReqMinor))
    else if c.state.ReqMinor? then
      if ch == CR then Next(c.(state := ReqLineAlmostDone))
      else if ch == LF then Next(c.(state := HeaderFieldStart))
      else MinorStep(c, ch)
    else // s_req_line_almost_done
      if ch != LF then Fail(c, LfExpected) else Next(c.(state := HeaderFieldStart))
  }

  /** One more byte of a keyword, after `index` has been advanced. */
  function Match(w: string, i: nat, ch: char, going: HeaderState, whole: HeaderState,
                 lost: HeaderState): (h: HeaderState)
    ensures h == going || h == whole || h == lost
  {
    if i > |w| || ch != MatcherAt(w, i) then lost else if i == |w| - 1 then whole else going
  }

  /** The header-name recogniser: one token character of a header name. */
  function FieldChar(hs: HeaderState, i: nat, ch: char): (HeaderState, nat)
    requires IsToken(ch)
  {
    var b := TokenOf(ch);
    var j := Bump(i);
    if hs.HC? then (if b == 'o' then HCO else General, j)
    else if hs.HCO? then (if b == 'n' then HCON else General, j)
    else if hs.HCON? then (if b == 'n' then MatchConnection else if b == 't' then MatchLength else General, j)
    else if hs.MatchConnection? then (Match("connection", j, b, hs, HConnection, General), j)
    else if hs.MatchProxy? then (Match("proxy-connection", j, b, hs, HConnection, General), j)
    else if hs.MatchLength? then (Match("content-length", j, b, hs, HLength, General), j)
    else if hs.MatchTransfer? then (Match("transfer-encoding", j, b, hs, HTransfer, General), j)
    else if hs.MatchUpgrade? then (Match("upgrade", j, b, hs, HUpgrade, General), j)
    else if hs.HConnection? then (General, i)
    else if hs.HLength? then (General, i)
    else if hs.HTransfer? then (General, i)
    else if hs.HUpgrade? then (General, i)
    else (hs, i)
  }

  function FieldStart(ch: char): HeaderState
    requires IsToken(ch)
  {
    match TokenOf(ch)
    case 'c' => HC case 'p' => MatchProxy case 't' => MatchTransfer case 'u' => MatchUpgrade case _ => General
  }

  /** The states of a `Connection` value that a first letter leads to. */
  function ConnectionStart(b: char): HeaderState {
    if b == 'k' then MatchKeepAlive
    else if b == 'c' then MatchClose
    else if b == 'u' then MatchConnUpgrade
    else ConnToken
  }

  /** The first byte of a header value. */
  function ValueStartStep(c: Core, ch: char): Act {
    var d := c.(state := HeaderValue, index := 0);
    if c.hs.HUpgrade? then Mark(d.(flags := d.flags.(upgrade := true), hs := General), ValueData)
    else if c.hs.HTransfer? then Mark(d.(hs := if Lower(ch) == 'c' then MatchChunked else General), ValueData)
    else if c.hs.HLength? then
      if !IsNum(ch) then Fail(d, InvalidContentLength) else Mark(d.(length := Digit(ch)), ValueData)
    else if c.hs.HConnection? then Mark(d.(hs := ConnectionStart(Lower(ch))), ValueData)
    else if c.hs.TokenStart? then Mark(d, ValueData)
    else Mark(d.(hs := General), ValueData)
  }

  /** The flag that a finished value of the given header state stands for. */
  function Commit(f: Flags, hs: HeaderState): Flags {
    if hs.ConnKeepAlive? then f.(keepAlive := true)
    else if hs.ConnClose? then f.(close := true)
    else if hs.ConnUpgrade? then f.(connUpgrade := true)
    else if hs.TransferChunked? then f.(chunked := true)
    else f
  }

  /** A further byte of a header value that is neither CR nor LF. */
  function ValueChar(c: Core, ch: char): Act {
    var b := Lower(ch);
    var j := Bump(c.index);
    if c.hs.HLength? then
      if ch == ' ' then Keep(c, ValueData)
      else if !IsNum(ch) || (ULLONG_MAX - 10) / 10 < c.length then Fail(c, InvalidContentLength)
      else Keep(c.(length := (c.length * 10 + Digit(ch)) % TWO_TO_THE_64), ValueData)
    else if c.hs.MatchChunked? then
      Keep(c.(index := j, hs := Match("chunked", j, b, c.hs, TransferChunked, General)), ValueData)
    else if c.hs.TokenStart? then
      var hs :=
        if b == 'k' || b == 'c' || b == 'u' || IsToken(b) then ConnectionStart(b)
        else if b == ' ' || b == '\t' then c.hs else General;
      Keep(c.(hs := hs), ValueData)
    else if c.hs.MatchKeepAlive? then
      Keep(c.(index := j, hs := Match("keep-alive", j, b, c.hs, ConnKeepAlive, ConnToken)), ValueData)
    else if c.hs.MatchClose? then
      Keep(c.(index := j, hs := Match("close", j, b, c.hs, ConnClose, ConnToken)), ValueData)
    else if c.hs.MatchConnUpgrade? then
      Keep(c.(index := j, hs := Match("upgrade", j, b, c.hs, ConnUpgrade, ConnToken)), ValueData)
    else if c.hs.ConnToken? then Keep(if ch == ',' then c.(hs := TokenStart, index := 0) else c, ValueData)
    else if c.hs.TransferChunked? then Keep(if ch != ' ' then c.(hs := General) else c, ValueData)
    else if c.hs.ConnKeepAlive? then ConnectionWordEnd(c, ch)
    else if c.hs.ConnClose? then ConnectionWordEnd(c, ch)
    else if c.hs.ConnUpgrade? then ConnectionWordEnd(c, ch)
    else if c.hs.General? then Keep(c, ValueData)
    else if c.hs.HConnection? then Keep(c, ValueData)
    else if c.hs.HTransfer? then Keep(c, ValueData)
    else Keep(c.(hs := General), ValueData)
  }

  /** After a whole keyword of a `Connection` list: a comma commits its flag. */
  function ConnectionWordEnd(c: Core, ch: char): Act {
    if ch == ',' then Keep(c.(flags := Commit(c.flags, c.hs), hs := TokenStart, index := 0), ValueData)
    else if ch != ' ' then Keep(c.(hs := ConnToken), ValueData)
    else Keep(c, ValueData)
  }

  function NameStep(c: Core, ch: char): Act {
    if c.state.HeaderFieldStart? then
      if ch == CR then Next(c.(state := HeadersAlmostDone))
      else if ch == LF then Again(c.(state := HeadersAlmostDone))
      else if !IsToken(ch) then Fail(c, InvalidHeaderToken)
      else Mark(c.(index := 0, state := HeaderField, hs := FieldStart(ch)), FieldData)
    else // s_header_field
      if IsToken(ch) then
        var (hs, i) := FieldChar(c.hs, c.index, ch);
        Keep(c.(hs := hs, index := i), FieldData)
      else if ch == ':' then FlushNext(c.(state := ValueDiscardWs), FieldData)
      else Fail(c, InvalidHeaderToken)
  }

  function ValueStep(c: Core, ch: char): Act {
    if c.state.ValueDiscardWs? then
      if ch == ' ' || ch == '\t' then Next(c)
      else if ch == CR then Next(c.(state := ValueDiscardWsAlmostDone))
      else if ch == LF then Next(c.(state := ValueDiscardLws))
      else ValueStartStep(c, ch)
    else if c.state.ValueStart? then ValueStartStep(c, ch)
    else if c.state.HeaderValue? then
      if ch == CR then FlushNext(c.(state := HeaderAlmostDone), ValueData)
      else if ch == LF then FlushAgain(c.(state := HeaderAlmostDone), ValueData)
      else ValueChar(c, ch)
    else if c.state.HeaderAlmostDone? then Expect(c, ch, LF, ValueLws)
    else if c.state.ValueLws? then
      if ch == ' ' || ch == '\t' then Again(c.(state := ValueStart))
      else Again(c.(flags := Commit(c.flags, c.hs), state := HeaderFieldStart))
    else if c.state.ValueDiscardWsAlmostDone? then Expect(c, ch, LF, ValueDiscardLws)
    else // s_header_value_discard_lws
      if ch == ' ' || ch == '\t' then Next(c.(state := ValueDiscardWs))
      else EmptyAgain(c.(flags := Commit(c.flags, c.hs), state := HeaderFieldStart), ValueData)
  }

  function HeadersEndStep(c: Core, ch: char): Act {
    if ch != LF then Fail(c, Strict)
    else if c.state.HeadersAlmostDone? then
      if c.flags.trailing then NotifyAgain(c.(state := MessageDone), ChunkComplete)
      else
        HeadersAgain(c.(state := HeadersDone, upgrade := (c.flags.upgrade && c.flags.connUpgrade) || c.verb.CONNECT?))
    else // s_headers_done
      var hasBody := c.flags.chunked || (c.length > 0 && c.length != ULLONG_MAX);
      var done := c.(state := NewMessage(c));
      if c.upgrade && (c.verb.CONNECT? || c.flags.skipBody || !hasBody) then NotifyExit(done, MessageComplete)
      else if c.flags.skipBody then NotifyNext(done, MessageComplete)
      else if c.flags.chunked then Next(c.(state := ChunkSizeStart))
      else if c.length == 0 then NotifyNext(done, MessageComplete)
      else if c.length != ULLONG_MAX then Next(c.(state := BodyIdentity))
      else if !NeedsEof(c) then NotifyNext(done, MessageComplete)
      else Next(c.(state := BodyIdentityEof))
  }

  /** The body states, one byte at a time. */
  function BodyStep(c: Core, ch: char): Act {
    if c.state.BodyIdentity? then
      if c.length <= 1 then LastAgain(c.(length := 0, state := MessageDone), BodyData)
      else Mark(c.(length := c.length - 1), BodyData)
    else if c.state.BodyIdentityEof? then Mark(c, BodyData)
    else if c.state.MessageDone? then
      var done := c.(state := NewMessage(c));
      if c.upgrade then NotifyExit(done, MessageComplete) else NotifyNext(done, MessageComplete)
    else if c.state.ChunkData? then
      if c.length <= 1 then Mark(c.(length := 0, state := ChunkDataAlmostDone), BodyData)
      else Mark(c.(length := c.length - 1), BodyData)
    else if c.state.ChunkDataAlmostDone? then
      if ch != CR then Fail(c, Strict) else FlushNext(c.(state := ChunkDataDone), BodyData)
    else // s_chunk_data_done
      if ch != LF then Fail(c, Strict) else NotifyNext(c.(state := ChunkSizeStart), ChunkComplete)
  }

  function ChunkSizeStep(c: Core, ch: char): Act {
    if c.state.ChunkSizeStart? then
      if Unhex(ch) == -1 then Fail(c, InvalidChunkSize) else Next(c.(length := Unhex(ch), state := ChunkSize))
    else if c.state.ChunkSize? then
      if ch == CR then Next(c.(state := ChunkSizeAlmostDone))
      else if Unhex(ch) == -1 then
        if ch == ';' || ch == ' ' then Next(c.(state := ChunkParameters)) else Fail(c, InvalidChunkSize)
      else if (ULLONG_MAX - 16) / 16 < c.length then Fail(c, InvalidContentLength)
      else Next(c.(length := (c.length * 16 + Unhex(ch)) % TWO_TO_THE_64))
    else if c.state.ChunkParameters? then
      if ch == CR then Next(c.(state := ChunkSizeAlmostDone)) else Next(c)
    else // s_chunk_size_almost_done
      if ch != LF then Fail(c, Strict)
      else if c.length == 0 then
        NotifyNext(c.(flags := c.flags.(trailing := true), state := HeaderFieldStart), ChunkHeader(0))
      else NotifyNext(c.(state := ChunkData), ChunkHeader(c.length))
  }

  datatype Group =
    | StartGroup | MethodGroup | ResponseGroup | UrlGroup | RequestGroup
    | NameGroup | ValueGroup | EndGroup | BodyGroup | ChunkGroup

  function GroupOf(s: State): Group {
    if s.Dead? || s.StartReqOrRes? || s.ResOrRespH? || s.StartRes? || s.StartReq? then StartGroup
    else if
      || s.ResH? || s.ResHT? || s.ResHTT? || s.ResHTTP? || s.ResFirstMajor? || s.ResMajor? || s.ResFirstMinor?
      || s.ResMinor? || s.ResFirstStatusCode? || s.ResStatusCode? || s.ResStatusStart? || s.ResStatus?
      || s.ResLineAlmostDone?
    then ResponseGroup
    else if s.ReqMethod? then MethodGroup
    else if
      || s.SpacesBeforeUrl? || s.Schema? || s.SchemaSlash? || s.SchemaSlashSlash? || s.ServerStart? || s.Server?
      || s.ServerWithAt? || s.Path? || s.QueryStart? || s.Query? || s.FragmentStart? || s.Fragment?
    then UrlGroup
    else if
      || s.ReqHttpStart? || s.ReqH? || s.ReqHT? || s.ReqHTT? || s.ReqHTTP? || s.ReqFirstMajor? || s.ReqMajor?
      || s.ReqFirstMinor? || s.ReqMinor? || s.ReqLineAlmostDone?
    then RequestGroup
    else if s.HeadersAlmostDone? || s.HeadersDone? then EndGroup
    else if s.ChunkSizeStart? || s.ChunkSize? || s.ChunkParameters? || s.ChunkSizeAlmostDone? then ChunkGroup
    else if
      || s.ChunkData? || s.ChunkDataAlmostDone? || s.ChunkDataDone? || s.BodyIdentity? || s.BodyIdentityEof?
      || s.MessageDone?
    then BodyGroup
    else if s.HeaderFieldStart? || s.HeaderField? then NameGroup
    else ValueGroup
  }

  /** The `switch` of `http_parser_execute`. */
  function Switch(c: Core, ch: char): Act {
    match GroupOf(c.state)
    case StartGroup => StartStep(c, ch)
    case MethodGroup => MethodStep(c, ch)
    case ResponseGroup => ResponseLineStep(c, ch)
    case UrlGroup => UrlStep(c, ch)
    case RequestGroup => RequestLineStep(c, ch)
    case NameGroup => NameStep(c, ch)
    case ValueGroup => ValueStep(c, ch)
    case EndGroup => HeadersEndStep(c, ch)
    case BodyGroup => BodyStep(c, ch)
    case ChunkGroup => ChunkSizeStep(c, ch)
  }

  // ----- traces -----

  /** A trace lists events with adjacent data events of one kind merged. */
  type Trace = seq<Event>

  function Emit(t: Trace, e: Event): Trace {
    if e.Data? && t != [] && t[|t| - 1].Data? && t[|t| - 1].kind == e.kind
    then t[..|t| - 1] + [Data(e.kind, t[|t| - 1].bytes + e.bytes)]
    else t + [e]
  }

  /** The trace of a list of callback invocations. */
  function Merge(log: seq<Event>): Trace {
    if log == [] then [] else Emit(Merge(log[..|log| - 1]), log[|log| - 1])
  }

  // ----- the byte-by-byte meaning -----

  datatype Control = Advance | Stay | Stop | Err(errno: Errno)

  datatype Micro = Micro(c: Core, t: Trace, ctl: Control)

  /** The answer of on_headers_complete, 1 meaning that the message has no body, from what has been reported so far. */
  type SkipPolicy = Trace -> bool

  function AfterHeaders(c: Core, skip: bool): Core {
    if skip then c.(flags := c.flags.(skipBody := true)) else c
  }

  function HeadersEvent(c: Core): Event {
    HeadersComplete(c.length, c.flags.chunked, c.verb.CONNECT?)
  }

  /** The effect of an `Act` when each data byte is delivered as it is read. */
  function Deliver(a: Act, t: Trace, ch: char, skip: SkipPolicy): Micro {
    match a
    case Next(d) => Micro(d, t, Advance)
    case Mark(d, k) => Micro(d, Emit(t, Data(k, [ch])), Advance)
    case Keep(d, k) => Micro(d, Emit(t, Data(k, [ch])), Advance)
    case FlushNext(d, k) => Micro(d, t, Advance)
    case FlushAgain(d, k) => Micro(d, t, Stay)
    case EmptyAgain(d, k) => Micro(d, Emit(t, Data(k, [])), Stay)
    case LastAgain(d, k) => Micro(d, Emit(t, Data(k, [ch])), Stay)
    case Again(d) => Micro(d, t, Stay)
    case NotifyNext(d, e) => Micro(d, Emit(t, e), Advance)
    case NotifyExit(d, e) => Micro(d, Emit(t, e), Stop)
    case NotifyAgain(d, e) => Micro(d, Emit(t, e), Stay)
    case HeadersAgain(d) =>
      var u := Emit(t, HeadersEvent(d));
      Micro(AfterHeaders(d, skip(u)), u, Stay)
    case Fail(d, errno) => Micro(d, t, Err(errno))
  }

  /** One pass through the `switch`. */
  function Tick(c: Core, t: Trace, ch: char, skip: SkipPolicy): Micro {
    Deliver(Switch(c, ch), t, ch, skip)
  }

  /** A state rank that every `goto reexecute` lowers. */
  function Rank(s: State): nat {
    if s.StartReqOrRes? || s.HeaderValue? || s.BodyIdentity? || s.HeadersAlmostDone? then 1
    else if s.HeaderFieldStart? then 2
    else if s.ValueLws? || s.ValueDiscardLws? then 3
    else 0
  }

  datatype Holder = Nobody | Holds(k: DataKind)

  /** The data a state is in the middle of, if any. */
  function KindOf(s: State): Holder {
    if s.HeaderField? then Holds(FieldData)
    else if s.HeaderValue? then Holds(ValueData)
    else if s.ResStatus? then Holds(StatusData)
    else if s.BodyIdentity? || s.BodyIdentityEof? || s.ChunkData? || s.ChunkDataAlmostDone? then Holds(BodyData)
    else if InnerUrl(s) || s.Schema? || s.SchemaSlash? || s.SchemaSlashSlash? || s.ServerStart? then Holds(UrlData)
    else Nobody
  }

  /** Runs that are always marked: a call that starts inside one starts by setting its mark. */
  predicate AlwaysMarked(h: Holder) {
    h.Holds? && !h.k.BodyData?
  }

  predicate Sticky(s: State) {
    AlwaysMarked(KindOf(s))
  }

  /** States that restart the header byte counter. */
  predicate ResetsCount(s: State) {
    s.HeadersDone? || s.ChunkSizeAlmostDone? || s.ChunkDataDone?
  }

  /** How each macro moves between the states that own a mark. */
  predicate Shape(c: Core, a: Act) {
    && StateShape(c.state, a)
    && (a.HeadersAgain? || a.Fail? || a.c.upgrade == c.upgrade)
    && (a.Fail? || (a.c.state.ChunkSizeStart? ==> ResetsCount(c.state) && (a.Next? || a.NotifyNext?)))
  }

  predicate StateShape(s: State, a: Act) {
    match a
    case Next(d) => KindOf(s).Nobody? && !Sticky(d.state)
    case Mark(d, k) => (KindOf(s).Nobody? || KindOf(s) == Holds(k)) && !Sticky(s) && KindOf(d.state) == Holds(k)
    case Keep(d, k) => KindOf(s) == Holds(k) && Sticky(s) && KindOf(d.state) == Holds(k)
    case FlushNext(d, k) => KindOf(s) == Holds(k) && KindOf(d.state).Nobody?
    case FlushAgain(d, k) => KindOf(s) == Holds(k) && KindOf(d.state).Nobody? && Rank(d.state) < Rank(s)
    case EmptyAgain(d, k) => KindOf(s).Nobody? && KindOf(d.state).Nobody? && Rank(d.state) < Rank(s)
    case LastAgain(d, k) => KindOf(s) == Holds(k) && !Sticky(s) && KindOf(d.state).Nobody? && Rank(d.state) < Rank(s)
    case Again(d) => KindOf(s).Nobody? && KindOf(d.state).Nobody? && Rank(d.state) < Rank(s)
    case NotifyNext(d, e) => KindOf(s).Nobody? && !Sticky(d.state) && !e.Data? && (e.MessageComplete? ==> !d.upgrade)
    case NotifyExit(d, e) => KindOf(s).Nobody? && KindOf(d.state).Nobody? && e.MessageComplete? && d.upgrade
    case NotifyAgain(d, e) => KindOf(s).Nobody? && KindOf(d.state).Nobody? && Rank(d.state) < Rank(s) &&
      e.ChunkComplete?
    case HeadersAgain(d) => KindOf(s).Nobody? && KindOf(d.state).Nobody? && Rank(d.state) < Rank(s)
    case Fail(d, errno) => !(errno.OK? || errno.Paused? || errno.Callback? || errno.HeaderOverflow?)
  }

  predicate Stays(c: Core, a: Act) {
    a.Fail? || (a.Next? && a.c == c.(major := a.c.major, minor := a.c.minor, status := a.c.status))
  }

  /** A further digit of a version or status is refused or leaves everything but that number as it is. */
  lemma VersionStays(c: Core, ch: char)
    ensures Stays(c, MajorStep(c, ch)) && Stays(c, MinorStep(c, ch)) && Stays(c, CodeStep(c, ch))
    ensures MajorStep(c, ch).c.status == MinorStep(c, ch).c.status == c.status
  {
    hide IsNum, Digit;
  }

  predicate InStatusLine(s: State) {
    GroupOf(s).ResponseGroup?
  }

  /** A byte of a status line is refused or taken, and leads on. */
  predicate StatusLeads(c: Core, a: Act) {
    || a.Fail?
    || (&& a.c == c.(major := a.c.major, minor := a.c.minor, status := a.c.status, index := a.c.index,
                     state := a.c.state)
        && (InStatusLine(a.c.state) || a.c.state.HeaderFieldStart?)
        && (if c.state.ResStatus? then
              || (a.Keep? && a.k == StatusData && a.c.state.ResStatus?)
              || (a.FlushNext? && (a.c.state.ResLineAlmostDone? || a.c.state.HeaderFieldStart?))
            else
              || (a.Mark? && a.k == StatusData && a.c.state.ResStatus? && c.state.ResStatusStart?)
              || (a.Next? && a.c.state.HeaderFieldStart?)
              || (a.Next? && InStatusLine(a.c.state) && !a.c.state.ResStatus?
                  && (c.state.ResLineAlmostDone? ==> a.c.state.ResLineAlmostDone?))))
  }

  /** The digits of a status code. */
  predicate InCode(s: State) {
    s.ResFirstStatusCode? || s.ResStatusCode?
  }

  predicate InPhrase(s: State) {
    s.ResStatusStart? || s.ResStatus? || s.ResLineAlmostDone?
  }

  predicate InReplyProtocol(s: State) {
    s.ResH? || s.ResHT? || s.ResHTT? || s.ResHTTP?
  }

  predicate InReplyVersion(s: State) {
    s.ResFirstMajor? || s.ResMajor? || s.ResFirstMinor? || s.ResMinor?
  }

  lemma ReplyProtocolActs(c: Core, ch: char)
    requires InReplyProtocol(c.state)
    ensures StatusLeads(c, ResponseLineStep(c, ch))
  {
    hide MajorStep, MinorStep, CodeStep;
  }

  lemma ReplyVersionActs(c: Core, ch: char)
    requires InReplyVersion(c.state)
    ensures StatusLeads(c, ResponseLineStep(c, ch))
  {
    hide IsNum, Digit, MajorStep, MinorStep, CodeStep;
    VersionStays(c, ch);
  }

  lemma CodeActs(c: Core, ch: char)
    requires InCode(c.state)
    ensures StatusLeads(c, ResponseLineStep(c, ch))
  {
    hide IsNum, Digit, MajorStep, MinorStep, CodeStep;
    VersionStays(c, ch);
  }

  lemma PhraseActs(c: Core, ch: char)
    requires InPhrase(c.state)
    ensures StatusLeads(c, ResponseLineStep(c, ch))
  {
    hide IsNum, Digit, MajorStep, MinorStep, CodeStep;
  }

  lemma ResponseActs(c: Core, ch: char)
    requires InStatusLine(c.state)
    ensures StatusLeads(c, ResponseLineStep(c, ch))
  {
    hide ResponseLineStep, StatusLeads;
    if InCode(c.state) {
      CodeActs(c, ch);
    } else if InPhrase(c.state) {
      PhraseActs(c, ch);
    } else if InReplyProtocol(c.state) {
      ReplyProtocolActs(c, ch);
    } else {
      ReplyVersionActs(c, ch);
    }
  }

  /** A byte of the protocol and version is refused or taken, and leads on. */
  predicate LeadsOn(c: Core, a: Act) {
    a.Fail? || (a.Next? && a.c == c.(major := a.c.major, minor := a.c.minor, state := a.c.state)
                && (GroupOf(a.c.state).RequestGroup? || a.c.state.HeaderFieldStart?))
  }

  predicate InProtocol(s: State) {
    s.ReqHttpStart? || s.ReqH? || s.ReqHT? || s.ReqHTT? || s.ReqHTTP?
  }

  predicate InVersion(s: State) {
    s.ReqFirstMajor? || s.ReqMajor? || s.ReqFirstMinor? || s.ReqMinor? || s.ReqLineAlmostDone?
  }

  lemma ProtocolActs(c: Core, ch: char)
    requires InProtocol(c.state)
    ensures LeadsOn(c, RequestLineStep(c, ch))
  {
    hide MajorStep, MinorStep;
  }

  lemma VersionActs(c: Core, ch: char)
    requires InVersion(c.state)
    ensures LeadsOn(c, RequestLineStep(c, ch))
  {
    hide IsNum, Digit, MajorStep, MinorStep;
    VersionStays(c, ch);
  }

  lemma RequestActs(c: Core, ch: char)
    requires GroupOf(c.state).RequestGroup?
    ensures LeadsOn(c, RequestLineStep(c, ch))
  {
    hide RequestLineStep, LeadsOn;
    if InProtocol(c.state) {
      ProtocolActs(c, ch);
    } else {
      VersionActs(c, ch);
    }
  }

  /** The URL automaton does not leave the URL but by an error. */
  lemma UrlCharKind(s: State, ch: char)
    requires GroupOf(s).UrlGroup?
    ensures var r := ParseUrlChar(s, ch); r.Dead? || KindOf(r) == Holds(UrlData)
  {
  }

  lemma UrlShape(c: Core, ch: char)
    requires GroupOf(c.state).UrlGroup?
    ensures Shape(c, UrlStep(c, ch))
  {
    hide ParseUrlChar;
    UrlCharKind(if c.state.SpacesBeforeUrl? && c.verb.CONNECT? then ServerStart else c.state, ch);
  }

  lemma ValueCharShape(c: Core, ch: char)
    requires c.state.HeaderValue?
    ensures Shape(c, ValueChar(c, ch))
  {
    var a := ValueChar(c, ch);
    assert a.Keep? || a.Fail?;
    assert a.Keep? ==> a.k == ValueData && a.c.state == HeaderValue;
  }

  lemma ValueStartShape(c: Core, ch: char)
    requires c.state.ValueStart? || c.state.ValueDiscardWs?
    ensures Shape(c, ValueStartStep(c, ch))
  {
    var a := ValueStartStep(c, ch);
    assert a.Mark? || a.Fail?;
    assert a.Mark? ==> a.k == ValueData && a.c.state == HeaderValue;
  }

  lemma ValueShape(c: Core, ch: char)
    requires GroupOf(c.state).ValueGroup?
    ensures Shape(c, ValueStep(c, ch))
  {
    hide ValueChar, ValueStartStep;
    if c.state.HeaderValue? {
      ValueCharShape(c, ch);
    } else if c.state.ValueStart? || c.state.ValueDiscardWs? {
      ValueStartShape(c, ch);
    } else {
    }
  }

  lemma NameShape(c: Core, ch: char)
    requires GroupOf(c.state).NameGroup?
    ensures Shape(c, NameStep(c, ch))
  {
  }

  lemma NewMessageIsQuiet(c: Core)
    ensures KindOf(NewMessage(c)).Nobody?
  {
  }

  lemma EndShape(c: Core, ch: char)
    requires GroupOf(c.state).EndGroup?
    ensures Shape(c, HeadersEndStep(c, ch))
  {
    NewMessageIsQuiet(c);
  }

  lemma BodyShape(c: Core, ch: char)
    requires GroupOf(c.state).BodyGroup?
    ensures Shape(c, BodyStep(c, ch))
  {
    NewMessageIsQuiet(c);
  }

  lemma ResponseShape(c: Core, ch: char)
    requires GroupOf(c.state).ResponseGroup?
    ensures Shape(c, ResponseLineStep(c, ch))
  {
    if c.state.ResStatus? || c.state.ResStatusStart? {
    } else {
      var a := ResponseLineStep(c, ch);
      assert a.Fail? || (a.Next? && a.c.upgrade == c.upgrade);
    }
  }

  lemma RequestShape(c: Core, ch: char)
    requires GroupOf(c.state).RequestGroup?
    ensures Shape(c, RequestLineStep(c, ch))
  {
  }

  lemma MethodShape(c: Core, ch: char)
    requires GroupOf(c.state).MethodGroup?
    ensures Shape(c, MethodStep(c, ch))
  {
    var a := MethodStep(c, ch);
    assert a.Next? || a.Fail?;
    assert a.Next? ==> a.c.state == ReqMethod || a.c.state == SpacesBeforeUrl;
  }

  lemma StartShape(c: Core, ch: char)
    requires GroupOf(c.state).StartGroup?
    ensures Shape(c, StartStep(c, ch))
  {
  }

  lemma ChunkShape(c: Core, ch: char)
    requires GroupOf(c.state).ChunkGroup?
    ensures Shape(c, ChunkSizeStep(c, ch))
  {
  }

  lemma SwitchShape(c: Core, ch: char)
    ensures Shape(c, Switch(c, ch))
  {
    match GroupOf(c.state)
    case StartGroup => StartShape(c, ch);
    case MethodGroup => MethodShape(c, ch);
    case ResponseGroup => ResponseShape(c, ch);
    case UrlGroup => UrlShape(c, ch);
    case RequestGroup => RequestShape(c, ch);
    case NameGroup => NameShape(c, ch);
    case ValueGroup => ValueShape(c, ch);
    case EndGroup => EndShape(c, ch);
    case BodyGroup => BodyShape(c, ch);
    case ChunkGroup => ChunkShape(c, ch);
  }

  lemma ReexecuteLowersRank(c: Core, t: Trace, ch: char, skip: SkipPolicy)
    ensures Tick(c, t, ch, skip).ctl.Stay? ==> Rank(Tick(c, t, ch, skip).c.state) < Rank(c.state)
  {
    SwitchShape(c, ch);
  }

  datatype Halt = Running | Upgraded | Failed(errno: Errno)

  datatype Final = Final(c: Core, t: Trace, left: string, halt: Halt)

  /** The whole stream, byte by byte, until it is used up, fails, or switches to another protocol. */
  function Run(c: Core, t: Trace, input: string, skip: SkipPolicy): Final
    decreases |input|, Rank(c.state)
  {
    if input == "" then Final(c, t, "", Running)
    else
      var m := Tick(c, t, input[0], skip);
      ReexecuteLowersRank(c, t, input[0], skip);
      match m.ctl
      case Advance => Run(m.c, m.t, input[1..], skip)
      case Stay => Run(m.c, m.t, input, skip)
      case Stop => Final(m.c, m.t, input[1..], Upgraded)
      case Err(errno) => Final(m.c, m.t, input, Failed(errno))
  }

  /** What one pass through the `switch` leaves to be done. */
  function Continue(m: Micro, input: string, skip: SkipPolicy): Final
    requires input != ""
  {
    match m.ctl
    case Advance => Run(m.c, m.t, input[1..], skip)
    case Stay => Run(m.c, m.t, input, skip)
    case Stop => Final(m.c, m.t, input[1..], Upgraded)
    case Err(errno) => Final(m.c, m.t, input, Failed(errno))
  }

  lemma RunUnfold(c: Core, t: Trace, input: string, skip: SkipPolicy, a: Act)
    requires input != "" && a == Switch(c, input[0])
    ensures Run(c, t, input, skip) == Continue(Deliver(a, t, input[0], skip), input, skip)
  {
    assert Tick(c, t, input[0], skip) == Deliver(a, t, input[0], skip);
  }

  /** Feeding a stream in two parts: the second part continues where the first one left the machine. */
  lemma {:induction false} RunConcat(c: Core, t: Trace, x: string, y: string, skip: SkipPolicy)
    ensures var r := Run(c, t, x, skip);
            Run(c, t, x + y, skip) == if r.halt.Running? then Run(r.c, r.t, y, skip) else r.(left := r.left + y)
    decreases |x|, Rank(c.state)
  {
    if x == "" {
      assert x + y == y;
    } else {
      var m := Tick(c, t, x[0], skip);
      ReexecuteLowersRank(c, t, x[0], skip);
      assert (x + y)[0] == x[0] && (x + y)[1..] == x[1..] + y;
      match m.ctl
      case Advance => RunConcat(m.c, m.t, x[1..], y, skip);
      case Stay => RunConcat(m.c, m.t, x, y, skip);
      case Stop =>
      case Err(_) =>
    }
  }
}
