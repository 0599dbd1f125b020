/**
 What the parser refuses, and with which error: every state outside methods, URLs, lengths and chunk sizes, whose words
 and numbers have laws of their own, wants one of a few bytes.
 */
module HttpRefusals {
  import opened HttpChars
  import opened HttpMachine

  /** Exactly the bytes that are not wanted are refused. */
  predicate Refuses(c: Core, ch: char, wanted: bool, errno: Errno) {
    if wanted then !Switch(c, ch).Fail? else Switch(c, ch) == Fail(Switch(c, ch).c, errno)
  }

  /** The states behind a CR, and the end of the headers. */
  predicate WantsLf(s: State) {
    || s.ResLineAlmostDone? || s.HeaderAlmostDone? || s.ValueDiscardWsAlmostDone? || s.HeadersAlmostDone?
    || s.HeadersDone? || s.ChunkSizeAlmostDone? || s.ChunkDataDone?
  }

  lemma LineEnds(c: Core, ch: char)
    ensures WantsLf(c.state) ==> Refuses(c, ch, ch == '\n', Strict)
    ensures c.state.ReqLineAlmostDone? ==> Refuses(c, ch, ch == '\n', LfExpected)
    ensures c.state.ChunkDataAlmostDone? ==> Refuses(c, ch, ch == '\r', Strict)
  {
  }

  /** Between messages: letters that begin a method, the H of HTTP, and line ends; after the last one only these. */
  lemma Starts(c: Core, ch: char)
    ensures c.state.Dead? ==> Refuses(c, ch, ch == '\r' || ch == '\n', ClosedConnection)
    ensures c.state.StartRes? ==> Refuses(c, ch, ch == 'H' || ch == '\r' || ch == '\n', InvalidConstant)
    ensures c.state.StartReq? ==>
      Refuses(c, ch, ch == '\r' || ch == '\n' || ch in "ABCDGHLMNOPRSTU", InvalidMethod)
    ensures c.state.StartReqOrRes? ==> Refuses(c, ch, true, OK)
    ensures c.state.ResOrRespH? ==> Refuses(c, ch, ch == 'T' || ch == 'E', InvalidConstant)
  {
    hide NameStep, ValueStep, HeadersEndStep, BodyStep, ChunkSizeStep, UrlStep, MethodStep;
  }

  lemma ProtocolNames(c: Core, ch: char)
    ensures c.state.ResH? || c.state.ReqH? || c.state.ResHT? || c.state.ReqHT? ==> Refuses(c, ch, ch == 'T', Strict)
    ensures c.state.ResHTT? || c.state.ReqHTT? ==> Refuses(c, ch, ch == 'P', Strict)
    ensures c.state.ResHTTP? || c.state.ReqHTTP? ==> Refuses(c, ch, ch == '/', Strict)
    ensures c.state.ReqHttpStart? ==> Refuses(c, ch, ch == 'H' || ch == ' ', InvalidConstant)
  {
    hide MajorStep, MinorStep, CodeStep, StartStep, NameStep, ValueStep, HeadersEndStep, BodyStep, ChunkSizeStep,
      UrlStep, MethodStep;
  }

  /** A further digit of a number that stays below 1000. */
  predicate Continues(n: nat, ch: char) {
    '0' <= ch <= '9' && n * 10 + (ch as int - '0' as int) < 1000
  }

  lemma Versions(c: Core, ch: char)
    ensures c.state.ReqFirstMajor? ==> Refuses(c, ch, '1' <= ch <= '9', InvalidVersion)
    ensures c.state.ResFirstMajor? || c.state.ResFirstMinor? || c.state.ReqFirstMinor? ==>
      Refuses(c, ch, '0' <= ch <= '9', InvalidVersion)
    ensures c.state.ResMajor? || c.state.ReqMajor? ==>
      Refuses(c, ch, ch == '.' || Continues(c.major, ch), InvalidVersion)
    ensures c.state.ResMinor? ==> Refuses(c, ch, ch == ' ' || Continues(c.minor, ch), InvalidVersion)
    ensures c.state.ReqMinor? ==>
      Refuses(c, ch, ch == '\r' || ch == '\n' || Continues(c.minor, ch), InvalidVersion)
  {
    hide CodeStep, StartStep, NameStep, ValueStep, HeadersEndStep, BodyStep, ChunkSizeStep, UrlStep, MethodStep;
  }

  lemma StatusCodes(c: Core, ch: char)
    ensures c.state.ResFirstStatusCode? ==> Refuses(c, ch, ch == ' ' || '0' <= ch <= '9', InvalidStatus)
    ensures c.state.ResStatusCode? ==>
      Refuses(c, ch, ch == ' ' || ch == '\r' || ch == '\n' || Continues(c.status, ch), InvalidStatus)
    ensures c.state.ResStatusStart? || c.state.ResStatus? ==> Refuses(c, ch, true, OK)
  {
    hide MajorStep, MinorStep, StartStep, NameStep, ValueStep, HeadersEndStep, BodyStep, ChunkSizeStep, UrlStep,
      MethodStep, RequestLineStep;
  }

  /** In names tokens and the colon; values are refused only as lengths. */
  lemma Headers(c: Core, ch: char)
    ensures c.state.HeaderFieldStart? ==>
      Refuses(c, ch, ch == '\r' || ch == '\n' || IsToken(ch), InvalidHeaderToken)
    ensures c.state.HeaderField? ==> Refuses(c, ch, ch == ':' || IsToken(ch), InvalidHeaderToken)
    ensures c.state.ValueDiscardWs? || c.state.ValueStart? || c.state.HeaderValue? ==>
      Switch(c, ch).Fail? ==> c.hs.HLength? && Switch(c, ch).errno == InvalidContentLength
    ensures c.state.ValueLws? || c.state.ValueDiscardLws? ==> Refuses(c, ch, true, OK)
  {
    hide StartStep, HeadersEndStep, BodyStep, ChunkSizeStep, UrlStep, MethodStep, RequestLineStep, ResponseLineStep,
      FieldChar, FieldStart, Lower, Match, Commit, ConnectionStart;
  }

  /** Body bytes are never refused, and of a chunk only its size and its line ends. */
  lemma Bodies(c: Core, ch: char)
    ensures c.state.BodyIdentity? || c.state.BodyIdentityEof? || c.state.ChunkData? || c.state.MessageDone? ==>
      Refuses(c, ch, true, OK)
    ensures c.state.ChunkParameters? ==> Refuses(c, ch, true, OK)
    ensures c.state.ChunkSizeStart? ==> Refuses(c, ch, Unhex(ch) != -1, InvalidChunkSize)
  {
    hide StartStep, HeadersEndStep, UrlStep, MethodStep, RequestLineStep, ResponseLineStep, NameStep, ValueStep,
      NewMessage;
  }
}
