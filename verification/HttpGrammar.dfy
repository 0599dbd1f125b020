/**
 The language of callback traces, with the byte counts of bodies and chunks. A request parser reports

   message   = begin url+ (field+ value+)* headers_complete content message_complete
   content   = nothing | body+ | (chunk_header body+ chunk_complete)* chunk_header (field+ value+)* chunk_complete

 where the bodies add up to the Content-Length that on_headers_complete can read, respectively to the chunk
 size that on_chunk_header can read. A response parser reports begin+ status* in place of begin url+, since leading line
 ends cause message_begin too, and may have a body that runs to the end of the stream. A parser for both kinds reports
 either.
 */
module HttpGrammar {
  import opened HttpChars
  import opened HttpMachine
  import opened HttpInvariants
  import opened HttpRuns

  /** How far a trace has got in the grammar. */
  datatype Place =
    | Idle                                                  // between messages
    | Begun | InUrl | InStatus
    | InField(trailer: bool) | InValueOf(trailer: bool)
    | Headed(length: nat, chunked: bool, exempt: bool)      // after headers_complete
    | InBody(length: nat, got: nat) | InEof                 // InEof: a body up to the end of the stream
    | ChunkOpen(length: nat) | InChunkBody(length: nat, got: nat) | ChunkClosed
    | Trailer                                               // after the chunk_header of size 0
    | ContentDone                                           // after the last chunk_complete
    | Bad

  /** What a parser of this kind can see. */
  predicate Asks(who: Kind) {
    !who.Response?
  }

  predicate Replies(who: Kind) {
    !who.Request?
  }

  /** A message without a body: none was declared, or the application or CONNECT makes it go without. */
  predicate Bodiless(g: Place)
    requires g.Headed?
  {
    g.exempt || (!g.chunked && (g.length == 0 || g.length == ULLONG_MAX))
  }

  /** A first line is complete. */
  predicate Opened(who: Kind, g: Place) {
    (Asks(who) && g.InUrl?) || (Replies(who) && (g.Begun? || g.InStatus?))
  }

  /** A response without a declared length may go on to the end of the stream. */
  predicate Endless(who: Kind, g: Place) {
    g.InEof? || (Replies(who) && g.Headed? && !g.exempt && !g.chunked && g.length == ULLONG_MAX)
  }

  function DataPlace(who: Kind, g: Place, k: DataKind, n: nat): Place {
    if k.UrlData? && Asks(who) && (g.Begun? || g.InUrl?) then InUrl
    else if k.StatusData? && Replies(who) && (g.Begun? || g.InStatus?) then InStatus
    else if k.FieldData? && (Opened(who, g) || g == InField(false) || g == InValueOf(false)) then InField(false)
    else if k.FieldData? && (g.Trailer? || g == InField(true) || g == InValueOf(true)) then InField(true)
    else if k.ValueData? && (g.InField? || g.InValueOf?) then InValueOf(g.trailer)
    else if k.BodyData? then BodyPlace(who, g, n)
    else Bad
  }

  function BodyPlace(who: Kind, g: Place, n: nat): Place {
    if Endless(who, g) then InEof
    else if g.Headed? && !g.chunked && !Bodiless(g) && n <= g.length then InBody(g.length, n)
    else if g.InBody? && g.got + n <= g.length then InBody(g.length, g.got + n)
    else if g.ChunkOpen? && n <= g.length then InChunkBody(g.length, n)
    else if g.InChunkBody? && g.got + n <= g.length then InChunkBody(g.length, g.got + n)
    else Bad
  }

  /** One event; `skip` is the answer of on_headers_complete. */
  function Follow(who: Kind, g: Place, e: Event, skip: bool): Place {
    match e
    case Data(k, bytes) => DataPlace(who, g, k, |bytes|)
    case MessageBegin => if g.Idle? || (Replies(who) && g.Begun?) then Begun else Bad
    case HeadersComplete(n, chunked, connect) =>
      if Opened(who, g) || g == InValueOf(false) then Headed(n, chunked, connect || skip) else Bad
    case ChunkHeader(n) =>
      if !((g.Headed? && g.chunked && !g.exempt) || g.ChunkClosed?) then Bad
      else if n == 0 then Trailer
      else ChunkOpen(n)
    case ChunkComplete =>
      if g.InChunkBody? && g.got == g.length then ChunkClosed
      else if g.Trailer? || g == InValueOf(true) then ContentDone
      else Bad
    case MessageComplete =>
      if (g.Headed? && Bodiless(g)) || (g.InBody? && g.got == g.length) || g.ContentDone? then Idle else Bad
  }

  /** The place a trace has reached; `Bad` is final, so a trace that is not `Bad` is in the grammar at every prefix. */
  function Parse(who: Kind, t: Trace, skip: SkipPolicy): Place {
    if t == [] then Idle else Follow(who, Parse(who, t[..|t| - 1], skip), t[|t| - 1], skip(t))
  }

  /** Delivering data in one piece or two is the same to the grammar. */
  lemma DataTwice(who: Kind, g: Place, k: DataKind, m: nat, n: nat)
    ensures DataPlace(who, DataPlace(who, g, k, m), k, n) == DataPlace(who, g, k, m + n)
  {
    hide BodyPlace, Endless;
    BodyTwice(who, g, m, n);
  }

  lemma BodyTwice(who: Kind, g: Place, m: nat, n: nat)
    ensures BodyPlace(who, BodyPlace(who, g, m), n) == BodyPlace(who, g, m + n)
  {
  }

  lemma ParseEmit(who: Kind, t: Trace, e: Event, skip: SkipPolicy)
    ensures Parse(who, Emit(t, e), skip) == Follow(who, Parse(who, t, skip), e, skip(Emit(t, e)))
  {
    hide DataPlace;
    var u := Emit(t, e);
    assert u[..|u| - 1] == if |u| == |t| then t[..|t| - 1] else t;
    if |u| == |t| {
      DataTwice(who, Parse(who, t[..|t| - 1], skip), e.kind, |t[|t| - 1].bytes|, |e.bytes|);
    }
  }

  // ----- states and places -----

  /** Before the headers are complete no flag of the body is set. */
  predicate Fresh(c: Core) {
    !c.flags.trailing && !c.flags.skipBody
  }

  predicate InStart(s: State) {
    s.Dead? || s.StartReqOrRes? || s.ResOrRespH? || s.StartRes? || s.StartReq?
  }

  predicate InRequestLine(s: State) {
    GroupOf(s).RequestGroup? || (GroupOf(s).UrlGroup? && !s.SpacesBeforeUrl?)
  }

  predicate InChunkSize(s: State) {
    s.ChunkSizeStart? || s.ChunkSize? || s.ChunkParameters? || s.ChunkSizeAlmostDone?
  }

  predicate InContent(s: State) {
    || s.HeadersDone? || s.BodyIdentity? || s.BodyIdentityEof? || s.MessageDone? || InChunkSize(s) || s.ChunkData?
    || s.ChunkDataAlmostDone? || s.ChunkDataDone?
  }

  predicate AtStart(c: Core, g: Place) {
    if c.state.Dead? then g.Idle? && !c.kind.Both?
    else if c.state.StartReq? then g.Idle? && c.kind.Request?
    else if c.state.StartRes? then (g.Idle? || g.Begun?) && c.kind.Response?
    else if c.state.StartReqOrRes? then g.Idle? && c.kind.Both?
    else g.Begun? && c.kind.Both? && Fresh(c)
  }

  /** The first line and the headers. */
  predicate AtHead(c: Core, g: Place) {
    && !c.flags.skipBody
    && (if InName(c.state) then g == InField(c.flags.trailing)
        else if InValue(c.state) then g == InValueOf(c.flags.trailing)
        else if c.flags.trailing then
          (c.state.HeaderFieldStart? || c.state.HeadersAlmostDone?) && (g.Trailer? || g == InValueOf(true))
        else if c.state.HeaderFieldStart? || c.state.HeadersAlmostDone? then Opened(c.kind, g) || g == InValueOf(false)
        else if c.kind.Response? then
          GroupOf(c.state).ResponseGroup? &&
          if c.state.ResStatus? then g.InStatus?
          else if c.state.ResLineAlmostDone? then g.Begun? || g.InStatus?
          else g.Begun?
        else if c.state.ReqMethod? || c.state.SpacesBeforeUrl? then g.Begun?
        else InRequestLine(c.state) && g.InUrl?)
  }

  /** From the end of the headers on. */
  predicate AtContent(c: Core, g: Place) {
    if c.state.HeadersDone? then
      && !c.flags.trailing && (c.verb.CONNECT? ==> c.upgrade)
      && g == Headed(c.length, c.flags.chunked, c.verb.CONNECT? || c.flags.skipBody)
    else if c.state.MessageDone? then (g.InBody? && g.got == g.length) || g.ContentDone?
    else
      && Fresh(c)
      && (if c.state.BodyIdentity? then
            || (g.Headed? && !g.chunked && !Bodiless(g) && g.length == c.length)
            || (g.InBody? && g.got + c.length == g.length)
          else if c.state.BodyIdentityEof? then c.kind.Response? && Endless(Response, g)
          else if InChunkSize(c.state) then (g.Headed? && g.chunked && !g.exempt) || g.ChunkClosed?
          else if c.state.ChunkData? then
            (g.ChunkOpen? && g.length == c.length) || (g.InChunkBody? && g.got + c.length == g.length)
          else g.InChunkBody? && g.got == g.length)
  }

  /** The place in the grammar of `who` that belongs to a state of such a parser. */
  predicate At(who: Kind, c: Core, g: Place) {
    && (who.Both? || who == c.kind)
    && if InStart(c.state) then AtStart(c, g)
       else !c.kind.Both? && if InContent(c.state) then AtContent(c, g) else AtHead(c, g)
  }

  /** The place after an `Act` fits the state after it. */
  predicate Arrives(who: Kind, a: Act, g: Place) {
    if a.Fail? then true
    else if a.Next? || a.Again? || a.FlushNext? || a.FlushAgain? then At(who, a.c, g)
    else if a.Mark? || a.Keep? || a.LastAgain? then At(who, a.c, DataPlace(who, g, a.k, 1))
    else if a.EmptyAgain? then At(who, a.c, DataPlace(who, g, a.k, 0))
    else if a.HeadersAgain? then
      && At(who, AfterHeaders(a.c, true), Follow(who, g, HeadersEvent(a.c), true))
      && At(who, AfterHeaders(a.c, false), Follow(who, g, HeadersEvent(a.c), false))
    else At(who, a.c, Follow(who, g, a.e, false)) && !a.e.HeadersComplete? && !a.e.Data?
  }

  lemma StartArrives(who: Kind, c: Core, ch: char, g: Place)
    requires At(who, c, g) && InStart(c.state)
    ensures Arrives(who, StartStep(c, ch), g)
  {
    hide FirstGuess, At, InStart, DataPlace;
    var a := StartStep(c, ch);
    AtFirst(who, c, g);
    AtFirst(who, a.c, g);
    AtFirst(who, a.c, Begun);
  }

  /** `At`, spelt out for the states before the first line and those that follow them. */
  lemma AtFirst(who: Kind, c: Core, g: Place)
    ensures InStart(c.state) ==> (At(who, c, g) <==> (who.Both? || who == c.kind) && AtStart(c, g))
    ensures (who.Both? || who == c.kind) && Fresh(c) && g.Begun? ==>
      && (c.state.ReqMethod? && c.kind.Request? ==> At(who, c, g))
      && ((c.state.ResH? || c.state.ResHT?) && c.kind.Response? ==> At(who, c, g))
    ensures InStart(c.state) <==>
      c.state.Dead? || c.state.StartReqOrRes? || c.state.ResOrRespH? || c.state.StartRes? || c.state.StartReq?
  {
    hide AtContent;
  }

  lemma MethodArrives(who: Kind, c: Core, ch: char, g: Place)
    requires At(who, c, g) && c.state.ReqMethod?
    ensures Arrives(who, MethodStep(c, ch), g)
  {
    hide NextGuess, MethodString, AtContent, AtStart, DataPlace;
  }

  /** `At`, spelt out for the first line of a message. */
  lemma AtLine(who: Kind, c: Core, g: Place)
    ensures InRequestLine(c.state) ==>
      (At(who, c, g) <==> (who.Both? || who == c.kind) && c.kind.Request? && Fresh(c) && g.InUrl?)
    ensures InStatusLine(c.state) ==>
      (At(who, c, g) <==>
        && (who.Both? || who == c.kind) && c.kind.Response? && Fresh(c)
        && if c.state.ResStatus? then g.InStatus?
           else if c.state.ResLineAlmostDone? then g.Begun? || g.InStatus?
           else g.Begun?)
    ensures c.state.HeaderFieldStart? && (who.Both? || who == c.kind) && !c.kind.Both? && Fresh(c) ==>
      Opened(c.kind, g) ==> At(who, c, g)
  {
    RequestLineStates(c.state);
    StatusLineStates(c.state);
  }

  lemma RequestLineStates(s: State)
    ensures InRequestLine(s) ==> !InStart(s) && !InContent(s) && !InStatusLine(s)
    ensures InRequestLine(s) ==>
      !InName(s) && !InValue(s) && !s.HeaderFieldStart? && !s.HeadersAlmostDone? && !s.ReqMethod? && !s.SpacesBeforeUrl?
  {
    NotElsewhere(s);
  }

  lemma StatusLineStates(s: State)
    ensures InStatusLine(s) ==> !InStart(s) && !InContent(s)
    ensures InStatusLine(s) ==>
      !InName(s) && !InValue(s) && !s.HeaderFieldStart? && !s.HeadersAlmostDone? && !s.ReqMethod? && !s.SpacesBeforeUrl?
  {
    NotElsewhere(s);
  }

  /** The groups of the states that belong to no first line. */
  lemma NotElsewhere(s: State)
    ensures InStart(s) ==> GroupOf(s).StartGroup?
    ensures InContent(s) ==> GroupOf(s).EndGroup? || GroupOf(s).BodyGroup? || GroupOf(s).ChunkGroup?
  {
  }

  lemma ResponseArrives(who: Kind, c: Core, ch: char, g: Place)
    requires At(who, c, g) && InStatusLine(c.state)
    ensures Arrives(who, ResponseLineStep(c, ch), g)
  {
    hide ResponseLineStep, At, InStatusLine, InRequestLine, GroupOf, Follow;
    var a := ResponseLineStep(c, ch);
    ResponseActs(c, ch);
    AtLine(who, c, g);
    if !a.Fail? {
      AtLine(who, a.c, g);
      AtLine(who, a.c, InStatus);
    }
  }

  lemma RequestArrives(who: Kind, c: Core, ch: char, g: Place)
    requires At(who, c, g) && GroupOf(c.state).RequestGroup?
    ensures Arrives(who, RequestLineStep(c, ch), g)
  {
    hide RequestLineStep, At, Follow, DataPlace;
    var a := RequestLineStep(c, ch);
    RequestActs(c, ch);
    AtLine(who, c, g);
    if !a.Fail? {
      AtLine(who, a.c, g);
    }
  }

  lemma UrlLands(c: Core, ch: char)
    requires GroupOf(c.state).UrlGroup? && !(c.state.SpacesBeforeUrl? && ch == ' ')
    ensures var a := UrlStep(c, ch);
      a.Fail? || (
      && (a.Mark? || a.Keep? || (a.FlushNext? && !c.state.SpacesBeforeUrl?))
      && a.k == UrlData && a.c.kind == c.kind && a.c.flags == c.flags
      && (InRequestLine(a.c.state) || a.c.state.HeaderFieldStart?))
  {
    UrlShape(c, ch);
  }

  lemma AtSpaces(who: Kind, c: Core, g: Place)
    requires c.state.SpacesBeforeUrl? && At(who, c, g)
    ensures (who.Both? || who == c.kind) && c.kind.Request? && Fresh(c) && g.Begun?
  {
  }

  lemma UrlArrives(who: Kind, c: Core, ch: char, g: Place)
    requires At(who, c, g) && GroupOf(c.state).UrlGroup?
    ensures Arrives(who, UrlStep(c, ch), g)
  {
    if !(c.state.SpacesBeforeUrl? && ch == ' ') {
      hide At, UrlStep, GroupOf, Follow;
      if c.state.SpacesBeforeUrl? {
        AtSpaces(who, c, g);
      } else {
        UrlIsLine(c.state);
        AtLine(who, c, g);
      }
      UrlLands(c, ch);
      var a := UrlStep(c, ch);
      if !a.Fail? {
        AtLine(who, a.c, InUrl);
      }
    }
  }

  lemma UrlIsLine(s: State)
    requires GroupOf(s).UrlGroup? && !s.SpacesBeforeUrl?
    ensures InRequestLine(s)
  {
  }

  // ----- headers -----

  /** `At`, spelt out for the headers. */
  lemma AtValue(who: Kind, c: Core, g: Place)
    ensures InValue(c.state) ==>
      (At(who, c, g) <==>
        (who.Both? || who == c.kind) && !c.kind.Both? && !c.flags.skipBody && g == InValueOf(c.flags.trailing))
    ensures InName(c.state) ==>
      (At(who, c, g) <==>
        (who.Both? || who == c.kind) && !c.kind.Both? && !c.flags.skipBody && g == InField(c.flags.trailing))
    ensures c.state.HeaderFieldStart? || c.state.HeadersAlmostDone? ==>
      (At(who, c, g) <==>
        && (who.Both? || who == c.kind) && !c.kind.Both? && !c.flags.skipBody
        && if c.flags.trailing then g.Trailer? || g == InValueOf(true) else Opened(c.kind, g) || g == InValueOf(false))
  {
  }

  lemma NameArrives(who: Kind, c: Core, ch: char, g: Place)
    requires At(who, c, g) && GroupOf(c.state).NameGroup?
    ensures Arrives(who, NameStep(c, ch), g)
  {
    hide FieldChar, FieldStart, At, Follow;
    var a := NameStep(c, ch);
    AtValue(who, c, g);
    AtValue(who, a.c, g);
    if a.Mark? || a.Keep? {
      AtValue(who, a.c, DataPlace(who, g, FieldData, 1));
    }
  }

  lemma ValueStartArrives(who: Kind, c: Core, ch: char, g: Place)
    requires At(who, c, g) && (c.state.ValueStart? || c.state.ValueDiscardWs?)
    ensures Arrives(who, ValueStartStep(c, ch), g)
  {
    hide At, Follow, ConnectionStart, Lower;
    var a := ValueStartStep(c, ch);
    AtValue(who, c, g);
    AtValue(who, a.c, DataPlace(who, g, ValueData, 1));
  }

  lemma ValueCharArrives(who: Kind, c: Core, ch: char, g: Place)
    requires At(who, c, g) && c.state.HeaderValue?
    ensures Arrives(who, ValueChar(c, ch), g)
  {
    hide ValueChar, At, Follow;
    ValueCharKeeps(c, ch);
    var a := ValueChar(c, ch);
    AtValue(who, c, g);
    if !a.Fail? {
      AtValue(who, a.c, g);
    }
  }

  lemma LineEndArrives(who: Kind, c: Core, ch: char, g: Place)
    requires At(who, c, g) && (c.state.HeaderAlmostDone? || c.state.ValueDiscardWsAlmostDone?)
    ensures Arrives(who, ValueStep(c, ch), g)
  {
    hide ValueChar, ValueStartStep, At, Follow, DataPlace;
    AtValue(who, c, g);
    AtValue(who, ValueStep(c, ch).c, g);
  }

  lemma FoldArrives(who: Kind, c: Core, ch: char, g: Place)
    requires At(who, c, g) && c.state.ValueLws?
    ensures Arrives(who, ValueStep(c, ch), g)
  {
    hide ValueChar, ValueStartStep, At, Follow, DataPlace;
    AtValue(who, c, g);
    AtValue(who, ValueStep(c, ch).c, g);
  }

  lemma EmptyValueArrives(who: Kind, c: Core, ch: char, g: Place)
    requires At(who, c, g) && c.state.ValueDiscardLws?
    ensures Arrives(who, ValueStep(c, ch), g)
  {
    hide ValueChar, ValueStartStep, At, Follow;
    var a := ValueStep(c, ch);
    AtValue(who, c, g);
    AtValue(who, a.c, g);
    AtValue(who, a.c, DataPlace(who, g, ValueData, 0));
  }

  lemma ValueArrives(who: Kind, c: Core, ch: char, g: Place)
    requires At(who, c, g) && GroupOf(c.state).ValueGroup?
    ensures Arrives(who, ValueStep(c, ch), g)
  {
    hide ValueChar, ValueStartStep, At, Follow, DataPlace;
    AtValue(who, c, g);
    AtValue(who, ValueStep(c, ch).c, g);
    if c.state.HeaderValue? {
      ValueCharArrives(who, c, ch, g);
    } else if c.state.ValueStart? || c.state.ValueDiscardWs? {
      ValueStartArrives(who, c, ch, g);
    } else if c.state.HeaderAlmostDone? || c.state.ValueDiscardWsAlmostDone? {
      LineEndArrives(who, c, ch, g);
    } else if c.state.ValueLws? {
      FoldArrives(who, c, ch, g);
    } else {
      EmptyValueArrives(who, c, ch, g);
    }
  }

  // ----- the content -----

  lemma NewMessageAt(who: Kind, c: Core)
    requires (who.Both? || who == c.kind) && !c.kind.Both?
    ensures At(who, c.(state := NewMessage(c)), Idle)
  {
  }

  lemma AtEnd(who: Kind, c: Core, g: Place)
    ensures InContent(c.state) ==> (At(who, c, g) <==> (who.Both? || who == c.kind) && !c.kind.Both? && AtContent(c, g))
  {
  }

  lemma HeadersAlmostDoneArrives(who: Kind, c: Core, ch: char, g: Place)
    requires At(who, c, g) && c.state.HeadersAlmostDone?
    ensures Arrives(who, HeadersEndStep(c, ch), g)
  {
    hide At, DataPlace, NewMessage;
    var a := HeadersEndStep(c, ch);
    AtValue(who, c, g);
    if a.NotifyAgain? {
      AtEnd(who, a.c, ContentDone);
    } else if a.HeadersAgain? {
      AtEnd(who, AfterHeaders(a.c, true), Follow(who, g, HeadersEvent(a.c), true));
      AtEnd(who, AfterHeaders(a.c, false), Follow(who, g, HeadersEvent(a.c), false));
    }
  }

  lemma HeadersDoneArrives(who: Kind, c: Core, ch: char, g: Place)
    requires At(who, c, g) && c.state.HeadersDone?
    ensures Arrives(who, HeadersEndStep(c, ch), g)
  {
    hide NewMessage, At, DataPlace;
    var a := HeadersEndStep(c, ch);
    AtEnd(who, c, g);
    AtEnd(who, a.c, g);
    NewMessageAt(who, c);
  }

  lemma IdentityArrives(who: Kind, c: Core, ch: char, g: Place)
    requires At(who, c, g) && CoreInv(c) && (c.state.BodyIdentity? || c.state.MessageDone? || c.state.BodyIdentityEof?)
    ensures Arrives(who, BodyStep(c, ch), g)
  {
    hide NewMessage, At, InName, InValue;
    var a := BodyStep(c, ch);
    AtEnd(who, c, g);
    AtEnd(who, a.c, DataPlace(who, g, BodyData, 1));
    NewMessageAt(who, c);
  }

  lemma ChunkDataArrives(who: Kind, c: Core, ch: char, g: Place)
    requires At(who, c, g) && CoreInv(c) &&
      (c.state.ChunkData? || c.state.ChunkDataAlmostDone? || c.state.ChunkDataDone?)
    ensures Arrives(who, BodyStep(c, ch), g)
  {
    hide NewMessage, At, InName, InValue;
    var a := BodyStep(c, ch);
    AtEnd(who, c, g);
    AtEnd(who, a.c, g);
    AtEnd(who, a.c, DataPlace(who, g, BodyData, 1));
    AtEnd(who, a.c, ChunkClosed);
  }

  lemma ChunkArrives(who: Kind, c: Core, ch: char, g: Place)
    requires At(who, c, g) && GroupOf(c.state).ChunkGroup?
    ensures Arrives(who, ChunkSizeStep(c, ch), g)
  {
    hide At, DataPlace, Unhex;
    var a := ChunkSizeStep(c, ch);
    AtEnd(who, c, g);
    AtEnd(who, a.c, g);
    if a.NotifyNext? {
      AtEnd(who, a.c, Follow(who, g, a.e, false));
      AtValue(who, a.c, Trailer);
    }
  }

  lemma SwitchArrives(who: Kind, c: Core, ch: char, g: Place)
    requires At(who, c, g) && CoreInv(c)
    ensures Arrives(who, Switch(c, ch), g)
  {
    hide StartStep, MethodStep, ResponseLineStep, UrlStep, RequestLineStep, NameStep, ValueStep, HeadersEndStep,
      BodyStep, ChunkSizeStep, Arrives, At, CoreInv;
    match GroupOf(c.state)
    case StartGroup => StartArrives(who, c, ch, g);
    case MethodGroup => MethodArrives(who, c, ch, g);
    case ResponseGroup => ResponseArrives(who, c, ch, g);
    case UrlGroup => UrlArrives(who, c, ch, g);
    case RequestGroup => RequestArrives(who, c, ch, g);
    case NameGroup => NameArrives(who, c, ch, g);
    case ValueGroup => ValueArrives(who, c, ch, g);
    case EndGroup =>
      if c.state.HeadersDone? {
        HeadersDoneArrives(who, c, ch, g);
      } else {
        HeadersAlmostDoneArrives(who, c, ch, g);
      }
    case BodyGroup =>
      if c.state.BodyIdentity? || c.state.MessageDone? || c.state.BodyIdentityEof? {
        IdentityArrives(who, c, ch, g);
      } else {
        ChunkDataArrives(who, c, ch, g);
      }
    case ChunkGroup => ChunkArrives(who, c, ch, g);
  }

  lemma DeliverArrives(who: Kind, a: Act, t: Trace, ch: char, skip: SkipPolicy)
    requires Arrives(who, a, Parse(who, t, skip))
    ensures var m := Deliver(a, t, ch, skip); m.ctl.Err? || At(who, m.c, Parse(who, m.t, skip))
  {
    hide At, Emit, Parse, DataPlace;
    var g := Parse(who, t, skip);
    if a.Mark? || a.Keep? || a.LastAgain? {
      ParseEmit(who, t, Data(a.k, [ch]), skip);
    } else if a.EmptyAgain? {
      ParseEmit(who, t, Data(a.k, []), skip);
    } else if a.HeadersAgain? {
      ParseEmit(who, t, HeadersEvent(a.c), skip);
    } else if a.NotifyNext? || a.NotifyExit? || a.NotifyAgain? {
      ParseEmit(who, t, a.e, skip);
      SkipMatters(who, g, a.e, skip(Emit(t, a.e)));
    }
  }

  lemma SkipMatters(who: Kind, g: Place, e: Event, skip: bool)
    requires !e.HeadersComplete?
    ensures Follow(who, g, e, skip) == Follow(who, g, e, false)
  {
  }

  lemma AtIsGood(who: Kind, c: Core, g: Place)
    requires At(who, c, g)
    ensures !g.Bad?
  {
  }

  /**
   Every trace of a parser of any kind is in its grammar, and bodies and chunks add up to their announced sizes.
   */
  lemma {:induction false} TraceGrammar(who: Kind, c: Core, t: Trace, input: string, skip: SkipPolicy)
    requires CoreInv(c) && At(who, c, Parse(who, t, skip))
    ensures var r := Run(c, t, input, skip);
            && !Parse(who, r.t, skip).Bad?
            && (!r.halt.Failed? ==> At(who, r.c, Parse(who, r.t, skip)))
    decreases |input|, Rank(c.state)
  {
    hide At, Parse, Switch, Rank, CoreInv, Arrives;
    AtIsGood(who, c, Parse(who, t, skip));
    if input != "" {
      var m := Tick(c, t, input[0], skip);
      SwitchArrives(who, c, input[0], Parse(who, t, skip));
      DeliverArrives(who, Switch(c, input[0]), t, input[0], skip);
      TickCore(c, t, input[0], skip);
      ReexecuteLowersRank(c, t, input[0], skip);
      FailKeepsTrace(Switch(c, input[0]), t, input[0], skip);
      match m.ctl
      case Advance => TraceGrammar(who, m.c, m.t, input[1..], skip);
      case Stay => TraceGrammar(who, m.c, m.t, input, skip);
      case Stop => AtIsGood(who, m.c, Parse(who, m.t, skip));
      case Err(_) =>
    }
  }

  lemma FailKeepsTrace(a: Act, t: Trace, ch: char, skip: SkipPolicy)
    ensures Deliver(a, t, ch, skip).ctl.Err? ==> Deliver(a, t, ch, skip).t == t
  {
  }

  /** A new parser is between messages. */
  lemma InitialAt(who: Kind, skip: SkipPolicy)
    ensures CoreInv(Initial(who)) && At(who, Initial(who), Parse(who, [], skip))
  {
  }

  lemma BadStays(who: Kind, g: Place, e: Event, skip: bool)
    ensures g.Bad? ==> Follow(who, g, e, skip).Bad?
  {
  }

  /** In a trace in the grammar every prefix is in the grammar. */
  lemma {:induction false} PrefixesParse(who: Kind, t: Trace, skip: SkipPolicy, n: nat)
    requires n <= |t| && !Parse(who, t, skip).Bad?
    ensures !Parse(who, t[..n], skip).Bad?
    decreases |t|
  {
    hide Follow;
    if n < |t| {
      BadStays(who, Parse(who, t[..|t| - 1], skip), t[|t| - 1], skip(t));
      PrefixesParse(who, t[..|t| - 1], skip, n);
      assert t[..|t| - 1][..n] == t[..n];
    } else {
      assert t[..n] == t;
    }
  }

  /** Every beginning of a trace in the grammar is in it, also one that breaks off inside a piece of data. */
  lemma BelowParse(who: Kind, t: Trace, u: Trace, skip: SkipPolicy)
    requires Below(t, u) && !Parse(who, u, skip).Bad?
    ensures !Parse(who, t, skip).Bad?
  {
    hide DataPlace;
    if t != [] {
      var i := |t| - 1;
      var v := u[..|t|];
      PrefixesParse(who, u, skip, |t|);
      assert v[..i] == t[..i] && t[..i] + [t[i]] == t && v[i] == u[i];
      if t[i] == u[i] {
        assert v == t;
      } else {
        DataShorter(who, Parse(who, t[..i], skip), t[i].kind, |t[i].bytes|, |u[i].bytes|);
      }
    }
  }

  lemma DataShorter(who: Kind, g: Place, k: DataKind, m: nat, n: nat)
    requires m <= n && !DataPlace(who, g, k, n).Bad?
    ensures !DataPlace(who, g, k, m).Bad?
  {
  }

  // ----- every trace in the grammar can be completed -----

  /** What places are reached at all. */
  predicate Reachable(who: Kind, g: Place) {
    && (g.InUrl? ==> Asks(who)) && ((g.InStatus? || g.InEof?) ==> Replies(who))
    && (g.InBody? || g.InChunkBody? ==> g.got <= g.length)
  }

  lemma {:induction false} ParseReachable(who: Kind, t: Trace, skip: SkipPolicy)
    ensures Reachable(who, Parse(who, t, skip))
  {
    if t != [] {
      ParseReachable(who, t[..|t| - 1], skip);
    }
  }

  function Fill(n: nat): (s: string)
    ensures |s| == n
  {
    seq(n, i => 'x')
  }

  /** An event on the way to the end of the message. */
  function Onward(who: Kind, g: Place): Event {
    if g.Begun? && Asks(who) then Data(UrlData, "/")
    else if g.Begun? || g.InUrl? || g.InStatus? || g == InValueOf(false) then HeadersComplete(0, false, false)
    else if g.InField? then Data(ValueData, "")
    else if g.Headed? && !Bodiless(g) then if g.chunked then ChunkHeader(0) else Data(BodyData, Fill(g.length))
    else if (g.InBody? || g.InChunkBody?) && g.got < g.length then Data(BodyData, Fill(g.length - g.got))
    else if g.ChunkOpen? then Data(BodyData, Fill(g.length))
    else if g.InChunkBody? || g.Trailer? || g == InValueOf(true) then ChunkComplete
    else if g.ChunkClosed? then ChunkHeader(0)
    else MessageComplete
  }

  function Distance(g: Place): nat {
    if g.Idle? then 0
    else if g.ContentDone? || (g.Headed? && Bodiless(g)) || (g.InBody? && g.got == g.length) then 1
    else if g.InBody? || g.Trailer? || g == InValueOf(true) then 2
    else if g == InField(true) || g.ChunkClosed? || g.Headed? then 3
    else if g.InChunkBody? && g.got == g.length then 4
    else if g.InUrl? || g.InStatus? || g == InValueOf(false) || g.InChunkBody? then 5
    else 6
  }

  lemma OnwardNearer(who: Kind, g: Place, skip: bool)
    requires Reachable(who, g) && !g.Idle? && !g.Bad? && !g.InEof?
    ensures var h := Follow(who, g, Onward(who, g), skip); !h.Bad? && !h.InEof? && Distance(h) < Distance(g)
  {
  }

  /**
   The place of a trace when the stream has ended: then, and only then, message_complete may follow a body without a
   declared length.
   */
  function ParseEnded(who: Kind, t: Trace, skip: SkipPolicy): Place {
    if t != [] && t[|t| - 1].MessageComplete? && Endless(who, Parse(who, t[..|t| - 1], skip)) then Idle
    else Parse(who, t, skip)
  }

  lemma EndlessEnds(who: Kind, t: Trace, skip: SkipPolicy)
    requires Endless(who, Parse(who, t, skip))
    ensures ParseEnded(who, t + [MessageComplete], skip).Idle?
  {
    hide Parse, Endless;
    assert (t + [MessageComplete])[..|t|] == t;
  }

  /** Every trace in the grammar is a prefix of that of a stream of whole messages. */
  lemma {:induction false} Completable(who: Kind, t: Trace, skip: SkipPolicy)
    requires !Parse(who, t, skip).Bad?
    ensures exists u :: t <= u && ParseEnded(who, u, skip).Idle?
    decreases Distance(Parse(who, t, skip))
  {
    hide Follow, Onward, Distance, ParseEnded;
    var g := Parse(who, t, skip);
    if g.Idle? {
      IdleEnded(who, t, skip);
      assert t <= t;
    } else if g.InEof? {
      EndlessEnds(who, t, skip);
      assert t <= t + [MessageComplete];
    } else {
      var u := t + [Onward(who, g)];
      assert u[..|u| - 1] == t;
      ParseReachable(who, t, skip);
      OnwardNearer(who, g, skip(u));
      Completable(who, u, skip);
      var v :| u <= v && ParseEnded(who, v, skip).Idle?;
      assert t <= v;
    }
  }

  lemma IdleEnded(who: Kind, t: Trace, skip: SkipPolicy)
    requires Parse(who, t, skip).Idle?
    ensures ParseEnded(who, t, skip).Idle?
  {
    hide Parse;
  }

  // ----- what the byte counts say -----

  predicate IsBody(e: Event) {
    e.Data? && e.kind.BodyData?
  }

  /** Adjacent data events of one kind are merged. */
  ghost predicate Merged(t: Trace) {
    forall i | 0 < i < |t| :: !(t[i - 1].Data? && t[i].Data? && t[i - 1].kind == t[i].kind)
  }

  lemma {:induction false} MergeIsMerged(log: seq<Event>)
    ensures Merged(Merge(log))
  {
    if log != [] {
      MergeIsMerged(log[..|log| - 1]);
    }
  }

  /** Every finished body of the trace has the length announced for it. */
  ghost predicate Accounted(t: Trace) {
    forall i | 0 <= i < |t| - 1 && IsBody(t[i]) ::
      && i > 0
      && (t[i + 1].MessageComplete? ==>
           t[i - 1].HeadersComplete? && t[i - 1].length == |t[i].bytes| && !t[i - 1].chunked)
      && (t[i + 1].ChunkComplete? ==> t[i - 1] == ChunkHeader(|t[i].bytes|))
  }

  lemma AllAccounted(who: Kind, t: Trace, skip: SkipPolicy)
    requires Merged(t) && !Parse(who, t, skip).Bad?
    ensures Accounted(t)
  {
    hide Parse;
    forall i | 0 <= i < |t| - 1 && IsBody(t[i])
      ensures i > 0
      ensures t[i + 1].MessageComplete? ==>
        t[i - 1].HeadersComplete? && t[i - 1].length == |t[i].bytes| && !t[i - 1].chunked
      ensures t[i + 1].ChunkComplete? ==> t[i - 1] == ChunkHeader(|t[i].bytes|)
    {
      PrefixesParse(who, t, skip, i + 2);
      BodiesAddUp(who, t[..i + 2], skip);
    }
  }

  lemma PlaceOfLast(who: Kind, t: Trace, skip: SkipPolicy)
    requires t != []
    ensures Parse(who, t, skip).InBody? || Parse(who, t, skip).InChunkBody? || Parse(who, t, skip).InEof? ==>
      IsBody(t[|t| - 1])
    ensures Parse(who, t, skip).Headed? ==>
      && t[|t| - 1].HeadersComplete? && t[|t| - 1].length == Parse(who, t, skip).length
      && t[|t| - 1].chunked == Parse(who, t, skip).chunked
    ensures Parse(who, t, skip).ChunkOpen? ==> t[|t| - 1] == ChunkHeader(Parse(who, t, skip).length)
  {
  }

  /**
   Body accounting, read off a merged trace in the grammar of requests, responses or both: a body that ends a message
   has as many bytes as the Content-Length of the headers before it, a body that ends a chunk has as many as its chunk
   header says, and a body still being read has not more.
   */
  lemma BodiesAddUp(who: Kind, t: Trace, skip: SkipPolicy)
    requires Merged(t) && |t| >= 2 && !Parse(who, t, skip).Bad? && IsBody(t[|t| - 2])
    ensures |t| >= 3
    ensures t[|t| - 1].MessageComplete? ==>
              t[|t| - 3].HeadersComplete? && t[|t| - 3].length == |t[|t| - 2].bytes| && !t[|t| - 3].chunked
    ensures t[|t| - 1].ChunkComplete? ==> t[|t| - 3] == ChunkHeader(|t[|t| - 2].bytes|)
  {
    hide DataPlace;
    var u := t[..|t| - 1];
    var v := u[..|u| - 1];
    var n := |t[|t| - 2].bytes|;
    assert u[|u| - 1] == t[|t| - 2];
    assert Parse(who, u, skip) == DataPlace(who, Parse(who, v, skip), BodyData, n);
    if v != [] {
      assert v[|v| - 1] == t[|t| - 3];
      PlaceOfLast(who, v, skip);
    }
    BodyFollows(who, Parse(who, v, skip), n, t[|t| - 1], skip(t));
  }

  lemma BodyFollows(who: Kind, g: Place, n: nat, e: Event, skip: bool)
    requires !Follow(who, DataPlace(who, g, BodyData, n), e, skip).Bad?
    ensures !g.Idle?
    ensures e.MessageComplete? ==> (g.Headed? && g.length == n && !g.chunked) || g.InBody?
    ensures e.ChunkComplete? ==> (g.ChunkOpen? && g.length == n) || g.InChunkBody?
  {
  }

  /** A body under way: not more than declared, or one that runs to the end of the stream. */
  lemma BodyUnderWay(who: Kind, t: Trace, skip: SkipPolicy)
    requires Merged(t) && t != [] && !Parse(who, t, skip).Bad? && IsBody(t[|t| - 1])
    ensures |t| >= 2
    ensures var n := |t[|t| - 1].bytes|; var e := t[|t| - 2];
      || (e.HeadersComplete? && !e.chunked && (n <= e.length || (Replies(who) && e.length == ULLONG_MAX)))
      || (e.ChunkHeader? && n <= e.length)
  {
    hide DataPlace;
    var v := t[..|t| - 1];
    var n := |t[|t| - 1].bytes|;
    assert Parse(who, t, skip) == DataPlace(who, Parse(who, v, skip), BodyData, n);
    BodyStarts(who, Parse(who, v, skip), n);
    if v != [] {
      assert v[|v| - 1] == t[|t| - 2];
      PlaceOfLast(who, v, skip);
    }
  }

  /** The headers of a message without a declared length. */
  predicate Unbounded(e: Event) {
    e.HeadersComplete? && e.length == ULLONG_MAX && !e.chunked
  }

  /** A message that may go on to the end of the stream has headers without a length, and at most one piece of body. */
  lemma EndlessHeads(who: Kind, t: Trace, skip: SkipPolicy)
    requires Merged(t) && Endless(who, Parse(who, t, skip))
    ensures t != []
    ensures Unbounded(t[|t| - 1]) || (|t| >= 2 && IsBody(t[|t| - 1]) && Unbounded(t[|t| - 2]))
  {
    hide DataPlace, Follow;
    var v := t[..|t| - 1];
    PlaceOfLast(who, t, skip);
    if Parse(who, t, skip).InEof? {
      FromEndless(who, Parse(who, v, skip), t[|t| - 1], skip(t));
      assert v[..|v|] == v;
      PlaceOfLast(who, v, skip);
      assert v[|v| - 1] == t[|t| - 2];
    }
  }

  lemma FromEndless(who: Kind, g: Place, e: Event, skip: bool)
    requires Follow(who, g, e, skip).InEof?
    ensures Endless(who, g) && IsBody(e) && !g.Idle?
  {
  }

  /** When the stream has ended: all bodies are accounted for, but that of a last message without a declared length. */
  ghost predicate AccountedEnded(t: Trace) {
    || Accounted(t)
    || (&& |t| >= 2 && t[|t| - 1].MessageComplete? && Accounted(t[..|t| - 1])
        && (Unbounded(t[|t| - 2]) || (|t| >= 3 && IsBody(t[|t| - 2]) && Unbounded(t[|t| - 3]))))
  }

  /** The trace of a stream that has ended. */
  lemma EndedAccounted(who: Kind, t: Trace, skip: SkipPolicy)
    requires Merged(t) && !Parse(who, t, skip).Bad?
    ensures Accounted(t) && AccountedEnded(t)
    ensures Endless(who, Parse(who, t, skip)) ==> Merged(t + [MessageComplete]) && AccountedEnded(t + [MessageComplete])
  {
    hide Parse, Endless, Accounted;
    AllAccounted(who, t, skip);
    if Endless(who, Parse(who, t, skip)) {
      EndlessHeads(who, t, skip);
      assert (t + [MessageComplete])[..|t|] == t;
    }
  }

  lemma BodyStarts(who: Kind, g: Place, n: nat)
    requires !DataPlace(who, g, BodyData, n).Bad?
    ensures !g.Idle?
    ensures || g.InBody? || g.InChunkBody? || g.InEof?
            || (g.Headed? && !g.chunked && (n <= g.length || (Replies(who) && g.length == ULLONG_MAX)))
            || (g.ChunkOpen? && n <= g.length)
  {
  }
}
