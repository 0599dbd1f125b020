/**
 Whole streams through the parser object: traces of every kind of parser are in its grammar with all bodies accounted
 for, and a printed response comes back as it was, however the stream is cut and wherever callbacks pause.
 */
module HttpStreams {
  import opened HttpChars
  import opened HttpMachine
  import opened HttpInvariants
  import opened HttpCounting
  import opened HttpRuns
  import opened HttpParsing
  import opened HttpFeeding
  import opened HttpGrammar
  import opened HttpRecognisers
  import opened HttpPrinting

  /**
   Whatever a parser has been fed, and however that ended, what it has reported is in its grammar: also after a parse
   error, a refused callback or a header overflow.
   */
  lemma FedGrammar(who: Kind, parser: HttpParser, all: string, left: string, skip: SkipPolicy)
    requires Fed(parser, Point(Initial(who), []), all, left, skip) && (Going(parser) ==> left == "")
    ensures var t := Merge(parser.log); Merged(t) && !Parse(who, t, skip).Bad? && Accounted(t)
  {
    hide Run, Switch, Parse, Emit, Merge, Fed, Below, At;
    FedBelow(parser, Point(Initial(who), []), all, left, skip);
    InitialAt(who, skip);
    TraceGrammar(who, Initial(who), [], all, skip);
    BelowParse(who, Merge(parser.log), Run(Initial(who), [], all, skip).t, skip);
    MergeIsMerged(parser.log);
    AllAccounted(who, Merge(parser.log), skip);
  }

  /** Any stream, in any pieces and with any callbacks, through a new parser of any kind. */
  method FeedStream(who: Kind, pieces: seq<string>, cb: Callbacks) returns (parser: HttpParser, left: string)
    requires Feedable(pieces)
    ensures fresh(parser)
    ensures Fed(parser, Point(Initial(who), []), Flatten(pieces), left, cb.skip) && (Going(parser) ==> left == "")
    ensures var t := Merge(parser.log); Merged(t) && !Parse(who, t, cb.skip).Bad? && Accounted(t)
  {
    hide Run, Switch, Parse, Emit, Fed, Gauge, Overflows;
    parser := new HttpParser(who);
    var calls;
    left, calls := Feed(parser, pieces, cb);
    FedGrammar(who, parser, Flatten(pieces), left, cb.skip);
  }

  /** Whether a stream may end here, by the state of the parser. */
  predicate MayEnd(s: State) {
    s.BodyIdentityEof? || s.Dead? || s.StartReqOrRes? || s.StartRes? || s.StartReq?
  }

  /** What the end of the stream finds; a response parser has already begun a message after a leading line end. */
  lemma EndPlaces(who: Kind, c: Core, g: Place)
    requires At(who, c, g)
    ensures !g.Bad? && (c.state.BodyIdentityEof? ==> Endless(who, g))
    ensures MayEnd(c.state) && !c.state.BodyIdentityEof? ==> g.Idle? || (g.Begun? && Replies(who))
    ensures !MayEnd(c.state) ==> !g.Idle?
  {
  }

  /** The trace of a stream that ends in this state. */
  function Closed(c: Core, t: Trace): Trace {
    if c.state.BodyIdentityEof? then t + [MessageComplete] else t
  }

  /** What that trace is: of whole messages exactly if the stream may end here, but for leading line ends. */
  lemma ClosedGrammar(who: Kind, c: Core, t: Trace, skip: SkipPolicy)
    requires At(who, c, Parse(who, t, skip)) && Merged(t)
    ensures var u := Closed(c, t); var g := ParseEnded(who, u, skip);
      && Merged(u) && AccountedEnded(u) && !g.Bad?
      && (MayEnd(c.state) ==> g.Idle? || (g.Begun? && Replies(who)))
      && (!MayEnd(c.state) ==> !g.Idle?)
  {
    hide Parse, At, Accounted, AccountedEnded, Merged, Endless;
    var g := Parse(who, t, skip);
    EndPlaces(who, c, g);
    EndedAccounted(who, t, skip);
    if c.state.BodyIdentityEof? {
      hide ParseEnded;
      EndlessEnds(who, t, skip);
    } else {
      NotTwice(who, t, skip);
    }
  }

  /** After message_complete a stream without an end is between messages, so it cannot have ended already. */
  lemma NotTwice(who: Kind, t: Trace, skip: SkipPolicy)
    requires !Parse(who, t, skip).Bad?
    ensures ParseEnded(who, t, skip) == Parse(who, t, skip)
  {
    hide DataPlace;
  }

  /**
   A whole stream through a new parser: what has been fed and then, if there was no error and no switch of protocol, the
   end of the stream. The end is refused exactly inside a message that has to go on, and completes one that does not.
   */
  method FeedToEnd(who: Kind, pieces: seq<string>, cb: Callbacks)
    returns (parser: HttpParser, left: string, ended: bool)
    requires Feedable(pieces)
    ensures fresh(parser)
    ensures var t := Merge(parser.log); Merged(t) && AccountedEnded(t) && !ParseEnded(who, t, cb.skip).Bad?
    ensures !ended ==> !Going(parser) && Fed(parser, Point(Initial(who), []), Flatten(pieces), left, cb.skip)
    ensures ended ==>
      var r := Run(Initial(who), [], Flatten(pieces), cb.skip);
      && r.halt.Running? && left == "" && parser.core == r.c && Merge(parser.log) == Closed(r.c, r.t)
      && (parser.errno.InvalidEofState? <==> !MayEnd(r.c.state))
    ensures ended ==>
      var g := ParseEnded(who, Merge(parser.log), cb.skip);
      if parser.errno.InvalidEofState? then !g.Idle? else g.Idle? || (g.Begun? && Replies(who))
  {
    hide Run, Switch, Parse, ParseEnded, Emit, Fed, Gauge, Overflows, Roomy, At, Accounted, AccountedEnded, Merged,
      Flatten, Merge;
    parser, left := FeedStream(who, pieces, cb);
    ended := Going(parser);
    ghost var t := Merge(parser.log);
    if ended {
      FedResult(parser, Point(Initial(who), []), Flatten(pieces), left, cb.skip);
      InitialAt(who, cb.skip);
      TraceGrammar(who, Initial(who), [], Flatten(pieces), cb.skip);
      ClosedGrammar(who, parser.core, t, cb.skip);
      MergeComplete(parser.log);
      var n := parser.EndOfStream(cb);
    } else {
      EndedAccounted(who, t, cb.skip);
      NotTwice(who, t, cb.skip);
    }
  }

  lemma MergeComplete(log: seq<Event>)
    ensures Merge(log + [MessageComplete]) == Merge(log) + [MessageComplete]
  {
    MergeSnoc(log, MessageComplete);
  }

  // ----- responses -----

  lemma {:induction false} LowNameAt(s: string, i: nat)
    requires i < |s| && forall j | 0 <= j < |s| :: IsToken(s[j])
    ensures LowName(s)[i] == TokenOf(s[i])
  {
    if i < |s| - 1 {
      LowNameAt(s[..|s| - 1], i);
    }
  }

  lemma LengthName()
    ensures IsName("Content-Length") && LowName("Content-Length") == "content-length"
  {
    var s, low := "Content-Length", "content-length";
    forall i | 0 <= i < |s|
      ensures LowName(s)[i] == low[i]
    {
      LowNameAt(s, i);
    }
  }

  /** Headers that can be printed: the length that `setBody` adds, and ordinary ones. */
  ghost predicate Printable(headers: map<string, string>, body: string) {
    && "Content-Length" in headers && headers["Content-Length"] == Decimals(|body|)
    && forall k | k in headers && k != "Content-Length" :: Ordinary((k, headers[k]))
  }

  lemma AnyOrder(hs: seq<Header>, headers: map<string, string>, body: string)
    requires Lists(hs, headers) && Printable(headers, body)
    ensures Acceptable(hs, |body|) && HasLength(hs, |body|)
  {
    hide LowName, Decimals, Ordinary;
    LengthName();
    var i :| 0 <= i < |hs| && hs[i].0 == "Content-Length";
    assert LengthHeader(hs[i], |body|);
    forall j | 0 <= j < |hs|
      ensures Ordinary(hs[j]) || LengthHeader(hs[j], |body|)
    {
      assert hs[j] == (hs[j].0, headers[hs[j].0]);
    }
  }

  // ----- the header bytes of a printed response -----

  /** Everything before the body. */
  function HeadText(hs: seq<Header>): string {
    StatusLine(OK200) + Lines(hs) + "\r\n"
  }

  lemma BodyByte(p: Meter, ch: char, skip: SkipPolicy)
    requires p.c.state.BodyIdentity? && p.c.length > 0
    ensures var a := Switch(p.c, ch); var m := Deliver(a, p.t, ch, skip); var q := Moved(p, a, m);
      && Look(p) == 0 && q.n == p.n
      && (p.c.length > 1 ==> m.ctl.Advance? && q.c.state.BodyIdentity? && q.c.length == p.c.length - 1)
      && (p.c.length == 1 ==> m.ctl.Stay? && q.c.state.MessageDone?)
  {
  }

  lemma DoneByte(p: Meter, ch: char, skip: SkipPolicy)
    requires p.c.state.MessageDone?
    ensures var a := Switch(p.c, ch); var m := Deliver(a, p.t, ch, skip);
      Look(p) == 0 && Moved(p, a, m).n == p.n && (m.ctl.Advance? || m.ctl.Stop?)
  {
  }

  /** Body bytes are not header bytes. */
  lemma {:induction false} BodyMost(p: Meter, body: string, skip: SkipPolicy)
    requires p.c.state.BodyIdentity? && p.c.length == |body| > 0
    ensures var g := Gauge(p, body, skip); g.most == p.n && g.looks == 0
    decreases |body|
  {
    hide Switch, Deliver, Gauge;
    var a := Switch(p.c, body[0]);
    var m := Deliver(a, p.t, body[0], skip);
    BodyByte(p, body[0], skip);
    GaugeUnfold(p, body, skip, a, m);
    var q := Moved(p, a, m);
    if |body| > 1 {
      BodyMost(q, body[1..], skip);
    } else {
      var b := Switch(q.c, body[0]);
      var n := Deliver(b, q.t, body[0], skip);
      DoneByte(q, body[0], skip);
      GaugeUnfold(q, body, skip, b, n);
      assert body[1..] == "";
      NoBytes(Moved(q, b, n), skip);
    }
  }

  /** The parser at the start of the body. */
  lemma HeadRun(c: Core, t: Trace, hs: seq<Header>, body: string, skip: SkipPolicy)
    requires c.state.StartRes? && c.kind.Response? && !c.verb.CONNECT?
    requires 0 < |body| <= LENGTH_LIMIT && Acceptable(hs, |body|) && HasLength(hs, |body|)
    requires forall u :: !skip(u)
    ensures var r := Run(c, t, HeadText(hs), skip); r.halt.Running? && r.c.state.BodyIdentity? && r.c.length == |body|
  {
    hide Run, Switch, StatusLine, Lines, Acceptable, HasLength, AllEvents;
    var u := t + [MessageBegin, Data(StatusData, "OKUNKNOWN")];
    StatusLineRun(c, t, Lines(hs) + "\r\n", skip);
    var d := LinesRun(Heading(c), u, hs, |body|, "\r\n", skip);
    HeadersEndRun(d, u + AllEvents(hs), "", skip);
    assert "\r\n" + "" == "\r\n";
    RunNothing(d.(upgrade := false, state := BodyIdentity),
               u + AllEvents(hs) + [HeadersComplete(d.length, false, false)], skip);
    assert HeadText(hs) == StatusLine(OK200) + (Lines(hs) + "\r\n");
  }

  /** No more header bytes are counted or looked at than there are. */
  lemma PrintedMost(hs: seq<Header>, body: string, skip: SkipPolicy)
    requires |body| <= LENGTH_LIMIT && Acceptable(hs, |body|) && HasLength(hs, |body|) && forall u :: !skip(u)
    ensures var g := Gauge(Meter(Initial(Response), [], 0, true, false), Render(OK200, hs, body), skip);
      g.most <= |HeadText(hs)| && g.looks <= |HeadText(hs)|
  {
    hide Run, Switch, Gauge, StatusLine, Lines, Acceptable, HasLength;
    var p := Meter(Initial(Response), [], 0, true, false);
    var head := HeadText(hs);
    assert Render(OK200, hs, body) == head + body;
    MostBound(p, head, skip);
    LooksBound(p, head, skip);
    if body == "" {
      assert head + body == head;
    } else {
      GaugeConcat(p, head, body, skip);
      GaugeRun(p, head, skip);
      HeadRun(p.c, p.t, hs, body, skip);
      PeakMost(p, head, skip);
      BodyMost(Gauge(p, head, skip).end, body, skip);
    }
  }

  /**
   A printed response, in whatever order `hs` its headers came and in whatever pieces it arrives, is parsed back to
   its headers and its body, and the parser is ready for the next response: with callbacks that never refuse, wherever
   they pause, as long as four times the bytes before the body and the pieces are together within the header limit, or
   those bytes and the calls.
   */
  method ParsePrinted(ghost hs: seq<Header>, ghost headers: map<string, string>, ghost body: string,
                      pieces: seq<string>, cb: Callbacks)
    returns (parser: HttpParser, left: string, calls: nat)
    requires Lists(hs, headers) && Printable(headers, body) && |body| <= LENGTH_LIMIT
    requires Flatten(pieces) == Render(OK200, hs, body) && Feedable(pieces)
    requires forall u :: !cb.skip(u)
    ensures calls <= |pieces| + |parser.log| && (NeverPauses(cb) ==> calls <= |pieces|)
    ensures NeverRefuses(cb) ==> !parser.errno.Callback?
    ensures calls <= 4 * (|Flatten(pieces)| + |pieces|)
    ensures |HeadText(hs)| + calls <= HTTP_MAX_HEADER_SIZE ==> !parser.errno.HeaderOverflow?
    ensures 4 * |HeadText(hs)| + |pieces| <= HTTP_MAX_HEADER_SIZE ==> !parser.errno.HeaderOverflow?
    ensures !parser.errno.Callback? && !parser.errno.HeaderOverflow? ==>
      && parser.errno.OK? && left == "" && parser.core.state.StartRes? && parser.core.status == 200
      && Merge(parser.log) == ResponseEvents(hs, body)
  {
    hide Run, Switch, Emit, Fed, Gauge, Overflows, Render, HeadText, ResponseEvents, Lists, Printable, Flatten, Merge;
    NothingMerged();
    parser := new HttpParser(Response);
    left, calls := Feed(parser, pieces, cb);
    AnyOrder(hs, headers, body);
    PrintedMost(hs, body, cb.skip);
    if !parser.errno.Callback? && !parser.errno.HeaderOverflow? {
      RoundTrip(Initial(Response), [], hs, body, cb.skip);
      FedResult(parser, Point(Initial(Response), []), Flatten(pieces), left, cb.skip);
      assert [] + ResponseEvents(hs, body) == ResponseEvents(hs, body);
    }
  }
}
