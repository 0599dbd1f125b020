/**
 Messages one after another: from the text of any conversation the parser makes exactly its events, whole messages at a
 time, and stops where a message closes the connection or hands it over.
 */
module HttpPipelines {
  import opened HttpChars
  import opened HttpMachine
  import opened HttpInvariants
  import opened HttpCounting
  import opened HttpRuns
  import opened HttpParsing
  import opened HttpFeeding
  import opened HttpRecognisers
  import opened HttpValues
  import opened HttpPrinting
  import opened HttpMessages
  import opened HttpContents

  /** A body that the end of the stream ends. */
  lemma EndlessContentRun(c: Core, t: Trace, m: Message, skip: SkipPolicy) returns (d: Core)
    requires GoodMessage(m, false) && Between(c, m, false) && m.content.Endless? && t != [] && !t[|t| - 1].Data?
    ensures d == c.(state := BodyIdentityEof) && CoreInv(d)
    ensures Run(c, t, [LF] + m.content.body, skip) == Final(d, t + ContentEvents(m.content), "", Running)
  {
    hide Run, Switch, FlagsAfter, LengthAfter, GoodFirst, AllReadable;
    d := c.(state := BodyIdentityEof);
    HeadersDoneActs(c);
    ActRun(c, t, LF, m.content.body, skip, Next(d));
    EndlessRun(d, t, m.content.body, skip);
  }

  /** The parser after a message that it read from `c` on: the fields of the first line are kept. */
  predicate Past(c: Core, d: Core, m: Message)
    requires Written(m)
  {
    && CoreInv(d) && d.kind == c.kind && d.verb == (if m.first.Asks? then m.first.request.verb else c.verb)
    && (d.major, d.minor) == VersionOf(m.first) && (m.first.Replies? ==> d.status == m.first.reply.code)
    && d.upgrade == Upgrades(m)
    && (!Upgrades(m) ==> d.state == if m.content.Endless? then BodyIdentityEof else Afterwards(m))
  }

  /** What follows the headers. */
  lemma ContentRun(c: Core, t: Trace, m: Message, skipped: bool, rest: string, skip: SkipPolicy) returns (d: Core)
    requires GoodMessage(m, skipped) && Between(c, m, skipped) && t != [] && !t[|t| - 1].Data?
    requires m.content.Endless? ==> rest == ""
    ensures d == c.(state := d.state, hs := d.hs, index := d.index, length := d.length, flags := d.flags) && CoreInv(d)
    ensures !Upgrades(m) ==> d.state == if m.content.Endless? then BodyIdentityEof else Afterwards(m)
    ensures Run(c, t, [LF] + (ContentText(m.content) + rest), skip) ==
            if Upgrades(m) then Final(d, t + ContentEvents(m.content), rest, Upgraded)
            else Run(d, t + ContentEvents(m.content), rest, skip)
  {
    hide Run, CoreInv, Upgrades, Afterwards, GoodFirst, Written, BodyText, BodyEvents, Announced, Said, NoBody;
    match m.content
    case Nothing =>
      d := NothingRun(c, t, m, skipped, rest, skip);
      assert "" + rest == rest;
    case Identity(body) =>
      d := AnnouncedRun(c, t, m, rest, skip);
    case InChunks(b) =>
      d := InChunksRun(c, t, m, rest, skip);
    case Endless(body) =>
      d := EndlessContentRun(c, t, m, skip);
      RunNothing(d, t + ContentEvents(m.content), skip);
      assert body + rest == body;
  }

  lemma HeadLast(t: Trace, m: Message)
    requires Written(m)
    ensures var u := t + HeadEvents(m); u != [] && !u[|u| - 1].Data?
  {
    hide FirstEvents, FieldsEvents, Announced, Said;
  }

  /**
   A message: its events and no others, and the parser is then ready for the next message, has closed the connection,
   waits for the end of the stream, or has stopped behind the message and left the rest of the stream alone.
   */
  lemma MessageRun(c: Core, t: Trace, m: Message, rest: string, skip: SkipPolicy) returns (d: Core)
    requires Expects(c, m.first) && Written(m) && GoodMessage(m, skip(t + HeadEvents(m)))
    requires m.content.Endless? ==> rest == ""
    ensures Past(c, d, m)
    ensures Run(c, t, MessageText(m) + rest, skip) ==
            if Upgrades(m) then Final(d, t + MessageEvents(m), rest, Upgraded)
            else Run(d, t + MessageEvents(m), rest, skip)
  {
    hide Run, CoreInv, Upgrades, Afterwards, HeadText, HeadEvents, ContentText, ContentEvents, Expects, Between,
      GoodContent, GoodFirst, AllReadable, GoodBody, Past;
    var u := t + HeadEvents(m);
    var skipped := skip(u);
    var e := HeadRun(c, t, m, skipped, ContentText(m.content) + rest, skip);
    HeadLast(t, m);
    d := ContentRun(e, u, m, skipped, rest, skip);
    AfterContent(c, e, d, m, skipped);
    assert u + ContentEvents(m.content) == t + MessageEvents(m);
    Grouped(HeadText(m), ContentText(m.content), rest);
  }

  lemma AfterContent(c: Core, e: Core, d: Core, m: Message, skipped: bool)
    requires Written(m) && Between(e, m, skipped) && e.kind == c.kind
    requires e.verb == if m.first.Asks? then m.first.request.verb else c.verb
    requires d == e.(state := d.state, hs := d.hs, index := d.index, length := d.length, flags := d.flags) && CoreInv(d)
    requires !Upgrades(m) ==> d.state == if m.content.Endless? then BodyIdentityEof else Afterwards(m)
    ensures Past(c, d, m)
  {
    hide CoreInv, Upgrades, Afterwards, Announced, Said, AllReadable;
  }

  // ----- conversations -----

  /** A message after which the parser reads on. */
  predicate GoesOn(m: Message)
    requires Written(m)
  {
    !Upgrades(m) && !m.content.Endless? && !Afterwards(m).Dead?
  }

  /** Messages of one kind, of which all but the last leave the connection open; `t` is what has been reported. */
  predicate Conversation(who: Kind, t: Trace, ms: seq<Message>, skip: SkipPolicy)
    decreases |ms|
  {
    ms != [] ==>
      && (if ms[0].first.Asks? then who.Request? else who.Response?)
      && Written(ms[0]) && GoodMessage(ms[0], skip(t + HeadEvents(ms[0])))
      && (|ms| > 1 ==> GoesOn(ms[0]))
      && Conversation(who, t + MessageEvents(ms[0]), ms[1..], skip)
  }

  predicate AllWritten(ms: seq<Message>) {
    forall i | 0 <= i < |ms| :: Written(ms[i])
  }

  function MessagesText(ms: seq<Message>): string
    requires AllWritten(ms)
  {
    if ms == [] then "" else MessageText(ms[0]) + MessagesText(ms[1..])
  }

  function MessagesEvents(ms: seq<Message>): Trace
    requires AllWritten(ms)
  {
    if ms == [] then [] else MessageEvents(ms[0]) + MessagesEvents(ms[1..])
  }

  lemma {:induction false} ConversationWritten(who: Kind, t: Trace, ms: seq<Message>, skip: SkipPolicy)
    requires Conversation(who, t, ms, skip)
    ensures AllWritten(ms) && forall i | 0 <= i < |ms| :: if ms[i].first.Asks? then who.Request? else who.Response?
    ensures forall i | 0 <= i < |ms| && ms[i].content.Endless? :: !Upgrades(ms[i])
    decreases |ms|
  {
    hide Written, MessageEvents, HeadEvents, GoesOn, Upgrades;
    if ms != [] {
      ConversationWritten(who, t + MessageEvents(ms[0]), ms[1..], skip);
      assert forall i | 1 <= i < |ms| :: ms[i] == ms[1..][i - 1];
    }
  }

  /** A parser of one kind between two messages. */
  predicate Idle(c: Core) {
    && CoreInv(c)
    && ((c.kind.Request? && c.state.StartReq?) || (c.kind.Response? && c.state.StartRes? && !c.verb.CONNECT?))
  }

  lemma IdleInitial(who: Kind)
    requires !who.Both?
    ensures Idle(Initial(who))
  {
  }

  lemma IdleAfter(c: Core, d: Core, m: Message)
    requires Idle(c) && Written(m) && Past(c, d, m) && GoesOn(m)
    requires if m.first.Asks? then c.kind.Request? else c.kind.Response?
    ensures Idle(d)
  {
    hide CoreInv, Written, Finally, Upgrades;
  }

  lemma {:induction false} MessagesRun(c: Core, t: Trace, ms: seq<Message>, rest: string, skip: SkipPolicy)
    returns (d: Core)
    requires Idle(c) && ms != [] && Conversation(c.kind, t, ms, skip) && AllWritten(ms)
    requires ms[|ms| - 1].content.Endless? ==> rest == ""
    ensures Past(c, d, ms[|ms| - 1])
    ensures Run(c, t, MessagesText(ms) + rest, skip) ==
            if Upgrades(ms[|ms| - 1]) then Final(d, t + MessagesEvents(ms), rest, Upgraded)
            else Run(d, t + MessagesEvents(ms), rest, skip)
    decreases |ms|
  {
    hide Run, CoreInv, Upgrades, Afterwards, MessageText, MessageEvents, HeadEvents, GoodMessage, GoesOn, Written, Idle,
      VersionOf;
    var m, tail := ms[0], ms[1..];
    var u := t + MessageEvents(m);
    OneExpects(c, m);
    if |ms| == 1 {
      d := MessageRun(c, t, m, rest, skip);
      OneMessage(ms);
    } else {
      assert GoesOn(m);
      ReadsOn(m);
      var e := MessageRun(c, t, m, MessagesText(tail) + rest, skip);
      IdleAfter(c, e, m);
      d := MessagesRun(e, u, tail, rest, skip);
      ConversationWritten(c.kind, t, ms, skip);
      Grouped(MessageText(m), MessagesText(tail), rest);
      Grouped(t, MessageEvents(m), MessagesEvents(tail));
    }
  }

  lemma ReadsOn(m: Message)
    requires Written(m) && GoesOn(m)
    ensures !Upgrades(m) && !m.content.Endless?
  {
  }

  lemma OneExpects(c: Core, m: Message)
    requires Idle(c) && if m.first.Asks? then c.kind.Request? else c.kind.Response?
    ensures Expects(c, m.first)
  {
  }

  lemma OneMessage(ms: seq<Message>)
    requires |ms| == 1 && AllWritten(ms)
    ensures MessagesText(ms) == MessageText(ms[0]) && MessagesEvents(ms) == MessageEvents(ms[0])
  {
    hide MessageText, MessageEvents, Written;
    assert ms[1..] == [];
    assert MessageText(ms[0]) + "" == MessageText(ms[0]) && MessageEvents(ms[0]) + [] == MessageEvents(ms[0]);
  }

  // ----- before the first message -----

  lemma LineEndActs(c: Core, ch: char)
    requires ch == CR || ch == LF
    ensures c.state.StartReq? || c.state.StartReqOrRes? || c.state.Dead? ==> Switch(c, ch) == Next(c)
    ensures c.state.StartRes? ==> Switch(c, ch) == NotifyNext(c.(flags := NO_FLAGS, length := ULLONG_MAX), MessageBegin)
  {
    hide FirstGuess;
  }

  /** Line ends in front of a request are passed over; in front of a response each begins a message once more. */
  lemma LineEndsRun(c: Core, t: Trace, ch: char, rest: string, skip: SkipPolicy)
    requires ch == CR || ch == LF
    ensures c.state.StartReq? || c.state.StartReqOrRes? || c.state.Dead? ==>
      Run(c, t, [ch] + rest, skip) == Run(c, t, rest, skip)
    ensures c.state.StartRes? ==>
      Run(c, t, [ch] + rest, skip) ==
      Run(c.(flags := NO_FLAGS, length := ULLONG_MAX), t + [MessageBegin], rest, skip)
  {
    hide Run, Switch;
    LineEndActs(c, ch);
    if c.state.StartReq? || c.state.StartReqOrRes? || c.state.Dead? {
      ActRun(c, t, ch, rest, skip, Next(c));
    } else if c.state.StartRes? {
      ActRun(c, t, ch, rest, skip, NotifyNext(c.(flags := NO_FLAGS, length := ULLONG_MAX), MessageBegin));
    }
  }

  /** The parser for messages of either kind, once the first line has told the kind. */
  function Settled(c: Core, l: First): Core {
    if l.Asks? then c.(kind := Request, state := StartReq, flags := NO_FLAGS, length := ULLONG_MAX)
    else c.(kind := Response, state := StartRes)
  }

  lemma EitherActs(c: Core, ch: char)
    requires c.state.StartReqOrRes?
    ensures var d := c.(flags := NO_FLAGS, length := ULLONG_MAX);
      && (ch != CR && ch != LF && ch != 'H' ==> Switch(c, ch) == Again(d.(kind := Request, state := StartReq)))
      && Switch(c, 'H') == NotifyNext(d.(state := ResOrRespH), MessageBegin)
      && Switch(d.(state := ResOrRespH), 'T') == Next(d.(kind := Response, state := ResHT))
      && Switch(d.(state := ResOrRespH), 'E') ==
         Next(d.(kind := Request, verb := HEAD, index := 2, state := ReqMethod))
      && Switch(c.(kind := Response, state := StartRes), 'H') ==
         NotifyNext(d.(kind := Response, state := ResH), MessageBegin)
      && Switch(d.(kind := Response, state := ResH), 'T') == Next(d.(kind := Response, state := ResHT))
      && Switch(d.(kind := Request, state := StartReq), 'H') ==
         NotifyNext(d.(kind := Request, verb := HEAD, index := 1, state := ReqMethod), MessageBegin)
      && Switch(d.(kind := Request, verb := HEAD, index := 1, state := ReqMethod), 'E') ==
         Next(d.(kind := Request, verb := HEAD, index := 2, state := ReqMethod))
  {
    hide NameStep, ValueStep, HeadersEndStep, BodyStep, ChunkSizeStep, UrlStep, RequestLineStep, NextGuess;
  }

  lemma FirstLetters(l: First, rest: string)
    ensures l.Replies? ==> FirstText(l) + rest == ['H'] + (['T'] + (FirstText(l)[2..] + rest))
    ensures l.Asks? && l.request.verb.HEAD? ==> FirstText(l) + rest == ['H'] + (['E'] + (FirstText(l)[2..] + rest))
    ensures l.Asks? && !l.request.verb.HEAD? ==>
      FirstText(l) != "" && FirstText(l)[0] != 'H' && FirstText(l)[0] != CR && FirstText(l)[0] != LF
  {
    hide VersionText, Decimals, Eol;
    if l.Asks? {
      VerbLetter(l.request.verb);
      assert FirstText(l)[0] == MethodString(l.request.verb)[0];
      if l.request.verb.HEAD? {
        assert FirstText(l)[1] == MethodString(HEAD)[1];
      }
    } else {
      assert FirstText(l)[0] == 'H' && FirstText(l)[1] == 'T';
    }
  }

  lemma VerbLetter(m: Method)
    ensures var w := MethodString(m); w != "" && w[0] != CR && w[0] != LF && (w[0] == 'H' <==> m.HEAD?)
    ensures MethodString(HEAD) == "HEAD"
  {
  }

  /** A parser for either kind takes a whole first line as the parser for its kind does. */
  lemma EitherRun(c: Core, t: Trace, l: First, rest: string, skip: SkipPolicy)
    requires c.state.StartReqOrRes?
    ensures Run(c, t, FirstText(l) + rest, skip) == Run(Settled(c, l), t, FirstText(l) + rest, skip)
  {
    hide Run, Switch, FirstText;
    var d := c.(flags := NO_FLAGS, length := ULLONG_MAX);
    var u := t + [MessageBegin];
    FirstLetters(l, rest);
    EitherActs(c, if FirstText(l) == "" then 'x' else FirstText(l)[0]);
    if l.Asks? && !l.request.verb.HEAD? {
      assert (FirstText(l) + rest)[0] == FirstText(l)[0];
      AgainRun(c, t, FirstText(l) + rest, skip, Again(Settled(c, l)));
    } else {
      var tail := FirstText(l)[2..] + rest;
      var next := if l.Asks? then 'E' else 'T';
      var r := d.(state := ResOrRespH);
      ActRun(c, t, 'H', [next] + tail, skip, NotifyNext(r, MessageBegin));
      ActRun(r, u, next, tail, skip, Switch(r, next));
      var s := Settled(c, l);
      ActRun(s, t, 'H', [next] + tail, skip, Switch(s, 'H'));
      ActRun(Switch(s, 'H').c, u, next, tail, skip, Switch(Switch(s, 'H').c, next));
    }
  }

  /**
   A conversation through a new parser, in whatever pieces it arrives and wherever callbacks pause: exactly its events,
   unless a callback refuses or the header limit is exceeded, which a stream that is short enough does not do.
   */
  method ParseMessages(who: Kind, ghost ms: seq<Message>, ghost rest: string, pieces: seq<string>, cb: Callbacks)
    returns (parser: HttpParser, left: string, calls: nat)
    requires !who.Both? && ms != [] && Conversation(who, [], ms, cb.skip) && AllWritten(ms) && Feedable(pieces)
    requires Flatten(pieces) == MessagesText(ms) + rest && (rest != "" ==> Upgrades(ms[|ms| - 1]))
    ensures calls <= |pieces| + |parser.log| && calls <= 4 * (|Flatten(pieces)| + |pieces|)
    ensures NeverRefuses(cb) ==> !parser.errno.Callback?
    ensures 4 * |Flatten(pieces)| + |pieces| <= HTTP_MAX_HEADER_SIZE ==> !parser.errno.HeaderOverflow?
    ensures !parser.errno.Callback? && !parser.errno.HeaderOverflow? ==>
      && parser.errno.OK? && left == rest && Merge(parser.log) == MessagesEvents(ms)
      && Past(Initial(who), parser.core, ms[|ms| - 1])
  {
    hide Run, Switch, Emit, Fed, Gauge, Overflows, Roomy, Flatten, Merge, Conversation, MessagesText, MessagesEvents,
      Upgrades, Past, Written, Idle, CoreInv;
    NothingMerged();
    parser := new HttpParser(who);
    if 4 * |Flatten(pieces)| + |pieces| <= HTTP_MAX_HEADER_SIZE {
      ShortRoomy(parser.Rested(), Flatten(pieces), |pieces|, cb.skip);
    }
    left, calls := Feed(parser, pieces, cb);
    if !parser.errno.Callback? && !parser.errno.HeaderOverflow? {
      IdleInitial(who);
      ConversationWritten(who, [], ms, cb.skip);
      ghost var d := MessagesRun(Initial(who), [], ms, rest, cb.skip);
      FedResult(parser, Point(Initial(who), []), Flatten(pieces), left, cb.skip);
      assert [] + MessagesEvents(ms) == MessagesEvents(ms);
      RunNothing(d, MessagesEvents(ms), cb.skip);
    }
  }
}
