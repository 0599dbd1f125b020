/**
 What every reachable state of the machine satisfies: the conditions that `http_parser_execute` asserts,
 and the agreement between the state and the callbacks made so far.
 */
module HttpInvariants {
  import opened HttpChars
  import opened HttpMachine

  /** Header states while a name is read. */
  predicate NameState(h: HeaderState) {
    || h.General? || h.HC? || h.HCO? || h.HCON? || h.MatchConnection? || h.MatchProxy? || h.MatchLength?
    || h.MatchTransfer? || h.MatchUpgrade? || h.HConnection? || h.HLength? || h.HTransfer? || h.HUpgrade?
  }

  /** Header states while a value is read. */
  predicate ValueState(h: HeaderState) {
    || h.General? || h.HLength? || h.MatchChunked? || h.TokenStart? || h.MatchKeepAlive? || h.MatchClose?
    || h.MatchConnUpgrade? || h.ConnToken? || h.TransferChunked? || h.ConnKeepAlive? || h.ConnClose? || h.ConnUpgrade?
  }

  predicate InName(s: State) {
    s.HeaderField? || s.ValueDiscardWs? || s.ValueDiscardWsAlmostDone? || s.ValueDiscardLws?
  }

  predicate InValue(s: State) {
    s.ValueStart? || s.HeaderValue? || s.ValueLws? || s.HeaderAlmostDone?
  }

  predicate InChunk(s: State) {
    || s.ChunkSizeStart? || s.ChunkSize? || s.ChunkParameters? || s.ChunkSizeAlmostDone? || s.ChunkData?
    || s.ChunkDataAlmostDone? || s.ChunkDataDone?
  }

  /** The assertions of the source, strengthened until every transition keeps them. */
  predicate CoreInv(c: Core) {
    && c.length <= ULLONG_MAX
    && (InName(c.state) ==> NameState(c.hs))
    && (InValue(c.state) ==> ValueState(c.hs) && (c.hs.HLength? ==> c.length < ULLONG_MAX))
    && (InChunk(c.state) ==> c.flags.chunked && !c.flags.trailing)
    && (c.state.ChunkSize? || c.state.ChunkParameters? || c.state.ChunkSizeAlmostDone? ==> c.length < ULLONG_MAX)
    && (c.state.BodyIdentity? || c.state.ChunkData? ==> 0 < c.length < ULLONG_MAX)
    && (c.state.ChunkDataAlmostDone? ==> c.length == 0)
    && (c.flags.trailing ==> c.flags.chunked)
    && (c.state.HeadersDone? ==> !c.flags.trailing)
  }

  /** The core of an `Act`, whatever the answer of on_headers_complete. */
  predicate Keeps(a: Act) {
    a.Fail? || (CoreInv(a.c) && (a.HeadersAgain? ==> CoreInv(AfterHeaders(a.c, true))))
  }

  lemma StartInv(c: Core, ch: char)
    requires CoreInv(c) && GroupOf(c.state).StartGroup?
    ensures Keeps(StartStep(c, ch))
  {
  }

  lemma MethodInv(c: Core, ch: char)
    requires CoreInv(c) && GroupOf(c.state).MethodGroup?
    ensures Keeps(MethodStep(c, ch))
  {
  }

  /** States outside headers and bodies, on which `CoreInv` says little. */
  predicate LineState(s: State) {
    !(InName(s) || InValue(s) || InChunk(s) || s.BodyIdentity? || s.HeadersDone?)
  }

  /** A byte of a first line is refused, or leaves what `CoreInv` is about as it is. */
  predicate InLine(c: Core, a: Act) {
    a.Fail? || (!a.HeadersAgain? && a.c.flags == c.flags && a.c.length == c.length && LineState(a.c.state))
  }

  lemma LineKeeps(c: Core, a: Act)
    requires CoreInv(c) && InLine(c, a)
    ensures Keeps(a)
  {
  }

  lemma RequestInv(c: Core, ch: char)
    requires CoreInv(c) && GroupOf(c.state).RequestGroup?
    ensures Keeps(RequestLineStep(c, ch))
  {
    hide CoreInv, Keeps, RequestLineStep;
    RequestActs(c, ch);
    LineKeeps(c, RequestLineStep(c, ch));
  }

  lemma ResponseInv(c: Core, ch: char)
    requires CoreInv(c) && GroupOf(c.state).ResponseGroup?
    ensures Keeps(ResponseLineStep(c, ch))
  {
    hide CoreInv, Keeps, ResponseLineStep;
    ResponseActs(c, ch);
    LineKeeps(c, ResponseLineStep(c, ch));
  }

  lemma UrlInv(c: Core, ch: char)
    requires CoreInv(c) && GroupOf(c.state).UrlGroup?
    ensures Keeps(UrlStep(c, ch))
  {
    hide CoreInv, Keeps, ParseUrlChar;
    UrlCharKind(if c.state.SpacesBeforeUrl? && c.verb.CONNECT? then ServerStart else c.state, ch);
    LineKeeps(c, UrlStep(c, ch));
  }

  lemma NewMessageInv(c: Core)
    requires CoreInv(c)
    ensures CoreInv(c.(state := NewMessage(c)))
  {
  }

  lemma EndInv(c: Core, ch: char)
    requires CoreInv(c) && GroupOf(c.state).EndGroup?
    ensures Keeps(HeadersEndStep(c, ch))
  {
    NewMessageInv(c);
  }

  lemma BodyInv(c: Core, ch: char)
    requires CoreInv(c) && GroupOf(c.state).BodyGroup?
    ensures Keeps(BodyStep(c, ch))
  {
    NewMessageInv(c);
  }

  lemma ChunkInv(c: Core, ch: char)
    requires CoreInv(c) && GroupOf(c.state).ChunkGroup?
    ensures Keeps(ChunkSizeStep(c, ch))
  {
  }

  lemma FieldStartInv(ch: char)
    requires IsToken(ch)
    ensures NameState(FieldStart(ch))
  {
  }

  lemma FieldCharInv(h: HeaderState, i: nat, ch: char)
    requires NameState(h) && IsToken(ch)
    ensures NameState(FieldChar(h, i, ch).0)
  {
    hide Match;
  }

  /** A byte of a header value is refused or kept. */
  lemma ValueCharKeeps(c: Core, ch: char)
    requires c.state.HeaderValue?
    ensures var a := ValueChar(c, ch);
      || a.Fail?
      || (a.Keep? && a.k == ValueData && a.c.state == c.state && a.c.kind == c.kind
          && a.c.flags.trailing == c.flags.trailing && a.c.flags.skipBody == c.flags.skipBody
          && a.c.upgrade == c.upgrade)
  {
    hide Match, Lower, IsToken, ConnectionStart, Digit;
  }

  lemma ValueCharInv(c: Core, ch: char)
    requires CoreInv(c) && c.state.HeaderValue?
    ensures Keeps(ValueChar(c, ch))
  {
    if c.hs.HLength? {
      hide Match, ConnectionStart;
    } else {
      OtherValueChar(c, ch);
      hide ValueChar;
    }
  }

  lemma ConnectionWord(b: char)
    ensures ValueState(ConnectionStart(b)) && !ConnectionStart(b).HLength?
  {
  }

  lemma OtherValueChar(c: Core, ch: char)
    requires ValueState(c.hs) && !c.hs.HLength?
    ensures var a := ValueChar(c, ch);
      && a.Keep? && a.c.length == c.length && a.c.state == c.state && ValueState(a.c.hs) && !a.c.hs.HLength?
      && a.c.flags.trailing == c.flags.trailing && a.c.flags.chunked == c.flags.chunked
  {
    hide Match, Lower, IsToken, ConnectionStart, Digit;
    ConnectionWord(Lower(ch));
  }

  lemma ValueStartInv(c: Core, ch: char)
    requires CoreInv(c) && (c.state.ValueStart? || c.state.ValueDiscardWs?)
    ensures Keeps(ValueStartStep(c, ch))
  {
  }

  lemma NameStartInv(c: Core, ch: char)
    requires CoreInv(c) && c.state.HeaderFieldStart?
    ensures Keeps(NameStep(c, ch))
  {
    hide FieldChar, FieldStart, NameState, ValueState;
    if IsToken(ch) {
      FieldStartInv(ch);
    }
  }

  lemma NameCharInv(c: Core, ch: char)
    requires CoreInv(c) && c.state.HeaderField?
    ensures Keeps(NameStep(c, ch))
  {
    hide FieldChar, FieldStart, NameState, ValueState;
    if IsToken(ch) {
      FieldCharInv(c.hs, c.index, ch);
    }
  }

  lemma NameInv(c: Core, ch: char)
    requires CoreInv(c) && GroupOf(c.state).NameGroup?
    ensures Keeps(NameStep(c, ch))
  {
    hide CoreInv, Keeps, NameStep;
    if c.state.HeaderFieldStart? {
      NameStartInv(c, ch);
    } else {
      NameCharInv(c, ch);
    }
  }

  lemma ValueInv(c: Core, ch: char)
    requires CoreInv(c) && GroupOf(c.state).ValueGroup?
    ensures Keeps(ValueStep(c, ch))
  {
    hide ValueChar, ValueStartStep, Commit, NameState, ValueState;
    CommitKeeps(c.flags, c.hs);
    if c.state.HeaderValue? {
      ValueCharInv(c, ch);
    } else if c.state.ValueStart? || c.state.ValueDiscardWs? {
      ValueStartInv(c, ch);
    } else {
    }
  }

  lemma CommitKeeps(f: Flags, h: HeaderState)
    ensures Commit(f, h).trailing == f.trailing && (f.chunked ==> Commit(f, h).chunked)
  {
  }

  lemma SwitchInv(c: Core, ch: char)
    requires CoreInv(c)
    ensures Keeps(Switch(c, ch))
  {
    match GroupOf(c.state)
    case StartGroup => StartInv(c, ch);
    case MethodGroup => MethodInv(c, ch);
    case ResponseGroup => ResponseInv(c, ch);
    case UrlGroup => UrlInv(c, ch);
    case RequestGroup => RequestInv(c, ch);
    case NameGroup => NameInv(c, ch);
    case ValueGroup => ValueInv(c, ch);
    case EndGroup => EndInv(c, ch);
    case BodyGroup => BodyInv(c, ch);
    case ChunkGroup => ChunkInv(c, ch);
  }

  /** The stream has been handed over to another protocol. */
  predicate Left(c: Core, t: Trace) {
    c.upgrade && t != [] && t[|t| - 1].MessageComplete?
  }

  /** Inside a marked run the last report is data of that kind. */
  predicate Fits(c: Core, t: Trace) {
    && (Sticky(c.state) ==> t != [] && t[|t| - 1].Data? && t[|t| - 1].kind == KindOf(c.state).k)
    && !Left(c, t)
  }

  lemma TickCore(c: Core, t: Trace, ch: char, skip: SkipPolicy)
    requires CoreInv(c)
    ensures !Tick(c, t, ch, skip).ctl.Err? ==> CoreInv(Tick(c, t, ch, skip).c)
  {
    SwitchInv(c, ch);
  }

  predicate ParseError(e: Errno) {
    !(e.OK? || e.Paused? || e.Callback? || e.HeaderOverflow?)
  }

  lemma DeliverFits(c: Core, a: Act, t: Trace, ch: char, skip: SkipPolicy)
    requires Fits(c, t) && Shape(c, a)
    ensures var m := Deliver(a, t, ch, skip);
            && (m.ctl.Advance? || m.ctl.Stay? ==> Fits(m.c, m.t))
            && (m.ctl.Stop? ==> Left(m.c, m.t))
            && (m.ctl.Err? ==> m.t == t && ParseError(m.ctl.errno))
  {
  }

  lemma TickFits(c: Core, t: Trace, ch: char, skip: SkipPolicy)
    requires Fits(c, t)
    ensures var m := Tick(c, t, ch, skip);
            && (m.ctl.Advance? || m.ctl.Stay? ==> Fits(m.c, m.t))
            && (m.ctl.Stop? ==> Left(m.c, m.t))
            && (m.ctl.Err? ==> m.t == t && ParseError(m.ctl.errno))
  {
    SwitchShape(c, ch);
    DeliverFits(c, Switch(c, ch), t, ch, skip);
  }

  /** Safety over whole runs. */
  lemma {:induction false} RunInv(c: Core, t: Trace, input: string, skip: SkipPolicy)
    requires CoreInv(c) && Fits(c, t)
    ensures var r := Run(c, t, input, skip);
            && (!r.halt.Failed? ==> CoreInv(r.c))
            && (r.halt.Running? ==> Fits(r.c, r.t) && r.left == "")
            && (r.halt.Upgraded? <==> !r.halt.Failed? && Left(r.c, r.t))
            && (r.halt.Failed? ==> r.left != "" && ParseError(r.halt.errno))
    decreases |input|, Rank(c.state)
  {
    if input != "" {
      var m := Tick(c, t, input[0], skip);
      TickCore(c, t, input[0], skip);
      TickFits(c, t, input[0], skip);
      ReexecuteLowersRank(c, t, input[0], skip);
      match m.ctl
      case Advance => RunInv(m.c, m.t, input[1..], skip);
      case Stay => RunInv(m.c, m.t, input, skip);
      case Stop =>
      case Err(_) =>
    }
  }
}
