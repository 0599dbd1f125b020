/**
 The header byte counter, byte by byte. Every byte that is first looked at in a header state counts one, the counter
 restarts where the source resets it, and a call that ends inside a name or value after scanning it counts one more.
 */
module HttpCounting {
  import opened HttpChars
  import opened HttpMachine

  /**
   The machine with its counter. `first` says that the next byte has not been looked at yet, `scan` that the byte
   before was a byte of the same name or value, looked at in the same call.
   */
  datatype Meter = Meter(c: Core, t: Trace, n: nat, first: bool, scan: bool)

  /**
   Where counting gets to; `checked` is the highest count compared with the limit, `most` the highest count, and `looks`
   the number of bytes first looked at in a header state, whether or not the counter restarts.
   */
  datatype Track = Track(end: Meter, checked: nat, most: nat, looks: nat, running: bool)

  function Larger(a: nat, b: nat): nat {
    if a < b then b else a
  }

  predicate Scans(s: State) {
    s.HeaderField? || s.HeaderValue?
  }

  predicate Scanning(s: State, r: State) {
    Scans(s) && r == s
  }

  /** 1 if looking at the next byte counts it. */
  function Look(p: Meter): nat {
    if p.first && ParsingHeader(p.c.state) then 1 else 0
  }

  /** The count with the next byte. */
  function Visited(p: Meter): nat {
    p.n + Look(p)
  }

  /**
   Inside a value the count is compared with the limit only where the value ends, and never if it ends in an error.
   */
  predicate Unchecked(p: Meter, a: Act) {
    p.c.state.HeaderValue? && p.scan && (a.Keep? || a.Fail?)
  }

  function Seen(p: Meter, a: Act): nat {
    if Unchecked(p, a) then 0 else Visited(p)
  }

  /** The count after a pass. */
  function Kept(p: Meter, a: Act): nat {
    if !a.Fail? && ResetsCount(p.c.state) then 0 else Visited(p)
  }

  function Raise(g: Track, checked: nat, most: nat, looks: nat): Track {
    g.(checked := Larger(g.checked, checked), most := Larger(g.most, most), looks := g.looks + looks)
  }

  /** The meter after a pass that has the effect m. */
  function Moved(p: Meter, a: Act, m: Micro): Meter {
    Meter(m.c, m.t, Kept(p, a), m.ctl.Advance?, m.ctl.Advance? && Scanning(p.c.state, m.c.state))
  }

  function Gauge(p: Meter, input: string, skip: SkipPolicy): Track
    decreases |input|, Rank(p.c.state)
  {
    if input == "" then Track(p, 0, p.n, 0, true)
    else
      var a := Switch(p.c, input[0]);
      var m := Deliver(a, p.t, input[0], skip);
      ReexecuteLowersRank(p.c, p.t, input[0], skip);
      match m.ctl
      case Advance => Raise(Gauge(Moved(p, a, m), input[1..], skip), Seen(p, a), Visited(p), Look(p))
      case Stay => Raise(Gauge(Moved(p, a, m), input, skip), Seen(p, a), Visited(p), Look(p))
      case Stop => Track(Moved(p, a, m), Seen(p, a), Visited(p), Look(p), false)
      case Err(_) => Track(Moved(p, a, m), Seen(p, a), Visited(p), Look(p), false)
  }

  /** The count at the end of a call: one more if it ends while scanning. */
  function CountOf(g: Track): nat {
    if g.running && g.end.scan then g.end.n + 1 else g.end.n
  }

  /** The highest count that a call on these bytes compares with the limit. */
  function Peak(g: Track): nat {
    if g.running then Larger(g.checked, CountOf(g)) else g.checked
  }

  // ----- which bytes count -----

  /** The number of a state. */
  function StateNumber(s: State): nat {
    match s
    case Dead => 1 case StartReqOrRes => 2 case ResOrRespH => 3 case StartRes => 4 case ResH => 5
    case ResHT => 6 case ResHTT => 7 case ResHTTP => 8 case ResFirstMajor => 9 case ResMajor => 10
    case ResFirstMinor => 11 case ResMinor => 12 case ResFirstStatusCode => 13 case ResStatusCode => 14
    case ResStatusStart => 15 case ResStatus => 16 case ResLineAlmostDone => 17 case StartReq => 18
    case ReqMethod => 19 case SpacesBeforeUrl => 20 case Schema => 21 case SchemaSlash => 22
    case SchemaSlashSlash => 23 case ServerStart => 24 case Server => 25 case ServerWithAt => 26 case Path => 27
    case QueryStart => 28 case Query => 29 case FragmentStart => 30 case Fragment => 31 case ReqHttpStart => 32
    case ReqH => 33 case ReqHT => 34 case ReqHTT => 35 case ReqHTTP => 36 case ReqFirstMajor => 37
    case ReqMajor => 38 case ReqFirstMinor => 39 case ReqMinor => 40 case ReqLineAlmostDone => 41
    case HeaderFieldStart => 42 case HeaderField => 43 case ValueDiscardWs => 44
    case ValueDiscardWsAlmostDone => 45 case ValueDiscardLws => 46 case ValueStart => 47 case HeaderValue => 48
    case ValueLws => 49 case HeaderAlmostDone => 50 case ChunkSizeStart => 51 case ChunkSize => 52
    case ChunkParameters => 53 case ChunkSizeAlmostDone => 54 case HeadersAlmostDone => 55
    case HeadersDone => 56 case ChunkData => 57 case ChunkDataAlmostDone => 58 case ChunkDataDone => 59
    case BodyIdentity => 60 case BodyIdentityEof => 61 case MessageDone => 62
  }

  /**
   The states of headers, sizes of chunks and trailers are numbered before those of bodies; three restart the count.
   */
  lemma HeaderStates(s: State)
    ensures ParsingHeader(s) <==> StateNumber(s) <= 56
    ensures ResetsCount(s) <==> StateNumber(s) in {54, 56, 59}
  {
    hide ParsingHeader, ResetsCount, StateNumber;
    HeaderNumbers(s);
    ResetNumbers(s);
  }

  lemma HeaderNumbers(s: State)
    ensures ParsingHeader(s) <==> StateNumber(s) <= 56
  {
  }

  lemma ResetNumbers(s: State)
    ensures ResetsCount(s) <==> StateNumber(s) in {54, 56, 59}
  {
  }

  /** The states in bodies, and where the size of a chunk begins. */
  predicate InContent(s: State) {
    || s.BodyIdentity? || s.BodyIdentityEof? || s.ChunkData? || s.ChunkDataAlmostDone? || s.ChunkDataDone?
    || s.ChunkSizeStart?
  }

  /** In a body, and where the size of a chunk begins, the count is zero. */
  predicate Restarted(p: Meter) {
    InContent(p.c.state) ==> p.n == 0
  }

  /** Content is entered from the end of the headers or of a size. */
  predicate Enters(s: State, a: Act) {
    a.Fail? || (InContent(a.c.state) ==> ResetsCount(s) || (InContent(s) && !ParsingHeader(s)))
  }

  lemma BodyEnters(c: Core, ch: char)
    ensures GroupOf(c.state).BodyGroup? ==> Enters(c.state, BodyStep(c, ch))
    ensures GroupOf(c.state).EndGroup? ==> Enters(c.state, HeadersEndStep(c, ch))
    ensures GroupOf(c.state).ChunkGroup? ==> Enters(c.state, ChunkSizeStep(c, ch))
  {
  }

  lemma LineEnters(c: Core, ch: char)
    ensures GroupOf(c.state).StartGroup? ==> Enters(c.state, StartStep(c, ch))
    ensures GroupOf(c.state).MethodGroup? ==> Enters(c.state, MethodStep(c, ch))
    ensures GroupOf(c.state).NameGroup? ==> Enters(c.state, NameStep(c, ch))
  {
    hide FirstGuess, NextGuess, FieldChar, FieldStart, MatcherAt;
  }

  lemma UrlEnters(c: Core, ch: char)
    requires GroupOf(c.state).UrlGroup?
    ensures Enters(c.state, UrlStep(c, ch))
  {
    hide ParseUrlChar;
    UrlCharKind(if c.state.SpacesBeforeUrl? && c.verb.CONNECT? then ServerStart else c.state, ch);
  }

  lemma FirstEnters(c: Core, ch: char)
    ensures GroupOf(c.state).RequestGroup? ==> Enters(c.state, RequestLineStep(c, ch))
    ensures GroupOf(c.state).ResponseGroup? ==> Enters(c.state, ResponseLineStep(c, ch))
  {
    hide RequestLineStep, ResponseLineStep;
    if GroupOf(c.state).RequestGroup? {
      RequestActs(c, ch);
    } else if GroupOf(c.state).ResponseGroup? {
      ResponseActs(c, ch);
    }
  }

  lemma ValueEnters(c: Core, ch: char)
    requires GroupOf(c.state).ValueGroup?
    ensures Enters(c.state, ValueStep(c, ch))
  {
    hide Match, Lower, ConnectionStart, Commit, IsToken;
  }

  lemma SwitchEnters(c: Core, ch: char)
    ensures Enters(c.state, Switch(c, ch))
  {
    hide Enters, StartStep, MethodStep, ResponseLineStep, UrlStep, RequestLineStep, NameStep, ValueStep, HeadersEndStep,
      BodyStep, ChunkSizeStep;
    BodyEnters(c, ch);
    LineEnters(c, ch);
    FirstEnters(c, ch);
    if GroupOf(c.state).UrlGroup? {
      UrlEnters(c, ch);
    } else if GroupOf(c.state).ValueGroup? {
      ValueEnters(c, ch);
    }
  }

  lemma PassRestarts(p: Meter, ch: char, skip: SkipPolicy)
    requires Restarted(p)
    ensures var a := Switch(p.c, ch); Restarted(Moved(p, a, Deliver(a, p.t, ch, skip))) || a.Fail?
  {
    hide Switch;
    SwitchEnters(p.c, ch);
  }

  /** Where a body, a chunk or its size begins, the counter has restarted. */
  lemma {:induction false} CountRestarts(p: Meter, input: string, skip: SkipPolicy)
    requires Restarted(p)
    ensures var g := Gauge(p, input, skip); g.running ==> Restarted(g.end)
    decreases |input|, Rank(p.c.state)
  {
    hide Switch, Deliver, Gauge, Rank, Restarted;
    if input == "" {
      NoBytes(p, skip);
    } else {
      var a := Switch(p.c, input[0]);
      var m := Deliver(a, p.t, input[0], skip);
      GaugeUnfold(p, input, skip, a, m);
      PassRestarts(p, input[0], skip);
      FailStops(a, p.t, input[0], skip);
      if m.ctl.Advance? {
        CountRestarts(Moved(p, a, m), input[1..], skip);
      } else if m.ctl.Stay? {
        CountRestarts(Moved(p, a, m), input, skip);
      }
    }
  }

  lemma FailStops(a: Act, t: Trace, ch: char, skip: SkipPolicy)
    ensures a.Fail? ==> Deliver(a, t, ch, skip).ctl.Err?
  {
  }

  // ----- bounds -----

  lemma GaugeUnfold(p: Meter, input: string, skip: SkipPolicy, a: Act, m: Micro)
    requires input != "" && a == Switch(p.c, input[0]) && m == Deliver(a, p.t, input[0], skip)
    ensures Gauge(p, input, skip) ==
      match m.ctl
      case Advance => Raise(Gauge(Moved(p, a, m), input[1..], skip), Seen(p, a), Visited(p), Look(p))
      case Stay => Raise(Gauge(Moved(p, a, m), input, skip), Seen(p, a), Visited(p), Look(p))
      case Stop => Track(Moved(p, a, m), Seen(p, a), Visited(p), Look(p), false)
      case Err(_) => Track(Moved(p, a, m), Seen(p, a), Visited(p), Look(p), false)
    ensures m.ctl.Stay? ==> Rank(m.c.state) < Rank(p.c.state)
  {
    ReexecuteLowersRank(p.c, p.t, input[0], skip);
  }

  /** A count that is higher by at most d stays so. */
  lemma {:induction false} MostShift(p: Meter, q: Meter, d: nat, input: string, skip: SkipPolicy)
    requires p.c == q.c && p.t == q.t && p.n <= q.n + d && Visited(p) <= Visited(q) + d
    ensures Gauge(p, input, skip).most <= Gauge(q, input, skip).most + d
    decreases |input|, Rank(p.c.state)
  {
    hide Switch, Deliver, Gauge, Rank;
    if input == "" {
      NoBytes(p, skip);
      NoBytes(q, skip);
    } else {
      var a := Switch(p.c, input[0]);
      var m := Deliver(a, p.t, input[0], skip);
      GaugeUnfold(p, input, skip, a, m);
      GaugeUnfold(q, input, skip, a, m);
      if m.ctl.Advance? {
        MostShift(Moved(p, a, m), Moved(q, a, m), d, input[1..], skip);
      } else if m.ctl.Stay? {
        MostShift(Moved(p, a, m), Moved(q, a, m), d, input, skip);
      }
    }
  }

  lemma NoBytes(p: Meter, skip: SkipPolicy)
    ensures Gauge(p, "", skip) == Track(p, 0, p.n, 0, true)
  {
  }

  /** What is compared with the limit is at most one more than the header bytes. */
  lemma {:induction false} PeakMost(p: Meter, input: string, skip: SkipPolicy)
    ensures var g := Gauge(p, input, skip); g.checked <= g.most && Peak(g) <= g.most + 1 && g.end.n <= g.most
    decreases |input|, Rank(p.c.state)
  {
    hide Switch, Deliver, Gauge, Rank;
    if input == "" {
      NoBytes(p, skip);
    } else {
      var a := Switch(p.c, input[0]);
      var m := Deliver(a, p.t, input[0], skip);
      GaugeUnfold(p, input, skip, a, m);
      if m.ctl.Advance? {
        PeakMost(Moved(p, a, m), input[1..], skip);
      } else if m.ctl.Stay? {
        PeakMost(Moved(p, a, m), input, skip);
      }
    }
  }

  /** No more header bytes than bytes. */
  lemma {:induction false} MostBound(p: Meter, input: string, skip: SkipPolicy)
    ensures Gauge(p, input, skip).most <= p.n + |input|
    decreases |input|, Rank(p.c.state)
  {
    hide Switch, Deliver, Gauge, Rank;
    MostBoundBy(p, input, skip);
  }

  lemma {:induction false} MostBoundBy(p: Meter, input: string, skip: SkipPolicy)
    ensures p.first || input == "" ==> Gauge(p, input, skip).most <= p.n + |input|
    ensures !p.first && input != "" ==> Gauge(p, input, skip).most <= p.n + |input| - 1
    decreases |input|, Rank(p.c.state)
  {
    hide Switch, Deliver, Gauge, Rank;
    if input == "" {
      NoBytes(p, skip);
    } else {
      var a := Switch(p.c, input[0]);
      var m := Deliver(a, p.t, input[0], skip);
      GaugeUnfold(p, input, skip, a, m);
      if m.ctl.Advance? {
        MostBoundBy(Moved(p, a, m), input[1..], skip);
      } else if m.ctl.Stay? {
        MostBoundBy(Moved(p, a, m), input, skip);
      }
    }
  }

  /** Counting on from where the first part got to. */
  lemma {:induction false} GaugeConcat(p: Meter, x: string, y: string, skip: SkipPolicy)
    ensures var g := Gauge(p, x, skip);
      Gauge(p, x + y, skip) ==
        if g.running then Raise(Gauge(g.end, y, skip), g.checked, Larger(g.most, g.end.n), g.looks) else g
    decreases |x|, Rank(p.c.state)
  {
    hide Switch, Deliver, Gauge, Rank;
    if x == "" {
      assert x + y == y;
      NoBytes(p, skip);
      StartMost(p, y, skip);
    } else {
      var a := Switch(p.c, x[0]);
      var m := Deliver(a, p.t, x[0], skip);
      assert (x + y)[0] == x[0] && (x + y)[1..] == x[1..] + y;
      GaugeUnfold(p, x, skip, a, m);
      GaugeUnfold(p, x + y, skip, a, m);
      if m.ctl.Advance? {
        GaugeConcat(Moved(p, a, m), x[1..], y, skip);
      } else if m.ctl.Stay? {
        GaugeConcat(Moved(p, a, m), x, y, skip);
      }
    }
  }

  lemma StartMost(p: Meter, input: string, skip: SkipPolicy)
    ensures p.n <= Gauge(p, input, skip).most
  {
    hide Switch, Deliver, Gauge, Rank;
    if input == "" {
      NoBytes(p, skip);
    } else {
      var a := Switch(p.c, input[0]);
      GaugeUnfold(p, input, skip, a, Deliver(a, p.t, input[0], skip));
    }
  }

  /** The meter moves as the machine does. */
  lemma {:induction false} GaugeRun(p: Meter, input: string, skip: SkipPolicy)
    ensures var g := Gauge(p, input, skip); var r := Run(p.c, p.t, input, skip);
      g.end.c == r.c && g.end.t == r.t && (g.running <==> r.halt.Running?)
    decreases |input|, Rank(p.c.state)
  {
    hide Switch, Deliver, Gauge, Rank;
    if input == "" {
      NoBytes(p, skip);
    } else {
      var a := Switch(p.c, input[0]);
      var m := Deliver(a, p.t, input[0], skip);
      GaugeUnfold(p, input, skip, a, m);
      RunUnfold(p.c, p.t, input, skip, a);
      if m.ctl.Advance? {
        GaugeRun(Moved(p, a, m), input[1..], skip);
      } else if m.ctl.Stay? {
        GaugeRun(Moved(p, a, m), input, skip);
      }
    }
  }

  // ----- agreement of counts, whatever is fed afterwards -----

  predicate Matches(a: Track, b: Track) {
    && a.end == b.end && a.running == b.running && b.most <= a.most && b.looks <= a.looks && b.checked <= a.checked
    && Peak(a) <= Larger(HTTP_MAX_HEADER_SIZE, Peak(b))
  }

  /** From o with input x the counter gets where it gets from p with input y; in between it was within the limit. */
  ghost predicate Meets(o: Meter, x: string, p: Meter, y: string, skip: SkipPolicy) {
    forall z: string :: Matches(Gauge(o, x + z, skip), Gauge(p, y + z, skip))
  }

  /** From p with input y no more header bytes are counted than from o with input x, up to d. */
  ghost predicate Light(o: Meter, x: string, p: Meter, y: string, d: nat, skip: SkipPolicy) {
    forall z: string :: Gauge(p, y + z, skip).most <= Gauge(o, x + z, skip).most + d
  }

  /** From p with input y at least j header bytes fewer are looked at than from o with input x, but for e. */
  ghost predicate Fewer(o: Meter, x: string, p: Meter, y: string, j: nat, e: nat, skip: SkipPolicy) {
    forall z: string :: Gauge(p, y + z, skip).looks + j <= Gauge(o, x + z, skip).looks + e
  }

  lemma FewerMeets(o: Meter, x: string, p: Meter, y: string, skip: SkipPolicy)
    requires Meets(o, x, p, y, skip)
    ensures Fewer(o, x, p, y, 0, 0, skip)
  {
    hide Gauge;
  }

  lemma FewerLess(o: Meter, x: string, p: Meter, y: string, j: nat, i: nat, e: nat, skip: SkipPolicy)
    requires Fewer(o, x, p, y, j, e, skip) && i <= j
    ensures Fewer(o, x, p, y, i, e, skip)
  {
    hide Gauge;
  }

  /** With nothing still to pay. */
  lemma FewerEven(o: Meter, x: string, p: Meter, y: string, j: nat, e: nat, skip: SkipPolicy)
    requires Fewer(o, x, p, y, j + e, e, skip)
    ensures Fewer(o, x, p, y, j, 0, skip)
  {
    hide Gauge;
  }

  lemma FewerTrans(o: Meter, x: string, p: Meter, y: string, w: string, q: Meter, v: string, i: nat, j: nat, e: nat,
                   skip: SkipPolicy)
    requires Fewer(o, x, p, y + w, i, 0, skip) && Fewer(p, y, q, v, j, e, skip)
    ensures Fewer(o, x, q, v + w, i + j, e, skip)
  {
    hide Gauge;
    forall z: string
      ensures Gauge(q, v + w + z, skip).looks + (i + j) <= Gauge(o, x + z, skip).looks + e
    {
      assert y + w + z == y + (w + z) && v + w + z == v + (w + z);
    }
  }

  /** One pass. */
  lemma FewerStep(o: Meter, x: string, p: Meter, y: string, j: nat, skip: SkipPolicy, a: Act, m: Micro)
    requires y != "" && Fewer(o, x, p, y, j, 0, skip) && a == Switch(p.c, y[0]) && m == Deliver(a, p.t, y[0], skip)
    ensures m.ctl.Advance? ==> Fewer(o, x, Moved(p, a, m), y[1..], j, 0, skip)
    ensures m.ctl.Stay? ==> Fewer(o, x, Moved(p, a, m), y, j, 0, skip)
  {
    hide Switch, Deliver, Gauge, Rank;
    var w := if m.ctl.Advance? then y[1..] else y;
    forall z: string | m.ctl.Advance? || m.ctl.Stay?
      ensures Gauge(Moved(p, a, m), w + z, skip).looks + j <= Gauge(o, x + z, skip).looks
    {
      assert (y + z)[0] == y[0] && (y + z)[1..] == y[1..] + z;
      GaugeUnfold(p, y + z, skip, a, m);
    }
  }

  /** The count does not matter for how many bytes are looked at; looking at a byte again costs one look. */
  lemma {:induction false} LooksShift(p: Meter, q: Meter, input: string, skip: SkipPolicy)
    requires p.c == q.c && p.t == q.t
    ensures input == "" ==> Gauge(p, input, skip).looks == Gauge(q, input, skip).looks
    ensures Gauge(p, input, skip).looks + Look(q) <= Gauge(q, input, skip).looks + Look(p) || input == ""
    decreases |input|, Rank(p.c.state)
  {
    hide Switch, Deliver, Gauge, Rank, Seen, Kept;
    if input == "" {
      NoBytes(p, skip);
      NoBytes(q, skip);
    } else {
      var a := Switch(p.c, input[0]);
      var m := Deliver(a, p.t, input[0], skip);
      GaugeUnfold(p, input, skip, a, m);
      GaugeUnfold(q, input, skip, a, m);
      if m.ctl.Advance? {
        LooksShift(Moved(p, a, m), Moved(q, a, m), input[1..], skip);
      } else if m.ctl.Stay? {
        LooksShift(Moved(p, a, m), Moved(q, a, m), input, skip);
      }
    }
  }

  lemma FewerShift(o: Meter, x: string, p: Meter, q: Meter, y: string, j: nat, e: nat, skip: SkipPolicy)
    requires Fewer(o, x, p, y, j, e, skip) && q.c == p.c && q.t == p.t
    ensures Fewer(o, x, q, y, j, e + Look(q), skip)
    ensures Look(q) <= Look(p) ==> Fewer(o, x, q, y, j, e, skip)
  {
    hide Gauge;
    forall z: string
      ensures Gauge(q, y + z, skip).looks + j <= Gauge(o, x + z, skip).looks + e + Look(q)
      ensures Look(q) <= Look(p) ==> Gauge(q, y + z, skip).looks + j <= Gauge(o, x + z, skip).looks + e
    {
      LooksShift(q, p, y + z, skip);
    }
  }

  /** No more looks than bytes. */
  lemma {:induction false} LooksBound(p: Meter, input: string, skip: SkipPolicy)
    ensures Gauge(p, input, skip).looks <= |input|
    ensures !p.first && input != "" ==> Gauge(p, input, skip).looks <= |input| - 1
    decreases |input|, Rank(p.c.state)
  {
    hide Switch, Deliver, Gauge, Rank;
    if input == "" {
      NoBytes(p, skip);
    } else {
      var a := Switch(p.c, input[0]);
      var m := Deliver(a, p.t, input[0], skip);
      GaugeUnfold(p, input, skip, a, m);
      if m.ctl.Advance? {
        LooksBound(Moved(p, a, m), input[1..], skip);
      } else if m.ctl.Stay? {
        LooksBound(Moved(p, a, m), input, skip);
      }
    }
  }

  lemma MeetsSelf(o: Meter, x: string, skip: SkipPolicy)
    ensures Meets(o, x, o, x, skip)
  {
    hide Gauge;
  }

  lemma MeetsFirst(o: Meter, x: string, p: Meter, y: string, skip: SkipPolicy)
    requires y != "" && Meets(o, x, p, y, skip)
    ensures Meets(o, x, p.(n := Visited(p), first := false), y, skip)
  {
    hide Switch, Deliver, Gauge, Rank;
    var q := p.(n := Visited(p), first := false);
    forall z: string
      ensures var g := Gauge(q, y + z, skip); Gauge(p, y + z, skip) == g.(looks := g.looks + Look(p))
    {
      GaugeFirst(p, y + z, skip);
    }
  }

  /** Looking at the next byte. */
  lemma GaugeFirst(p: Meter, input: string, skip: SkipPolicy)
    requires input != ""
    ensures var g := Gauge(p.(n := Visited(p), first := false), input, skip);
      Gauge(p, input, skip) == g.(looks := g.looks + Look(p))
  {
    hide Switch, Deliver, Gauge, Rank;
    var a := Switch(p.c, input[0]);
    var m := Deliver(a, p.t, input[0], skip);
    GaugeUnfold(p, input, skip, a, m);
    GaugeUnfold(p.(n := Visited(p), first := false), input, skip, a, m);
  }

  lemma FewerFirst(o: Meter, x: string, p: Meter, y: string, j: nat, skip: SkipPolicy)
    requires y != "" && Fewer(o, x, p, y, j, 0, skip)
    ensures Fewer(o, x, p.(n := Visited(p), first := false), y, j + Look(p), 0, skip)
  {
    hide Gauge;
    var q := p.(n := Visited(p), first := false);
    forall z: string
      ensures Gauge(q, y + z, skip).looks + (j + Look(p)) <= Gauge(o, x + z, skip).looks
    {
      GaugeFirst(p, y + z, skip);
    }
  }

  lemma MatchesRaise(a: Track, b: Track, s: nat, k: nat, j: nat)
    requires Matches(a, Raise(b, s, k, j)) && (s <= HTTP_MAX_HEADER_SIZE || s <= Peak(b))
    ensures Matches(a, b)
  {
  }

  /** What follows for the counter from one pass. */
  ghost predicate MeterLeads(o: Meter, x: string, p: Meter, a: Act, m: Micro, y: string, skip: SkipPolicy)
    requires y != ""
  {
    match m.ctl
    case Advance => Meets(o, x, Moved(p, a, m), y[1..], skip)
    case Stay => Meets(o, x, Moved(p, a, m), y, skip)
    case Stop => Peak(Gauge(o, x, skip)) <= HTTP_MAX_HEADER_SIZE
    case Err(_) => Peak(Gauge(o, x, skip)) <= HTTP_MAX_HEADER_SIZE
  }

  lemma MeetsLeads(o: Meter, x: string, p: Meter, y: string, skip: SkipPolicy, a: Act, m: Micro)
    requires y != "" && Meets(o, x, p, y, skip) && a == Switch(p.c, y[0]) && m == Deliver(a, p.t, y[0], skip)
    requires Seen(p, a) <= HTTP_MAX_HEADER_SIZE
    ensures MeterLeads(o, x, p, a, m, y, skip)
  {
    hide Switch, Deliver, Gauge, Rank, Matches;
    if m.ctl.Advance? || m.ctl.Stay? {
      var w := if m.ctl.Advance? then y[1..] else y;
      forall z: string
        ensures Matches(Gauge(o, x + z, skip), Gauge(Moved(p, a, m), w + z, skip))
      {
        assert (y + z)[0] == y[0] && (y + z)[1..] == y[1..] + z;
        GaugeUnfold(p, y + z, skip, a, m);
        MatchesRaise(Gauge(o, x + z, skip), Gauge(Moved(p, a, m), w + z, skip), Seen(p, a), Visited(p), Look(p));
      }
    } else {
      assert x + "" == x && y + "" == y;
      GaugeUnfold(p, y, skip, a, m);
      HaltPeak(Gauge(o, x, skip), Gauge(p, y, skip));
    }
  }

  lemma HaltPeak(a: Track, b: Track)
    requires Matches(a, b) && !b.running && b.checked <= HTTP_MAX_HEADER_SIZE
    ensures Peak(a) <= HTTP_MAX_HEADER_SIZE
  {
  }

  /** Counted bytes of the pass that is under way carry over, also beyond the limit. */
  lemma MeetsLight(o: Meter, x: string, p: Meter, y: string, skip: SkipPolicy, a: Act, m: Micro)
    requires y != "" && Meets(o, x, p, y, skip) && a == Switch(p.c, y[0]) && m == Deliver(a, p.t, y[0], skip)
    ensures m.ctl.Advance? ==> Light(o, x, Moved(p, a, m), y[1..], 0, skip)
    ensures m.ctl.Stay? ==> Light(o, x, Moved(p, a, m), y, 0, skip)
  {
    hide Switch, Deliver, Gauge, Rank;
    forall z: string | m.ctl.Advance? || m.ctl.Stay?
      ensures Gauge(Moved(p, a, m), (if m.ctl.Advance? then y[1..] else y) + z, skip).most <= Gauge(o, x + z, skip).most
    {
      assert (y + z)[0] == y[0] && (y + z)[1..] == y[1..] + z;
      GaugeUnfold(p, y + z, skip, a, m);
    }
  }

  /** Where the count at a byte exceeds the limit and is compared with it, so does that of the whole call. */
  lemma MeetsOver(o: Meter, x: string, p: Meter, y: string, skip: SkipPolicy)
    requires y != "" && Meets(o, x, p, y, skip) && !Unchecked(p, Switch(p.c, y[0])) && Visited(p) > HTTP_MAX_HEADER_SIZE
    ensures Peak(Gauge(o, x, skip)) > HTTP_MAX_HEADER_SIZE
  {
    hide Switch, Deliver, Gauge, Rank;
    var a := Switch(p.c, y[0]);
    assert x + "" == x && y + "" == y;
    GaugeUnfold(p, y, skip, a, Deliver(a, p.t, y[0], skip));
  }

  /** The counter at the end of a call. */
  lemma MeetsEnd(o: Meter, x: string, p: Meter, skip: SkipPolicy)
    requires Meets(o, x, p, "", skip)
    ensures var g := Gauge(o, x, skip);
      && g.running && g.end == p
      && (CountOf(g) > HTTP_MAX_HEADER_SIZE ==> Peak(g) > HTTP_MAX_HEADER_SIZE)
      && (CountOf(g) <= HTTP_MAX_HEADER_SIZE ==> Peak(g) <= HTTP_MAX_HEADER_SIZE)
  {
    hide Gauge, Matches;
    assert x + "" == x;
    NoBytes(p, skip);
    assert Matches(Gauge(o, x + "", skip), Gauge(p, "" + "", skip));
    EndPeak(Gauge(o, x, skip), p);
  }

  lemma EndPeak(g: Track, p: Meter)
    requires Matches(g, Track(p, 0, p.n, 0, true))
    ensures g.running && g.end == p
    ensures CountOf(g) > HTTP_MAX_HEADER_SIZE ==> Peak(g) > HTTP_MAX_HEADER_SIZE
    ensures CountOf(g) <= HTTP_MAX_HEADER_SIZE ==> Peak(g) <= HTTP_MAX_HEADER_SIZE
  {
  }

  lemma LightMeets(o: Meter, x: string, p: Meter, y: string, skip: SkipPolicy)
    requires Meets(o, x, p, y, skip)
    ensures Light(o, x, p, y, 0, skip)
  {
    hide Gauge;
  }

  lemma LightShift(o: Meter, x: string, p: Meter, q: Meter, y: string, d: nat, e: nat, skip: SkipPolicy)
    requires Light(o, x, p, y, d, skip) && q.c == p.c && q.t == p.t && q.n <= p.n + e && Visited(q) <= Visited(p) + e
    ensures Light(o, x, q, y, d + e, skip)
  {
    hide Gauge;
    forall z: string
      ensures Gauge(q, y + z, skip).most <= Gauge(o, x + z, skip).most + (d + e)
    {
      MostShift(q, p, e, y + z, skip);
    }
  }

  lemma LightTrans(o: Meter, x: string, p: Meter, y: string, w: string, q: Meter, v: string, d: nat, e: nat,
                   skip: SkipPolicy)
    requires Light(o, x, p, y + w, d, skip) && Light(p, y, q, v, e, skip)
    ensures Light(o, x, q, v + w, d + e, skip)
  {
    hide Gauge;
    forall z: string
      ensures Gauge(q, v + w + z, skip).most <= Gauge(o, x + z, skip).most + (d + e)
    {
      assert y + w + z == y + (w + z) && v + w + z == v + (w + z);
    }
  }

  /** The looks that are behind a parser at byte q of a call that began at s: at the first byte, and at this one. */
  function Gone(s: Meter, q: nat, state: State, again: bool): nat {
    (if (again || q > 0) && ParsingHeader(s.c.state) then 1 else 0) +
    if again && q > 0 && ParsingHeader(state) then 1 else 0
  }

  /** A call that stops at byte q, before it is consumed or after it, and leaves the meter e. */
  lemma StopFewer(s: Meter, x: string, p: Meter, e: Meter, y: string, q: nat, from: State, mid: bool, skip: SkipPolicy)
    requires Fewer(s, x, p, y, Gone(s, q, from, true), 0, skip) && e.c == p.c && e.t == p.t && e.first
    requires if mid then ParsingHeader(e.c.state) ==> ParsingHeader(from) else p.first
    ensures Fewer(s, x, e, y, Gone(s, 1, from, false), if mid && q == 0 && ParsingHeader(e.c.state) then 1 else 0, skip)
  {
    hide Gauge;
    FewerShift(s, x, p, e, y, Gone(s, q, from, true), 0, skip);
  }

  lemma GoneOn(s: Meter, q: nat, from: State, to: State, again: bool)
    requires again && ParsingHeader(to) ==> ParsingHeader(from)
    ensures Gone(s, if again then q else q + 1, to, again) <= Gone(s, q, from, true)
  {
  }

  /** What the meter q after a pass says about a parser that goes on. */
  lemma GoMeters(s: Meter, x: string, q: Meter, y: string, p: nat, from: State, again: bool, skip: SkipPolicy)
    requires Fewer(s, x, q, y, Gone(s, p, from, true), 0, skip)
    requires again && ParsingHeader(q.c.state) ==> ParsingHeader(from)
    ensures Fewer(s, x, q, y, Gone(s, if again then p else p + 1, q.c.state, again), 0, skip)
  {
    GoneOn(s, p, from, q.c.state, again);
    FewerLess(s, x, q, y, Gone(s, p, from, true), Gone(s, if again then p else p + 1, q.c.state, again), 0, skip);
  }

  /** And about one that stops. */
  lemma StopMeters(s: Meter, x: string, q: Meter, y: string, p: nat, from: State, mid: bool, skip: SkipPolicy)
    requires Light(s, x, q, y, 0, skip) && Fewer(s, x, q, y, Gone(s, p, from, true), 0, skip)
    requires if mid then ParsingHeader(q.c.state) ==> ParsingHeader(from) else q.first
    ensures var e := Meter(q.c, q.t, q.n, true, false);
      && Light(s, x, e, y, if mid && ParsingHeader(q.c.state) then 1 else 0, skip)
      && Fewer(s, x, e, y, Gone(s, 1, q.c.state, false),
               if mid && p == 0 && ParsingHeader(q.c.state) then 1 else 0, skip)
  {
    hide Gauge;
    var e := Meter(q.c, q.t, q.n, true, false);
    LightShift(s, x, q, e, y, 0, if mid && ParsingHeader(q.c.state) then 1 else 0, skip);
    StopFewer(s, x, q, e, y, p, from, mid, skip);
  }

  lemma LightMore(o: Meter, x: string, p: Meter, y: string, d: nat, e: nat, skip: SkipPolicy)
    requires Light(o, x, p, y, d, skip) && d <= e
    ensures Light(o, x, p, y, e, skip)
  {
    hide Gauge;
  }

  lemma RankBound(s: State)
    ensures Rank(s) <= 3
  {
  }
}
