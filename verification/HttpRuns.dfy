/**
 What a buffer means: agreement of the parser's progress with the byte-by-byte machine and its counter, for every
 continuation of the stream, and what the inner loops over names, values and bodies do to both.
 */
module HttpRuns {
  import opened HttpChars
  import opened HttpMachine
  import opened HttpInvariants
  import opened HttpCounting

  /** What a callback does: return 0, pause the parser and return 0, or return an error. */
  datatype Reply = Proceed | Pause | Refuse

  /** The application: its answer to each callback, given all callbacks so far, and its on_headers_complete result. */
  datatype Callbacks = Callbacks(reply: seq<Event> -> Reply, skip: SkipPolicy)

  /** The mark pointers of `http_parser_execute`; a kind without an entry is a null mark. */
  type Marks = map<DataKind, nat>

  const TWO_TO_THE_32: nat := 0x1_0000_0000

  /** A buffer for which the 32-bit header byte counter cannot wrap. */
  predicate Countable(data: string) {
    |data| + HTTP_MAX_HEADER_SIZE < TWO_TO_THE_32
  }

  /** At most one mark is set, and it belongs to the run that the parser is in. */
  predicate MarksFit(h: Holder, marks: Marks, p: nat) {
    && (forall k | k in marks :: h == Holds(k) && marks[k] <= p)
    && (AlwaysMarked(h) ==> h.k in marks)
  }

  /** The trace once the marked bytes before `p` are delivered. */
  function Pending(t: Trace, h: Holder, marks: Marks, data: string, p: nat): Trace
    requires p <= |data| && MarksFit(h, marks, p)
  {
    if h.Holds? && h.k in marks then Emit(t, Data(h.k, data[marks[h.k]..p])) else t
  }

  lemma EmitTwice(t: Trace, k: DataKind, x: string, y: string)
    ensures Emit(Emit(t, Data(k, x)), Data(k, y)) == Emit(t, Data(k, x + y))
  {
    if t != [] && t[|t| - 1].Data? && t[|t| - 1].kind == k {
      var z := t[|t| - 1].bytes;
      assert z + x + y == z + (x + y);
    }
  }

  lemma EmitNothing(t: Trace, k: DataKind)
    requires t != [] && t[|t| - 1].Data? && t[|t| - 1].kind == k
    ensures Emit(t, Data(k, [])) == t
  {
    assert t[|t| - 1].bytes + [] == t[|t| - 1].bytes;
  }

  lemma EmitLast(t: Trace, k: DataKind, x: string)
    ensures var u := Emit(t, Data(k, x)); u != [] && u[|u| - 1].Data? && u[|u| - 1].kind == k
  {
  }

  /** MARK is non-destructive. */
  function Marked(marks: Marks, k: DataKind, p: nat): Marks {
    if k in marks then marks else marks[k := p]
  }

  /** Reading bytes inside a run extends what is pending by those bytes. */
  lemma PendingGrows(t: Trace, h: Holder, marks: Marks, data: string, p: nat, q: nat, k: DataKind)
    requires p <= q <= |data| && MarksFit(h, marks, p) && (h.Nobody? || h == Holds(k))
    ensures MarksFit(Holds(k), Marked(marks, k, p), q)
    ensures Emit(Pending(t, h, marks, data, p), Data(k, data[p..q])) ==
      Pending(t, Holds(k), Marked(marks, k, p), data, q)
  {
    if k in marks {
      EmitTwice(t, k, data[marks[k]..p], data[p..q]);
      assert data[marks[k]..q] == data[marks[k]..p] + data[p..q];
    }
  }

  lemma LastShape(c: Core, a: Act)
    requires a.LastAgain? && Shape(c, a)
    ensures KindOf(c.state) == Holds(a.k) && KindOf(a.c.state).Nobody?
  {
  }

  lemma FailDelivers(a: Act, t: Trace, ch: char, skip: SkipPolicy)
    ensures a.Fail? <==> Deliver(a, t, ch, skip).ctl.Err?
    ensures a.Fail? && Deliver(a, t, ch, skip).ctl.Err? ==> Deliver(a, t, ch, skip).ctl.errno == a.errno
    ensures a.FlushNext? ==> Deliver(a, t, ch, skip).ctl.Advance?
    ensures a.Fail? ==> Deliver(a, t, ch, skip).t == t
  {
  }

  lemma LastDelivers(a: Act, t: Trace, ch: char, skip: SkipPolicy)
    requires a.LastAgain?
    ensures Deliver(a, t, ch, skip) == Micro(a.c, Emit(t, Data(a.k, [ch])), Stay)
  {
  }

  /** `u` is `t`, or `t` with one more piece of data. */
  ghost predicate Undelivered(t: Trace, u: Trace) {
    u == t || exists k, bytes :: u == Emit(t, Data(k, bytes))
  }

  /** `t` is a beginning of the trace `u`; its last piece of data may go on in `u`. */
  predicate Below(t: Trace, u: Trace) {
    t == [] ||
    (&& |t| <= |u| && t[..|t| - 1] == u[..|t| - 1]
     && var e, f := t[|t| - 1], u[|t| - 1];
        e == f || (e.Data? && f.Data? && e.kind == f.kind && e.bytes <= f.bytes))
  }

  lemma BelowEmit(t: Trace, e: Event)
    ensures Below(t, Emit(t, e))
  {
  }

  lemma BelowTrans(t: Trace, u: Trace, v: Trace)
    requires Below(t, u) && Below(u, v)
    ensures Below(t, v)
  {
    if t != [] {
      var i := |t| - 1;
      assert u[..|u| - 1] == v[..|u| - 1];
      if |t| < |u| {
        assert u[i] == u[..|u| - 1][i] == v[..|u| - 1][i] == v[i];
      }
      assert t[..i] == u[..i] == v[..|u| - 1][..i] == v[..i];
    }
  }

  lemma BelowUndelivered(t: Trace, u: Trace)
    requires Undelivered(t, u)
    ensures Below(t, u)
  {
    if u != t {
      var k, bytes :| u == Emit(t, Data(k, bytes));
      BelowEmit(t, Data(k, bytes));
    }
  }

  lemma DeliverBelow(a: Act, t: Trace, ch: char, skip: SkipPolicy)
    ensures Below(t, Deliver(a, t, ch, skip).t)
  {
    if a.Mark? || a.Keep? || a.LastAgain? {
      BelowEmit(t, Data(a.k, [ch]));
    } else if a.EmptyAgain? {
      BelowEmit(t, Data(a.k, []));
    } else if a.HeadersAgain? {
      BelowEmit(t, HeadersEvent(a.c));
    } else if a.NotifyNext? || a.NotifyExit? || a.NotifyAgain? {
      BelowEmit(t, a.e);
    }
  }

  /** What has been reported stays reported. */
  lemma {:induction false} RunBelow(c: Core, t: Trace, input: string, skip: SkipPolicy)
    ensures Below(t, Run(c, t, input, skip).t)
    decreases |input|, Rank(c.state)
  {
    hide Switch, Deliver, Rank, Below;
    if input == "" {
      BelowSelf(t);
    } else {
      var a := Switch(c, input[0]);
      var m := Deliver(a, t, input[0], skip);
      RunUnfold(c, t, input, skip, a);
      DeliverBelow(a, t, input[0], skip);
      ReexecuteLowersRank(c, t, input[0], skip);
      if m.ctl.Advance? {
        RunBelow(m.c, m.t, input[1..], skip);
        BelowTrans(t, m.t, Run(m.c, m.t, input[1..], skip).t);
      } else if m.ctl.Stay? {
        RunBelow(m.c, m.t, input, skip);
        BelowTrans(t, m.t, Run(m.c, m.t, input, skip).t);
      }
    }
  }

  lemma BelowSelf(t: Trace)
    ensures Below(t, t)
  {
  }

  lemma PendingUndelivered(t: Trace, h: Holder, marks: Marks, data: string, p: nat)
    requires p <= |data| && MarksFit(h, marks, p)
    ensures Undelivered(t, Pending(t, h, marks, data, p))
  {
  }

  lemma Slices(s: string, i: nat, j: nat, k: nat)
    requires i <= j <= k <= |s|
    ensures s[i..j] + s[j..k] == s[i..k]
  {
  }

  lemma MergeSnoc(log: seq<Event>, e: Event)
    ensures Merge(log + [e]) == Emit(Merge(log), e)
  {
    assert (log + [e])[..|log|] == log;
  }

  // ----- agreement with the byte-by-byte meaning, whatever is fed afterwards -----

  /** Where the machine stands: its fields and what it has reported. */
  datatype Point = Point(c: Core, t: Trace)

  function Origin(s: Meter): Point {
    Point(s.c, s.t)
  }

  /** From `o` with input `x` the machine gets to the same end as from `p` with input `y`, for every continuation. */
  ghost predicate Agrees(o: Point, x: string, p: Point, y: string, skip: SkipPolicy) {
    forall z: string :: Run(o.c, o.t, x + z, skip) == Run(p.c, p.t, y + z, skip)
  }

  /** From `o` with input `x` the machine halts with `f`, for every continuation. */
  ghost predicate Ends(o: Point, x: string, f: Final, skip: SkipPolicy) {
    forall z: string :: Run(o.c, o.t, x + z, skip) == f.(left := f.left + z)
  }

  /** From `o` with input `x` the machine reports at least `t`, for every continuation. */
  ghost predicate Reports(o: Point, x: string, t: Trace, skip: SkipPolicy) {
    forall z: string :: Below(t, Run(o.c, o.t, x + z, skip).t)
  }

  lemma AgreesReports(o: Point, x: string, p: Point, y: string, t: Trace, skip: SkipPolicy)
    requires Agrees(o, x, p, y, skip) && Below(t, p.t)
    ensures Reports(o, x, t, skip)
  {
    hide Switch, Run, Below;
    forall z: string
      ensures Below(t, Run(o.c, o.t, x + z, skip).t)
    {
      RunBelow(p.c, p.t, y + z, skip);
      BelowTrans(t, p.t, Run(p.c, p.t, y + z, skip).t);
    }
  }

  lemma LeadsReports(o: Point, x: string, m: Micro, y: string, skip: SkipPolicy)
    requires y != "" && Leads(o, x, m, y, skip)
    ensures Reports(o, x, m.t, skip)
  {
    hide Switch, Run, Below;
    BelowSelf(m.t);
    if m.ctl.Advance? {
      AgreesReports(o, x, Point(m.c, m.t), y[1..], m.t, skip);
    } else if m.ctl.Stay? {
      AgreesReports(o, x, Point(m.c, m.t), y, m.t, skip);
    }
  }

  /** What follows from one pass through the `switch` with the effect `m`, on input `y`. */
  ghost predicate Leads(o: Point, x: string, m: Micro, y: string, skip: SkipPolicy)
    requires y != ""
  {
    match m.ctl
    case Advance => Agrees(o, x, Point(m.c, m.t), y[1..], skip)
    case Stay => Agrees(o, x, Point(m.c, m.t), y, skip)
    case Stop => Ends(o, x, Final(m.c, m.t, y[1..], Upgraded), skip)
    case Err(errno) => Ends(o, x, Final(m.c, m.t, y, Failed(errno)), skip)
  }

  lemma ContinueLeads(o: Point, x: string, m: Micro, y: string, skip: SkipPolicy)
    requires y != "" && forall z: string :: Run(o.c, o.t, x + z, skip) == Continue(m, y + z, skip)
    ensures Leads(o, x, m, y, skip)
  {
    hide Switch, Run;
    forall z: string
      ensures (y + z)[1..] == y[1..] + z
    {
    }
  }

  lemma AgreesLeads(o: Point, x: string, p: Point, y: string, skip: SkipPolicy, a: Act)
    requires y != "" && Agrees(o, x, p, y, skip) && a == Switch(p.c, y[0])
    ensures Leads(o, x, Deliver(a, p.t, y[0], skip), y, skip)
  {
    var m := Deliver(a, p.t, y[0], skip);
    forall z: string
      ensures Run(o.c, o.t, x + z, skip) == Continue(m, y + z, skip)
    {
      assert (y + z)[0] == y[0];
      RunUnfold(p.c, p.t, y + z, skip, a);
    }
    ContinueLeads(o, x, m, y, skip);
  }

  // ----- the inner loops, on the byte-by-byte meaning -----

  /** The byte is data of the run that the state is in, and the run goes on. */
  ghost predicate GlideStep(c: Core, ch: char, d: Core) {
    var a := Switch(c, ch);
    (a.Keep? || a.Mark?) && KindOf(c.state) == Holds(a.k) && d == a.c
  }

  ghost predicate GlidePath(path: seq<Core>, s: string) {
    |path| == |s| + 1 && forall i | 0 <= i < |s| :: GlideStep(path[i], s[i], path[i + 1])
  }

  /** All bytes of `s` are data of the run that `c` is in, and `d` is reached after them. */
  ghost predicate Glides(c: Core, s: string, d: Core) {
    exists path :: GlidePath(path, s) && path[0] == c && path[|s|] == d
  }

  lemma GlideNone(c: Core)
    ensures Glides(c, "", c)
  {
    assert GlidePath([c], "");
  }

  lemma GlideNowhere(c: Core, d: Core)
    requires Glides(c, "", d)
    ensures d == c
  {
  }

  lemma GlideOne(c: Core, ch: char, d: Core)
    requires GlideStep(c, ch, d)
    ensures Glides(c, [ch], d)
  {
    assert GlidePath([c, d], [ch]);
  }

  lemma GlideConcat(c: Core, x: string, d: Core, y: string, e: Core)
    requires Glides(c, x, d) && Glides(d, y, e)
    ensures Glides(c, x + y, e)
  {
    hide Switch, Run;
    var f :| GlidePath(f, x) && f[0] == c && f[|x|] == d;
    var g :| GlidePath(g, y) && g[0] == d && g[|y|] == e;
    var h := f[..|x|] + g;
    forall i | 0 <= i < |x + y|
      ensures GlideStep(h[i], (x + y)[i], h[i + 1])
    {
      if i < |x| {
        assert h[i] == f[i] && h[i + 1] == f[i + 1];
      } else {
        assert h[i] == g[i - |x|] && h[i + 1] == g[i - |x| + 1];
      }
    }
    assert GlidePath(h, x + y);
  }

  lemma GlideStepRun(c: Core, t: Trace, ch: char, d: Core, rest: string, skip: SkipPolicy)
    requires GlideStep(c, ch, d)
    ensures KindOf(c.state).Holds? && KindOf(d.state) == KindOf(c.state)
    ensures Run(c, t, [ch] + rest, skip) == Run(d, Emit(t, Data(KindOf(c.state).k, [ch])), rest, skip)
  {
    SwitchShape(c, ch);
    RunUnfold(c, t, [ch] + rest, skip, Switch(c, ch));
    assert ([ch] + rest)[1..] == rest;
  }

  lemma {:induction false} GlideRun(c: Core, t: Trace, s: string, d: Core, rest: string, skip: SkipPolicy)
    requires Glides(c, s, d) && s != ""
    ensures KindOf(c.state).Holds? && KindOf(d.state) == KindOf(c.state)
    ensures Run(c, t, s + rest, skip) == Run(d, Emit(t, Data(KindOf(c.state).k, s)), rest, skip)
    decreases |s|
  {
    hide GlideStep, Run, KindOf, Emit;
    var path :| GlidePath(path, s) && path[0] == c && path[|s|] == d;
    assert GlideStep(path[0], s[0], path[1]);
    GlideStepRun(c, t, s[0], path[1], s[1..] + rest, skip);
    assert [s[0]] + (s[1..] + rest) == s + rest && [s[0]] + s[1..] == s;
    if |s| == 1 {
      assert s == [s[0]] && s[1..] + rest == rest;
    } else {
      assert GlidePath(path[1..], s[1..]);
      GlideRun(path[1], Emit(t, Data(KindOf(c.state).k, [s[0]])), s[1..], d, rest, skip);
      EmitTwice(t, KindOf(c.state).k, [s[0]], s[1..]);
    }
  }

  lemma GlideAgrees(o: Point, x: string, c: Core, t: Trace, s: string, d: Core, y: string, skip: SkipPolicy)
    requires Glides(c, s, d) && s != "" && Agrees(o, x, Point(c, t), s + y, skip)
    ensures KindOf(c.state).Holds? && KindOf(d.state) == KindOf(c.state)
    ensures Agrees(o, x, Point(d, Emit(t, Data(KindOf(c.state).k, s))), y, skip)
  {
    hide Switch, Run;
    GlideRun(c, t, s, d, "", skip);
    forall z: string
      ensures Run(o.c, o.t, x + z, skip) == Run(d, Emit(t, Data(KindOf(c.state).k, s)), y + z, skip)
    {
      GlideRun(c, t, s, d, y + z, skip);
      assert s + y + z == s + (y + z);
    }
  }

  lemma NameGlide(c: Core, ch: char)
    requires c.state.HeaderField? && CoreInv(c) && IsToken(ch)
    ensures var (hs, i) := FieldChar(c.hs, c.index, ch);
            Glides(c, [ch], c.(hs := hs, index := i)) && CoreInv(c.(hs := hs, index := i))
  {
    hide FieldChar, StartStep, MethodStep, ResponseLineStep, UrlStep, RequestLineStep, ValueStep, HeadersEndStep,
      BodyStep, ChunkSizeStep;
    var (hs, i) := FieldChar(c.hs, c.index, ch);
    FieldCharInv(c.hs, c.index, ch);
    GlideOne(c, ch, c.(hs := hs, index := i));
  }

  lemma ValueGlide(c: Core, ch: char, a: Act)
    requires c.state.HeaderValue? && CoreInv(c) && ch != CR && ch != LF && a == ValueChar(c, ch) && !a.Fail?
    ensures Glides(c, [ch], a.c) && CoreInv(a.c) && a.c.state.HeaderValue? && a.c.upgrade == c.upgrade
  {
    hide Switch, ValueChar;
    ValueCharInv(c, ch);
    ValueCharKeeps(c, ch);
    ValueSwitch(c, ch);
    GlideOne(c, ch, a.c);
  }

  lemma ValueSwitch(c: Core, ch: char)
    requires c.state.HeaderValue? && ch != CR && ch != LF
    ensures Switch(c, ch) == ValueChar(c, ch)
  {
    hide ValueChar;
  }

  /** The `memchr` skip: in the general header state, bytes other than CR and LF change nothing. */
  lemma GeneralGlide(c: Core, s: string)
    requires c.state.HeaderValue? && c.hs.General? && CR !in s && LF !in s
    ensures Glides(c, s, c)
  {
    var path := seq(|s| + 1, _ => c);
    forall i | 0 <= i < |s|
      ensures GlideStep(path[i], s[i], path[i + 1])
    {
      assert s[i] in s;
      assert Switch(c, s[i]) == Keep(c, ValueData);
    }
    assert GlidePath(path, s);
  }

  /** The parser after `n` body bytes in bulk. */
  function AfterBody(c: Core, n: nat): Core
    requires c.state.BodyIdentityEof? || n <= c.length
  {
    if c.state.BodyIdentityEof? then c
    else if c.state.ChunkData? && n == c.length then c.(length := 0, state := ChunkDataAlmostDone)
    else c.(length := c.length - n)
  }

  lemma AfterBodyInv(c: Core, n: nat)
    requires CoreInv(c) && 0 < n
    requires c.state.BodyIdentityEof? || (c.state.BodyIdentity? && n < c.length) ||
      (c.state.ChunkData? && n <= c.length)
    ensures CoreInv(AfterBody(c, n)) && AfterBody(c, n).upgrade == c.upgrade
    ensures KindOf(c.state) == Holds(BodyData) && KindOf(AfterBody(c, n).state) == Holds(BodyData)
  {
  }

  lemma BodyActs(c: Core, n: nat, i: nat, ch: char)
    requires c.state.BodyIdentityEof? || (c.state.BodyIdentity? && n < c.length) ||
      (c.state.ChunkData? && n <= c.length && 0 < c.length)
    requires i < n
    ensures Switch(AfterBody(c, i), ch) == Mark(AfterBody(c, i + 1), BodyData)
  {
  }

  lemma BodyGlide(c: Core, s: string)
    requires c.state.BodyIdentityEof? || (c.state.BodyIdentity? && |s| < c.length) ||
      (c.state.ChunkData? && |s| <= c.length && 0 < c.length)
    ensures Glides(c, s, AfterBody(c, |s|))
  {
    hide Switch;
    if s == "" {
      GlideNone(c);
    } else {
      var path := seq(|s| + 1, i requires 0 <= i <= |s| => AfterBody(c, i));
      forall i | 0 <= i < |s|
        ensures GlideStep(path[i], s[i], path[i + 1])
      {
        BodyActs(c, |s|, i, s[i]);
      }
      assert GlidePath(path, s);
    }
  }

  // ----- the inner loops, on the counter -----

  lemma GlideStepMoves(p: Meter, ch: char, d: Core, skip: SkipPolicy)
    requires GlideStep(p.c, ch, d)
    ensures var a := Switch(p.c, ch); var m := Deliver(a, p.t, ch, skip);
      && m.ctl.Advance? && KindOf(p.c.state).Holds? && KindOf(d.state) == KindOf(p.c.state)
      && Moved(p, a, m) == Meter(d, Emit(p.t, Data(KindOf(p.c.state).k, [ch])), Visited(p), true, Scans(p.c.state))
      && (p.c.state.HeaderValue? ==> a.Keep?)
  {
    SwitchShape(p.c, ch);
  }

  /** In a name the count is compared with the limit in the end, if not before. */
  lemma NamePeak(p: Meter, input: string, skip: SkipPolicy)
    requires p.c.state.HeaderField? && p.first
    ensures Peak(Gauge(p, input, skip)) >= p.n
  {
    hide Switch, Deliver, Gauge;
    if input == "" {
      NoBytes(p, skip);
    } else {
      var a := Switch(p.c, input[0]);
      GaugeUnfold(p, input, skip, a, Deliver(a, p.t, input[0], skip));
    }
  }

  /** One byte of a run. */
  lemma MeetsGlideStep(o: Meter, x: string, p: Meter, ch: char, d: Core, y: string, skip: SkipPolicy)
    requires GlideStep(p.c, ch, d) && Meets(o, x, p, [ch] + y, skip)
    requires Visited(p) <= HTTP_MAX_HEADER_SIZE || p.c.state.HeaderField? || (p.c.state.HeaderValue? && p.scan)
    ensures KindOf(p.c.state).Holds? && KindOf(d.state) == KindOf(p.c.state)
    ensures Meets(o, x, Meter(d, Emit(p.t, Data(KindOf(p.c.state).k, [ch])), Visited(p), true, Scans(p.c.state)), y,
      skip)
  {
    hide Switch, Deliver, Gauge, Matches, KindOf, GlideStep;
    var a := Switch(p.c, ch);
    var m := Deliver(a, p.t, ch, skip);
    GlideStepMoves(p, ch, d, skip);
    var q := Moved(p, a, m);
    forall z: string
      ensures Matches(Gauge(o, x + z, skip), Gauge(q, y + z, skip))
    {
      assert ([ch] + y + z)[0] == ch && ([ch] + y + z)[1..] == y + z;
      GaugeUnfold(p, [ch] + y + z, skip, a, m);
      if p.c.state.HeaderField? {
        SameKind(p.c.state, d.state);
        NamePeak(q, y + z, skip);
      }
      MatchesRaise(Gauge(o, x + z, skip), Gauge(q, y + z, skip), Seen(p, a), Visited(p), Look(p));
    }
  }

  lemma SameKind(s: State, r: State)
    requires KindOf(s) == KindOf(r)
    ensures s.HeaderField? ==> r == s
    ensures s.HeaderValue? ==> r == s
    ensures KindOf(s) == Holds(BodyData) ==> !ParsingHeader(s) && !Scans(s)
  {
  }

  /** A scanned part of a name or value: its first byte has been counted. */
  lemma {:induction false} MeetsScan(o: Meter, x: string, p: Meter, s: string, d: Core, y: string, skip: SkipPolicy)
    requires Glides(p.c, s, d) && s != "" && Scans(p.c.state) && !p.first && Meets(o, x, p, s + y, skip)
    requires p.n <= HTTP_MAX_HEADER_SIZE || p.c.state.HeaderField? || p.scan
    ensures KindOf(p.c.state).Holds? && KindOf(d.state) == KindOf(p.c.state)
    ensures Meets(o, x, Meter(d, Emit(p.t, Data(KindOf(p.c.state).k, s)), p.n + |s| - 1, true, true), y, skip)
    decreases |s|
  {
    hide Switch, Gauge, Meets, KindOf, Emit, GlideStep;
    var path: seq<Core> :| GlidePath(path, s) && path[0] == p.c && path[|s|] == d;
    assert GlideStep(path[0], s[0], path[1]);
    assert s + y == [s[0]] + (s[1..] + y);
    MeetsGlideStep(o, x, p, s[0], path[1], s[1..] + y, skip);
    SameKind(p.c.state, path[1].state);
    var k := KindOf(p.c.state).k;
    if |s| == 1 {
      assert s == [s[0]] && s[1..] + y == y;
    } else {
      var q := Meter(path[1], Emit(p.t, Data(k, [s[0]])), p.n, true, true);
      MeetsFirst(o, x, q, s[1..] + y, skip);
      assert GlidePath(path[1..], s[1..]);
      MeetsScan(o, x, q.(n := Visited(q), first := false), s[1..], d, y, skip);
      EmitTwice(p.t, k, [s[0]], s[1..]);
      assert [s[0]] + s[1..] == s;
    }
  }

  /** Body bytes do not count. */
  lemma {:induction false} MeetsBulk(o: Meter, x: string, p: Meter, s: string, d: Core, y: string, skip: SkipPolicy)
    requires Glides(p.c, s, d) && s != "" && KindOf(p.c.state) == Holds(BodyData) && Meets(o, x, p, s + y, skip)
    requires p.n <= HTTP_MAX_HEADER_SIZE
    ensures Meets(o, x, Meter(d, Emit(p.t, Data(BodyData, s)), p.n, true, false), y, skip)
    decreases |s|
  {
    hide Switch, Gauge, Meets, KindOf, Emit, GlideStep;
    var path: seq<Core> :| GlidePath(path, s) && path[0] == p.c && path[|s|] == d;
    assert GlideStep(path[0], s[0], path[1]);
    assert s + y == [s[0]] + (s[1..] + y);
    SameKind(p.c.state, p.c.state);
    MeetsGlideStep(o, x, p, s[0], path[1], s[1..] + y, skip);
    if |s| == 1 {
      assert s == [s[0]] && s[1..] + y == y;
    } else {
      assert GlidePath(path[1..], s[1..]);
      MeetsBulk(o, x, Meter(path[1], Emit(p.t, Data(BodyData, [s[0]])), p.n, true, false), s[1..], d, y, skip);
      EmitTwice(p.t, BodyData, [s[0]], s[1..]);
      assert [s[0]] + s[1..] == s;
    }
  }

  /** Scanning looks at bytes that are then behind. */
  lemma FewerScan(o: Meter, x: string, p: Meter, s: string, d: Core, y: string, j: nat, skip: SkipPolicy)
    requires Glides(p.c, s, d) && s != "" && Scans(p.c.state) && !p.first && p.n <= HTTP_MAX_HEADER_SIZE
    requires Fewer(o, x, p, s + y, j, 0, skip)
    ensures KindOf(p.c.state).Holds?
    ensures Fewer(o, x, Meter(d, Emit(p.t, Data(KindOf(p.c.state).k, s)), p.n + |s| - 1, true, true), y, j, 0, skip)
  {
    hide Switch, Gauge, Meets, Fewer, KindOf, Emit, Glides;
    MeetsSelf(p, s + y, skip);
    MeetsScan(p, s + y, p, s, d, y, skip);
    var q := Meter(d, Emit(p.t, Data(KindOf(p.c.state).k, s)), p.n + |s| - 1, true, true);
    FewerMeets(p, s + y, q, y, skip);
    assert s + y + "" == s + y && y + "" == y;
    FewerTrans(o, x, p, s + y, "", q, y, j, 0, 0, skip);
  }

  lemma FewerBulk(o: Meter, x: string, p: Meter, s: string, d: Core, y: string, j: nat, skip: SkipPolicy)
    requires Glides(p.c, s, d) && s != "" && KindOf(p.c.state) == Holds(BodyData) && p.n <= HTTP_MAX_HEADER_SIZE
    requires Fewer(o, x, p, s + y, j, 0, skip)
    ensures Fewer(o, x, Meter(d, Emit(p.t, Data(BodyData, s)), p.n, true, false), y, j, 0, skip)
  {
    hide Switch, Gauge, Meets, Fewer, KindOf, Emit, Glides;
    MeetsSelf(p, s + y, skip);
    MeetsBulk(p, s + y, p, s, d, y, skip);
    var q := Meter(d, Emit(p.t, Data(BodyData, s)), p.n, true, false);
    FewerMeets(p, s + y, q, y, skip);
    assert s + y + "" == s + y && y + "" == y;
    FewerTrans(o, x, p, s + y, "", q, y, j, 0, 0, skip);
  }

  /** A byte that was not a header byte is none when it is looked at again. */
  lemma StaysBody(p: Meter, ch: char, skip: SkipPolicy)
    ensures var m := Deliver(Switch(p.c, ch), p.t, ch, skip);
      m.ctl.Stay? && ParsingHeader(m.c.state) ==> ParsingHeader(p.c.state)
  {
    if !ParsingHeader(p.c.state) {
      BodyStays(p.c, ch);
    }
  }

  lemma BodyStays(c: Core, ch: char)
    requires !ParsingHeader(c.state)
    ensures var a := Switch(c, ch);
      && !a.FlushAgain? && !a.EmptyAgain? && !a.Again? && !a.NotifyAgain? && !a.HeadersAgain?
      && (a.LastAgain? ==> a.c.state.MessageDone?)
  {
  }

  /** The byte does not continue a scan. */
  predicate EndsScan(c: Core, ch: char) {
    Scans(c.state) ==> !Switch(c, ch).Keep?
  }

  lemma EndsScanMoves(p: Meter, ch: char, skip: SkipPolicy)
    requires EndsScan(p.c, ch)
    ensures var a := Switch(p.c, ch); !Moved(p, a, Deliver(a, p.t, ch, skip)).scan
  {
    SwitchShape(p.c, ch);
  }

  /** There are `n` bytes from `p` on without CR and LF. */
  predicate Clear(data: string, p: nat, n: nat) {
    p + n <= |data| && CR !in data[p..p + n] && LF !in data[p..p + n]
  }

  /** The first CR or LF from `p` on, or `q`; it is far away if the `memchr` skip has missed it. */
  ghost function LineEnd(data: string, p: nat, q: nat): (r: nat)
    requires p <= q <= |data|
    ensures p <= r <= q && CR !in data[p..r] && LF !in data[p..r]
    ensures r < q ==> data[r] == CR || data[r] == LF
    decreases q - p
  {
    if p == q || data[p] == CR || data[p] == LF then p
    else
      var r := LineEnd(data, p + 1, q);
      assert data[p..r] == [data[p]] + data[p + 1..r];
      r
  }

  lemma LineEndFar(data: string, p: nat, n: nat, q: nat)
    requires p <= q <= |data| && Clear(data, p, n) && LineEnd(data, p, q) < q
    ensures LineEnd(data, p, q) - p >= n
  {
    assert forall i | p <= i < p + n :: data[p..p + n][i - p] == data[i];
  }

  lemma LineEndActs(c: Core, ch: char)
    requires c.state.HeaderValue? && (ch == CR || ch == LF)
    ensures EndsScan(c, ch) && !Switch(c, ch).Fail? && (ch == CR ==> Switch(c, ch).FlushNext?)
  {
  }

  /** What one pass does, as far as the state goes. */
  ghost predicate Lawful(c: Core, t: Trace, m: Micro) {
    && (!m.ctl.Err? ==> CoreInv(m.c))
    && (m.ctl.Stay? ==> Rank(m.c.state) < Rank(c.state) && KindOf(m.c.state).Nobody?)
    && (!m.ctl.Err? && m.c.state.ChunkSizeStart? ==> ResetsCount(c.state) && m.ctl.Advance?)
    && (m.ctl.Err? ==> ParseError(m.ctl.errno))
    && (Fits(c, t) ==> (m.ctl.Advance? || m.ctl.Stay? ==> Fits(m.c, m.t)) && (m.ctl.Stop? ==> Left(m.c, m.t)))
  }

  lemma ActLawful(c: Core, a: Act, t: Trace, ch: char, skip: SkipPolicy)
    requires Shape(c, a) && Keeps(a)
    ensures Lawful(c, t, Deliver(a, t, ch, skip))
  {
    hide KindOf, Rank, CoreInv, Fits, Left;
    if Fits(c, t) {
      DeliverFits(c, a, t, ch, skip);
    }
  }

  /** What is known of the counter before one pass at byte q, in the state `from`, that has the effect m. */
  ghost predicate Primed(s: Meter, x: string, p: Meter, a: Act, m: Micro, y: string, q: nat, skip: SkipPolicy)
    requires y != ""
  {
    && (m.ctl.Advance? ==>
          && Light(s, x, Moved(p, a, m), y[1..], 0, skip)
          && Fewer(s, x, Moved(p, a, m), y[1..], Gone(s, q, p.c.state, true), 0, skip))
    && (m.ctl.Stay? ==>
          && Light(s, x, Moved(p, a, m), y, 0, skip)
          && Fewer(s, x, Moved(p, a, m), y, Gone(s, q, p.c.state, true), 0, skip)
          && (ParsingHeader(m.c.state) ==> ParsingHeader(p.c.state)))
    && (Seen(p, a) <= HTTP_MAX_HEADER_SIZE ==> MeterLeads(s, x, p, a, m, y, skip))
    && !Moved(p, a, m).scan
  }

  lemma Primes(s: Meter, x: string, p: Meter, a: Act, m: Micro, y: string, q: nat, skip: SkipPolicy)
    requires y != "" && a == Switch(p.c, y[0]) && m == Deliver(a, p.t, y[0], skip) && EndsScan(p.c, y[0])
    requires Meets(s, x, p, y, skip) && Fewer(s, x, p, y, Gone(s, q, p.c.state, true), 0, skip)
    ensures Primed(s, x, p, a, m, y, q, skip)
  {
    hide Switch, Deliver, Meets, Light, Fewer, Gauge, Gone, EndsScan, MeterLeads, Moved, ParsingHeader;
    EndsScanMoves(p, y[0], skip);
    StaysBody(p, y[0], skip);
    MeetsLight(s, x, p, y, skip, a, m);
    FewerStep(s, x, p, y, Gone(s, q, p.c.state, true), skip, a, m);
    if Seen(p, a) <= HTTP_MAX_HEADER_SIZE {
      MeetsLeads(s, x, p, y, skip, a, m);
    }
  }
}
