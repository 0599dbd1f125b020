/**
 The response printer `HttpResponse`, and the round trip through the parser: what is printed is parsed back.
 */
module HttpPrinting {
  import opened HttpChars
  import opened HttpMachine
  import opened HttpInvariants
  import opened HttpRuns
  import opened HttpRecognisers
  import opened HttpValues

  type Header = (string, string)

  /** `std::to_string` of a size. */
  function Decimals(n: nat): string {
    if n < 10 then [('0' as int + n) as char] else Decimals(n / 10) + [('0' as int + n % 10) as char]
  }

  function Line(h: Header): string {
    h.0 + ": " + h.1 + "\r\n"
  }

  function Lines(hs: seq<Header>): string {
    if hs == [] then "" else Line(hs[0]) + Lines(hs[1..])
  }

  datatype Status = NONE | OK200

  /** The status line; the case OK of the source falls through to the default. */
  function StatusLine(s: Status): string {
    "HTTP/1.1 " + (if s.OK200? then "200 OKUNKNOWN" else "0UNKNOWN") + "\r\n"
  }

  function Render(s: Status, hs: seq<Header>, body: string): string {
    StatusLine(s) + Lines(hs) + "\r\n" + body
  }

  /** The headers of a map, each once, in some order. */
  ghost predicate Lists(hs: seq<Header>, m: map<string, string>) {
    && (forall i | 0 <= i < |hs| :: hs[i].0 in m && m[hs[i].0] == hs[i].1)
    && (forall i, j | 0 <= i < j < |hs| :: hs[i].0 != hs[j].0)
    && (forall k | k in m :: exists i :: 0 <= i < |hs| && hs[i].0 == k)
  }

  lemma LinesSnoc(hs: seq<Header>, h: Header)
    ensures Lines(hs + [h]) == Lines(hs) + Line(h)
  {
    if hs == [] {
      assert [h][1..] == [];
    } else {
      assert (hs + [h])[1..] == hs[1..] + [h];
      LinesSnoc(hs[1..], h);
    }
  }

  lemma ListsSnoc(hs: seq<Header>, m: map<string, string>, k: string, v: string)
    requires Lists(hs, m) && k !in m
    ensures Lists(hs + [(k, v)], m[k := v])
  {
    var gs := hs + [(k, v)];
    forall j | j == k || j in m
      ensures exists i :: 0 <= i < |gs| && gs[i].0 == j
    {
      if j == k {
        assert gs[|hs|].0 == j;
      } else {
        var i :| 0 <= i < |hs| && hs[i].0 == j;
        assert gs[i].0 == j;
      }
    }
  }

  class HttpResponse {
    var status: Status
    var headers: map<string, string>
    var body: string

    constructor ()
      ensures status == OK200 && headers == map[] && body == ""
    {
      headers, body := map[], "";
      new;
      SetStatus(OK200);
    }

    /** `setStatus` */
    method SetStatus(s: Status)
      modifies this`status
      ensures status == s
    {
      status := s;
    }

    method AddHeadValue(field: string, value: string)
      modifies this`headers
      ensures headers == old(headers)[field := value]
    {
      headers := headers[field := value];
    }

    method SetBody(b: string)
      modifies this`headers, this`body
      ensures body == b && headers == old(headers)["Content-Length" := Decimals(|b|)]
    {
      body := b;
      AddHeadValue("Content-Length", Decimals(|b|));
    }

    /** The status line of `getResult`. */
    method GetStatusLine() returns (r: string)
      ensures r == StatusLine(status)
    {
      r := "HTTP/1.1 ";
      r := r + if status.OK200? then "200" else "0";
      if status.OK200? {
        r := r + " OK"; // falls through
      }
      r := r + "UNKNOWN";
      r := r + "\r\n";
    }

    /** The header loop of `getResult`; `hs` is the order in which the unordered map happens to be traversed. */
    method GetHeaders(prefix: string) returns (r: string, hs: seq<Header>)
      ensures Lists(hs, headers) && r == prefix + Lines(hs)
    {
      hide Lists;
      r, hs := prefix, [];
      ListsNothing();
      var keys := headers.Keys;
      ghost var done: map<string, string> := map[];
      while keys != {}
        invariant r == prefix + Lines(hs)
        invariant keys <= headers.Keys && done.Keys == headers.Keys - keys &&
          forall k | k in done :: done[k] == headers[k]
        invariant Lists(hs, done)
        decreases keys
      {
        var k :| k in keys;
        var v := headers[k];
        LinesSnoc(hs, (k, v));
        ListsSnoc(hs, done, k, v);
        AppendLine(r, k, v);
        r := r + k;
        r := r + ": ";
        r := r + v;
        r := r + "\r\n";
        assert r == prefix + Lines(hs + [(k, v)]);
        hs := hs + [(k, v)];
        keys := keys - {k};
        done := done[k := v];
      }
      assert done == headers;
    }

    /** `getResult` */
    method GetResult() returns (r: string, hs: seq<Header>)
      ensures Lists(hs, headers) && r == Render(status, hs, body)
    {
      r := GetStatusLine();
      r, hs := GetHeaders(r);
      r := r + "\r\n";
      if body != "" {
        r := r + body;
      }
    }
  }

  lemma ListsNothing()
    ensures Lists([], map[])
  {
  }

  lemma AppendLine(r: string, k: string, v: string)
    ensures r + k + ": " + v + "\r\n" == r + Line((k, v))
  {
    assert r + k + ": " + v + "\r\n" == r + (k + ": " + v + "\r\n");
  }

  // ----- parsing it back -----

  lemma {:induction false} DecimalsValue(n: nat)
    ensures IsLength(Decimals(n)) && Decimal(Decimals(n)) == n && CR !in Decimals(n) && LF !in Decimals(n)
  {
    if n >= 10 {
      DecimalsValue(n / 10);
      var d := Decimals(n);
      assert d[..|d| - 1] == Decimals(n / 10);
    }
  }

  /** Bytes that are just consumed, through the given states of the parser. */
  ghost predicate NextPath(path: seq<Core>, s: string) {
    |path| == |s| + 1 && forall i | 0 <= i < |s| :: IsNext(path[i], s[i], path[i + 1])
  }

  ghost predicate IsNext(c: Core, ch: char, d: Core) {
    Switch(c, ch) == Next(d)
  }

  lemma {:induction false} NextRun(path: seq<Core>, t: Trace, s: string, rest: string, skip: SkipPolicy)
    requires NextPath(path, s)
    ensures Run(path[0], t, s + rest, skip) == Run(path[|s|], t, rest, skip)
    decreases |s|
  {
    hide Switch, Run;
    if s == "" {
      assert s + rest == rest;
    } else {
      assert IsNext(path[0], s[0], path[1]);
      RunUnfold(path[0], t, s + rest, skip, Next(path[1]));
      assert (s + rest)[1..] == s[1..] + rest;
      assert NextPath(path[1..], s[1..]);
      NextRun(path[1..], t, s[1..], rest, skip);
    }
  }

  lemma VersionRun(c: Core, t: Trace, rest: string, skip: SkipPolicy)
    requires c.state.ResH?
    ensures Run(c, t, "TTP/1.1 " + rest, skip) ==
      Run(c.(major := 1, minor := 1, state := ResFirstStatusCode), t, rest, skip)
  {
    hide StartStep, MethodStep, UrlStep, RequestLineStep, NameStep, ValueStep, HeadersEndStep, BodyStep, ChunkSizeStep,
      Run;
    var d := c.(major := 1);
    var e := d.(minor := 1);
    var path := [c, c.(state := ResHT), c.(state := ResHTT), c.(state := ResHTTP), c.(state := ResFirstMajor),
                 d.(state := ResMajor), d.(state := ResFirstMinor), e.(state := ResMinor),
                 e.(state := ResFirstStatusCode)];
    assert NextPath(path, "TTP/1.1 ");
    NextRun(path, t, "TTP/1.1 ", rest, skip);
  }

  lemma CodeRun(c: Core, t: Trace, rest: string, skip: SkipPolicy)
    requires c.state.ResFirstStatusCode?
    ensures Run(c, t, "200 " + rest, skip) == Run(c.(status := 200, state := ResStatusStart), t, rest, skip)
  {
    hide StartStep, MethodStep, UrlStep, RequestLineStep, NameStep, ValueStep, HeadersEndStep, BodyStep, ChunkSizeStep,
      Run;
    var path := [c, c.(status := 2, state := ResStatusCode), c.(status := 20, state := ResStatusCode),
                 c.(status := 200, state := ResStatusCode), c.(status := 200, state := ResStatusStart)];
    assert NextPath(path, "200 ");
    NextRun(path, t, "200 ", rest, skip);
  }

  /** A byte that is consumed, with whatever it delivers. */
  lemma ActRun(c: Core, t: Trace, ch: char, rest: string, skip: SkipPolicy, a: Act)
    requires a == Switch(c, ch) && Deliver(a, t, ch, skip).ctl.Advance?
    ensures Run(c, t, [ch] + rest, skip) == Run(a.c, Deliver(a, t, ch, skip).t, rest, skip)
  {
    hide Switch, Run;
    RunUnfold(c, t, [ch] + rest, skip, a);
    assert ([ch] + rest)[1..] == rest;
  }

  /** A byte that is looked at again in another state. */
  lemma AgainRun(c: Core, t: Trace, input: string, skip: SkipPolicy, a: Act)
    requires input != "" && a == Switch(c, input[0]) && Deliver(a, t, input[0], skip).ctl.Stay?
    ensures var m := Deliver(a, t, input[0], skip); Run(c, t, input, skip) == Run(m.c, m.t, input, skip)
  {
    hide Switch, Run;
    RunUnfold(c, t, input, skip, a);
  }

  lemma StatusGlide(c: Core, s: string)
    requires c.state.ResStatus? && Plain(s)
    ensures Glides(c, s, c)
  {
    var path := seq(|s| + 1, _ => c);
    forall i | 0 <= i < |s|
      ensures GlideStep(path[i], s[i], path[i + 1])
    {
      assert s[i] in s;
      assert Switch(c, s[i]) == Keep(c, StatusData);
    }
    assert GlidePath(path, s);
  }

  /** The rest of a run of data that started with `ch`. */
  lemma GlideOn(c: Core, t: Trace, ch: char, s: string, rest: string, k: DataKind, skip: SkipPolicy)
    requires Glides(c, s, c) && KindOf(c.state) == Holds(k)
    ensures Run(c, Emit(t, Data(k, [ch])), s + rest, skip) == Run(c, Emit(t, Data(k, [ch] + s)), rest, skip)
  {
    hide Run, Emit, Glides;
    if s == "" {
      assert s + rest == rest && [ch] + s == [ch];
    } else {
      GlideRun(c, Emit(t, Data(k, [ch])), s, c, rest, skip);
      EmitTwice(t, k, [ch], s);
    }
  }

  lemma PhraseActs(c: Core, ch: char)
    requires c.state.ResStatusStart? && ch != CR && ch != LF
    ensures var d := c.(index := 0, state := ResStatus);
            && Switch(c, ch) == Mark(d, StatusData)
            && Switch(d, CR) == FlushNext(d.(state := ResLineAlmostDone), StatusData)
            && Switch(d.(state := ResLineAlmostDone), LF) == Next(d.(state := HeaderFieldStart))
  {
  }

  lemma PhraseRun(c: Core, t: Trace, s: string, rest: string, skip: SkipPolicy)
    requires c.state.ResStatusStart? && s != "" && Plain(s)
    ensures Run(c, t, s + "\r\n" + rest, skip) ==
            Run(c.(index := 0, state := HeaderFieldStart), Emit(t, Data(StatusData, s)), rest, skip)
  {
    hide Switch, Run, Emit, Glides;
    var d := c.(index := 0, state := ResStatus);
    var e := d.(state := ResLineAlmostDone);
    var u := Emit(t, Data(StatusData, s));
    assert s[0] in s && s == [s[0]] + s[1..] && Plain(s[1..]);
    StatusGlide(d, s[1..]);
    PhraseActs(c, s[0]);
    ActRun(c, t, s[0], s[1..] + ("\r\n" + rest), skip, Mark(d, StatusData));
    GlideOn(d, t, s[0], s[1..], "\r\n" + rest, StatusData, skip);
    ActRun(d, u, CR, "\n" + rest, skip, FlushNext(e, StatusData));
    ActRun(e, u, LF, rest, skip, Next(d.(state := HeaderFieldStart)));
    assert s + "\r\n" + rest == [s[0]] + (s[1..] + ("\r\n" + rest));
    assert "\r\n" + rest == [CR] + ("\n" + rest) && "\n" + rest == [LF] + rest;
  }

  lemma StartAct(c: Core)
    requires c.state.StartRes?
    ensures Switch(c, 'H') == NotifyNext(c.(flags := NO_FLAGS, length := ULLONG_MAX, state := ResH), MessageBegin)
  {
  }

  lemma StatusText()
    ensures StatusLine(OK200) == ['H'] + "TTP/1.1 " + "200 " + "OKUNKNOWN" + "\r\n"
  {
  }

  lemma Regroup(a: string, b: string, c: string, d: string, e: string, rest: string)
    ensures a + b + c + d + e + rest == a + (b + (c + (d + e + rest)))
  {
  }

  lemma StatusTailRun(d: Core, u: Trace, rest: string, skip: SkipPolicy)
    requires d.state.ResH?
    ensures Run(d, u, "TTP/1.1 " + ("200 " + ("OKUNKNOWN" + "\r\n" + rest)), skip) ==
            Run(d.(major := 1, minor := 1, status := 200, index := 0, state := HeaderFieldStart),
                Emit(u, Data(StatusData, "OKUNKNOWN")), rest, skip)
  {
    hide Switch, Run, Emit;
    var e := d.(major := 1, minor := 1, state := ResFirstStatusCode);
    VersionRun(d, u, "200 " + ("OKUNKNOWN" + "\r\n" + rest), skip);
    CodeRun(e, u, "OKUNKNOWN" + "\r\n" + rest, skip);
    PhraseRun(e.(status := 200, state := ResStatusStart), u, "OKUNKNOWN", rest, skip);
  }

  lemma StatusLineRun(c: Core, t: Trace, rest: string, skip: SkipPolicy)
    requires c.state.StartRes?
    ensures Run(c, t, StatusLine(OK200) + rest, skip) ==
            Run(Heading(c), t + [MessageBegin, Data(StatusData, "OKUNKNOWN")], rest, skip)
  {
    hide Switch, Run, StatusLine;
    var d := c.(flags := NO_FLAGS, length := ULLONG_MAX, state := ResH);
    var u := t + [MessageBegin];
    StartAct(c);
    ActRun(c, t, 'H', "TTP/1.1 " + ("200 " + ("OKUNKNOWN" + "\r\n" + rest)), skip, NotifyNext(d, MessageBegin));
    StatusTailRun(d, u, rest, skip);
    StatusText();
    Regroup(['H'], "TTP/1.1 ", "200 ", "OKUNKNOWN", "\r\n", rest);
    assert Emit(u, Data(StatusData, "OKUNKNOWN")) == t + [MessageBegin, Data(StatusData, "OKUNKNOWN")];
  }

  /** The parser after the status line of a response. */
  function Heading(c: Core): Core {
    c.(flags := NO_FLAGS, length := ULLONG_MAX, major := 1, minor := 1, status := 200, index := 0,
      state := HeaderFieldStart)
  }

  // ----- header lines -----

  /** A value that the parser gives back unchanged: no line ends, and no blank in front. */
  predicate CleanValue(v: string) {
    Plain(v) && (v != "" ==> v[0] != ' ' && v[0] != '\t')
  }

  predicate Special(low: string) {
    low == "connection" || low == "proxy-connection" || low == "content-length" || low == "transfer-encoding" ||
      low == "upgrade"
  }

  predicate Ordinary(h: Header) {
    IsName(h.0) && CleanValue(h.1) && !Special(LowName(h.0))
  }

  predicate LengthHeader(h: Header, n: nat) {
    IsName(h.0) && LowName(h.0) == "content-length" && h.1 == Decimals(n)
  }

  predicate NotBlank(rest: string) {
    rest != "" && rest[0] != ' ' && rest[0] != '\t'
  }

  lemma ColonActs(c: Core)
    requires c.state.HeaderField?
    ensures var d := c.(state := ValueDiscardWs);
            Switch(c, ':') == FlushNext(d, FieldData) && Switch(d, ' ') == Next(d)
  {
    hide FieldChar, ValueChar, ValueStartStep, StartStep, MethodStep, ResponseLineStep, UrlStep, RequestLineStep,
      HeadersEndStep, BodyStep, ChunkSizeStep;
  }

  /** The name, the colon and the blank of a header line. */
  lemma NamePart(c: Core, t: Trace, s: string, rest: string, skip: SkipPolicy)
    requires c.state.HeaderFieldStart? && IsName(s)
    ensures Run(c, t, s + ": " + rest, skip) ==
            Run(InNameOf(c, s).(state := ValueDiscardWs), Emit(t, Data(FieldData, s)), rest, skip)
  {
    hide Run, Switch, Emit;
    var d := InNameOf(c, s);
    var e := d.(state := ValueDiscardWs);
    var u := Emit(t, Data(FieldData, s));
    NameRun(c, t, s, skip);
    RunConcat(c, t, s, ": " + rest, skip);
    ColonActs(d);
    ActRun(d, u, ':', " " + rest, skip, FlushNext(e, FieldData));
    ActRun(e, u, ' ', rest, skip, Next(e));
    assert s + ": " + rest == s + (": " + rest);
    assert ": " + rest == [':'] + (" " + rest) && " " + rest == [' '] + rest;
  }

  lemma ValueEndActs(c: Core, ch: char)
    requires c.state.HeaderValue? && (c.hs.General? || c.hs.HLength?) && ch != ' ' && ch != '\t'
    ensures Switch(c, CR) == FlushNext(c.(state := HeaderAlmostDone), ValueData)
    ensures Switch(c.(state := HeaderAlmostDone), LF) == Next(c.(state := ValueLws))
    ensures Switch(c.(state := ValueLws), ch) == Again(c.(state := HeaderFieldStart))
  {
    hide Switch, ValueStep;
    ValueActs(c, CR);
    ValueActs(c.(state := HeaderAlmostDone), LF);
    ValueActs(c.(state := ValueLws), ch);
    LineCr(c);
    LineLf(c);
    LineLws(c, ch);
  }

  lemma LineCr(c: Core)
    requires c.state.HeaderValue?
    ensures ValueStep(c, CR) == FlushNext(c.(state := HeaderAlmostDone), ValueData)
  {
  }

  lemma LineLf(c: Core)
    ensures ValueStep(c.(state := HeaderAlmostDone), LF) == Next(c.(state := ValueLws))
  {
  }

  lemma LineLws(c: Core, ch: char)
    requires (c.hs.General? || c.hs.HLength?) && ch != ' ' && ch != '\t'
    ensures ValueStep(c.(state := ValueLws), ch) == Again(c.(state := HeaderFieldStart))
  {
  }

  lemma ValueActs(c: Core, ch: char)
    requires GroupOf(c.state).ValueGroup?
    ensures Switch(c, ch) == ValueStep(c, ch)
  {
    hide ValueStep;
  }

  /** The end of a header line, seen when the next line starts. */
  lemma ValueEndRun(c: Core, t: Trace, rest: string, skip: SkipPolicy)
    requires c.state.HeaderValue? && (c.hs.General? || c.hs.HLength?) && NotBlank(rest)
    ensures Run(c, t, "\r\n" + rest, skip) == Run(c.(state := HeaderFieldStart), t, rest, skip)
  {
    hide Run, Switch;
    ValueEndActs(c, rest[0]);
    ActRun(c, t, CR, "\n" + rest, skip, FlushNext(c.(state := HeaderAlmostDone), ValueData));
    ActRun(c.(state := HeaderAlmostDone), t, LF, rest, skip, Next(c.(state := ValueLws)));
    AgainRun(c.(state := ValueLws), t, rest, skip, Again(c.(state := HeaderFieldStart)));
    assert "\r\n" + rest == [CR] + ("\n" + rest) && "\n" + rest == [LF] + rest;
  }

  lemma EmptyValueActs(c: Core, ch: char)
    requires c.state.ValueDiscardWs? && NameState(c.hs) && ch != ' ' && ch != '\t'
    ensures Switch(c, CR) == Next(c.(state := ValueDiscardWsAlmostDone))
    ensures Switch(c.(state := ValueDiscardWsAlmostDone), LF) == Next(c.(state := ValueDiscardLws))
    ensures Switch(c.(state := ValueDiscardLws), ch) == EmptyAgain(c.(state := HeaderFieldStart), ValueData)
  {
    hide Switch, ValueStep, NameState;
    ValueActs(c, CR);
    ValueActs(c.(state := ValueDiscardWsAlmostDone), LF);
    ValueActs(c.(state := ValueDiscardLws), ch);
    EmptyCr(c);
    EmptyLf(c);
    EmptyLws(c, ch);
  }

  lemma EmptyCr(c: Core)
    requires c.state.ValueDiscardWs?
    ensures ValueStep(c, CR) == Next(c.(state := ValueDiscardWsAlmostDone))
  {
  }

  lemma EmptyLf(c: Core)
    ensures ValueStep(c.(state := ValueDiscardWsAlmostDone), LF) == Next(c.(state := ValueDiscardLws))
  {
  }

  lemma EmptyLws(c: Core, ch: char)
    requires NameState(c.hs) && ch != ' ' && ch != '\t'
    ensures ValueStep(c.(state := ValueDiscardLws), ch) == EmptyAgain(c.(state := HeaderFieldStart), ValueData)
  {
  }

  lemma EmptyValueRun(c: Core, t: Trace, rest: string, skip: SkipPolicy)
    requires c.state.ValueDiscardWs? && NameState(c.hs) && NotBlank(rest)
    ensures Run(c, t, "\r\n" + rest, skip) ==
      Run(c.(state := HeaderFieldStart), Emit(t, Data(ValueData, "")), rest, skip)
  {
    hide Run, Switch, Emit, NameState;
    EmptyValueActs(c, rest[0]);
    ActRun(c, t, CR, "\n" + rest, skip, Next(c.(state := ValueDiscardWsAlmostDone)));
    ActRun(c.(state := ValueDiscardWsAlmostDone), t, LF, rest, skip, Next(c.(state := ValueDiscardLws)));
    AgainRun(c.(state := ValueDiscardLws), t, rest, skip, EmptyAgain(c.(state := HeaderFieldStart), ValueData));
    assert "\r\n" + rest == [CR] + ("\n" + rest) && "\n" + rest == [LF] + rest;
  }

  predicate NoMeaning(h: HeaderState) {
    NameState(h) && !h.HConnection? && !h.HLength? && !h.HTransfer? && !h.HUpgrade?
  }

  lemma ValueStartAct(c: Core, ch: char)
    requires c.state.ValueDiscardWs? && NoMeaning(c.hs) && ch != ' ' && ch != '\t' && ch != CR && ch != LF
    ensures Switch(c, ch) == Mark(c.(hs := General, index := 0, state := HeaderValue), ValueData)
  {
    hide ValueChar;
  }

  /** The value of an ordinary header and the end of its line. */
  lemma ValuePart(c: Core, t: Trace, v: string, rest: string, skip: SkipPolicy) returns (d: Core)
    requires c.state.ValueDiscardWs? && NoMeaning(c.hs) && CleanValue(v) && NotBlank(rest)
    ensures d == c.(hs := d.hs, index := d.index, state := HeaderFieldStart)
    ensures Run(c, t, v + ("\r\n" + rest), skip) == Run(d, Emit(t, Data(ValueData, v)), rest, skip)
  {
    hide Run, Switch, Emit, Glides;
    if v == "" {
      d := c.(state := HeaderFieldStart);
      EmptyValueRun(c, t, rest, skip);
      assert v + ("\r\n" + rest) == "\r\n" + rest;
    } else {
      var e := c.(hs := General, index := 0, state := HeaderValue);
      d := e.(state := HeaderFieldStart);
      assert v[0] in v && v == [v[0]] + v[1..] && Plain(v[1..]);
      ValueStartAct(c, v[0]);
      ActRun(c, t, v[0], v[1..] + ("\r\n" + rest), skip, Mark(e, ValueData));
      GeneralGlide(e, v[1..]);
      GlideOn(e, t, v[0], v[1..], "\r\n" + rest, ValueData, skip);
      ValueEndRun(e, Emit(t, Data(ValueData, v)), rest, skip);
      assert v + ("\r\n" + rest) == [v[0]] + (v[1..] + ("\r\n" + rest));
    }
  }

  /** The value of a Content-Length header and the end of its line. */
  lemma LengthPart(c: Core, t: Trace, n: nat, rest: string, skip: SkipPolicy)
    requires c.state.ValueDiscardWs? && c.hs.HLength? && n <= LENGTH_LIMIT && NotBlank(rest)
    ensures Run(c, t, Decimals(n) + ("\r\n" + rest), skip) ==
            Run(InLength(c, n).(state := HeaderFieldStart), Emit(t, Data(ValueData, Decimals(n))), rest, skip)
  {
    hide Run, Switch, Emit, Decimals;
    DecimalsValue(n);
    LengthRun(c, t, Decimals(n), skip);
    RunConcat(c, t, Decimals(n), "\r\n" + rest, skip);
    ValueEndRun(InLength(c, n), Emit(t, Data(ValueData, Decimals(n))), rest, skip);
  }

  lemma NameMeaning(s: string)
    requires IsName(s)
    ensures NameState(StateAfter(s).0)
    ensures !Special(LowName(s)) ==> NoMeaning(StateAfter(s).0)
    ensures LowName(s) == "content-length" ==> StateAfter(s).0.HLength?
  {
    hide StateAfter, LowName;
    HeaderRecognised(s);
    StateStandsFor(s);
    RecogniseName(LowName(s));
  }

  lemma RecogniseName(low: string)
    requires low != ""
    ensures NameState(Recognise(low))
  {
  }

  /** A trace to which a header field is appended, not merged. */
  predicate FieldMayFollow(t: Trace) {
    t != [] ==> !(t[|t| - 1].Data? && t[|t| - 1].kind.FieldData?)
  }

  function HeaderEvents(h: Header): Trace {
    [Data(FieldData, h.0), Data(ValueData, h.1)]
  }

  /** One header line, parsed: its field and value are reported, and only a Content-Length has an effect. */
  lemma LineRun(c: Core, t: Trace, h: Header, n: nat, rest: string, skip: SkipPolicy) returns (d: Core)
    requires c.state.HeaderFieldStart? && FieldMayFollow(t) && NotBlank(rest) && n <= LENGTH_LIMIT
    requires Ordinary(h) || LengthHeader(h, n)
    ensures d == c.(hs := d.hs, index := d.index, length := if LengthHeader(h, n) then n else c.length)
    ensures Run(c, t, Line(h) + rest, skip) == Run(d, t + HeaderEvents(h), rest, skip)
  {
    hide Run, Switch, LowName, StateAfter, Decimals;
    var u := t + [Data(FieldData, h.0)];
    assert Emit(t, Data(FieldData, h.0)) == u;
    var v := u + [Data(ValueData, h.1)];
    assert Emit(u, Data(ValueData, h.1)) == v && v == t + HeaderEvents(h);
    NamePart(c, t, h.0, h.1 + ("\r\n" + rest), skip);
    NameMeaning(h.0);
    var e := InNameOf(c, h.0).(state := ValueDiscardWs);
    if LengthHeader(h, n) {
      LengthPart(e, u, n, rest, skip);
      d := InLength(e, n).(state := HeaderFieldStart);
    } else {
      d := ValuePart(e, u, h.1, rest, skip);
    }
    assert Line(h) + rest == h.0 + ": " + (h.1 + ("\r\n" + rest));
  }

  function AllEvents(hs: seq<Header>): Trace {
    if hs == [] then [] else HeaderEvents(hs[0]) + AllEvents(hs[1..])
  }

  predicate Acceptable(hs: seq<Header>, n: nat) {
    forall i | 0 <= i < |hs| :: Ordinary(hs[i]) || LengthHeader(hs[i], n)
  }

  predicate HasLength(hs: seq<Header>, n: nat) {
    exists i :: 0 <= i < |hs| && LengthHeader(hs[i], n)
  }

  lemma {:induction false} LinesRun(c: Core, t: Trace, hs: seq<Header>, n: nat, rest: string, skip: SkipPolicy)
    returns (d: Core)
    requires c.state.HeaderFieldStart? && FieldMayFollow(t) && NotBlank(rest) && n <= LENGTH_LIMIT && Acceptable(hs, n)
    ensures d == c.(hs := d.hs, index := d.index, length := if HasLength(hs, n) then n else c.length)
    ensures Run(c, t, Lines(hs) + rest, skip) == Run(d, t + AllEvents(hs), rest, skip)
    decreases |hs|
  {
    hide Run, Ordinary, LengthHeader, Line, HasLength, Acceptable, NotBlank, FieldMayFollow, HeaderEvents, Lines,
      AllEvents;
    AcceptableCons(hs, n);
    if hs == [] {
      d := c;
      NoLines(t, rest);
    } else {
      var h, tail := hs[0], hs[1..];
      LinesNotBlank(tail, n, rest);
      var e := LineRun(c, t, h, n, Lines(tail) + rest, skip);
      ValueLast(t, h);
      d := LinesRun(e, t + HeaderEvents(h), tail, n, rest, skip);
      MoreLines(t, hs, rest);
      HasLengthCons(hs, n);
    }
  }

  lemma NoLines(t: Trace, rest: string)
    ensures Lines([]) + rest == rest && t + AllEvents([]) == t
  {
  }

  lemma MoreLines(t: Trace, hs: seq<Header>, rest: string)
    requires hs != []
    ensures Lines(hs) + rest == Line(hs[0]) + (Lines(hs[1..]) + rest)
    ensures t + AllEvents(hs) == t + HeaderEvents(hs[0]) + AllEvents(hs[1..])
  {
    hide Line, HeaderEvents, Lines, AllEvents;
    FirstLine(hs);
    Grouped(Line(hs[0]), Lines(hs[1..]), rest);
    Grouped(t, HeaderEvents(hs[0]), AllEvents(hs[1..]));
  }

  lemma FirstLine(hs: seq<Header>)
    requires hs != []
    ensures Lines(hs) == Line(hs[0]) + Lines(hs[1..]) && AllEvents(hs) == HeaderEvents(hs[0]) + AllEvents(hs[1..])
  {
  }

  lemma Grouped<T>(a: seq<T>, b: seq<T>, c: seq<T>)
    ensures a + b + c == a + (b + c)
  {
  }

  lemma AcceptableCons(hs: seq<Header>, n: nat)
    requires Acceptable(hs, n)
    ensures if hs == [] then !HasLength(hs, n)
            else (Ordinary(hs[0]) || LengthHeader(hs[0], n)) && Acceptable(hs[1..], n)
  {
    hide Ordinary, LengthHeader;
  }

  lemma ValueLast(t: Trace, h: Header)
    ensures FieldMayFollow(t + HeaderEvents(h))
  {
  }

  lemma HasLengthCons(hs: seq<Header>, n: nat)
    requires hs != []
    ensures HasLength(hs, n) <==> LengthHeader(hs[0], n) || HasLength(hs[1..], n)
  {
    hide LengthHeader;
    if HasLength(hs, n) && !LengthHeader(hs[0], n) {
      var i :| 0 <= i < |hs| && LengthHeader(hs[i], n);
      assert LengthHeader(hs[1..][i - 1], n);
    }
    if HasLength(hs[1..], n) {
      var i :| 0 <= i < |hs[1..]| && LengthHeader(hs[1..][i], n);
      assert LengthHeader(hs[i + 1], n);
    }
  }

  lemma LinesNotBlank(hs: seq<Header>, n: nat, rest: string)
    requires Acceptable(hs, n) && NotBlank(rest)
    ensures NotBlank(Lines(hs) + rest)
  {
    if hs != [] {
      var h := hs[0];
      assert IsName(h.0) && IsToken(h.0[0]);
      assert (Lines(hs) + rest)[0] == h.0[0];
    }
  }

  // ----- the end of the headers and the body -----

  lemma EndActs(c: Core)
    requires c.state.HeaderFieldStart? && c.flags == NO_FLAGS && !c.verb.CONNECT?
    ensures var d := c.(state := HeadersAlmostDone);
            Switch(c, CR) == Next(d) && Switch(d, LF) == HeadersAgain(c.(state := HeadersDone, upgrade := false))
  {
  }

  lemma DoneActs(c: Core)
    requires c.state.HeadersDone? && c.flags == NO_FLAGS && !c.upgrade && c.kind.Response? && c.major == 1 &&
      c.minor == 1 && c.length < ULLONG_MAX
    ensures NewMessage(c).StartRes?
    ensures Switch(c, LF) ==
      if c.length == 0 then NotifyNext(c.(state := StartRes), MessageComplete) else Next(c.(state := BodyIdentity))
  {
  }

  lemma LastByteActs(c: Core, ch: char)
    requires c.state.BodyIdentity? && c.length == 1 && c.flags == NO_FLAGS && !c.upgrade && c.kind.Response? &&
      c.major == 1 && c.minor == 1
    ensures var d := c.(length := 0, state := MessageDone);
            Switch(c, ch) == LastAgain(d, BodyData) &&
              Switch(d, ch) == NotifyNext(d.(state := StartRes), MessageComplete)
  {
  }

  /** What the parser needs to have read in order to be ready for the next response. */
  predicate InResponse(c: Core) {
    c.flags == NO_FLAGS && !c.verb.CONNECT? && c.kind.Response? && c.major == 1 && c.minor == 1
  }

  lemma HeadersEndRun(c: Core, t: Trace, rest: string, skip: SkipPolicy)
    requires c.state.HeaderFieldStart? && InResponse(c) && c.length < ULLONG_MAX &&
      !skip(t + [HeadersComplete(c.length, false, false)])
    ensures var d := c.(upgrade := false);
            var u := t + [HeadersComplete(c.length, false, false)];
            Run(c, t, "\r\n" + rest, skip) ==
            if c.length == 0 then Run(d.(state := StartRes), u + [MessageComplete], rest, skip)
            else Run(d.(state := BodyIdentity), u, rest, skip)
  {
    hide Run, Switch;
    var d := c.(state := HeadersAlmostDone);
    var e := c.(state := HeadersDone, upgrade := false);
    var u := t + [HeadersComplete(c.length, false, false)];
    EndActs(c);
    DoneActs(e);
    ActRun(c, t, CR, "\n" + rest, skip, Next(d));
    AgainRun(d, t, "\n" + rest, skip, HeadersAgain(e));
    var a :=
      if e.length == 0 then NotifyNext(e.(state := StartRes), MessageComplete) else Next(e.(state := BodyIdentity));
    ActRun(e, u, LF, rest, skip, a);
    assert "\r\n" + rest == [CR] + ("\n" + rest) && "\n" + rest == [LF] + rest;
  }

  lemma BodyRun(c: Core, t: Trace, body: string, skip: SkipPolicy)
    requires c.state.BodyIdentity? && InResponse(c) && !c.upgrade && c.length == |body| > 0
    requires t != [] && !t[|t| - 1].Data?
    ensures Run(c, t, body, skip) ==
            Final(c.(length := 0, state := StartRes), t + [Data(BodyData, body), MessageComplete], "", Running)
  {
    hide Run, Switch, Glides;
    var i := |body| - 1;
    var d := c.(length := 1);
    var e := c.(length := 0, state := MessageDone);
    var u := t + [Data(BodyData, body)];
    var s := if i == 0 then t else Emit(t, Data(BodyData, body[..i]));
    assert body == body[..i] + [body[i]];
    if i > 0 {
      BodyGlide(c, body[..i]);
      GlideRun(c, t, body[..i], d, [body[i]], skip);
      EmitTwice(t, BodyData, body[..i], [body[i]]);
    } else {
      assert body == [body[i]];
    }
    assert Emit(s, Data(BodyData, [body[i]])) == u;
    LastByteActs(d, body[i]);
    AgainRun(d, s, [body[i]], skip, LastAgain(e, BodyData));
    ActRun(e, u, body[i], "", skip, NotifyNext(e.(state := StartRes), MessageComplete));
    assert [body[i]] + "" == [body[i]];
    RunNothing(e.(state := StartRes), u + [MessageComplete], skip);
    assert u + [MessageComplete] == t + [Data(BodyData, body), MessageComplete];
  }

  lemma RunNothing(c: Core, t: Trace, skip: SkipPolicy)
    ensures Run(c, t, "", skip) == Final(c, t, "", Running)
  {
  }

  /** The callbacks that a printed response is expected to cause. */
  function ResponseEvents(hs: seq<Header>, body: string): Trace {
    [MessageBegin, Data(StatusData, "OKUNKNOWN")] + AllEvents(hs) + [HeadersComplete(|body|, false, false)]
    + (if body == "" then [] else [Data(BodyData, body)]) + [MessageComplete]
  }

  /**
   Round trip: an OK response with a body set by `setBody` and other ordinary headers, printed in any order, is
   parsed back to exactly those headers and that body, and the parser is ready for the next response.
   */
  lemma RoundTrip(c: Core, t: Trace, hs: seq<Header>, body: string, skip: SkipPolicy)
    requires c.state.StartRes? && c.kind.Response? && !c.verb.CONNECT?
    requires |body| <= LENGTH_LIMIT && Acceptable(hs, |body|) && HasLength(hs, |body|)
    requires forall u :: !skip(u)
    ensures var r := Run(c, t, Render(OK200, hs, body), skip);
            && r.halt.Running? && r.left == "" && r.t == t + ResponseEvents(hs, body)
            && r.c.state.StartRes? && r.c.kind.Response? && !r.c.verb.CONNECT? && r.c.status == 200
  {
    hide Run, StatusLine, Lines, Acceptable, HasLength, AllEvents;
    var u := t + [MessageBegin, Data(StatusData, "OKUNKNOWN")];
    var rest := "\r\n" + body;
    StatusLineRun(c, t, Lines(hs) + rest, skip);
    var d := LinesRun(Heading(c), u, hs, |body|, rest, skip);
    HeadersEndRun(d, u + AllEvents(hs), body, skip);
    var v := u + AllEvents(hs) + [HeadersComplete(|body|, false, false)];
    if body == "" {
      RunNothing(d.(upgrade := false, state := StartRes), v + [MessageComplete], skip);
      assert t + ResponseEvents(hs, body) == v + [MessageComplete];
    } else {
      BodyRun(d.(upgrade := false, state := BodyIdentity), v, body, skip);
      assert t + ResponseEvents(hs, body) == v + [Data(BodyData, body), MessageComplete];
    }
    assert Render(OK200, hs, body) == StatusLine(OK200) + (Lines(hs) + rest);
  }

  /** The callbacks for all bytes of a response but the last. */
  function EventsBefore(hs: seq<Header>, body: string): Trace {
    [MessageBegin, Data(StatusData, "OKUNKNOWN")] + AllEvents(hs)
    + (if body == "" then [] else [HeadersComplete(|body|, false, false)])
    + (if |body| < 2 then [] else [Data(BodyData, body[..|body| - 1])])
  }

  /** Not before its last byte is the message reported complete. */
  lemma NotBeforeLast(c: Core, t: Trace, hs: seq<Header>, body: string, skip: SkipPolicy)
    requires c.state.StartRes? && c.kind.Response? && !c.verb.CONNECT?
    requires |body| <= LENGTH_LIMIT && Acceptable(hs, |body|) && HasLength(hs, |body|)
    requires forall u :: !skip(u)
    ensures var s := Render(OK200, hs, body); var r := Run(c, t, s[..|s| - 1], skip);
            r.halt.Running? && r.t == t + EventsBefore(hs, body)
  {
    hide Run, Switch, StatusLine, Lines, Acceptable, HasLength, AllEvents, Glides;
    var s := Render(OK200, hs, body);
    var u := t + [MessageBegin, Data(StatusData, "OKUNKNOWN")];
    var rest := if body == "" then "\r" else "\r\n" + body[..|body| - 1];
    StatusLineRun(c, t, Lines(hs) + rest, skip);
    var d := LinesRun(Heading(c), u, hs, |body|, rest, skip);
    assert s[..|s| - 1] == StatusLine(OK200) + (Lines(hs) + rest);
    var v := u + AllEvents(hs);
    if body == "" {
      EndActs(d);
      ActRun(d, v, CR, "", skip, Next(d.(state := HeadersAlmostDone)));
      assert "\r" == [CR] + "";
      RunNothing(d.(state := HeadersAlmostDone), v, skip);
      assert v == t + EventsBefore(hs, body);
    } else {
      HeadersEndRun(d, v, body[..|body| - 1], skip);
      AlmostBodyRun(d.(upgrade := false, state := BodyIdentity), v + [HeadersComplete(|body|, false, false)], body,
        skip);
      assert |body| >= 2 ==>
        v + [HeadersComplete(|body|, false, false)] + [Data(BodyData, body[..|body| - 1])] ==
          t + EventsBefore(hs, body);
      assert |body| == 1 ==> v + [HeadersComplete(|body|, false, false)] == t + EventsBefore(hs, body);
    }
  }

  lemma AlmostBodyRun(c: Core, t: Trace, body: string, skip: SkipPolicy)
    requires c.state.BodyIdentity? && c.length == |body| > 0 && t != [] && !t[|t| - 1].Data?
    ensures var r := Run(c, t, body[..|body| - 1], skip);
            r.halt.Running? && r.t == t + if |body| == 1 then [] else [Data(BodyData, body[..|body| - 1])]
  {
    hide Run, Switch, Glides;
    var i := |body| - 1;
    if i == 0 {
      RunNothing(c, t, skip);
    } else {
      BodyGlide(c, body[..i]);
      GlideRun(c, t, body[..i], c.(length := 1), "", skip);
      assert body[..i] + "" == body[..i];
      RunNothing(c.(length := 1), Emit(t, Data(BodyData, body[..i])), skip);
    }
  }
}
