/**
 First lines and header lines as they are written, and what the parser makes of them: request and status lines with
 their numbers, and header fields of every meaning. Meanings are read off the text, not off the parser's tables.
 */
module HttpMessages {
  import opened HttpChars
  import opened HttpMachine
  import opened HttpInvariants
  import opened HttpRuns
  import opened HttpRecognisers
  import opened HttpValues
  import opened HttpPrinting
  import opened HttpUrlParts

  // ----- line ends -----

  /** A line may end with LF alone. */
  function Eol(bare: bool): string {
    if bare then "\n" else "\r\n"
  }

  lemma EolText(bare: bool, rest: string)
    ensures Eol(bare) + rest == if bare then [LF] + rest else [CR] + ([LF] + rest)
  {
    assert "\n" == [LF] && "\r\n" == [CR] + [LF];
    if !bare {
      assert [CR] + [LF] + rest == [CR] + ([LF] + rest);
    }
  }

  // ----- header fields -----

  /** A header value: any text, or a list of options. */
  datatype Value = Text(text: string) | List(options: seq<Listed>)

  function ValueText(v: Value): string
    requires v.List? ==> Options(v.options)
  {
    if v.Text? then v.text else OptionsText(v.options)
  }

  /** A header line, with blanks before its value. */
  datatype Field = Field(name: string, blanks: string, value: Value, bare: bool)

  predicate Blanks(s: string) {
    forall i | 0 <= i < |s| :: s[i] == ' ' || s[i] == '\t'
  }

  predicate NamesOptions(low: string) {
    low == "connection" || low == "proxy-connection"
  }

  /** A header line that the parser reads. */
  predicate Readable(h: Field) {
    && IsName(h.name) && Blanks(h.blanks)
    && (h.value.List? ==> Options(h.value.options))
    && CleanValue(ValueText(h.value))
    && var low := LowName(h.name);
       && (NamesOptions(low) ==> h.value.List? || h.value.text == "")
       && (low == "content-length" && ValueText(h.value) != "" ==>
             IsLength(ValueText(h.value)) && Decimal(ValueText(h.value)) <= LENGTH_LIMIT)
  }

  function FieldText(h: Field): string
    requires Readable(h)
  {
    h.name + ":" + h.blanks + ValueText(h.value) + Eol(h.bare)
  }

  /** What a header line says about its message. */
  function FlagsWith(f: Flags, h: Field): Flags
    requires Readable(h)
  {
    var low, v := LowName(h.name), ValueText(h.value);
    if NamesOptions(low) && h.value.List? then WithOptions(f, h.value.options)
    else if low == "transfer-encoding" then f.(chunked := f.chunked || Spells(v, "chunked"))
    else if low == "upgrade" then f.(upgrade := f.upgrade || v != "")
    else f
  }

  function LengthWith(n: nat, h: Field): nat
    requires Readable(h)
  {
    if LowName(h.name) == "content-length" && ValueText(h.value) != "" then Decimal(ValueText(h.value)) else n
  }

  function FieldEvents(h: Field): Trace
    requires Readable(h)
  {
    [Data(FieldData, h.name), Data(ValueData, ValueText(h.value))]
  }

  lemma {:induction false} BlanksRun(c: Core, t: Trace, s: string, rest: string, skip: SkipPolicy)
    requires c.state.ValueDiscardWs? && Blanks(s)
    ensures Run(c, t, s + rest, skip) == Run(c, t, rest, skip)
    decreases |s|
  {
    hide Run, Switch;
    if s == "" {
      assert s + rest == rest;
    } else {
      BlankStays(c, s[0]);
      ActRun(c, t, s[0], s[1..] + rest, skip, Next(c));
      BlanksRun(c, t, s[1..], rest, skip);
      assert s + rest == [s[0]] + (s[1..] + rest);
    }
  }

  lemma BlankStays(c: Core, ch: char)
    requires c.state.ValueDiscardWs? && (ch == ' ' || ch == '\t')
    ensures Switch(c, ch) == Next(c)
  {
  }

  /** The name, the colon and the blanks of a header line. */
  lemma FieldNameRun(c: Core, t: Trace, h: Field, rest: string, skip: SkipPolicy)
    requires c.state.HeaderFieldStart? && IsName(h.name) && Blanks(h.blanks)
    ensures Run(c, t, h.name + ":" + h.blanks + rest, skip) ==
            Run(InNameOf(c, h.name).(state := ValueDiscardWs), Emit(t, Data(FieldData, h.name)), rest, skip)
  {
    hide Run, Switch, Emit;
    var d := InNameOf(c, h.name);
    var e := d.(state := ValueDiscardWs);
    var u := Emit(t, Data(FieldData, h.name));
    NameRun(c, t, h.name, skip);
    RunConcat(c, t, h.name, ":" + h.blanks + rest, skip);
    ColonActs(d);
    ActRun(d, u, ':', h.blanks + rest, skip, FlushNext(e, FieldData));
    BlanksRun(e, u, h.blanks, rest, skip);
    assert h.name + ":" + h.blanks + rest == h.name + (":" + h.blanks + rest);
    assert ":" + h.blanks + rest == [':'] + (h.blanks + rest);
  }

  // ----- the end of a value -----

  lemma ValueLineActs(c: Core, ch: char)
    requires c.state.HeaderValue? && ch != ' ' && ch != '\t'
    ensures var d := c.(state := HeaderAlmostDone); var e := c.(state := ValueLws);
      && Switch(c, CR) == FlushNext(d, ValueData) && Switch(c, LF) == FlushAgain(d, ValueData)
      && Switch(d, LF) == Next(e)
      && Switch(e, ch) == Again(c.(flags := Commit(c.flags, c.hs), state := HeaderFieldStart))
  {
    hide Switch, ValueStep, Commit;
    ValueActs(c, CR);
    ValueActs(c, LF);
    ValueActs(c.(state := HeaderAlmostDone), LF);
    ValueActs(c.(state := ValueLws), ch);
    LineCr(c);
    LineLf(c);
    BareLf(c);
    NextLine(c, ch);
  }

  lemma BareLf(c: Core)
    requires c.state.HeaderValue?
    ensures ValueStep(c, LF) == FlushAgain(c.(state := HeaderAlmostDone), ValueData)
  {
  }

  lemma NextLine(c: Core, ch: char)
    requires ch != ' ' && ch != '\t'
    ensures ValueStep(c.(state := ValueLws), ch) ==
            Again(c.(flags := Commit(c.flags, c.hs), state := HeaderFieldStart))
  {
    hide Commit;
  }

  /** The end of a line, seen when the next one starts: the value has its effect. */
  lemma LineEndRun(c: Core, t: Trace, bare: bool, rest: string, skip: SkipPolicy)
    requires c.state.HeaderValue? && NotBlank(rest)
    ensures Run(c, t, Eol(bare) + rest, skip) ==
            Run(c.(flags := Commit(c.flags, c.hs), state := HeaderFieldStart), t, rest, skip)
  {
    hide Run, Switch, Commit;
    var d := c.(state := HeaderAlmostDone);
    var e := c.(state := ValueLws);
    var f := c.(flags := Commit(c.flags, c.hs), state := HeaderFieldStart);
    EolText(bare, rest);
    ValueLineActs(c, rest[0]);
    if bare {
      AgainRun(c, t, [LF] + rest, skip, FlushAgain(d, ValueData));
    } else {
      ActRun(c, t, CR, [LF] + rest, skip, FlushNext(d, ValueData));
    }
    ActRun(d, t, LF, rest, skip, Next(e));
    AgainRun(e, t, rest, skip, Again(f));
  }

  lemma FoldActs(c: Core, blank: char)
    requires c.state.HeaderValue? && c.hs.General? && (blank == ' ' || blank == '\t')
    ensures var d := c.(state := ValueLws);
      && Switch(d, blank) == Again(c.(state := ValueStart))
      && Switch(c.(state := ValueStart), blank) == Mark(c.(state := HeaderValue, index := 0), ValueData)
  {
  }

  /** A line that begins with a blank continues the value of an ordinary header: the line end goes, the blank stays. */
  lemma FoldRun(c: Core, t: Trace, bare: bool, blank: char, rest: string, skip: SkipPolicy)
    requires c.state.HeaderValue? && c.hs.General? && (blank == ' ' || blank == '\t')
    ensures Run(c, t, Eol(bare) + ([blank] + rest), skip) ==
            Run(c.(index := 0), Emit(t, Data(ValueData, [blank])), rest, skip)
  {
    hide Run, Switch, Emit;
    var d := c.(state := HeaderAlmostDone);
    var e := c.(state := ValueLws);
    EolText(bare, [blank] + rest);
    ValueLineActs(c, 'x');
    if bare {
      AgainRun(c, t, [LF] + ([blank] + rest), skip, FlushAgain(d, ValueData));
    } else {
      ActRun(c, t, CR, [LF] + ([blank] + rest), skip, FlushNext(d, ValueData));
    }
    ActRun(d, t, LF, [blank] + rest, skip, Next(e));
    FoldActs(c, blank);
    AgainRun(e, t, [blank] + rest, skip, Again(c.(state := ValueStart)));
    ActRun(c.(state := ValueStart), t, blank, rest, skip, Mark(c.(index := 0), ValueData));
  }

  lemma EmptyLineActs(c: Core, ch: char)
    requires c.state.ValueDiscardWs? && NameState(c.hs) && ch != ' ' && ch != '\t'
    ensures Switch(c, LF) == Next(c.(state := ValueDiscardLws))
  {
    hide Switch, NameState;
    ValueActs(c, LF);
  }

  /** The end of a line without a value. */
  lemma EmptyEndRun(c: Core, t: Trace, bare: bool, rest: string, skip: SkipPolicy)
    requires c.state.ValueDiscardWs? && NameState(c.hs) && NotBlank(rest)
    ensures Run(c, t, Eol(bare) + rest, skip) ==
            Run(c.(state := HeaderFieldStart), Emit(t, Data(ValueData, "")), rest, skip)
  {
    hide Run, Switch, Emit, NameState;
    EolText(bare, rest);
    if bare {
      EmptyValueActs(c, rest[0]);
      EmptyLineActs(c, rest[0]);
      ActRun(c, t, LF, rest, skip, Next(c.(state := ValueDiscardLws)));
      AgainRun(c.(state := ValueDiscardLws), t, rest, skip, EmptyAgain(c.(state := HeaderFieldStart), ValueData));
    } else {
      EmptyValueRun(c, t, rest, skip);
    }
  }

  // ----- values by the name of their header -----

  /** The parser after the value v of a header, before the end of the line. */
  function Valued(c: Core, v: string): Core
    requires v != ""
  {
    ReadOn(Starting(c, v[0]), v[1..])
  }

  lemma FirstByteActs(c: Core, ch: char)
    requires c.state.ValueDiscardWs? && NameState(c.hs) && !c.hs.HLength?
    requires ch != ' ' && ch != '\t' && ch != CR && ch != LF
    ensures Switch(c, ch) == Mark(Starting(c, ch), ValueData)
    ensures var d := Starting(c, ch);
      && d.state.HeaderValue? && Listens(d.hs) &&
           d == c.(state := d.state, hs := d.hs, index := d.index, flags := d.flags)
      && d.flags == if c.hs.HUpgrade? then c.flags.(upgrade := true) else c.flags
  {
    hide Lower, ConnectionStart;
    ConnectionWord(Lower(ch));
  }

  /** Any value but a length is read to its end. */
  lemma ValuedRun(c: Core, t: Trace, v: string, bare: bool, rest: string, skip: SkipPolicy)
    requires c.state.ValueDiscardWs? && NameState(c.hs) && !c.hs.HLength? && CoreInv(c)
    requires v != "" && CleanValue(v) && NotBlank(rest)
    ensures var d := Valued(c, v);
      Run(c, t, v + (Eol(bare) + rest), skip) ==
      Run(d.(flags := Commit(d.flags, d.hs), state := HeaderFieldStart), Emit(t, Data(ValueData, v)), rest, skip)
    ensures var d := Valued(c, v); d == c.(state := HeaderValue, hs := d.hs, index := d.index, flags := d.flags)
  {
    hide Run, Switch, Emit, Glides, Starting, ReadOn, Commit, CoreInv, NameState;
    var e := Starting(c, v[0]);
    var d := Valued(c, v);
    assert v[0] in v && v == [v[0]] + v[1..] && Plain(v[1..]);
    FirstByteActs(c, v[0]);
    StartingInv(c, v[0]);
    ReadOnGlides(e, v[1..]);
    ActRun(c, t, v[0], v[1..] + (Eol(bare) + rest), skip, Mark(e, ValueData));
    GlideTo(e, t, v[0], v[1..], d, Eol(bare) + rest, ValueData, skip);
    LineEndRun(d, Emit(t, Data(ValueData, v)), bare, rest, skip);
    assert v + (Eol(bare) + rest) == [v[0]] + (v[1..] + (Eol(bare) + rest));
  }

  lemma StartingInv(c: Core, ch: char)
    requires CoreInv(c) && c.state.ValueDiscardWs? && Listens(Starting(c, ch).hs)
    requires var d := Starting(c, ch);
      d.state.HeaderValue? && d == c.(state := d.state, hs := d.hs, index := d.index, flags := d.flags) &&
      d.flags.trailing == c.flags.trailing && d.flags.chunked == c.flags.chunked
    ensures CoreInv(Starting(c, ch))
  {
    hide Starting;
  }

  /** The rest of a run of data that started with `ch`. */
  lemma GlideTo(c: Core, t: Trace, ch: char, s: string, d: Core, rest: string, k: DataKind, skip: SkipPolicy)
    requires Glides(c, s, d) && KindOf(c.state) == Holds(k)
    ensures Run(c, Emit(t, Data(k, [ch])), s + rest, skip) == Run(d, Emit(t, Data(k, [ch] + s)), rest, skip)
  {
    hide Run, Emit, GlidePath;
    if s == "" {
      GlideNowhere(c, d);
      assert s + rest == rest && [ch] + s == [ch];
    } else {
      GlideRun(c, Emit(t, Data(k, [ch])), s, d, rest, skip);
      EmitTwice(t, k, [ch], s);
    }
  }

  lemma {:induction false} GeneralRead(c: Core, s: string)
    requires c.hs.General?
    ensures ReadOn(c, s) == c
    decreases |s|
  {
    hide ValueChar;
    if s != "" {
      GeneralRead(c, s[..|s| - 1]);
      GeneralOn(c, s[|s| - 1]);
    }
  }

  lemma GeneralOn(c: Core, ch: char)
    requires c.hs.General?
    ensures ValueChar(c, ch).c == c
  {
  }

  /** The state in which each name leaves the parser. */
  lemma NameStates(s: string)
    requires IsName(s)
    ensures var h := StateAfter(s).0; var low := LowName(s);
      && NameState(h)
      && (NamesOptions(low) <==> h.HConnection?) && (low == "content-length" <==> h.HLength?)
      && (low == "transfer-encoding" <==> h.HTransfer?) && (low == "upgrade" <==> h.HUpgrade?)
  {
    hide StateAfter, LowName;
    HeaderRecognised(s);
    NameMeaning(s);
  }

  lemma PlainStart(c: Core, ch: char)
    requires c.hs.HUpgrade? || NoMeaning(c.hs)
    ensures var d := Starting(c, ch);
      d.hs.General? && d.flags == if c.hs.HUpgrade? then c.flags.(upgrade := true) else c.flags
  {
  }

  /** What a value adds to the flags. */
  lemma ValuedFlags(c: Core, h: Field)
    requires Readable(h) && ValueText(h.value) != "" && c.hs == StateAfter(h.name).0
    requires LowName(h.name) != "content-length"
    ensures var d := Valued(c, ValueText(h.value)); Commit(d.flags, d.hs) == FlagsWith(c.flags, h)
  {
    hide Commit, StateAfter, LowName, Valued, Spells, NameState, Options, OptionsText, WithOptions, CleanValue,
      IsLength;
    var v := ValueText(h.value);
    NameStates(h.name);
    CleanIsPlain(v);
    if c.hs.HTransfer? {
      CodingValue(c, v);
    } else if c.hs.HConnection? {
      OptionsValue(c, h.value.options);
    } else {
      Unmeant(c.hs);
      PlainFlags(c, v);
    }
  }

  lemma CleanIsPlain(v: string)
    requires CleanValue(v)
    ensures Plain(v)
  {
  }

  lemma CodingValue(c: Core, v: string)
    requires c.hs.HTransfer? && v != "" && Plain(v)
    ensures var d := Valued(c, v);
      Commit(d.flags, d.hs) == c.flags.(chunked := c.flags.chunked || Spells(v, "chunked"))
  {
    hide Commit, ReadOn, Starting, CodingState, Spells, Plain;
    CodingRead(c, v);
    CodingFlags(c.flags, v);
  }

  lemma OptionsValue(c: Core, os: seq<Listed>)
    requires c.hs.HConnection? && Options(os)
    ensures var d := Valued(c, OptionsText(os)); Commit(d.flags, d.hs) == WithOptions(c.flags, os)
  {
    hide Commit, ReadOn, Starting, OptionState, WithOptions;
    OptionsRead(c, os);
    OptionsFlags(c.flags, os);
  }

  lemma PlainFlags(c: Core, v: string)
    requires v != "" && (c.hs.HUpgrade? || NoMeaning(c.hs))
    ensures var d := Valued(c, v);
      Commit(d.flags, d.hs) == if c.hs.HUpgrade? then c.flags.(upgrade := true) else c.flags
  {
    hide Commit, ReadOn, Starting;
    PlainStart(c, v[0]);
    GeneralRead(Starting(c, v[0]), v[1..]);
    GeneralCommits(Valued(c, v));
  }

  lemma Unmeant(h: HeaderState)
    requires NameState(h) && !h.HTransfer? && !h.HConnection? && !h.HLength?
    ensures h.HUpgrade? || NoMeaning(h)
  {
  }

  lemma GeneralCommits(c: Core)
    requires c.hs.General?
    ensures Commit(c.flags, c.hs) == c.flags
  {
  }

  /** A length and the end of its line. */
  lemma CountedRun(c: Core, t: Trace, v: string, bare: bool, rest: string, skip: SkipPolicy)
    requires c.state.ValueDiscardWs? && c.hs.HLength? && CleanValue(v) && v != "" && NotBlank(rest)
    requires IsLength(v) && Decimal(v) <= LENGTH_LIMIT
    ensures Run(c, t, v + (Eol(bare) + rest), skip) ==
            Run(InLength(c, Decimal(v)).(state := HeaderFieldStart), Emit(t, Data(ValueData, v)), rest, skip)
  {
    hide Run, Switch, Emit, Decimal;
    LengthRun(c, t, v, skip);
    RunConcat(c, t, v, Eol(bare) + rest, skip);
    LineEndRun(InLength(c, Decimal(v)), Emit(t, Data(ValueData, v)), bare, rest, skip);
  }

  /** The value of a header line, and its end. */
  lemma ValueRun(c: Core, t: Trace, h: Field, rest: string, skip: SkipPolicy) returns (d: Core)
    requires c.state.ValueDiscardWs? && CoreInv(c) && Readable(h) && NotBlank(rest) && c.hs == StateAfter(h.name).0
    ensures d == c.(state := HeaderFieldStart, hs := d.hs, index := d.index, flags := FlagsWith(c.flags, h),
                    length := LengthWith(c.length, h))
    ensures Run(c, t, ValueText(h.value) + (Eol(h.bare) + rest), skip) ==
            Run(d, Emit(t, Data(ValueData, ValueText(h.value))), rest, skip)
  {
    hide Run, Switch, LowName, StateAfter, Decimal, CleanValue, Spells, Options, OptionsText, ReadOn, Starting, CoreInv,
      NameState, Commit, Eol, Emit, NotBlank;
    var v := ValueText(h.value);
    NameStates(h.name);
    if v == "" {
      EmptyPart(v, Eol(h.bare) + rest);
      EmptyEndRun(c, t, h.bare, rest, skip);
      EmptyFlags(c.flags, h);
      d := c.(state := HeaderFieldStart);
    } else if c.hs.HLength? {
      CountedRun(c, t, v, h.bare, rest, skip);
      d := InLength(c, Decimal(v)).(state := HeaderFieldStart);
    } else {
      ValuedRun(c, t, v, h.bare, rest, skip);
      ValuedFlags(c, h);
      var f := Valued(c, v);
      d := f.(flags := Commit(f.flags, f.hs), state := HeaderFieldStart);
    }
  }

  /** One header line, read: its name and value are reported, and it means what `FlagsWith` and `LengthWith` say. */
  lemma FieldRun(c: Core, t: Trace, h: Field, rest: string, skip: SkipPolicy) returns (d: Core)
    requires c.state.HeaderFieldStart? && CoreInv(c) && FieldMayFollow(t) && Readable(h) && NotBlank(rest)
    ensures d == c.(hs := d.hs, index := d.index, flags := FlagsWith(c.flags, h), length := LengthWith(c.length, h))
    ensures CoreInv(d)
    ensures Run(c, t, FieldText(h) + rest, skip) == Run(d, t + FieldEvents(h), rest, skip)
  {
    hide Run, LowName, StateAfter, Decimal, CleanValue, Options, CoreInv, NameState, FieldText, Eol, FlagsWith,
      LengthWith, NotBlank;
    var e := InNameOf(c, h.name).(state := ValueDiscardWs);
    FieldParts(h, rest);
    FieldNameRun(c, t, h, ValueText(h.value) + (Eol(h.bare) + rest), skip);
    NameStates(h.name);
    NamedInv(c, e);
    d := ValueRun(e, Emit(t, Data(FieldData, h.name)), h, rest, skip);
    FieldTrace(t, h);
    ReadInv(c, d, h);
  }

  lemma FieldTrace(t: Trace, h: Field)
    requires Readable(h) && FieldMayFollow(t)
    ensures Emit(Emit(t, Data(FieldData, h.name)), Data(ValueData, ValueText(h.value))) == t + FieldEvents(h)
  {
    hide LowName, ValueText;
  }

  /**
   The effect of a Transfer-Encoding line: the body comes in chunks exactly if the value, in any case and without the
   blanks behind it, is `chunked`, or that was so before.
   */
  lemma CodingLaw(c: Core, t: Trace, name: string, blanks: string, v: string, bare: bool, rest: string,
                  skip: SkipPolicy)
    returns (d: Core)
    requires c.state.HeaderFieldStart? && CoreInv(c) && FieldMayFollow(t) && NotBlank(rest)
    requires IsName(name) && LowName(name) == "transfer-encoding" && Blanks(blanks) && CleanValue(v)
    ensures d.state.HeaderFieldStart? && d.length == c.length
    ensures d.flags == c.flags.(chunked := c.flags.chunked || Spells(v, "chunked"))
    ensures Run(c, t, name + ":" + blanks + v + Eol(bare) + rest, skip) ==
            Run(d, t + [Data(FieldData, name), Data(ValueData, v)], rest, skip)
  {
    hide Run, LowName, CoreInv, CleanValue, Spells;
    d := FieldRun(c, t, Field(name, blanks, Text(v), bare), rest, skip);
  }

  lemma FieldParts(h: Field, rest: string)
    requires Readable(h)
    ensures FieldText(h) + rest == h.name + ":" + h.blanks + (ValueText(h.value) + (Eol(h.bare) + rest))
  {
    hide LowName, ValueText;
  }

  lemma EmptyPart(v: string, rest: string)
    ensures v == "" ==> v + rest == rest
  {
  }

  lemma NamedInv(c: Core, e: Core)
    requires CoreInv(c) && e.state.ValueDiscardWs? && NameState(e.hs) &&
      e == c.(state := e.state, hs := e.hs, index := e.index)
    ensures CoreInv(e)
  {
  }

  lemma EmptyFlags(f: Flags, h: Field)
    requires Readable(h) && ValueText(h.value) == ""
    ensures FlagsWith(f, h) == f
  {
    hide LowName;
  }

  lemma ReadInv(c: Core, d: Core, h: Field)
    requires CoreInv(c) && Readable(h) && c.state.HeaderFieldStart? && d.state.HeaderFieldStart?
    requires d == c.(hs := d.hs, index := d.index, flags := FlagsWith(c.flags, h), length := LengthWith(c.length, h))
    ensures CoreInv(d)
  {
    hide LowName, Decimal, Spells, ValueText, WithOptions, IsLength;
    if h.value.List? {
      OptionFlags(c.flags, h.value.options);
    }
  }

  // ----- all header lines -----

  predicate AllReadable(hs: seq<Field>) {
    forall i | 0 <= i < |hs| :: Readable(hs[i])
  }

  function FieldsText(hs: seq<Field>): string
    requires AllReadable(hs)
  {
    if hs == [] then "" else FieldText(hs[0]) + FieldsText(hs[1..])
  }

  function FieldsEvents(hs: seq<Field>): Trace
    requires AllReadable(hs)
  {
    if hs == [] then [] else FieldEvents(hs[0]) + FieldsEvents(hs[1..])
  }

  function FlagsAfter(f: Flags, hs: seq<Field>): Flags
    requires AllReadable(hs)
    decreases |hs|
  {
    if hs == [] then f else FlagsAfter(FlagsWith(f, hs[0]), hs[1..])
  }

  function LengthAfter(n: nat, hs: seq<Field>): nat
    requires AllReadable(hs)
    decreases |hs|
  {
    if hs == [] then n else LengthAfter(LengthWith(n, hs[0]), hs[1..])
  }

  lemma {:induction false} FieldsRun(c: Core, t: Trace, hs: seq<Field>, rest: string, skip: SkipPolicy)
    returns (d: Core)
    requires c.state.HeaderFieldStart? && CoreInv(c) && FieldMayFollow(t) && AllReadable(hs) && NotBlank(rest)
    ensures d == c.(hs := d.hs, index := d.index, flags := FlagsAfter(c.flags, hs), length := LengthAfter(c.length, hs))
    ensures CoreInv(d)
    ensures Run(c, t, FieldsText(hs) + rest, skip) == Run(d, t + FieldsEvents(hs), rest, skip)
    decreases |hs|
  {
    hide Run, Readable, FieldText, FieldEvents, FlagsWith, LengthWith, CoreInv, NotBlank, FieldMayFollow;
    if hs == [] {
      d := c;
      assert FieldsText(hs) + rest == rest && t + FieldsEvents(hs) == t;
    } else {
      var h, tail := hs[0], hs[1..];
      FieldsNotBlank(tail, rest);
      var e := FieldRun(c, t, h, FieldsText(tail) + rest, skip);
      EventsLast(t, h);
      d := FieldsRun(e, t + FieldEvents(h), tail, rest, skip);
      Grouped(FieldText(h), FieldsText(tail), rest);
      Grouped(t, FieldEvents(h), FieldsEvents(tail));
    }
  }

  lemma EventsLast(t: Trace, h: Field)
    requires Readable(h)
    ensures FieldMayFollow(t + FieldEvents(h))
  {
  }

  lemma FieldsNotBlank(hs: seq<Field>, rest: string)
    requires AllReadable(hs) && NotBlank(rest)
    ensures NotBlank(FieldsText(hs) + rest)
  {
    hide ValueText, LowName, Options;
    if hs != [] {
      assert IsToken(hs[0].name[0]);
      assert (FieldsText(hs) + rest)[0] == FieldText(hs[0])[0] == hs[0].name[0];
    }
  }

  // ----- numbers of a first line -----

  lemma DigitActs(c: Core, n: nat, ch: char)
    requires n < 10 && ch == ('0' as int + n) as char
    ensures c.state.ReqFirstMajor? && n > 0 ==> Switch(c, ch) == Next(c.(major := n, state := ReqMajor))
    ensures c.state.ResFirstMajor? ==> Switch(c, ch) == Next(c.(major := n, state := ResMajor))
    ensures c.state.ReqFirstMinor? ==> Switch(c, ch) == Next(c.(minor := n, state := ReqMinor))
    ensures c.state.ResFirstMinor? ==> Switch(c, ch) == Next(c.(minor := n, state := ResMinor))
    ensures c.state.ResFirstStatusCode? ==> Switch(c, ch) == Next(c.(status := n, state := ResStatusCode))
  {
    DigitOf(n);
  }

  lemma DigitOf(n: nat)
    requires n < 10
    ensures var ch := ('0' as int + n) as char; IsNum(ch) && Digit(ch) == n && (n > 0 ==> '1' <= ch <= '9')
  {
  }

  lemma MoreActs(c: Core, n: nat, ch: char)
    requires n < 10 && ch == ('0' as int + n) as char
    ensures (c.state.ReqMajor? || c.state.ResMajor?) && c.major * 10 + n <= 999 ==>
      Switch(c, ch) == Next(c.(major := c.major * 10 + n))
    ensures (c.state.ReqMinor? || c.state.ResMinor?) && c.minor * 10 + n <= 999 ==>
      Switch(c, ch) == Next(c.(minor := c.minor * 10 + n))
    ensures c.state.ResStatusCode? && c.status * 10 + n <= 999 ==>
      Switch(c, ch) == Next(c.(status := c.status * 10 + n))
  {
    DigitOf(n);
  }

  /** The three numbers of a first line. */
  datatype Number = Major | Minor | Code

  predicate AtNumber(c: Core, k: Number) {
    match k
    case Major => c.state.ReqFirstMajor? || c.state.ResFirstMajor?
    case Minor => c.state.ReqFirstMinor? || c.state.ResFirstMinor?
    case Code => c.state.ResFirstStatusCode?
  }

  /** The parser after the digits of such a number. */
  function Numbered(c: Core, k: Number, n: nat): Core {
    match k
    case Major => c.(major := n, state := if c.state.ReqFirstMajor? then ReqMajor else ResMajor)
    case Minor => c.(minor := n, state := if c.state.ReqFirstMinor? then ReqMinor else ResMinor)
    case Code => c.(status := n, state := ResStatusCode)
  }

  lemma NumberFirst(c: Core, k: Number, n: nat)
    requires AtNumber(c, k) && n < 10 && (c.state.ReqFirstMajor? ==> n > 0)
    ensures Switch(c, ('0' as int + n) as char) == Next(Numbered(c, k, n))
  {
    hide Switch;
    DigitActs(c, n, ('0' as int + n) as char);
  }

  lemma NumberNext(c: Core, k: Number, n: nat)
    requires AtNumber(c, k) && 10 <= n <= 999
    ensures Switch(Numbered(c, k, n / 10), ('0' as int + n % 10) as char) == Next(Numbered(c, k, n))
  {
    hide Switch;
    MoreActs(Numbered(c, k, n / 10), n % 10, ('0' as int + n % 10) as char);
    assert n / 10 * 10 + n % 10 == n;
  }

  lemma {:induction false} NumberRun(c: Core, t: Trace, k: Number, n: nat, rest: string, skip: SkipPolicy)
    requires AtNumber(c, k) && n <= 999 && (c.state.ReqFirstMajor? ==> n > 0)
    ensures Run(c, t, Decimals(n) + rest, skip) == Run(Numbered(c, k, n), t, rest, skip)
    decreases n
  {
    hide Run, Switch, AtNumber, Numbered;
    var ch := ('0' as int + n % 10) as char;
    if n < 10 {
      NumberFirst(c, k, n);
      ActRun(c, t, ch, rest, skip, Next(Numbered(c, k, n)));
    } else {
      NumberRun(c, t, k, n / 10, [ch] + rest, skip);
      NumberNext(c, k, n);
      ActRun(Numbered(c, k, n / 10), t, ch, rest, skip, Next(Numbered(c, k, n)));
      Grouped(Decimals(n / 10), [ch], rest);
    }
  }

  function VersionText(major: nat, minor: nat): string {
    Decimals(major) + "." + Decimals(minor)
  }

  lemma PointActs(c: Core)
    ensures c.state.ReqMajor? ==> Switch(c, '.') == Next(c.(state := ReqFirstMinor))
    ensures c.state.ResMajor? ==> Switch(c, '.') == Next(c.(state := ResFirstMinor))
  {
  }

  /** A version after `HTTP/`. */
  lemma VersionNumbersRun(c: Core, t: Trace, major: nat, minor: nat, rest: string, skip: SkipPolicy)
    requires (c.state.ReqFirstMajor? && major > 0) || c.state.ResFirstMajor?
    requires major <= 999 && minor <= 999
    ensures Run(c, t, VersionText(major, minor) + rest, skip) ==
            Run(c.(major := major, minor := minor, state := if c.state.ReqFirstMajor? then ReqMinor else ResMinor), t,
              rest,
                skip)
  {
    hide Run, Switch, Decimals;
    var d := Numbered(c, Major, major);
    var e := d.(state := if c.state.ReqFirstMajor? then ReqFirstMinor else ResFirstMinor);
    NumberRun(c, t, Major, major, "." + (Decimals(minor) + rest), skip);
    PointActs(d);
    ActRun(d, t, '.', Decimals(minor) + rest, skip, Next(e));
    NumberRun(e, t, Minor, minor, rest, skip);
    assert VersionText(major, minor) + rest == Decimals(major) + ("." + (Decimals(minor) + rest));
    assert "." + (Decimals(minor) + rest) == ['.'] + (Decimals(minor) + rest);
  }

  // ----- request lines -----

  /** A target that the parser takes for a URL, for CONNECT and for other methods. */
  predicate IsTarget(connect: bool, target: string) {
    target != "" && InnerUrl(From(if connect then ServerStart else SpacesBeforeUrl, target))
  }

  lemma UrlOn(c: Core, s: State, ch: char)
    requires GroupOf(s).UrlGroup? && !s.SpacesBeforeUrl? && c.state == s && !ParseUrlChar(s, ch).Dead?
    ensures GlideStep(c, ch, c.(state := ParseUrlChar(s, ch))) && GroupOf(ParseUrlChar(s, ch)).UrlGroup?
    ensures !ParseUrlChar(s, ch).SpacesBeforeUrl?
  {
    hide ParseUrlChar;
    UrlCharKind(s, ch);
    UrlCharPlain(s, ch);
  }

  lemma UrlCharPlain(s: State, ch: char)
    ensures !ParseUrlChar(s, ch).Dead? ==> ch != ' ' && ch != CR && ch != LF
    ensures GroupOf(s).UrlGroup? && !ParseUrlChar(s, ch).Dead? ==>
      GroupOf(ParseUrlChar(s, ch)).UrlGroup? && !ParseUrlChar(s, ch).SpacesBeforeUrl?
  {
  }

  lemma DeadBefore(s: State, url: string)
    requires url != "" && !From(s, url).Dead?
    ensures !From(s, url[..|url| - 1]).Dead?
  {
    DeadAfter(url[|url| - 1]);
  }

  lemma DeadAfter(ch: char)
    ensures ParseUrlChar(Dead, ch).Dead?
  {
  }

  /** The further bytes of a URL. */
  lemma {:induction false} UrlGlides(c: Core, s: State, url: string)
    requires GroupOf(s).UrlGroup? && !s.SpacesBeforeUrl? && c.state == s && !From(s, url).Dead?
    ensures Glides(c, url, c.(state := From(s, url)))
    ensures GroupOf(From(s, url)).UrlGroup? && !From(s, url).SpacesBeforeUrl?
    decreases |url|
  {
    hide ParseUrlChar, GroupOf, Glides, GlideStep;
    if url == "" {
      GlideNone(c);
    } else {
      var u, ch := url[..|url| - 1], url[|url| - 1];
      DeadBefore(s, url);
      UrlGlides(c, s, u);
      var d := c.(state := From(s, u));
      UrlOn(d, d.state, ch);
      GlideOne(d, ch, c.(state := From(s, url)));
      GlideConcat(c, u, d, [ch], c.(state := From(s, url)));
      assert u + [ch] == url;
    }
  }

  lemma UrlFirst(c: Core, ch: char)
    requires c.state.SpacesBeforeUrl?
    requires !ParseUrlChar(if c.verb.CONNECT? then ServerStart else SpacesBeforeUrl, ch).Dead?
    ensures var s := ParseUrlChar(if c.verb.CONNECT? then ServerStart else SpacesBeforeUrl, ch);
      Switch(c, ch) == Mark(c.(state := s), UrlData) && GroupOf(s).UrlGroup? && !s.SpacesBeforeUrl?
  {
    hide ParseUrlChar;
    UrlCharPlain(if c.verb.CONNECT? then ServerStart else SpacesBeforeUrl, ch);
  }

  lemma UrlEnd(c: Core)
    requires InnerUrl(c.state)
    ensures Switch(c, ' ') == FlushNext(c.(state := ReqHttpStart), UrlData)
    ensures KindOf(c.state) == Holds(UrlData)
  {
  }

  lemma {:induction false} FromFirst(s: State, url: string)
    requires url != ""
    ensures From(s, url) == From(ParseUrlChar(s, url[0]), url[1..])
  {
    hide ParseUrlChar;
    FromConcat(s, [url[0]], url[1..]);
    OneRun(s, url[0]);
    assert url == [url[0]] + url[1..];
  }

  lemma {:induction false} FromDead(url: string)
    ensures From(Dead, url).Dead?
    decreases |url|
  {
    hide ParseUrlChar;
    if url != "" {
      FromDead(url[..|url| - 1]);
      DeadAfter(url[|url| - 1]);
    }
  }

  /** The target of a request. */
  lemma UrlRun(c: Core, t: Trace, target: string, rest: string, skip: SkipPolicy) returns (e: Core)
    requires c.state.SpacesBeforeUrl? && IsTarget(c.verb.CONNECT?, target)
    ensures InnerUrl(e.state) && e == c.(state := e.state)
    ensures Run(c, t, target + rest, skip) == Run(e, Emit(t, Data(UrlData, target)), rest, skip)
  {
    hide Run, Switch, Emit, Glides, ParseUrlChar, From, GroupOf, KindOf;
    var s0 := if c.verb.CONNECT? then ServerStart else SpacesBeforeUrl;
    var s := ParseUrlChar(s0, target[0]);
    FromFirst(s0, target);
    FromDead(target[1..]);
    UrlFirst(c, target[0]);
    var d := c.(state := s);
    e := c.(state := From(s0, target));
    UrlGlides(d, s, target[1..]);
    UrlKind(s);
    ActRun(c, t, target[0], target[1..] + rest, skip, Mark(d, UrlData));
    GlideTo(d, t, target[0], target[1..], e, rest, UrlData, skip);
    assert target == [target[0]] + target[1..];
    assert target + rest == [target[0]] + (target[1..] + rest);
  }

  /** The target of a request and the blank after it. */
  lemma TargetRun(c: Core, t: Trace, target: string, rest: string, skip: SkipPolicy)
    requires c.state.SpacesBeforeUrl? && IsTarget(c.verb.CONNECT?, target)
    ensures Run(c, t, target + (" " + rest), skip) ==
            Run(c.(state := ReqHttpStart), Emit(t, Data(UrlData, target)), rest, skip)
  {
    hide Run, Switch, Emit, From, IsTarget;
    var e := UrlRun(c, t, target, " " + rest, skip);
    UrlEnd(e);
    ActRun(e, Emit(t, Data(UrlData, target)), ' ', rest, skip, FlushNext(c.(state := ReqHttpStart), UrlData));
    assert " " + rest == [' '] + rest;
  }

  lemma UrlKind(s: State)
    requires GroupOf(s).UrlGroup? && !s.SpacesBeforeUrl?
    ensures KindOf(s) == Holds(UrlData)
  {
  }

  lemma ProtocolRun(c: Core, t: Trace, rest: string, skip: SkipPolicy)
    requires c.state.ReqHttpStart?
    ensures Run(c, t, "HTTP/" + rest, skip) == Run(c.(state := ReqFirstMajor), t, rest, skip)
  {
    hide StartStep, MethodStep, UrlStep, ResponseLineStep, NameStep, ValueStep, HeadersEndStep, BodyStep, ChunkSizeStep,
      Run;
    var path := [c, c.(state := ReqH), c.(state := ReqHT), c.(state := ReqHTT), c.(state := ReqHTTP),
                 c.(state := ReqFirstMajor)];
    assert NextPath(path, "HTTP/");
    NextRun(path, t, "HTTP/", rest, skip);
  }

  lemma MinorEndActs(c: Core)
    requires c.state.ReqMinor?
    ensures Switch(c, CR) == Next(c.(state := ReqLineAlmostDone)) &&
      Switch(c, LF) == Next(c.(state := HeaderFieldStart))
    ensures Switch(c.(state := ReqLineAlmostDone), LF) == Next(c.(state := HeaderFieldStart))
  {
    hide MinorStep;
  }

  lemma RequestLineEnd(c: Core, t: Trace, bare: bool, rest: string, skip: SkipPolicy)
    requires c.state.ReqMinor?
    ensures Run(c, t, Eol(bare) + rest, skip) == Run(c.(state := HeaderFieldStart), t, rest, skip)
  {
    hide Run, Switch;
    EolText(bare, rest);
    MinorEndActs(c);
    if bare {
      ActRun(c, t, LF, rest, skip, Next(c.(state := HeaderFieldStart)));
    } else {
      ActRun(c, t, CR, [LF] + rest, skip, Next(c.(state := ReqLineAlmostDone)));
      ActRun(c.(state := ReqLineAlmostDone), t, LF, rest, skip, Next(c.(state := HeaderFieldStart)));
    }
  }

  /** A method and the blank after it. */
  lemma VerbRun(c: Core, t: Trace, m: Method, rest: string, skip: SkipPolicy)
    requires c.state.StartReq?
    ensures var w := MethodString(m);
      Run(c, t, w + (" " + rest), skip) ==
      Run(c.(flags := NO_FLAGS, length := ULLONG_MAX, verb := m, index := |w| + 1, state := SpacesBeforeUrl),
          Emit(t, MessageBegin), rest, skip)
  {
    hide Run, Switch, MethodString, Emit;
    var w := MethodString(m);
    GuessComplete(m);
    VerbPlain(m);
    MethodRun(c, t, w, skip);
    RunConcat(c, t, w, " " + rest, skip);
    MethodSpaceRun(c, Emit(t, MessageBegin), m, |w|, skip);
    RunConcat(HttpRecognisers.Reading(c, m, |w|), Emit(t, MessageBegin), " ", rest, skip);
  }

  lemma VerbPlain(m: Method)
    ensures var w := MethodString(m); w != "" && w[0] != CR && w[0] != LF && ' ' !in w
  {
    hide MethodString;
    GuessComplete(m);
    forall i | 0 <= i < |MethodString(m)|
      ensures MethodString(m)[i] != ' '
    {
      NoNul(m, i);
    }
    VerbAlpha(m);
  }

  lemma VerbAlpha(m: Method)
    ensures var w := MethodString(m); w != "" && w[0] != CR && w[0] != LF
  {
  }

  /** The first line of a request. */
  datatype RequestLine = RequestLine(verb: Method, target: string, major: nat, minor: nat, bare: bool)

  predicate GoodRequestLine(l: RequestLine) {
    IsTarget(l.verb.CONNECT?, l.target) && l.minor <= 999 && if l.major == 0 then l.minor == 9 else l.major <= 999
  }

  /** Version 0.9 is not written. */
  function RequestLineText(l: RequestLine): string {
    MethodString(l.verb) + " " + l.target +
    (if l.major == 0 then "" else " HTTP/" + VersionText(l.major, l.minor)) + Eol(l.bare)
  }

  /** The parser after such a line. */
  function Asked(c: Core, l: RequestLine): Core {
    c.(flags := NO_FLAGS, length := ULLONG_MAX, verb := l.verb, index := |MethodString(l.verb)| + 1, major := l.major,
       minor := l.minor, state := HeaderFieldStart)
  }

  lemma OldLineActs(c: Core)
    requires InnerUrl(c.state)
    ensures var d := c.(major := 0, minor := 9);
      && Switch(c, CR) == FlushNext(d.(state := ReqLineAlmostDone), UrlData)
      && Switch(c, LF) == FlushNext(d.(state := HeaderFieldStart), UrlData)
      && Switch(d.(state := ReqLineAlmostDone), LF) == Next(d.(state := HeaderFieldStart))
  {
  }

  /** The target of a request without a version. */
  lemma OldTargetRun(c: Core, t: Trace, target: string, bare: bool, rest: string, skip: SkipPolicy)
    requires c.state.SpacesBeforeUrl? && IsTarget(c.verb.CONNECT?, target)
    ensures Run(c, t, target + (Eol(bare) + rest), skip) ==
            Run(c.(major := 0, minor := 9, state := HeaderFieldStart), Emit(t, Data(UrlData, target)), rest, skip)
  {
    hide Run, Switch, Emit, From, IsTarget;
    var e := UrlRun(c, t, target, Eol(bare) + rest, skip);
    var u := Emit(t, Data(UrlData, target));
    var d := c.(major := 0, minor := 9, state := HeaderFieldStart);
    OldLineActs(e);
    EolText(bare, rest);
    if bare {
      ActRun(e, u, LF, rest, skip, FlushNext(d, UrlData));
    } else {
      ActRun(e, u, CR, [LF] + rest, skip, FlushNext(d.(state := ReqLineAlmostDone), UrlData));
      ActRun(d.(state := ReqLineAlmostDone), u, LF, rest, skip, Next(d));
    }
  }

  lemma RequestLineRun(c: Core, t: Trace, l: RequestLine, rest: string, skip: SkipPolicy)
    requires c.state.StartReq? && GoodRequestLine(l)
    ensures Run(c, t, RequestLineText(l) + rest, skip) ==
            Run(Asked(c, l), t + [MessageBegin, Data(UrlData, l.target)], rest, skip)
  {
    hide Run, Switch, MethodString, IsTarget, VersionText;
    var w := MethodString(l.verb);
    var d := c.(flags := NO_FLAGS, length := ULLONG_MAX, verb := l.verb, index := |w| + 1, state := SpacesBeforeUrl);
    var u := t + [MessageBegin];
    var x := u + [Data(UrlData, l.target)];
    assert Emit(u, Data(UrlData, l.target)) == x && x == t + [MessageBegin, Data(UrlData, l.target)];
    if l.major == 0 {
      VerbRun(c, t, l.verb, l.target + (Eol(l.bare) + rest), skip);
      OldTargetRun(d, u, l.target, l.bare, rest, skip);
      FourParts(w, l.target, Eol(l.bare), rest);
    } else {
      var v := VersionText(l.major, l.minor);
      var e := d.(state := ReqHttpStart);
      VerbRun(c, t, l.verb, l.target + (" " + ("HTTP/" + (v + (Eol(l.bare) + rest)))), skip);
      TargetRun(d, u, l.target, "HTTP/" + (v + (Eol(l.bare) + rest)), skip);
      ProtocolRun(e, x, v + (Eol(l.bare) + rest), skip);
      VersionNumbersRun(e.(state := ReqFirstMajor), x, l.major, l.minor, Eol(l.bare) + rest, skip);
      RequestLineEnd(e.(major := l.major, minor := l.minor, state := ReqMinor), x, l.bare, rest, skip);
      SixParts(w, l.target, v, Eol(l.bare), rest);
    }
  }

  lemma FourParts(w: string, target: string, eol: string, rest: string)
    ensures w + " " + target + "" + eol + rest == w + (" " + (target + (eol + rest)))
  {
  }

  lemma SixParts(w: string, target: string, v: string, eol: string, rest: string)
    ensures w + " " + target + (" HTTP/" + v) + eol + rest ==
            w + (" " + (target + (" " + ("HTTP/" + (v + (eol + rest))))))
  {
    assert " HTTP/" == " " + "HTTP/";
  }

  // ----- status lines -----

  /** The first line of a response; without a phrase the blank before it is missing too. */
  datatype ReplyLine = ReplyLine(major: nat, minor: nat, code: nat, phrase: string, bare: bool)

  predicate GoodReplyLine(l: ReplyLine) {
    l.major <= 999 && l.minor <= 999 && l.code <= 999 && Plain(l.phrase)
  }

  function ReplyLineText(l: ReplyLine): string {
    "HTTP/" + VersionText(l.major, l.minor) + " " + Decimals(l.code) +
    (if l.phrase == "" then "" else " " + l.phrase) + Eol(l.bare)
  }

  function ReplyLineEvents(l: ReplyLine): Trace {
    [MessageBegin] + if l.phrase == "" then [] else [Data(StatusData, l.phrase)]
  }

  lemma ReplyStartRun(c: Core, t: Trace, rest: string, skip: SkipPolicy)
    requires c.state.StartRes?
    ensures Run(c, t, "HTTP/" + rest, skip) ==
            Run(c.(flags := NO_FLAGS, length := ULLONG_MAX, state := ResFirstMajor), t + [MessageBegin], rest, skip)
  {
    hide StartStep, MethodStep, UrlStep, RequestLineStep, NameStep, ValueStep, HeadersEndStep, BodyStep, ChunkSizeStep,
      Run;
    var d := c.(flags := NO_FLAGS, length := ULLONG_MAX, state := ResH);
    StartAct(c);
    ActRun(c, t, 'H', "TTP/" + rest, skip, NotifyNext(d, MessageBegin));
    var path := [d, d.(state := ResHT), d.(state := ResHTT), d.(state := ResHTTP), d.(state := ResFirstMajor)];
    assert NextPath(path, "TTP/");
    NextRun(path, t + [MessageBegin], "TTP/", rest, skip);
    assert "HTTP/" + rest == ['H'] + ("TTP/" + rest);
  }

  lemma ReplyBlankActs(c: Core)
    ensures c.state.ResMinor? ==> Switch(c, ' ') == Next(c.(state := ResFirstStatusCode))
    ensures c.state.ResStatusCode? ==> Switch(c, ' ') == Next(c.(state := ResStatusStart))
  {
    hide MinorStep, CodeStep;
  }

  lemma ReplyEndActs(c: Core)
    requires c.state.ResStatusCode? || c.state.ResStatus?
    ensures var d := c.(state := ResLineAlmostDone); var e := c.(state := HeaderFieldStart);
      && Switch(c, CR) == (if c.state.ResStatus? then FlushNext(d, StatusData) else Next(d))
      && Switch(c, LF) == (if c.state.ResStatus? then FlushNext(e, StatusData) else Next(e))
      && Switch(d, LF) == Next(e)
  {
    hide CodeStep;
  }

  lemma ReplyLineEnd(c: Core, t: Trace, bare: bool, rest: string, skip: SkipPolicy)
    requires c.state.ResStatusCode? || c.state.ResStatus?
    ensures Run(c, t, Eol(bare) + rest, skip) == Run(c.(state := HeaderFieldStart), t, rest, skip)
  {
    hide Run, Switch;
    var d := c.(state := ResLineAlmostDone);
    EolText(bare, rest);
    ReplyEndActs(c);
    if bare {
      ActRun(c, t, LF, rest, skip, Switch(c, LF));
    } else {
      ActRun(c, t, CR, [LF] + rest, skip, Switch(c, CR));
      ActRun(d, t, LF, rest, skip, Next(c.(state := HeaderFieldStart)));
    }
  }

  /** The phrase after a status code. */
  lemma ReplyPhraseRun(c: Core, t: Trace, s: string, rest: string, skip: SkipPolicy)
    requires c.state.ResStatusStart? && s != "" && Plain(s)
    ensures Run(c, t, s + rest, skip) ==
      Run(c.(index := 0, state := ResStatus), Emit(t, Data(StatusData, s)), rest, skip)
  {
    hide Switch, Run, Emit, Glides;
    var d := c.(index := 0, state := ResStatus);
    assert s[0] in s && s == [s[0]] + s[1..] && Plain(s[1..]);
    StatusGlide(d, s[1..]);
    HttpPrinting.PhraseActs(c, s[0]);
    ActRun(c, t, s[0], s[1..] + rest, skip, Mark(d, StatusData));
    GlideTo(d, t, s[0], s[1..], d, rest, StatusData, skip);
    assert s + rest == [s[0]] + (s[1..] + rest);
  }

  /** The parser after such a line. */
  function Answered(c: Core, l: ReplyLine): Core {
    c.(flags := NO_FLAGS, length := ULLONG_MAX, major := l.major, minor := l.minor, status := l.code,
       index := if l.phrase == "" then c.index else 0, state := HeaderFieldStart)
  }

  lemma ReplyLineRun(c: Core, t: Trace, l: ReplyLine, rest: string, skip: SkipPolicy)
    requires c.state.StartRes? && GoodReplyLine(l)
    ensures Run(c, t, ReplyLineText(l) + rest, skip) == Run(Answered(c, l), t + ReplyLineEvents(l), rest, skip)
  {
    hide Run, Switch, VersionText, Decimals;
    var v, n, p := VersionText(l.major, l.minor), Decimals(l.code), if l.phrase == "" then "" else " " + l.phrase;
    var u := t + [MessageBegin];
    var d := c.(flags := NO_FLAGS, length := ULLONG_MAX, state := ResFirstMajor);
    var e := d.(major := l.major, minor := l.minor, state := ResMinor);
    var f := e.(status := l.code, state := ResStatusCode);
    ReplyStartRun(c, t, v + (" " + (n + (p + (Eol(l.bare) + rest)))), skip);
    VersionNumbersRun(d, u, l.major, l.minor, " " + (n + (p + (Eol(l.bare) + rest))), skip);
    ReplyBlankActs(e);
    ActRun(e, u, ' ', n + (p + (Eol(l.bare) + rest)), skip, Next(e.(state := ResFirstStatusCode)));
    NumberRun(e.(state := ResFirstStatusCode), u, Code, l.code, p + (Eol(l.bare) + rest), skip);
    if l.phrase == "" {
      assert p + (Eol(l.bare) + rest) == Eol(l.bare) + rest;
      ReplyLineEnd(f, u, l.bare, rest, skip);
      assert t + ReplyLineEvents(l) == u;
    } else {
      var g := f.(state := ResStatusStart);
      var x := u + [Data(StatusData, l.phrase)];
      ReplyBlankActs(f);
      assert p + (Eol(l.bare) + rest) == [' '] + (l.phrase + (Eol(l.bare) + rest));
      ActRun(f, u, ' ', l.phrase + (Eol(l.bare) + rest), skip, Next(g));
      ReplyPhraseRun(g, u, l.phrase, Eol(l.bare) + rest, skip);
      assert Emit(u, Data(StatusData, l.phrase)) == x && x == t + ReplyLineEvents(l);
      ReplyLineEnd(g.(index := 0, state := ResStatus), x, l.bare, rest, skip);
    }
    FiveParts(v, n, p, Eol(l.bare), rest);
  }

  lemma FiveParts(v: string, n: string, p: string, eol: string, rest: string)
    ensures "HTTP/" + v + " " + n + p + eol + rest == "HTTP/" + (v + (" " + (n + (p + (eol + rest)))))
    ensures " " + (n + (p + (eol + rest))) == [' '] + (n + (p + (eol + rest)))
  {
  }
}
