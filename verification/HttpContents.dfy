/**
 Whole messages: what ends the headers, bodies with a length, in chunks and up to the end of the stream, and what
 follows. From the text of any list of messages the parser makes exactly their events.
 */
module HttpContents {
  import opened HttpChars
  import opened HttpMachine
  import opened HttpInvariants
  import opened HttpRuns
  import opened HttpRecognisers
  import opened HttpValues
  import opened HttpPrinting
  import opened HttpMessages

  // ----- what follows a message -----

  /** From version 1.1 on a connection stays open unless it is closed, before that only if it is kept alive. */
  predicate Persistent(major: nat, minor: nat, f: Flags) {
    if major >= 1 && minor >= 1 then !f.close else f.keepAlive
  }

  /** Answers that never have a body. */
  predicate BodilessCode(code: nat) {
    100 <= code < 200 || code == 204 || code == 304
  }

  /** A response whose body has no end but that of the stream. */
  predicate RunsOn(c: Core) {
    c.kind != Request && !BodilessCode(c.status) && !c.flags.skipBody && !c.flags.chunked && c.length == ULLONG_MAX
  }

  /** The state in which the next message is expected, or refused. */
  function Following(c: Core): State {
    if !Persistent(c.major, c.minor, c.flags) || RunsOn(c) then Dead else if c.kind.Request? then StartReq else StartRes
  }

  lemma NextMessage(c: Core)
    ensures NewMessage(c) == Following(c) && (NeedsEof(c) <==> RunsOn(c))
  {
    assert c.status / 100 == 1 <==> 100 <= c.status < 200;
  }

  /** After a message on a connection that does not stay open everything but line ends is refused. */
  lemma ClosedRun(c: Core, t: Trace, ch: char, rest: string, skip: SkipPolicy)
    requires c.state.Dead? && ch != CR && ch != LF
    ensures Run(c, t, [ch] + rest, skip) == Final(c, t, [ch] + rest, Failed(ClosedConnection))
  {
    hide Run;
    RunUnfold(c, t, [ch] + rest, skip, Fail(c, ClosedConnection));
  }

  // ----- the end of the headers -----

  lemma HeaderEndActs(c: Core)
    requires c.state.HeaderFieldStart? && !c.flags.trailing
    ensures var d := c.(state := HeadersAlmostDone);
      var up := (c.flags.upgrade && c.flags.connUpgrade) || c.verb.CONNECT?;
      && Switch(c, CR) == Next(d) && Switch(c, LF) == Again(d)
      && Switch(d, LF) == HeadersAgain(c.(state := HeadersDone, upgrade := up))
  {
    hide FieldChar, FieldStart, NewMessage;
  }

  /** The parser between the headers and what follows them, still at their last line end. */
  function Headed(c: Core, skip: bool): Core {
    var d := c.(state := HeadersDone, upgrade := (c.flags.upgrade && c.flags.connUpgrade) || c.verb.CONNECT?);
    if skip then d.(flags := d.flags.(skipBody := true)) else d
  }

  /** The empty line after the headers: they are complete, and what can be read then is as announced. */
  lemma HeaderEndRun(c: Core, t: Trace, bare: bool, rest: string, skip: SkipPolicy)
    requires c.state.HeaderFieldStart? && !c.flags.trailing
    ensures var u := t + [HeadersComplete(c.length, c.flags.chunked, c.verb.CONNECT?)];
      Run(c, t, Eol(bare) + rest, skip) == Run(Headed(c, skip(u)), u, [LF] + rest, skip)
  {
    hide Run, Switch;
    var d := c.(state := HeadersAlmostDone);
    var e := c.(state := HeadersDone, upgrade := (c.flags.upgrade && c.flags.connUpgrade) || c.verb.CONNECT?);
    EolText(bare, rest);
    HeaderEndActs(c);
    if bare {
      AgainRun(c, t, [LF] + rest, skip, Again(d));
    } else {
      ActRun(c, t, CR, [LF] + rest, skip, Next(d));
    }
    AgainRun(d, t, [LF] + rest, skip, HeadersAgain(e));
  }

  lemma HeadersDoneActs(c: Core)
    requires c.state.HeadersDone? && c.length <= ULLONG_MAX
    ensures var done := c.(state := Following(c)); var hasBody := c.flags.chunked || 0 < c.length < ULLONG_MAX;
      Switch(c, LF) ==
      if c.upgrade && (c.verb.CONNECT? || c.flags.skipBody || !hasBody) then NotifyExit(done, MessageComplete)
      else if c.flags.skipBody then NotifyNext(done, MessageComplete)
      else if c.flags.chunked then Next(c.(state := ChunkSizeStart))
      else if 0 < c.length < ULLONG_MAX then Next(c.(state := BodyIdentity))
      else if RunsOn(c) then Next(c.(state := BodyIdentityEof))
      else NotifyNext(done, MessageComplete)
  {
    hide NewMessage, NeedsEof, Following;
    NextMessage(c);
  }

  /** A message that ends with its headers. */
  lemma EndsThere(c: Core, t: Trace, rest: string, skip: SkipPolicy)
    requires c.state.HeadersDone? && !c.upgrade && c.length <= ULLONG_MAX
    requires c.flags.skipBody || (!c.flags.chunked && (c.length == 0 || (c.length == ULLONG_MAX && !RunsOn(c))))
    ensures Run(c, t, [LF] + rest, skip) == Run(c.(state := Following(c)), t + [MessageComplete], rest, skip)
  {
    hide Run, Switch, Following;
    HeadersDoneActs(c);
    ActRun(c, t, LF, rest, skip, NotifyNext(c.(state := Following(c)), MessageComplete));
  }

  /** A message that ends with its headers and hands over to another protocol. */
  lemma LeavesThere(c: Core, t: Trace, rest: string, skip: SkipPolicy)
    requires c.state.HeadersDone? && c.upgrade && c.length <= ULLONG_MAX
    requires c.verb.CONNECT? || c.flags.skipBody || (!c.flags.chunked && (c.length == 0 || c.length == ULLONG_MAX))
    ensures Run(c, t, [LF] + rest, skip) == Final(c.(state := Following(c)), t + [MessageComplete], rest, Upgraded)
  {
    hide Run, Switch, Following;
    HeadersDoneActs(c);
    StopRun(c, t, LF, rest, skip, NotifyExit(c.(state := Following(c)), MessageComplete));
  }

  /** A byte after which the stream is handed over. */
  lemma StopRun(c: Core, t: Trace, ch: char, rest: string, skip: SkipPolicy, a: Act)
    requires a == Switch(c, ch) && a.NotifyExit?
    ensures Run(c, t, [ch] + rest, skip) == Final(a.c, Emit(t, a.e), rest, Upgraded)
  {
    hide Run, Switch;
    RunUnfold(c, t, [ch] + rest, skip, a);
    assert ([ch] + rest)[1..] == rest;
  }

  // ----- bodies -----

  /** What a message that is not over in its last byte leads to. */
  function Ending(c: Core, t: Trace, rest: string, skip: SkipPolicy): Final {
    if c.upgrade then Final(c.(state := Following(c)), t + [MessageComplete], rest, Upgraded)
    else Run(c.(state := Following(c)), t + [MessageComplete], rest, skip)
  }

  lemma MessageDoneActs(c: Core, ch: char)
    requires c.state.MessageDone?
    ensures var done := c.(state := Following(c));
      Switch(c, ch) == if c.upgrade then NotifyExit(done, MessageComplete) else NotifyNext(done, MessageComplete)
  {
    hide NewMessage, Following;
    NextMessage(c);
  }

  lemma MessageDoneRun(c: Core, t: Trace, ch: char, rest: string, skip: SkipPolicy)
    requires c.state.MessageDone?
    ensures Run(c, t, [ch] + rest, skip) == Ending(c, t, rest, skip)
  {
    hide Run, Switch, Following;
    MessageDoneActs(c, ch);
    if c.upgrade {
      StopRun(c, t, ch, rest, skip, NotifyExit(c.(state := Following(c)), MessageComplete));
    } else {
      ActRun(c, t, ch, rest, skip, NotifyNext(c.(state := Following(c)), MessageComplete));
    }
  }

  lemma LastActs(c: Core, ch: char)
    requires c.state.BodyIdentity? && c.length == 1
    ensures Switch(c, ch) == LastAgain(c.(length := 0, state := MessageDone), BodyData)
  {
  }

  /** A body of the announced length. */
  lemma IdentityRun(c: Core, t: Trace, body: string, rest: string, skip: SkipPolicy)
    requires c.state.BodyIdentity? && c.length == |body| > 0 && t != [] && !t[|t| - 1].Data?
    ensures Run(c, t, body + rest, skip) ==
            Ending(c.(length := 0, state := MessageDone), t + [Data(BodyData, body)], rest, skip)
  {
    hide Run, Switch, Glides, Ending;
    var i := |body| - 1;
    var d := c.(length := 1);
    var e := c.(length := 0, state := MessageDone);
    var u := t + [Data(BodyData, body)];
    var s := if i == 0 then t else Emit(t, Data(BodyData, body[..i]));
    assert body == body[..i] + [body[i]];
    if i > 0 {
      BodyGlide(c, body[..i]);
      GlideRun(c, t, body[..i], d, [body[i]] + rest, skip);
      EmitTwice(t, BodyData, body[..i], [body[i]]);
      assert body + rest == body[..i] + ([body[i]] + rest);
    } else {
      assert body + rest == [body[i]] + rest;
    }
    assert Emit(s, Data(BodyData, [body[i]])) == u;
    LastActs(d, body[i]);
    AgainRun(d, s, [body[i]] + rest, skip, LastAgain(e, BodyData));
    MessageDoneRun(e, u, body[i], rest, skip);
  }

  /** A body up to the end of the stream. */
  lemma EndlessRun(c: Core, t: Trace, body: string, skip: SkipPolicy)
    requires c.state.BodyIdentityEof? && t != [] && !t[|t| - 1].Data?
    ensures Run(c, t, body, skip) == Final(c, t + if body == "" then [] else [Data(BodyData, body)], "", Running)
  {
    hide Run, Switch, Glides;
    RunNothing(c, t, skip);
    if body == "" {
      assert t + [] == t;
    } else {
      BodyGlide(c, body);
      GlideRun(c, t, body, c, "", skip);
      assert body + "" == body;
      RunNothing(c, t + [Data(BodyData, body)], skip);
    }
  }

  // ----- chunks -----

  /** A chunk: its size in hexadecimal digits, an extension, and its bytes. */
  datatype Chunk = Chunk(size: string, extension: string, data: string)

  predicate Digits(s: string) {
    s != "" && forall i | 0 <= i < |s| :: Unhex(s[i]) != -1
  }

  predicate Extension(s: string) {
    CR !in s && (s != "" ==> s[0] == ';' || s[0] == ' ')
  }

  predicate GoodChunk(k: Chunk) {
    Digits(k.size) && Extension(k.extension) && k.data != "" && Hex(k.size) == |k.data| <= CHUNK_LIMIT
  }

  function SizeLine(size: string, extension: string): string {
    size + extension + "\r\n"
  }

  function ChunkText(k: Chunk): string {
    SizeLine(k.size, k.extension) + k.data + "\r\n"
  }

  function ChunkEvents(k: Chunk): Trace {
    [ChunkHeader(|k.data|), Data(BodyData, k.data), ChunkComplete]
  }

  lemma SizeActs(c: Core, ch: char)
    ensures c.state.ChunkSize? ==> Switch(c, CR) == Next(c.(state := ChunkSizeAlmostDone))
    ensures c.state.ChunkSize? && (ch == ';' || ch == ' ') ==> Switch(c, ch) == Next(c.(state := ChunkParameters))
    ensures c.state.ChunkParameters? ==>
      Switch(c, ch) == if ch == CR then Next(c.(state := ChunkSizeAlmostDone)) else Next(c)
    ensures c.state.ChunkSizeAlmostDone? ==>
      Switch(c, LF) ==
      if c.length == 0
        then NotifyNext(c.(flags := c.flags.(trailing := true), state := HeaderFieldStart), ChunkHeader(0))
      else NotifyNext(c.(state := ChunkData), ChunkHeader(c.length))
  {
  }

  lemma {:induction false} ParametersRun(c: Core, t: Trace, s: string, rest: string, skip: SkipPolicy)
    requires c.state.ChunkParameters? && CR !in s
    ensures Run(c, t, s + ([CR] + rest), skip) == Run(c.(state := ChunkSizeAlmostDone), t, rest, skip)
    decreases |s|
  {
    hide Run, Switch;
    if s == "" {
      SizeActs(c, CR);
      ActRun(c, t, CR, rest, skip, Next(c.(state := ChunkSizeAlmostDone)));
      assert s + ([CR] + rest) == [CR] + rest;
    } else {
      assert s[0] in s;
      SizeActs(c, s[0]);
      ActRun(c, t, s[0], s[1..] + ([CR] + rest), skip, Next(c));
      ParametersRun(c, t, s[1..], rest, skip);
      assert s + ([CR] + rest) == [s[0]] + (s[1..] + ([CR] + rest));
    }
  }

  /** The line with the size of a chunk. */
  lemma SizeLineRun(c: Core, t: Trace, size: string, extension: string, rest: string, skip: SkipPolicy)
    requires c.state.ChunkSizeStart? && Digits(size) && Extension(extension) && Hex(size) <= CHUNK_LIMIT
    ensures var d := c.(length := Hex(size));
      Run(c, t, SizeLine(size, extension) + rest, skip) ==
      Run(if Hex(size) == 0 then d.(flags := d.flags.(trailing := true), state := HeaderFieldStart)
          else d.(state := ChunkData),
          t + [ChunkHeader(Hex(size))], rest, skip)
  {
    hide Run, Switch, Hex, Unhex;
    var d := c.(state := ChunkSize, length := Hex(size));
    var e := d.(state := ChunkSizeAlmostDone);
    var more := [CR] + ([LF] + rest);
    ChunkSizeRun(c, t, size, skip);
    RunConcat(c, t, size, extension + more, skip);
    assert SizeLine(size, extension) + rest == size + (extension + more) by {
      assert "\r\n" == [CR] + [LF];
    }
    if extension == "" {
      SizeActs(d, CR);
      ActRun(d, t, CR, [LF] + rest, skip, Next(e));
      assert extension + more == more;
    } else {
      SizeActs(d, extension[0]);
      assert extension + more == [extension[0]] + (extension[1..] + more);
      ActRun(d, t, extension[0], extension[1..] + more, skip, Next(d.(state := ChunkParameters)));
      ParametersRun(d.(state := ChunkParameters), t, extension[1..], [LF] + rest, skip);
    }
    SizeActs(e, LF);
    ActRun(e, t, LF, rest, skip, Switch(e, LF));
  }

  lemma DataActs(c: Core)
    ensures c.state.ChunkDataAlmostDone? ==> Switch(c, CR) == FlushNext(c.(state := ChunkDataDone), BodyData)
    ensures c.state.ChunkDataDone? ==> Switch(c, LF) == NotifyNext(c.(state := ChunkSizeStart), ChunkComplete)
  {
  }

  lemma ChunkRun(c: Core, t: Trace, k: Chunk, rest: string, skip: SkipPolicy)
    requires c.state.ChunkSizeStart? && GoodChunk(k)
    ensures Run(c, t, ChunkText(k) + rest, skip) == Run(c.(length := 0), t + ChunkEvents(k), rest, skip)
  {
    hide Run, Switch, Hex, Digits, Extension, Glides, SizeLine;
    var d := c.(length := |k.data|, state := ChunkData);
    var e := c.(length := 0, state := ChunkDataAlmostDone);
    var u := t + [ChunkHeader(|k.data|)];
    var x := u + [Data(BodyData, k.data)];
    var more := [CR] + ([LF] + rest);
    SizeLineRun(c, t, k.size, k.extension, k.data + more, skip);
    BodyGlide(d, k.data);
    GlideRun(d, u, k.data, e, more, skip);
    assert Emit(u, Data(BodyData, k.data)) == x;
    DataActs(e);
    ActRun(e, x, CR, [LF] + rest, skip, FlushNext(e.(state := ChunkDataDone), BodyData));
    DataActs(e.(state := ChunkDataDone));
    ActRun(e.(state := ChunkDataDone), x, LF, rest, skip, NotifyNext(c.(length := 0), ChunkComplete));
    assert t + ChunkEvents(k) == x + [ChunkComplete];
    assert ChunkText(k) + rest == SizeLine(k.size, k.extension) + (k.data + more) by {
      assert "\r\n" == [CR] + [LF];
    }
  }

  predicate GoodChunks(ks: seq<Chunk>) {
    forall i | 0 <= i < |ks| :: GoodChunk(ks[i])
  }

  function ChunksText(ks: seq<Chunk>): string {
    if ks == [] then "" else ChunkText(ks[0]) + ChunksText(ks[1..])
  }

  function ChunksEvents(ks: seq<Chunk>): Trace {
    if ks == [] then [] else ChunkEvents(ks[0]) + ChunksEvents(ks[1..])
  }

  lemma {:induction false} ChunksRun(c: Core, t: Trace, ks: seq<Chunk>, rest: string, skip: SkipPolicy)
    returns (d: Core)
    requires c.state.ChunkSizeStart? && GoodChunks(ks)
    ensures d == c.(length := d.length) && (ks == [] ==> d == c)
    ensures Run(c, t, ChunksText(ks) + rest, skip) == Run(d, t + ChunksEvents(ks), rest, skip)
    decreases |ks|
  {
    hide Run, GoodChunk, ChunkText, ChunkEvents;
    if ks == [] {
      d := c;
      assert ChunksText(ks) + rest == rest && t + ChunksEvents(ks) == t;
    } else {
      ChunkRun(c, t, ks[0], ChunksText(ks[1..]) + rest, skip);
      d := ChunksRun(c.(length := 0), t + ChunkEvents(ks[0]), ks[1..], rest, skip);
      Grouped(ChunkText(ks[0]), ChunksText(ks[1..]), rest);
      Grouped(t, ChunkEvents(ks[0]), ChunksEvents(ks[1..]));
    }
  }

  // ----- trailers -----

  lemma TrailerEndActs(c: Core)
    requires c.state.HeaderFieldStart? && c.flags.trailing
    ensures var d := c.(state := HeadersAlmostDone);
      && Switch(c, CR) == Next(d) && Switch(c, LF) == Again(d)
      && Switch(d, LF) == NotifyAgain(c.(state := MessageDone), ChunkComplete)
  {
    hide FieldChar, FieldStart, NewMessage;
  }

  /** The empty line after the trailers. */
  lemma TrailerEndRun(c: Core, t: Trace, bare: bool, rest: string, skip: SkipPolicy)
    requires c.state.HeaderFieldStart? && c.flags.trailing
    ensures Run(c, t, Eol(bare) + rest, skip) == Ending(c.(state := MessageDone), t + [ChunkComplete], rest, skip)
  {
    hide Run, Switch, Ending;
    var d := c.(state := HeadersAlmostDone);
    EolText(bare, rest);
    TrailerEndActs(c);
    if bare {
      AgainRun(c, t, [LF] + rest, skip, Again(d));
    } else {
      ActRun(c, t, CR, [LF] + rest, skip, Next(d));
    }
    AgainRun(d, t, [LF] + rest, skip, NotifyAgain(c.(state := MessageDone), ChunkComplete));
    MessageDoneRun(c.(state := MessageDone), t + [ChunkComplete], LF, rest, skip);
  }

  /** A body in chunks, with the size of the last chunk, its extension, the trailers and the line end after them. */
  datatype Chunks = Chunks(chunks: seq<Chunk>, zero: string, extension: string, trailers: seq<Field>, bare: bool)

  predicate GoodBody(b: Chunks) {
    GoodChunks(b.chunks) && Digits(b.zero) && Hex(b.zero) == 0 && Extension(b.extension) && AllReadable(b.trailers)
  }

  function BodyText(b: Chunks): string
    requires GoodBody(b)
  {
    ChunksText(b.chunks) + SizeLine(b.zero, b.extension) + FieldsText(b.trailers) + Eol(b.bare)
  }

  function BodyEvents(b: Chunks): Trace
    requires GoodBody(b)
  {
    ChunksEvents(b.chunks) + [ChunkHeader(0)] + FieldsEvents(b.trailers) + [ChunkComplete]
  }

  lemma EolNotBlank(bare: bool, rest: string)
    ensures NotBlank(Eol(bare) + rest)
  {
  }

  lemma ChunkedRun(c: Core, t: Trace, b: Chunks, rest: string, skip: SkipPolicy) returns (d: Core)
    requires c.state.ChunkSizeStart? && CoreInv(c) && GoodBody(b)
    ensures d == c.(state := MessageDone, hs := d.hs, index := d.index, length := d.length,
                    flags := FlagsAfter(c.flags.(trailing := true), b.trailers))
    ensures d.length <= ULLONG_MAX
    ensures Run(c, t, BodyText(b) + rest, skip) == Ending(d, t + BodyEvents(b), rest, skip)
  {
    hide Run, Switch, Ending, ChunksText, ChunksEvents, SizeLine, FieldsText, FieldsEvents, GoodChunks, Digits, Hex,
      Extension, CoreInv, FlagsAfter, LengthAfter, AllReadable, NotBlank;
    var tail := FieldsText(b.trailers) + (Eol(b.bare) + rest);
    var e := ChunksRun(c, t, b.chunks, SizeLine(b.zero, b.extension) + tail, skip);
    var u := t + ChunksEvents(b.chunks);
    SizeLineRun(e, u, b.zero, b.extension, tail, skip);
    var f := e.(length := 0, flags := e.flags.(trailing := true), state := HeaderFieldStart);
    var x := u + [ChunkHeader(0)];
    TrailingInv(c, f);
    EolNotBlank(b.bare, rest);
    var g := FieldsRun(f, x, b.trailers, Eol(b.bare) + rest, skip);
    FlagsTrail(f.flags, b.trailers);
    ShortEnough(g);
    var y := x + FieldsEvents(b.trailers);
    TrailerEndRun(g, y, b.bare, rest, skip);
    d := g.(state := MessageDone);
    assert t + BodyEvents(b) == y + [ChunkComplete];
    BodyParts(ChunksText(b.chunks), SizeLine(b.zero, b.extension), FieldsText(b.trailers), Eol(b.bare), rest);
  }

  lemma ShortEnough(c: Core)
    requires CoreInv(c)
    ensures c.length <= ULLONG_MAX
  {
  }

  lemma BodyParts(x: string, y: string, z: string, eol: string, rest: string)
    ensures x + y + z + eol + rest == x + (y + (z + (eol + rest)))
  {
  }

  lemma TrailingInv(c: Core, d: Core)
    requires CoreInv(c) && c.state.ChunkSizeStart? && d.length == 0
    requires d == c.(length := d.length, flags := c.flags.(trailing := true), state := HeaderFieldStart)
    ensures CoreInv(d)
  {
  }

  /** Header lines leave these flags alone. */
  lemma {:induction false} FlagsTrail(f: Flags, hs: seq<Field>)
    requires AllReadable(hs)
    ensures FlagsAfter(f, hs).trailing == f.trailing && FlagsAfter(f, hs).skipBody == f.skipBody
    ensures f.chunked ==> FlagsAfter(f, hs).chunked
    decreases |hs|
  {
    hide Readable, FlagsWith;
    if hs != [] {
      FlagTrails(f, hs[0]);
      FlagsTrail(FlagsWith(f, hs[0]), hs[1..]);
    }
  }

  lemma FlagTrails(f: Flags, h: Field)
    requires Readable(h)
    ensures FlagsWith(f, h).trailing == f.trailing && FlagsWith(f, h).skipBody == f.skipBody
    ensures f.chunked ==> FlagsWith(f, h).chunked
  {
    hide LowName, ValueText, Spells, WithOptions, IsLength;
    if h.value.List? {
      OptionFlags(f, h.value.options);
    }
  }

  // ----- whole messages -----

  datatype First = Asks(request: RequestLine) | Replies(reply: ReplyLine)

  datatype Content = Nothing | Identity(body: string) | InChunks(chunks: Chunks) | Endless(body: string)

  datatype Message = Message(first: First, fields: seq<Field>, bare: bool, content: Content)

  predicate GoodFirst(l: First) {
    if l.Asks? then GoodRequestLine(l.request) else GoodReplyLine(l.reply)
  }

  function FirstText(l: First): string {
    if l.Asks? then RequestLineText(l.request) else ReplyLineText(l.reply)
  }

  function FirstEvents(l: First): Trace {
    if l.Asks? then [MessageBegin, Data(UrlData, l.request.target)] else ReplyLineEvents(l.reply)
  }

  predicate Connects(m: Message) {
    m.first.Asks? && m.first.request.verb.CONNECT?
  }

  predicate Written(m: Message) {
    AllReadable(m.fields) && (m.content.InChunks? ==> GoodBody(m.content.chunks))
  }

  /** What the headers of a message say. */
  function Said(m: Message): Flags
    requires AllReadable(m.fields)
  {
    FlagsAfter(NO_FLAGS, m.fields)
  }

  function Announced(m: Message): nat
    requires AllReadable(m.fields)
  {
    LengthAfter(ULLONG_MAX, m.fields)
  }

  /** A message that hands the stream over to another protocol. */
  predicate Upgrades(m: Message)
    requires AllReadable(m.fields)
  {
    Connects(m) || (Said(m).upgrade && Said(m).connUpgrade)
  }

  predicate NoBody(m: Message)
    requires AllReadable(m.fields)
  {
    && !Said(m).chunked && (Announced(m) == 0 || Announced(m) == ULLONG_MAX)
    && (m.first.Asks? || Announced(m) == 0 || BodilessCode(m.first.reply.code) || Upgrades(m))
  }

  /** The content is the one that the headers announce; `skipped` says that the application wants none. */
  predicate GoodContent(m: Message, skipped: bool)
    requires AllReadable(m.fields)
  {
    match m.content
    case Nothing => skipped || Connects(m) || NoBody(m)
    case Identity(body) =>
      && !skipped && !Connects(m) && !Said(m).chunked && Announced(m) == |body| && 0 < |body| < ULLONG_MAX
    case InChunks(_) => !skipped && !Connects(m) && Said(m).chunked
    case Endless(_) =>
      && !skipped && !Upgrades(m) && !Said(m).chunked && Announced(m) == ULLONG_MAX
      && m.first.Replies? && !BodilessCode(m.first.reply.code)
  }

  predicate GoodMessage(m: Message, skipped: bool) {
    GoodFirst(m.first) && Written(m) && GoodContent(m, skipped)
  }

  function ContentText(m: Content): string
    requires m.InChunks? ==> GoodBody(m.chunks)
  {
    match m
    case Nothing => ""
    case Identity(body) => body
    case InChunks(b) => BodyText(b)
    case Endless(body) => body
  }

  function ContentEvents(m: Content): Trace
    requires m.InChunks? ==> GoodBody(m.chunks)
  {
    match m
    case Nothing => [MessageComplete]
    case Identity(body) => [Data(BodyData, body), MessageComplete]
    case InChunks(b) => BodyEvents(b) + [MessageComplete]
    case Endless(body) => if body == "" then [] else [Data(BodyData, body)]
  }

  function HeadText(m: Message): string
    requires Written(m)
  {
    FirstText(m.first) + FieldsText(m.fields) + Eol(m.bare)
  }

  function HeadEvents(m: Message): Trace
    requires Written(m)
  {
    FirstEvents(m.first) + FieldsEvents(m.fields) + [HeadersComplete(Announced(m), Said(m).chunked, Connects(m))]
  }

  function MessageText(m: Message): string
    requires Written(m)
  {
    HeadText(m) + ContentText(m.content)
  }

  function MessageEvents(m: Message): Trace
    requires Written(m)
  {
    HeadEvents(m) + ContentEvents(m.content)
  }

  // ----- what the parser makes of them -----

  /** A parser that expects this kind of first line. */
  predicate Expects(c: Core, l: First) {
    && CoreInv(c)
    && if l.Asks? then c.state.StartReq? && c.kind.Request?
       else c.state.StartRes? && c.kind.Response? && !c.verb.CONNECT?
  }

  function FirstCore(c: Core, l: First): Core {
    if l.Asks? then Asked(c, l.request) else Answered(c, l.reply)
  }

  lemma FirstRun(c: Core, t: Trace, l: First, rest: string, skip: SkipPolicy)
    requires Expects(c, l) && GoodFirst(l)
    ensures Run(c, t, FirstText(l) + rest, skip) == Run(FirstCore(c, l), t + FirstEvents(l), rest, skip)
    ensures FieldMayFollow(t + FirstEvents(l)) && CoreInv(FirstCore(c, l))
  {
    hide Run, RequestLineText, ReplyLineText, GoodRequestLine, GoodReplyLine;
    if l.Asks? {
      RequestLineRun(c, t, l.request, rest, skip);
    } else {
      ReplyLineRun(c, t, l.reply, rest, skip);
    }
  }

  /** The parser between the headers of a message and its content. */
  predicate Between(c: Core, m: Message, skipped: bool)
    requires AllReadable(m.fields)
  {
    && c.state.HeadersDone? && CoreInv(c) && c.upgrade == Upgrades(m) && c.length == Announced(m)
    && c.flags == Said(m).(skipBody := skipped) && (c.verb.CONNECT? <==> Connects(m))
    && (c.kind.Request? <==> m.first.Asks?) && !c.kind.Both?
    && (m.first.Asks? ==> c.major == m.first.request.major && c.minor == m.first.request.minor)
    && (m.first.Replies? ==>
         c.major == m.first.reply.major && c.minor == m.first.reply.minor && c.status == m.first.reply.code)
  }

  function VersionOf(l: First): (nat, nat) {
    if l.Asks? then (l.request.major, l.request.minor) else (l.reply.major, l.reply.minor)
  }

  /** The first line, the headers and the line end after them. */
  lemma HeadRun(c: Core, t: Trace, m: Message, skipped: bool, rest: string, skip: SkipPolicy) returns (d: Core)
    requires Expects(c, m.first) && GoodMessage(m, skipped) && skip(t + HeadEvents(m)) == skipped
    ensures Between(d, m, skipped) && d.kind == c.kind
    ensures d.verb == if m.first.Asks? then m.first.request.verb else c.verb
    ensures Run(c, t, HeadText(m) + rest, skip) == Run(d, t + HeadEvents(m), [LF] + rest, skip)
  {
    hide Run, Switch, FirstText, FirstEvents, FieldsText, FieldsEvents, FlagsAfter, LengthAfter, GoodContent, CoreInv,
      AllReadable, GoodFirst, NotBlank, FieldMayFollow, Readable, Between, Headed, Upgrades;
    var more := Eol(m.bare) + rest;
    FirstRun(c, t, m.first, FieldsText(m.fields) + more, skip);
    EolNotBlank(m.bare, rest);
    var u := t + FirstEvents(m.first);
    var e := FieldsRun(FirstCore(c, m.first), u, m.fields, more, skip);
    FlagsTrail(NO_FLAGS, m.fields);
    var x := u + FieldsEvents(m.fields);
    var y := x + [HeadersComplete(Announced(m), Said(m).chunked, Connects(m))];
    HeadBetween(c, e, m, skipped);
    HeaderEndRun(e, x, m.bare, rest, skip);
    d := Headed(e, skipped);
    assert t + HeadEvents(m) == y;
    HeadParts(FirstText(m.first), FieldsText(m.fields), Eol(m.bare), rest);
  }

  lemma HeadBetween(c: Core, e: Core, m: Message, skipped: bool)
    requires Expects(c, m.first) && AllReadable(m.fields) && CoreInv(e)
    requires var b := FirstCore(c, m.first);
      e == b.(hs := e.hs, index := e.index, flags := Said(m), length := Announced(m))
    requires !Said(m).trailing && !Said(m).skipBody
    ensures Between(Headed(e, skipped), m, skipped) && e.state.HeaderFieldStart? && e.flags == Said(m)
    ensures (e.verb.CONNECT? <==> Connects(m)) && e.length == Announced(m)
    ensures var d := Headed(e, skipped);
      d.kind == c.kind && d.verb == if m.first.Asks? then m.first.request.verb else c.verb
  {
    hide FlagsAfter, LengthAfter, AllReadable, CoreInv;
    HeadedInv(e, skipped);
  }

  lemma HeadParts(x: string, y: string, eol: string, rest: string)
    ensures x + y + eol + rest == x + (y + (eol + rest))
  {
  }

  lemma HeadedInv(c: Core, skip: bool)
    requires CoreInv(c) && c.state.HeaderFieldStart? && !c.flags.trailing
    ensures CoreInv(Headed(c, skip))
  {
  }

  /** The flags when a message is over: trailers count too. */
  function Finally(m: Message): Flags
    requires Written(m)
  {
    if m.content.InChunks? then FlagsAfter(Said(m).(trailing := true), m.content.chunks.trailers) else Said(m)
  }

  /** The state that waits for the next message, or refuses it. */
  function Afterwards(m: Message): State
    requires Written(m)
  {
    var (major, minor) := VersionOf(m.first);
    if !Persistent(major, minor, Finally(m)) then Dead else if m.first.Asks? then StartReq else StartRes
  }

  lemma StateOnly(c: Core, d: Core)
    requires CoreInv(c) && d == c.(state := d.state) && (d.state.Dead? || d.state.StartReq? || d.state.StartRes?)
    ensures CoreInv(d)
  {
  }

  /** A message that has no content. */
  lemma NothingRun(c: Core, t: Trace, m: Message, skipped: bool, rest: string, skip: SkipPolicy) returns (d: Core)
    requires GoodMessage(m, skipped) && Between(c, m, skipped) && m.content.Nothing?
    ensures d == c.(state := d.state) && CoreInv(d) && (!Upgrades(m) ==> d.state == Afterwards(m))
    ensures Run(c, t, [LF] + rest, skip) ==
            if Upgrades(m) then Final(d, t + [MessageComplete], rest, Upgraded)
              else Run(d, t + [MessageComplete], rest, skip)
  {
    hide Run, FlagsAfter, LengthAfter, GoodFirst, AllReadable;
    d := c.(state := Following(c));
    StateOnly(c, d);
    if Upgrades(m) {
      LeavesThere(c, t, rest, skip);
    } else {
      EndsThere(c, t, rest, skip);
    }
  }

  /** A body whose length is announced. */
  lemma AnnouncedRun(c: Core, t: Trace, m: Message, rest: string, skip: SkipPolicy) returns (d: Core)
    requires GoodMessage(m, false) && Between(c, m, false) && m.content.Identity? && t != [] && !t[|t| - 1].Data?
    ensures d == c.(length := 0, state := Afterwards(m)) && CoreInv(d)
    ensures var u := t + [Data(BodyData, m.content.body), MessageComplete];
      Run(c, t, [LF] + (m.content.body + rest), skip) ==
      if Upgrades(m) then Final(d, u, rest, Upgraded) else Run(d, u, rest, skip)
  {
    hide Run, Switch, FlagsAfter, LengthAfter, GoodFirst, AllReadable;
    var body := m.content.body;
    HeadersDoneActs(c);
    ActRun(c, t, LF, body + rest, skip, Next(c.(state := BodyIdentity)));
    IdentityRun(c.(state := BodyIdentity), t, body, rest, skip);
    var e := c.(length := 0, state := MessageDone);
    d := e.(state := Following(e));
    FinishedInv(c, d);
    assert t + [Data(BodyData, body)] + [MessageComplete] == t + [Data(BodyData, body), MessageComplete];
  }

  lemma FinishedInv(c: Core, d: Core)
    requires CoreInv(c) && d == c.(state := d.state, hs := d.hs, index := d.index, length := 0)
    requires d.state.Dead? || d.state.StartReq? || d.state.StartRes?
    ensures CoreInv(d)
  {
  }

  /** A body in chunks. */
  lemma InChunksRun(c: Core, t: Trace, m: Message, rest: string, skip: SkipPolicy) returns (d: Core)
    requires GoodMessage(m, false) && Between(c, m, false) && m.content.InChunks?
    ensures d == c.(state := Afterwards(m), hs := d.hs, index := d.index, length := d.length, flags := d.flags) &&
      CoreInv(d)
    ensures var u := t + (BodyEvents(m.content.chunks) + [MessageComplete]);
      Run(c, t, [LF] + (BodyText(m.content.chunks) + rest), skip) ==
      if Upgrades(m) then Final(d, u, rest, Upgraded) else Run(d, u, rest, skip)
  {
    hide Run, Switch, FlagsAfter, LengthAfter, GoodFirst, AllReadable, BodyText, BodyEvents;
    var b := m.content.chunks;
    HeadersDoneActs(c);
    ActRun(c, t, LF, BodyText(b) + rest, skip, Next(c.(state := ChunkSizeStart)));
    ChunkStartInv(c);
    FlagsTrail(NO_FLAGS, m.fields);
    var e := ChunkedRun(c.(state := ChunkSizeStart), t, b, rest, skip);
    FlagsTrail(Said(m).(trailing := true), b.trailers);
    d := e.(state := Following(e));
    ChunkedInv(c, d);
    assert t + BodyEvents(b) + [MessageComplete] == t + (BodyEvents(b) + [MessageComplete]);
  }

  lemma ChunkStartInv(c: Core)
    requires CoreInv(c) && c.state.HeadersDone? && c.flags.chunked
    ensures CoreInv(c.(state := ChunkSizeStart))
  {
  }

  lemma ChunkedInv(c: Core, d: Core)
    requires CoreInv(c) && d.length <= ULLONG_MAX && d.flags.chunked
    requires d.state.Dead? || d.state.StartReq? || d.state.StartRes?
    ensures CoreInv(d)
  {
  }
}
