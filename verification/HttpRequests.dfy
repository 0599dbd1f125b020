/**
 Requests written out byte for byte: bodies in chunks, what a single `Connection` header does in either version, and
 the hand-over to another protocol.
 */
module HttpRequests {
  import opened HttpChars
  import opened HttpMachine
  import opened HttpInvariants
  import opened HttpRuns
  import opened HttpRecognisers
  import opened HttpValues
  import opened HttpPrinting
  import HttpUrl
  import opened HttpUrlParts
  import opened HttpMessages
  import opened HttpContents
  import opened HttpPipelines

  // ----- hexadecimal sizes -----

  function HexText(n: nat): string {
    if n < 16 then ["0123456789abcdef"[n]] else HexText(n / 16) + ["0123456789abcdef"[n % 16]]
  }

  lemma HexDigit(n: nat)
    requires n < 16
    ensures Unhex("0123456789abcdef"[n]) == n
  {
    UnhexTable("0123456789abcdef"[n]);
  }

  /** A printed size reads back to itself. */
  lemma {:induction false} HexTextValue(n: nat)
    ensures HttpContents.Digits(HexText(n)) && Hex(HexText(n)) == n
  {
    hide Unhex;
    HexDigit(n % 16);
    if n >= 16 {
      HexTextValue(n / 16);
    }
  }

  // ----- targets -----

  ghost predicate IsUrl(connect: bool, s: string) {
    exists t: Target :: WellFormed(t, connect) && HttpUrlParts.Text(t) == s
  }

  /** Every URL that is put together from well-formed parts is a target. */
  lemma UrlTarget(connect: bool, s: string)
    requires IsUrl(connect, s)
    ensures IsTarget(connect, s)
  {
    hide GoodTail, GoodOrigin, InnerUrl, From, HttpUrlParts.Text;
    var t: Target :| WellFormed(t, connect) && HttpUrlParts.Text(t) == s;
    TextOuter(t, connect);
    NotInner(connect);
  }

  lemma NotInner(connect: bool)
    ensures !InnerUrl(From(HttpUrl.StartState(connect), ""))
  {
  }

  // ----- ordinary header lines -----

  function Printed(hs: seq<Header>): seq<Field> {
    seq(|hs|, i requires 0 <= i < |hs| => Field(hs[i].0, " ", Text(hs[i].1), false))
  }

  predicate AllOrdinary(hs: seq<Header>) {
    forall i | 0 <= i < |hs| :: Ordinary(hs[i])
  }

  /** Ordinary headers say nothing to the parser. */
  lemma OrdinaryField(h: Header, f: Flags, n: nat)
    requires Ordinary(h)
    ensures var x := Field(h.0, " ", Text(h.1), false);
      && Readable(x) && FieldText(x) == Line(h) && FieldEvents(x) == HeaderEvents(h)
      && FlagsWith(f, x) == f && LengthWith(n, x) == n
  {
    hide LowName, IsLength;
    assert h.0 + ":" + " " == h.0 + ": " by {
      assert ": " == ":" + " ";
    }
  }

  /** Ordinary lines and one more line, as the header fields of a message. */
  lemma {:induction false} FieldsWith(hs: seq<Header>, more: seq<Field>, f: Flags, n: nat)
    requires AllOrdinary(hs) && AllReadable(more)
    ensures var all := Printed(hs) + more;
      && AllReadable(all) && FieldsText(all) == Lines(hs) + FieldsText(more)
      && FieldsEvents(all) == AllEvents(hs) + FieldsEvents(more)
      && FlagsAfter(f, all) == FlagsAfter(f, more) && LengthAfter(n, all) == LengthAfter(n, more)
    decreases |hs|
  {
    hide Ordinary, Readable, Line, HeaderEvents, FieldText, FieldEvents, FlagsWith, LengthWith;
    var all := Printed(hs) + more;
    if hs == [] {
      assert all == more;
    } else {
      OrdinaryField(hs[0], f, n);
      FieldsWith(hs[1..], more, f, n);
      assert all == [all[0]] + (Printed(hs[1..]) + more);
      assert all[1..] == Printed(hs[1..]) + more;
    }
  }

  // ----- requests -----

  /** The request line and the ordinary headers of a request in version 1.0 or 1.1. */
  function HeadOf(verb: Method, target: string, minor: nat, hs: seq<Header>): string {
    MethodString(verb) + " " + target + (if minor == 0 then " HTTP/1.0\r\n" else " HTTP/1.1\r\n") + Lines(hs)
  }

  function HeadTrace(target: string, hs: seq<Header>): Trace {
    [MessageBegin, Data(UrlData, target)] + AllEvents(hs)
  }

  function Ask(verb: Method, target: string, minor: nat, hs: seq<Header>, more: seq<Field>, content: Content): Message {
    Message(Asks(RequestLine(verb, target, 1, minor, false)), Printed(hs) + more, false, content)
  }

  ghost predicate Requestable(verb: Method, target: string, minor: nat, hs: seq<Header>) {
    !verb.CONNECT? && IsUrl(false, target) && minor <= 1 && AllOrdinary(hs)
  }

  lemma LineOf(verb: Method, target: string, minor: nat)
    requires minor <= 1
    ensures RequestLineText(RequestLine(verb, target, 1, minor, false)) == HeadOf(verb, target, minor, [])
  {
    hide MethodString;
    assert VersionText(1, minor) == if minor == 0 then "1.0" else "1.1";
    assert " HTTP/" + "1.0" + "\r\n" == " HTTP/1.0\r\n" && " HTTP/" + "1.1" + "\r\n" == " HTTP/1.1\r\n";
  }

  lemma AskText(verb: Method, target: string, minor: nat, hs: seq<Header>, more: seq<Field>, content: Content,
                rest: string)
    requires AllOrdinary(hs) && AllReadable(more) && minor <= 1 && !verb.CONNECT?
    requires Written(Ask(verb, target, minor, hs, more, content))
    ensures var m := Ask(verb, target, minor, hs, more, content);
      && MessageText(m) + rest ==
         HeadOf(verb, target, minor, hs) + (FieldsText(more) + ("\r\n" + (ContentText(content) + rest)))
      && MessageEvents(m) ==
         HeadTrace(target, hs) + (FieldsEvents(more) + ([HeadersComplete(Announced(m), Said(m).chunked, false)] +
                                                        ContentEvents(content)))
  {
    hide FlagsAfter, LengthAfter, RequestLineText, FieldsText, FieldsEvents, ContentText, ContentEvents, AllEvents,
      AllReadable, GoodBody, AllOrdinary, Printed, HeadOf;
    var m := Ask(verb, target, minor, hs, more, content);
    FieldsWith(hs, more, NO_FLAGS, ULLONG_MAX);
    LineOf(verb, target, minor);
    HeadLines(verb, target, minor, hs);
    TextParts(HeadOf(verb, target, minor, []), Lines(hs), FieldsText(more), ContentText(content), rest);
    EventParts([MessageBegin, Data(UrlData, target)], AllEvents(hs), FieldsEvents(more),
               [HeadersComplete(Announced(m), Said(m).chunked, false)], ContentEvents(content));
  }

  lemma HeadLines(verb: Method, target: string, minor: nat, hs: seq<Header>)
    ensures HeadOf(verb, target, minor, hs) == HeadOf(verb, target, minor, []) + Lines(hs)
  {
    hide MethodString;
    var x := MethodString(verb) + " " + target + if minor == 0 then " HTTP/1.0\r\n" else " HTTP/1.1\r\n";
    assert Lines([]) == "" && x + "" == x;
  }

  /** Such a request from a new parser. */
  lemma RequestRun(verb: Method, target: string, minor: nat, hs: seq<Header>, more: seq<Field>, content: Content,
                   rest: string, skip: SkipPolicy) returns (d: Core)
    requires Requestable(verb, target, minor, hs) && AllReadable(more) && forall u :: !skip(u)
    requires var m := Ask(verb, target, minor, hs, more, content); Written(m) && GoodContent(m, false)
    requires !content.Endless?
    ensures var m := Ask(verb, target, minor, hs, more, content);
      Written(m) && Past(Initial(Request), d, m)
    ensures var m := Ask(verb, target, minor, hs, more, content);
      var t := HeadTrace(target, hs) + (FieldsEvents(more) + ([HeadersComplete(Announced(m), Said(m).chunked, false)] +
                                                              ContentEvents(content)));
      Run(Initial(Request), [],
          HeadOf(verb, target, minor, hs) + (FieldsText(more) + ("\r\n" + (ContentText(content) + rest))), skip) ==
      if Upgrades(m) then Final(d, t, rest, Upgraded) else Run(d, t, rest, skip)
    ensures var m := Ask(verb, target, minor, hs, more, content);
      Said(m) == FlagsAfter(NO_FLAGS, more) && Announced(m) == LengthAfter(ULLONG_MAX, more)
  {
    hide Run, FlagsAfter, LengthAfter, MethodString, IsTarget, FieldsText, FieldsEvents, ContentText, ContentEvents,
      GoodContent, IsUrl, AllReadable, GoodBody, Past, AllOrdinary, Printed, HeadOf, HeadTrace, MessageText,
      MessageEvents;
    var m := Ask(verb, target, minor, hs, more, content);
    var c := Initial(Request);
    FieldsWith(hs, more, NO_FLAGS, ULLONG_MAX);
    UrlTarget(false, target);
    IdleInitial(Request);
    OneExpects(c, m);
    d := MessageRun(c, [], m, rest, skip);
    AskText(verb, target, minor, hs, more, content, rest);
    assert [] + MessageEvents(m) == MessageEvents(m);
  }

  lemma TextParts(first: string, lines: string, more: string, content: string, rest: string)
    ensures first + (lines + more) + "\r\n" + content + rest == first + lines + (more + ("\r\n" + (content + rest)))
  {
  }

  lemma EventParts(first: Trace, lines: Trace, more: Trace, done: Trace, content: Trace)
    ensures first + (lines + more) + done + content == first + lines + (more + (done + content))
  {
  }

  // ----- bodies in chunks -----

  function ChunkedText(data: seq<string>): string {
    if data == [] then "" else HexText(|data[0]|) + "\r\n" + data[0] + "\r\n" + ChunkedText(data[1..])
  }

  function ChunkedTrace(data: seq<string>): Trace {
    if data == [] then []
    else [ChunkHeader(|data[0]|), Data(BodyData, data[0]), ChunkComplete] + ChunkedTrace(data[1..])
  }

  predicate Chunkable(data: seq<string>) {
    forall i | 0 <= i < |data| :: data[i] != "" && |data[i]| <= CHUNK_LIMIT
  }

  function ChunksOf(data: seq<string>): seq<Chunk> {
    seq(|data|, i requires 0 <= i < |data| => Chunk(HexText(|data[i]|), "", data[i]))
  }

  lemma {:induction false} ChunksPrinted(data: seq<string>)
    requires Chunkable(data)
    ensures var ks := ChunksOf(data);
      GoodChunks(ks) && ChunksText(ks) == ChunkedText(data) && ChunksEvents(ks) == ChunkedTrace(data)
    decreases |data|
  {
    hide HexText, Hex, HttpContents.Digits;
    if data != [] {
      var ks := ChunksOf(data);
      var s := data[0];
      HexTextValue(|s|);
      ChunksPrinted(data[1..]);
      assert ks[1..] == ChunksOf(data[1..]);
      assert ChunkText(ks[0]) == HexText(|s|) + "\r\n" + s + "\r\n" by {
        assert HexText(|s|) + "" == HexText(|s|);
      }
      assert forall i | 1 <= i < |ks| :: ks[i] == ks[1..][i - 1];
    }
  }

  /** The last chunk and no trailers. */
  lemma LastChunk(ks: seq<Chunk>, rest: string)
    requires GoodChunks(ks)
    ensures var b := Chunks(ks, "0", "", [], false);
      && GoodBody(b) && BodyText(b) + rest == ChunksText(ks) + ("0\r\n\r\n" + rest)
      && BodyEvents(b) == ChunksEvents(ks) + [ChunkHeader(0), ChunkComplete]
  {
    hide ChunksText, ChunksEvents, GoodChunks, GoodChunk;
    UnhexTable('0');
    assert "0"[..0] == "" && Hex("") == 0 && Hex("0") == 0;
    assert SizeLine("0", "") + "" + "\r\n" == "0\r\n\r\n";
    var b := Chunks(ks, "0", "", [], false);
    assert BodyText(b) == ChunksText(ks) + "0\r\n\r\n";
    assert BodyEvents(b) == ChunksEvents(ks) + [ChunkHeader(0)] + [] + [ChunkComplete];
  }

  const CODING := "Transfer-Encoding"

  lemma CodingName()
    ensures IsName(CODING) && LowName(CODING) == "transfer-encoding"
  {
    LowNameIs(CODING, "transfer-encoding");
  }

  lemma {:induction false} LowNameIs(s: string, low: string)
    requires |s| == |low| && forall i | 0 <= i < |s| :: IsToken(s[i]) && TokenOf(s[i]) == low[i]
    ensures LowName(s) == low
    decreases |s|
  {
    if s != "" {
      LowNameIs(s[..|s| - 1], low[..|s| - 1]);
      assert low == low[..|s| - 1] + [low[|s| - 1]];
    }
  }

  lemma CodingField(coding: string)
    requires Plain(coding) && Spells(coding, "chunked")
    ensures var h := Field(CODING, " ", Text(coding), false); var hs := [h];
      && AllReadable(hs) && FieldsText(hs) == "Transfer-Encoding: " + coding + "\r\n"
      && FieldsEvents(hs) == [Data(FieldData, CODING), Data(ValueData, coding)]
      && FlagsAfter(NO_FLAGS, hs) == NO_FLAGS.(chunked := true) && LengthAfter(ULLONG_MAX, hs) == ULLONG_MAX
  {
    var h := Field(CODING, " ", Text(coding), false);
    CodingName();
    assert FoldedChar(coding[0]) == 'c';
    hide LowName, Spells, Plain;
    assert CODING + ":" + " " == "Transfer-Encoding: ";
    OneField(h, NO_FLAGS, ULLONG_MAX);
  }

  lemma OneField(h: Field, f: Flags, n: nat)
    requires Readable(h)
    ensures var hs := [h];
      && AllReadable(hs) && FieldsText(hs) == FieldText(h) && FieldsEvents(hs) == FieldEvents(h)
      && FlagsAfter(f, hs) == FlagsWith(f, h) && LengthAfter(n, hs) == LengthWith(n, h)
  {
    hide Readable, FieldText, FieldEvents, FlagsWith, LengthWith;
    assert [h][1..] == [];
    assert FieldText(h) + "" == FieldText(h) && FieldEvents(h) + [] == FieldEvents(h);
  }

  /**
   A request with its body in chunks, written out: its url, headers and chunks are reported and one whole message,
   nothing is left over, and the parser is ready for the next request.
   */
  lemma ChunkedRequest(verb: Method, target: string, hs: seq<Header>, coding: string, data: seq<string>,
                       skip: SkipPolicy) returns (d: Core)
    requires Requestable(verb, target, 1, hs) && Plain(coding) && Spells(coding, "chunked") && Chunkable(data)
    requires forall u :: !skip(u)
    ensures d.state.StartReq? && d.verb == verb && (d.major, d.minor) == (1, 1)
    ensures Run(Initial(Request), [],
                HeadOf(verb, target, 1, hs) +
                ("Transfer-Encoding: " + coding + "\r\n" + ("\r\n" + (ChunkedText(data) + "0\r\n\r\n"))), skip) ==
            Final(d, HeadTrace(target, hs) +
                     ([Data(FieldData, CODING), Data(ValueData, coding)] +
                      ([HeadersComplete(ULLONG_MAX, true, false)] +
                       (ChunkedTrace(data) + [ChunkHeader(0), ChunkComplete, MessageComplete]))), "", Running)
  {
    hide Run, FlagsAfter, LengthAfter, AllReadable, GoodBody, HeadOf, HeadTrace, FieldsText, FieldsEvents, BodyText,
      BodyEvents, ChunksText, ChunksEvents, Requestable, Spells, GoodChunks, CoreInv;
    var more := [Field(CODING, " ", Text(coding), false)];
    var b := Chunks(ChunksOf(data), "0", "", [], false);
    var content := InChunks(b);
    ChunksPrinted(data);
    LastChunk(b.chunks, "");
    CodingField(coding);
    AskWritten(verb, target, 1, hs, more, content);
    d := RequestRun(verb, target, 1, hs, more, content, "", skip);
    NoTrailers(Said(Ask(verb, target, 1, hs, more, content)));
    assert BodyText(b) + "" == ChunkedText(data) + "0\r\n\r\n";
    assert ChunkedTrace(data) + [ChunkHeader(0), ChunkComplete] + [MessageComplete] ==
           ChunkedTrace(data) + [ChunkHeader(0), ChunkComplete, MessageComplete];
    RunNothing(d, HeadTrace(target, hs) + (FieldsEvents(more) + ([HeadersComplete(ULLONG_MAX, true, false)] +
                                                                 ContentEvents(content))), skip);
  }

  lemma NoTrailers(f: Flags)
    ensures FlagsAfter(f.(trailing := true), []) == f.(trailing := true)
  {
  }

  lemma AskWritten(verb: Method, target: string, minor: nat, hs: seq<Header>, more: seq<Field>, content: Content)
    requires Requestable(verb, target, minor, hs) && AllReadable(more) &&
      (content.InChunks? ==> GoodBody(content.chunks))
    ensures var m := Ask(verb, target, minor, hs, more, content);
      && Written(m) && !Connects(m)
      && Said(m) == FlagsAfter(NO_FLAGS, more) && Announced(m) == LengthAfter(ULLONG_MAX, more)
  {
    hide FlagsAfter, LengthAfter, AllReadable, GoodBody, FieldsText, FieldsEvents, Lines, AllEvents, AllOrdinary, IsUrl;
    FieldsWith(hs, more, NO_FLAGS, ULLONG_MAX);
  }

  // ----- connection options -----

  /** A single option. */
  predicate IsOption(value: string) {
    value != "" && CleanValue(value) && ',' !in value
  }

  function OptionField(value: string): Field {
    Field("Connection", " ", List([Listed(0, value)]), false)
  }

  lemma ConnectionName()
    ensures IsName("Connection") && LowName("Connection") == "connection"
    ensures IsName("Upgrade") && LowName("Upgrade") == "upgrade"
  {
    LowNameIs("Connection", "connection");
    LowNameIs("Upgrade", "upgrade");
  }

  lemma OptionFieldSays(value: string, f: Flags, n: nat)
    requires IsOption(value)
    ensures var h := OptionField(value);
      && Readable(h) && FieldText(h) == "Connection: " + value + "\r\n"
      && FieldEvents(h) == [Data(FieldData, "Connection"), Data(ValueData, value)]
      && FlagsWith(f, h) == WithOption(f, value) && LengthWith(n, h) == n
  {
    hide LowName, WithOption;
    ConnectionName();
    var os := [Listed(0, value)];
    assert OptionsText(os) == value && Options(os);
    assert os[..0] == [] && WithOptions(f, []) == f && WithOptions(f, os) == WithOption(f, value);
    assert "Connection" + ":" + " " == "Connection: ";
  }

  /** What keeps a connection open: in version 1.0 only `keep-alive`, in version 1.1 everything but `close`. */
  predicate StaysOpen(minor: nat, value: string) {
    if minor == 0 then Spells(value, "keep-alive") else !Spells(value, "close")
  }

  /** A request whose only special header is `Connection`, and what the parser then expects. */
  lemma OneConnection(verb: Method, target: string, minor: nat, hs: seq<Header>, value: string, skip: SkipPolicy)
    returns (d: Core)
    requires Requestable(verb, target, minor, hs) && IsOption(value) && forall u :: !skip(u)
    ensures d.state == if StaysOpen(minor, value) then StartReq else Dead
    ensures d.verb == verb && (d.major, d.minor) == (1, minor)
    ensures Run(Initial(Request), [],
                HeadOf(verb, target, minor, hs) + ("Connection: " + value + "\r\n" + "\r\n"), skip) ==
            Final(d, HeadTrace(target, hs) +
                     ([Data(FieldData, "Connection"), Data(ValueData, value)] +
                      [HeadersComplete(ULLONG_MAX, false, false), MessageComplete]), "", Running)
  {
    hide Run, AllReadable, HeadOf, HeadTrace, FieldsText, FieldsEvents, Requestable, Spells, CoreInv, IsOption,
      OptionField, Readable, FieldText, FieldEvents, FlagsWith, LengthWith, FlagsAfter, LengthAfter;
    var h := OptionField(value);
    OptionFieldSays(value, NO_FLAGS, ULLONG_MAX);
    OneField(h, NO_FLAGS, ULLONG_MAX);
    AskWritten(verb, target, minor, hs, [h], Nothing);
    d := RequestRun(verb, target, minor, hs, [h], Nothing, "", skip);
    assert "" + "" == "" && "\r\n" + "" == "\r\n";
    assert [HeadersComplete(ULLONG_MAX, false, false)] + [MessageComplete] ==
           [HeadersComplete(ULLONG_MAX, false, false), MessageComplete];
    RunNothing(d,
      HeadTrace(target, hs) + (FieldEvents(h) + [HeadersComplete(ULLONG_MAX, false, false), MessageComplete]),
               skip);
  }

  lemma TwoFields(h: Field, g: Field, f: Flags, n: nat)
    requires Readable(h) && Readable(g)
    ensures var hs := [h, g];
      && AllReadable(hs) && FieldsText(hs) == FieldText(h) + FieldText(g)
      && FieldsEvents(hs) == FieldEvents(h) + FieldEvents(g)
      && FlagsAfter(f, hs) == FlagsWith(FlagsWith(f, h), g) && LengthAfter(n, hs) == LengthWith(LengthWith(n, h), g)
  {
    hide Readable, FieldText, FieldEvents, FlagsWith, LengthWith;
    assert [h, g][1..] == [g];
    OneField(g, FlagsWith(f, h), LengthWith(n, h));
  }

  lemma UpgradeFieldSays(protocol: string, f: Flags, n: nat)
    requires protocol != "" && CleanValue(protocol)
    ensures var h := Field("Upgrade", " ", Text(protocol), false);
      && Readable(h) && FieldText(h) == "Upgrade: " + protocol + "\r\n"
      && FieldEvents(h) == [Data(FieldData, "Upgrade"), Data(ValueData, protocol)]
      && FlagsWith(f, h) == f.(upgrade := true) && LengthWith(n, h) == n
  {
    hide LowName;
    ConnectionName();
    assert "Upgrade" + ":" + " " == "Upgrade: ";
  }

  /** A request for another protocol: one whole message, and everything behind it is left to that protocol. */
  lemma UpgradeRequest(verb: Method, target: string, minor: nat, hs: seq<Header>, value: string, protocol: string,
                       rest: string, skip: SkipPolicy) returns (d: Core)
    requires Requestable(verb, target, minor, hs) && IsOption(value) && Spells(value, "upgrade")
    requires protocol != "" && CleanValue(protocol) && forall u :: !skip(u)
    ensures d.upgrade && d.verb == verb && (d.major, d.minor) == (1, minor)
    ensures Run(Initial(Request), [],
                HeadOf(verb, target, minor, hs) +
                ("Connection: " + value + "\r\n" + ("Upgrade: " + protocol + "\r\n") + ("\r\n" + rest)), skip) ==
            Final(d, HeadTrace(target, hs) +
                     ([Data(FieldData, "Connection"), Data(ValueData, value)] +
                      [Data(FieldData, "Upgrade"), Data(ValueData, protocol)] +
                      [HeadersComplete(ULLONG_MAX, false, false), MessageComplete]), rest, Upgraded)
  {
    hide Run, AllReadable, HeadOf, HeadTrace, FieldsText, FieldsEvents, Requestable, Spells, CoreInv, IsOption,
      OptionField, Readable, FieldText, FieldEvents, FlagsWith, LengthWith, FlagsAfter, LengthAfter, CleanValue;
    var h, g := OptionField(value), Field("Upgrade", " ", Text(protocol), false);
    OptionFieldSays(value, NO_FLAGS, ULLONG_MAX);
    UpgradeFieldSays(protocol, WithOption(NO_FLAGS, value), ULLONG_MAX);
    TwoFields(h, g, NO_FLAGS, ULLONG_MAX);
    AskWritten(verb, target, minor, hs, [h, g], Nothing);
    d := RequestRun(verb, target, minor, hs, [h, g], Nothing, rest, skip);
    assert "" + rest == rest;
    assert [HeadersComplete(ULLONG_MAX, false, false)] + [MessageComplete] ==
           [HeadersComplete(ULLONG_MAX, false, false), MessageComplete];
  }
}
