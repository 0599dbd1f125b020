/**
 The header values that the parser understands, against what they mean: `chunked`, and lists of connection options.
 Meanings are stated on the text, with letters folded to lower case and blanks trimmed.
 */
module HttpValues {
  import opened HttpChars
  import opened HttpMachine
  import opened HttpInvariants
  import opened HttpRuns

  function FoldedChar(ch: char): char {
    if 'A' <= ch <= 'Z' then (ch as int + 32) as char else ch
  }

  /** The word w in any case, with blanks behind it. */
  predicate Spells(s: string, w: string) {
    && |w| <= |s| && (forall i | 0 <= i < |w| :: FoldedChar(s[i]) == w[i])
    && forall i | |w| <= i < |s| :: s[i] == ' '
  }

  /** A beginning of w, in any case. */
  predicate Begins(s: string, w: string) {
    |s| < |w| && forall i | 0 <= i < |s| :: FoldedChar(s[i]) == w[i]
  }

  /** A word of small letters and hyphens. */
  predicate IsWord(w: string) {
    w != "" && |w| < 20 && forall i | 0 <= i < |w| :: 'a' <= w[i] <= 'z' || w[i] == '-'
  }

  /** Setting bit 5 of a byte gives a letter exactly for that letter in both cases, and a hyphen for that and CR. */
  lemma LowerFolds(ch: char, b: char)
    requires 'a' <= b <= 'z' || (b == '-' && ch != CR)
    ensures Lower(ch) == b <==> FoldedChar(ch) == b
  {
    var n := ch as int;
    assert n < 128 ==> (n / 32 % 2 == 0 <==> n < 32 || 64 <= n < 96);
  }

  /** Reading on through a word. */
  lemma MatchWord(w: string, s: string, ch: char, going: HeaderState, whole: HeaderState, lost: HeaderState)
    requires IsWord(w) && s != "" && Begins(s, w) && ch != CR
    ensures Match(w, |s|, Lower(ch), going, whole, lost) ==
            if Begins(s + [ch], w) then going else if Spells(s + [ch], w) then whole else lost
    ensures Bump(|s| - 1) == |s|
  {
    hide FoldedChar, Lower;
    var t := s + [ch];
    LowerFolds(ch, w[|s|]);
    assert t[|s|] == ch && forall i | 0 <= i < |s| :: t[i] == s[i];
  }

  lemma SpellsOn(s: string, ch: char, w: string)
    requires Spells(s, w)
    ensures Spells(s + [ch], w) <==> ch == ' '
    ensures !Begins(s, w) && !Begins(s + [ch], w)
  {
    hide FoldedChar;
    var t := s + [ch];
    assert t[|s|] == ch && forall i | 0 <= i < |s| :: t[i] == s[i];
  }

  lemma SpellsNot(s: string, ch: char, w: string)
    requires !Begins(s, w) && !Spells(s, w)
    ensures !Begins(s + [ch], w) && !Spells(s + [ch], w)
  {
    hide FoldedChar;
    var t := s + [ch];
    assert forall i | 0 <= i < |s| :: t[i] == s[i];
  }

  /** The parser after the further bytes of a value. */
  function ReadOn(c: Core, s: string): Core {
    if s == "" then c else ValueChar(ReadOn(c, s[..|s| - 1]), s[|s| - 1]).c
  }

  predicate Plain(s: string) {
    CR !in s && LF !in s
  }

  /** Values that are never refused. */
  predicate Listens(h: HeaderState) {
    ValueState(h) && !h.HLength?
  }

  lemma {:induction false} ReadOnGlides(c: Core, s: string)
    requires c.state.HeaderValue? && CoreInv(c) && Listens(c.hs) && Plain(s)
    ensures var d := ReadOn(c, s);
      && Glides(c, s, d) && CoreInv(d) && Listens(d.hs) && d == c.(hs := d.hs, index := d.index, flags := d.flags)
  {
    hide Glides, ValueChar, CoreInv, ValueState;
    if s == "" {
      GlideNone(c);
    } else {
      var r, ch := s[..|s| - 1], s[|s| - 1];
      assert ch in s && r + [ch] == s;
      assert Plain(r);
      ReadOnGlides(c, r);
      var d := ReadOn(c, r);
      ListensOn(d, ch);
      ValueGlide(d, ch, ValueChar(d, ch));
      GlideConcat(c, r, d, [ch], ValueChar(d, ch).c);
    }
  }

  lemma ListensOn(c: Core, ch: char)
    requires Listens(c.hs)
    ensures var a := ValueChar(c, ch);
      a.Keep? && Listens(a.c.hs) && a.c == c.(hs := a.c.hs, index := a.c.index, flags := a.c.flags)
  {
    hide Match, Lower, IsToken, ConnectionStart, Commit;
    ConnectionWord(Lower(ch));
  }

  // ----- Transfer-Encoding -----

  /** The state that stands for the bytes s of a Transfer-Encoding value. */
  function CodingState(s: string): HeaderState {
    if Begins(s, "chunked") then MatchChunked else if Spells(s, "chunked") then TransferChunked else General
  }

  lemma CodingOn(c: Core, s: string, ch: char)
    requires s != "" && c.hs == CodingState(s) && (c.hs.MatchChunked? ==> c.index == |s| - 1) && ch != CR
    ensures var d := ValueChar(c, ch).c;
      && d == c.(hs := CodingState(s + [ch]), index := d.index) && (d.hs.MatchChunked? ==> d.index == |s|)
  {
    hide Match, Lower, Spells, Begins;
    if c.hs.MatchChunked? {
      MatchWord("chunked", s, ch, MatchChunked, TransferChunked, General);
    } else if c.hs.TransferChunked? {
      SpellsOn(s, ch, "chunked");
    } else {
      SpellsNot(s, ch, "chunked");
    }
  }

  lemma FirstLetter(ch: char, w: string)
    requires IsWord(w) && |w| > 1 && ch != CR
    ensures Begins([ch], w) <==> Lower(ch) == w[0]
    ensures !Spells([ch], w)
  {
    LowerFolds(ch, w[0]);
    hide FoldedChar, Lower;
  }

  /** The parser after the first byte of a value. */
  function Starting(c: Core, ch: char): Core {
    ValueStartStep(c, ch).c
  }

  lemma {:induction false} CodingRead(c: Core, v: string)
    requires c.hs.HTransfer? && v != "" && Plain(v)
    ensures var d := ReadOn(Starting(c, v[0]), v[1..]);
      && d == c.(state := HeaderValue, hs := CodingState(v), index := d.index)
      && (d.hs.MatchChunked? ==> d.index == |v| - 1)
    decreases |v|
  {
    hide ValueChar, CodingState;
    var i := |v| - 1;
    assert v[i] in v;
    if i == 0 {
      CodingStart(c, v[0]);
      assert v == [v[0]] && v[1..] == "";
    } else {
      var u := v[..i];
      assert Plain(u) && u + [v[i]] == v && v[1..][..i - 1] == u[1..];
      CodingRead(c, u);
      CodingOn(ReadOn(Starting(c, v[0]), u[1..]), u, v[i]);
    }
  }

  lemma CodingStart(c: Core, ch: char)
    requires c.hs.HTransfer? && ch != CR
    ensures Starting(c, ch) == c.(state := HeaderValue, hs := CodingState([ch]), index := 0)
  {
    hide Lower, Spells, Begins;
    FirstLetter(ch, "chunked");
  }

  // ----- Connection -----

  /** The option that a text stands for, as far as it has been read; at most one word begins with a given letter. */
  function OptionState(s: string): HeaderState {
    if Begins(s, "keep-alive") then MatchKeepAlive
    else if Spells(s, "keep-alive") then ConnKeepAlive
    else if Begins(s, "close") then MatchClose
    else if Spells(s, "close") then ConnClose
    else if Begins(s, "upgrade") then MatchConnUpgrade
    else if Spells(s, "upgrade") then ConnUpgrade
    else ConnToken
  }

  predicate Matching(h: HeaderState) {
    h.MatchKeepAlive? || h.MatchClose? || h.MatchConnUpgrade?
  }

  predicate Hears(s: string, w: string) {
    Begins(s, w) || Spells(s, w)
  }

  lemma HearsFirst(s: string, w: string)
    requires s != "" && w != "" && Hears(s, w)
    ensures FoldedChar(s[0]) == w[0]
  {
    hide FoldedChar;
  }

  lemma HearsOne(s: string)
    requires s != ""
    ensures Hears(s, "keep-alive") ==> !Hears(s, "close") && !Hears(s, "upgrade")
    ensures Hears(s, "close") ==> !Hears(s, "upgrade")
  {
    hide Hears, FoldedChar;
    if Hears(s, "keep-alive") {
      HearsFirst(s, "keep-alive");
    }
    if Hears(s, "close") {
      HearsFirst(s, "close");
    }
    if Hears(s, "upgrade") {
      HearsFirst(s, "upgrade");
    }
  }

  lemma HearsLess(s: string, ch: char, w: string)
    requires !Hears(s, w)
    ensures !Hears(s + [ch], w)
  {
    hide Begins, Spells;
    SpellsNot(s, ch, w);
  }

  /** A word in the middle of an option. */
  lemma WordOn(c: Core, s: string, ch: char, w: string, going: HeaderState, whole: HeaderState)
    requires s != "" && Hears(s, w) && IsWord(w) && ch != CR && ch != ','
    requires c.hs == (if Begins(s, w) then going else whole) && (Begins(s, w) ==> c.index == |s| - 1)
    requires
      || (w == "keep-alive" && going.MatchKeepAlive? && whole.ConnKeepAlive?)
      || (w == "close" && going.MatchClose? && whole.ConnClose?)
      || (w == "upgrade" && going.MatchConnUpgrade? && whole.ConnUpgrade?)
    ensures var d := ValueChar(c, ch).c; var t := s + [ch];
      && d == c.(hs := if Begins(t, w) then going else if Spells(t, w) then whole else ConnToken, index := d.index)
      && (Begins(t, w) ==> d.index == |s|)
  {
    hide Match, Lower, Spells, Begins, IsWord;
    if Begins(s, w) {
      MatchWord(w, s, ch, going, whole, ConnToken);
    } else {
      SpellsOn(s, ch, w);
    }
  }

  lemma OptionOn(c: Core, s: string, ch: char)
    requires s != "" && c.hs == OptionState(s) && (Matching(c.hs) ==> c.index == |s| - 1) && ch != CR && ch != ','
    ensures var d := ValueChar(c, ch).c;
      && d == c.(hs := OptionState(s + [ch]), index := d.index) && (Matching(d.hs) ==> d.index == |s|)
  {
    hide ValueChar, Spells, Begins;
    var t := s + [ch];
    HearsOne(s);
    HearsOne(t);
    if Hears(s, "keep-alive") {
      WordOn(c, s, ch, "keep-alive", MatchKeepAlive, ConnKeepAlive);
    } else if Hears(s, "close") {
      WordOn(c, s, ch, "close", MatchClose, ConnClose);
    } else if Hears(s, "upgrade") {
      WordOn(c, s, ch, "upgrade", MatchConnUpgrade, ConnUpgrade);
    } else {
      TokenOn(c, ch);
    }
    OptionHears(s, ch);
  }

  lemma TokenOn(c: Core, ch: char)
    requires c.hs.ConnToken? && ch != ','
    ensures ValueChar(c, ch).c == c
  {
  }

  /** What is not heard is not heard later. */
  lemma OptionHears(s: string, ch: char)
    ensures forall w | !Hears(s, w) :: !Hears(s + [ch], w)
  {
    hide Hears;
    forall w | !Hears(s, w)
      ensures !Hears(s + [ch], w)
    {
      HearsLess(s, ch, w);
    }
  }

  lemma OptionStart(ch: char)
    requires ch != CR
    ensures ConnectionStart(Lower(ch)) == OptionState([ch])
  {
    hide Lower, Begins, Spells;
    FirstLetter(ch, "keep-alive");
    FirstLetter(ch, "close");
    FirstLetter(ch, "upgrade");
  }

  lemma {:induction false} ReadOnConcat(c: Core, x: string, y: string)
    ensures ReadOn(c, x + y) == ReadOn(ReadOn(c, x), y)
    decreases |y|
  {
    hide ValueChar;
    if y == "" {
      assert x + y == x;
    } else {
      assert (x + y)[..|x + y| - 1] == x + y[..|y| - 1];
      ReadOnConcat(c, x, y[..|y| - 1]);
    }
  }

  /** One option, from its first byte on. */
  lemma {:induction false} OptionRead(c: Core, s: string)
    requires s != "" && Plain(s) && ',' !in s && c.hs == OptionState(s[..1]) && (Matching(c.hs) ==> c.index == 0)
    ensures var d := ReadOn(c, s[1..]);
      d == c.(hs := OptionState(s), index := d.index) && (Matching(d.hs) ==> d.index == |s| - 1)
    decreases |s|
  {
    hide ValueChar, OptionState;
    var i := |s| - 1;
    if i == 0 {
      assert s[..1] == s && s[1..] == "";
    } else {
      var u := s[..i];
      assert s[i] in s && Plain(u) && u + [s[i]] == s && s[1..][..i - 1] == u[1..] && u[..1] == s[..1];
      OptionRead(c, u);
      OptionOn(ReadOn(c, u[1..]), u, s[i]);
    }
  }

  /** An option of a list, with the blanks before it. */
  datatype Listed = Listed(blanks: nat, text: string)

  function Spaces(n: nat): (s: string)
    ensures |s| == n && forall i | 0 <= i < n :: s[i] == ' '
  {
    seq(n, i => ' ')
  }

  /** A list of options; blanks before the first are not part of the value. */
  function OptionsText(os: seq<Listed>): (s: string)
    requires os != [] && os[0].text != ""
    ensures s != "" && s[0] == os[0].text[0]
  {
    if |os| == 1 then os[0].text
    else OptionsText(os[..|os| - 1]) + "," + Spaces(os[|os| - 1].blanks) + os[|os| - 1].text
  }

  /** Cut short, a known word takes the comma after it for a part of itself. */
  predicate CutShort(s: string) {
    Begins(s, "keep-alive") || Begins(s, "close") || Begins(s, "upgrade")
  }

  predicate Options(os: seq<Listed>) {
    && os != []
    && forall i | 0 <= i < |os| ::
         && os[i].text != "" && Plain(os[i].text) && ',' !in os[i].text
         && (i > 0 ==> IsAlphaNum(os[i].text[0])) && (i < |os| - 1 ==> !CutShort(os[i].text))
  }

  /** What an option asks for. */
  function WithOption(f: Flags, s: string): Flags {
    f.(keepAlive := f.keepAlive || Spells(s, "keep-alive"), close := f.close || Spells(s, "close"),
       connUpgrade := f.connUpgrade || Spells(s, "upgrade"))
  }

  function WithOptions(f: Flags, os: seq<Listed>): Flags {
    if os == [] then f else WithOption(WithOptions(f, os[..|os| - 1]), os[|os| - 1].text)
  }

  predicate Names(os: seq<Listed>, w: string) {
    exists i :: 0 <= i < |os| && Spells(os[i].text, w)
  }

  lemma NamesSnoc(os: seq<Listed>, w: string)
    requires os != []
    ensures Names(os, w) <==> Names(os[..|os| - 1], w) || Spells(os[|os| - 1].text, w)
  {
    hide Spells;
    var init := os[..|os| - 1];
    if Names(init, w) {
      var i :| 0 <= i < |init| && Spells(init[i].text, w);
      assert os[i] == init[i];
    }
    if Names(os, w) && !Spells(os[|os| - 1].text, w) {
      var i :| 0 <= i < |os| && Spells(os[i].text, w);
      assert init[i] == os[i];
    }
  }

  /** The flags of a list are set exactly if the list names their words. */
  lemma {:induction false} OptionFlags(f: Flags, os: seq<Listed>)
    ensures WithOptions(f, os) ==
      f.(keepAlive := f.keepAlive || Names(os, "keep-alive"), close := f.close || Names(os, "close"),
         connUpgrade := f.connUpgrade || Names(os, "upgrade"))
  {
    hide Spells, Names;
    if os == [] {
      NoNames("keep-alive");
      NoNames("close");
      NoNames("upgrade");
    } else {
      OptionFlags(f, os[..|os| - 1]);
      NamesSnoc(os, "keep-alive");
      NamesSnoc(os, "close");
      NamesSnoc(os, "upgrade");
    }
  }

  lemma NoNames(w: string)
    ensures !Names([], w)
  {
  }

  lemma OptionCommits(f: Flags, s: string)
    requires s != ""
    ensures Commit(f, OptionState(s)) == if CutShort(s) then f else WithOption(f, s)
  {
    hide Spells, Begins;
    HearsOne(s);
  }

  lemma CutShortSpells(s: string)
    requires s != "" && CutShort(s)
    ensures !Spells(s, "keep-alive") && !Spells(s, "close") && !Spells(s, "upgrade")
  {
    hide Spells, Begins;
    HearsOne(s);
    LessThan(s, "keep-alive");
    LessThan(s, "close");
    LessThan(s, "upgrade");
  }

  lemma LessThan(s: string, w: string)
    ensures !(Begins(s, w) && Spells(s, w))
  {
  }

  /** The flag that the state at the end of a value stands for. */
  lemma OptionEnds(f: Flags, s: string)
    requires s != ""
    ensures Commit(f, OptionState(s)) == WithOption(f, s)
  {
    hide Spells, Begins, OptionState, Commit;
    OptionCommits(f, s);
    if CutShort(s) {
      CutShortSpells(s);
    }
  }

  lemma CommaOn(c: Core, s: string)
    requires s != "" && c.hs == OptionState(s) && !CutShort(s)
    ensures ValueChar(c, ',').c == c.(hs := TokenStart, index := 0, flags := WithOption(c.flags, s))
  {
    hide Spells, Begins, Commit;
    OptionEnds(c.flags, s);
    HearsOne(s);
    CommaActs(c);
  }

  lemma CommaActs(c: Core)
    requires c.hs.ConnToken? || c.hs.ConnKeepAlive? || c.hs.ConnClose? || c.hs.ConnUpgrade?
    ensures ValueChar(c, ',').c == c.(hs := TokenStart, index := 0, flags := Commit(c.flags, c.hs))
  {
  }

  lemma {:induction false} BlanksRead(c: Core, n: nat)
    requires c.hs.TokenStart?
    ensures ReadOn(c, Spaces(n)) == c
  {
    if n > 0 {
      assert Spaces(n)[..n - 1] == Spaces(n - 1);
      BlanksRead(c, n - 1);
      BlankActs(c);
    }
  }

  lemma BlankActs(c: Core)
    requires c.hs.TokenStart?
    ensures ValueChar(c, ' ').c == c
  {
  }

  lemma NextActs(c: Core, ch: char)
    requires c.hs.TokenStart? && IsAlphaNum(ch)
    ensures ValueChar(c, ch).c == c.(hs := ConnectionStart(Lower(ch)))
  {
    AlphaNumLower(ch);
  }

  lemma AlphaNumLower(ch: char)
    requires IsAlphaNum(ch)
    ensures IsAlphaNum(Lower(ch))
  {
    var n := ch as int;
    assert n / 32 % 2 == 0 <==> 64 <= n < 96;
  }

  /** One more option of a list. */
  lemma ListOn(c: Core, last: string, o: Listed)
    requires last != "" && c.hs == OptionState(last) && !CutShort(last)
    requires o.text != "" && Plain(o.text) && ',' !in o.text && IsAlphaNum(o.text[0])
    ensures var d := ReadOn(c, "," + Spaces(o.blanks) + o.text);
      && d == c.(hs := OptionState(o.text), index := d.index, flags := WithOption(c.flags, last))
  {
    hide ValueChar, OptionState, WithOption, CutShort;
    var e := c.(hs := TokenStart, index := 0, flags := WithOption(c.flags, last));
    var s := o.text;
    CommaOn(c, last);
    OneRead(c, ',');
    ReadOnConcat(c, ",", Spaces(o.blanks));
    BlanksRead(e, o.blanks);
    ReadOnConcat(c, "," + Spaces(o.blanks), s);
    OneRead(e, s[0]);
    NextActs(e, s[0]);
    OptionStart(s[0]);
    assert s == [s[0]] + s[1..] && s[..1] == [s[0]];
    ReadOnConcat(e, [s[0]], s[1..]);
    OptionRead(e.(hs := OptionState([s[0]])), s);
  }

  lemma OneRead(c: Core, ch: char)
    ensures ReadOn(c, [ch]) == ValueChar(c, ch).c
  {
    hide ValueChar;
    assert [ch][..0] == "" && ReadOn(c, "") == c;
  }

  /** A whole list: its last option has not been committed yet. */
  lemma {:induction false} OptionsRead(c: Core, os: seq<Listed>)
    requires c.hs.HConnection? && Options(os)
    ensures var v := OptionsText(os); var d := ReadOn(Starting(c, v[0]), v[1..]);
      d == c.(state := HeaderValue, hs := OptionState(os[|os| - 1].text), index := d.index,
              flags := WithOptions(c.flags, os[..|os| - 1]))
    decreases |os|
  {
    hide ValueChar, OptionState, Spells, Begins, ReadOn;
    var v, n := OptionsText(os), |os| - 1;
    if n == 0 {
      ConnectionStarts(c, v[0]);
      assert v[..1] == [v[0]] && os[..0] == [];
      OptionRead(Starting(c, v[0]), v);
    } else {
      var init := os[..n];
      var u := OptionsText(init);
      var more := "," + Spaces(os[n].blanks) + os[n].text;
      assert init[..n - 1] == os[..n - 1] && init[n - 1] == os[n - 1];
      OptionsRead(c, init);
      var e := ReadOn(Starting(c, u[0]), u[1..]);
      assert v == u + more && v[1..] == u[1..] + more;
      ReadOnConcat(Starting(c, u[0]), u[1..], more);
      ListOn(e, os[n - 1].text, os[n]);
    }
  }

  lemma ConnectionStarts(c: Core, ch: char)
    requires c.hs.HConnection? && ch != CR
    ensures Starting(c, ch) == c.(state := HeaderValue, hs := OptionState([ch]), index := 0)
  {
    hide OptionState, ConnectionStart, Lower;
    OptionStart(ch);
  }

  /** The flags after a list. */
  lemma OptionsFlags(f: Flags, os: seq<Listed>)
    requires Options(os)
    ensures Commit(WithOptions(f, os[..|os| - 1]), OptionState(os[|os| - 1].text)) == WithOptions(f, os)
  {
    hide OptionState, Commit;
    OptionEnds(WithOptions(f, os[..|os| - 1]), os[|os| - 1].text);
  }

  lemma CodingFlags(f: Flags, v: string)
    requires v != ""
    ensures Commit(f, CodingState(v)) == f.(chunked := f.chunked || Spells(v, "chunked"))
  {
    hide Spells, Begins;
    LessThan(v, "chunked");
  }
}
