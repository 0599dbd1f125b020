/**
 The incremental recognisers of the parser against what they recognise: the method table, the special header
 names, and the decimal and hexadecimal length accumulators with their overflow guards.
 */
module HttpRecognisers {
  import opened Wrappers
  import opened HttpChars
  import opened HttpMachine
  import opened HttpInvariants
  import opened HttpRuns

  // ----- methods -----

  /** The guess after the bytes `w` of a method, if they have all been accepted. */
  function Guess(w: string): Option<Method>
    requires w != ""
  {
    var ch := w[|w| - 1];
    if |w| == 1 then
      if IsAlpha(ch) && FirstGuess(ch).0 then Some(FirstGuess(ch).1) else None
    else
      match Guess(w[..|w| - 1])
      case None => None
      case Some(m) =>
        if ch == '\0' then None
        else if ch == MatcherAt(MethodString(m), |w| - 1) then Some(m)
        else if NextGuess(m, |w| - 1, ch).0 then Some(NextGuess(m, |w| - 1, ch).1)
        else None
  }

  /** A guess changes only to a method with the same beginning and the byte just read. */
  lemma NextGuessSound(m: Method, i: nat, ch: char)
    requires NextGuess(m, i, ch).0 && i <= |MethodString(m)|
    ensures var n := MethodString(NextGuess(m, i, ch).1); i < |n| && n[i] == ch && n[..i] == MethodString(m)[..i]
  {
    hide MethodString, NextGuess, Source;
    var n := NextGuess(m, i, ch).1;
    NextGuessSource(m, i, ch);
    SourceLies(n);
    SourceByte(m, i, ch);
    SourceAgrees(n);
  }

  lemma NextGuessSource(m: Method, i: nat, ch: char)
    requires NextGuess(m, i, ch).0
    ensures Source(NextGuess(m, i, ch).1) == (m, i) && i > 0
  {
  }

  lemma SourceByte(m: Method, i: nat, ch: char)
    requires NextGuess(m, i, ch).0 && i < |MethodString(NextGuess(m, i, ch).1)|
    ensures MethodString(NextGuess(m, i, ch).1)[i] == ch
  {
  }

  lemma FirstGuessSound(ch: char)
    requires FirstGuess(ch).0
    ensures var m := MethodString(FirstGuess(ch).1); |m| >= 1 && m[0] == ch
  {
  }

  /** The bytes read are the beginning of the guessed method, so `index` never passes its end. */
  lemma {:induction false} GuessSound(w: string)
    requires w != "" && Guess(w).Some?
    ensures w <= MethodString(Guess(w).value)
  {
    hide MethodString, NextGuess, FirstGuess;
    var i := |w| - 1;
    if i == 0 {
      FirstGuessSound(w[0]);
      assert Guess(w) == Some(FirstGuess(w[0]).1);
    } else {
      var m := Guess(w[..i]).value;
      GuessSound(w[..i]);
      if w[i] != MatcherAt(MethodString(m), i) {
        NextGuessSound(m, i, w[i]);
        assert MethodString(m)[..i] == w[..i];
      }
    }
  }

  /** The guess from which `m` is reached, and the position at which it is (0 for a first guess). */
  function Source(m: Method): (Method, nat) {
    match m
    case CHECKOUT => (CONNECT, 1) case COPY => (CONNECT, 2) case MOVE => (MKCOL, 1) case MERGE => (MKCOL, 1)
    case MSEARCH => (MKCOL, 1) case MKACTIVITY => (MKCOL, 2) case MKCALENDAR => (MKCOL, 3) case SEARCH => (SUBSCRIBE, 1)
    case REBIND => (REPORT, 2) case PROPFIND => (POST, 1) case PUT => (POST, 1) case PATCH => (POST, 1)
    case PURGE => (PUT, 2) case UNSUBSCRIBE => (UNLOCK, 2) case UNBIND => (UNLOCK, 2) case PROPPATCH => (PROPFIND, 4)
    case _ => (m, 0)
  }

  lemma SourceFirst(m: Method)
    requires Source(m).1 == 0
    ensures MethodString(m) != "" && FirstGuess(MethodString(m)[0]) == (true, m) && IsAlpha(MethodString(m)[0])
  {
  }

  lemma SourceTurns(m: Method)
    requires Source(m).1 > 0
    ensures var (p, i) := Source(m);
            && i < |MethodString(m)| && i < |MethodString(p)| && Source(p).1 < i
            && MethodString(p)[..i] == MethodString(m)[..i] && MethodString(p)[i] != MethodString(m)[i]
            && NextGuess(p, i, MethodString(m)[i]) == (true, m)
  {
    hide MethodString, NextGuess, Source;
    SourceLies(m);
    SourceAgrees(m);
    SourceGuesses(m);
  }

  lemma SourceLies(m: Method)
    requires Source(m).1 > 0
    ensures var (p, i) := Source(m); i < |MethodString(m)| && i < |MethodString(p)| && Source(p).1 < i
  {
  }

  lemma SourceAgrees(m: Method)
    requires Source(m).1 > 0 && Source(m).1 < |MethodString(m)| && Source(m).1 < |MethodString(Source(m).0)|
    ensures var (p, i) := Source(m);
            MethodString(p)[..i] == MethodString(m)[..i] && MethodString(p)[i] != MethodString(m)[i]
  {
  }

  lemma SourceGuesses(m: Method)
    requires Source(m).1 > 0 && Source(m).1 < |MethodString(m)|
    ensures NextGuess(Source(m).0, Source(m).1, MethodString(m)[Source(m).1]) == (true, m)
  {
  }

  predicate Basic(m: Method) {
    m.DELETE? || m.GET? || m.HEAD? || m.POST? || m.PUT? || m.CONNECT? || m.OPTIONS? || m.TRACE? || m.COPY? || m.LOCK?
    || m.MKCOL? || m.MOVE? || m.PROPFIND? || m.PROPPATCH? || m.SEARCH? || m.UNLOCK?
  }

  lemma BasicNoNul(m: Method, i: nat)
    requires i < |MethodString(m)| && Basic(m)
    ensures MethodString(m)[i] != '\0' && MethodString(m)[i] != ' '
  {
  }

  lemma OtherNoNul(m: Method, i: nat)
    requires i < |MethodString(m)| && !Basic(m)
    ensures MethodString(m)[i] != '\0' && MethodString(m)[i] != ' '
  {
  }

  lemma NoNul(m: Method, i: nat)
    requires i < |MethodString(m)|
    ensures MethodString(m)[i] != '\0' && MethodString(m)[i] != ' '
  {
    hide MethodString, Basic;
    if Basic(m) {
      BasicNoNul(m, i);
    } else {
      OtherNoNul(m, i);
    }
  }

  /** A correct guess is kept. */
  lemma {:induction false} GuessKept(w: string, g: Method, i: nat, j: nat)
    requires 0 < i <= j <= |w| && Guess(w[..i]) == Some(g) && w[..j] <= MethodString(g)
    ensures Guess(w[..j]) == Some(g)
    decreases j
  {
    hide MethodString, NextGuess, FirstGuess;
    if i < j {
      assert w[..j][..j - 1] == w[..j - 1];
      GuessKept(w, g, i, j - 1);
      NoNul(g, j - 1);
      assert w[j - 1] == w[..j][j - 1] == MethodString(g)[j - 1];
    }
  }

  lemma {:induction false} GuessReached(m: Method)
    ensures Source(m).1 < |MethodString(m)| && Guess(MethodString(m)[..Source(m).1 + 1]) == Some(m)
    decreases Source(m).1
  {
    hide MethodString, NextGuess, FirstGuess, Source;
    var w := MethodString(m);
    var (p, i) := Source(m);
    if i == 0 {
      SourceFirst(m);
      assert w[..1] == [w[0]];
    } else {
      SourceTurns(m);
      GuessReached(p);
      var v := MethodString(p);
      GuessKept(v, p, Source(p).1 + 1, i);
      assert w[..i + 1][..i] == w[..i] == v[..i];
      NoNul(m, i);
    }
  }

  /** Every method of the table is recognised by its own string. */
  lemma GuessComplete(m: Method)
    ensures MethodString(m) != "" && Guess(MethodString(m)) == Some(m)
  {
    hide MethodString;
    var w := MethodString(m);
    GuessReached(m);
    GuessKept(w, m, Source(m).1 + 1, |w|);
    assert w[..|w|] == w;
  }

  // ----- the words accepted as methods, as literals -----

  predicate CommonName(w: string) {
    || w == "DELETE" || w == "GET" || w == "HEAD" || w == "POST" || w == "PUT" || w == "CONNECT" || w == "OPTIONS"
    || w == "TRACE"
  }

  lemma Named(w: string)
    requires CommonName(w)
    ensures exists m :: MethodString(m) == w
  {
    var m :=
      if w == "DELETE" then DELETE else if w == "GET" then GET else if w == "HEAD" then HEAD
      else if w == "POST" then POST else if w == "PUT" then PUT else if w == "CONNECT" then CONNECT
      else if w == "OPTIONS" then OPTIONS else TRACE;
    assert MethodString(m) == w;
  }

  predicate DavName(w: string) {
    || w == "COPY" || w == "LOCK" || w == "MKCOL" || w == "MOVE" || w == "PROPFIND" || w == "PROPPATCH" || w == "SEARCH"
    || w == "UNLOCK" || w == "BIND" || w == "REBIND" || w == "UNBIND" || w == "ACL"
  }

  lemma DavNamed(w: string)
    requires DavName(w)
    ensures exists m :: MethodString(m) == w
  {
    var m :=
      if w == "COPY" then COPY else if w == "LOCK" then LOCK else if w == "MKCOL" then MKCOL
      else if w == "MOVE" then MOVE else if w == "PROPFIND" then PROPFIND else if w == "PROPPATCH" then PROPPATCH
      else if w == "SEARCH" then SEARCH else if w == "UNLOCK" then UNLOCK else if w == "BIND" then BIND
      else if w == "REBIND" then REBIND else if w == "UNBIND" then UNBIND else ACL;
    assert MethodString(m) == w;
  }

  predicate OtherName(w: string) {
    || w == "REPORT" || w == "MKACTIVITY" || w == "CHECKOUT" || w == "MERGE" || w == "M-SEARCH" || w == "NOTIFY"
    || w == "SUBSCRIBE" || w == "UNSUBSCRIBE" || w == "PATCH" || w == "PURGE" || w == "MKCALENDAR"
  }

  lemma OtherNamed(w: string)
    requires OtherName(w)
    ensures exists m :: MethodString(m) == w
  {
    var m :=
      if w == "REPORT" then REPORT else if w == "MKACTIVITY" then MKACTIVITY else if w == "CHECKOUT" then CHECKOUT
      else if w == "MERGE" then MERGE else if w == "M-SEARCH" then MSEARCH else if w == "NOTIFY" then NOTIFY
      else if w == "SUBSCRIBE" then SUBSCRIBE else if w == "UNSUBSCRIBE" then UNSUBSCRIBE
      else if w == "PATCH" then PATCH else if w == "PURGE" then PURGE else MKCALENDAR;
    assert MethodString(m) == w;
  }

  /** The names of the 31 methods. */
  lemma MethodNames(w: string)
    ensures CommonName(w) || DavName(w) || OtherName(w) <==> exists m :: MethodString(m) == w
  {
    if CommonName(w) {
      Named(w);
    } else if DavName(w) {
      DavNamed(w);
    } else if OtherName(w) {
      OtherNamed(w);
    }
  }

  /** The parser while it reads a method that starts at `c`. */
  function Reading(c: Core, m: Method, i: nat): Core {
    c.(flags := NO_FLAGS, length := ULLONG_MAX, verb := m, index := i, state := ReqMethod)
  }

  lemma NameFacts(m: Method, i: nat)
    ensures |MethodString(m)| < 20 && !NextGuess(m, i, ' ').0
  {
  }

  lemma MethodStepRun(c: Core, t: Trace, m: Method, i: nat, ch: char, skip: SkipPolicy)
    requires i <= |MethodString(m)| && ch != ' ' && ch != '\0'
    ensures Run(Reading(c, m, i), t, [ch], skip) ==
            if ch == MatcherAt(MethodString(m), i) then Final(Reading(c, m, i + 1), t, "", Running)
            else if NextGuess(m, i, ch).0 then Final(Reading(c, NextGuess(m, i, ch).1, i + 1), t, "", Running)
            else Final(Reading(c, m, i), t, [ch], Failed(InvalidMethod))
  {
    NameFacts(m, i);
    hide NextGuess, MethodString, StartStep, ResponseLineStep, UrlStep, RequestLineStep, NameStep, ValueStep,
      HeadersEndStep, BodyStep, ChunkSizeStep;
    RunUnfold(Reading(c, m, i), t, [ch], skip, Switch(Reading(c, m, i), ch));
  }

  lemma MethodStartRun(c: Core, t: Trace, ch: char, skip: SkipPolicy)
    requires c.state.StartReq? && ch != CR && ch != LF
    ensures var r := Run(c, t, [ch], skip);
            if IsAlpha(ch) && FirstGuess(ch).0
            then r == Final(Reading(c, FirstGuess(ch).1, 1), Emit(t, MessageBegin), "", Running)
            else r.halt == Failed(InvalidMethod)
  {
    hide FirstGuess, Emit, MethodStep, ResponseLineStep, UrlStep, RequestLineStep, NameStep, ValueStep, HeadersEndStep,
      BodyStep, ChunkSizeStep;
    RunUnfold(c, t, [ch], skip, Switch(c, ch));
  }

  lemma MethodNulRun(c: Core, t: Trace, m: Method, i: nat, skip: SkipPolicy)
    ensures Run(Reading(c, m, i), t, "\0", skip).halt == Failed(InvalidMethod)
  {
    hide NextGuess, MethodString, StartStep, ResponseLineStep, UrlStep, RequestLineStep, NameStep, ValueStep,
      HeadersEndStep, BodyStep, ChunkSizeStep;
    RunUnfold(Reading(c, m, i), t, "\0", skip, Switch(Reading(c, m, i), '\0'));
  }

  /** Reading a method, however long it takes, follows `Guess`. */
  lemma {:induction false} MethodRun(c: Core, t: Trace, w: string, skip: SkipPolicy)
    requires c.state.StartReq? && w != "" && w[0] != CR && w[0] != LF && ' ' !in w
    ensures var r := Run(c, t, w, skip);
            match Guess(w)
            case Some(m) => r == Final(Reading(c, m, |w|), Emit(t, MessageBegin), "", Running)
            case None => r.halt == Failed(InvalidMethod)
    decreases |w|
  {
    hide Run, Switch, FirstGuess, NextGuess, MethodString, Emit, Reading;
    var i := |w| - 1;
    assert w == w[..i] + [w[i]];
    if i == 0 {
      assert w == [w[0]];
      MethodStartRun(c, t, w[0], skip);
    } else {
      MethodRun(c, t, w[..i], skip);
      RunConcat(c, t, w[..i], [w[i]], skip);
      match Guess(w[..i])
      case None =>
      case Some(m) =>
        GuessSound(w[..i]);
        assert w[i] in w;
        if w[i] == '\0' {
          assert [w[i]] == "\0";
          MethodNulRun(c, Emit(t, MessageBegin), m, i, skip);
        } else {
          MethodStepRun(c, Emit(t, MessageBegin), m, i, w[i], skip);
        }
    }
  }

  lemma MethodSpaceRun(c: Core, t: Trace, m: Method, i: nat, skip: SkipPolicy)
    requires i <= |MethodString(m)|
    ensures var r := Run(Reading(c, m, i), t, " ", skip);
            if i == |MethodString(m)| then r == Final(Reading(c, m, i + 1).(state := SpacesBeforeUrl), t, "", Running)
            else r.halt == Failed(InvalidMethod)
  {
    hide Run, Switch;
    MethodSpaceActs(Reading(c, m, i), m, i);
    ByteRun(Reading(c, m, i), t, ' ', skip, Switch(Reading(c, m, i), ' '));
    assert [' '] == " ";
  }

  lemma MethodSpaceActs(c: Core, m: Method, i: nat)
    requires c.state.ReqMethod? && c.verb == m && c.index == i <= |MethodString(m)|
    ensures var a := Switch(c, ' ');
            if i == |MethodString(m)| then a == Next(c.(state := SpacesBeforeUrl, index := i + 1))
            else a.Fail? && a.errno.InvalidMethod?
  {
    hide NextGuess, MethodString;
    NameFacts(m, i);
    if i < |MethodString(m)| {
      NoNul(m, i);
    }
  }

  /** A run over one byte, from what the byte does. */
  lemma ByteRun(c: Core, t: Trace, ch: char, skip: SkipPolicy, a: Act)
    requires a == Switch(c, ch)
    ensures a.Next? ==> Run(c, t, [ch], skip) == Final(a.c, t, "", Running)
    ensures a.Fail? ==> Run(c, t, [ch], skip) == Final(a.c, t, [ch], Failed(a.errno))
  {
    hide Switch;
    RunUnfold(c, t, [ch], skip, a);
  }

  /**
   A token followed by a space is accepted as a method exactly when it is in the table, and then it is that method.
   */
  lemma MethodRecognised(c: Core, t: Trace, w: string, skip: SkipPolicy)
    requires c.state.StartReq? && w != "" && w[0] != CR && w[0] != LF && ' ' !in w
    ensures var r := Run(c, t, w + " ", skip);
            && (r.halt.Running? <==> exists m :: w == MethodString(m))
            && (r.halt.Running? ==> w == MethodString(r.c.verb) && r.c.state.SpacesBeforeUrl?)
            && (!r.halt.Running? ==> r.halt == Failed(InvalidMethod))
  {
    hide Run, Switch, MethodString, Emit;
    MethodRun(c, t, w, skip);
    RunConcat(c, t, w, " ", skip);
    forall m | w == MethodString(m)
      ensures Guess(w) == Some(m)
    {
      GuessComplete(m);
    }
    if Guess(w).Some? {
      GuessSound(w);
      MethodSpaceRun(c, Emit(t, MessageBegin), Guess(w).value, |w|, skip);
    }
  }

  // ----- special header names -----

  predicate IsName(s: string) {
    s != "" && forall i | 0 <= i < |s| :: IsToken(s[i])
  }

  /** A header name with its letters folded to lower case. */
  function LowName(s: string): (r: string)
    requires forall i | 0 <= i < |s| :: IsToken(s[i])
    ensures |r| == |s|
  {
    if s == "" then "" else LowName(s[..|s| - 1]) + [TokenOf(s[|s| - 1])]
  }

  /** `header_state` and `index` after the bytes of a name. */
  function StateAfter(s: string): (HeaderState, nat)
    requires IsName(s)
  {
    if |s| == 1 then (FieldStart(s[0]), 0)
    else
      var (h, i) := StateAfter(s[..|s| - 1]);
      FieldChar(h, i, s[|s| - 1])
  }

  /** The header state that stands for having read `low` so far. */
  function Recognise(low: string): HeaderState
    requires low != ""
  {
    if low <= "connection" then
      if |low| == 1 then HC else if |low| == 2 then HCO else if |low| == 3 then HCON
      else if |low| < 10 then MatchConnection else HConnection
    else if low <= "content-length" then if |low| < 14 then MatchLength else HLength
    else if low <= "proxy-connection" then if |low| < 16 then MatchProxy else HConnection
    else if low <= "transfer-encoding" then if |low| < 17 then MatchTransfer else HTransfer
    else if low <= "upgrade" then if |low| < 7 then MatchUpgrade else HUpgrade
    else General
  }

  lemma PrefixSnoc(w: string, s: string, b: char)
    ensures s + [b] <= w <==> s <= w && |s| < |w| && w[|s|] == b
  {
    if s <= w && |s| < |w| && w[|s|] == b {
      assert w[..|s| + 1] == w[..|s|] + [w[|s|]];
    }
    if s + [b] <= w {
      assert s == (s + [b])[..|s|] == w[..|s|];
      assert b == (s + [b])[|s|] == w[|s|];
    }
  }

  predicate Partial(h: HeaderState) {
    h.HC? || h.HCO? || h.HCON? || h.MatchConnection? || h.MatchProxy? || h.MatchLength? || h.MatchTransfer? ||
      h.MatchUpgrade?
  }

  lemma MatchStep(w: string, s: string, b: char, going: HeaderState, whole: HeaderState, lost: HeaderState)
    requires s <= w && |s| < |w|
    ensures Match(w, |s|, b, going, whole, lost) ==
            if s + [b] <= w then (if |s| + 1 == |w| then whole else going) else lost
  {
    PrefixSnoc(w, s, b);
  }

  /** Keywords are told apart by their first and, for those that begin with "con", their fourth letter. */
  lemma PrefixLetters(s: string)
    requires s != ""
    ensures s <= "connection" ==> s[0] == 'c' && (|s| > 3 ==> s[3] == 'n')
    ensures s <= "content-length" ==> s[0] == 'c' && (|s| > 3 ==> s[3] == 't') && (|s| <= 3 ==> s <= "connection")
    ensures s <= "proxy-connection" ==> s[0] == 'p'
    ensures s <= "transfer-encoding" ==> s[0] == 't'
    ensures s <= "upgrade" ==> s[0] == 'u'
  {
    if s <= "content-length" && |s| <= 3 {
      assert "content-length"[..3] == "con" == "connection"[..3];
      assert s == "content-length"[..3][..|s|];
      assert s == "connection"[..3][..|s|] == "connection"[..|s|];
    }
  }

  /** The state that stands for a name, read off its first letter, or its first and fourth. */
  lemma LetterStates(s: string)
    requires s != ""
    ensures s[0] == 'p' ==>
      Recognise(s) == if s <= "proxy-connection" then if |s| < 16 then MatchProxy else HConnection else General
    ensures s[0] == 't' ==>
      Recognise(s) == if s <= "transfer-encoding" then if |s| < 17 then MatchTransfer else HTransfer else General
    ensures s[0] == 'c' && |s| > 3 && s[3] == 'n' ==>
      Recognise(s) == if s <= "connection" then if |s| < 10 then MatchConnection else HConnection else General
    ensures s[0] == 'c' && |s| > 3 && s[3] == 't' ==>
      Recognise(s) == if s <= "content-length" then if |s| < 14 then MatchLength else HLength else General
    ensures s[0] == 'u' ==>
      Recognise(s) == if s <= "upgrade" then if |s| < 7 then MatchUpgrade else HUpgrade else General
  {
    PrefixLetters(s);
  }

  /** What a further byte does in the states of those names. */
  lemma FieldMatches(h: HeaderState, i: nat, ch: char)
    requires IsToken(ch)
    ensures var j := Bump(i); var b := TokenOf(ch);
      && (h.MatchConnection? ==> FieldChar(h, i, ch) == (Match("connection", j, b, h, HConnection, General), j))
      && (h.MatchLength? ==> FieldChar(h, i, ch) == (Match("content-length", j, b, h, HLength, General), j))
      && (h.MatchProxy? ==> FieldChar(h, i, ch) == (Match("proxy-connection", j, b, h, HConnection, General), j))
      && (h.MatchTransfer? ==> FieldChar(h, i, ch) == (Match("transfer-encoding", j, b, h, HTransfer, General), j))
      && (h.MatchUpgrade? ==> FieldChar(h, i, ch) == (Match("upgrade", j, b, h, HUpgrade, General), j))
      && (h.HConnection? || h.HLength? || h.HTransfer? || h.HUpgrade? ==> FieldChar(h, i, ch) == (General, i))
  {
    hide Match, TokenOf;
  }

  /** A further byte of a name that is recognised by matching the word w. */
  lemma WordStep(w: string, low: string, i: nat, ch: char, going: HeaderState, whole: HeaderState)
    requires low != "" && IsToken(ch) && low <= w && |w| < 20 && Partial(going) && !Partial(whole)
    requires Recognise(low) == if |low| < |w| then going else whole
    requires var next := low + [TokenOf(ch)];
      Recognise(next) == if next <= w then if |next| < |w| then going else whole else General
    requires FieldChar(Recognise(low), i, ch) ==
      if |low| < |w| then (Match(w, Bump(i), TokenOf(ch), going, whole, General), Bump(i)) else (General, i)
    requires Partial(Recognise(low)) ==> i == |low| - 1
    ensures var (h, j) := FieldChar(Recognise(low), i, ch);
            h == Recognise(low + [TokenOf(ch)]) && (Partial(h) ==> j == |low|)
  {
    hide Match, Recognise, FieldChar, TokenOf, IsToken;
    PrefixSnoc(w, low, TokenOf(ch));
    if |low| < |w| {
      MatchStep(w, low, TokenOf(ch), going, whole, General);
    }
  }

  lemma StepConnection(low: string, i: nat, ch: char)
    requires low != "" && IsToken(ch) && low <= "connection" && |low| > 3
    requires Partial(Recognise(low)) ==> i == |low| - 1
    ensures var (h, j) := FieldChar(Recognise(low), i, ch);
            h == Recognise(low + [TokenOf(ch)]) && (Partial(h) ==> j == |low|)
  {
    hide Match, Recognise, FieldChar, TokenOf, IsToken;
    PrefixLetters(low);
    LetterStates(low);
    LetterStates(low + [TokenOf(ch)]);
    FieldMatches(Recognise(low), i, ch);
    WordStep("connection", low, i, ch, MatchConnection, HConnection);
  }

  lemma StepLength(low: string, i: nat, ch: char)
    requires low != "" && IsToken(ch) && low <= "content-length" && |low| > 3
    requires Partial(Recognise(low)) ==> i == |low| - 1
    ensures var (h, j) := FieldChar(Recognise(low), i, ch);
            h == Recognise(low + [TokenOf(ch)]) && (Partial(h) ==> j == |low|)
  {
    hide Match, Recognise, FieldChar, TokenOf, IsToken;
    PrefixLetters(low);
    LetterStates(low);
    LetterStates(low + [TokenOf(ch)]);
    FieldMatches(Recognise(low), i, ch);
    WordStep("content-length", low, i, ch, MatchLength, HLength);
  }

  lemma StepProxy(low: string, i: nat, ch: char)
    requires low != "" && IsToken(ch) && low <= "proxy-connection"
    requires Partial(Recognise(low)) ==> i == |low| - 1
    ensures var (h, j) := FieldChar(Recognise(low), i, ch);
            h == Recognise(low + [TokenOf(ch)]) && (Partial(h) ==> j == |low|)
  {
    hide Match, Recognise, FieldChar, TokenOf, IsToken;
    PrefixLetters(low);
    LetterStates(low);
    LetterStates(low + [TokenOf(ch)]);
    FieldMatches(Recognise(low), i, ch);
    WordStep("proxy-connection", low, i, ch, MatchProxy, HConnection);
  }

  lemma StepTransfer(low: string, i: nat, ch: char)
    requires low != "" && IsToken(ch) && low <= "transfer-encoding"
    requires Partial(Recognise(low)) ==> i == |low| - 1
    ensures var (h, j) := FieldChar(Recognise(low), i, ch);
            h == Recognise(low + [TokenOf(ch)]) && (Partial(h) ==> j == |low|)
  {
    hide Match, Recognise, FieldChar, TokenOf, IsToken;
    PrefixLetters(low);
    LetterStates(low);
    LetterStates(low + [TokenOf(ch)]);
    FieldMatches(Recognise(low), i, ch);
    WordStep("transfer-encoding", low, i, ch, MatchTransfer, HTransfer);
  }

  lemma StepUpgrade(low: string, i: nat, ch: char)
    requires low != "" && IsToken(ch) && low <= "upgrade"
    requires Partial(Recognise(low)) ==> i == |low| - 1
    ensures var (h, j) := FieldChar(Recognise(low), i, ch);
            h == Recognise(low + [TokenOf(ch)]) && (Partial(h) ==> j == |low|)
  {
    hide Match, Recognise, FieldChar, TokenOf, IsToken;
    PrefixLetters(low);
    LetterStates(low);
    LetterStates(low + [TokenOf(ch)]);
    FieldMatches(Recognise(low), i, ch);
    WordStep("upgrade", low, i, ch, MatchUpgrade, HUpgrade);
  }

  predicate IsPrefix(low: string) {
    low <= "connection" || low <= "content-length" || low <= "proxy-connection" || low <= "transfer-encoding" ||
      low <= "upgrade"
  }

  lemma PrefixGone(low: string, b: char)
    requires !IsPrefix(low)
    ensures !IsPrefix(low + [b])
  {
    PrefixSnoc("connection", low, b);
    PrefixSnoc("content-length", low, b);
    PrefixSnoc("proxy-connection", low, b);
    PrefixSnoc("transfer-encoding", low, b);
    PrefixSnoc("upgrade", low, b);
  }

  lemma NotRecognised(low: string)
    requires low != "" && !IsPrefix(low)
    ensures Recognise(low) == General
  {
  }

  lemma StepGeneral(low: string, i: nat, ch: char)
    requires low != "" && IsToken(ch) && !IsPrefix(low)
    requires Partial(Recognise(low)) ==> i == |low| - 1
    ensures var (h, j) := FieldChar(Recognise(low), i, ch);
            h == Recognise(low + [TokenOf(ch)]) && (Partial(h) ==> j == |low|)
  {
    hide Recognise, IsPrefix, Match;
    PrefixGone(low, TokenOf(ch));
    NotRecognised(low);
    NotRecognised(low + [TokenOf(ch)]);
  }

  lemma StepShort(low: string, i: nat, ch: char)
    requires low != "" && |low| <= 3 && IsToken(ch) && low <= "connection" && i == |low| - 1
    ensures var (h, j) := FieldChar(Recognise(low), i, ch);
            h == Recognise(low + [TokenOf(ch)]) && (Partial(h) ==> j == |low|)
  {
    var b := TokenOf(ch);
    var next := low + [b];
    PrefixLetters(next);
    assert next[0] == low[0] == 'c';
    PrefixSnoc("connection", low, b);
    if |low| == 3 {
      PrefixSnoc("content-length", low, b);
      assert low == "connection"[..3] == "con" == "content-length"[..3];
    }
    hide Match;
  }

  /** After a name the header state stands for exactly that name, in either case. */
  lemma {:induction false} StateStandsFor(s: string)
    requires IsName(s)
    ensures StateAfter(s).0 == Recognise(LowName(s)) && (Partial(StateAfter(s).0) ==> StateAfter(s).1 == |s| - 1)
    decreases |s|
  {
    hide FieldChar, Recognise, TokenOf;
    if |s| == 1 {
      FirstLetter(s[0]);
      assert LowName(s) == [TokenOf(s[0])];
    } else {
      var r := s[..|s| - 1];
      StateStandsFor(r);
      var low, i, ch := LowName(r), StateAfter(r).1, s[|s| - 1];
      PrefixLetters(low);
      if |low| <= 3 && low <= "connection" {
        ShortIsPartial(low);
        StepShort(low, i, ch);
      } else if low <= "connection" {
        StepConnection(low, i, ch);
      } else if low <= "content-length" {
        StepLength(low, i, ch);
      } else if low <= "proxy-connection" {
        StepProxy(low, i, ch);
      } else if low <= "transfer-encoding" {
        StepTransfer(low, i, ch);
      } else if low <= "upgrade" {
        StepUpgrade(low, i, ch);
      } else {
        StepGeneral(low, i, ch);
      }
    }
  }

  lemma ShortIsPartial(low: string)
    requires low != "" && |low| <= 3 && low <= "connection"
    ensures Partial(Recognise(low))
  {
  }

  lemma FirstLetter(ch: char)
    requires IsToken(ch)
    ensures FieldStart(ch) == Recognise([TokenOf(ch)])
  {
    var low := [TokenOf(ch)];
    PrefixLetters(low);
    PrefixSnoc("connection", "", low[0]);
    PrefixSnoc("proxy-connection", "", low[0]);
    PrefixSnoc("transfer-encoding", "", low[0]);
    PrefixSnoc("upgrade", "", low[0]);
    assert "" + low == low;
  }

  /** The recogniser names a special header exactly when the name, in any case, is that header. */
  lemma HeaderRecognised(s: string)
    requires IsName(s)
    ensures StateAfter(s).0.HConnection? <==> LowName(s) == "connection" || LowName(s) == "proxy-connection"
    ensures StateAfter(s).0.HLength? <==> LowName(s) == "content-length"
    ensures StateAfter(s).0.HTransfer? <==> LowName(s) == "transfer-encoding"
    ensures StateAfter(s).0.HUpgrade? <==> LowName(s) == "upgrade"
  {
    hide StateAfter, LowName;
    StateStandsFor(s);
    PrefixLetters(LowName(s));
  }

  /** The parser inside the name `s`. */
  function InNameOf(c: Core, s: string): Core
    requires IsName(s)
  {
    c.(state := HeaderField, hs := StateAfter(s).0, index := StateAfter(s).1)
  }

  lemma NameStartRun(c: Core, t: Trace, ch: char, skip: SkipPolicy)
    requires c.state.HeaderFieldStart? && IsToken(ch)
    ensures Run(c, t, [ch], skip) ==
            Final(c.(state := HeaderField, hs := FieldStart(ch), index := 0),
                  Emit(t, Data(FieldData, [ch])), "", Running)
  {
    hide FieldStart, FieldChar, Emit, StartStep, MethodStep, ResponseLineStep, UrlStep, RequestLineStep, ValueStep,
      HeadersEndStep, BodyStep, ChunkSizeStep;
    RunUnfold(c, t, [ch], skip, Switch(c, ch));
  }

  lemma NameCharRun(c: Core, t: Trace, ch: char, skip: SkipPolicy)
    requires c.state.HeaderField? && IsToken(ch)
    ensures var (h, i) := FieldChar(c.hs, c.index, ch);
            Run(c, t, [ch], skip) == Final(c.(hs := h, index := i), Emit(t, Data(FieldData, [ch])), "", Running)
  {
    hide FieldStart, FieldChar, Emit, StartStep, MethodStep, ResponseLineStep, UrlStep, RequestLineStep, ValueStep,
      HeadersEndStep, BodyStep, ChunkSizeStep;
    RunUnfold(c, t, [ch], skip, Switch(c, ch));
  }

  /** Reading a header name delivers it and leaves the recogniser in the state that stands for it. */
  lemma {:induction false} NameRun(c: Core, t: Trace, s: string, skip: SkipPolicy)
    requires c.state.HeaderFieldStart? && IsName(s)
    ensures Run(c, t, s, skip) == Final(InNameOf(c, s), Emit(t, Data(FieldData, s)), "", Running)
    decreases |s|
  {
    hide Run, FieldStart, FieldChar, Emit;
    var i := |s| - 1;
    if i == 0 {
      assert s == [s[0]];
      NameStartRun(c, t, s[0], skip);
    } else {
      var r := s[..i];
      NameRun(c, t, r, skip);
      RunConcat(c, t, r, [s[i]], skip);
      NameCharRun(InNameOf(c, r), Emit(t, Data(FieldData, r)), s[i], skip);
      EmitTwice(t, FieldData, r, [s[i]]);
      assert r + [s[i]] == s;
    }
  }

  // ----- Content-Length -----

  /** The largest Content-Length that the overflow guard lets through. */
  const LENGTH_LIMIT: nat := 18446744073709551609

  predicate IsLength(v: string) {
    v != "" && IsNum(v[0]) && forall i | 0 <= i < |v| :: IsNum(v[i]) || v[i] == ' '
  }

  /** The decimal value of the digits, embedded spaces skipped. */
  function Decimal(v: string): nat
    requires forall i | 0 <= i < |v| :: IsNum(v[i]) || v[i] == ' '
  {
    if v == "" then 0
    else if v[|v| - 1] == ' ' then Decimal(v[..|v| - 1])
    else Decimal(v[..|v| - 1]) * 10 + Digit(v[|v| - 1])
  }

  /** The parser inside a Content-Length value that is `n` so far. */
  function InLength(c: Core, n: nat): Core {
    c.(state := HeaderValue, index := 0, hs := HLength, length := n)
  }

  lemma LengthStartRun(c: Core, t: Trace, ch: char, skip: SkipPolicy)
    requires c.state.ValueDiscardWs? && c.hs.HLength? && ch != ' ' && ch != '\t' && ch != CR && ch != LF
    ensures var r := Run(c, t, [ch], skip);
            if IsNum(ch) then r == Final(InLength(c, Digit(ch)), Emit(t, Data(ValueData, [ch])), "", Running)
            else r.halt == Failed(InvalidContentLength)
  {
    hide ValueChar, Emit, StartStep, MethodStep, ResponseLineStep, UrlStep, RequestLineStep, NameStep, HeadersEndStep,
      BodyStep, ChunkSizeStep;
    RunUnfold(c, t, [ch], skip, Switch(c, ch));
  }

  lemma LengthCharRun(c: Core, n: nat, t: Trace, ch: char, skip: SkipPolicy)
    requires n <= LENGTH_LIMIT && ch != CR && ch != LF
    ensures var r := Run(InLength(c, n), t, [ch], skip);
            if ch == ' ' then r == Final(InLength(c, n), Emit(t, Data(ValueData, [ch])), "", Running)
            else if IsNum(ch) && n * 10 + Digit(ch) <= LENGTH_LIMIT then
              r == Final(InLength(c, n * 10 + Digit(ch)), Emit(t, Data(ValueData, [ch])), "", Running)
            else r.halt == Failed(InvalidContentLength)
  {
    hide ValueStartStep, Emit, StartStep, MethodStep, ResponseLineStep, UrlStep, RequestLineStep, NameStep,
      HeadersEndStep, BodyStep, ChunkSizeStep;
    RunUnfold(InLength(c, n), t, [ch], skip, Switch(InLength(c, n), ch));
  }

  lemma LengthOne(ch: char)
    requires ch != ' '
    ensures IsLength([ch]) <==> IsNum(ch)
    ensures IsLength([ch]) ==> Decimal([ch]) == Digit(ch)
  {
    assert [ch][0] == ch;
  }

  lemma LengthSnoc(u: string, ch: char)
    requires u != ""
    ensures IsLength(u + [ch]) <==> IsLength(u) && (IsNum(ch) || ch == ' ')
    ensures IsLength(u + [ch]) ==> Decimal(u + [ch]) == if ch == ' ' then Decimal(u) else Decimal(u) * 10 + Digit(ch)
  {
    var v := u + [ch];
    assert v[..|v| - 1] == u && v[|u|] == ch && forall j | 0 <= j < |u| :: u[j] == v[j];
  }

  /** Whether a value is read as it should be. */
  predicate LengthReads(c: Core, t: Trace, v: string, skip: SkipPolicy) {
    var r := Run(c, t, v, skip);
    if IsLength(v) && Decimal(v) <= LENGTH_LIMIT
    then r == Final(InLength(c, Decimal(v)), Emit(t, Data(ValueData, v)), "", Running)
    else r.halt == Failed(InvalidContentLength)
  }

  /**
   A Content-Length value is accepted exactly when it is made of digits and embedded spaces and its decimal
   value is within the guard; then that value is the length, without wrap-around and below the sentinel.
   */
  lemma {:induction false} LengthRun(c: Core, t: Trace, v: string, skip: SkipPolicy)
    requires c.state.ValueDiscardWs? && c.hs.HLength? && v != "" && v[0] != ' ' && v[0] != '\t' && CR !in v && LF !in v
    ensures LENGTH_LIMIT < ULLONG_MAX
    ensures LengthReads(c, t, v, skip)
    decreases |v|
  {
    hide Run, Emit, InLength, Decimal, IsLength;
    var i := |v| - 1;
    assert v[i] in v && v[0] in v;
    if i == 0 {
      assert v == [v[0]];
      LengthFirst(c, t, v[0], skip);
    } else {
      assert v[..i] + [v[i]] == v;
      LengthRun(c, t, v[..i], skip);
      LengthOn(c, t, v[..i], v[i], skip);
    }
  }

  lemma LengthFirst(c: Core, t: Trace, ch: char, skip: SkipPolicy)
    requires c.state.ValueDiscardWs? && c.hs.HLength? && ch != ' ' && ch != '\t' && ch != CR && ch != LF
    ensures LengthReads(c, t, [ch], skip)
  {
    hide Run, Emit, InLength, Decimal, IsLength;
    LengthOne(ch);
    LengthStartRun(c, t, ch, skip);
  }

  lemma LengthOn(c: Core, t: Trace, u: string, ch: char, skip: SkipPolicy)
    requires LengthReads(c, t, u, skip) && u != "" && ch != CR && ch != LF
    ensures LengthReads(c, t, u + [ch], skip)
  {
    hide Run, Emit, InLength, Decimal;
    LengthSnoc(u, ch);
    RunConcat(c, t, u, [ch], skip);
    if IsLength(u) && Decimal(u) <= LENGTH_LIMIT {
      LengthCharRun(c, Decimal(u), Emit(t, Data(ValueData, u)), ch, skip);
      EmitTwice(t, ValueData, u, [ch]);
    }
  }

  // ----- chunk sizes -----

  /** The largest chunk size that the overflow guard lets through. */
  const CHUNK_LIMIT: nat := 0xFFFF_FFFF_FFFF_FFEF

  function Hex(v: string): nat
    requires forall i | 0 <= i < |v| :: Unhex(v[i]) != -1
  {
    if v == "" then 0 else Hex(v[..|v| - 1]) * 16 + Unhex(v[|v| - 1])
  }

  lemma ChunkStartRun(c: Core, t: Trace, ch: char, skip: SkipPolicy)
    requires c.state.ChunkSizeStart? && Unhex(ch) != -1
    ensures Run(c, t, [ch], skip) == Final(c.(state := ChunkSize, length := Unhex(ch)), t, "", Running)
  {
    hide Unhex, StartStep, MethodStep, ResponseLineStep, UrlStep, RequestLineStep, NameStep, ValueStep, HeadersEndStep,
      BodyStep;
    RunUnfold(c, t, [ch], skip, Switch(c, ch));
  }

  lemma ChunkDigitRun(c: Core, t: Trace, ch: char, skip: SkipPolicy)
    requires c.state.ChunkSize? && Unhex(ch) != -1 && c.length <= CHUNK_LIMIT
    ensures var r := Run(c, t, [ch], skip);
            if c.length * 16 + Unhex(ch) <= CHUNK_LIMIT then
              r == Final(c.(length := c.length * 16 + Unhex(ch)), t, "", Running)
            else r.halt == Failed(InvalidContentLength)
  {
    hide Run, Switch;
    ChunkDigitActs(c, ch);
    ByteRun(c, t, ch, skip, Switch(c, ch));
  }

  lemma ChunkDigitActs(c: Core, ch: char)
    requires c.state.ChunkSize? && Unhex(ch) != -1 && c.length <= CHUNK_LIMIT
    ensures var a := Switch(c, ch);
            if c.length * 16 + Unhex(ch) <= CHUNK_LIMIT then a == Next(c.(length := c.length * 16 + Unhex(ch)))
            else a.Fail? && a.errno.InvalidContentLength?
  {
    assert ch != CR;
    hide Unhex;
  }

  /**
   A chunk size is accepted exactly when it is within the guard; then it is the hexadecimal value, without
   wrap-around.
   */
  lemma {:induction false} ChunkSizeRun(c: Core, t: Trace, v: string, skip: SkipPolicy)
    requires c.state.ChunkSizeStart? && v != "" && forall i | 0 <= i < |v| :: Unhex(v[i]) != -1
    ensures CHUNK_LIMIT < ULLONG_MAX
    ensures var r := Run(c, t, v, skip);
            if Hex(v) <= CHUNK_LIMIT then r == Final(c.(state := ChunkSize, length := Hex(v)), t, "", Running)
            else r.halt == Failed(InvalidContentLength)
    decreases |v|
  {
    hide Run, Unhex;
    var i := |v| - 1;
    if i == 0 {
      assert v == [v[0]];
      ChunkStartRun(c, t, v[0], skip);
    } else {
      var u := v[..i];
      ChunkSizeRun(c, t, u, skip);
      RunConcat(c, t, u, [v[i]], skip);
      assert u + [v[i]] == v;
      if Hex(u) <= CHUNK_LIMIT {
        ChunkDigitRun(c.(state := ChunkSize, length := Hex(u)), t, v[i], skip);
      }
    }
  }
}
