/**
 Whole streams, fed to the parser in pieces: what is reported and counted does not depend on how the stream is cut, nor
 on where callbacks pause the parser.
 */
module HttpFeeding {
  import opened HttpChars
  import opened HttpMachine
  import opened HttpInvariants
  import opened HttpCounting
  import opened HttpRuns
  import opened HttpParsing

  function Flatten(pieces: seq<string>): string {
    if pieces == [] then "" else pieces[0] + Flatten(pieces[1..])
  }

  predicate Feedable(pieces: seq<string>) {
    forall i | 0 <= i < |pieces| :: pieces[i] != "" && Countable(pieces[i])
  }

  /** Callbacks that return 0, respectively that never pause the parser. */
  ghost predicate NeverRefuses(cb: Callbacks) {
    forall log :: !cb.reply(log).Refuse?
  }

  ghost predicate NeverPauses(cb: Callbacks) {
    forall log :: !cb.reply(log).Pause?
  }

  /** Whether feeding goes on: no error, and no switch to another protocol. */
  predicate Going(parser: HttpParser)
    reads parser
  {
    parser.errno.OK? && !Left(parser.core, Merge(parser.log))
  }

  /** The counter after a call on all of these bytes. */
  function Restart(g: Track): Meter {
    Meter(g.end.c, g.end.t, CountOf(g), true, false)
  }

  /** Whether feeding these pieces, with callbacks that do not pause, exceeds the header limit. */
  predicate Overflows(s: Meter, pieces: seq<string>, skip: SkipPolicy)
    decreases |pieces|
  {
    pieces != [] &&
    var g := Gauge(s, pieces[0], skip);
    Peak(g) > HTTP_MAX_HEADER_SIZE || (g.running && Overflows(Restart(g), pieces[1..], skip))
  }

  lemma AgreesTrans(o: Point, x: string, p: Point, y: string, q: Point, z: string, w: string, skip: SkipPolicy)
    requires Agrees(o, x, p, y + w, skip) && Agrees(p, y, q, z, skip)
    ensures Agrees(o, x, q, z + w, skip)
  {
    hide Switch, Run;
    forall v: string
      ensures Run(o.c, o.t, x + v, skip) == Run(q.c, q.t, z + w + v, skip)
    {
      assert y + w + v == y + (w + v) && z + w + v == z + (w + v);
    }
  }

  lemma EndsTrans(o: Point, x: string, p: Point, y: string, f: Final, w: string, skip: SkipPolicy)
    requires Agrees(o, x, p, y + w, skip) && Ends(p, y, f, skip)
    ensures Ends(o, x, f.(left := f.left + w), skip)
  {
    hide Switch, Run;
    forall v: string
      ensures Run(o.c, o.t, x + v, skip) == f.(left := f.left + w + v)
    {
      assert y + w + v == y + (w + v) && f.left + w + v == f.left + (w + v);
    }
  }

  lemma ReportsTrans(o: Point, x: string, p: Point, y: string, w: string, t: Trace, skip: SkipPolicy)
    requires Agrees(o, x, p, y + w, skip) && Reports(p, y, t, skip)
    ensures Reports(o, x, t, skip)
  {
    hide Switch, Run, Below;
    forall v: string
      ensures Below(t, Run(o.c, o.t, x + v, skip).t)
    {
      assert y + w + v == y + (w + v);
    }
  }

  /** Where feeding the stream `all` from `o` has got to, with `left` not consumed. */
  ghost predicate Fed(parser: HttpParser, o: Point, all: string, left: string, skip: SkipPolicy)
    reads parser
  {
    var t := Merge(parser.log);
    if parser.errno.OK? then
      if Left(parser.core, t) then Ends(o, all, Final(parser.core, t, left, Upgraded), skip)
      else parser.Valid() && Agrees(o, all, Point(parser.core, t), left, skip)
    else if parser.errno.Callback? || parser.errno.HeaderOverflow? then Reports(o, all, t, skip)
    else exists u :: Undelivered(t, u) && Ends(o, all, Final(parser.core, u, left, Failed(parser.errno)), skip)
  }

  /**
   The balance of the calls made so far: `cost` bounds how much higher the count may be than that of the stream,
   `gone` is the number of header bytes that are behind for good, and `ends` the number of calls that ended with their
   buffer. `mid` says that the last call was paused in the middle of a byte, which is looked at again.
   */
  datatype Ledger = Ledger(cost: nat, gone: nat, ends: nat, mid: bool)

  /** Every header byte accounts for at most three calls that were paused in the middle of it: they lower the rank. */
  predicate Balanced(u: Ledger, state: State) {
    u.cost <= 3 * u.gone + u.ends + if u.mid && ParsingHeader(state) then 3 - Rank(state) else 0
  }

  /** After a call on `len` bytes that went from the state `p` to `e` and consumed `n`. */
  function Booked(u: Ledger, p: State, e: State, n: nat, len: nat, mid: bool): Ledger {
    Ledger(u.cost + if n == len || (mid && ParsingHeader(e)) then 1 else 0,
           u.gone + if !(n == 0 && ParsingHeader(e)) && ParsingHeader(p) then 1 else 0,
           u.ends + if n == len then 1 else 0,
           mid)
  }

  lemma BookedBalanced(u: Ledger, p: State, e: State, n: nat, len: nat, mid: bool)
    requires Balanced(u, p) && n <= len && 0 < len
    requires if mid then n < len && Rank(e) < 3 else n > 0
    requires n == 0 ==> Rank(e) < Rank(p) && (ParsingHeader(e) ==> ParsingHeader(p))
    ensures Balanced(Booked(u, p, e, n, len, mid), e)
  {
    hide Rank, ParsingHeader;
    RankBound(p);
  }

  /** How much more has been counted of the stream `all` from `s` on, with `left` not consumed. */
  ghost predicate Weighed(parser: HttpParser, s: Meter, all: string, left: string, u: Ledger, skip: SkipPolicy)
    reads parser
  {
    && (Going(parser) ==>
          && Balanced(u, parser.core.state)
          && Light(s, all, parser.Rested(), left, u.cost, skip)
          && Fewer(s, all, parser.Rested(), left, u.gone, 0, skip))
    && (parser.errno.HeaderOverflow? ==> OverBy(s, all, u, skip))
  }

  /** The limit is exceeded by no more than the header bytes and the calls account for. */
  ghost predicate OverBy(s: Meter, all: string, u: Ledger, skip: SkipPolicy) {
    var g := Gauge(s, all, skip);
    g.most + u.cost > HTTP_MAX_HEADER_SIZE && u.cost <= 3 * g.looks + u.ends
  }

  /**
   Whether a stream fed in so many pieces stays within the header limit wherever callbacks pause: each piece can raise
   the count by one, and each header byte by three.
   */
  predicate Roomy(s: Meter, all: string, pieces: nat, skip: SkipPolicy) {
    var g := Gauge(s, all, skip);
    g.most + 3 * g.looks + pieces <= HTTP_MAX_HEADER_SIZE
  }

  /** In particular every stream that is short enough. */
  lemma ShortRoomy(s: Meter, all: string, pieces: nat, skip: SkipPolicy)
    requires s.n + 4 * |all| + pieces <= HTTP_MAX_HEADER_SIZE
    ensures Roomy(s, all, pieces, skip)
  {
    hide Gauge;
    MostBound(s, all, skip);
    LooksBound(s, all, skip);
  }

  /** A call that exceeds the limit does so because of the stream. */
  lemma OverWeight(s: Meter, all: string, p: Meter, rest: string, w: string, u: Ledger, skip: SkipPolicy)
    requires Light(s, all, p, rest + w, u.cost, skip) && Fewer(s, all, p, rest + w, u.gone, 0, skip)
    requires rest != "" && p.first && Balanced(u, p.c.state) && Peak(Gauge(p, rest, skip)) > HTTP_MAX_HEADER_SIZE
    ensures OverBy(s, all, Ledger(u.cost + 1, u.gone, u.ends + 1, false), skip)
  {
    hide Gauge, Switch, Deliver, Rank;
    assert all + "" == all && rest + w + "" == rest + w;
    assert Gauge(p, rest + w + "", skip).most <= Gauge(s, all + "", skip).most + u.cost;
    assert Gauge(p, rest + w + "", skip).looks + u.gone <= Gauge(s, all + "", skip).looks;
    PeakMost(p, rest, skip);
    GaugeConcat(p, rest, w, skip);
    var a := Switch(p.c, rest[0]);
    GaugeUnfold(p, rest, skip, a, Deliver(a, p.t, rest[0], skip));
  }

  /** One call on `rest`, unpausing afterwards; `w` is what is fed later. */
  method FeedOnce(parser: HttpParser, rest: string, cb: Callbacks, ghost s: Meter, ghost all: string, ghost w: string,
                  ghost u: Ledger)
    returns (n: nat, ghost v: Ledger)
    requires rest != "" && Countable(rest) && Going(parser)
    requires Fed(parser, Origin(s), all, rest + w, cb.skip) && Weighed(parser, s, all, rest + w, u, cb.skip)
    modifies parser
    ensures n <= |rest| && !parser.errno.Paused? && old(parser.log) <= parser.log
    ensures parser.errno.Callback? ==> cb.reply(parser.log).Refuse?
    ensures Fed(parser, Origin(s), all, rest[n..] + w, cb.skip)
    ensures Weighed(parser, s, all, rest[n..] + w, v, cb.skip)
    ensures v.cost <= u.cost + 1 && v.ends <= u.ends + if Going(parser) && n < |rest| then 0 else 1
    ensures Going(parser) ==> n > 0 || Rank(parser.core.state) < Rank(old(parser.core.state))
    ensures Going(parser) && n < |rest| ==> |old(parser.log)| < |parser.log| && cb.reply(parser.log).Pause?
    ensures NeverPauses(cb) && !parser.errno.Callback? ==> Gauged(parser, old(parser.Rested()), rest, cb.skip)
  {
    hide Switch, Run, Gauge, Light, Fewer, Agrees, Ends, Reports, Rank, Merge, Undelivered, ParsingHeader;
    ghost var p, mid := parser.Rested(), false;
    n, mid := parser.Execute(rest, cb);
    v := Ledger(u.cost + 1, u.gone, u.ends + 1, false);
    if parser.errno.OK? || parser.errno.Paused? {
      v := FeedOn(parser, rest, n, mid, s, all, p, w, u, cb.skip);
      if parser.errno.OK? {
        CallEnds(parser, p, rest, n, mid, cb.skip);
      }
      parser.SetPaused(false);
    } else if parser.errno.Callback? || parser.errno.HeaderOverflow? {
      if parser.errno.HeaderOverflow? {
        OverWeight(s, all, p, rest, w, u, cb.skip);
      }
      ReportsTrans(Origin(s), all, Origin(p), rest, w, Merge(parser.log), cb.skip);
    } else {
      ghost var t := Merge(parser.log);
      CallEnds(parser, p, rest, n, mid, cb.skip);
      ghost var d :| Undelivered(t, d) &&
        Ends(Origin(p), rest, Final(parser.core, d, rest[n..], Failed(parser.errno)), cb.skip);
      EndsTrans(Origin(s), all, Origin(p), rest, Final(parser.core, d, rest[n..], Failed(parser.errno)), w, cb.skip);
    }
  }

  /** The balance after a call that did not fail, and the stream from there on. */
  lemma FeedOn(parser: HttpParser, rest: string, n: nat, mid: bool, s: Meter, all: string, p: Meter, w: string,
               u: Ledger, skip: SkipPolicy)
    returns (v: Ledger)
    requires rest != "" && n <= |rest| && (parser.errno.OK? || parser.errno.Paused?)
    requires parser.Outcome(Origin(p), rest, n, skip) && parser.Counted(p, rest, n, mid, skip)
    requires n == 0 && parser.errno.Paused? ==>
      mid && Rank(parser.core.state) < Rank(p.c.state) &&
        (ParsingHeader(parser.core.state) ==> ParsingHeader(p.c.state))
    requires Balanced(u, p.c.state) && Light(s, all, p, rest + w, u.cost, skip) &&
      Fewer(s, all, p, rest + w, u.gone, 0, skip)
    requires Agrees(Origin(s), all, Origin(p), rest + w, skip)
    ensures v.cost <= u.cost + 1 && v.ends <= u.ends + if n == |rest| then 1 else 0
    ensures var t := Merge(parser.log);
      if Left(parser.core, t) then Ends(Origin(s), all, Final(parser.core, t, rest[n..] + w, Upgraded), skip)
      else
        && Agrees(Origin(s), all, Point(parser.core, t), rest[n..] + w, skip) && Balanced(v, parser.core.state)
        && Light(s, all, parser.Rested(), rest[n..] + w, v.cost, skip)
        && Fewer(s, all, parser.Rested(), rest[n..] + w, v.gone, 0, skip)
  {
    hide Switch, Run, Gauge, Light, Fewer, Agrees, Ends, Reports, Rank, Merge, Undelivered, ParsingHeader, CoreInv,
      Fits;
    var t, e := Merge(parser.log), parser.Rested();
    v := Booked(u, p.c.state, e.c.state, n, |rest|, mid);
    if Left(parser.core, t) {
      EndsTrans(Origin(s), all, Origin(p), rest, Final(parser.core, t, rest[n..], Upgraded), w, skip);
    } else {
      AgreesTrans(Origin(s), all, Origin(p), rest, Point(parser.core, t), rest[n..], w, skip);
      LightTrans(s, all, p, rest, w, e, rest[n..], u.cost, v.cost - u.cost, skip);
      FewerEven(p, rest, e, rest[n..], v.gone - u.gone, if n == 0 && ParsingHeader(e.c.state) then 1 else 0, skip);
      FewerTrans(s, all, p, rest, w, e, rest[n..], u.gone, v.gone - u.gone, 0, skip);
      BookedBalanced(u, p.c.state, e.c.state, n, |rest|, mid);
    }
  }

  /** The counter at the end of a call that was not paused. */
  lemma CallEnds(parser: HttpParser, p: Meter, data: string, n: nat, mid: bool, skip: SkipPolicy)
    requires n <= |data| && parser.Outcome(Origin(p), data, n, skip) && parser.Counted(p, data, n, mid, skip)
    requires !parser.errno.Paused? && !parser.errno.Callback? && !parser.errno.HeaderOverflow?
    ensures var g := Gauge(p, data, skip);
      && (Going(parser) ==> g.running && parser.Rested() == Restart(g))
      && (!Going(parser) ==> !g.running)
  {
    hide Switch, Gauge, Light, Merge, Undelivered;
    GaugeRun(p, data, skip);
    assert data + "" == data && data[n..] + "" == data[n..];
    if parser.errno.OK? && !Left(parser.core, Merge(parser.log)) {
      assert Run(p.c, p.t, data + "", skip) == Run(parser.core, Merge(parser.log), data[n..] + "", skip);
      assert data[n..] == "";
    }
  }

  /** What one buffer does to the counter if nothing pauses. */
  ghost predicate Gauged(parser: HttpParser, p: Meter, piece: string, skip: SkipPolicy)
    reads parser
  {
    var g := Gauge(p, piece, skip);
    && (parser.errno.HeaderOverflow? <==> Peak(g) > HTTP_MAX_HEADER_SIZE)
    && (Going(parser) ==> g.running && parser.Rested() == Restart(g))
    && (!Going(parser) && !parser.errno.HeaderOverflow? ==> !g.running)
  }

  /** Feeds one buffer: a paused parser is resumed with the bytes it has not consumed. */
  method FeedPiece(parser: HttpParser, piece: string, cb: Callbacks, ghost s: Meter, ghost all: string, ghost w: string,
                   ghost u: Ledger)
    returns (left: string, calls: nat, ghost v: Ledger)
    requires piece != "" && Countable(piece) && Going(parser)
    requires Fed(parser, Origin(s), all, piece + w, cb.skip) && Weighed(parser, s, all, piece + w, u, cb.skip)
    modifies parser
    ensures !parser.errno.Paused? && old(parser.log) <= parser.log && (Going(parser) ==> left == "")
    ensures parser.errno.Callback? ==> cb.reply(parser.log).Refuse?
    ensures Fed(parser, Origin(s), all, left + w, cb.skip) && Weighed(parser, s, all, left + w, v, cb.skip)
    ensures calls <= 1 + |parser.log| - |old(parser.log)| && (NeverPauses(cb) ==> calls == 1)
    ensures calls <= 4 * (|piece| + 1) && v.cost <= u.cost + calls && v.ends <= u.ends + 1
    ensures NeverPauses(cb) && !parser.errno.Callback? ==> Gauged(parser, old(parser.Rested()), piece, cb.skip)
  {
    hide Switch, Run, Gauge, Light, Agrees, Ends, Reports, Rank, Merge, Undelivered, Fed, Weighed;
    left, calls, v := piece, 0, u;
    RankBound(parser.core.state);
    while left != ""
      invariant |left| <= |piece| && Going(parser) && old(parser.log) <= parser.log
      invariant Fed(parser, Origin(s), all, left + w, cb.skip) && Weighed(parser, s, all, left + w, v, cb.skip)
      invariant calls <= |parser.log| - |old(parser.log)| + if left == "" then 1 else 0
      invariant calls + Rank(parser.core.state) <= 4 * (|piece| - |left|) + 3
      invariant v.cost <= u.cost + calls && v.ends <= u.ends + if left == "" then 1 else 0
      invariant NeverPauses(cb) ==>
        if left == "" then calls == 1 && Gauged(parser, old(parser.Rested()), piece, cb.skip)
                                    else calls == 0 && left == piece && parser.Rested() == old(parser.Rested())
      decreases |left|, Rank(parser.core.state)
    {
      var n;
      n, v := FeedOnce(parser, left, cb, s, all, w, v);
      RankBound(parser.core.state);
      left, calls := left[n..], calls + 1;
      if !Going(parser) {
        break;
      }
    }
  }

  /**
   Feeds a stream in pieces, stopping at an error or when the stream switches protocol. `left` is what has not been
   consumed and `calls` counts the calls of `http_parser_execute`: one for each piece and one more for each pause, of
   which there are at most four for a byte. With callbacks that neither refuse nor pause the header limit is exceeded
   exactly if the count of the pieces says so. Whatever the callbacks, it is not exceeded if the header bytes and the
   calls are together within it, nor if the stream has room for every pause.
   */
  method Feed(parser: HttpParser, pieces: seq<string>, cb: Callbacks) returns (left: string, calls: nat)
    requires Going(parser) && parser.Valid() && Feedable(pieces)
    modifies parser
    ensures Fed(parser, old(Point(parser.core, Merge(parser.log))), Flatten(pieces), left, cb.skip)
    ensures !parser.errno.Paused? && (Going(parser) ==> left == "") && old(parser.log) <= parser.log
    ensures parser.errno.Callback? ==> cb.reply(parser.log).Refuse?
    ensures calls <= |pieces| + |parser.log| - |old(parser.log)| && (NeverPauses(cb) ==> calls <= |pieces|)
    ensures calls <= 4 * (|Flatten(pieces)| + |pieces|)
    ensures Gauge(old(parser.Rested()), Flatten(pieces), cb.skip).most + calls <= HTTP_MAX_HEADER_SIZE ==>
              !parser.errno.HeaderOverflow?
    ensures Roomy(old(parser.Rested()), Flatten(pieces), |pieces|, cb.skip) ==> !parser.errno.HeaderOverflow?
    ensures NeverPauses(cb) && !parser.errno.Callback? ==>
              (parser.errno.HeaderOverflow? <==> Overflows(old(parser.Rested()), pieces, cb.skip))
  {
    hide Switch, Run, Gauge, Light, Agrees, Ends, Reports, Rank, Merge, Undelivered, Fed, Weighed, Roomy;
    ghost var s, all, u := parser.Rested(), Flatten(pieces), Ledger(0, 0, 0, false);
    left, calls := "", 0;
    FedStart(parser, all, cb.skip);
    for i := 0 to |pieces|
      invariant Going(parser) && left == "" && old(parser.log) <= parser.log
      invariant Fed(parser, Origin(s), all, Flatten(pieces[i..]), cb.skip)
      invariant Weighed(parser, s, all, Flatten(pieces[i..]), u, cb.skip) && u.cost <= calls && u.ends <= i
      invariant calls <= i + |parser.log| - |old(parser.log)| && (NeverPauses(cb) ==> calls <= i)
      invariant calls <= 4 * (|all| - |Flatten(pieces[i..])| + i)
      invariant NeverPauses(cb) ==>
                  Overflows(s, pieces, cb.skip) == Overflows(parser.Rested(), pieces[i..], cb.skip)
    {
      assert pieces[i..][0] == pieces[i] && pieces[i..][1..] == pieces[i + 1..];
      var k;
      left, k, u := FeedPiece(parser, pieces[i], cb, s, all, Flatten(pieces[i + 1..]), u);
      calls := calls + k;
      if !Going(parser) {
        left := left + Flatten(pieces[i + 1..]);
        StopWeighed(parser, s, all, left, u, |pieces|, calls, cb.skip);
        return;
      }
      assert "" + Flatten(pieces[i + 1..]) == Flatten(pieces[i + 1..]);
    }
    StopWeighed(parser, s, all, left, u, |pieces|, calls, cb.skip);
  }

  lemma FedStart(parser: HttpParser, all: string, skip: SkipPolicy)
    requires Going(parser) && parser.Valid()
    ensures Fed(parser, Origin(parser.Rested()), all, all, skip)
    ensures Weighed(parser, parser.Rested(), all, all, Ledger(0, 0, 0, false), skip)
  {
    hide Switch, Run, Gauge;
    MeetsSelf(parser.Rested(), all, skip);
    LightMeets(parser.Rested(), all, parser.Rested(), all, skip);
    FewerMeets(parser.Rested(), all, parser.Rested(), all, skip);
  }

  lemma StopWeighed(parser: HttpParser, s: Meter, all: string, left: string, u: Ledger, pieces: nat, calls: nat,
                    skip: SkipPolicy)
    requires Weighed(parser, s, all, left, u, skip) && u.cost <= calls && u.ends <= pieces
    ensures Gauge(s, all, skip).most + calls <= HTTP_MAX_HEADER_SIZE ==> !parser.errno.HeaderOverflow?
    ensures Roomy(s, all, pieces, skip) ==> !parser.errno.HeaderOverflow?
  {
  }

  /** How the machine has halted, from what the caller can see. */
  ghost function HaltOf(parser: HttpParser): Halt
    reads parser
  {
    if !parser.errno.OK? then Failed(parser.errno)
    else if Left(parser.core, Merge(parser.log)) then Upgraded
    else Running
  }

  /** Feeding ends where the byte-by-byte machine ends; on a parse error marked data may be left undelivered. */
  lemma FedResult(parser: HttpParser, o: Point, all: string, left: string, skip: SkipPolicy)
    requires Fed(parser, o, all, left, skip) && !parser.errno.Callback? && !parser.errno.HeaderOverflow?
    requires Going(parser) ==> left == ""
    ensures exists u :: && Undelivered(Merge(parser.log), u) && (parser.errno.OK? ==> u == Merge(parser.log))
                        && Run(o.c, o.t, all, skip) == Final(parser.core, u, left, HaltOf(parser))
  {
    var t := Merge(parser.log);
    assert all + "" == all && left + "" == left && Undelivered(t, t);
    if Going(parser) {
      assert Run(o.c, o.t, all + "", skip) == Run(parser.core, t, left + "", skip);
      assert Run(parser.core, t, left, skip) == Final(parser.core, t, left, Running);
    } else if parser.errno.OK? {
      assert Run(o.c, o.t, all + "", skip) == Final(parser.core, t, left + "", Upgraded);
    } else {
      var u :| Undelivered(t, u) && Ends(o, all, Final(parser.core, u, left, Failed(parser.errno)), skip);
      assert Run(o.c, o.t, all + "", skip) == Final(parser.core, u, left + "", Failed(parser.errno));
    }
  }

  /**
   However feeding ended, also by a refusal or an overflow, what was reported is a beginning of the machine's trace.
   */
  lemma FedBelow(parser: HttpParser, o: Point, all: string, left: string, skip: SkipPolicy)
    requires Fed(parser, o, all, left, skip) && (Going(parser) ==> left == "")
    ensures Below(Merge(parser.log), Run(o.c, o.t, all, skip).t)
  {
    hide Switch, Run, Merge, Below, Undelivered;
    var t := Merge(parser.log);
    assert all + "" == all;
    if parser.errno.Callback? || parser.errno.HeaderOverflow? {
      assert Below(t, Run(o.c, o.t, all + "", skip).t);
    } else {
      FedResult(parser, o, all, left, skip);
      var u :| Undelivered(t, u) && Run(o.c, o.t, all, skip) == Final(parser.core, u, left, HaltOf(parser));
      BelowUndelivered(t, u);
    }
  }

  /**
   Split invariance and pause transparency: two parsers in the same state, fed the same stream cut differently and
   paused differently, end in the same fields, with the same error, the same bytes consumed and the same trace, unless
   a callback refuses or the header limit is exceeded; a callback error is always a refusal, and the limit is a matter
   of the stream and its pieces. In any case both report beginnings of one trace.
   */
  method FeedBoth(a: HttpParser, b: HttpParser, xs: seq<string>, ys: seq<string>, f: Callbacks, g: Callbacks)
    returns (leftA: string, leftB: string, callsA: nat, callsB: nat)
    requires a != b && Going(a) && a.Valid() && Going(b) && b.Valid()
    requires a.core == b.core && Merge(a.log) == Merge(b.log)
    requires Feedable(xs) && Feedable(ys) && Flatten(xs) == Flatten(ys) && f.skip == g.skip
    modifies a, b
    ensures (NeverRefuses(f) ==> !a.errno.Callback?) && (NeverRefuses(g) ==> !b.errno.Callback?)
    ensures !a.errno.Callback? && !b.errno.Callback? && !a.errno.HeaderOverflow? && !b.errno.HeaderOverflow? ==>
              && a.core == b.core && a.errno == b.errno && leftA == leftB
              && (a.errno.OK? ==> Merge(a.log) == Merge(b.log))
              && exists u :: Undelivered(Merge(a.log), u) && Undelivered(Merge(b.log), u)
    ensures exists u :: Below(Merge(a.log), u) && Below(Merge(b.log), u)
    ensures callsA <= |xs| + |a.log| - |old(a.log)| && (NeverPauses(f) ==> callsA <= |xs|)
    ensures callsB <= |ys| + |b.log| - |old(b.log)| && (NeverPauses(g) ==> callsB <= |ys|)
    ensures callsA <= 4 * (|Flatten(xs)| + |xs|) && callsB <= 4 * (|Flatten(ys)| + |ys|)
    ensures Gauge(old(a.Rested()), Flatten(xs), f.skip).most + callsA <= HTTP_MAX_HEADER_SIZE ==>
      !a.errno.HeaderOverflow?
    ensures Gauge(old(b.Rested()), Flatten(ys), g.skip).most + callsB <= HTTP_MAX_HEADER_SIZE ==>
      !b.errno.HeaderOverflow?
    ensures Roomy(old(a.Rested()), Flatten(xs), |xs|, f.skip) ==> !a.errno.HeaderOverflow?
    ensures Roomy(old(b.Rested()), Flatten(ys), |ys|, g.skip) ==> !b.errno.HeaderOverflow?
    ensures NeverPauses(f) && NeverRefuses(f) ==> (a.errno.HeaderOverflow? <==> Overflows(old(a.Rested()), xs, f.skip))
    ensures NeverPauses(g) && NeverRefuses(g) ==> (b.errno.HeaderOverflow? <==> Overflows(old(b.Rested()), ys, g.skip))
  {
    hide Switch, Run, Emit, Gauge, Overflows, Roomy, Fed, Undelivered, Below;
    ghost var o := Point(a.core, Merge(a.log));
    leftA, callsA := Feed(a, xs, f);
    leftB, callsB := Feed(b, ys, g);
    FedBelow(a, o, Flatten(xs), leftA, f.skip);
    FedBelow(b, o, Flatten(ys), leftB, g.skip);
    if !a.errno.Callback? && !b.errno.Callback? && !a.errno.HeaderOverflow? && !b.errno.HeaderOverflow? {
      FedResult(a, o, Flatten(xs), leftA, f.skip);
      FedResult(b, o, Flatten(ys), leftB, g.skip);
    }
  }

  // ----- the limit depends on the cuts -----

  function Letters(n: nat): (s: string)
    ensures |s| == n && forall i | 0 <= i < n :: s[i] == 'a'
  {
    seq(n, i => 'a')
  }

  /** Bytes of a name count one each, and one more at the end of the call. */
  lemma {:induction false} NameGauge(p: Meter, n: nat, skip: SkipPolicy)
    requires p.c.state.HeaderField? && p.first && n > 0
    ensures var g := Gauge(p, Letters(n), skip);
      g.running && g.end.c.state.HeaderField? && CountOf(g) == p.n + n + 1 && Peak(g) == p.n + n + 1
    decreases n
  {
    hide Switch, Deliver, Gauge;
    var s := Letters(n);
    var a := Switch(p.c, s[0]);
    var m := Deliver(a, p.t, s[0], skip);
    LetterActs(p, skip);
    GaugeUnfold(p, s, skip, a, m);
    if n == 1 {
      assert s[1..] == "";
      NoBytes(Moved(p, a, m), skip);
    } else {
      assert s[1..] == Letters(n - 1);
      NameGauge(Moved(p, a, m), n - 1, skip);
    }
  }

  lemma LetterActs(p: Meter, skip: SkipPolicy)
    requires p.c.state.HeaderField?
    ensures var a := Switch(p.c, 'a'); var m := Deliver(a, p.t, 'a', skip);
      m.ctl.Advance? && m.c.state.HeaderField? && !a.Fail?
  {
  }

  /** A short request line of HTTP/0.9, and the first letter of a header name. */
  const OPENING := "GET /\na"

  /** The steps of the parser through it: from a state, on a byte, to the next state with method and index. */
  predicate OpensTo(c: Core, ch: char, d: State, verb: Method, index: nat) {
    || (c.state.StartReq? && ch == 'G' && d.ReqMethod? && verb.GET? && index == 1)
    || (c.state.ReqMethod? && c.verb.GET? && c.index == 1 && ch == 'E' && d.ReqMethod? && verb.GET? && index == 2)
    || (c.state.ReqMethod? && c.verb.GET? && c.index == 2 && ch == 'T' && d.ReqMethod? && verb.GET? && index == 3)
    || (c.state.ReqMethod? && c.verb.GET? && c.index == 3 && ch == ' ' && d.SpacesBeforeUrl? && verb.GET? && index == 4)
    || (c.state.SpacesBeforeUrl? && c.verb.GET? && ch == '/' && d.Path? && verb.GET? && index == c.index)
    || (c.state.Path? && ch == LF && d.HeaderFieldStart? && verb == c.verb && index == c.index)
    || (c.state.HeaderFieldStart? && ch == 'a' && d.HeaderField? && verb == c.verb && index == 0)
  }

  lemma Opens(c: Core, t: Trace, ch: char, d: State, verb: Method, index: nat, skip: SkipPolicy)
    requires OpensTo(c, ch, d, verb, index)
    ensures var a := Switch(c, ch); !a.Fail? && a.c.state == d && a.c.verb == verb && a.c.index == index
    ensures var m := Deliver(Switch(c, ch), t, ch, skip); m.ctl.Advance? && m.c == Switch(c, ch).c
    ensures ParsingHeader(c.state) && !ResetsCount(c.state) && !Scans(c.state)
  {
    hide Switch;
    OpensActs(c, ch, d, verb, index);
  }

  lemma OpensActs(c: Core, ch: char, d: State, verb: Method, index: nat)
    requires OpensTo(c, ch, d, verb, index)
    ensures var a := Switch(c, ch);
      && (a.Next? || a.Mark? || a.FlushNext? || (a.NotifyNext? && !a.e.HeadersComplete?))
      && a.c.state == d && a.c.verb == verb && a.c.index == index
  {
  }

  lemma OpenStep(p: Meter, s: string, d: State, verb: Method, index: nat, skip: SkipPolicy) returns (q: Meter)
    requires s != "" && OpensTo(p.c, s[0], d, verb, index) && p.first
    ensures q.c.state == d && q.c.verb == verb && q.c.index == index && q.n == p.n + 1 && q.first && !q.scan
    ensures Gauge(p, s, skip) == Raise(Gauge(q, s[1..], skip), p.n + 1, p.n + 1, 1)
  {
    hide Switch, Deliver, Gauge, OpensTo;
    var a := Switch(p.c, s[0]);
    var m := Deliver(a, p.t, s[0], skip);
    Opens(p.c, p.t, s[0], d, verb, index, skip);
    GaugeUnfold(p, s, skip, a, m);
    q := Moved(p, a, m);
  }

  /** The whole count of a request that breaks off inside its first header name. */
  lemma OpeningGauge(n: nat, skip: SkipPolicy)
    requires n > 0
    ensures var g := Gauge(Meter(Initial(Request), [], 0, true, false), OPENING + Letters(n), skip);
      g.running && g.end.c.state.HeaderField? && CountOf(g) == n + 8 && Peak(g) == n + 8
  {
    hide Gauge;
    var s := OPENING + Letters(n);
    var p := Meter(Initial(Request), [], 0, true, false);
    assert s[0] == 'G' && s[1] == 'E' && s[2] == 'T' && s[3] == ' ' && s[4] == '/' && s[5] == LF && s[6] == 'a';
    assert forall i | 0 <= i < 7 :: s[i..][1..] == s[i + 1..];
    assert s[0..] == s && s[7..] == Letters(n);
    p := OpenStep(p, s[0..], ReqMethod, GET, 1, skip);
    p := OpenStep(p, s[1..], ReqMethod, GET, 2, skip);
    p := OpenStep(p, s[2..], ReqMethod, GET, 3, skip);
    p := OpenStep(p, s[3..], SpacesBeforeUrl, GET, 4, skip);
    p := OpenStep(p, s[4..], Path, GET, 4, skip);
    p := OpenStep(p, s[5..], HeaderFieldStart, GET, 4, skip);
    p := OpenStep(p, s[6..], HeaderField, GET, 0, skip);
    NameGauge(p, n, skip);
  }

  /**
   The header limit depends on the cuts: from a new parser, for every n, a request that breaks off inside a header name
   exceeds the limit in one call if and only if n is above a bound, and in two calls if and only if it reaches it; so at
   the bound the request is fine in one call and too long in two.
   */
  method CutsCount(n: nat, k: nat, cb: Callbacks) returns (a: HttpParser, b: HttpParser)
    requires 0 < k < n && n + 7 + HTTP_MAX_HEADER_SIZE < TWO_TO_THE_32 && NeverRefuses(cb) && NeverPauses(cb)
    ensures a.errno == if n > HTTP_MAX_HEADER_SIZE - 8 then HeaderOverflow else OK
    ensures b.errno == if n >= HTTP_MAX_HEADER_SIZE - 8 then HeaderOverflow else OK
  {
    hide Switch, Run, Gauge, Fed, Merge, Overflows, Flatten;
    var x, y := OPENING + Letters(k), Letters(n - k);
    assert x + y == OPENING + Letters(n);
    OpeningGauge(n, cb.skip);
    OpeningGauge(k, cb.skip);
    ghost var s := Meter(Initial(Request), [], 0, true, false);
    ghost var g := Gauge(s, x, cb.skip);
    NameGauge(Restart(g), n - k, cb.skip);
    TwoPieces(x, y);
    NothingMerged();
    TwoOver(s, x + y, y, cb.skip);
    TwoOver(s, x, y, cb.skip);
    TwoOver(Restart(g), y, y, cb.skip);
    a := new HttpParser(Request);
    var left, calls := Feed(a, [x + y], cb);
    if !a.errno.HeaderOverflow? {
      StillRunning(a, s, x + y, left, cb.skip);
    }
    b := new HttpParser(Request);
    left, calls := Feed(b, [x, y], cb);
    if !b.errno.HeaderOverflow? {
      StillRunning(b, s, x + y, left, cb.skip);
    }
  }

  lemma StillRunning(parser: HttpParser, s: Meter, all: string, left: string, skip: SkipPolicy)
    requires Fed(parser, Origin(s), all, left, skip) && !parser.errno.Callback? && !parser.errno.HeaderOverflow?
    requires (Going(parser) ==> left == "") && Gauge(s, all, skip).running
    ensures parser.errno.OK?
  {
    hide Switch, Run, Gauge, Fed, Merge, Undelivered;
    FedResult(parser, Origin(s), all, left, skip);
    GaugeRun(s, all, skip);
  }

  lemma TwoPieces(x: string, y: string)
    ensures Flatten([x + y]) == x + y && Flatten([x, y]) == x + y
  {
    assert [x, y][1..] == [y] && [y][1..] == [] && [x + y][1..] == [];
  }

  lemma TwoOver(s: Meter, x: string, y: string, skip: SkipPolicy)
    ensures Overflows(s, [x], skip) <==> Peak(Gauge(s, x, skip)) > HTTP_MAX_HEADER_SIZE
    ensures Overflows(s, [x, y], skip) <==>
      var g := Gauge(s, x, skip);
      Peak(g) > HTTP_MAX_HEADER_SIZE || (g.running && Overflows(Restart(g), [y], skip))
  {
    hide Gauge;
    assert [x, y][1..] == [y] && [x][1..] == [];
  }

  lemma NothingMerged()
    ensures Merge([]) == []
  {
  }
}
