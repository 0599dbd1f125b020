/**
 The buffer-driven parser `http_parser_execute`: marks into the caller's buffer, inner loops over header
 names and values, the `memchr` skip, bulk body reads, callbacks that may pause or refuse, and the header
 size limit. `Execute` is proved to implement `HttpMachine.Run` and to count as `HttpCounting.Gauge` does,
 however the stream is cut and wherever it is paused.
 */
module HttpParsing {
  import opened HttpChars
  import opened HttpMachine
  import opened HttpInvariants
  import opened HttpCounting
  import opened HttpRuns

  /** How a pass through the `switch` leaves `http_parser_execute`: in its loop, or returning a byte count. */
  datatype Flow = Go(again: bool) | Return(n: nat)

  /** C `memchr` */
  method Memchr(data: string, p: nat, limit: nat, ch: char) returns (r: int)
    requires p + limit <= |data|
    ensures r < 0 ==> ch !in data[p..p + limit]
    ensures r >= 0 ==> p <= r < p + limit && data[r] == ch && ch !in data[p..r]
  {
    r := p;
    while r < p + limit
      invariant p <= r <= p + limit && ch !in data[p..r]
    {
      if data[r] == ch {
        return;
      }
      r := r + 1;
    }
    r := -1;
  }

  class HttpParser {
    var core: Core
    var nread: nat
    var errno: Errno
    /** Every callback made so far, as it was made. */
    var log: seq<Event>

    /** `http_parser_init` */
    constructor (kind: Kind)
      ensures core == Initial(kind) && nread == 0 && errno == OK && log == []
      ensures Valid()
    {
      core, nread, errno, log := Initial(kind), 0, OK, [];
    }

    /** The state between two calls of a parser that can go on. */
    ghost predicate Valid()
      reads this
    {
      && CoreInv(core)
      && Fits(core, Merge(log))
      && nread <= HTTP_MAX_HEADER_SIZE
      && (core.state.ChunkSizeStart? ==> nread == 0)
    }

    /** `http_parser_pause` */
    method SetPaused(paused: bool)
      modifies this`errno
      ensures errno == if old(errno).OK? || old(errno).Paused? then (if paused then Paused else OK) else old(errno)
    {
      if errno.OK? || errno.Paused? {
        errno := if paused then Paused else OK;
      }
    }

    /** Callbacks are only added, and the parser stops for a callback only if its answer says so. */
    twostate predicate Answers(cb: Callbacks)
      reads this
    {
      && old(log) <= log
      && (errno.Callback? ==> |old(log)| < |log| && cb.reply(log).Refuse?)
      && (errno.Paused? ==> |old(log)| < |log| && cb.reply(log).Pause?)
    }

    /** Runs one callback. */
    method Tell(e: Event, cb: Callbacks) returns (ok: bool)
      requires errno.OK?
      modifies this`log, this`errno
      ensures log == old(log) + [e] && Merge(log) == Emit(old(Merge(log)), e)
      ensures errno == match cb.reply(log) case Proceed => OK case Pause => Paused case Refuse => Callback
      ensures ok == errno.OK? && Answers(cb)
    {
      MergeSnoc(log, e);
      log := log + [e];
      match cb.reply(log) {
        case Proceed =>
        case Pause => SetPaused(true);
        case Refuse => errno := Callback;
      }
      ok := errno.OK?;
    }

    /** COUNT_HEADER_SIZE, on a 32-bit counter. */
    method Count(v: nat) returns (ok: bool)
      requires errno.OK?
      modifies this`nread, this`errno
      ensures nread == (old(nread) + v) % TWO_TO_THE_32
      ensures nread <= old(nread) + v && (old(nread) + v < TWO_TO_THE_32 ==> nread == old(nread) + v)
      ensures ok == (nread <= HTTP_MAX_HEADER_SIZE) && errno == if ok then OK else HeaderOverflow
    {
      nread := (nread + v) % TWO_TO_THE_32;
      ok := nread <= HTTP_MAX_HEADER_SIZE;
      if !ok {
        errno := HeaderOverflow;
      }
    }

    /** CALLBACK_DATA_: delivers the bytes from the mark of `k` to `end`, if it is set, and clears it. */
    method Flush(k: DataKind, data: string, end: nat, marks: Marks, cb: Callbacks) returns (ok: bool, rest: Marks)
      requires errno.OK? && end <= |data| && (k in marks ==> marks[k] <= end)
      modifies this`log, this`errno
      ensures ok == errno.OK? && (errno.OK? || errno.Paused? || errno.Callback?) && Answers(cb)
      ensures rest == marks - {k} && (k !in marks ==> ok)
      ensures log == old(log) + if k in marks then [Data(k, data[marks[k]..end])] else []
      ensures Merge(log) ==
              if k in marks then Emit(old(Merge(log)), Data(k, data[marks[k]..end])) else old(Merge(log))
    {
      ok, rest := true, marks - {k};
      if k in marks {
        ok := Tell(Data(k, data[marks[k]..end]), cb);
      }
    }

    /** How carrying out an `Act` on the byte at `p` must agree with delivering it at once. */
    ghost predicate Performed(m: Micro, data: string, p: nat, flow: Flow, rest: Marks, before: seq<Event>)
      requires p < |data|
      reads this
    {
      && (errno.Callback? || core == m.c)
      && match flow {
        case Go(again) =>
          var q := if again then p else p + 1;
          && errno.OK? && m.ctl == (if again then Stay else Advance) && (again ==> KindOf(core.state).Nobody?)
          && MarksFit(KindOf(core.state), rest, q) && Pending(Merge(log), KindOf(core.state), rest, data, q) == m.t
        case Return(n) =>
          if m.ctl.Err? then errno == m.ctl.errno && n == p && log == before
          else
            && (errno.Paused? || errno.Callback? || (errno.OK? && m.ctl.Stop?))
            && Merge(log) == m.t && n == if m.ctl.Stay? then p else p + 1
      }
    }

    /** CALLBACK_DATA and CALLBACK_DATA_NOADVANCE. */
    method PerformFlush(a: Act, data: string, p: nat, marks: Marks, cb: Callbacks) returns (flow: Flow, rest: Marks)
      requires errno.OK? && p < |data| && MarksFit(KindOf(core.state), marks, p) && Shape(core, a)
      requires a.FlushNext? || a.FlushAgain? || a.EmptyAgain?
      modifies this`core, this`errno, this`log
      ensures Performed(Deliver(a, old(Pending(Merge(log), KindOf(core.state), marks, data, p)), data[p], cb.skip),
                        data, p, flow, rest, old(log))
      ensures Answers(cb)
    {
      core := a.c;
      var ok;
      assert data[p..p] == "";
      ok, rest := Flush(a.k, data, p, if a.EmptyAgain? then marks[a.k := p] else marks, cb);
      flow := if ok then Go(!a.FlushNext?) else Return(if a.FlushNext? then p + 1 else p);
    }

    /** A byte inside a run: MARK. */
    method PerformMark(a: Act, data: string, p: nat, marks: Marks, cb: Callbacks) returns (flow: Flow, rest: Marks)
      requires errno.OK? && p < |data| && MarksFit(KindOf(core.state), marks, p) && Shape(core, a)
      requires a.Mark? || a.Keep?
      modifies this`core
      ensures Performed(Deliver(a, old(Pending(Merge(log), KindOf(core.state), marks, data, p)), data[p], cb.skip),
                        data, p, flow, rest, old(log))
      ensures Answers(cb)
    {
      hide KindOf, Emit;
      PendingGrows(Merge(log), KindOf(core.state), marks, data, p, p + 1, a.k);
      assert data[p..p + 1] == [data[p]];
      core := a.c;
      rest := Marked(marks, a.k, p);
      flow := Go(false);
    }

    /** The last byte of a body: MARK and its callback. */
    method PerformLast(a: Act, data: string, p: nat, marks: Marks, cb: Callbacks) returns (flow: Flow, rest: Marks)
      requires errno.OK? && p < |data| && MarksFit(KindOf(core.state), marks, p) && Shape(core, a)
      requires a.LastAgain?
      modifies this`core, this`errno, this`log
      ensures Performed(Deliver(a, old(Pending(Merge(log), KindOf(core.state), marks, data, p)), data[p], cb.skip),
                        data, p, flow, rest, old(log))
      ensures Answers(cb)
    {
      hide KindOf, Emit, Merge, Shape, StateShape, Deliver;
      LastShape(core, a);
      LastDelivers(a, Pending(Merge(log), KindOf(core.state), marks, data, p), data[p], cb.skip);
      PendingGrows(Merge(log), KindOf(core.state), marks, data, p, p + 1, a.k);
      assert data[p..p + 1] == [data[p]];
      core := a.c;
      rest := Marked(marks, a.k, p);
      var ok;
      ok, rest := Flush(a.k, data, p + 1, rest, cb);
      flow := if ok then Go(true) else Return(p);
    }

    /** Carries out one `Act` on the byte at `p`. */
    method Perform(a: Act, data: string, p: nat, marks: Marks, cb: Callbacks) returns (flow: Flow, rest: Marks)
      requires errno.OK? && p < |data| && MarksFit(KindOf(core.state), marks, p) && Shape(core, a)
      modifies this`core, this`errno, this`log
      ensures Performed(Deliver(a, old(Pending(Merge(log), KindOf(core.state), marks, data, p)), data[p], cb.skip),
                        data, p, flow, rest, old(log))
      ensures Answers(cb)
    {
      rest := marks;
      if a.Next? || a.Again? {
        core := a.c;
        flow := Go(a.Again?);
      } else if a.NotifyNext? || a.NotifyExit? || a.NotifyAgain? {
        core := a.c;
        var ok := Tell(a.e, cb);
        flow := if ok && !a.NotifyExit? then Go(a.NotifyAgain?) else Return(if a.NotifyAgain? then p else p + 1);
      } else if a.HeadersAgain? {
        core := a.c;
        var ok := Tell(HeadersEvent(a.c), cb);
        if !errno.Callback? {
          core := AfterHeaders(a.c, cb.skip(Merge(log)));
        }
        flow := if ok then Go(true) else Return(p);
      } else if a.Fail? {
        core, errno := a.c, a.errno;
        flow := Return(p);
      } else if a.Mark? || a.Keep? {
        flow, rest := PerformMark(a, data, p, marks, cb);
      } else if a.LastAgain? {
        flow, rest := PerformLast(a, data, p, marks, cb);
      } else {
        flow, rest := PerformFlush(a, data, p, marks, cb);
      }
    }

    /**
     What is left of the buffer means the same for the machine as the whole buffer did at the start `o` of the call.
     */
    ghost predicate Tracks(o: Point, data: string, p: nat, marks: Marks, skip: SkipPolicy)
      requires p <= |data| && MarksFit(KindOf(core.state), marks, p)
      reads this
    {
      var t := Pending(Merge(log), KindOf(core.state), marks, data, p);
      Fits(core, t) && Agrees(o, data, Point(core, t), data[p..], skip)
    }

    /** The machine and its counter at the byte `p`. */
    ghost function Here(data: string, p: nat, marks: Marks, n: nat, first: bool, scan: bool): Meter
      requires p <= |data| && MarksFit(KindOf(core.state), marks, p)
      reads this
    {
      Meter(core, Pending(Merge(log), KindOf(core.state), marks, data, p), n, first, scan)
    }

    /** The machine and its counter between two calls. */
    ghost function Rested(): Meter
      reads this
    {
      Meter(core, Merge(log), nread, true, false)
    }

    /** How a call that starts at `o` and returns `n` relates to the meaning of its buffer. */
    ghost predicate Outcome(o: Point, data: string, n: nat, skip: SkipPolicy)
      requires n <= |data|
      reads this
    {
      var t := Merge(log);
      if errno.OK? || errno.Paused? then
        && CoreInv(core)
        && if Left(core, t) then Ends(o, data, Final(core, t, data[n..], Upgraded), skip)
           else Fits(core, t) && Agrees(o, data, Point(core, t), data[n..], skip) && (errno.OK? ==> n == |data|)
      else if errno.Callback? || errno.HeaderOverflow? then Reports(o, data, t, skip)
      else exists u :: Undelivered(t, u) && Ends(o, data, Final(core, u, data[n..], Failed(errno)), skip)
    }

    /** The machine and its counter are at byte `q` where their meaning of the buffer gets to. */
    ghost predicate Meeting(s: Meter, data: string, q: nat, marks: Marks, n: nat, first: bool, scan: bool,
                            skip: SkipPolicy)
      requires q <= |data| && MarksFit(KindOf(core.state), marks, q)
      reads this
    {
      var m := Here(data, q, marks, n, first, scan);
      Meets(s, data, m, data[q..], skip) && Fewer(s, data, m, data[q..], Gone(s, q, core.state, !first), 0, skip)
    }

    /**
     How the count of a call that starts at `s` and returns `n` relates to that of its bytes; `mid` says that it was
     paused in the middle of the byte at `n`. Only a call that uses up its buffer, or is paused in the middle of a
     header byte, leaves a count that is too high, and then by one.
     */
    ghost predicate Counted(s: Meter, data: string, n: nat, mid: bool, skip: SkipPolicy)
      requires n <= |data|
      reads this
    {
      var g := Gauge(s, data, skip);
      if errno.HeaderOverflow? then Peak(g) > HTTP_MAX_HEADER_SIZE
      else if errno.Callback? then true
      else
        && (!errno.Paused? ==> Peak(g) <= HTTP_MAX_HEADER_SIZE)
        && (errno.OK? && !Left(core, Merge(log)) ==> nread == CountOf(g))
        && ((errno.OK? || errno.Paused?) && !Left(core, Merge(log)) ==>
              && (if mid then n < |data| && Rank(core.state) < 3 else n > 0)
              && Light(s, data, Rested(), data[n..],
                       if n == |data| || (mid && ParsingHeader(core.state)) then 1 else 0, skip)
              && Fewer(s, data, Rested(), data[n..], Gone(s, 1, core.state, false),
                       if n == 0 && ParsingHeader(core.state) then 1 else 0, skip))
    }

    /** What a pass through the `switch` on the byte at `p` must leave behind. */
    ghost predicate Stepped(o: Point, data: string, p: nat, flow: Flow, rest: Marks, skip: SkipPolicy, from: State)
      requires p < |data|
      reads this
    {
      match flow
      case Go(again) =>
        var q := if again then p else p + 1;
        && errno.OK? && CoreInv(core) && MarksFit(KindOf(core.state), rest, q)
        && (again ==> Rank(core.state) < Rank(from) && KindOf(core.state).Nobody?)
        && (core.state.ChunkSizeStart? ==> nread == 0 && !again && ResetsCount(from))
        && (Countable(data) ==> Tracks(o, data, q, rest, skip))
      case Return(n) =>
        && p <= n <= p + 1 && !errno.HeaderOverflow?
        && (errno.Paused? && n == p ==> Rank(core.state) < Rank(from))
        && ((errno.OK? || errno.Paused?) && core.state.ChunkSizeStart? ==> nread == 0)
        && (Countable(data) ==> Outcome(o, data, n, skip) && (errno.OK? ==> Left(core, Merge(log))))
    }

    /**
     What it leaves behind for the counter: `k` is the count with the byte at `p`, restarted if the pass restarts it,
     and `sure` says that it was within the limit wherever it was compared with it.
     */
    ghost predicate Metered(s: Meter, data: string, p: nat, flow: Flow, rest: Marks, skip: SkipPolicy, k: nat,
                            sure: bool)
      requires p < |data|
      requires flow.Go? ==> MarksFit(KindOf(core.state), rest, if flow.again then p else p + 1)
      requires flow.Return? ==> flow.n <= |data|
      reads this
    {
      match flow
      case Go(again) =>
        var q := if again then p else p + 1;
        sure ==> Meeting(s, data, q, rest, k, !again, false, skip)
      case Return(n) =>
        && (errno.Paused? && !Left(core, Merge(log)) ==>
              && Light(s, data, Rested().(n := k), data[n..],
                       if n == p && ParsingHeader(core.state) then 1 else 0, skip)
              && Fewer(s, data, Rested().(n := k), data[n..], Gone(s, 1, core.state, false),
                       if n == 0 && ParsingHeader(core.state) then 1 else 0, skip))
        && (!errno.Paused? && !errno.Callback? && sure ==> Peak(Gauge(s, data, skip)) <= HTTP_MAX_HEADER_SIZE)
    }

    /** One pass through the `switch` that carries out `a`. */
    method StepBy(a: Act, data: string, p: nat, marks: Marks, cb: Callbacks) returns (flow: Flow, rest: Marks)
      requires errno.OK? && p < |data| && MarksFit(KindOf(core.state), marks, p) && Shape(core, a)
      modifies this
      ensures nread == (if !a.Fail? && ResetsCount(old(core.state)) then 0 else old(nread)) && Answers(cb)
      ensures Performed(Deliver(a, old(Pending(Merge(log), KindOf(core.state), marks, data, p)), data[p], cb.skip),
                        data, p, flow, rest, old(log))
    {
      hide KindOf, Emit, Deliver, Performed, MarksFit, Shape;
      if !a.Fail? && ResetsCount(core.state) {
        nread := 0;
      }
      flow, rest := Perform(a, data, p, marks, cb);
    }

    /** What follows for the parser from a pass that has been carried out. */
    lemma SteppedBy(o: Point, data: string, p: nat, flow: Flow, rest: Marks, skip: SkipPolicy, c: Core, t: Trace,
                    m: Micro, before: seq<Event>)
      requires p < |data| && Performed(m, data, p, flow, rest, before) && Lawful(c, t, m)
      requires !m.ctl.Err? && ResetsCount(c.state) ==> nread == 0
      requires Countable(data) ==> Fits(c, t) && Leads(o, data, m, data[p..], skip)
      requires m.ctl.Err? ==> m.t == t && Merge(before) == Merge(log) && Undelivered(Merge(log), t)
      ensures Stepped(o, data, p, flow, rest, skip, c.state)
    {
      hide Switch, Run, KindOf, CoreInv, Emit, Agrees, Ends, Reports, Rank, Merge, Left, Undelivered;
      assert data[p..][1..] == data[p + 1..];
      if Countable(data) {
        LeadsReports(o, data, m, data[p..], skip);
      }
    }

    /** And for the counter. */
    lemma MeteredBy(s: Meter, data: string, p: nat, flow: Flow, rest: Marks, skip: SkipPolicy, pm: Meter, a: Act,
                    m: Micro, before: seq<Event>)
      requires p < |data| && Performed(m, data, p, flow, rest, before) && Lawful(pm.c, pm.t, m) && Fits(pm.c, pm.t)
      requires (m.ctl.Err? <==> a.Fail?) && Primed(s, data, pm, a, m, data[p..], p, skip)
      ensures Metered(s, data, p, flow, rest, skip, Kept(pm, a), Seen(pm, a) <= HTTP_MAX_HEADER_SIZE)
    {
      hide Switch, KindOf, CoreInv, Emit, Rank, Merge, Fits, Left, Meets, Light, Fewer, Gauge, Gone, ParsingHeader,
        Kept, Seen;
      assert data[p..][1..] == data[p + 1..];
      var from := pm.c.state;
      if flow.Return? && errno.Paused? && !Left(core, Merge(log)) {
        StopMeters(s, data, Moved(pm, a, m), data[flow.n..], p, from, flow.n == p, skip);
      }
      if flow.Go? {
        GoMeters(s, data, Moved(pm, a, m), data[if flow.again then p else p + 1..], p, from, flow.again, skip);
      }
    }

    /** One pass through the `switch`, at a byte that does not continue a scan; `k` is the count with this byte. */
    method Step(data: string, p: nat, marks: Marks, cb: Callbacks, ghost s: Meter, ghost k: nat, ghost scan: bool)
      returns (flow: Flow, rest: Marks)
      requires errno.OK? && CoreInv(core) && p < |data| && MarksFit(KindOf(core.state), marks, p) &&
        EndsScan(core, data[p])
      requires Countable(data) ==>
                 && Tracks(Origin(s), data, p, marks, cb.skip)
                 && Meeting(s, data, p, marks, k, false, scan, cb.skip)
      modifies this
      ensures nread <= old(nread) && Answers(cb)
      ensures flow.Go? || errno.Paused? ==> nread == if ResetsCount(old(core.state)) then 0 else old(nread)
      ensures Stepped(Origin(s), data, p, flow, rest, cb.skip, old(core.state))
      ensures flow == Go(true) || (flow == Return(p) && errno.Paused?) ==>
        ParsingHeader(core.state) ==> ParsingHeader(old(core.state))
      ensures old(Switch(core, data[p])).Fail? ==> flow.Return? && !errno.OK? && !errno.Paused? && !errno.Callback?
      ensures old(Switch(core, data[p])).FlushNext? ==>
        flow == Go(false) || (flow.Return? && (errno.Paused? || errno.Callback?))
      ensures Countable(data) ==>
                Metered(s, data, p, flow, rest, cb.skip, if ResetsCount(old(core.state)) then 0 else k,
                        Seen(Meter(old(core), [], k, false, scan), old(Switch(core, data[p]))) <= HTTP_MAX_HEADER_SIZE)
    {
      hide Run, Switch, KindOf, CoreInv, Emit, Agrees, Ends, Reports, Meets, Light, Fewer, Gauge, Rank, Deliver, Merge,
        Undelivered, ParsingHeader, Gone, Fits, Left, Shape, Stepped, Primed, Leads, MarksFit;
      var a := Switch(core, data[p]);
      ghost var pm := Here(data, p, marks, k, false, scan);
      ghost var m := Deliver(a, pm.t, data[p], cb.skip);
      ghost var before := log;
      SwitchShape(core, data[p]);
      SwitchInv(core, data[p]);
      ActLawful(core, a, pm.t, data[p], cb.skip);
      FailDelivers(a, pm.t, data[p], cb.skip);
      StaysBody(pm, data[p], cb.skip);
      PendingUndelivered(Merge(log), KindOf(core.state), marks, data, p);
      if Countable(data) {
        AgreesLeads(Origin(s), data, Point(core, pm.t), data[p..], cb.skip, a);
        Primes(s, data, pm, a, m, data[p..], p, cb.skip);
      }
      flow, rest := StepBy(a, data, p, marks, cb);
      SteppedBy(Origin(s), data, p, flow, rest, cb.skip, pm.c, pm.t, m, before);
      if Countable(data) {
        MeteredBy(s, data, p, flow, rest, cb.skip, pm, a, m, before);
      }
    }

    /** The inner loop of `s_header_field`. */
    method ScanName(data: string, p: nat) returns (q: nat)
      requires core.state.HeaderField? && CoreInv(core) && p <= |data|
      modifies this`core
      ensures p <= q <= |data| && (q < |data| ==> !IsToken(data[q]))
      ensures core == old(core).(hs := core.hs, index := core.index) && CoreInv(core)
      ensures Glides(old(core), data[p..q], core)
    {
      hide Switch, Run;
      q := p;
      GlideNone(core);
      while q < |data| && IsToken(data[q])
        invariant p <= q <= |data|
        invariant core == old(core).(hs := core.hs, index := core.index) && CoreInv(core)
        invariant Glides(old(core), data[p..q], core)
      {
        var (hs, i) := FieldChar(core.hs, core.index, data[q]);
        NameGlide(core, data[q]);
        GlideConcat(old(core), data[p..q], core, [data[q]], core.(hs := hs, index := i));
        core := core.(hs := hs, index := i);
        q := q + 1;
        assert data[p..q] == data[p..q - 1] + [data[q - 1]];
      }
    }

    /** The `memchr` skip of `s_header_value`: the next CR or LF, looked for in a bounded window. */
    method SkipGeneral(data: string, p: nat) returns (q: nat)
      requires p < |data| && data[p] != CR && data[p] != LF
      ensures p < q <= |data|
      ensures (CR !in data[p..q] && LF !in data[p..q]) || (q == |data| && Clear(data, p, HTTP_MAX_HEADER_SIZE))
    {
      var limit := if |data| - p < HTTP_MAX_HEADER_SIZE then |data| - p else HTTP_MAX_HEADER_SIZE;
      var cr := Memchr(data, p, limit, CR);
      var lf := Memchr(data, p, limit, LF);
      if cr >= 0 {
        q := if lf >= 0 && cr >= lf then lf else cr;
        assert lf >= 0 ==> data[p..q] <= data[p..cr] && data[p..q] <= data[p..lf];
        assert lf < 0 ==> data[p..q] <= data[p..p + limit];
      } else if lf >= 0 {
        q := lf;
        assert data[p..q] <= data[p..p + limit];
      } else {
        q := |data|;
      }
    }

    /** A step of the loop in the general header state. */
    method SkipOn(data: string, p: nat) returns (q: nat, ghost r: nat)
      requires core.state.HeaderValue? && core.hs.General? && CoreInv(core)
      requires p < |data| && data[p] != CR && data[p] != LF
      ensures p < r <= q <= |data| && Glides(core, data[p..r], core)
      ensures r < q ==> q == |data| && r - p >= HTTP_MAX_HEADER_SIZE && (data[r] == CR || data[r] == LF)
    {
      hide Switch, Run, ValueChar, CoreInv, Glides;
      q := SkipGeneral(data, p);
      r := LineEnd(data, p, q);
      if r < q {
        assert data[r] in data[p..q];
        LineEndFar(data, p, HTTP_MAX_HEADER_SIZE, q);
      }
      GeneralGlide(core, data[p..r]);
    }

    /**
     The inner loop of `s_header_value`, up to CR, LF, a bad byte or the end of the buffer. Up to `r` it is as if single
     bytes had been read; only in a value longer than the limit does the skip go further, past the CR or LF at `r`.
     */
    method ScanValue(data: string, p: nat) returns (q: nat, ghost r: nat)
      requires core.state.HeaderValue? && CoreInv(core) && p <= |data|
      modifies this`core
      ensures p <= r <= q <= |data| && core.state.HeaderValue? && CoreInv(core) && core.upgrade == old(core.upgrade)
      ensures r < q ==> q == |data| && r - p >= HTTP_MAX_HEADER_SIZE && (data[r] == CR || data[r] == LF)
      ensures Glides(old(core), data[p..r], core)
      ensures q < |data| ==> EndsScan(core, data[q])
    {
      hide Switch, Run, ValueChar, CoreInv, Glides;
      q, r := p, p;
      GlideNone(core);
      assert data[p..q] == "";
      while q < |data| && data[q] != CR && data[q] != LF
        invariant p <= r <= q <= |data| && core.state.HeaderValue? && CoreInv(core) && core.upgrade == old(core.upgrade)
        invariant r < q ==> q == |data| && r - p >= HTTP_MAX_HEADER_SIZE && (data[r] == CR || data[r] == LF)
        invariant Glides(old(core), data[p..r], core)
      {
        var next := q + 1;
        ghost var c := core;
        if core.hs.General? {
          next, r := SkipOn(data, q);
        } else {
          var a := ValueChar(core, data[q]);
          ValueSwitch(core, data[q]);
          if a.Fail? {
            return;
          }
          assert data[q..q + 1] == [data[q]];
          ValueGlide(core, data[q], a);
          r := next;
          core := a.c;
        }
        GlideConcat(old(core), data[p..q], c, data[q..r], core);
        Slices(data, p, q, r);
        q := next;
      }
      if q < |data| {
        LineEndActs(core, data[q]);
      }
    }

    /** The parser stands at `q` in the loop of `http_parser_execute`; `again` says that it looks at this byte again. */
    ghost predicate Ready(s: Meter, data: string, q: nat, marks: Marks, skip: SkipPolicy, again: bool)
      requires q <= |data|
      reads this
    {
      && errno.OK? && CoreInv(core) && nread <= HTTP_MAX_HEADER_SIZE && MarksFit(KindOf(core.state), marks, q)
      && (Countable(data) ==>
            && Tracks(Origin(s), data, q, marks, skip)
            && if q < |data| then Meeting(s, data, q, marks, nread, !again, false, skip)
               else Ended(s, data, marks, skip))
    }

    /** The counter when the whole buffer has been looked at. */
    ghost predicate Ended(s: Meter, data: string, marks: Marks, skip: SkipPolicy)
      requires MarksFit(KindOf(core.state), marks, |data|)
      reads this
    {
      var g := Gauge(s, data, skip);
      && Peak(g) <= HTTP_MAX_HEADER_SIZE && nread == CountOf(g)
      && Light(s, data, Here(data, |data|, marks, nread, true, false), "", 1, skip)
      && Fewer(s, data, Here(data, |data|, marks, nread, true, false), "", Gone(s, 1, core.state, false), 0, skip)
    }

    lemma EndReached(s: Meter, data: string, marks: Marks, skip: SkipPolicy, k: nat, scan: bool)
      requires MarksFit(KindOf(core.state), marks, |data|)
      requires data != "" && Meeting(s, data, |data|, marks, k, true, scan, skip)
      ensures k + (if scan then 1 else 0) > HTTP_MAX_HEADER_SIZE ==> Peak(Gauge(s, data, skip)) > HTTP_MAX_HEADER_SIZE
      ensures nread == k + (if scan then 1 else 0) && nread <= HTTP_MAX_HEADER_SIZE ==> Ended(s, data, marks, skip)
    {
      hide Gauge, Meets, Light, Fewer, KindOf, Merge, Emit, ParsingHeader;
      var p := Here(data, |data|, marks, k, true, scan);
      assert data[|data|..] == "";
      MeetsEnd(s, data, p, skip);
      LightMeets(s, data, p, "", skip);
      if nread == k + (if scan then 1 else 0) {
        LightShift(s, data, p, Here(data, |data|, marks, nread, true, false), "", 0, 1, skip);
        FewerShift(s, data, p, Here(data, |data|, marks, nread, true, false), "", Gone(s, |data|, core.state, false),
          0, skip);
      }
    }

    /** What one iteration of the loop, started at `p`, leaves behind at `q`. */
    ghost predicate Passed(s: Meter, data: string, p: nat, q: nat, flow: Flow, rest: Marks, skip: SkipPolicy,
                           from: State)
      requires p < |data|
      reads this
    {
      match flow
      case Go(again) =>
        && p <= q <= |data| && Ready(s, data, q, rest, skip, again)
        && (again ==> q < |data| && KindOf(core.state).Nobody?)
        && (q == p ==> again && Rank(core.state) < Rank(from) && (ParsingHeader(core.state) ==> ParsingHeader(from)))
        && (core.state.ChunkSizeStart? ==> nread == 0 && !again)
      case Return(n) =>
        && n <= |data|
        && (errno.Paused? && n <= p ==>
              n == p == q && Rank(core.state) < Rank(from) && (ParsingHeader(core.state) ==> ParsingHeader(from)))
        && (errno.OK? || errno.Paused? ==> (core.state.ChunkSizeStart? ==> nread == 0) && nread <= HTTP_MAX_HEADER_SIZE)
        && (Countable(data) ==> Outcome(Origin(s), data, n, skip) && Counted(s, data, n, n == q, skip))
    }

    /** The count when a pass at `r` is paused; the count may be too low. */
    lemma Stopped(s: Meter, data: string, r: nat, n: nat, k: nat, skip: SkipPolicy)
      requires r <= n <= r + 1 && n <= |data| && nread <= k
      requires Light(s, data, Rested().(n := k), data[n..], if n == r && ParsingHeader(core.state) then 1 else 0, skip)
      requires Fewer(s, data, Rested().(n := k), data[n..], Gone(s, 1, core.state, false),
                     if n == 0 && ParsingHeader(core.state) then 1 else 0, skip)
      ensures Light(s, data, Rested(), data[n..],
                    if n == |data| || (n == r && ParsingHeader(core.state)) then 1 else 0, skip)
      ensures Fewer(s, data, Rested(), data[n..], Gone(s, 1, core.state, false),
                    if n == 0 && ParsingHeader(core.state) then 1 else 0, skip)
    {
      hide Gauge, Merge, Light, Fewer, Gone;
      var d := if n == r && ParsingHeader(core.state) then 1 else 0;
      LightShift(s, data, Rested().(n := k), Rested(), data[n..], d, 0, skip);
      LightMore(s, data, Rested(), data[n..], d,
                if n == |data| || (n == r && ParsingHeader(core.state)) then 1 else 0, skip);
      FewerShift(s, data, Rested().(n := k), Rested(), data[n..], Gone(s, 1, core.state, false),
                 if n == 0 && ParsingHeader(core.state) then 1 else 0, skip);
    }

    /** The pass at the byte `r` that ends an iteration started at `p`; only before an error may counting lag behind. */
    method StepOn(data: string, p: nat, r: nat, marks: Marks, cb: Callbacks, ghost s: Meter, ghost k: nat,
                  ghost scan: bool)
      returns (q: nat, flow: Flow, rest: Marks)
      requires p <= r < |data| && errno.OK? && CoreInv(core) && nread <= HTTP_MAX_HEADER_SIZE
      requires MarksFit(KindOf(core.state), marks, r) && EndsScan(core, data[r])
      requires Countable(data) ==>
                 && Tracks(Origin(s), data, r, marks, cb.skip)
                 && Meeting(s, data, r, marks, k, false, scan, cb.skip)
      requires k == nread || (Switch(core, data[r]).Fail? && core.state.HeaderValue? && scan)
      modifies this
      ensures Passed(s, data, p, q, flow, rest, cb.skip, old(core.state)) && Answers(cb)
    {
      hide Run, Switch, KindOf, CoreInv, Emit, Agrees, Ends, Reports, Meets, Light, Fewer, Gauge, Rank, Merge,
        Undelivered, Fits;
      RankBound(core.state);
      flow, rest := Step(data, r, marks, cb, s, k, scan);
      q := if flow == Go(false) then r + 1 else r;
      if Countable(data) && flow.Return? && errno.Paused? && !Left(core, Merge(log)) {
        Stopped(s, data, r, flow.n, nread, cb.skip);
      }
      if Countable(data) && flow.Go? && q == |data| {
        assert data[q..] == "";
        EndReached(s, data, rest, cb.skip, nread, false);
      }
    }

    /** Keeping track over bytes of a run that have moved the parser from `c` to its present state. */
    lemma ScanTracks(o: Point, data: string, p: nat, q: nat, marks: Marks, skip: SkipPolicy, c: Core)
      requires p < q <= |data| && MarksFit(KindOf(c.state), marks, p)
      requires var t := Pending(Merge(log), KindOf(c.state), marks, data, p);
               Fits(c, t) && Agrees(o, data, Point(c, t), data[p..], skip)
      requires Glides(c, data[p..q], core) && core.upgrade == c.upgrade
      ensures KindOf(c.state).Holds? && KindOf(core.state) == KindOf(c.state)
      ensures MarksFit(KindOf(core.state), Marked(marks, KindOf(c.state).k, p), q)
      ensures Tracks(o, data, q, Marked(marks, KindOf(c.state).k, p), skip)
    {
      hide Switch, Run, KindOf, Emit, Merge, Agrees, Glides;
      Slices(data, p, q, |data|);
      var t := Pending(Merge(log), KindOf(c.state), marks, data, p);
      assert data[p..] == data[p..q] + data[q..];
      GlideAgrees(o, data, c, t, data[p..q], core, data[q..], skip);
      EmitLast(t, KindOf(c.state).k, data[p..q]);
      PendingGrows(Merge(log), KindOf(c.state), marks, data, p, q, KindOf(c.state).k);
    }

    /** Counting over bytes of a name or value, of which the first has been counted. */
    lemma ScanMeets(s: Meter, data: string, p: nat, q: nat, marks: Marks, skip: SkipPolicy, c: Core, n: nat)
      requires p < q <= |data| && MarksFit(KindOf(c.state), marks, p) && Scans(c.state) && n <= HTTP_MAX_HEADER_SIZE
      requires var m := Meter(c, Pending(Merge(log), KindOf(c.state), marks, data, p), n, false, false);
        Meets(s, data, m, data[p..], skip) && Fewer(s, data, m, data[p..], Gone(s, p, c.state, true), 0, skip)
      requires Glides(c, data[p..q], core)
      ensures KindOf(c.state).Holds? && MarksFit(KindOf(core.state), Marked(marks, KindOf(c.state).k, p), q)
      ensures var kept := Marked(marks, KindOf(c.state).k, p);
        && Meeting(s, data, q, kept, n + (q - p) - 1, true, true, skip)
        && (q < |data| ==> Meeting(s, data, q, kept, n + (q - p), false, true, skip))
    {
      hide Switch, Run, KindOf, Emit, Merge, Meets, Fewer, Gauge, Glides;
      assert data[p..] == data[p..q] + data[q..];
      var m := Meter(c, Pending(Merge(log), KindOf(c.state), marks, data, p), n, false, false);
      MeetsScan(s, data, m, data[p..q], core, data[q..], skip);
      FewerScan(s, data, m, data[p..q], core, data[q..], Gone(s, p, c.state, true), skip);
      var kept := Marked(marks, KindOf(c.state).k, p);
      PendingGrows(Merge(log), KindOf(c.state), marks, data, p, q, KindOf(c.state).k);
      var e := Here(data, q, kept, n + (q - p) - 1, true, true);
      FewerLess(s, data, e, data[q..], Gone(s, p, c.state, true), Gone(s, q, core.state, false), 0, skip);
      if q < |data| {
        MeetsFirst(s, data, e, data[q..], skip);
        FewerFirst(s, data, e, data[q..], Gone(s, p, c.state, true), skip);
        ScanLook(c.state, core.state);
        FewerLess(s, data, e.(n := Visited(e), first := false), data[q..], Gone(s, p, c.state, true) + Look(e),
                  Gone(s, q, core.state, true), 0, skip);
      }
    }

    /** The byte at `p` is looked at. */
    lemma LookAt(s: Meter, data: string, p: nat, marks: Marks, skip: SkipPolicy)
      requires p < |data| && MarksFit(KindOf(core.state), marks, p) &&
        Meeting(s, data, p, marks, nread, true, false, skip)
      requires p == 0 ==> core == s.c
      ensures Meeting(s, data, p, marks, if ParsingHeader(core.state) then nread + 1 else nread, false, false, skip)
    {
      hide Meets, Fewer, Gauge, Merge, KindOf, Emit;
      var m := Here(data, p, marks, nread, true, false);
      MeetsFirst(s, data, m, data[p..], skip);
      FewerFirst(s, data, m, data[p..], Gone(s, p, core.state, false), skip);
    }

    /** The case `s_header_field`. */
    method NamePass(data: string, p: nat, marks: Marks, cb: Callbacks, ghost s: Meter)
      returns (q: nat, flow: Flow, rest: Marks)
      requires p < |data| && Ready(s, data, p, marks, cb.skip, true) && core.state.HeaderField?
      modifies this
      ensures Passed(s, data, p, q, flow, rest, cb.skip, old(core.state)) && Answers(cb)
    {
      hide Switch, Run, KindOf, CoreInv, Emit, Agrees, Ends, Reports, Meets, Light, Fewer, Gauge, Rank, Merge,
        Undelivered, Fits;
      ghost var c, n := core, nread;
      rest := marks;
      NameMarked(core.state, marks, p);
      q := ScanName(data, p);
      if Countable(data) {
        if q > p {
          ScanTracks(Origin(s), data, p, q, marks, cb.skip, c);
          ScanMeets(s, data, p, q, marks, cb.skip, c, n);
          if q == |data| {
            EndReached(s, data, marks, cb.skip, n + (q - p) - 1, true);
          }
        }
        if q < |data| && n + (q - p) > HTTP_MAX_HEADER_SIZE {
          MeetsOver(s, data, Here(data, q, marks, n + (q - p), false, true), data[q..], cb.skip);
        }
        TrackedReports(Origin(s), data, q, marks, cb.skip);
      }
      var ok := Count(q - p);
      if !ok {
        flow := Return(q);
      } else if q == |data| {
        if Countable(data) {
          EndReached(s, data, marks, cb.skip, n + (q - p) - 1, true);
        }
        flow := Go(false);
      } else {
        NameEndActs(core, data[q]);
        q, flow, rest := StepOn(data, p, q, rest, cb, s, nread, q > p);
      }
    }

    /** What has been delivered is reported by the machine too. */
    lemma TrackedReports(o: Point, data: string, p: nat, marks: Marks, skip: SkipPolicy)
      requires p <= |data| && MarksFit(KindOf(core.state), marks, p) && Tracks(o, data, p, marks, skip)
      ensures Reports(o, data, Merge(log), skip)
    {
      hide Switch, Run, KindOf, Merge, Emit, Agrees, Below, Fits;
      var h := KindOf(core.state);
      var t := Pending(Merge(log), h, marks, data, p);
      if h.Holds? && h.k in marks {
        BelowEmit(Merge(log), Data(h.k, data[marks[h.k]..p]));
      } else {
        BelowSelf(t);
      }
      AgreesReports(o, data, Point(core, t), data[p..], Merge(log), skip);
    }

    /** CR at the end of a value that started at `p`: it is counted after its callback. */
    method ValueCr(data: string, p: nat, r: nat, marks: Marks, cb: Callbacks, ghost s: Meter)
      returns (q: nat, flow: Flow, rest: Marks)
      requires p <= r < |data| && Scanned(s, data, p, r, marks, cb.skip) && data[r] == CR
      modifies this
      ensures Passed(s, data, p, q, flow, rest, cb.skip, old(core.state)) && Answers(cb)
    {
      hide Run, Switch, KindOf, CoreInv, Emit, Agrees, Ends, Reports, Meets, Light, Fewer, Gauge, Rank, Merge,
        Undelivered, Fits;
      ghost var k := nread + (r - p);
      LineEndActs(core, data[r]);
      if Countable(data) && k > HTTP_MAX_HEADER_SIZE {
        MeetsOver(s, data, Here(data, r, marks, k, false, r > p), data[r..], cb.skip);
      }
      RankBound(core.state);
      flow, rest := Step(data, r, marks, cb, s, k, r > p);
      q := if flow == Go(false) then r + 1 else r;
      if Countable(data) && flow.Return? && errno.Paused? && !Left(core, Merge(log)) {
        Stopped(s, data, r, flow.n, k, cb.skip);
      }
      if flow == Go(false) {
        var ok := Count(r - p);
        if Countable(data) {
          if !ok {
            TrackedReports(Origin(s), data, q, rest, cb.skip);
          } else if q == |data| {
            assert data[q..] == "";
            EndReached(s, data, rest, cb.skip, nread, false);
          }
        }
        if !ok {
          flow := Return(r);
        }
      }
    }

    /** The parser stands at `r`, having scanned a value from `p` on; the bytes after `p` are not counted yet. */
    ghost predicate Scanned(s: Meter, data: string, p: nat, r: nat, marks: Marks, skip: SkipPolicy)
      requires p <= r < |data|
      reads this
    {
      && errno.OK? && CoreInv(core) && nread <= HTTP_MAX_HEADER_SIZE && MarksFit(KindOf(core.state), marks, r)
      && core.state.HeaderValue? && EndsScan(core, data[r])
      && (Countable(data) ==>
            && Tracks(Origin(s), data, r, marks, skip)
            && Meeting(s, data, r, marks, nread + (r - p), false, r > p, skip))
    }

    /** CR, LF or a bad byte at the end of a value that started at `p`; LF is counted before its callback. */
    method ValueEnd(data: string, p: nat, r: nat, marks: Marks, cb: Callbacks, ghost s: Meter)
      returns (q: nat, flow: Flow, rest: Marks)
      requires p <= r < |data| && Scanned(s, data, p, r, marks, cb.skip)
      modifies this
      ensures Passed(s, data, p, q, flow, rest, cb.skip, old(core.state)) && Answers(cb)
    {
      hide Run, Switch, KindOf, CoreInv, Emit, Agrees, Ends, Reports, Meets, Light, Fewer, Gauge, Rank, Merge,
        Undelivered, Fits;
      if data[r] == CR {
        q, flow, rest := ValueCr(data, p, r, marks, cb, s);
      } else if data[r] == LF {
        LineEndActs(core, data[r]);
        if Countable(data) {
          if nread + (r - p) > HTTP_MAX_HEADER_SIZE {
            MeetsOver(s, data, Here(data, r, marks, nread + (r - p), false, r > p), data[r..], cb.skip);
          }
          TrackedReports(Origin(s), data, r, marks, cb.skip);
        }
        var ok := Count(r - p);
        if !ok {
          return r, Return(r), marks;
        }
        q, flow, rest := StepOn(data, p, r, marks, cb, s, nread, r > p);
      } else {
        BadByteActs(core, data[r]);
        q, flow, rest := StepOn(data, p, r, marks, cb, s, nread + (r - p), r > p);
      }
    }

    /** `ScanValue`, keeping track of the meaning of the buffer; past `r` the count is over the limit. */
    method TrackValue(data: string, p: nat, marks: Marks, ghost skip: SkipPolicy, ghost s: Meter)
      returns (q: nat, ghost r: nat)
      requires p < |data| && Ready(s, data, p, marks, skip, true) && core.state.HeaderValue? && nread > 0
      modifies this`core
      ensures p <= r <= q <= |data| && core.state.HeaderValue? && CoreInv(core) &&
        MarksFit(KindOf(core.state), marks, r)
      ensures q < |data| ==> r == q && EndsScan(core, data[q])
      ensures r < q ==>
        q - p > HTTP_MAX_HEADER_SIZE && (Countable(data) ==> Peak(Gauge(s, data, skip)) > HTTP_MAX_HEADER_SIZE)
      ensures Countable(data) ==> Tracks(Origin(s), data, r, marks, skip)
      ensures Countable(data) && r == p ==> Meeting(s, data, r, marks, nread, false, false, skip)
      ensures Countable(data) && p < r < |data| ==> Meeting(s, data, r, marks, nread + (r - p), false, true, skip)
      ensures Countable(data) && r == |data| ==> Meeting(s, data, r, marks, nread + (r - p) - 1, true, true, skip)
    {
      hide Run, Switch, KindOf, CoreInv, Emit, Agrees, Ends, Reports, Meets, Light, Fewer, Gauge, Rank, Merge,
        Undelivered, Fits, Glides;
      ghost var c := core;
      NameMarked(core.state, marks, p);
      q, r := ScanValue(data, p);
      if r == p {
        assert data[p..r] == "";
        GlideNowhere(c, core);
      } else if Countable(data) {
        ScanTracks(Origin(s), data, p, r, marks, skip, c);
        ScanMeets(s, data, p, r, marks, skip, c, nread);
        if r < q {
          LineEndActs(core, data[r]);
          LineEndChecked(core, data[r]);
          MeetsOver(s, data, Here(data, r, marks, nread + (r - p), false, true), data[r..], skip);
        }
      }
      ScanFits(c.state, core.state, marks, p, r);
    }

    /** The case `s_header_value`. */
    method ValuePass(data: string, p: nat, marks: Marks, cb: Callbacks, ghost s: Meter)
      returns (q: nat, flow: Flow, rest: Marks)
      requires p < |data| && Ready(s, data, p, marks, cb.skip, true) && core.state.HeaderValue? && nread > 0
      modifies this
      ensures Passed(s, data, p, q, flow, rest, cb.skip, old(core.state)) && Answers(cb)
    {
      hide Run, Switch, KindOf, CoreInv, Emit, Agrees, Ends, Reports, Meets, Light, Fewer, Gauge, Rank, Merge,
        Undelivered, Fits;
      ghost var r;
      rest := marks;
      q, r := TrackValue(data, p, marks, cb.skip, s);
      if q == |data| {
        if Countable(data) {
          TrackedReports(Origin(s), data, r, marks, cb.skip);
          if r == q {
            assert data[r..] == "";
            EndReached(s, data, marks, cb.skip, nread + (q - p) - 1, true);
          }
        }
        var ok := Count(q - p);
        if ok && Countable(data) {
          EndReached(s, data, marks, cb.skip, nread - 1, true);
        }
        flow := if ok then Go(false) else Return(q);
      } else {
        q, flow, rest := ValueEnd(data, p, q, rest, cb, s);
      }
    }

    /**
     The cases `s_chunk_data` and `s_body_identity_eof`, and `s_body_identity` before its last byte: bytes in bulk.
     */
    method BulkPass(data: string, p: nat, n: nat, marks: Marks, skip: SkipPolicy, ghost s: Meter)
      returns (q: nat, rest: Marks)
      requires p < p + n <= |data| && Ready(s, data, p, marks, skip, true)
      requires core.state.BodyIdentityEof? || (core.state.BodyIdentity? && n < core.length) ||
        (core.state.ChunkData? && n <= core.length)
      modifies this`core
      ensures q == p + n && core == AfterBody(old(core), n) && Ready(s, data, q, rest, skip, false)
    {
      hide Switch, Run, KindOf, CoreInv, Emit, Agrees, Ends, Meets, Light, Fewer, Gauge, Glides, Merge, Fits;
      ghost var c := core;
      ghost var m := Here(data, p, marks, nread, false, false);
      q, rest := p + n, Marked(marks, BodyData, p);
      AfterBodyInv(core, n);
      BodyGlide(core, data[p..q]);
      PendingGrows(Merge(log), KindOf(core.state), marks, data, p, q, BodyData);
      core := AfterBody(core, n);
      if Countable(data) {
        ScanTracks(Origin(s), data, p, q, marks, skip, c);
        assert data[p..] == data[p..q] + data[q..];
        MeetsBulk(s, data, m, data[p..q], core, data[q..], skip);
        FewerBulk(s, data, m, data[p..q], core, data[q..], Gone(s, p, c.state, true), skip);
        FewerLess(s, data, Here(data, q, rest, nread, true, false), data[q..], Gone(s, p, c.state, true),
                  Gone(s, q, core.state, false), 0, skip);
        if q == |data| {
          assert data[q..] == "";
          EndReached(s, data, rest, skip, nread, false);
        }
      }
    }

    /** The body states: as many bytes at once as the length and the buffer allow. */
    method BodyPass(data: string, p: nat, marks: Marks, cb: Callbacks, ghost s: Meter)
      returns (q: nat, flow: Flow, rest: Marks)
      requires p < |data| && Ready(s, data, p, marks, cb.skip, true)
      requires core.state.BodyIdentity? || core.state.ChunkData? || core.state.BodyIdentityEof?
      modifies this
      ensures Passed(s, data, p, q, flow, rest, cb.skip, old(core.state)) && Answers(cb)
    {
      hide Switch, Run, KindOf, Emit, Agrees, Ends, Reports, Meets, Light, Fewer, Gauge, Merge, Undelivered, Fits;
      var n := |data| - p;
      if !core.state.BodyIdentityEof? && core.length < n {
        n := core.length;
      }
      if core.state.BodyIdentity? && core.length == n {
        // the last byte is delivered with the others and seen again by s_message_done
        q, rest := p, marks;
        if n > 1 {
          q, rest := BulkPass(data, p, n - 1, marks, cb.skip, s);
          if Countable(data) {
            LookAt(s, data, q, rest, cb.skip);
          }
        }
        q, flow, rest := StepOn(data, p, q, rest, cb, s, nread, false);
      } else {
        q, rest := BulkPass(data, p, n, marks, cb.skip, s);
        flow := Go(false);
      }
    }

    /** One iteration of the loop, after its byte has been counted. */
    method Pass(data: string, p: nat, marks: Marks, cb: Callbacks, ghost s: Meter)
      returns (q: nat, flow: Flow, rest: Marks)
      requires p < |data| && Ready(s, data, p, marks, cb.skip, true) && (Scans(core.state) ==> nread > 0)
      modifies this
      ensures Passed(s, data, p, q, flow, rest, cb.skip, old(core.state)) && Answers(cb)
    {
      hide Run, Switch, KindOf, CoreInv, Emit, Agrees, Ends, Reports, Meets, Light, Fewer, Gauge, Rank, Merge,
        Undelivered, Fits, Passed;
      if core.state.HeaderField? {
        q, flow, rest := NamePass(data, p, marks, cb, s);
      } else if core.state.HeaderValue? {
        q, flow, rest := ValuePass(data, p, marks, cb, s);
      } else if core.state.BodyIdentity? || core.state.ChunkData? || core.state.BodyIdentityEof? {
        q, flow, rest := BodyPass(data, p, marks, cb, s);
      } else {
        q, flow, rest := StepOn(data, p, p, marks, cb, s, nread, false);
      }
    }

    /** CALLBACK_DATA_NOADVANCE at the end of the buffer. */
    method FlushEnd(k: DataKind, data: string, marks: Marks, cb: Callbacks, ghost h: Holder)
      returns (ok: bool, rest: Marks)
      requires errno.OK? && MarksFit(h, marks, |data|)
      modifies this`log, this`errno
      ensures ok == errno.OK? && (errno.OK? || errno.Paused? || errno.Callback?) && Answers(cb)
      ensures if k in marks
              then rest == map[] && h == Holds(k) && Merge(log) == Pending(old(Merge(log)), h, marks, data, |data|)
              else rest == marks && log == old(log) && ok
    {
      ok, rest := Flush(k, data, |data|, marks, cb);
    }

    /** The callbacks for marks left over at the end of the buffer: at most one of the five is set. */
    method FlushAll(data: string, marks: Marks, cb: Callbacks)
      requires errno.OK? && MarksFit(KindOf(core.state), marks, |data|)
      modifies this`log, this`errno
      ensures (errno.OK? || errno.Paused? || errno.Callback?) && Answers(cb)
      ensures Merge(log) == Pending(old(Merge(log)), KindOf(core.state), marks, data, |data|)
    {
      hide KindOf, Emit, Merge;
      ghost var h := KindOf(core.state);
      assert h.Holds? ==>
        h.k == FieldData || h.k == ValueData || h.k == UrlData || h.k == BodyData || h.k == StatusData;
      var ok, rest := FlushEnd(FieldData, data, marks, cb, h);
      if ok && rest != map[] {
        ok, rest := FlushEnd(ValueData, data, rest, cb, h);
      }
      if ok && rest != map[] {
        ok, rest := FlushEnd(UrlData, data, rest, cb, h);
      }
      if ok && rest != map[] {
        ok, rest := FlushEnd(BodyData, data, rest, cb, h);
      }
      if ok && rest != map[] {
        ok, rest := FlushEnd(StatusData, data, rest, cb, h);
      }
    }

    /** A call of `http_parser_execute` with an empty buffer tells the parser that the stream has ended. */
    method EndOfStream(cb: Callbacks) returns (n: nat)
      requires errno.OK?
      modifies this
      ensures core == old(core) && nread == old(nread) && Answers(cb)
      ensures if core.state.BodyIdentityEof? then
                n == 0 && log == old(log) + [MessageComplete] && (errno.OK? || errno.Paused? || errno.Callback?)
              else
                log == old(log) &&
                if core.state.Dead? || core.state.StartReqOrRes? || core.state.StartRes? || core.state.StartReq?
                then n == 0 && errno.OK? else n == 1 && errno.InvalidEofState?
    {
      n := 0;
      if core.state.BodyIdentityEof? {
        var _ := Tell(MessageComplete, cb);
      } else if !(core.state.Dead? || core.state.StartReqOrRes? || core.state.StartRes? || core.state.StartReq?) {
        errno := InvalidEofState;
        n := 1;
      }
    }

    /**
     `http_parser_execute` on a non-empty buffer. The parser and the callbacks made agree with the byte-by-byte machine,
     for every continuation of the stream, and the count agrees with its counter; also if a callback refuses or the
     limit is exceeded, nothing is reported that the machine does not report. A call that is paused before it consumes a
     byte has at least lowered the rank of the state.
     */
    method Execute(data: string, cb: Callbacks) returns (n: nat, ghost mid: bool)
      requires data != "" && (errno.OK? ==> Valid())
      modifies this
      ensures n <= |data|
      ensures !old(errno).OK? ==>
        n == 0 && core == old(core) && nread == old(nread) && errno == old(errno) && log == old(log)
      ensures old(errno).OK? ==> Answers(cb)
      ensures old(errno).OK? && Countable(data) ==> Outcome(old(Point(core, Merge(log))), data, n, cb.skip)
      ensures old(errno).OK? && Countable(data) ==> Counted(old(Rested()), data, n, mid, cb.skip)
      ensures old(errno).OK? && Countable(data) && (errno.OK? || errno.Paused?) && !Left(core, Merge(log)) ==> Valid()
      ensures old(errno).OK? && errno.Paused? && n == 0 ==>
        mid && Rank(core.state) < Rank(old(core.state)) &&
        (ParsingHeader(core.state) ==> ParsingHeader(old(core.state)))
      ensures mid ==> errno.Paused?
    {
      hide Switch, Run, KindOf, CoreInv, Rank, Emit, Agrees, Ends, Reports, Merge, Undelivered, MarksFit, Meets, Fewer,
        Gauge, Light, Fits;
      mid := false;
      if !errno.OK? {
        return 0, false;
      }
      ghost var s := Rested();
      var p := 0;
      var marks: Marks := if Sticky(core.state) then map[KindOf(core.state).k := 0] else map[];
      var again := false;
      StartTracks(data, marks, cb.skip);
      assert data[0..] == data;
      MeetsSelf(s, data, cb.skip);
      FewerMeets(s, data, s, data, cb.skip);
      while p < |data|
        invariant p <= |data| && Ready(s, data, p, marks, cb.skip, again) && old(log) <= log
        invariant again ==> p < |data| && KindOf(core.state).Nobody?
        invariant core.state.ChunkSizeStart? ==> nread == 0 && !again
        invariant p == 0 ==>
          Rank(core.state) <= Rank(s.c.state) && (ParsingHeader(core.state) ==> ParsingHeader(s.c.state))
        invariant p == 0 && !again ==> core == s.c && nread == s.n
        decreases |data| - p, Rank(core.state)
      {
        var ok := CountByte(data, p, marks, again, s, cb.skip);
        if !ok {
          return p, false;
        }
        assert core.state.ChunkSizeStart? ==> nread == 1; // asserted by the source
        var flow;
        p, flow, marks := Pass(data, p, marks, cb, s);
        if flow.Return? {
          return flow.n, errno.Paused? && flow.n == p;
        }
        again := flow.again;
      }
      n := Finish(data, marks, cb, s);
    }

    /** Counts the byte at `p`, unless it is looked at again. */
    method CountByte(data: string, p: nat, marks: Marks, again: bool, ghost s: Meter, ghost skip: SkipPolicy)
      returns (ok: bool)
      requires p < |data| && Ready(s, data, p, marks, skip, again) && (again ==> KindOf(core.state).Nobody?)
      requires p == 0 && !again ==> core == s.c
      modifies this`nread, this`errno
      ensures ok ==> Ready(s, data, p, marks, skip, true) && (Scans(core.state) ==> nread > 0)
      ensures ok ==> nread == if !again && ParsingHeader(core.state) then old(nread) + 1 else old(nread)
      ensures !ok ==>
        errno.HeaderOverflow? &&
          (Countable(data) ==> Outcome(Origin(s), data, p, skip) && Counted(s, data, p, false, skip))
    {
      hide Switch, Run, KindOf, CoreInv, Emit, Agrees, Ends, Reports, Merge, Undelivered, MarksFit, Meets, Fewer, Gauge,
        Light, Fits;
      ok := true;
      ScanHolds(core.state);
      if !again && Countable(data) {
        LookAt(s, data, p, marks, skip);
      }
      if !again && ParsingHeader(core.state) {
        if Countable(data) {
          if nread + 1 > HTTP_MAX_HEADER_SIZE {
            MeetsOver(s, data, Here(data, p, marks, nread, true, false), data[p..], skip);
          }
          TrackedReports(Origin(s), data, p, marks, skip);
        }
        ok := Count(1);
      }
    }

    /** The end of `http_parser_execute`, when the whole buffer has been looked at. */
    method Finish(data: string, marks: Marks, cb: Callbacks, ghost s: Meter) returns (n: nat)
      requires data != "" && Ready(s, data, |data|, marks, cb.skip, false) &&
        (core.state.ChunkSizeStart? ==> nread == 0)
      modifies this`log, this`errno
      ensures n == |data| && (errno.OK? || errno.Paused? || errno.Callback?) && Answers(cb)
      ensures Countable(data) ==> Outcome(Origin(s), data, n, cb.skip) && Counted(s, data, n, false, cb.skip)
      ensures Countable(data) ==> !Left(core, Merge(log))
      ensures Countable(data) && !errno.Callback? ==> Valid()
    {
      hide Switch, Run, KindOf, CoreInv, Rank, Emit, Agrees, Ends, Reports, Merge, Undelivered, MarksFit, Meets, Fewer,
        Gauge, Light;
      if Countable(data) {
        BelowSelf(Pending(Merge(log), KindOf(core.state), marks, data, |data|));
        AgreesReports(Origin(s), data, Origin(Here(data, |data|, marks, 0, true, false)), data[|data|..],
                      Pending(Merge(log), KindOf(core.state), marks, data, |data|), cb.skip);
      }
      FlushAll(data, marks, cb);
      n := |data|;
      assert data[n..] == "";
    }

    /** At the start of a call the mark of the run that the parser is in covers no bytes yet. */
    lemma StartTracks(data: string, marks: Marks, skip: SkipPolicy)
      requires Valid() && marks == if Sticky(core.state) then map[KindOf(core.state).k := 0] else map[]
      ensures MarksFit(KindOf(core.state), marks, 0)
      ensures Tracks(Point(core, Merge(log)), data, 0, marks, skip)
      ensures Here(data, 0, marks, nread, true, false) == Rested()
    {
      if Sticky(core.state) {
        EmitNothing(Merge(log), KindOf(core.state).k);
      }
      assert data[0..] == data && data[0..0] == "";
    }
  }

  lemma NameEndActs(c: Core, ch: char)
    requires c.state.HeaderField? && !IsToken(ch)
    ensures EndsScan(c, ch)
  {
  }

  lemma ScanHolds(s: State)
    ensures Scans(s) ==> KindOf(s).Holds? && ParsingHeader(s)
  {
  }

  lemma BadByteActs(c: Core, ch: char)
    requires c.state.HeaderValue? && ch != CR && ch != LF && EndsScan(c, ch)
    ensures Switch(c, ch).Fail?
  {
    hide ValueChar;
    ValueSwitch(c, ch);
    ValueCharKeeps(c, ch);
  }

  lemma LineEndChecked(c: Core, ch: char)
    requires c.state.HeaderValue? && (ch == CR || ch == LF)
    ensures !Switch(c, ch).Keep? && !Switch(c, ch).Fail?
  {
  }

  lemma ScanFits(s: State, r: State, marks: Marks, p: nat, q: nat)
    requires Scans(s) && r == s && MarksFit(KindOf(s), marks, p) && p <= q
    ensures MarksFit(KindOf(r), marks, q)
  {
  }

  lemma ScanLook(s: State, r: State)
    requires Scans(s) && KindOf(s) == KindOf(r)
    ensures ParsingHeader(s) && ParsingHeader(r)
  {
    SameKind(s, r);
  }

  lemma NameMarked(s: State, marks: Marks, p: nat)
    requires Scans(s) && MarksFit(KindOf(s), marks, p)
    ensures KindOf(s).Holds? && Marked(marks, KindOf(s).k, p) == marks
  {
  }
}
