/**
 The timers of `Timer.h` and `Timer.cpp`: shared timer objects in a priority queue ordered by their end times. The
 clock is read again for every timer, a timer is due strictly after its end time, and cancelling only clears a flag.
 Unlike `timeaction.c`, nothing is reused, so the history of `TimerManager` is all there is to keep.
 */
module PriorityTimers {
  import opened TimerManager

  class Timer {
    const end: int
    const callback: nat
    var active: bool
    ghost const serial: nat

    constructor (end: int, callback: nat, ghost serial: nat)
      ensures this.end == end && this.callback == callback && this.serial == serial && active
    {
      this.end, this.callback, this.serial := end, callback, serial;
      active := true;
    }
  }

  /** A queued timer stands for an add of its callback that has not fired; it is active unless cancelled. */
  ghost predicate Stands(t: Timer, h: History)
    reads t
  {
    && t.serial < |h.dues| == |h.calls| && h.dues[t.serial] == t.end && h.calls[t.serial] == Call(t.callback, 0)
    && t.serial !in h.fired
    && (t.active <==> t.serial !in h.cancelled)
  }

  /** Timers fire only once their end time has passed. */
  ghost predicate Passed(h: History)
    requires FiredWell(h)
  {
    forall k | 0 <= k < |h.fired| :: h.dues[h.fired[k]] < h.firedAt[k]
  }

  ghost predicate Behind(end: int, h: History)
    requires FiredWell(h)
  {
    h.orderly && h.fired != [] ==> h.dues[h.fired[|h.fired| - 1]] <= end
  }

  /** The history after an add; these callbacks take no argument. */
  function Noted(h: History, due: int, callback: nat, now: int): History {
    h.(now := now, dues := h.dues + [due], calls := h.calls + [Call(callback, 0)], orderly := h.orderly && due >= now)
  }

  /** And after a call. */
  function Rung(h: History, s: nat, callback: nat): History {
    h.(fired := h.fired + [s], firedAt := h.firedAt + [h.now], called := h.called + [Call(callback, 0)])
  }

  lemma AddedWell(h: History, due: int, callback: nat, now: int)
    requires FiredWell(h) && Passed(h) && h.now <= now
    ensures var g := Noted(h, due, callback, now);
      FiredWell(g) && Passed(g) && Behind(due, g) && forall end | Behind(end, h) :: Behind(end, g)
  {
    var g := Noted(h, due, callback, now);
    assert forall k | 0 <= k < |h.fired| :: g.dues[g.fired[k]] == h.dues[h.fired[k]];
  }

  lemma FiredOnce(h: History, s: nat, callback: nat)
    requires FiredWell(h) && Passed(h) && s < |h.dues| && s !in h.fired && s !in h.cancelled && h.dues[s] < h.now
    requires Behind(h.dues[s], h) && h.calls[s] == Call(callback, 0)
    ensures var g := Rung(h, s, callback);
      FiredWell(g) && Passed(g) && forall end | h.dues[s] <= end :: Behind(end, g)
  {
    var g := Rung(h, s, callback);
    forall j, k | 0 <= j < k < |g.fired|
      ensures g.fired[j] != g.fired[k] && (g.orderly ==> g.dues[g.fired[j]] <= g.dues[g.fired[k]])
    {
      assert h.fired != [] ==> h.fired[|h.fired| - 1] in h.fired;
      assert j < |h.fired| && h.fired[j] in h.fired;
    }
  }

  /** Every add has fired, is cancelled, or is queued. */
  ghost predicate Accounted(timers: seq<Timer>, h: History) {
    forall s: nat | s < |h.dues| && s !in h.fired && s !in h.cancelled :: exists t :: t in timers && t.serial == s
  }

  lemma AccountedAdd(timers: seq<Timer>, t: Timer, h: History, g: History)
    requires Accounted(timers, h) && t.serial == |h.dues| && |g.dues| == |h.dues| + 1
    requires g.fired == h.fired && g.cancelled == h.cancelled
    ensures Accounted(timers + [t], g)
  {
    forall s: nat | s < |g.dues| && s !in g.fired && s !in g.cancelled
      ensures exists x :: x in timers + [t] && x.serial == s
    {
      if s == |h.dues| {
        assert t in timers + [t];
      } else {
        var x :| x in timers && x.serial == s;
        assert x in timers + [t];
      }
    }
  }

  lemma AccountedOff(timers: seq<Timer>, k: nat, h: History, g: History)
    requires Accounted(timers, h) && k < |timers| && g.dues == h.dues && g.cancelled == h.cancelled
    requires (forall s | s in h.fired :: s in g.fired) &&
      (timers[k].serial in g.fired || timers[k].serial in g.cancelled)
    ensures Accounted(timers[..k] + timers[k + 1..], g)
  {
    var rest := timers[..k] + timers[k + 1..];
    forall s: nat | s < |g.dues| && s !in g.fired && s !in g.cancelled
      ensures exists x :: x in rest && x.serial == s
    {
      var x :| x in timers && x.serial == s;
      var i :| 0 <= i < |timers| && timers[i] == x;
      assert rest[if i < k then i else i - 1] == x;
    }
  }

  // ----- what happens, step by step -----

  /** What can be seen: the adds that are queued, and the adds of the timers that the application holds on to. */
  datatype Picture = Picture(clock: int, dues: seq<int>, calls: seq<Call>, queued: set<nat>, known: seq<nat>,
                             cancelled: set<nat>, fired: seq<nat>, called: seq<Call>)

  /** Something that is entered, a cancelled timer taken off, and one that is called. */
  datatype Moment = Entered(event: Event) | TakenOff(s: nat) | Rang(s: nat, call: Call)

  /** What each of them does. Only a timer that is queued at that moment can still be cancelled. */
  function Next(p: Picture, e: Moment): Picture {
    match e
    case Entered(Adds(delay, callback, reading)) =>
      var now := Later(p.clock, reading);
      p.(clock := now, dues := p.dues + [delay + now], calls := p.calls + [Call(callback, 0)],
         queued := p.queued + {|p.dues|}, known := p.known + [|p.dues|])
    case Entered(Cancels(k)) =>
      if k < |p.known| && p.known[k] in p.queued then p.(cancelled := p.cancelled + {p.known[k]}) else p
    case Entered(Turns(reading)) => p.(clock := Later(p.clock, reading))
    case TakenOff(s) => p.(queued := p.queued - {s})
    case Rang(s, call) => p.(queued := p.queued - {s}, fired := p.fired + [s], called := p.called + [call])
  }

  /** The end of this timer has passed, and no queued one ends sooner. */
  predicate First(p: Picture, s: nat) {
    && s in p.queued && s < |p.dues| == |p.calls| && p.dues[s] < p.clock
    && forall x | x in p.queued && x < |p.dues| :: p.dues[s] <= p.dues[x]
  }

  predicate Can(p: Picture, e: Moment) {
    match e
    case Entered(_) => true
    case TakenOff(s) => First(p, s) && s in p.cancelled
    case Rang(s, call) => First(p, s) && s !in p.cancelled && call == p.calls[s]
  }

  predicate Goes(p: Picture, e: Moment, q: Picture) {
    Can(p, e) && Next(p, e) == q
  }

  /** These steps can happen and lead from one picture to the other. */
  predicate GoesOn(p: Picture, steps: seq<Moment>, q: Picture)
    decreases |steps|
  {
    if steps == [] then p == q else Can(p, steps[0]) && GoesOn(Next(p, steps[0]), steps[1..], q)
  }

  lemma {:induction false} GoesFurther(p: Picture, x: seq<Moment>, q: Picture, y: seq<Moment>, r: Picture)
    requires GoesOn(p, x, q) && GoesOn(q, y, r)
    ensures GoesOn(p, x + y, r) && Inputs(x + y) == Inputs(x) + Inputs(y)
    decreases |x|
  {
    hide Can, Next, InputOf;
    if x == [] {
      assert x + y == y;
    } else {
      var e, tail := x[0], x[1..];
      GoesFurther(Next(p, e), tail, q, y, r);
      StepsJoin(x, y);
      InputsJoin(InputOf(e), Inputs(tail), Inputs(y));
    }
  }

  lemma StepsJoin(x: seq<Moment>, y: seq<Moment>)
    requires x != []
    ensures (x + y)[0] == x[0] && (x + y)[1..] == x[1..] + y
  {
  }

  lemma InputsJoin(x: seq<Event>, y: seq<Event>, z: seq<Event>)
    ensures x + (y + z) == x + y + z
  {
  }

  lemma GoesStep(p: Picture, x: seq<Moment>, q: Picture, e: Moment, r: Picture)
    requires GoesOn(p, x, q) && Goes(q, e, r)
    ensures GoesOn(p, x + [e], r) && Inputs(x + [e]) == Inputs(x) + InputOf(e)
  {
    hide Can, Next;
    assert [e][1..] == [] && GoesOn(r, [], r) && GoesOn(q, [e], r);
    assert Inputs([e]) == InputOf(e) + Inputs([]);
    GoesFurther(p, x, q, [e], r);
  }

  function InputOf(e: Moment): seq<Event> {
    if e.Entered? then [e.event] else []
  }

  /** What was entered. */
  function Inputs(steps: seq<Moment>): seq<Event> {
    if steps == [] then [] else InputOf(steps[0]) + Inputs(steps[1..])
  }

  lemma NextAdds(p: Picture, e: Moment, done: seq<Event>, o: Picture)
    requires (p.clock, p.dues, p.calls) == AddsAll(o.clock, o.dues, o.calls, done)
    ensures var q := Next(p, e); (q.clock, q.dues, q.calls) == AddsAll(o.clock, o.dues, o.calls, done + InputOf(e))
  {
    if e.Entered? {
      assert (done + [e.event])[..|done|] == done;
    } else {
      assert done + [] == done;
    }
  }

  /** The clock, end times and callbacks follow from what was entered. */
  lemma {:induction false} GoesAdds(p: Picture, steps: seq<Moment>, q: Picture, done: seq<Event>, o: Picture)
    requires GoesOn(p, steps, q) && (p.clock, p.dues, p.calls) == AddsAll(o.clock, o.dues, o.calls, done)
    ensures (q.clock, q.dues, q.calls) == AddsAll(o.clock, o.dues, o.calls, done + Inputs(steps))
    decreases |steps|
  {
    hide Next, Can, AddsAll, InputOf;
    if steps == [] {
      assert done + [] == done;
    } else {
      var e, tail := steps[0], steps[1..];
      NextAdds(p, e, done, o);
      GoesAdds(Next(p, e), tail, q, done + InputOf(e), o);
      InputsJoin(done, InputOf(e), Inputs(tail));
    }
  }

  /**
   One turn of the loop: the clock is read, and then nothing, or a cancelled timer is taken off, or a timer is called
   and its callback does at once what it does.
   */
  predicate TurnOf(x: seq<Moment>, reading: int, n: nat, handlers: (nat, nat) -> seq<Event>) {
    && x != [] && x[0] == Entered(Event.Turns(reading))
    && (|x| > 1 ==>
          || (|x| == 2 && x[1].TakenOff?)
          || (x[1].Rang? && Inputs(x[2..]) == handlers(x[1].call.callback, n)))
  }

  function Flat(turns: seq<seq<Moment>>): seq<Moment> {
    if turns == [] then [] else Flat(turns[..|turns| - 1]) + turns[|turns| - 1]
  }

  /** What a turn did: nothing was due, or a timer was taken off and dropped or called. */
  datatype Turned = Waiting | Dropping | Calling(callback: nat)

  /** Every timer has a number of its own. */
  ghost predicate Numbered(made: set<Timer>, n: nat) {
    (forall t | t in made :: t.serial < n) && forall t, u | t in made && u in made && t.serial == u.serial :: t == u
  }

  ghost function Serials(timers: seq<Timer>): (r: seq<nat>)
    ensures |r| == |timers| && forall i | 0 <= i < |timers| :: r[i] == timers[i].serial
  {
    seq(|timers|, i requires 0 <= i < |timers| => timers[i].serial)
  }

  ghost function Queued(timers: seq<Timer>): set<nat> {
    set s | s in Serials(timers)
  }

  ghost function Seen(clock: int, timers: seq<Timer>, h: History, known: seq<Timer>): Picture {
    Picture(clock, h.dues, h.calls, Queued(timers), Serials(known), h.cancelled, h.fired, h.called)
  }

  lemma AddGoes(timers: seq<Timer>, h: History, known: seq<Timer>, t: Timer, delay: int, reading: int)
    requires t.serial == |h.dues| && t.end == delay + Later(h.now, reading)
    ensures var now := Later(h.now, reading);
      Goes(Seen(h.now, timers, h, known), Entered(Adds(delay, t.callback, reading)),
           Seen(now, timers + [t], Noted(h, t.end, t.callback, now), known + [t]))
  {
    assert Serials(timers + [t]) == Serials(timers) + [t.serial];
    assert Serials(known + [t]) == Serials(known) + [t.serial];
    assert Queued(timers + [t]) == Queued(timers) + {t.serial};
  }

  lemma CancelGoes(timers: seq<Timer>, h: History, known: seq<Timer>, k: nat, made: set<Timer>)
    requires Numbered(made, |h.dues|) && (forall t | t in timers || t in known :: t in made)
    ensures k >= |known| ==> Goes(Seen(h.now, timers, h, known), Entered(Cancels(k)), Seen(h.now, timers, h, known))
    ensures k < |known| ==>
      Goes(Seen(h.now, timers, h, known), Entered(Cancels(k)),
           Seen(h.now, timers,
                if known[k] in timers then h.(cancelled := h.cancelled + {known[k].serial}) else h, known))
  {
    if k < |known| {
      assert known[k] in known;
      assert known[k] in timers <==> known[k].serial in Queued(timers) by {
        if known[k].serial in Queued(timers) {
          var i :| 0 <= i < |timers| && timers[i].serial == known[k].serial;
          assert timers[i] in timers;
        }
        if known[k] in timers {
          var i :| 0 <= i < |timers| && timers[i] == known[k];
          assert Serials(timers)[i] == known[k].serial;
        }
      }
    }
  }

  lemma QueuedOff(timers: seq<Timer>, k: nat)
    requires k < |timers| && forall i, j | 0 <= i < j < |timers| :: timers[i].serial != timers[j].serial
    ensures Queued(timers[..k] + timers[k + 1..]) == Queued(timers) - {timers[k].serial}
    ensures forall s | s in Queued(timers) :: exists t :: t in timers && t.serial == s
    ensures timers[k].serial in Queued(timers)
  {
    var rest := timers[..k] + timers[k + 1..];
    forall s
      ensures s in Queued(rest) <==> s in Queued(timers) && s != timers[k].serial
    {
      if s in Queued(rest) {
        var i :| 0 <= i < |rest| && rest[i].serial == s;
        assert timers[if i < k then i else i + 1] == rest[i];
        assert Serials(timers)[if i < k then i else i + 1] == s;
      }
      if s in Queued(timers) && s != timers[k].serial {
        var i :| 0 <= i < |timers| && timers[i].serial == s;
        assert Serials(rest)[if i < k then i else i - 1] == s;
      }
    }
    forall s | s in Queued(timers)
      ensures exists t :: t in timers && t.serial == s
    {
      var i :| 0 <= i < |timers| && timers[i].serial == s;
      assert timers[i] in timers;
    }
    assert Serials(timers)[k] == timers[k].serial;
  }

  /** Taking the first timer off, dropped or called. */
  lemma TurnGoes(timers: seq<Timer>, k: nat, h: History, known: seq<Timer>)
    requires k < |timers| && (forall i, j | 0 <= i < j < |timers| :: timers[i].serial != timers[j].serial)
    requires forall t | t in timers :: Stands(t, h) && timers[k].end <= t.end
    requires timers[k].end < h.now
    ensures var t := timers[k]; var rest := timers[..k] + timers[k + 1..];
      if t.active then
        Goes(Seen(h.now, timers, h, known), Rang(t.serial, Call(t.callback, 0)),
             Seen(h.now, rest, Rung(h, t.serial, t.callback), known))
      else Goes(Seen(h.now, timers, h, known), TakenOff(t.serial), Seen(h.now, rest, h, known))
  {
    QueuedOff(timers, k);
    assert timers[k] in timers;
  }

  class TimerMgr {
    var timers: seq<Timer>
    /** The last clock reading; the clock does not go back. */
    var clock: int
    ghost var h: History
    /** All timers made so far. */
    ghost var made: set<Timer>

    ghost predicate Valid()
      reads this, timers
    {
      && (forall t | t in timers :: t in made) && Numbered(made, |h.dues|)
      && FiredWell(h) && Passed(h) && h.now == clock
      && (forall t | t in timers :: Stands(t, h) && Behind(t.end, h))
      && (forall i, j | 0 <= i < j < |timers| :: timers[i].serial != timers[j].serial)
      && Accounted(timers, h)
    }

    constructor ()
      ensures Valid() && timers == [] && made == {}
      ensures h.dues == [] && h.calls == [] && h.fired == [] && h.called == [] && h.cancelled == {} && h.orderly
    {
      timers, clock, made := [], 0, {};
      h := History(0, [], [], map[], {}, [], [], [], true);
      new;
      hide FiredWell, Passed, Behind;
      NothingYet(h);
    }

    method ReadClock(reading: int) returns (now: int)
      requires Valid()
      modifies this`clock, this`h
      ensures Valid() && now == clock == Later(old(clock), reading) && h == old(h).(now := now)
    {
      hide FiredWell, Passed, Behind, Accounted;
      clock := Later(clock, reading);
      now := clock;
      LaterWell(timers, h, now);
      h := h.(now := now);
    }

    /** `addTimer` */
    method AddTimer(delay: int, callback: nat, reading: int) returns (t: Timer)
      requires Valid()
      modifies this
      ensures Valid() && fresh(t) && timers == old(timers) + [t] && made == old(made) + {t} &&
        clock == Later(old(clock), reading)
      ensures t.end == delay + clock && t.callback == callback && t.active && t.serial == |old(h.dues)|
      ensures h == Noted(old(h), t.end, callback, clock) && (h.orderly <==> old(h.orderly) && delay >= 0)
    {
      hide FiredWell, Passed, Behind, Accounted;
      var now := ReadClock(reading);
      t := new Timer(delay + now, callback, |h.dues|);
      AddedWell(h, t.end, callback, now);
      NotYet(h, t.serial);
      assert forall i | 0 <= i < |timers| :: timers[i] in timers;
      AccountedAdd(timers, t, h, Noted(h, t.end, callback, now));
      h := Noted(h, t.end, callback, now);
      timers := timers + [t];
      made := made + {t};
    }

    /** `Timer::cancel`, at any time. If the timer is still queued its add is cancelled; otherwise nothing changes. */
    method Cancel(t: Timer)
      requires Valid()
      modifies this`h, t`active
      ensures Valid() && !t.active
      ensures h == if t in timers then old(h).(cancelled := old(h.cancelled) + {t.serial}) else old(h)
    {
      hide FiredWell, Passed, Behind;
      if t in timers {
        CancelledWell(h, t.serial);
        h := h.(cancelled := h.cancelled + {t.serial});
      }
      t.active := false;
    }

    /** `top` of the queue under `CompareTimer`: a timer with the least end time. */
    method Top() returns (k: nat)
      requires timers != []
      ensures k < |timers| && forall t | t in timers :: timers[k].end <= t.end
    {
      k := 0;
      for i := 1 to |timers|
        invariant k < |timers| && forall j | 0 <= j < i :: timers[k].end <= timers[j].end
      {
        if timers[k].end > timers[i].end {
          k := i;
        }
      }
    }

    /**
     One turn of the loop of `schedule`, up to the call of the callback. The timer taken off is one that ends first
     and whose end time has passed; it fires unless it was cancelled.
     */
    method Turn(reading: int, ghost known: seq<Timer>) returns (r: Turned, popped: seq<Timer>)
      requires Valid()
      modifies this
      ensures Valid() && clock == Later(old(clock), reading) && made == old(made)
      ensures r.Waiting? ==> popped == [] && timers == old(timers) && h == old(h).(now := clock)
      ensures r.Waiting? ==> forall t | t in timers :: t.end >= clock
      ensures !r.Waiting? ==>
        && |popped| == 1 && popped[0] in old(timers) && popped[0].end < clock
        && (forall t | t in old(timers) :: popped[0].end <= t.end)
        && |timers| == |old(timers)| - 1 && popped[0] !in timers && (forall t | t in timers :: t in old(timers))
      ensures r.Calling? <==> popped != [] && popped[0].active
      ensures r.Dropping? ==> h == old(h).(now := clock)
      ensures r.Calling? ==>
        && r.callback == popped[0].callback
        && h == Rung(old(h).(now := clock), popped[0].serial, r.callback)
      ensures var p := Seen(clock, old(timers), old(h), known);
        match r
        case Waiting => true
        case Dropping => Goes(p, TakenOff(popped[0].serial), Seen(clock, timers, h, known))
        case Calling(f) => Goes(p, Rang(popped[0].serial, Call(f, 0)), Seen(clock, timers, h, known))
    {
      hide Seen, Goes, Numbered, FiredWell, Passed, Behind, Stands, Accounted;
      popped := [];
      var now := ReadClock(reading);
      if timers == [] {
        return Waiting, [];
      }
      var k := Top();
      var t := timers[k];
      if t.end >= now {
        return Waiting, [];
      }
      popped := [t];
      Removed(timers, k);
      TurnGoes(timers, k, h, known);
      SeenNow(clock, timers, old(h), now, known);
      TurnKeeps(timers, k, h);
      timers := timers[..k] + timers[k + 1..];
      if t.active {
        h := Rung(h, t.serial, t.callback);
        r := Calling(t.callback);
      } else {
        r := Dropping;
      }
    }

    /** How long to wait: no timer ends sooner, and one ends then unless the wait is over. */
    method NearEndMs(reading: int) returns (ms: int)
      requires Valid()
      modifies this`clock, this`h
      ensures Valid() && ms >= 0
      ensures ms > 0 ==>
        (forall t | t in timers :: clock + ms <= t.end) && exists t :: t in timers && t.end == clock + ms
      ensures ms == 0 && timers != [] ==> exists t :: t in timers && t.end <= clock
    {
      if timers == [] {
        return 0;
      }
      var now := ReadClock(reading);
      var k := Top();
      assert timers[k] in timers;
      ms := timers[k].end - now;
      if ms < 0 {
        ms := 0;
      }
    }
  }

  lemma TurnKeeps(timers: seq<Timer>, k: nat, h: History)
    requires k < |timers| && FiredWell(h) && Passed(h) && Accounted(timers, h) && timers[k].end < h.now
    requires forall t | t in timers :: Stands(t, h) && Behind(t.end, h) && timers[k].end <= t.end
    requires forall i, j | 0 <= i < j < |timers| :: timers[i].serial != timers[j].serial
    ensures var t := timers[k]; var rest := timers[..k] + timers[k + 1..];
      var g := if t.active then Rung(h, t.serial, t.callback) else h;
      FiredWell(g) && Passed(g) && Accounted(rest, g) && forall u | u in rest :: Stands(u, g) && Behind(u.end, g)
  {
    hide FiredWell, Passed, Behind, Accounted;
    var t, rest := timers[k], timers[..k] + timers[k + 1..];
    var g := if t.active then Rung(h, t.serial, t.callback) else h;
    Removed(timers, k);
    if t.active {
      FiredOnce(h, t.serial, t.callback);
    }
    AccountedOff(timers, k, h, g);
  }

  lemma SeenNow(clock: int, timers: seq<Timer>, h: History, now: int, known: seq<Timer>)
    ensures Seen(clock, timers, h.(now := now), known) == Seen(clock, timers, h, known)
  {
  }

  lemma CancelledWell(h: History, s: nat)
    requires FiredWell(h) && Passed(h) && s < |h.dues| && s !in h.fired
    ensures var g := h.(cancelled := h.cancelled + {s});
      FiredWell(g) && Passed(g) && forall end | Behind(end, h) :: Behind(end, g)
  {
    assert forall k | 0 <= k < |h.fired| :: h.fired[k] in h.fired;
  }

  lemma LaterWell(timers: seq<Timer>, h: History, now: int)
    requires FiredWell(h) && Passed(h) && h.now <= now && Accounted(timers, h)
    ensures var g := h.(now := now);
      FiredWell(g) && Passed(g) && Accounted(timers, g) && forall end | Behind(end, h) :: Behind(end, g)
  {
  }

  lemma NothingYet(h: History)
    requires h.dues == [] && h.calls == [] && h.fired == [] && h.firedAt == [] && h.called == [] && h.cancelled == {}
    ensures FiredWell(h) && Passed(h)
  {
  }

  lemma NotYet(h: History, s: nat)
    requires FiredWell(h) && s >= |h.dues|
    ensures s !in h.fired && s !in h.cancelled
  {
  }

  lemma Removed(timers: seq<Timer>, k: nat)
    requires k < |timers| && forall i, j | 0 <= i < j < |timers| :: timers[i].serial != timers[j].serial
    ensures var rest := timers[..k] + timers[k + 1..];
      && timers[k] in timers
      && (forall t | t in rest :: t in timers && t.serial != timers[k].serial)
      && forall i, j | 0 <= i < j < |rest| :: rest[i].serial != rest[j].serial
  {
    var rest := timers[..k] + timers[k + 1..];
    forall t | t in rest
      ensures t in timers && t.serial != timers[k].serial
    {
      var i :| 0 <= i < |rest| && rest[i] == t;
      assert timers[if i < k then i else i + 1] == t;
    }
  }

  /** When no end time of a queued timer has passed, every add whose end has passed was called or cancelled. */
  lemma AllServed(m: TimerMgr)
    requires m.Valid() && forall t | t in m.timers :: t.end >= m.clock
    ensures forall s: nat | s < |m.h.dues| && m.h.dues[s] < m.clock :: s in m.h.fired || s in m.h.cancelled
  {
    hide FiredWell;
  }

  /** Any use: additions, cancellations and turns of the scheduling loop, in any order and nesting. */
  datatype Event = Adds(delay: int, callback: nat, reading: int) | Cancels(k: nat) | Turns(reading: int)

  /** The clock, and the end times and callbacks of all adds, after a run. */
  function AddsAll(clock: int, dues: seq<int>, calls: seq<Call>, events: seq<Event>): (int, seq<int>, seq<Call>) {
    if events == [] then (clock, dues, calls)
    else
      var (c, d, f) := AddsAll(clock, dues, calls, events[..|events| - 1]);
      match events[|events| - 1]
      case Adds(delay, callback, reading) =>
        (Later(c, reading), d + [delay + Later(c, reading)], f + [Call(callback, 0)])
      case Cancels(k) => (c, d, f)
      case Turns(reading) => (Later(c, reading), d, f)
  }

  predicate NoneNegative(events: seq<Event>) {
    forall i | 0 <= i < |events| && events[i].Adds? :: events[i].delay >= 0
  }

  lemma GoesNowhere(p: Picture)
    ensures GoesOn(p, [], p) && Inputs([]) == [] && Flat([]) == []
  {
  }

  /** The outcome of a turn, after the clock reading. */
  lemma TurnEnds(p: Picture, x: seq<Moment>, q: Picture, r: Turned, s: nat, z: Picture)
    requires GoesOn(p, x, q)
    requires match r case Waiting => q == z
      case Dropping => Goes(q, TakenOff(s), z) case Calling(f) => Goes(q, Rang(s, Call(f, 0)), z)
    ensures var y := Outcome(r, s); GoesOn(p, x + y, z) && Inputs(x + y) == Inputs(x)
  {
    hide GoesOn, Inputs, Goes;
    match r
    case Waiting => assert x + [] == x;
    case Dropping => GoesStep(p, x, q, TakenOff(s), z);
    case Calling(f) => GoesStep(p, x, q, Rang(s, Call(f, 0)), z);
  }

  function Outcome(r: Turned, s: nat): seq<Moment> {
    match r
    case Waiting => []
    case Dropping => [TakenOff(s)]
    case Calling(f) => [Rang(s, Call(f, 0))]
  }

  /** The clock reading and the outcome of one turn. */
  method OneTurn(m: TimerMgr, reading: int, ghost known: seq<Timer>)
    returns (r: Turned, calls: seq<Call>, ghost steps: seq<Moment>)
    requires m.Valid() && forall t | t in known :: t in m.made
    modifies m
    ensures m.Valid() && m.made == old(m.made) && m.clock == Later(old(m.clock), reading)
    ensures Continues(old(m.h), m.h) && m.h.called == old(m.h.called) + calls && m.h.orderly == old(m.h.orderly)
    ensures r.Waiting? ==> forall t | t in m.timers :: t.end >= m.clock
    ensures GoesOn(old(Seen(m.clock, m.timers, m.h, known)), steps, Seen(m.clock, m.timers, m.h, known))
    ensures Inputs(steps) == [Event.Turns(reading)] &&
      exists s :: steps == [Entered(Event.Turns(reading))] + Outcome(r, s)
  {
    hide FiredWell, Accounted, GoesOn, Inputs, Goes, Seen, Numbered;
    ghost var p, timers, h := Seen(m.clock, m.timers, m.h, known), m.timers, m.h;
    var popped;
    r, popped := m.Turn(reading, known);
    ghost var q := Seen(m.clock, timers, h, known);
    ReadGoes(h.now, timers, h, known, reading);
    GoesNowhere(p);
    GoesStep(p, [], p, Entered(Event.Turns(reading)), q);
    ghost var s := if popped == [] then 0 else popped[0].serial;
    SeenNow(m.clock, timers, h, m.clock, known);
    TurnEnds(p, [] + [Entered(Event.Turns(reading))], q, r, s, Seen(m.clock, m.timers, m.h, known));
    steps := [Entered(Event.Turns(reading))] + Outcome(r, s);
    assert [] + [Entered(Event.Turns(reading))] == [Entered(Event.Turns(reading))];
    calls := if r.Calling? then [Call(r.callback, 0)] else [];
  }

  lemma ReadGoes(clock: int, timers: seq<Timer>, h: History, known: seq<Timer>, reading: int)
    ensures Goes(Seen(clock, timers, h, known), Entered(Event.Turns(reading)),
                 Seen(Later(clock, reading), timers, h, known))
  {
  }

  /** One use of the manager. */
  method Use(m: TimerMgr, known0: seq<Timer>, event: Event)
    returns (known: seq<Timer>, calls: seq<Call>, ghost steps: seq<Moment>)
    requires m.Valid() && forall t | t in known0 :: t in m.made
    modifies m, m.made
    ensures m.Valid() && Continues(old(m.h), m.h) && m.h.called == old(m.h.called) + calls
    ensures GoesOn(old(Seen(m.clock, m.timers, m.h, known0)), steps, Seen(m.clock, m.timers, m.h, known))
    ensures Inputs(steps) == [event]
    ensures NoneNegative([event]) ==> m.h.orderly == old(m.h.orderly)
    ensures old(m.made) <= m.made && fresh(m.made - old(m.made)) && (forall t | t in known :: t in m.made) &&
      known0 <= known
  {
    hide FiredWell, Accounted, GoesOn, Inputs, Goes, Seen, Numbered;
    known, calls, steps := known0, [], [];
    ghost var p, timers, h := Seen(m.clock, m.timers, m.h, known0), m.timers, m.h;
    GoesNowhere(p);
    match event
    case Adds(delay, callback, reading) =>
      var t := m.AddTimer(delay, callback, reading);
      AddGoes(timers, h, known0, t, delay, reading);
      known := known + [t];
      assert event == [event][0];
      steps := [] + [Entered(event)];
      GoesStep(p, [], p, Entered(event), Seen(m.clock, m.timers, m.h, known));
    case Cancels(k) =>
      CancelGoes(timers, h, known0, k, m.made);
      if k < |known| {
        assert known[k] in known;
        m.Cancel(known[k]);
      }
      steps := [] + [Entered(event)];
      GoesStep(p, [], p, Entered(event), Seen(m.clock, m.timers, m.h, known));
    case Turns(reading) =>
      var r;
      r, calls, steps := OneTurn(m, reading, known0);
  }

  /**
   Safety over whole runs: every add is recorded with its end time and callback and keeps them, each timer fires at
   most once, only after its end time and never once it is cancelled, and as long as no delay is negative the end
   times of fired timers never go down. The `calls` made are, in order, those of the timers fired. `known` are the
   timers that the application holds on to, queued or not.
   */
  method RunEvents(m: TimerMgr, known0: seq<Timer>, events: seq<Event>)
    returns (known: seq<Timer>, calls: seq<Call>, ghost steps: seq<Moment>)
    requires m.Valid() && forall t | t in known0 :: t in m.made
    modifies m, m.made
    ensures m.Valid() && FiredWell(m.h) && Passed(m.h) && Continues(old(m.h), m.h)
    ensures m.h.called == old(m.h.called) + calls
    ensures GoesOn(old(Seen(m.clock, m.timers, m.h, known0)), steps, Seen(m.clock, m.timers, m.h, known))
    ensures Inputs(steps) == events
    ensures (m.clock, m.h.dues, m.h.calls) == AddsAll(old(m.clock), old(m.h.dues), old(m.h.calls), events)
    ensures NoneNegative(events) ==> m.h.orderly == old(m.h.orderly)
    ensures old(m.made) <= m.made && fresh(m.made - old(m.made)) && (forall t | t in known :: t in m.made) &&
      known0 <= known
  {
    hide FiredWell, Accounted, GoesOn, Inputs, Seen, Numbered, AddsAll;
    known, calls, steps := known0, [], [];
    ghost var p := Seen(m.clock, m.timers, m.h, known0);
    SeenIs(m.clock, m.timers, m.h, known0);
    GoesNowhere(p);
    for i := 0 to |events|
      invariant m.Valid() && Continues(old(m.h), m.h) && m.h.called == old(m.h.called) + calls
      invariant GoesOn(p, steps, Seen(m.clock, m.timers, m.h, known)) && Inputs(steps) == events[..i]
      invariant NoneNegative(events) ==> m.h.orderly == old(m.h.orderly)
      invariant old(m.made) <= m.made && fresh(m.made - old(m.made)) && (forall t | t in known :: t in m.made) &&
        known0 <= known
    {
      assert events[..i + 1] == events[..i] + [events[i]];
      ghost var q := Seen(m.clock, m.timers, m.h, known);
      var made;
      ghost var more;
      known, made, more := Use(m, known, events[i]);
      GoesFurther(p, steps, q, more, Seen(m.clock, m.timers, m.h, known));
      calls, steps := calls + made, steps + more;
    }
    assert events[..|events|] == events;
    SeenAdds(p, steps, m.clock, m.timers, m.h, known, old(m.clock), old(m.h));
  }

  lemma SeenIs(clock: int, timers: seq<Timer>, h: History, known: seq<Timer>)
    ensures var p := Seen(clock, timers, h, known); (p.clock, p.dues, p.calls) == (clock, h.dues, h.calls)
  {
  }

  lemma SeenAdds(p: Picture, steps: seq<Moment>, clock: int, timers: seq<Timer>, h: History, known: seq<Timer>,
                 was: int, g: History)
    requires GoesOn(p, steps, Seen(clock, timers, h, known)) && (p.clock, p.dues, p.calls) == (was, g.dues, g.calls)
    ensures (clock, h.dues, h.calls) == AddsAll(was, g.dues, g.calls, Inputs(steps))
  {
    assert AddsAll(was, g.dues, g.calls, []) == (was, g.dues, g.calls);
    hide GoesOn, Inputs, AddsAll;
    GoesAdds(p, steps, Seen(clock, timers, h, known), [], p);
    assert [] + Inputs(steps) == Inputs(steps);
  }

  ghost predicate NoneNegatives(handlers: (nat, nat) -> seq<Event>, n: nat) {
    forall f :: NoneNegative(handlers(f, n))
  }

  /** One turn of the loop with the call of the callback. */
  method Serve(m: TimerMgr, known0: seq<Timer>, reading: int, n: nat, handlers: (nat, nat) -> seq<Event>)
    returns (r: Turned, known: seq<Timer>, calls: seq<Call>, ghost steps: seq<Moment>)
    requires m.Valid() && forall t | t in known0 :: t in m.made
    modifies m, m.made
    ensures m.Valid() && Continues(old(m.h), m.h) && m.clock >= reading && m.clock >= old(m.clock)
    ensures m.h.called == old(m.h.called) + calls
    ensures GoesOn(old(Seen(m.clock, m.timers, m.h, known0)), steps, Seen(m.clock, m.timers, m.h, known))
    ensures TurnOf(steps, reading, n, handlers) && (r.Waiting? ==> |steps| == 1)
    ensures NoneNegatives(handlers, n) ==> m.h.orderly == old(m.h.orderly)
    ensures old(m.made) <= m.made && fresh(m.made - old(m.made)) && forall t | t in known :: t in m.made
    ensures r.Waiting? ==> forall t | t in m.timers :: t.end >= m.clock
  {
    hide FiredWell, Accounted, AddsAll, GoesOn, Inputs, Seen, Numbered, TurnOf, Outcome, NoneNegative;
    ghost var p := Seen(m.clock, m.timers, m.h, known0);
    known := known0;
    ghost var more: seq<Moment> := [];
    r, calls, steps := OneTurn(m, reading, known0);
    TurnIs(r, steps, [], reading, n, handlers);
    if r.Calling? {
      ghost var q := Seen(m.clock, m.timers, m.h, known0);
      var nested;
      known, nested, more := RunEvents(m, known0, handlers(r.callback, n));
      TurnIs(r, steps, more, reading, n, handlers);
      GoesFurther(p, steps, q, more, Seen(m.clock, m.timers, m.h, known));
      calls, steps := calls + nested, steps + more;
    } else {
      assert steps + [] == steps;
    }
  }

  /**
   `schedule`, with callbacks that use the manager again and may cancel any timer, also the one being called.
   `readings` are the clock values that the call sees, one for each turn; a call that comes to its end has called or
   found cancelled every timer whose end time has passed. `calls` are the callbacks called, in order, and `turns` is all
   that happens, turn by turn: what a callback adds and cancels is there afterwards.
   */
  method Schedule(m: TimerMgr, known0: seq<Timer>, readings: seq<int>, handlers: (nat, nat) -> seq<Event>)
    returns (ended: bool, known: seq<Timer>, calls: seq<Call>, ghost turns: seq<seq<Moment>>)
    requires m.Valid() && forall t | t in known0 :: t in m.made
    modifies m, m.made
    ensures m.Valid() && FiredWell(m.h) && Passed(m.h) && Continues(old(m.h), m.h)
    ensures m.h.called == old(m.h.called) + calls
    ensures GoesOn(old(Seen(m.clock, m.timers, m.h, known0)), Flat(turns), Seen(m.clock, m.timers, m.h, known))
    ensures |turns| <= |readings| && forall i | 0 <= i < |turns| :: TurnOf(turns[i], readings[i], i, handlers)
    ensures if ended then turns != [] && |turns[|turns| - 1]| == 1 else |turns| == |readings|
    ensures (m.clock, m.h.dues, m.h.calls) ==
            AddsAll(old(m.clock), old(m.h.dues), old(m.h.calls), Inputs(Flat(turns)))
    ensures (forall f, n :: NoneNegative(handlers(f, n))) ==> m.h.orderly == old(m.h.orderly)
    ensures ended ==> forall s: nat | s < |m.h.dues| && m.h.dues[s] < m.clock :: s in m.h.fired || s in m.h.cancelled
    ensures !ended ==> forall i | 0 <= i < |readings| :: m.clock >= readings[i]
  {
    hide FiredWell, Accounted, AddsAll, GoesOn, Inputs, Seen, Numbered, TurnOf, Outcome;
    ended, known, calls, turns := false, known0, [], [];
    ghost var p := Seen(m.clock, m.timers, m.h, known0);
    SeenIs(m.clock, m.timers, m.h, known0);
    GoesNowhere(p);
    for i := 0 to |readings|
      invariant m.Valid() && Continues(old(m.h), m.h) && forall j | 0 <= j < i :: m.clock >= readings[j]
      invariant m.h.called == old(m.h.called) + calls
      invariant GoesOn(p, Flat(turns), Seen(m.clock, m.timers, m.h, known))
      invariant |turns| == i && forall j | 0 <= j < i :: TurnOf(turns[j], readings[j], j, handlers)
      invariant (forall f, n :: NoneNegative(handlers(f, n))) ==> m.h.orderly == old(m.h.orderly)
      invariant old(m.made) <= m.made && fresh(m.made - old(m.made)) && forall t | t in known :: t in m.made
    {
      ghost var q := Seen(m.clock, m.timers, m.h, known);
      assert NoneNegatives(handlers, i) || !forall f, n :: NoneNegative(handlers(f, n));
      ghost var x;
      var r, made;
      r, known, made, x := Serve(m, known, readings[i], i, handlers);
      GoesFurther(p, Flat(turns), q, x, Seen(m.clock, m.timers, m.h, known));
      FlatOn(turns, x);
      calls, turns := calls + made, turns + [x];
      if r.Waiting? {
        AllServed(m);
        ended := true;
        break;
      }
    }
    SeenAdds(p, Flat(turns), m.clock, m.timers, m.h, known, old(m.clock), old(m.h));
  }

  lemma TurnIs(r: Turned, x: seq<Moment>, more: seq<Moment>, reading: int, n: nat, handlers: (nat, nat) -> seq<Event>)
    requires exists s :: x == [Entered(Event.Turns(reading))] + Outcome(r, s)
    ensures (if r.Calling? then Inputs(more) == handlers(r.callback, n) else more == []) ==>
      TurnOf(x + more, reading, n, handlers) && (r.Waiting? ==> |x + more| == 1)
  {
    hide Inputs;
    if r.Calling? {
      assert (x + more)[2..] == more;
    }
  }

  lemma FlatOn(turns: seq<seq<Moment>>, x: seq<Moment>)
    ensures Flat(turns + [x]) == Flat(turns) + x
  {
    assert (turns + [x])[..|turns|] == turns;
  }
}
