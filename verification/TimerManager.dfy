/**
 The timer manager of `timeaction.c`: a growable array of nodes, a stack of free ids and a heap of pending ids
 ordered by the due times in the nodes. Cancelling only clears a node's callback, and callbacks may add and
 cancel timers while the manager is scheduling.
 */
module TimerManager {
  import opened Wrappers
  import opened IdHeap

  /** A node; a timer without a callback has been cancelled. */
  datatype Node = Node(index: int, due: int, arg: int, callback: Option<nat>)

  /** A callback of the application with its argument. */
  datatype Call = Call(callback: nat, arg: int)

  /**
   What has happened so far. Every successful add has a serial number: `dues` gives its due time, `calls` what it asked
   to be called, `serial` the number of the add that an id in the heap stands for, `fired` the adds fired, in order,
   `firedAt` the clock readings at which they were, and `called` what was called; `orderly` says that no delay has been
   negative.
   */
  datatype History = History(now: int, dues: seq<int>, calls: seq<Call>, serial: map<int, nat>, cancelled: set<nat>,
                             fired: seq<nat>, firedAt: seq<int>, called: seq<Call>, orderly: bool)

  /** The keys of the heap. */
  function Dues(nodes: seq<Node>): (r: seq<int>)
    ensures |r| == |nodes| && forall i | 0 <= i < |nodes| :: r[i] == nodes[i].due
  {
    seq(|nodes|, i requires 0 <= i < |nodes| => nodes[i].due)
  }

  /** Every id is in exactly one of the free stack and the heap, once. */
  ghost predicate Partitioned(free: seq<int>, heap: seq<int>, n: nat) {
    && Distinct(free) && Distinct(heap)
    && (forall i | 0 <= i < |free| :: 0 <= free[i] < n && free[i] !in heap)
    && (forall i | 0 <= i < |heap| :: 0 <= heap[i] < n)
    && (forall id | 0 <= id < n :: id in free || id in heap)
  }

  /**
   Pending ids stand for distinct adds that have not fired, with the key they were added with; live unless cancelled,
   and then with the callback and argument they were added with.
   */
  ghost predicate Tracked(nodes: seq<Node>, heap: seq<int>, h: History) {
    && (forall i | 0 <= i < |nodes| :: nodes[i].index == i)
    && (forall id | id in heap ::
          && 0 <= id < |nodes| && id in h.serial && h.serial[id] < |h.dues| == |h.calls|
          && h.dues[h.serial[id]] == nodes[id].due
          && (nodes[id].callback.Some? ==> h.calls[h.serial[id]] == Call(nodes[id].callback.value, nodes[id].arg))
          && (nodes[id].callback.Some? <==> h.serial[id] !in h.cancelled)
          && h.serial[id] !in h.fired)
    && (forall x, y | x in heap && y in heap && x != y :: h.serial[x] != h.serial[y])
  }

  /**
   Each add fires at most once, not early, never after being cancelled, and in order of due times, and what is called
   then is what that add asked for.
   */
  ghost predicate FiredWell(h: History) {
    && |h.firedAt| == |h.fired| == |h.called| && |h.calls| == |h.dues| && (forall s | s in h.cancelled :: s < |h.dues|)
    && (forall k | 0 <= k < |h.fired| ::
          && h.fired[k] < |h.dues| && h.fired[k] !in h.cancelled && h.dues[h.fired[k]] <= h.firedAt[k] <= h.now
          && h.called[k] == h.calls[h.fired[k]])
    && (forall j, k | 0 <= j < k < |h.fired| :: h.fired[j] != h.fired[k])
    && (h.orderly ==> forall j, k | 0 <= j < k < |h.fired| :: h.dues[h.fired[j]] <= h.dues[h.fired[k]])
  }

  /** Nothing pending is due before what has fired. */
  ghost predicate NotOvertaken(nodes: seq<Node>, heap: seq<int>, h: History)
    requires FiredWell(h)
  {
    h.orderly && h.fired != [] ==>
      forall id | id in heap && 0 <= id < |nodes| :: h.dues[h.fired[|h.fired| - 1]] <= nodes[id].due
  }

  /** An id moves from the top of the free stack to the heap. */
  lemma Issue(free: seq<int>, heap: seq<int>, n: nat)
    requires Partitioned(free, heap, n) && free != []
    ensures var id := free[|free| - 1]; 0 <= id < n && id !in heap && Partitioned(free[..|free| - 1], heap + [id], n)
  {
  }

  function Without(s: seq<int>, k: nat): seq<int>
    requires k < |s|
  {
    s[..k] + s[k + 1..]
  }

  lemma WithoutMembers(s: seq<int>, k: nat, id: int)
    requires k < |s| && Distinct(s)
    ensures Distinct(Without(s, k)) && (id in Without(s, k) <==> id in s && id != s[k])
  {
    var r := Without(s, k);
    forall i, j | 0 <= i < j < |r|
      ensures r[i] != r[j]
    {
      assert r[i] == s[if i < k then i else i + 1] && r[j] == s[if j < k then j else j + 1];
    }
    if id in s && id != s[k] {
      var i :| 0 <= i < |s| && s[i] == id;
      assert r[if i < k then i else i - 1] == id;
    }
    if id in r {
      var i :| 0 <= i < |r| && r[i] == id;
      assert s[if i < k then i else i + 1] == id;
    }
  }

  /** An id moves from the heap to the top of the free stack. */
  lemma Release(free: seq<int>, heap: seq<int>, n: nat, k: nat)
    requires Partitioned(free, heap, n) && k < |heap|
    ensures Partitioned(free + [heap[k]], Without(heap, k), n)
  {
    forall id: int
      ensures id in Without(heap, k) <==> id in heap && id != heap[k]
    {
      WithoutMembers(heap, k, id);
    }
    WithoutMembers(heap, k, heap[k]);
  }

  /** Every add has fired, is cancelled, or is pending. */
  ghost predicate Covered(heap: seq<int>, h: History) {
    forall s: nat | s < |h.dues| && s !in h.fired && s !in h.cancelled ::
      exists id :: id in heap && id in h.serial && h.serial[id] == s
  }

  // ----- the history of each operation -----

  function Added(h: History, id: int, due: int, call: Call, now: int): History {
    h.(now := now, dues := h.dues + [due], calls := h.calls + [call], serial := h.serial[id := |h.dues|],
       orderly := h.orderly && due >= now)
  }

  function Cancelled(h: History, id: int, pending: bool): History {
    if pending && id in h.serial then h.(cancelled := h.cancelled + {h.serial[id]}) else h
  }

  function Fired(h: History, id: int, call: Call, now: int): History
    requires id in h.serial
  {
    h.(fired := h.fired + [h.serial[id]], firedAt := h.firedAt + [now], called := h.called + [call])
  }

  ghost predicate Consistent(nodes: seq<Node>, heap: seq<int>, h: History) {
    Tracked(nodes, heap, h) && FiredWell(h) && NotOvertaken(nodes, heap, h)
  }

  lemma AddKeeps(nodes: seq<Node>, heap: seq<int>, h: History, id: int, due: int, now: int, arg: int, cb: nat)
    requires Consistent(nodes, heap, h) && 0 <= id < |nodes| && id !in heap && h.now <= now
    ensures Consistent(nodes[id := Node(id, due, arg, Some(cb))], heap + [id], Added(h, id, due, Call(cb, arg), now))
  {
    var g := Added(h, id, due, Call(cb, arg), now);
    var m := nodes[id := Node(id, due, arg, Some(cb))];
    forall x | x in heap + [id]
      ensures 0 <= x < |m| && x in g.serial && g.serial[x] < |g.dues| == |g.calls| && g.dues[g.serial[x]] == m[x].due
      ensures m[x].callback.Some? ==> g.calls[g.serial[x]] == Call(m[x].callback.value, m[x].arg)
      ensures (m[x].callback.Some? <==> g.serial[x] !in g.cancelled) && g.serial[x] !in g.fired
    {
      if x != id {
        assert x in heap;
      }
    }
    assert forall x | x in heap + [id] :: x in heap || x == id;
    if h.fired != [] {
      assert h.dues[h.fired[|h.fired| - 1]] <= h.firedAt[|h.fired| - 1];
    }
  }

  lemma CancelKeeps(nodes: seq<Node>, heap: seq<int>, h: History, id: int)
    requires Consistent(nodes, heap, h) && 0 <= id < |nodes|
    ensures Consistent(nodes[id := nodes[id].(callback := None)], heap, Cancelled(h, id, id in heap))
  {
  }

  lemma DropKeeps(nodes: seq<Node>, heap: seq<int>, h: History, k: nat)
    requires Consistent(nodes, heap, h) && k < |heap| && Distinct(heap)
    ensures Consistent(nodes, Without(heap, k), h)
  {
    assert forall x | x in Without(heap, k) :: x in heap;
  }

  lemma FireKeeps(nodes: seq<Node>, heap: seq<int>, h: History, k: nat, now: int)
    requires Consistent(nodes, heap, h) && k < |heap| && Distinct(heap) && now <= h.now && 0 <= heap[k] < |nodes|
    requires nodes[heap[k]].callback.Some? && nodes[heap[k]].due <= now
    requires forall id | id in heap && 0 <= id < |nodes| :: nodes[heap[k]].due <= nodes[id].due
    ensures var node := nodes[heap[k]];
      heap[k] in h.serial &&
      Consistent(nodes, Without(heap, k), Fired(h, heap[k], Call(node.callback.value, node.arg), now))
  {
    var id := heap[k];
    var g := Fired(h, id, Call(nodes[id].callback.value, nodes[id].arg), now);
    assert id in heap;
    forall x: int
      ensures x in Without(heap, k) <==> x in heap && x != id
    {
      WithoutMembers(heap, k, x);
    }
    forall i, j | 0 <= i < j < |g.fired|
      ensures g.fired[i] != g.fired[j] && (g.orderly ==> g.dues[g.fired[i]] <= g.dues[g.fired[j]])
    {
      if j == |h.fired| {
        assert g.fired[j] == h.serial[id] && g.fired[i] == h.fired[i] && h.fired[i] in h.fired;
        assert h.orderly ==> h.dues[h.fired[i]] <= h.dues[h.fired[|h.fired| - 1]] <= nodes[id].due;
      }
    }
    assert FiredWell(g);
  }

  lemma GrowKeeps(nodes: seq<Node>, heap: seq<int>, h: History, more: seq<Node>)
    requires Consistent(nodes, heap, h) && |nodes| <= |more| && more[..|nodes|] == nodes
    requires forall i | 0 <= i < |more| :: more[i].index == i
    ensures Consistent(more, heap, h)
  {
    assert forall i | 0 <= i < |nodes| :: more[i] == more[..|nodes|][i];
  }

  lemma CoveredAdd(heap: seq<int>, h: History, id: int, due: int, call: Call, now: int)
    requires Covered(heap, h) && id !in heap
    ensures Covered(heap + [id], Added(h, id, due, call, now))
  {
    var g := Added(h, id, due, call, now);
    forall s: nat | s < |g.dues| && s !in g.fired && s !in g.cancelled
      ensures exists x :: x in heap + [id] && x in g.serial && g.serial[x] == s
    {
      if s == |h.dues| {
        assert id in heap + [id];
      } else {
        var x :| x in heap && x in h.serial && h.serial[x] == s;
        assert x in heap + [id];
      }
    }
  }

  /** Taking an id off is fine once its add is accounted for. */
  lemma CoveredOff(heap: seq<int>, rest: seq<int>, h: History, g: History, id: int)
    requires Covered(heap, h) && id in heap && id in h.serial && g.dues == h.dues && g.serial == h.serial &&
      g.cancelled == h.cancelled
    requires (forall s | s in h.fired :: s in g.fired) && (h.serial[id] in g.fired || h.serial[id] in g.cancelled)
    requires forall x: int :: x in rest <==> x in heap && x != id
    ensures Covered(rest, g)
  {
    forall s: nat | s < |g.dues| && s !in g.fired && s !in g.cancelled
      ensures exists x :: x in rest && x in g.serial && g.serial[x] == s
    {
      var x :| x in heap && x in h.serial && h.serial[x] == s;
      assert x != id;
    }
  }

  lemma CoveredCancel(heap: seq<int>, h: History, id: int)
    requires Covered(heap, h)
    ensures Covered(heap, Cancelled(h, id, id in heap))
  {
  }

  /** Only which ids are pending matters, not their order in the heap. */
  lemma ShuffledKeeps(nodes: seq<Node>, free: seq<int>, a: seq<int>, b: seq<int>, h: History)
    requires Shuffled(a, b)
    ensures Partitioned(free, a, |nodes|) ==> Partitioned(free, b, |nodes|)
    ensures Consistent(nodes, a, h) ==> Consistent(nodes, b, h)
    ensures Covered(a, h) ==> Covered(b, h)
  {
    if Partitioned(free, a, |nodes|) {
      assert forall i | 0 <= i < |b| :: b[i] in b;
      assert forall x | x in a :: 0 <= x < |nodes|;
    }
    if Covered(a, h) {
      forall s: nat | s < |h.dues| && s !in h.fired && s !in h.cancelled
        ensures exists id :: id in b && id in h.serial && h.serial[id] == s
      {
        var id :| id in a && id in h.serial && h.serial[id] == s;
        assert id in b;
      }
    }
  }

  lemma LaterClock(nodes: seq<Node>, heap: seq<int>, h: History, now: int)
    requires Consistent(nodes, heap, h) && h.now <= now
    ensures Consistent(nodes, heap, h.(now := now))
  {
  }

  lemma Nothing(h: History)
    requires h.dues == [] && h.calls == [] && h.cancelled == {} && h.fired == [] && h.firedAt == [] && h.called == []
    ensures Partitioned([], [], 0) && Consistent([], [], h) && Covered([], h) && Ordered([], [])
  {
  }

  lemma ReversedStack(free: seq<int>, ids: seq<int>, heap: seq<int>, n: nat)
    requires Partitioned(free, heap, n) && |ids| == |free| &&
      forall i | 0 <= i < |ids| :: ids[i] == free[|free| - 1 - i]
    ensures Partitioned(ids, heap, n)
  {
    forall id | id in free
      ensures id in ids
    {
      var i :| 0 <= i < |free| && free[i] == id;
      assert ids[|free| - 1 - i] == id;
    }
  }

  lemma NewId(free: seq<int>, heap: seq<int>, n: nat)
    requires Partitioned(free, heap, n)
    ensures Partitioned(free + [n], heap, n + 1)
  {
    assert forall id | id in free || id in heap :: id in free + [n] || id in heap;
    assert n in free + [n];
  }

  /** What a callback does with the manager while it runs; `reading` is what the clock shows then. */
  datatype Action = AddTimer(callback: Option<nat>, delay: int, arg: int, reading: int) | DelTimer(id: int)

  /** The callbacks of the application: what each does, given its argument and how many have fired before. */
  type Handlers = (nat, int, nat) -> seq<Action>

  predicate OnlyPositive(actions: seq<Action>) {
    forall i | 0 <= i < |actions| && actions[i].AddTimer? :: actions[i].delay > 0
  }

  /** The clock, and the due times and callbacks of all adds, after an action; a manager without nodes adds nothing. */
  function Adds(clock: int, dues: seq<int>, calls: seq<Call>, a: Action, room: bool): (int, seq<int>, seq<Call>) {
    if a.AddTimer? && a.callback.Some? && room
    then (Later(clock, a.reading), dues + [Later(clock, a.reading) + a.delay], calls + [Call(a.callback.value, a.arg)])
    else (clock, dues, calls)
  }

  predicate NotNegative(a: Action) {
    a.AddTimer? ==> a.delay >= 0
  }

  datatype Outcome = Finished | Dropped | Fire(call: Call)

  /** The clock does not go back. */
  function Later(clock: int, reading: int): int {
    if reading > clock then reading else clock
  }

  /** What has happened is not forgotten or changed: adds, cancellations and firings are only added. */
  predicate Continues(g: History, h: History) {
    && g.dues <= h.dues && g.calls <= h.calls && g.cancelled <= h.cancelled
    && g.fired <= h.fired && g.firedAt <= h.firedAt && g.called <= h.called && g.now <= h.now
    && (h.orderly ==> g.orderly)
  }

  // ----- what happens, step by step -----

  /** What can be seen of a manager: `pending` tells the add that each pending id stands for. */
  datatype View = View(clock: int, dues: seq<int>, calls: seq<Call>, pending: map<int, nat>, cancelled: set<nat>,
                       fired: seq<nat>, called: seq<Call>, room: bool)

  /**
   A clock reading, an action with the id that it returned, a cancelled timer taken off, and a timer that fires at a
   time sampled before.
   */
  datatype Happening =
    Reads(reading: int, lag: nat) | Did(a: Action, id: int) | Drops(id: int) | Fires(id: int, call: Call, at: int)

  function Pending(heap: seq<int>, serial: map<int, nat>): map<int, nat> {
    map id | id in heap && id in serial :: serial[id]
  }

  function ViewOf(clock: int, heap: seq<int>, h: History, room: bool): View {
    View(clock, h.dues, h.calls, Pending(heap, h.serial), h.cancelled, h.fired, h.called, room)
  }

  /** What each of them does. Cancelling a pending id cancels the add that it stands for at that moment. */
  function Then(v: View, e: Happening): View {
    match e
    case Reads(reading, lag) => v.(clock := Later(v.clock, reading))
    case Did(a, id) =>
      if a.DelTimer? then
        if a.id in v.pending then v.(cancelled := v.cancelled + {v.pending[a.id]}) else v
      else if a.callback.Some? && v.room then
        var now := Later(v.clock, a.reading);
        v.(clock := now, dues := v.dues + [now + a.delay], calls := v.calls + [Call(a.callback.value, a.arg)],
           pending := v.pending[id := |v.dues|])
      else v
    case Drops(id) => v.(pending := v.pending - {id})
    case Fires(id, call, at) =>
      if id in v.pending
      then v.(pending := v.pending - {id}, fired := v.fired + [v.pending[id]], called := v.called + [call]) else v
  }

  predicate Live(v: View, id: int) {
    id in v.pending && v.pending[id] < |v.dues| == |v.calls| && v.pending[id] !in v.cancelled
  }

  /**
   When each of them may happen: an id that is handed out was not pending, what is dropped was cancelled, and what fires
   is live, due, and first among the live, and calls what its add asked for.
   */
  predicate May(v: View, e: Happening) {
    match e
    case Reads(reading, lag) => true
    case Did(a, id) =>
      a.AddTimer? ==> if a.callback.Some? && v.room then id >= 0 && id !in v.pending else id == -1
    case Drops(id) => id in v.pending && v.pending[id] in v.cancelled
    case Fires(id, call, at) =>
      && Live(v, id) && v.dues[v.pending[id]] <= at <= v.clock && call == v.calls[v.pending[id]]
      && forall x | x in v.pending && Live(v, x) :: v.dues[v.pending[id]] <= v.dues[v.pending[x]]
  }

  predicate Happens(v: View, e: Happening, w: View) {
    May(v, e) && Then(v, e) == w
  }

  function Replay(v: View, steps: seq<Happening>): View {
    if steps == [] then v else Then(Replay(v, steps[..|steps| - 1]), steps[|steps| - 1])
  }

  predicate MayAll(v: View, steps: seq<Happening>) {
    steps != [] ==>
      MayAll(v, steps[..|steps| - 1]) && May(Replay(v, steps[..|steps| - 1]), steps[|steps| - 1])
  }

  /** These steps may happen and lead from one view to the other. */
  predicate Leads(v: View, steps: seq<Happening>, w: View) {
    MayAll(v, steps) && Replay(v, steps) == w
  }

  lemma LeadsOne(v: View, e: Happening)
    requires May(v, e)
    ensures Leads(v, [e], Then(v, e))
  {
    hide May, Then;
    assert [e][..0] == [] && Replay(v, []) == v && MayAll(v, []);
  }

  lemma {:induction false} LeadsOn(v: View, x: seq<Happening>, w: View, y: seq<Happening>, z: View)
    requires Leads(v, x, w) && Leads(w, y, z)
    ensures Leads(v, x + y, z) && Story(x + y) == Story(x) + Story(y)
    decreases |y|
  {
    hide May, Then, StoryOf;
    if y == [] {
      assert x + y == x && Story(x) + [] == Story(x);
    } else {
      var init := y[..|y| - 1];
      LeadsOn(v, x, w, init, Replay(w, init));
      StepsJoin(x, y);
      ItemsJoin(Story(x), Story(init), StoryOf(y[|y| - 1]));
    }
  }

  lemma StepsJoin(x: seq<Happening>, y: seq<Happening>)
    requires y != []
    ensures (x + y)[..|x + y| - 1] == x + y[..|y| - 1] && (x + y)[|x + y| - 1] == y[|y| - 1]
  {
  }

  lemma ItemsJoin(x: seq<Item>, y: seq<Item>, z: seq<Item>)
    ensures x + y + z == x + (y + z)
  {
  }

  /** An id that is pending when it is deleted: the add that it stands for then is cancelled, whatever happens later. */
  lemma {:induction false} DeletedStays(v: View, steps: seq<Happening>, k: nat)
    requires k < |steps| && steps[k].Did? && steps[k].a.DelTimer? && steps[k].a.id in Replay(v, steps[..k]).pending
    ensures Replay(v, steps[..k]).pending[steps[k].a.id] in Replay(v, steps).cancelled
    decreases |steps|
  {
    hide Then;
    var init, e := steps[..|steps| - 1], steps[|steps| - 1];
    ThenCancels(Replay(v, init), e);
    if k < |init| {
      assert init[..k] == steps[..k];
      DeletedStays(v, init, k);
    } else {
      assert init == steps[..k];
    }
  }

  lemma ThenCancels(v: View, e: Happening)
    ensures var w := Then(v, e);
      && v.cancelled <= w.cancelled
      && (e.Did? && e.a.DelTimer? && e.a.id in v.pending ==> v.pending[e.a.id] in w.cancelled)
  {
  }

  /** The outside view of what happened: what was entered, and what was called. */
  datatype Item = Enters(event: Event) | Calls(call: Call)

  function StoryOf(e: Happening): seq<Item> {
    match e
    case Reads(reading, lag) => [Enters(Turns(reading, lag))]
    case Did(a, id) => [Enters(Does(a))]
    case Drops(id) => []
    case Fires(id, call, at) => [Calls(call)]
  }

  function Story(steps: seq<Happening>): seq<Item> {
    if steps == [] then [] else Story(steps[..|steps| - 1]) + StoryOf(steps[|steps| - 1])
  }

  function Inputs(items: seq<Item>): seq<Event> {
    if items == [] then []
    else Inputs(items[..|items| - 1]) + if items[|items| - 1].Enters? then [items[|items| - 1].event] else []
  }

  function Doings(actions: seq<Action>): seq<Item> {
    seq(|actions|, i requires 0 <= i < |actions| => Enters(Does(actions[i])))
  }

  /** A call of the scheduler: the clock is read, and each callback called does at once what it does. */
  function Told(reading: int, calls: seq<Call>, handlers: Handlers): seq<Item> {
    if calls == [] then [Enters(Turns(reading, 0))]
    else
      var init, last := calls[..|calls| - 1], calls[|calls| - 1];
      Told(reading, init, handlers) + ([Calls(last)] + Doings(handlers(last.callback, last.arg, |init|)))
  }

  lemma {:induction false} ItemsOn(x: seq<Item>, y: seq<Item>)
    ensures Inputs(x + y) == Inputs(x) + Inputs(y)
    decreases |y|
  {
    if y == [] {
      assert x + y == x;
    } else {
      ItemsOn(x, y[..|y| - 1]);
      assert (x + y)[..|x + y| - 1] == x + y[..|y| - 1];
    }
  }

  /** The clock, due times and callbacks follow from what was entered. */
  lemma {:induction false} ReplayAdds(v: View, steps: seq<Happening>)
    ensures var w := Replay(v, steps);
      && (w.clock, w.dues, w.calls) == AddsAll(v.clock, v.dues, v.calls, Inputs(Story(steps)), v.room)
      && w.room == v.room
    decreases |steps|
  {
    hide Adds;
    if steps != [] {
      var init, e := steps[..|steps| - 1], steps[|steps| - 1];
      ReplayAdds(v, init);
      ItemsOn(Story(init), StoryOf(e));
      var w := Replay(v, init);
      ThenAdds(w, e);
      OneInput(e);
      if !(e.Reads? || e.Did?) {
        assert Inputs(Story(init)) + [] == Inputs(Story(init));
      } else {
        var events := Inputs(Story(steps));
        assert events[..|events| - 1] == Inputs(Story(init));
      }
    }
  }

  lemma OneInput(e: Happening)
    ensures Inputs(StoryOf(e)) == InputOf(e)
  {
    var x := StoryOf(e);
    assert |x| <= 1;
    assert x != [] ==> x[..0] == [];
  }

  lemma ThenAdds(v: View, e: Happening)
    ensures var w := Then(v, e);
      && w.room == v.room
      && (w.clock, w.dues, w.calls) ==
         if e.Did? then Adds(v.clock, v.dues, v.calls, e.a, v.room)
         else if e.Reads? then (Later(v.clock, e.reading), v.dues, v.calls) else (v.clock, v.dues, v.calls)
  {
  }

  class TimerMgr {
    var nodes: seq<Node>
    var free: seq<int>
    var heap: seq<int>
    /** The last clock reading; the clock does not go back. */
    var clock: int
    ghost var h: History

    ghost predicate Valid()
      reads this
    {
      && Partitioned(free, heap, |nodes|) && Consistent(nodes, heap, h) && Covered(heap, h) && clock == h.now
      && Ordered(Dues(nodes), heap)
    }

    ghost function Seen(): View
      reads this
    {
      ViewOf(clock, heap, h, |nodes| > 0)
    }

    /** `ox_getnowtime` */
    method ReadClock(reading: int) returns (now: int)
      requires Valid()
      modifies this`clock, this`h
      ensures Valid() && now == clock == Later(old(clock), reading) && h == old(h).(now := now)
      ensures Seen() == old(Seen()).(clock := now)
    {
      hide Partitioned, Consistent, Ordered, Pending;
      clock := Later(clock, reading);
      now := clock;
      LaterClock(nodes, heap, h, now);
      h := h.(now := now);
    }

    /** `ox_timer_mgr_new` */
    constructor (num: nat)
      ensures Valid() && |nodes| == num && heap == []
      ensures h.dues == [] && h.calls == [] && h.fired == [] && h.called == [] && h.cancelled == {} && h.orderly
    {
      nodes, free, heap, clock := [], [], [], 0;
      h := History(0, [], [], map[], {}, [], [], [], true);
      new;
      hide Partitioned, Consistent, Covered, Ordered;
      Nothing(h);
      assert Dues(nodes) == [];
      Grow(num);
    }

    /** `timeaction_mgr_init`: a larger node array with the old nodes, and all new ids free. */
    method Grow(num: nat)
      requires Valid() && |nodes| <= num
      modifies this`nodes, this`free
      ensures Valid() && |nodes| == num && nodes[..old(|nodes|)] == old(nodes)
      ensures num > old(|nodes|) ==> free != []
    {
      hide Partitioned, FiredWell, NotOvertaken, Covered, Ordered;
      assert forall i | 0 <= i < |nodes| :: nodes[i].index == i;
      var more := nodes;
      var ids: seq<int> := [];
      var rest := free;
      // the old stack is popped onto the new one
      while rest != []
        invariant |ids| + |rest| == |free| && rest == free[..|rest|]
        invariant forall i | 0 <= i < |ids| :: ids[i] == free[|free| - 1 - i]
      {
        ids, rest := ids + [rest[|rest| - 1]], rest[..|rest| - 1];
      }
      ReversedStack(free, ids, heap, |nodes|);
      for i := |nodes| to num
        invariant nodes == old(nodes) && free == old(free) && Consistent(nodes, heap, h)
        invariant |more| == i && more[..|nodes|] == nodes
        invariant forall j | 0 <= j < i :: more[j].index == j
        invariant Partitioned(ids, heap, i) && (i > |nodes| ==> ids != [])
      {
        NewId(ids, heap, i);
        more := more + [Node(i, 0, 0, None)];
        ids := ids + [i];
      }
      GrowKeeps(nodes, heap, h, more);
      GrowOrder(nodes, more, heap);
      nodes, free := more, ids;
    }

    /** The growth of `ox_timer_mgr_add`: doubling, which does nothing for an empty manager. */
    method Replenish()
      requires Valid()
      modifies this`nodes, this`free
      ensures Valid() && |old(nodes)| <= |nodes| && nodes[..|old(nodes)|] == old(nodes)
      ensures free == [] <==> |nodes| == 0
      ensures |nodes| == 0 <==> |old(nodes)| == 0
    {
      hide Consistent, Ordered, Covered;
      if free == [] {
        Grow(2 * |nodes|);
      }
      assert free != [] ==> 0 <= free[0] < |nodes|;
    }

    /** Puts the id on top of the free stack into the heap, with a new node. */
    method Issued(due: int, arg: int, callback: nat) returns (id: int)
      requires Valid() && free != []
      modifies this`nodes, this`free, this`heap, this`h
      ensures Valid() && 0 <= id < |nodes| == |old(nodes)| && id !in old(heap) && Shuffled(old(heap) + [id], heap)
      ensures nodes == old(nodes)[id := Node(id, due, arg, Some(callback))]
      ensures h == Added(old(h), id, due, Call(callback, arg), clock)
    {
      hide Partitioned, Consistent, Covered, Ordered, Shuffled;
      Issue(free, heap, |nodes|);
      HeapIds(free, heap, |nodes|);
      id := free[|free| - 1];
      AddKeeps(nodes, heap, h, id, due, clock, arg, callback);
      CoveredAdd(heap, h, id, due, Call(callback, arg), clock);
      var more := nodes[id := Node(id, due, arg, Some(callback))];
      NodeOrder(nodes, more, heap, id);
      var after := Insert(Dues(more), heap, id);
      h := Added(h, id, due, Call(callback, arg), clock);
      ShuffledKeeps(more, free[..|free| - 1], heap + [id], after, h);
      nodes, heap, free := more, after, free[..|free| - 1];
    }

    /** `ox_timer_mgr_add`. The id handed out was not pending; no pending id changes its node. */
    method Add(callback: Option<nat>, delay: int, arg: int, reading: int) returns (id: int)
      requires Valid()
      modifies this
      ensures Valid() && clock == if id == -1 then old(clock) else Later(old(clock), reading)
      ensures id == -1 <==> callback.None? || |old(nodes)| == 0
      ensures id == -1 ==> heap == old(heap) && h == old(h) && nodes == old(nodes)
      ensures id != -1 ==>
                && 0 <= id < |nodes| && id !in old(heap) && Shuffled(old(heap) + [id], heap)
                && nodes[id] == Node(id, clock + delay, arg, callback)
                && h == Added(old(h), id, clock + delay, Call(callback.value, arg), clock)
      ensures |old(nodes)| <= |nodes| && forall i | i in old(heap) :: 0 <= i < |old(nodes)| && nodes[i] == old(nodes)[i]
    {
      hide Consistent, Ordered, Covered, Shuffled;
      assert forall i | i in heap :: 0 <= i < |nodes|;
      id := -1;
      if callback.None? {
        return;
      }
      Replenish();
      if free != [] {
        var now := ReadClock(reading);
        var due := if delay > 0 then delay + now else now - (-delay);
        assert due == now + delay;
        id := Issued(due, arg, callback.value);
      }
    }

    /** `ox_timer_mgr_del`. The add that a pending id stands for is cancelled; the id stays in the heap. */
    method Del(id: int)
      requires Valid()
      modifies this
      ensures Valid() && heap == old(heap) && free == old(free) && clock == old(clock)
      ensures if 0 <= id < |old(nodes)|
              then nodes == old(nodes)[id := old(nodes)[id].(callback := None)] &&
                   h == Cancelled(old(h), id, id in heap)
              else nodes == old(nodes) && h == old(h)
    {
      hide Partitioned, Consistent, Covered, Ordered;
      if id >= 0 && id < |nodes| {
        CancelKeeps(nodes, heap, h, id);
        CoveredCancel(heap, h, id);
        h := Cancelled(h, id, id in heap);
        nodes := nodes[id := nodes[id].(callback := None)];
        assert Dues(nodes) == old(Dues(nodes));
      }
    }

    /** One turn of the loop of `ox_timer_mgr_schedule` with a sampled time, up to the call of the callback. */
    method Turn(now: int) returns (r: Outcome, ghost id: int)
      requires Valid() && now <= clock
      modifies this
      ensures Valid() && clock == old(clock) && nodes == old(nodes)
      ensures r.Finished? ==> heap == old(heap) && free == old(free) && h == old(h) && Due(now) == {}
      ensures r.Dropped? ==> |heap| == |old(heap)| - 1 && h == old(h) && Due(now) == old(Due(now))
      ensures r.Dropped? ==> Happens(old(Seen()), Drops(id), Seen())
      ensures r.Fire? ==>
        && id in old(Due(now)) && Due(now) == old(Due(now)) - {id} && h == Fired(old(h), id, r.call, now)
        && nodes[id].callback == Some(r.call.callback) && nodes[id].arg == r.call.arg
        && Happens(old(Seen()), Fires(id, r.call, now), Seen())
    {
      hide Partitioned, Consistent, Covered, Ordered, Shuffled, Happens, ViewOf;
      if heap == [] {
        return Finished, 0;
      }
      HeapIds(free, heap, |nodes|);
      TopFirst(nodes, heap);
      id := heap[0];
      var node := nodes[heap[0]];
      PendingNode(nodes, heap, h, id);
      if node.callback.Some? && node.due > now {
        return Finished, id;
      }
      OffTop(heap);
      var rest := Pop(Dues(nodes), heap);
      Release(free, heap, |nodes|, 0);
      if node.callback.None? {
        DropKeeps(nodes, heap, h, 0);
        CoveredOff(heap, Without(heap, 0), h, h, id);
        ShuffledIds(Without(heap, 0), rest);
        DropHappens(nodes, heap, rest, h, id);
        r := Dropped;
      } else {
        FireKeeps(nodes, heap, h, 0, now);
        r := Fire(Call(node.callback.value, node.arg));
        CoveredOff(heap, Without(heap, 0), h, Fired(h, id, r.call, now), id);
        ShuffledIds(Without(heap, 0), rest);
        FireHappens(nodes, heap, rest, h, id, r.call, now);
        h := Fired(h, id, r.call, now);
      }
      ShuffledKeeps(nodes, free + [id], Without(heap, 0), rest, h);
      heap, free := rest, free + [node.index];
    }

    /** Live timers that are due by `now`. */
    ghost function Due(now: int): set<int>
      reads this
    {
      set id | id in heap && 0 <= id < |nodes| && nodes[id].callback.Some? && nodes[id].due <= now
    }

    /** When nothing is left that is due, every add due by then has fired or is cancelled. */
    lemma AllServed(now: int)
      requires Valid() && Due(now) == {}
      ensures forall s: nat | s < |h.dues| && h.dues[s] <= now :: s in h.fired || s in h.cancelled
    {
      hide Partitioned, Ordered;
      assert forall id | id in heap && 0 <= id < |nodes| :: id !in Due(now);
    }

    /** One action of a callback. A positive delay makes nothing more due by a `now` already read. */
    method Act(a: Action, ghost now: int) returns (ghost id: int)
      requires Valid() && now <= clock
      modifies this
      ensures Valid() && now <= clock && h.called == old(h.called) && Continues(old(h), h)
      ensures (clock, h.dues, h.calls) == Adds(old(clock), old(h.dues), old(h.calls), a, |old(nodes)| > 0)
      ensures a.DelTimer? && a.id in old(heap) ==> a.id in h.serial && h.serial[a.id] in h.cancelled
      ensures Happens(old(Seen()), Did(a, id), Seen())
      ensures NotNegative(a) ==> h.orderly == old(h.orderly)
      ensures (a.AddTimer? ==> a.delay > 0) ==> Due(now) <= old(Due(now))
    {
      hide Consistent, Ordered, Covered, Shuffled, ViewOf, Happens;
      ghost var was, g := heap, h;
      match a
      case AddTimer(callback, delay, arg, reading) =>
        ghost var before := nodes;
        var handle := Add(callback, delay, arg, reading);
        id := handle;
        if id == -1 {
          AddFails(heap, h, |nodes| > 0, a);
        } else {
          AddHappens(before, was, heap, g, id, a, clock + delay);
          ShuffledIds(was + [id], heap);
        }
      case DelTimer(handle) =>
        CancelHappens(nodes, heap, h, a, |nodes| > 0);
        Del(handle);
        id := 0;
    }

    method ActAll(actions: seq<Action>, ghost now: int) returns (ghost steps: seq<Happening>)
      requires Valid() && now <= clock
      modifies this
      ensures Valid() && now <= clock && h.called == old(h.called) && Continues(old(h), h)
      ensures Leads(old(Seen()), steps, Seen()) && Story(steps) == Doings(actions)
      ensures (clock, h.dues, h.calls) ==
              AddsAll(old(clock), old(h.dues), old(h.calls), Inputs(Doings(actions)), |old(nodes)| > 0)
      ensures (forall i | 0 <= i < |actions| :: NotNegative(actions[i])) ==> h.orderly == old(h.orderly)
      ensures OnlyPositive(actions) ==> Due(now) <= old(Due(now))
    {
      hide Consistent, Partitioned, Due, Ordered, Covered, NotNegative, Leads, Story, Happens, Pending, AddsAll;
      steps := [];
      LeadsNowhere(Seen());
      for i := 0 to |actions|
        invariant Valid() && now <= clock && h.called == old(h.called) && Continues(old(h), h)
        invariant Leads(old(Seen()), steps, Seen()) && Story(steps) == Doings(actions[..i])
        invariant (forall j | 0 <= j < |actions| :: NotNegative(actions[j])) ==> h.orderly == old(h.orderly)
        invariant OnlyPositive(actions) ==> Due(now) <= old(Due(now))
      {
        ghost var v := Seen();
        ghost var id := Act(actions[i], now);
        LeadsStep(old(Seen()), steps, v, Did(actions[i], id), Seen());
        steps := steps + [Did(actions[i], id)];
        assert Doings(actions[..i + 1]) == Doings(actions[..i]) + [Enters(Does(actions[i]))];
      }
      assert actions[..|actions|] == actions;
      ReplayAdds(old(Seen()), steps);
      LeadsReplay(old(Seen()), steps, Seen());
    }

    /**
     `ox_timer_mgr_schedule`. When callbacks add timers with positive delays only, it ends, and then every add that was
     due at the sampled time has fired or is cancelled. `calls` are the callbacks called, in order, and `steps` is all
     that happens: each callback does what it does at once, and what it adds and cancels is there afterwards.
     */
    method Schedule(reading: int, handlers: Handlers) returns (now: int, calls: seq<Call>, ghost steps: seq<Happening>)
      requires Valid() && forall f, arg, n :: OnlyPositive(handlers(f, arg, n))
      modifies this
      ensures Valid() && now >= reading && now >= old(clock) && Continues(old(h), h) && h.orderly == old(h.orderly)
      ensures FiredWell(h) && h.called == old(h.called) + calls
      ensures Leads(old(Seen()), steps, Seen()) && Story(steps) == Told(reading, calls, handlers)
      ensures (clock, h.dues, h.calls) ==
              AddsAll(old(clock), old(h.dues), old(h.calls), Inputs(Told(reading, calls, handlers)), |old(nodes)| > 0)
      ensures Due(now) == {} && forall s: nat | s < |h.dues| && h.dues[s] <= now :: s in h.fired || s in h.cancelled
    {
      hide Consistent, Partitioned, Due, Ordered, Covered, Leads, Story, Happens, Pending, Told, AddsAll;
      ghost var v := Seen();
      now := ReadClock(reading);
      calls := [];
      steps := [Reads(reading, 0)];
      ReadLeads(v, reading, Seen(), handlers);
      while true
        invariant Valid() && old(clock) <= now <= clock && Continues(old(h), h) && h.orderly == old(h.orderly)
        invariant h.called == old(h.called) + calls
        invariant Leads(old(Seen()), steps, Seen()) && Story(steps) == Told(reading, calls, handlers)
        decreases Due(now), |heap|
      {
        v := Seen();
        ghost var id;
        var r;
        r, id := Turn(now);
        if r.Finished? {
          break;
        } else if r.Fire? {
          var actions := handlers(r.call.callback, r.call.arg, |calls|);
          assert OnlyPositive(actions);
          LeadsStep(old(Seen()), steps, v, Fires(id, r.call, now), Seen());
          ghost var w := Seen();
          ghost var more := ActAll(actions, now);
          LeadsOn(old(Seen()), steps + [Fires(id, r.call, now)], w, more, Seen());
          ToldOn(reading, calls, handlers, r.call);
          steps, calls := steps + [Fires(id, r.call, now)] + more, calls + [r.call];
        } else {
          LeadsStep(old(Seen()), steps, v, Drops(id), Seen());
          steps := steps + [Drops(id)];
        }
      }
      ReplayAdds(old(Seen()), steps);
      LeadsReplay(old(Seen()), steps, Seen());
      AllServed(now);
      RunsWell(nodes, heap, h);
    }
  }

  lemma LeadsNowhere(v: View)
    ensures Leads(v, [], v) && Story([]) == Doings([]) == [] && Inputs([]) == []
  {
  }

  lemma LeadsReplay(v: View, steps: seq<Happening>, w: View)
    requires Leads(v, steps, w)
    ensures Replay(v, steps) == w
  {
  }

  lemma LeadsStep(v: View, steps: seq<Happening>, w: View, e: Happening, z: View)
    requires Leads(v, steps, w) && Happens(w, e, z)
    ensures Leads(v, steps + [e], z) && Story(steps + [e]) == Story(steps) + StoryOf(e)
  {
    hide Leads, May, Then, StoryOf;
    LeadsOne(w, e);
    LeadsOn(v, steps, w, [e], z);
    OneStory(e);
  }

  lemma OneStory(e: Happening)
    ensures Story([e]) == StoryOf(e)
  {
    hide StoryOf;
    assert [e][..0] == [] && Story([]) == [];
  }

  lemma ReadLeads(v: View, reading: int, w: View, handlers: Handlers)
    requires w == v.(clock := Later(v.clock, reading))
    ensures var steps := [Reads(reading, 0)]; Leads(v, steps, w) && Story(steps) == Told(reading, [], handlers)
  {
    LeadsOne(v, Reads(reading, 0));
    OneStory(Reads(reading, 0));
  }

  lemma ToldOn(reading: int, calls: seq<Call>, handlers: Handlers, call: Call)
    ensures Told(reading, calls + [call], handlers) ==
            Told(reading, calls, handlers) + ([Calls(call)] + Doings(handlers(call.callback, call.arg, |calls|)))
  {
    var all := calls + [call];
    assert all[..|all| - 1] == calls && all[|all| - 1] == call;
  }

  lemma OffPending(heap: seq<int>, rest: seq<int>, id: int, serial: map<int, nat>)
    requires forall x: int :: x in rest <==> x in heap && x != id
    ensures Pending(rest, serial) == Pending(heap, serial) - {id}
  {
    var p, q := Pending(rest, serial), Pending(heap, serial) - {id};
    assert forall x :: x in p <==> x in rest && x in serial;
    assert forall x :: x in q <==> x in rest && x in serial;
  }

  lemma OnPending(heap: seq<int>, more: seq<int>, id: int, serial: map<int, nat>, n: nat)
    requires Shuffled(heap + [id], more) && forall x | x in heap :: x in serial
    ensures Pending(more, serial[id := n]) == Pending(heap, serial)[id := n]
  {
    var p, q := Pending(more, serial[id := n]), Pending(heap, serial)[id := n];
    ShuffledIds(heap + [id], more);
    assert forall x: int :: x in heap + [id] <==> x in heap || x == id;
    assert forall x :: x in p <==> x in heap || x == id;
    assert forall x :: x in q <==> x in heap || x == id;
  }

  lemma DropHappens(nodes: seq<Node>, heap: seq<int>, rest: seq<int>, h: History, id: int)
    requires Consistent(nodes, heap, h) && id in heap && 0 <= id < |nodes| && nodes[id].callback.None?
    requires forall x: int :: x in rest <==> x in heap && x != id
    ensures Happens(ViewOf(h.now, heap, h, |nodes| > 0), Drops(id), ViewOf(h.now, rest, h, |nodes| > 0))
  {
    hide FiredWell, NotOvertaken;
    OffPending(heap, rest, id, h.serial);
  }

  lemma FireHappens(nodes: seq<Node>, heap: seq<int>, rest: seq<int>, h: History, id: int, call: Call, now: int)
    requires Consistent(nodes, heap, h) && id in heap && 0 <= id < |nodes| && nodes[id].callback.Some?
    requires forall x | x in heap && 0 <= x < |nodes| :: nodes[id].due <= nodes[x].due
    requires nodes[id].due <= now <= h.now && call == Call(nodes[id].callback.value, nodes[id].arg) && id in h.serial
    requires forall x: int :: x in rest <==> x in heap && x != id
    ensures Happens(ViewOf(h.now, heap, h, |nodes| > 0), Fires(id, call, now),
                    ViewOf(h.now, rest, Fired(h, id, call, now), |nodes| > 0))
  {
    hide FiredWell, NotOvertaken;
    OffPending(heap, rest, id, h.serial);
  }

  lemma AddHappens(nodes: seq<Node>, heap: seq<int>, more: seq<int>, h: History, id: int, a: Action, due: int)
    requires Consistent(nodes, heap, h) && a.AddTimer? && a.callback.Some? && |nodes| > 0 && id !in heap && id >= 0
    requires Shuffled(heap + [id], more) && due == Later(h.now, a.reading) + a.delay
    ensures var now := Later(h.now, a.reading);
      Happens(ViewOf(h.now, heap, h, true), Did(a, id),
              ViewOf(now, more, Added(h, id, due, Call(a.callback.value, a.arg), now), true))
  {
    hide FiredWell, NotOvertaken;
    OnPending(heap, more, id, h.serial, |h.dues|);
  }

  lemma AddFails(heap: seq<int>, h: History, room: bool, a: Action)
    requires a.AddTimer? && (a.callback.None? || !room)
    ensures var v := ViewOf(h.now, heap, h, room); Happens(v, Did(a, -1), v)
  {
  }

  lemma CancelHappens(nodes: seq<Node>, heap: seq<int>, h: History, a: Action, room: bool)
    requires Consistent(nodes, heap, h) && a.DelTimer?
    ensures var g := Cancelled(h, a.id, a.id in heap);
      && Happens(ViewOf(h.now, heap, h, room), Did(a, 0), ViewOf(h.now, heap, g, room))
      && (a.id in heap ==> 0 <= a.id < |nodes| && a.id in g.serial && g.serial[a.id] in g.cancelled)
  {
    hide FiredWell, NotOvertaken;
  }

  lemma HeapIds(free: seq<int>, heap: seq<int>, n: nat)
    requires Partitioned(free, heap, n)
    ensures Distinct(heap) && InRange(heap, n) && forall x | x in heap :: 0 <= x < n
    ensures forall i | 0 <= i < |free| :: 0 <= free[i] < n && free[i] !in heap
  {
  }

  lemma GrowOrder(nodes: seq<Node>, more: seq<Node>, heap: seq<int>)
    requires Ordered(Dues(nodes), heap) && |nodes| <= |more| && more[..|nodes|] == nodes
    ensures Ordered(Dues(more), heap)
  {
    assert forall i | 0 <= i < |nodes| :: more[i] == more[..|nodes|][i];
    OtherKeys(Dues(nodes), Dues(more), heap);
  }

  lemma NodeOrder(nodes: seq<Node>, more: seq<Node>, heap: seq<int>, id: int)
    requires Ordered(Dues(nodes), heap) && id !in heap && |more| == |nodes|
    requires forall i | 0 <= i < |nodes| && i != id :: more[i] == nodes[i]
    ensures Ordered(Dues(more), heap)
  {
    assert forall i | 0 <= i < |heap| :: heap[i] in heap;
    OtherKeys(Dues(nodes), Dues(more), heap);
  }

  /** The top of the heap is due first. */
  lemma TopFirst(nodes: seq<Node>, heap: seq<int>)
    requires Ordered(Dues(nodes), heap) && heap != []
    ensures 0 <= heap[0] < |nodes| && heap[0] in heap
    ensures forall id | id in heap && 0 <= id < |nodes| :: nodes[heap[0]].due <= nodes[id].due
  {
    forall id | id in heap && 0 <= id < |nodes|
      ensures nodes[heap[0]].due <= nodes[id].due
    {
      var i :| 0 <= i < |heap| && heap[i] == id;
      TopIsLeast(Dues(nodes), heap, i);
    }
  }

  lemma PendingNode(nodes: seq<Node>, heap: seq<int>, h: History, id: int)
    requires Consistent(nodes, heap, h) && id in heap
    ensures 0 <= id < |nodes| && nodes[id].index == id && id in h.serial
    ensures nodes[id].callback.None? ==> h.serial[id] in h.cancelled
  {
  }

  lemma OffTop(heap: seq<int>)
    requires heap != [] && Distinct(heap)
    ensures Without(heap, 0) == heap[1..] && forall x: int :: x in heap[1..] <==> x in heap && x != heap[0]
  {
    forall x: int
      ensures x in Without(heap, 0) <==> x in heap && x != heap[0]
    {
      WithoutMembers(heap, 0, x);
    }
  }

  lemma ShuffledIds(a: seq<int>, b: seq<int>)
    requires Shuffled(a, b)
    ensures |a| == |b| && forall x: int :: x in a <==> x in b
  {
  }

  /**
   Any use of the manager: additions, cancellations, and turns of the scheduling loop, in any order and nesting. A turn
   takes a time that was sampled up to `lag` ago.
   */
  datatype Event = Does(a: Action) | Turns(reading: int, lag: nat)

  /** The clock, and the due times and callbacks of all adds, after a run. */
  function AddsAll(clock: int, dues: seq<int>, calls: seq<Call>, events: seq<Event>, room: bool)
    : (int, seq<int>, seq<Call>)
  {
    if events == [] then (clock, dues, calls)
    else
      var (c, d, f) := AddsAll(clock, dues, calls, events[..|events| - 1], room);
      match events[|events| - 1]
      case Does(a) => Adds(c, d, f, a, room)
      case Turns(reading, lag) => (Later(c, reading), d, f)
  }

  /** One use of the manager. */
  method Use(m: TimerMgr, event: Event) returns (calls: seq<Call>, ghost steps: seq<Happening>)
    requires m.Valid()
    modifies m
    ensures m.Valid() && Continues(old(m.h), m.h) && m.h.called == old(m.h.called) + calls
    ensures Leads(old(m.Seen()), steps, m.Seen()) && Inputs(Story(steps)) == [event]
    ensures (event.Does? ==> NotNegative(event.a)) ==> m.h.orderly == old(m.h.orderly)
  {
    hide Consistent, Partitioned, TimerMgr.Due, Ordered, Covered, NotNegative, Leads, Story, Happens;
    ghost var v := m.Seen();
    calls, steps := [], [];
    LeadsNowhere(v);
    match event
    case Does(a) =>
      ghost var id := m.Act(a, m.clock);
      LeadsInput(v, steps, v, Did(a, id), m.Seen());
      steps := steps + [Did(a, id)];
    case Turns(reading, lag) =>
      var now := m.ReadClock(reading);
      ReadHappens(v, reading, lag, m.Seen());
      LeadsInput(v, steps, v, Reads(reading, lag), m.Seen());
      steps := steps + [Reads(reading, lag)];
      ghost var w := m.Seen();
      ghost var id;
      var r;
      r, id := m.Turn(now - lag);
      if r.Fire? {
        LeadsInput(v, steps, w, Fires(id, r.call, now - lag), m.Seen());
        steps, calls := steps + [Fires(id, r.call, now - lag)], [r.call];
      } else if r.Dropped? {
        LeadsInput(v, steps, w, Drops(id), m.Seen());
        steps := steps + [Drops(id)];
      }
  }

  lemma ReadHappens(v: View, reading: int, lag: nat, w: View)
    requires w == v.(clock := Later(v.clock, reading))
    ensures Happens(v, Reads(reading, lag), w)
  {
  }

  lemma SeenIs(m: TimerMgr)
    ensures var v := m.Seen();
      v.clock == m.clock && v.dues == m.h.dues && v.calls == m.h.calls && v.room == (|m.nodes| > 0)
  {
  }

  /**
   Safety over whole runs: whatever the application and its callbacks do, every id stays in exactly one of the free
   stack and the heap, every add is recorded with its due time and callback, keeps them, fires at most once, not
   before it is due and never once it is cancelled, and as long as no delay is negative due times of fired timers
   never go down. The `calls` made are, in order, those that the adds fired asked for.
   */
  method RunEvents(m: TimerMgr, events: seq<Event>) returns (calls: seq<Call>, ghost steps: seq<Happening>)
    requires m.Valid()
    modifies m
    ensures m.Valid() && Partitioned(m.free, m.heap, |m.nodes|) && FiredWell(m.h) && Continues(old(m.h), m.h)
    ensures m.h.called == old(m.h.called) + calls
    ensures Leads(old(m.Seen()), steps, m.Seen()) && Inputs(Story(steps)) == events
    ensures (m.clock, m.h.dues, m.h.calls) ==
            AddsAll(old(m.clock), old(m.h.dues), old(m.h.calls), events, |old(m.nodes)| > 0)
    ensures (forall i | 0 <= i < |events| && events[i].Does? :: NotNegative(events[i].a)) ==>
      m.h.orderly == old(m.h.orderly)
  {
    hide Consistent, Partitioned, TimerMgr.Due, TimerMgr.Seen, Ordered, Covered, NotNegative, Leads, Story, AddsAll,
      FiredWell;
    calls, steps := [], [];
    SeenIs(m);
    LeadsNowhere(m.Seen());
    for i := 0 to |events|
      invariant m.Valid() && Continues(old(m.h), m.h)
      invariant m.h.called == old(m.h.called) + calls
      invariant Leads(old(m.Seen()), steps, m.Seen()) && Inputs(Story(steps)) == events[..i]
      invariant (forall j | 0 <= j < i && events[j].Does? :: NotNegative(events[j].a)) ==>
        m.h.orderly == old(m.h.orderly)
    {
      assert events[..i + 1] == events[..i] + [events[i]];
      ghost var v := m.Seen();
      ghost var more;
      var made;
      made, more := Use(m, events[i]);
      LeadsOn(old(m.Seen()), steps, v, more, m.Seen());
      ItemsOn(Story(steps), Story(more));
      calls, steps := calls + made, steps + more;
    }
    assert events[..|events|] == events;
    ReplayAdds(old(m.Seen()), steps);
    LeadsReplay(old(m.Seen()), steps, m.Seen());
    SeenIs(m);
    RunsWell(m.nodes, m.heap, m.h);
  }

  function InputOf(e: Happening): seq<Event> {
    match e
    case Reads(reading, lag) => [Turns(reading, lag)]
    case Did(a, id) => [Does(a)]
    case Drops(id) => []
    case Fires(id, call, at) => []
  }

  lemma LeadsInput(v: View, steps: seq<Happening>, w: View, e: Happening, z: View)
    requires Leads(v, steps, w) && Happens(w, e, z)
    ensures Leads(v, steps + [e], z) && Inputs(Story(steps + [e])) == Inputs(Story(steps)) + InputOf(e)
  {
    hide Leads, Happens, Story;
    LeadsStep(v, steps, w, e, z);
    ItemsOn(Story(steps), StoryOf(e));
    OneInput(e);
  }

  lemma RunsWell(nodes: seq<Node>, heap: seq<int>, h: History)
    requires Consistent(nodes, heap, h)
    ensures FiredWell(h)
  {
  }
}
