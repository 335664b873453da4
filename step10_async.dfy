/** coroutine/step10.cpp: eagerly started tasks (`awaitable<T>`), each with a result
    cell and a single caller link; a global ready list `waiting_handles` onto which a
    finishing task pushes its caller; a callback bridge (`await_callback`) through which
    a worker thread resumes a parked task; and the loop of `main`, which drains the
    ready list from its back until the root task `complex_func()` is done. */
module AsyncQueue {
  import opened Coroutines

  /** A coroutine handle: the index of its frame in the executor's frame table. */
  type Handle = nat

  /** The coroutine function a frame belongs to, with its argument. */
  datatype Body = Heavy(x: int) | Simple(x: int) | Complex

  /** Where a frame stands. */
  datatype Frame =
    | Running                                         // created, not yet at its first suspension point
    | Parked(x: int)                                  // mock_heavy_func(x) at `co_await std::suspend_always{}`
    | AwaitingHeavy(callee: Handle)                   // simple_func at `co_await mock_heavy_func(x)`
    | AwaitingSum(subs: seq<Handle>, k: nat, acc: int)  // complex_func at `co_await subs[k]`, acc = sum so far
    | Final                                           // at final_suspend: done()

  /** `awaitable<int>::promise_type`: the result cell and the caller link. */
  datatype Promise = Promise(value: Option<int>, exception: Option<Error>, caller: Option<Handle>)

  const Unset: Promise := Promise(None, None, None)

  datatype Coroutine = Coroutine(body: Body, frame: Frame, promise: Promise)

  /** The lambda `[h] { h(); }` that `await_callback::await_resume` hands out. */
  datatype Callback = Callback(target: Handle)

  /** A detached `std::thread` of mock_heavy_func: it sleeps `delay` ms, then calls back. */
  datatype Worker = Worker(delay: int, callback: Callback)

  /** The frame table together with `waiting_handles`. */
  datatype World = World(cs: seq<Coroutine>, ready: seq<Handle>)

  /** The arguments complex_func passes to its four simple_func calls. */
  const Delays: seq<int> := [100, 500, 1000, 2000]

  // ---------------------------------------------------------------------------
  // One resumption, as a function of the world

  function WithCaller(c: Coroutine, h: Handle): Coroutine
  {
    c.(promise := c.promise.(caller := Some(h)))
  }

  /** The frame after `return_value(v)` or `unhandled_exception()` and `final_suspend`. */
  function Completed(c: Coroutine, outcome: Result<int>): Coroutine
  {
    match outcome
    case Ok(v) => c.(frame := Final, promise := c.promise.(value := Some(v)))
    case Err(e) => c.(frame := Final, promise := c.promise.(exception := Some(e)))
  }

  /** What `final_suspend` appends to `waiting_handles`: the caller, if one is set. */
  function Wake(caller: Option<Handle>): seq<Handle>
  {
    if caller.Some? then [caller.value] else []
  }

  /** Task h completes with outcome; its caller, if any, becomes ready. */
  function Finish(w: World, h: Handle, outcome: Result<int>): World
    requires h < |w.cs|
  {
    World(w.cs[h := Completed(w.cs[h], outcome)], w.ready + Wake(w.cs[h].promise.caller))
  }

  /** `co_await callee` in task h: `await_ready` is always false and `await_suspend`
      records h as the callee's caller (overwriting any earlier one).  With route set,
      an awaiter of a task that is already done is put on the ready list instead. */
  function Await(w: World, caller: Handle, callee: Handle, route: bool): World
    requires callee < |w.cs|
  {
    if route && w.cs[callee].frame.Final? then World(w.cs, w.ready + [caller])
    else World(w.cs[callee := WithCaller(w.cs[callee], caller)], w.ready)
  }

  predicate HasOutcome(c: Coroutine)
  {
    c.promise.exception.Some? || c.promise.value.Some?
  }

  /** `awaitable::value()`: a captured exception is rethrown in preference to the
      value; otherwise the stored value.  `value()` is `noexcept`, so the rethrown
      exception cannot leave it: Err(e) stands for `std::terminate` with e uncaught.
      Reading an empty value_ is undefined. */
  function ValueOf(c: Coroutine): Result<int>
    requires HasOutcome(c)
  {
    if c.promise.exception.Some? then Err(c.promise.exception.value) else Ok(c.promise.value.value)
  }

  /** The task a frame awaits, if any. */
  function Awaits(f: Frame): Option<Handle>
  {
    match f
    case AwaitingHeavy(e) => Some(e)
    case AwaitingSum(subs, k, _) => if k < |subs| then Some(subs[k]) else None
    case _ => None
  }

  /** Task h is suspended on a task that is done. */
  predicate AwaitsFinished(w: World, h: Handle)
  {
    && h < |w.cs|
    && Awaits(w.cs[h].frame).Some?
    && Awaits(w.cs[h].frame).value < |w.cs|
    && w.cs[Awaits(w.cs[h].frame).value].frame.Final?
  }

  /** Task h is parked where a resumption can pick it up. */
  predicate Resumable(w: World, h: Handle)
  {
    && h < |w.cs|
    && match w.cs[h].frame
       case Parked(_) => true
       case AwaitingHeavy(e) => e < |w.cs| && HasOutcome(w.cs[e])
       case AwaitingSum(subs, k, _) =>
         && k < |subs|
         && (forall i :: 0 <= i < |subs| ==> subs[i] < |w.cs|)
         && HasOutcome(w.cs[subs[k]])
       case _ => false
  }

  /** Resuming h makes `await_resume` read a task that holds an exception: the
      `noexcept` `value()` then calls `std::terminate`. */
  predicate Rethrows(w: World, h: Handle)
    requires Resumable(w, h)
  {
    match w.cs[h].frame
    case AwaitingHeavy(e) => ValueOf(w.cs[e]).Err?
    case AwaitingSum(subs, k, _) => ValueOf(w.cs[subs[k]]).Err?
    case _ => false
  }

  /** Resuming task h runs its body to the next suspension point:
      mock_heavy_func does `co_return x`; simple_func reads its callee's value and
      does `co_return value + 1`; complex_func adds the value of the task it awaited and
      awaits the next one, or does `co_return` with the sum after the fourth.  When
      the value read is an exception (Rethrows), the program ends in `std::terminate`
      and the world is left as it stood. */
  function Resumption(w: World, h: Handle, route: bool): World
    requires Resumable(w, h)
  {
    var c := w.cs[h];
    match c.frame
    case Parked(x) => Finish(w, h, Ok(x))
    case AwaitingHeavy(e) =>
      var r := ValueOf(w.cs[e]);
      if r.Err? then w else Finish(w, h, Ok(r.value + 1))
    case AwaitingSum(subs, k, acc) =>
      var r := ValueOf(w.cs[subs[k]]);
      if r.Err? then w
      else if k + 1 < |subs| then
        Await(World(w.cs[h := c.(frame := AwaitingSum(subs, k + 1, acc + r.value))], w.ready), h, subs[k + 1], route)
      else
        Finish(w, h, Ok(acc + r.value))
    case _ => w
  }

  /** `waiting_handles.pop_back()`. */
  function Pop(w: World): World
    requires w.ready != []
  {
    World(w.cs, w.ready[..|w.ready| - 1])
  }

  // ---------------------------------------------------------------------------
  // What a freshly called coroutine function leaves behind (initial_suspend is
  // suspend_never, so the body runs to its first real suspension point)

  function StartedSimple(x: int, base: Handle, caller: Option<Handle>): seq<Coroutine>
  {
    [ Coroutine(Simple(x), AwaitingHeavy(base + 1), Unset.(caller := caller)),
      Coroutine(Heavy(x), Parked(x), Unset.(caller := Some(base))) ]
  }

  /** The frames a call creates, from handle base on. */
  function Started(b: Body, base: Handle): seq<Coroutine>
  {
    match b
    case Heavy(x) => [Coroutine(Heavy(x), Parked(x), Unset)]
    case Simple(x) => StartedSimple(x, base, None)
    case Complex =>
      [Coroutine(Complex, AwaitingSum([base + 1, base + 3, base + 5, base + 7], 0, 0), Unset)]
      + StartedSimple(Delays[0], base + 1, Some(base))
      + StartedSimple(Delays[1], base + 3, None)
      + StartedSimple(Delays[2], base + 5, None)
      + StartedSimple(Delays[3], base + 7, None)
  }

  /** The worker threads a call starts. */
  function Threads(b: Body, base: Handle): seq<Worker>
  {
    match b
    case Heavy(x) => [Worker(x, Callback(base))]
    case Simple(x) => [Worker(x, Callback(base + 1))]
    case Complex =>
      [ Worker(Delays[0], Callback(base + 2)), Worker(Delays[1], Callback(base + 4)),
        Worker(Delays[2], Callback(base + 6)), Worker(Delays[3], Callback(base + 8)) ]
  }

  function Rank(b: Body): nat
  {
    match b
    case Heavy(_) => 0
    case Simple(_) => 1
    case Complex => 2
  }

  // ---------------------------------------------------------------------------
  // The program `main` runs: complex_func() at handle 0, simple_func(Delays[j]) at
  // SimpleAt(j) and its mock_heavy_func(Delays[j]) at HeavyAt(j)

  const Root: Handle := 0

  function SimpleAt(j: nat): Handle { 1 + 2 * j }

  function HeavyAt(j: nat): Handle { 2 + 2 * j }

  const Subs: seq<Handle> := [1, 3, 5, 7]

  /** The sum of x + 1 over xs: what complex_func adds up from simple_func results. */
  function SumPlusOne(xs: seq<int>): int
  {
    if xs == [] then 0 else SumPlusOne(xs[..|xs| - 1]) + xs[|xs| - 1] + 1
  }

  ghost predicate NoDup(s: seq<Handle>)
  {
    forall i, j :: 0 <= i < j < |s| ==> s[i] != s[j]
  }

  /** mock_heavy_func(Delays[j]) is parked for its callback, or done with its argument;
      its caller is its simple_func throughout. */
  ghost predicate HeavyOk(w: World, j: nat)
    requires |w.cs| == 9 && j < 4
  {
    var c := w.cs[HeavyAt(j)];
    && c.promise.exception == None
    && c.promise.caller == Some(SimpleAt(j))
    && (c.frame == Parked(Delays[j]) || (c.frame.Final? && c.promise.value == Some(Delays[j])))
  }

  /** simple_func(Delays[j]) awaits its heavy task, or is done (after it) with
      Delays[j] + 1; its caller, once set, is complex_func. */
  ghost predicate SimpleOk(w: World, j: nat)
    requires |w.cs| == 9 && j < 4
  {
    var c := w.cs[SimpleAt(j)];
    && c.promise.exception == None
    && (|| c.frame == AwaitingHeavy(HeavyAt(j))
        || (c.frame.Final? && c.promise.value == Some(Delays[j] + 1) && w.cs[HeavyAt(j)].frame.Final?))
    && (c.promise.caller == None || c.promise.caller == Some(Root))
  }

  /** complex_func awaits its k-th simple task with the sum of the earlier ones, all
      done; the later ones have no caller yet and the k-th, while running, has
      complex_func as its caller.  Or it is done with the whole sum. */
  ghost predicate RootOk(w: World)
    requires |w.cs| == 9
  {
    var c := w.cs[Root];
    && c.promise.exception == None
    && c.promise.caller == None
    && match c.frame
       case AwaitingSum(subs, k, acc) =>
         && subs == Subs && k < 4 && acc == SumPlusOne(Delays[..k])
         && (forall j :: 0 <= j < k ==> w.cs[SimpleAt(j)].frame.Final?)
         && (forall j :: k < j < 4 ==> w.cs[SimpleAt(j)].promise.caller == None)
         && (!w.cs[SimpleAt(k)].frame.Final? ==> w.cs[SimpleAt(k)].promise.caller == Some(Root))
       case Final =>
         && c.promise.value == Some(SumPlusOne(Delays))
         && (forall j :: 0 <= j < 4 ==> w.cs[SimpleAt(j)].frame.Final?)
       case _ => false
  }

  /** The states of complex_func's nine tasks between two resumptions: no exception,
      every frame where its body can stand, and the ready list holding distinct tasks,
      each suspended on a task that is done. */
  ghost predicate Coherent(w: World)
  {
    && |w.cs| == 9
    && RootOk(w)
    && (forall j :: 0 <= j < 4 ==> SimpleOk(w, j) && HeavyOk(w, j))
    && (forall i :: 0 <= i < |w.ready| ==> AwaitsFinished(w, w.ready[i]))
    && NoDup(w.ready)
  }

  /** No wakeup is lost: every task suspended on a finished task is on the ready list,
      except possibly x. */
  ghost predicate NoLostExcept(w: World, x: Handle)
  {
    forall t :: 0 <= t < |w.cs| && t != x && AwaitsFinished(w, t) ==> t in w.ready
  }

  ghost predicate NoLost(w: World)
  {
    forall t :: 0 <= t < |w.cs| && AwaitsFinished(w, t) ==> t in w.ready
  }

  /** complex_func is suspended on a finished task, and nothing will resume it. */
  ghost predicate RootLost(w: World)
  {
    && AwaitsFinished(w, Root)
    && Root !in w.ready
  }

  /** Every heavy task that is done feeds a simple task complex_func has already
      reached: complex_func never comes to await a simple task that finished before it. */
  ghost predicate Ahead(w: World)
    requires |w.cs| == 9
  {
    forall j :: 0 <= j < 4 && w.cs[HeavyAt(j)].frame.Final? ==>
      w.cs[Root].frame.Final? || (w.cs[Root].frame.AwaitingSum? && j <= w.cs[Root].frame.k)
  }

  /** Resumptions still to come: one per parked heavy task and per awaiting
      simple_func, and one per simple task complex_func has yet to await. */
  function Remaining(f: Frame): nat
  {
    match f
    case Parked(_) => 1
    case AwaitingHeavy(_) => 1
    case AwaitingSum(subs, k, _) => if k < |subs| then |subs| - k else 0
    case _ => 0
  }

  function Pending(cs: seq<Coroutine>): nat
  {
    if cs == [] then 0 else Pending(cs[..|cs| - 1]) + Remaining(cs[|cs| - 1].frame)
  }

  // ---------------------------------------------------------------------------
  // One resumption keeps the program coherent

  /** Replacing one frame changes the resumptions still to come by that frame's share. */
  lemma {:induction false} PendingUpdate(cs: seq<Coroutine>, i: nat, c: Coroutine)
    requires i < |cs|
    ensures Pending(cs[i := c]) + Remaining(cs[i].frame) == Pending(cs) + Remaining(c.frame)
    decreases |cs|
  {
    var last := |cs| - 1;
    assert cs[i := c][..last] == if i < last then cs[..last][i := c] else cs[..last];
    if i < last {
      PendingUpdate(cs[..last], i, c);
    }
  }

  lemma SumPlusOneStep(k: nat)
    requires k < |Delays|
    ensures SumPlusOne(Delays[..k + 1]) == SumPlusOne(Delays[..k]) + Delays[k] + 1
  {
    assert Delays[..k + 1][..k] == Delays[..k];
  }

  /** Who awaits whom: complex_func its current simple task, simple_func at t its heavy
      task at t + 1, a heavy task nothing. */
  lemma AwaitsShape(w: World, t: Handle)
    requires Coherent(w) && t < 9
    ensures t == Root ==> Awaits(w.cs[t].frame) == (if w.cs[t].frame.Final? then None else Some(SimpleAt(w.cs[t].frame.k)))
    ensures t % 2 == 1 ==> Awaits(w.cs[t].frame) == (if w.cs[t].frame.Final? then None else Some(t + 1))
    ensures t != Root && t % 2 == 0 ==> Awaits(w.cs[t].frame) == None
  {
    if t == Root {
      if !w.cs[t].frame.Final? {
        var k := w.cs[t].frame.k;
        assert k == 0 || k == 1 || k == 2 || k == 3;
      }
    } else if t % 2 == 1 {
      var j := (t - 1) / 2;
      assert t == SimpleAt(j) && SimpleOk(w, j);
    } else {
      var j := (t - 2) / 2;
      assert t == HeavyAt(j) && HeavyOk(w, j);
    }
  }

  /** The frame table after mock_heavy_func(Delays[j]) is resumed by its callback. */
  lemma HeavyShape(w: World, j: nat, route: bool)
    requires Coherent(w) && j < 4 && w.cs[HeavyAt(j)].frame.Parked?
    ensures Resumable(w, HeavyAt(j))
    ensures var w2 := Resumption(w, HeavyAt(j), route);
            && |w2.cs| == 9 && w2.ready == w.ready + [SimpleAt(j)]
            && w2.cs[HeavyAt(j)] == Completed(w.cs[HeavyAt(j)], Ok(Delays[j]))
            && (forall t :: 0 <= t < 9 && t != HeavyAt(j) ==> w2.cs[t] == w.cs[t])
            && Pending(w2.cs) + 1 == Pending(w.cs)
  {
    var h := HeavyAt(j);
    assert HeavyOk(w, j);
    var c2 := Completed(w.cs[h], Ok(Delays[j]));
    assert Resumption(w, h, route) == World(w.cs[h := c2], w.ready + [SimpleAt(j)]);
    PendingUpdate(w.cs, h, c2);
  }

  /** A worker's callback resumes mock_heavy_func(Delays[j]): it completes with its
      argument and puts its simple_func on the ready list. */
  lemma ResumeHeavy(w: World, j: nat, route: bool)
    requires Coherent(w) && j < 4 && w.cs[HeavyAt(j)].frame.Parked?
    ensures Resumable(w, HeavyAt(j))
    ensures var w2 := Resumption(w, HeavyAt(j), route);
            && Coherent(w2)
            && w2.cs[HeavyAt(j)].frame.Final?
            && (forall i :: 0 <= i < 4 && i != j ==> w2.cs[HeavyAt(i)].frame == w.cs[HeavyAt(i)].frame)
            && (forall t :: 0 <= t < 9 && t != HeavyAt(j) ==> w2.cs[t] == w.cs[t])
            && w2.ready == w.ready + [SimpleAt(j)]
            && Pending(w2.cs) + 1 == Pending(w.cs)
            && (NoLostExcept(w, HeavyAt(j)) ==> NoLost(w2))
            && (RootLost(w) ==> RootLost(w2))
  {
    var h := HeavyAt(j);
    HeavyShape(w, j, route);
    var w2 := Resumption(w, h, route);
    assert HeavyOk(w, j) && SimpleOk(w, j);
    forall i | 0 <= i < 4
      ensures SimpleOk(w2, i) && HeavyOk(w2, i)
    {
      assert SimpleOk(w, i) && HeavyOk(w, i);
    }
    assert RootOk(w2);
    forall t | 0 <= t < 9
      ensures AwaitsFinished(w, t) ==> AwaitsFinished(w2, t)
      ensures AwaitsFinished(w2, t) ==> AwaitsFinished(w, t) || t == SimpleAt(j)
    {
      AwaitsShape(w, t);
    }
    assert SimpleAt(j) !in w.ready by {
      AwaitsShape(w, SimpleAt(j));
    }
  }

  /** simple_func(Delays[j]), resumable: it awaits its finished heavy task, and
      complex_func awaits a simple task no later than it. */
  lemma SimpleFacts(w: World, j: nat)
    requires Coherent(w) && j < 4 && AwaitsFinished(w, SimpleAt(j))
    ensures Resumable(w, SimpleAt(j))
    ensures w.cs[SimpleAt(j)].frame == AwaitingHeavy(HeavyAt(j))
    ensures ValueOf(w.cs[HeavyAt(j)]) == Ok(Delays[j])
    ensures w.cs[Root].frame.AwaitingSum? && w.cs[Root].frame.k <= j
    ensures w.cs[SimpleAt(j)].promise.caller == Some(Root) ==> w.cs[Root].frame.k == j
    ensures w.cs[SimpleAt(j)].promise.caller.Some? ==> w.cs[SimpleAt(j)].promise.caller == Some(Root)
    ensures w.cs[Root].frame.k == j ==> w.cs[SimpleAt(j)].promise.caller == Some(Root)
  {
    assert SimpleOk(w, j) && HeavyOk(w, j);
    AwaitsShape(w, SimpleAt(j));
    assert RootOk(w);
    assert !w.cs[SimpleAt(j)].frame.Final?;
    assert !w.cs[Root].frame.Final?;
  }

  /** The frame table after simple_func(Delays[j]) adds 1 to its heavy task's value and
      completes. */
  lemma SimpleShape(w: World, j: nat, route: bool)
    requires Coherent(w) && j < 4 && AwaitsFinished(w, SimpleAt(j))
    ensures Resumable(w, SimpleAt(j))
    ensures var w2 := Resumption(w, SimpleAt(j), route);
            && |w2.cs| == 9 && w2.ready == w.ready + Wake(w.cs[SimpleAt(j)].promise.caller)
            && w2.cs[SimpleAt(j)] == Completed(w.cs[SimpleAt(j)], Ok(Delays[j] + 1))
            && (forall t :: 0 <= t < 9 && t != SimpleAt(j) ==> w2.cs[t] == w.cs[t])
            && Pending(w2.cs) + 1 == Pending(w.cs)
  {
    var s := SimpleAt(j);
    SimpleFacts(w, j);
    var c2 := Completed(w.cs[s], Ok(Delays[j] + 1));
    assert Resumption(w, s, route) == World(w.cs[s := c2], w.ready + Wake(w.cs[s].promise.caller));
    PendingUpdate(w.cs, s, c2);
  }

  /** The same, when complex_func has not registered as its caller: nothing is woken. */
  lemma ResumeSimpleQuiet(w: World, j: nat, route: bool)
    requires Coherent(w) && j < 4 && AwaitsFinished(w, SimpleAt(j)) && SimpleAt(j) !in w.ready
    requires w.cs[SimpleAt(j)].promise.caller == None
    ensures Resumable(w, SimpleAt(j))
    ensures var w2 := Resumption(w, SimpleAt(j), route);
            && Coherent(w2)
            && w2.ready == w.ready
            && w2.cs[SimpleAt(j)].frame.Final?
            && (forall t :: 0 <= t < 9 && t != SimpleAt(j) ==> w2.cs[t] == w.cs[t])
            && Pending(w2.cs) + 1 == Pending(w.cs)
            && (NoLostExcept(w, SimpleAt(j)) ==> NoLost(w2))
  {
    var s := SimpleAt(j);
    SimpleFacts(w, j);
    SimpleShape(w, j, route);
    var w2 := Resumption(w, s, route);
    assert RootOk(w);
    forall i | 0 <= i < 4
      ensures SimpleOk(w2, i) && HeavyOk(w2, i)
    {
      assert SimpleOk(w, i) && HeavyOk(w, i);
    }
    assert RootOk(w2);
    forall t | 0 <= t < 9
      ensures AwaitsFinished(w, t) && t != s ==> AwaitsFinished(w2, t)
      ensures AwaitsFinished(w2, t) ==> AwaitsFinished(w, t)
    {
      AwaitsShape(w, t);
    }
  }

  /** The same, when complex_func has registered as its caller: complex_func, which
      awaits exactly this task, is put on the ready list. */
  lemma ResumeSimpleWakes(w: World, j: nat, route: bool)
    requires Coherent(w) && j < 4 && AwaitsFinished(w, SimpleAt(j)) && SimpleAt(j) !in w.ready
    requires w.cs[SimpleAt(j)].promise.caller.Some?
    ensures Resumable(w, SimpleAt(j))
    ensures var w2 := Resumption(w, SimpleAt(j), route);
            && Coherent(w2)
            && w2.ready == w.ready + [Root]
            && w2.cs[SimpleAt(j)].frame.Final?
            && (forall t :: 0 <= t < 9 && t != SimpleAt(j) ==> w2.cs[t] == w.cs[t])
            && Pending(w2.cs) + 1 == Pending(w.cs)
            && (NoLostExcept(w, SimpleAt(j)) ==> NoLost(w2))
  {
    var s := SimpleAt(j);
    SimpleFacts(w, j);
    SimpleShape(w, j, route);
    var w2 := Resumption(w, s, route);
    assert RootOk(w);
    forall i | 0 <= i < 4
      ensures SimpleOk(w2, i) && HeavyOk(w2, i)
    {
      assert SimpleOk(w, i) && HeavyOk(w, i);
    }
    assert RootOk(w2);
    assert Root !in w.ready by {
      AwaitsShape(w, Root);
    }
    AwaitsShape(w2, Root);
    forall t | 0 <= t < 9
      ensures AwaitsFinished(w, t) && t != s ==> AwaitsFinished(w2, t)
      ensures AwaitsFinished(w2, t) && t != Root ==> AwaitsFinished(w, t)
    {
      AwaitsShape(w, t);
    }
  }

  /** When only complex_func's frame changes, every other task awaits a finished task
      exactly when it did before: none of them awaits complex_func. */
  lemma OthersAwaitAlike(w: World, w2: World)
    requires Coherent(w) && |w2.cs| == 9
    requires forall t :: 0 < t < 9 ==> w2.cs[t].frame == w.cs[t].frame
    ensures forall t :: 0 < t < 9 ==> (AwaitsFinished(w, t) <==> AwaitsFinished(w2, t))
  {
    forall t | 0 < t < 9
      ensures AwaitsFinished(w, t) <==> AwaitsFinished(w2, t)
    {
      AwaitsShape(w, t);
    }
  }

  /** complex_func, resumable, stands at AwaitingSum(Subs, k, sum of the first k
      results) and its k-th simple task is done with Delays[k] + 1. */
  lemma RootFacts(w: World)
    requires Coherent(w) && AwaitsFinished(w, Root)
    ensures var f := w.cs[Root].frame;
            && f.AwaitingSum? && f.subs == Subs && f.k < 4 && f.acc == SumPlusOne(Delays[..f.k])
            && Resumable(w, Root)
            && ValueOf(w.cs[SimpleAt(f.k)]) == Ok(Delays[f.k] + 1)
            && Subs[f.k] == SimpleAt(f.k)
            && (f.k + 1 < 4 ==> Subs[f.k + 1] == SimpleAt(f.k + 1))
  {
    AwaitsShape(w, Root);
    assert RootOk(w);
    var k := w.cs[Root].frame.k;
    assert k == 0 || k == 1 || k == 2 || k == 3;
    assert SimpleOk(w, k);
  }

  /** The frame table after complex_func adds a value and awaits its next simple task. */
  lemma RootAwaitShape(w: World, route: bool)
    requires Coherent(w) && AwaitsFinished(w, Root)
    requires w.cs[Root].frame.k + 1 < 4 && !(route && w.cs[SimpleAt(w.cs[Root].frame.k + 1)].frame.Final?)
    ensures Resumable(w, Root)
    ensures var k := w.cs[Root].frame.k;
            var n := SimpleAt(k + 1);
            var w2 := Resumption(w, Root, route);
            && |w2.cs| == 9 && w2.ready == w.ready
            && w2.cs[Root] == w.cs[Root].(frame := AwaitingSum(Subs, k + 1, SumPlusOne(Delays[..k + 1])))
            && w2.cs[n] == WithCaller(w.cs[n], Root)
            && (forall t :: 0 <= t < 9 && t != Root && t != n ==> w2.cs[t] == w.cs[t])
            && Pending(w2.cs) + 1 == Pending(w.cs)
  {
    RootFacts(w);
    var c := w.cs[Root];
    var k := c.frame.k;
    SumPlusOneStep(k);
    var c1 := c.(frame := AwaitingSum(Subs, k + 1, c.frame.acc + Delays[k] + 1));
    var n := SimpleAt(k + 1);
    var cs1 := w.cs[Root := c1];
    var w2 := Resumption(w, Root, route);
    assert w2 == World(cs1[n := WithCaller(cs1[n], Root)], w.ready);
    PendingUpdate(w.cs, Root, c1);
    PendingUpdate(cs1, n, WithCaller(cs1[n], Root));
  }

  /** complex_func, awaiting its next simple task, keeps the program coherent. */
  lemma RootAwaitCoherent(w: World, route: bool)
    requires Coherent(w) && AwaitsFinished(w, Root) && Root !in w.ready
    requires w.cs[Root].frame.k + 1 < 4 && !(route && w.cs[SimpleAt(w.cs[Root].frame.k + 1)].frame.Final?)
    ensures Resumable(w, Root)
    ensures Coherent(Resumption(w, Root, route))
  {
    RootAwaitShape(w, route);
    var w2 := Resumption(w, Root, route);
    assert RootOk(w);
    forall i | 0 <= i < 4
      ensures SimpleOk(w2, i) && HeavyOk(w2, i)
    {
      assert SimpleOk(w, i) && HeavyOk(w, i);
    }
    assert RootOk(w2);
    OthersAwaitAlike(w, w2);
  }

  lemma ResumeRootAwaits(w: World, route: bool)
    requires Coherent(w) && AwaitsFinished(w, Root) && Root !in w.ready
    requires w.cs[Root].frame.k + 1 < 4 && !(route && w.cs[SimpleAt(w.cs[Root].frame.k + 1)].frame.Final?)
    ensures Resumable(w, Root)
    ensures var w2 := Resumption(w, Root, route);
            && Coherent(w2)
            && (forall i :: 0 <= i < 4 ==> w2.cs[HeavyAt(i)].frame == w.cs[HeavyAt(i)].frame)
            && w2.ready == w.ready
            && Pending(w2.cs) + 1 == Pending(w.cs)
            && (NoLostExcept(w, Root) && !w.cs[SimpleAt(w.cs[Root].frame.k + 1)].frame.Final? ==> NoLost(w2))
            && (w.cs[SimpleAt(w.cs[Root].frame.k + 1)].frame.Final? ==> RootLost(w2))
  {
    RootAwaitShape(w, route);
    RootAwaitCoherent(w, route);
    var n := SimpleAt(w.cs[Root].frame.k + 1);
    var w2 := Resumption(w, Root, route);
    OthersAwaitAlike(w, w2);
    assert Awaits(w2.cs[Root].frame) == Some(n);
  }

  /** The frame table after complex_func adds a value and, with route set, finds its
      next simple task already done. */
  lemma RootRoutedShape(w: World)
    requires Coherent(w) && AwaitsFinished(w, Root)
    requires w.cs[Root].frame.k + 1 < 4 && w.cs[SimpleAt(w.cs[Root].frame.k + 1)].frame.Final?
    ensures Resumable(w, Root)
    ensures var k := w.cs[Root].frame.k;
            var w2 := Resumption(w, Root, true);
            && w2.cs == w.cs[Root := w.cs[Root].(frame := AwaitingSum(Subs, k + 1, SumPlusOne(Delays[..k + 1])))]
            && w2.ready == w.ready + [Root]
            && Pending(w2.cs) + 1 == Pending(w.cs)
  {
    RootFacts(w);
    var c := w.cs[Root];
    var k := c.frame.k;
    SumPlusOneStep(k);
    var c1 := c.(frame := AwaitingSum(Subs, k + 1, c.frame.acc + Delays[k] + 1));
    assert Resumption(w, Root, true) == World(w.cs[Root := c1], w.ready + [Root]);
    PendingUpdate(w.cs, Root, c1);
  }

  lemma ResumeRootRouted(w: World)
    requires Coherent(w) && AwaitsFinished(w, Root) && Root !in w.ready
    requires w.cs[Root].frame.k + 1 < 4 && w.cs[SimpleAt(w.cs[Root].frame.k + 1)].frame.Final?
    ensures Resumable(w, Root)
    ensures var w2 := Resumption(w, Root, true);
            && Coherent(w2)
            && (forall i :: 0 <= i < 4 ==> w2.cs[HeavyAt(i)].frame == w.cs[HeavyAt(i)].frame)
            && w2.ready == w.ready + [Root]
            && Pending(w2.cs) + 1 == Pending(w.cs)
            && (NoLostExcept(w, Root) ==> NoLost(w2))
  {
    RootRoutedShape(w);
    var w2 := Resumption(w, Root, true);
    assert RootOk(w);
    forall i | 0 <= i < 4
      ensures SimpleOk(w2, i) && HeavyOk(w2, i)
    {
      assert SimpleOk(w, i) && HeavyOk(w, i);
    }
    assert RootOk(w2);
    AwaitsShape(w2, Root);
    OthersAwaitAlike(w, w2);
  }

  lemma ResumeRootFinishes(w: World, route: bool)
    requires Coherent(w) && AwaitsFinished(w, Root) && Root !in w.ready
    requires w.cs[Root].frame.k + 1 == 4
    ensures Resumable(w, Root)
    ensures var w2 := Resumption(w, Root, route);
            && Coherent(w2)
            && w2.cs[Root].frame.Final?
            && (forall i :: 0 <= i < 4 ==> w2.cs[HeavyAt(i)].frame == w.cs[HeavyAt(i)].frame)
            && w2.ready == w.ready
            && Pending(w2.cs) + 1 == Pending(w.cs)
            && (NoLostExcept(w, Root) ==> NoLost(w2))
  {
    RootFacts(w);
    var c := w.cs[Root];
    SumPlusOneStep(3);
    assert Delays[..4] == Delays;
    var c2 := Completed(c, Ok(SumPlusOne(Delays)));
    var w2 := Resumption(w, Root, route);
    assert w2 == World(w.cs[Root := c2], w.ready);
    PendingUpdate(w.cs, Root, c2);
    assert RootOk(w);
    forall i | 0 <= i < 4
      ensures SimpleOk(w2, i) && HeavyOk(w2, i)
    {
      assert SimpleOk(w, i) && HeavyOk(w, i);
    }
    assert RootOk(w2);
    OthersAwaitAlike(w, w2);
  }

  /** Resuming a task taken from the ready list keeps the program coherent, uses up one
      of the resumptions still to come and wakes at most one task.  With route set no
      wakeup is lost; as written, a complex_func already lost stays lost. */
  lemma ResumeReady(w: World, h: Handle, route: bool)
    requires Coherent(w) && AwaitsFinished(w, h) && h !in w.ready
    ensures Resumable(w, h)
    ensures var w2 := Resumption(w, h, route);
            && Coherent(w2)
            && (forall i :: 0 <= i < 4 ==> w2.cs[HeavyAt(i)].frame == w.cs[HeavyAt(i)].frame)
            && |w2.ready| <= |w.ready| + 1
            && Pending(w2.cs) + 1 == Pending(w.cs)
            && ((route || Ahead(w)) && NoLostExcept(w, h) ==> NoLost(w2))
            && (Ahead(w) ==> Ahead(w2))
            && (RootLost(w) && h != Root ==> RootLost(w2))
  {
    AwaitsShape(w, h);
    if h == Root {
      RootFacts(w);
      var k := w.cs[Root].frame.k;
      if k + 1 == 4 {
        ResumeRootFinishes(w, route);
      } else {
        if Ahead(w) {
          // the heavy task behind simple task k + 1 has not run, so neither has it
          assert !w.cs[HeavyAt(k + 1)].frame.Final?;
          assert SimpleOk(w, k + 1);
        }
        if route && w.cs[SimpleAt(k + 1)].frame.Final? {
          ResumeRootRouted(w);
        } else {
          ResumeRootAwaits(w, route);
          RootAwaitShape(w, route);
        }
      }
    } else {
      var j := (h - 1) / 2;
      assert h == SimpleAt(j);
      SimpleFacts(w, j);
      AwaitsShape(w, Root);
      if w.cs[h].promise.caller.Some? {
        ResumeSimpleWakes(w, j, route);
      } else {
        ResumeSimpleQuiet(w, j, route);
      }
    }
  }

  /** In a coherent program no task holds an exception, so no resumption reaches
      `std::terminate`. */
  lemma NoRethrow(w: World, h: Handle)
    requires Coherent(w) && Resumable(w, h)
    ensures !Rethrows(w, h)
  {
    AwaitsShape(w, h);
    if h == Root {
      assert RootOk(w);
      var k := w.cs[Root].frame.k;
      assert SimpleOk(w, k);
    } else if h % 2 == 1 {
      var j := (h - 1) / 2;
      assert h + 1 == HeavyAt(j) && HeavyOk(w, j);
    }
  }

  /** `waiting_handles.back()` and `pop_back()`: the task taken is suspended on a
      finished task and no longer on the list, which stays coherent. */
  lemma PopKeeps(w: World)
    requires Coherent(w) && w.ready != []
    ensures var h := w.ready[|w.ready| - 1];
            && Coherent(Pop(w))
            && AwaitsFinished(Pop(w), h)
            && h !in Pop(w).ready
            && (NoLost(w) ==> NoLostExcept(Pop(w), h))
            && (RootLost(w) ==> RootLost(Pop(w)) && h != Root)
  {
    var h := w.ready[|w.ready| - 1];
    var w2 := Pop(w);
    forall i | 0 <= i < 4
      ensures SimpleOk(w2, i) && HeavyOk(w2, i)
    {
      assert SimpleOk(w, i) && HeavyOk(w, i);
    }
    assert RootOk(w2) by {
      assert RootOk(w);
    }
    forall i | 0 <= i < |w2.ready|
      ensures w2.ready[i] != h
    {
      assert w.ready[i] == w2.ready[i];
    }
    if NoLost(w) {
      forall t | 0 <= t < |w.cs| && t != h && AwaitsFinished(w2, t)
        ensures t in w2.ready
      {
        assert t in w.ready;
        var i :| 0 <= i < |w.ready| && w.ready[i] == t;
        assert w2.ready[i] == t;
      }
    }
  }

  lemma ComplexSum()
    ensures SumPlusOne(Delays) == 3604
  {
    assert Delays[..0] == [] && Delays[..4] == Delays;
    SumPlusOneStep(0);
    SumPlusOneStep(1);
    SumPlusOneStep(2);
    SumPlusOneStep(3);
  }

  /** When no task is ready, every callback has run and no wakeup has been lost,
      complex_func is done with 101 + 501 + 1001 + 2001 = 3604. */
  lemma Quiescent(w: World)
    requires Coherent(w) && NoLost(w) && w.ready == []
    requires forall j :: 0 <= j < 4 ==> w.cs[HeavyAt(j)].frame.Final?
    ensures w.cs[Root].frame.Final?
    ensures HasOutcome(w.cs[Root]) && ValueOf(w.cs[Root]) == Ok(3604)
  {
    forall j | 0 <= j < 4
      ensures w.cs[SimpleAt(j)].frame.Final?
    {
      assert SimpleOk(w, j) && HeavyOk(w, j);
      assert !AwaitsFinished(w, SimpleAt(j));
    }
    assert !AwaitsFinished(w, Root);
    AwaitsShape(w, Root);
    assert RootOk(w);
    ComplexSum();
  }

  /** Every callback in batch finds the callbacks of all smaller delays already run. */
  ghost predicate Timely(w: World, batch: seq<nat>)
    requires |w.cs| == 9
  {
    forall x, i :: x in batch && 0 <= i < x && i < 4 ==> w.cs[HeavyAt(i)].frame.Final?
  }

  /** Between two sleeps, with nothing ready and no wakeup lost, complex_func awaits the
      first simple task whose heavy task has not run; so a callback whose predecessors
      have all run feeds a simple task complex_func has already reached. */
  lemma TimelyReach(w: World, batch: seq<nat>)
    requires Coherent(w) && NoLost(w) && w.ready == [] && Timely(w, batch)
    requires forall x :: x in batch ==> x < 4
    ensures forall x :: x in batch ==>
              w.cs[Root].frame.Final? || (w.cs[Root].frame.AwaitingSum? && x <= w.cs[Root].frame.k)
  {
    forall x | x in batch
      ensures w.cs[Root].frame.Final? || (w.cs[Root].frame.AwaitingSum? && x <= w.cs[Root].frame.k)
    {
      if !w.cs[Root].frame.Final? {
        assert RootOk(w);
        var k := w.cs[Root].frame.k;
        if k < x {
          assert w.cs[HeavyAt(k)].frame.Final?;
          assert SimpleOk(w, k) && HeavyOk(w, k);
          AwaitsShape(w, SimpleAt(k));
          assert w.cs[SimpleAt(k)].frame.Final? by {
            assert !AwaitsFinished(w, SimpleAt(k));
          }
          AwaitsShape(w, Root);
          assert AwaitsFinished(w, Root);
          assert false;
        }
      }
    }
  }

  /** What `complex_func()` leaves behind: four simple tasks each awaiting its parked
      heavy task, the first one awaited by complex_func; nothing is ready. */
  lemma StartCoherent()
    ensures Coherent(World(Started(Complex, Root), []))
    ensures NoLost(World(Started(Complex, Root), []))
    ensures Started(Complex, Root)[Root].frame == AwaitingSum(Subs, 0, 0)
    ensures forall j :: 0 <= j < 4 ==> Started(Complex, Root)[HeavyAt(j)].frame.Parked?
  {
    var w := World(Started(Complex, Root), []);
    assert |w.cs| == 9;
    forall j | 0 <= j < 4
      ensures SimpleOk(w, j) && HeavyOk(w, j) && w.cs[HeavyAt(j)].frame.Parked?
    {
      assert j == 0 || j == 1 || j == 2 || j == 3;
    }
    assert Delays[..0] == [];
    assert RootOk(w);
    forall t | 0 <= t < 9
      ensures !AwaitsFinished(w, t)
    {
      AwaitsShape(w, t);
    }
  }

  /** The frame table once complex_func, called at the end of cs, has run its four
      calls to simple_func and not yet parked. */
  function ComplexSpawned(cs: seq<Coroutine>): seq<Coroutine>
  {
    var h := |cs|;
    cs + [Coroutine(Complex, Running, Unset)]
    + StartedSimple(Delays[0], h + 1, None) + StartedSimple(Delays[1], h + 3, None)
    + StartedSimple(Delays[2], h + 5, None) + StartedSimple(Delays[3], h + 7, None)
  }

  /** Parking complex_func on its first simple task and registering it as that task's
      caller leaves exactly the frames a call of complex_func creates. */
  lemma ComplexFrames(cs: seq<Coroutine>)
    ensures var h := |cs|;
            var spawned := ComplexSpawned(cs);
            var parked := spawned[h := spawned[h].(frame := AwaitingSum([h + 1, h + 3, h + 5, h + 7], 0, 0))];
            parked[h + 1 := WithCaller(parked[h + 1], h)] == cs + Started(Complex, h)
  {
  }

  /** The simple_func tasks of the heavy tasks in done, in the same order. */
  function SimplesOf(done: seq<nat>): seq<Handle>
  {
    if done == [] then [] else SimplesOf(done[..|done| - 1]) + [SimpleAt(done[|done| - 1])]
  }

  /** The heavy tasks in done. */
  function HeaviesOf(done: seq<nat>): set<Handle>
  {
    set j | j in done :: HeavyAt(j)
  }

  /** From w0, the heavy tasks in done have been resumed by their callbacks and
      nothing else has run: every other frame is as it was, and the ready list has
      gained the simple_func of each, in the order of done.  w is coherent, no wakeup
      lost in w0 is lost in w, and a complex_func lost in w0 is still lost. */
  ghost predicate Fired(w0: World, w: World, done: seq<nat>)
    requires |w0.cs| == 9
  {
    && Coherent(w) && w.cs[Root] == w0.cs[Root]
    && w.ready == w0.ready + SimplesOf(done)
    && (forall t :: 0 <= t < 9 && t !in HeaviesOf(done) ==> w.cs[t] == w0.cs[t])
    && (NoLost(w0) ==> NoLost(w))
    && (forall j :: 0 <= j < 4 ==>
          (w.cs[HeavyAt(j)].frame.Final? <==> w0.cs[HeavyAt(j)].frame.Final? || j in done))
    && (RootLost(w0) ==> RootLost(w))
  }

  /** One more callback, for a heavy task not yet done, keeps Fired. */
  lemma FireStep(w0: World, w: World, done: seq<nat>, j: nat, route: bool)
    requires |w0.cs| == 9 && Fired(w0, w, done)
    requires j < 4 && j !in done && !w0.cs[HeavyAt(j)].frame.Final?
    ensures Resumable(w, HeavyAt(j))
    ensures Fired(w0, Resumption(w, HeavyAt(j), route), done + [j])
  {
    assert HeavyOk(w, j);
    ResumeHeavy(w, j, route);
    var w2 := Resumption(w, HeavyAt(j), route);
    forall i | 0 <= i < 4
      ensures w2.cs[HeavyAt(i)].frame.Final? <==> w0.cs[HeavyAt(i)].frame.Final? || i in done + [j]
    {
      if i != j {
        assert w2.cs[HeavyAt(i)].frame == w.cs[HeavyAt(i)].frame;
      }
    }
    if NoLost(w) {
      assert NoLostExcept(w, HeavyAt(j));
    }
    assert (done + [j])[..|done|] == done;
    assert HeaviesOf(done + [j]) == HeaviesOf(done) + {HeavyAt(j)};
  }

  /** Firing keeps Ahead when every callback fired feeds a simple task complex_func
      has already reached. */
  lemma AheadFired(w0: World, w: World, batch: seq<nat>)
    requires |w0.cs| == 9 && |w.cs| == 9 && w.cs[Root] == w0.cs[Root] && Ahead(w0)
    requires forall j :: 0 <= j < 4 ==>
               (w.cs[HeavyAt(j)].frame.Final? <==> w0.cs[HeavyAt(j)].frame.Final? || j in batch)
    requires forall x :: x in batch ==>
               w0.cs[Root].frame.Final? || (w0.cs[Root].frame.AwaitingSum? && x <= w0.cs[Root].frame.k)
    ensures Ahead(w)
  {
  }

  // ---------------------------------------------------------------------------
  // The executor: frame table, `waiting_handles` and the detached workers

  class Executor {
    /** false: `await_suspend` as written; true: an awaiter of a finished task is put on
        the ready list at once. */
    const routeFinished: bool
    var coroutines: seq<Coroutine>
    var waiting: seq<Handle>       // waiting_handles
    var workers: seq<Worker>

    ghost function State(): World
      reads this
    {
      World(coroutines, waiting)
    }

    /** The executor of `main` after `auto await = complex_func();`: complex_func at
        handle 0 awaits its first simple task, every heavy task is parked and nothing is
        ready. */
    constructor (routeFinished: bool)
      ensures this.routeFinished == routeFinished
      ensures workers == Threads(Complex, Root)
      ensures Coherent(State()) && NoLost(State()) && waiting == []
      ensures coroutines[Root].frame == AwaitingSum(Subs, 0, 0)
      ensures forall j :: 0 <= j < 4 ==> coroutines[HeavyAt(j)].frame.Parked?
    {
      this.routeFinished := routeFinished;
      coroutines, waiting, workers := [], [], [];
      new;
      var root := Spawn(Complex);
      assert root == Root && coroutines == Started(Complex, Root);
      StartCoherent();
    }

    /** `awaitable::done()`: the task has reached its final suspension point, from
        where no resumption can pick it up again. */
    predicate Done(h: Handle)
      reads this
      requires h < |coroutines|
      ensures Done(h) ==> !Resumable(State(), h)
    {
      coroutines[h].frame.Final?
    }

    /** `promise_type::set_caller` */
    method SetCaller(callee: Handle, caller: Handle)
      requires callee < |coroutines|
      modifies this
      ensures coroutines == old(coroutines)[callee := WithCaller(old(coroutines[callee]), caller)]
      ensures waiting == old(waiting) && workers == old(workers)
    {
      coroutines := coroutines[callee := WithCaller(coroutines[callee], caller)];
    }

    /** `promise_type::return_value` */
    method ReturnValue(h: Handle, v: int)
      requires h < |coroutines|
      modifies this
      ensures coroutines == old(coroutines)[h := old(coroutines[h]).(promise := old(coroutines[h]).promise.(value := Some(v)))]
      ensures waiting == old(waiting) && workers == old(workers)
    {
      coroutines := coroutines[h := coroutines[h].(promise := coroutines[h].promise.(value := Some(v)))];
    }

    /** `promise_type::unhandled_exception` */
    method UnhandledException(h: Handle, e: Error)
      requires h < |coroutines|
      modifies this
      ensures coroutines == old(coroutines)[h := old(coroutines[h]).(promise := old(coroutines[h]).promise.(exception := Some(e)))]
      ensures waiting == old(waiting) && workers == old(workers)
    {
      coroutines := coroutines[h := coroutines[h].(promise := coroutines[h].promise.(exception := Some(e)))];
    }

    /** `promise_type::final_suspend`: push the caller, if set, onto `waiting_handles`;
        the frame stays parked at its final suspension point. */
    method FinalSuspend(h: Handle)
      requires h < |coroutines|
      modifies this
      ensures coroutines == old(coroutines)[h := old(coroutines[h]).(frame := Final)]
      ensures waiting == old(waiting) + Wake(old(coroutines[h].promise.caller))
      ensures workers == old(workers)
    {
      if coroutines[h].promise.caller.Some? {
        waiting := waiting + [coroutines[h].promise.caller.value];
      }
      coroutines := coroutines[h := coroutines[h].(frame := Final)];
    }

    /** `co_return` or an escaping exception, then `final_suspend`. */
    method Complete(h: Handle, outcome: Result<int>)
      requires h < |coroutines|
      modifies this
      ensures State() == Finish(old(State()), h, outcome) && workers == old(workers)
    {
      match outcome {
        case Ok(v) => ReturnValue(h, v);
        case Err(e) => UnhandledException(h, e);
      }
      FinalSuspend(h);
    }

    /** `awaitable::await_ready` (always false) and `await_suspend`. */
    method AwaitSuspend(caller: Handle, callee: Handle)
      requires callee < |coroutines|
      modifies this
      ensures State() == Await(old(State()), caller, callee, routeFinished) && workers == old(workers)
    {
      if routeFinished && coroutines[callee].frame.Final? {
        waiting := waiting + [caller];
      } else {
        SetCaller(callee, caller);
      }
    }

    /** Calling a coroutine function: the new frames go at the end of the table and the
        body runs (initial_suspend is suspend_never) until it first suspends. */
    method Spawn(b: Body) returns (h: Handle)
      modifies this
      ensures h == |old(coroutines)|
      ensures coroutines == old(coroutines) + Started(b, h)
      ensures waiting == old(waiting) && workers == old(workers) + Threads(b, h)
      decreases Rank(b), 1
    {
      match b {
        case Heavy(x) =>
          h := |coroutines|;
          // `co_await await_callback<int>()` does not suspend; its callback resumes h
          workers := workers + [Worker(x, Callback(h))];
          coroutines := coroutines + [Coroutine(b, Parked(x), Unset)];
        case Simple(x) =>
          h := SpawnSimple(x);
        case Complex =>
          h := SpawnComplex();
      }
    }

    /** `simple_func(x)`: call mock_heavy_func(x) and suspend on it. */
    method SpawnSimple(x: int) returns (h: Handle)
      modifies this
      ensures h == |old(coroutines)|
      ensures coroutines == old(coroutines) + Started(Simple(x), h)
      ensures waiting == old(waiting) && workers == old(workers) + Threads(Simple(x), h)
      decreases 1, 0
    {
      h := |coroutines|;
      coroutines := coroutines + [Coroutine(Simple(x), Running, Unset)];
      var callee := Spawn(Heavy(x));
      coroutines := coroutines[h := coroutines[h].(frame := AwaitingHeavy(callee))];
      AwaitSuspend(h, callee);
    }

    /** `complex_func()`: call simple_func on the four delays, then suspend on the
        first. */
    method SpawnComplex() returns (h: Handle)
      modifies this
      ensures h == |old(coroutines)|
      ensures coroutines == old(coroutines) + Started(Complex, h)
      ensures waiting == old(waiting) && workers == old(workers) + Threads(Complex, h)
      decreases 2, 0
    {
      h := |coroutines|;
      ghost var before, started := coroutines, workers;
      coroutines := coroutines + [Coroutine(Complex, Running, Unset)];
      var a1 := Spawn(Simple(Delays[0]));
      var a2 := Spawn(Simple(Delays[1]));
      var a3 := Spawn(Simple(Delays[2]));
      var a4 := Spawn(Simple(Delays[3]));
      assert coroutines == ComplexSpawned(before);
      assert workers == started + Threads(Complex, h);
      coroutines := coroutines[h := coroutines[h].(frame := AwaitingSum([a1, a2, a3, a4], 0, 0))];
      AwaitSuspend(h, a1);
      ComplexFrames(before);
    }

    /** `handle()`: run task h from where it is suspended to its next suspension point.
        terminated reports that `await_resume` met a stored exception, which cannot
        leave the `noexcept` `value()`: the program ends in `std::terminate`. */
    method Resume(h: Handle) returns (terminated: bool)
      requires Resumable(State(), h)
      modifies this
      ensures terminated == Rethrows(old(State()), h)
      ensures State() == Resumption(old(State()), h, routeFinished) && workers == old(workers)
    {
      terminated := false;
      var c := coroutines[h];
      match c.frame {
        case Parked(x) =>
          Complete(h, Ok(x));
        case AwaitingHeavy(e) =>
          var value := ValueOf(coroutines[e]);      // await_resume
          if value.Err? {
            terminated := true;
          } else {
            Complete(h, Ok(value.value + 1));
          }
        case AwaitingSum(subs, k, acc) =>
          var value := ValueOf(coroutines[subs[k]]);
          if value.Err? {
            terminated := true;
          } else if k + 1 < |subs| {
            coroutines := coroutines[h := c.(frame := AwaitingSum(subs, k + 1, acc + value.value))];
            AwaitSuspend(h, subs[k + 1]);
          } else {
            Complete(h, Ok(acc + value.value));
          }
        case _ =>
      }
    }

    /** Worker thread j of `main` wakes up and calls its callback, which resumes
        mock_heavy_func(Delays[j]). */
    method Fire(j: nat)
      requires workers == Threads(Complex, Root) && j < 4
      requires Coherent(State()) && !coroutines[HeavyAt(j)].frame.Final?
      modifies this
      ensures Resumable(old(State()), HeavyAt(j))
      ensures State() == Resumption(old(State()), HeavyAt(j), routeFinished)
      ensures workers == old(workers)
    {
      assert workers[j].callback.target == HeavyAt(j) by {
        assert j == 0 || j == 1 || j == 2 || j == 3;
      }
      assert HeavyOk(State(), j);
      ResumeHeavy(State(), j, routeFinished);
      var _ := Resume(workers[j].callback.target);    // a parked heavy task reads no value
    }

    /** One turn of the inner loop of `main`: take the handle at the back of
        `waiting_handles` and resume it. */
    method RunNext() returns (terminated: bool)
      requires waiting != [] && Resumable(Pop(State()), waiting[|waiting| - 1])
      modifies this
      ensures terminated == Rethrows(Pop(old(State())), old(waiting[|waiting| - 1]))
      ensures State() == Resumption(Pop(old(State())), old(waiting[|waiting| - 1]), routeFinished)
      ensures workers == old(workers)
    {
      var h := waiting[|waiting| - 1];
      waiting := waiting[..|waiting| - 1];
      terminated := Resume(h);
    }

    /** The inner loop of `main`: resume ready tasks until none is left.  It ends, keeps
        the program coherent and never resumes a heavy task.  It loses no wakeup with
        route set, nor as written when complex_func is Ahead; as written, a
        complex_func already lost stays lost. */
    method Drain()
      requires Coherent(State())
      modifies this
      ensures Coherent(State())
      ensures (routeFinished || Ahead(old(State()))) && NoLost(old(State())) ==> NoLost(State())
      ensures Ahead(old(State())) ==> Ahead(State())
      ensures waiting == [] && workers == old(workers)
      ensures forall i :: 0 <= i < 4 ==> coroutines[HeavyAt(i)].frame == old(coroutines[HeavyAt(i)].frame)
      ensures RootLost(old(State())) ==> RootLost(State())
    {
      while waiting != []
        invariant Coherent(State())
        invariant (routeFinished || Ahead(old(State()))) && NoLost(old(State())) ==> NoLost(State())
        invariant Ahead(old(State())) ==> Ahead(State())
        invariant workers == old(workers)
        invariant forall i :: 0 <= i < 4 ==> coroutines[HeavyAt(i)].frame == old(coroutines[HeavyAt(i)].frame)
        invariant RootLost(old(State())) ==> RootLost(State())
        decreases Pending(coroutines) + |waiting|
      {
        var h := waiting[|waiting| - 1];
        ghost var w := Pop(State());
        PopKeeps(State());
        ResumeReady(w, h, routeFinished);
        NoRethrow(w, h);
        var terminated := RunNext();
        assert !terminated;
        assert State() == Resumption(w, h, routeFinished);
      }
    }

    /** The callbacks of the workers in batch run, during one `sleep_for(10ms)` of
        `main`; each resumes its parked heavy task. */
    method FireBatch(batch: seq<nat>)
      requires workers == Threads(Complex, Root)
      requires Coherent(State())
      requires forall x :: x in batch ==> x < 4 && !coroutines[HeavyAt(x)].frame.Final?
      requires NoDup(batch)
      modifies this
      ensures Coherent(State()) && coroutines[Root] == old(coroutines[Root])
      ensures waiting == old(waiting) + SimplesOf(batch)
      ensures forall t :: 0 <= t < 9 && t !in HeaviesOf(batch) ==> coroutines[t] == old(coroutines[t])
      ensures NoLost(old(State())) ==> NoLost(State())
      ensures workers == old(workers)
      ensures forall j :: 0 <= j < 4 ==>
                (coroutines[HeavyAt(j)].frame.Final? <==> old(coroutines[HeavyAt(j)].frame.Final?) || j in batch)
      ensures RootLost(old(State())) ==> RootLost(State())
    {
      for i := 0 to |batch|
        invariant workers == old(workers)
        invariant Fired(old(State()), State(), batch[..i])
      {
        var j := batch[i];
        assert j in batch && j !in batch[..i];
        FireStep(old(State()), State(), batch[..i], j, routeFinished);
        Fire(j);
        assert batch[..i + 1] == batch[..i] + [j];
      }
      assert batch[..|batch|] == batch;
    }

    /** One turn of the outer loop of `main`: the callbacks in batch run during
        `sleep_for(10ms)`; then `await.done()` ends the loop, or the ready list is
        drained.  No wakeup is lost with route set; as written, none is lost either
        when every callback in batch comes after those of all smaller delays. */
    method Turn(batch: seq<nat>) returns (finished: bool)
      requires workers == Threads(Complex, Root)
      requires Coherent(State()) && waiting == []
      requires forall x :: x in batch ==> x < 4 && !coroutines[HeavyAt(x)].frame.Final?
      requires NoDup(batch)
      modifies this
      ensures workers == old(workers)
      ensures Coherent(State())
      ensures routeFinished && NoLost(old(State())) ==> NoLost(State())
      ensures NoLost(old(State())) && Ahead(old(State())) && Timely(old(State()), batch) ==>
                NoLost(State()) && Ahead(State())
      ensures finished == old(coroutines[Root].frame.Final?)
      ensures finished ==> coroutines[Root] == old(coroutines[Root]) && waiting == SimplesOf(batch)
      ensures !finished ==> waiting == []
      ensures forall j :: 0 <= j < 4 ==>
                (coroutines[HeavyAt(j)].frame.Final? <==> old(coroutines[HeavyAt(j)].frame.Final?) || j in batch)
      ensures RootLost(old(State())) ==> !finished && RootLost(State())
    {
      ghost var w0 := State();
      if NoLost(w0) && Timely(w0, batch) {
        TimelyReach(w0, batch);
      }
      FireBatch(batch);
      if NoLost(w0) && Ahead(w0) && Timely(w0, batch) {
        AheadFired(w0, State(), batch);
      }
      finished := Done(Root);
      if !finished {
        Drain();
      }
    }

    /** A first turn of `main` as written in which callbacks 0 and 1 both run during
        the sleep: the drain loses complex_func's wakeup (see DrainTakesComplex). */
    method LosingTurn()
      requires !routeFinished && workers == Threads(Complex, Root)
      requires Coherent(State()) && waiting == []
      requires coroutines[Root].frame == AwaitingSum(Subs, 0, 0)
      requires forall j :: 0 <= j < 4 ==> coroutines[HeavyAt(j)].frame.Parked?
      modifies this
      ensures workers == old(workers)
      ensures Coherent(State()) && RootLost(State()) && waiting == []
      ensures FirstTwoFired(State())
    {
      ghost var w1, w2 := FirstSleep(State());
      Fire(0);
      Fire(1);
      assert State() == w2;
      ghost var w3 := DrainTakesSecond(w2);
      var _ := RunNext();
      assert State() == w3;
      ghost var w4 := DrainTakesFirst(w3);
      var _ := RunNext();
      assert State() == w4;
      ghost var w5 := DrainTakesComplex(w4);
      var _ := RunNext();
      assert State() == w5;
    }
  }

  // ---------------------------------------------------------------------------
  // `main`

  /** The callbacks of a schedule, batch after batch. */
  function Flatten(schedule: seq<seq<nat>>): seq<nat>
  {
    if schedule == [] then [] else Flatten(schedule[..|schedule| - 1]) + schedule[|schedule| - 1]
  }

  lemma {:induction false} FlattenPrefix(schedule: seq<seq<nat>>, t: nat)
    requires t <= |schedule|
    ensures Flatten(schedule[..t]) <= Flatten(schedule)
    decreases |schedule| - t
  {
    if t < |schedule| {
      FlattenPrefix(schedule, t + 1);
      assert schedule[..t + 1][..t] == schedule[..t];
    } else {
      assert schedule[..t] == schedule;
    }
  }

  lemma NoDupPrefix(p: seq<nat>, s: seq<nat>)
    requires p <= s && NoDup(s)
    ensures NoDup(p) && forall x :: x in p ==> x in s
  {
    assert forall i :: 0 <= i < |p| ==> p[i] == s[i];
  }

  lemma NoDupSplit(a: seq<nat>, b: seq<nat>)
    requires NoDup(a + b)
    ensures NoDup(b)
    ensures forall x :: x in b ==> x !in a
  {
    var ab := a + b;
    forall i, i' | 0 <= i < i' < |b|
      ensures b[i] != b[i']
    {
      assert ab[|a| + i] == b[i] && ab[|a| + i'] == b[i'];
    }
    forall m, i | 0 <= m < |a| && 0 <= i < |b|
      ensures a[m] != b[i]
    {
      assert ab[m] == a[m] && ab[|a| + i] == b[i];
    }
  }

  /** In a schedule where no callback appears twice, batch t holds distinct callbacks
      none of which ran in an earlier batch. */
  lemma BatchFresh(schedule: seq<seq<nat>>, t: nat)
    requires t < |schedule| && NoDup(Flatten(schedule))
    ensures Flatten(schedule[..t + 1]) == Flatten(schedule[..t]) + schedule[t]
    ensures NoDup(schedule[t])
    ensures forall x :: x in schedule[t] ==> x !in Flatten(schedule[..t]) && x in Flatten(schedule)
  {
    var prefix := schedule[..t + 1];
    assert prefix[..t] == schedule[..t] && prefix[t] == schedule[t];
    var before, fs := Flatten(schedule[..t]), Flatten(prefix);
    assert fs == before + schedule[t];
    FlattenPrefix(schedule, t + 1);
    NoDupPrefix(fs, Flatten(schedule));
    NoDupSplit(before, schedule[t]);
    forall x | x in schedule[t]
      ensures x in Flatten(schedule)
    {
      assert x in fs;
    }
  }

  /** Every callback runs in a later sleep than the callbacks of all smaller delays. */
  ghost predicate InOrder(schedule: seq<seq<nat>>)
  {
    forall t, x, i :: 0 <= t < |schedule| && x in schedule[t] && 0 <= i < x ==> i in Flatten(schedule[..t])
  }

  /** `main`, with the moments the worker callbacks run made explicit: batch t of the
      schedule runs during the (t+1)-th `sleep_for(10ms)` in which anything happens.
      After each sleep, a done complex_func ends the loop with its value; otherwise the
      ready list is drained.  When the schedule is exhausted and complex_func is still
      not done, the result is None: if the schedule listed all four callbacks, none is
      left to come and the loop would poll for ever; otherwise the schedule simply
      stopped early.  Whatever the schedule, a value reported is 3604.  Once every
      callback has run, a value is always reported with route set, and as written when
      each callback ran in a later sleep than those of all smaller delays. */
  method RunMain(schedule: seq<seq<nat>>, routeFinished: bool) returns (result: Option<Result<int>>)
    requires forall x :: x in Flatten(schedule) ==> x < 4
    requires NoDup(Flatten(schedule))
    ensures result.Some? ==> result.value == Ok(3604)
    ensures (routeFinished || InOrder(schedule)) && (forall j :: 0 <= j < 4 ==> j in Flatten(schedule)) ==>
              result == Some(Ok(3604))
  {
    var ex := new Executor(routeFinished);
    var root := Root;
    ComplexSum();
    assert Flatten(schedule[..0]) == [];
    var t := 0;
    var finished := false;
    while t < |schedule| && !finished
      invariant ex.routeFinished == routeFinished && root == Root && t <= |schedule|
      invariant ex.workers == Threads(Complex, Root)
      invariant Coherent(ex.State())
      invariant (routeFinished || InOrder(schedule)) ==> NoLost(ex.State())
      invariant InOrder(schedule) ==> Ahead(ex.State())
      invariant finished ==> ex.coroutines[Root].frame.Final?
      invariant !finished ==> ex.waiting == []
      invariant !finished ==> forall j :: 0 <= j < 4 ==>
                  (ex.coroutines[HeavyAt(j)].frame.Final? <==> j in Flatten(schedule[..t]))
      decreases |schedule| - t
    {
      BatchFresh(schedule, t);
      if InOrder(schedule) {
        forall x, i | x in schedule[t] && 0 <= i < x && i < 4
          ensures ex.coroutines[HeavyAt(i)].frame.Final?
        {
          assert i in Flatten(schedule[..t]);
        }
        assert Timely(ex.State(), schedule[t]);
      }
      finished := ex.Turn(schedule[t]);
      t := t + 1;
    }
    if !finished {
      // one more sleep with no callback left: done now, or never
      assert schedule[..t] == schedule;
      if (routeFinished || InOrder(schedule)) && forall j | 0 <= j < 4 :: j in Flatten(schedule) {
        Quiescent(ex.State());
      }
    }
    if ex.Done(root) {
      result := Some(ValueOf(ex.coroutines[root]));
    } else {
      result := None;
    }
  }

  /** `main` as written with the timing of its expected output: the callbacks run one
      per sleep, shortest delay first (sleeps in which nothing happens change nothing
      and are left out).  complex_func reports 3604. */
  method OnTimeRun() returns (result: Option<Result<int>>)
    ensures result == Some(Ok(3604))
  {
    var schedule: seq<seq<nat>> := [[0], [1], [2], [3]];
    assert Flatten(schedule[..1]) == [0] by {
      assert schedule[..1][..0] == schedule[..0];
    }
    assert Flatten(schedule[..2]) == [0, 1] by {
      assert schedule[..2][..1] == schedule[..1];
    }
    assert Flatten(schedule[..3]) == [0, 1, 2] by {
      assert schedule[..3][..2] == schedule[..2];
    }
    assert Flatten(schedule) == [0, 1, 2, 3] by {
      assert schedule[..3] == schedule[..|schedule| - 1];
    }
    assert InOrder(schedule);
    result := RunMain(schedule, false);
  }

  // ---------------------------------------------------------------------------
  // A lost wakeup in the code as written: callbacks 0 and 1 run within one sleep

  /** The callbacks of mock_heavy_func(100) and mock_heavy_func(500) have run, the
      other two not. */
  ghost predicate FirstTwoFired(w: World)
    requires |w.cs| == 9
  {
    && w.cs[HeavyAt(0)].frame.Final? && w.cs[HeavyAt(1)].frame.Final?
    && w.cs[HeavyAt(2)].frame.Parked? && w.cs[HeavyAt(3)].frame.Parked?
  }

  /** The first sleep: both callbacks run; simple_func(100) and simple_func(500) become
      ready, in that order. */
  lemma FirstSleep(w0: World) returns (w1: World, w2: World)
    requires Coherent(w0) && w0.ready == [] && w0.cs[Root].frame == AwaitingSum(Subs, 0, 0)
    requires forall j :: 0 <= j < 4 ==> w0.cs[HeavyAt(j)].frame.Parked?
    ensures Resumable(w0, HeavyAt(0)) && w1 == Resumption(w0, HeavyAt(0), false)
    ensures Coherent(w1) && w1.cs[HeavyAt(1)].frame.Parked?
    ensures Resumable(w1, HeavyAt(1)) && w2 == Resumption(w1, HeavyAt(1), false)
    ensures Coherent(w2) && w2.ready == [SimpleAt(0), SimpleAt(1)]
    ensures w2.cs[Root].frame == AwaitingSum(Subs, 0, 0)
    ensures FirstTwoFired(w2)
  {
    ResumeHeavy(w0, 0, false);
    w1 := Resumption(w0, HeavyAt(0), false);
    ResumeHeavy(w1, 1, false);
    w2 := Resumption(w1, HeavyAt(1), false);
  }

  /** The drain takes simple_func(500) from the back first: it completes, but complex_func
      has not awaited it yet, so nobody is woken. */
  lemma DrainTakesSecond(w2: World) returns (w3: World)
    requires Coherent(w2) && w2.ready == [SimpleAt(0), SimpleAt(1)]
    requires w2.cs[Root].frame == AwaitingSum(Subs, 0, 0)
    requires FirstTwoFired(w2)
    ensures Resumable(Pop(w2), SimpleAt(1)) && w3 == Resumption(Pop(w2), SimpleAt(1), false)
    ensures Coherent(w3) && w3.ready == [SimpleAt(0)]
    ensures w3.cs[Root].frame == AwaitingSum(Subs, 0, 0) && w3.cs[SimpleAt(1)].frame.Final?
    ensures FirstTwoFired(w3)
  {
    PopKeeps(w2);
    assert RootOk(w2);
    ResumeSimpleQuiet(Pop(w2), 1, false);
    w3 := Resumption(Pop(w2), SimpleAt(1), false);
  }

  /** Then simple_func(100): it completes and wakes complex_func. */
  lemma DrainTakesFirst(w3: World) returns (w4: World)
    requires Coherent(w3) && w3.ready == [SimpleAt(0)]
    requires w3.cs[Root].frame == AwaitingSum(Subs, 0, 0) && w3.cs[SimpleAt(1)].frame.Final?
    requires FirstTwoFired(w3)
    ensures Resumable(Pop(w3), SimpleAt(0)) && w4 == Resumption(Pop(w3), SimpleAt(0), false)
    ensures Coherent(w4) && w4.ready == [Root]
    ensures w4.cs[Root].frame == AwaitingSum(Subs, 0, 0) && w4.cs[SimpleAt(1)].frame.Final?
    ensures FirstTwoFired(w4)
  {
    PopKeeps(w3);
    AwaitsShape(w3, Root);
    assert RootOk(w3);
    ResumeSimpleWakes(Pop(w3), 0, false);
    w4 := Resumption(Pop(w3), SimpleAt(0), false);
  }

  /** Then complex_func: it adds 101 and awaits simple_func(500), which is already done;
      `await_suspend` only records the caller, so complex_func is lost. */
  lemma DrainTakesComplex(w4: World) returns (w5: World)
    requires Coherent(w4) && w4.ready == [Root]
    requires w4.cs[Root].frame == AwaitingSum(Subs, 0, 0) && w4.cs[SimpleAt(1)].frame.Final?
    requires FirstTwoFired(w4)
    ensures Resumable(Pop(w4), Root) && w5 == Resumption(Pop(w4), Root, false)
    ensures Coherent(w5) && RootLost(w5) && w5.ready == []
    ensures FirstTwoFired(w5)
  {
    PopKeeps(w4);
    ResumeRootAwaits(Pop(w4), false);
    w5 := Resumption(Pop(w4), Root, false);
  }

  /** The executor as written, with callbacks 0 and 1 in the first sleep and 2 and 3 in
      a later one, the ready list drained after each: every callback has run and
      nothing is ready, yet complex_func is not done, so `main` polls for ever. */
  method StuckRun() returns (rootDone: bool, allFired: bool, ready: nat)
    ensures !rootDone && allFired && ready == 0
  {
    var ex := new Executor(false);
    ex.LosingTurn();
    var finished := ex.Turn([2, 3]);
    rootDone := ex.Done(Root);
    allFired := forall j | 0 <= j < 4 :: ex.coroutines[HeavyAt(j)].frame.Final?;
    ready := |ex.waiting|;
  }
}
