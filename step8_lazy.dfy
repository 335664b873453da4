/** coroutine/step8.cpp: a lazily started generator whose `consumed_` flag lets
    `operator bool` and `operator()` advance the body at most once per value, and the
    `counter(num)` body driven by `while (gen) gen();`. */
module LazyGenerator {
  import opened Coroutines

  /** `Generator<T>` with its coroutine.  The body is a resumable state machine: `body`
      maps the frame where the body is parked to what the next resumption reports and
      the frame where it parks next.  The promise's `value_` and `exception_` are the
      fields `value` and `exception`. */
  class Generator<F, T> {
    const body: F -> (Resumed<T>, F)
    var frame: F
    var done: bool                 // handle_.done()
    var value: Option<T>           // promise value_; None until the first yield_value
    var exception: Option<Error>   // promise exception_
    var consumed: bool             // consumed_

    /** An exception is stored only on the way to the final suspension point. */
    ghost predicate Valid()
      reads this
    {
      exception.Some? ==> done
    }

    /** The state one resumption from frame f leaves behind, given the promise's
        value_ v and exception_ e before it. */
    ghost predicate ResumedFrom(f: F, v: Option<T>, e: Option<Error>)
      reads this
    {
      var (r, next) := body(f);
      && frame == next
      && done == !r.Yielded?
      && value == (if r.Yielded? then Some(r.value) else v)
      && exception == (if r.Threw? then Some(r.error) else e)
    }

    /** `counter(...)` returning its Generator: `initial_suspend` is `suspend_always`,
        so nothing of the body has run yet, and `consumed_` starts true. */
    constructor (body: F -> (Resumed<T>, F), start: F)
      ensures Valid() && this.body == body && frame == start
      ensures !done && consumed && value == None && exception == None
    {
      this.body := body;
      frame := start;
      done := false;
      value := None;
      exception := None;
      consumed := true;
    }

    /** `handle_()`: run the body to its next suspension point.  A `co_yield` stores
        the value (`yield_value`); an escaping exception is stored
        (`unhandled_exception`); either end parks the frame at `final_suspend`. */
    method Resume()
      requires Valid() && !done
      modifies this
      ensures Valid() && consumed == old(consumed)
      ensures ResumedFrom(old(frame), old(value), old(exception))
    {
      var (r, next) := body(frame);
      frame := next;
      match r
      case Yielded(v) =>
        value := Some(v);
      case Returned =>
        done := true;
      case Threw(e) =>
        exception := Some(e);
        done := true;
    }

    /** `Next()`: resume only when the current value has been consumed, then mark the
        new one unconsumed; a captured exception is rethrown (reported in `thrown`)
        and leaves `consumed_` as it was.  Resuming a finished body is undefined, so a
        consumed generator must not be done. */
    method Next() returns (thrown: Option<Error>)
      requires Valid() && (consumed ==> !done)
      modifies this
      ensures Valid()
      ensures !old(consumed) ==> unchanged(this) && thrown == None
      ensures old(consumed) ==> ResumedFrom(old(frame), old(value), old(exception))
      ensures old(consumed) ==> thrown == exception && consumed == thrown.Some?
    {
      thrown := None;
      if consumed {
        Resume();
        if exception.Some? {
          thrown := exception;
        } else {
          consumed := false;
        }
      }
    }

    /** `operator bool`: `Next()`, then whether the body is still running.  Asked
        again before `operator()`, it does not advance the body. */
    method Test() returns (r: Result<bool>)
      requires Valid() && (consumed ==> !done)
      modifies this
      ensures Valid()
      ensures !old(consumed) ==> unchanged(this) && r == Ok(!done)
      ensures old(consumed) ==> ResumedFrom(old(frame), old(value), old(exception))
      ensures old(consumed) ==> match r
                                case Ok(b) => b == !done && !consumed && exception.None?
                                case Err(e) => exception == Some(e) && consumed
    {
      var thrown := Next();
      if thrown.Some? {
        r := Err(thrown.value);
      } else {
        r := Ok(!done);
      }
    }

    /** `operator()`: `Next()`, mark the value consumed and return the promise's
        current value_. */
    method Call() returns (r: Result<Option<T>>)
      requires Valid() && (consumed ==> !done)
      modifies this
      ensures Valid() && consumed
      ensures !old(consumed) ==> frame == old(frame) && done == old(done) && value == old(value)
      ensures !old(consumed) ==> exception == old(exception) && r == Ok(value)
      ensures old(consumed) ==> ResumedFrom(old(frame), old(value), old(exception))
      ensures old(consumed) ==> match r
                                case Ok(v) => v == value && exception.None?
                                case Err(e) => exception == Some(e)
    {
      var thrown := Next();
      if thrown.Some? {
        r := Err(thrown.value);
      } else {
        consumed := true;
        r := Ok(value);
      }
    }
  }

  /** The frame of `counter(num)`: not started yet, or parked at `co_yield i`. */
  datatype CounterFrame = Start(num: Size) | AtYield(i: Size, num: Size)

  /** One resumption of `for (size_t i = 0; i < num; ++i) co_yield i;`.  The body never
      throws, every value it yields is below num, and it then stays parked at that
      value. */
  function CounterBody(f: CounterFrame): (r: (Resumed<Size>, CounterFrame))
    ensures !r.0.Threw? && r.1.num == f.num
    ensures r.0.Yielded? ==> r.0.value < f.num && r.1 == AtYield(r.0.value, f.num)
  {
    match f
    case Start(num) =>
      if 0 < num then (Yielded(0), AtYield(0, num)) else (Returned, f)
    case AtYield(i, num) =>
      if i + 1 < num then (Yielded(i + 1), AtYield(i + 1, num)) else (Returned, f)
  }

  /** The values a body yields when resumed again and again from frame f, for at most
      fuel resumptions, up to its first non-yield. */
  function Yields<F, T>(body: F -> (Resumed<T>, F), f: F, fuel: nat): seq<T>
  {
    if fuel == 0 then []
    else
      var (r, next) := body(f);
      if r.Yielded? then [r.value] + Yields(body, next, fuel - 1) else []
  }

  /** Where counter(num) is parked after yielding k values. */
  function CounterAfter(k: nat, num: Size): CounterFrame
    requires k <= num
  {
    if k == 0 then Start(num) else AtYield(k - 1, num)
  }

  /** Resumed from where it stands after k values, counter(num) yields k if k < num
      and otherwise runs off its end. */
  lemma CounterStep(k: nat, num: Size)
    requires k <= num
    ensures CounterBody(CounterAfter(k, num)).0 == (if k < num then Yielded(k) else Returned)
    ensures k < num ==> CounterBody(CounterAfter(k, num)).1 == CounterAfter(k + 1, num)
  {
  }

  /** From where it stands after k values, counter(num) yields k, ..., num-1 and then
      ends: exactly num - k more values however much fuel is left beyond that. */
  lemma {:induction false} CounterYieldsFrom(k: nat, num: Size, fuel: nat)
    requires k <= num && fuel >= num - k
    ensures Yields(CounterBody, CounterAfter(k, num), fuel + 1) == Range(k, num)
    decreases num - k
  {
    CounterStep(k, num);
    if k < num {
      CounterYieldsFrom(k + 1, num, fuel - 1);
    }
  }

  /** counter(num) yields exactly 0, 1, ..., num-1 and then ends. */
  lemma CounterYields(num: Size)
    ensures Yields(CounterBody, Start(num), num + 1) == Range(0, num)
  {
    CounterYieldsFrom(0, num, num);
  }

  /** `while (gen) out(gen());` over counter(num): every value is read exactly once, in
      order, and the loop ends when the body does. */
  method DrainCounter(num: Size) returns (out: seq<nat>)
    ensures out == Range(0, num)
  {
    var gen := new Generator(CounterBody, Start(num));
    out := [];
    while true
      invariant gen.Valid() && gen.body == CounterBody && gen.exception.None?
      invariant gen.consumed && !gen.done && |out| <= num
      invariant gen.frame == CounterAfter(|out|, num)
      invariant out == Range(0, |out|)
      decreases num - |out|
    {
      CounterStep(|out|, num);
      var more := gen.Test();
      if more != Ok(true) {
        break;
      }
      var v := gen.Call();
      RangeSnoc(0, |out|);
      out := out + [v.value.value];
    }
  }

  /** `main`: counter(3) prints 0, 1, 2. */
  method RunMain() returns (out: seq<nat>)
    ensures out == [0, 1, 2]
  {
    out := DrainCounter(3);
    RangeAt(0, 3);
  }
}
