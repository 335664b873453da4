/** coroutine/step9.cpp: a generator that takes a value back from each `co_yield`
    (`Next(send)`), with an input iterator over it, and the `counter<STEP>(max)` body
    whose step is the value sent in. */
module SendGenerator {
  import opened Coroutines

  /** `Generator<R, S, DEFAULT_SEND_VALUE>` with its coroutine.  `body` maps the frame
      where the body is parked, and the promise's `send_value_` at the moment it is
      resumed (the value of the pending `co_yield` expression), to what the
      resumption reports and the frame where the body parks next. */
  class Generator<F, R, S> {
    const body: (F, S) -> (Resumed<R>, F)
    const defaultSend: S           // DEFAULT_SEND_VALUE
    var frame: F
    var done: bool                 // handle_.done()
    // the promise
    var sendValue: Option<S>       // send_value_; None until the first Next
    var returnValue: Option<R>     // return_value_; None until the first yield_value
    var promiseException: Option<Error>
    // the generator
    var consumed: bool             // consumed_
    var value: Option<R>           // value_
    var exception: Option<Error>   // exception_

    /** The promise stores an exception only on the way to the final suspension point,
        and an unconsumed generator holds either a value or an exception for `Get`. */
    ghost predicate Valid()
      reads this
    {
      && (promiseException.Some? ==> done)
      && (!consumed ==> value.Some? || exception.Some?)
    }

    /** What `Next(send)` did, comparing with the state before it. */
    twostate predicate NextEffect(send: S)
      reads this
    {
      if old(done) then
        && consumed && value == None && done
        && frame == old(frame) && sendValue == old(sendValue)
        && returnValue == old(returnValue) && promiseException == old(promiseException)
        && exception == old(exception)
      else
        var (r, next) := body(old(frame), send);
        && sendValue == Some(send)
        && frame == next
        && done == !r.Yielded?
        && returnValue == (if r.Yielded? then Some(r.value) else old(returnValue))
        && promiseException == (if r.Threw? then Some(r.error) else old(promiseException))
        && exception == promiseException
        && match r
           case Yielded(v) => !consumed && value == Some(v)
           case Returned => consumed && value == None
           case Threw(e) => !consumed && value == None
    }

    /** `counter<STEP>(max)` returning its Generator: `initial_suspend` is
        `suspend_always`, so the body has not started, and `consumed_` starts true. */
    constructor (body: (F, S) -> (Resumed<R>, F), defaultSend: S, start: F)
      ensures Valid() && this.body == body && this.defaultSend == defaultSend
      ensures frame == start && !done && consumed
      ensures sendValue == None && returnValue == None && promiseException == None
      ensures value == None && exception == None
    {
      this.body := body;
      this.defaultSend := defaultSend;
      frame := start;
      done := false;
      sendValue, returnValue, promiseException := None, None, None;
      consumed, value, exception := true, None, None;
    }

    /** `explicit operator bool`: true exactly when the body is running and the current
        value (or exception) has not been taken by `Get`; then `Get` has something to
        return or rethrow. */
    function Truthy(): (b: bool)
      reads this
      requires Valid()
      ensures b ==> !done && (value.Some? || exception.Some?)
    {
      !done && !consumed
    }

    /** `Done()`: the body has ended, by returning or by throwing.  A done generator is
        false as a bool, and a body that threw is done. */
    predicate Done()
      reads this
      ensures Valid() && Done() ==> !Truthy()
      ensures Valid() && promiseException.Some? ==> Done()
    {
      done
    }

    /** `Get()`: mark the value consumed, then rethrow a captured exception or return
        the value.  Dereferencing an empty value_ is undefined, so there must be one of
        the two. */
    method Get() returns (r: Result<R>)
      requires Valid() && (value.Some? || exception.Some?)
      modifies this`consumed
      ensures Valid() && consumed
      ensures r == if exception.Some? then Err(exception.value) else Ok(value.value)
    {
      consumed := true;
      if exception.Some? {
        r := Err(exception.value);
      } else {
        r := Ok(value.value);
      }
    }

    /** `Next(send)`: on a running body, store `send` in the promise and resume; then
        report true with an unconsumed value after a `co_yield`, true with an empty
        value after an exception (so that `Get` rethrows it), and false after the body
        ends.  On a finished body, report false without resuming. */
    method Next(send: S) returns (more: bool)
      requires Valid()
      modifies this
      ensures Valid() && NextEffect(send)
      ensures more == !consumed
    {
      if !done {
        sendValue := Some(send);
        var (r, next) := body(frame, send);
        frame := next;
        match r {
          case Yielded(v) =>
            returnValue := Some(v);          // yield_value
          case Returned =>
            done := true;                    // return_void; final_suspend
          case Threw(e) =>
            promiseException := Some(e);     // unhandled_exception; final_suspend
            done := true;
        }
        exception := promiseException;
        if exception.Some? {
          consumed := false;
          value := None;
          more := true;
        } else if done {
          consumed := true;
          value := None;
          more := false;
        } else {
          consumed := false;
          value := returnValue;
          more := true;
        }
      } else {
        consumed := true;
        value := None;
        more := false;
      }
    }

    /** `Next()`: `Next(DEFAULT_SEND_VALUE)`. */
    method NextDefault() returns (more: bool)
      requires Valid()
      modifies this
      ensures Valid() && NextEffect(defaultSend)
      ensures more == !consumed
    {
      more := Next(defaultSend);
    }
  }

  /** `Generator::iterator`: an input iterator that advances its generator with a fixed
      send value; it equals the sentinel `end()` exactly when the generator is done. */
  class Iterator<F, R, S> {
    const gen: Generator<F, R, S>
    const send: S

    /** `iterator(gen, send)` and `begin(send)`: construction performs the first
        `Next(send)`. */
    constructor (gen: Generator<F, R, S>, send: S)
      requires gen.Valid()
      modifies gen
      ensures this.gen == gen && this.send == send
      ensures gen.Valid() && gen.NextEffect(send)
    {
      this.gen := gen;
      this.send := send;
      new;
      var _ := gen.Next(send);
    }

    /** `operator==(iterator, sentinel)`: the iterator is at its end exactly when the
        generator's body is done, whether it ended or threw. */
    predicate AtEnd()
      reads this, gen
    {
      gen.Done()
    }

    /** `operator++`: `Next(send)` on the generator. */
    method Increment()
      requires gen.Valid()
      modifies gen
      ensures gen.Valid() && gen.NextEffect(send)
    {
      var _ := gen.Next(send);
    }

    /** `operator*`: `Get()` on the generator. */
    method Deref() returns (r: Result<R>)
      requires gen.Valid() && (gen.value.Some? || gen.exception.Some?)
      modifies gen`consumed
      ensures gen.Valid() && gen.consumed
      ensures r == if gen.exception.Some? then Err(gen.exception.value) else Ok(gen.value.value)
    {
      r := gen.Get();
    }
  }

  /** The frame of `counter<STEP>(max)`: not started yet, or parked at `co_yield i`. */
  datatype CounterFrame = Start(max: Size) | AtYield(i: Size, max: Size)

  /** One resumption of `for (size_t i = 0; i < max;) { auto step = co_yield i; i += step; }`:
      the value of the pending `co_yield` is the send value of this resumption, and
      `i += step` wraps as size_t does.  The body never throws, every value it yields
      is below max, and it then stays parked at that value. */
  function CounterBody(f: CounterFrame, step: Size): (r: (Resumed<Size>, CounterFrame))
    ensures !r.0.Threw? && r.1.max == f.max
    ensures r.0.Yielded? ==> r.0.value < f.max && r.1 == AtYield(r.0.value, f.max)
    ensures r.0.Yielded? && f.AtYield? ==> r.0.value == (f.i + step) % SizeModulus
  {
    match f
    case Start(max) =>
      if 0 < max then (Yielded(0), AtYield(0, max)) else (Returned, f)
    case AtYield(i, max) =>
      var j := (i + step) % SizeModulus;
      if j < max then (Yielded(j), AtYield(j, max)) else (Returned, f)
  }

  /** Where counter(max) is parked after yielding the first n multiples of s. */
  function CounterAfter(n: nat, max: Size, s: Size): CounterFrame
    requires 0 < s && n <= |Stride(0, max, s)|
  {
    if n == 0 then Start(max)
    else
      StrideAt(0, max, s, n - 1);
      AtYield(Stride(0, max, s)[n - 1], max)
  }

  /** No yielded value plus s reaches 2^64: the step after the last multiple of s
      below max does not wrap. */
  predicate NoWrap(max: Size, s: Size)
  {
    0 < s && |Stride(0, max, s)| * s < SizeModulus
  }

  /** The step after the (n-1)-th multiple of s lands on n * s without wrapping, and
      that is below max exactly when the stride has an n-th element. */
  lemma StrideNext(max: Size, s: Size, n: nat)
    requires NoWrap(max, s) && 0 < n <= |Stride(0, max, s)|
    ensures Stride(0, max, s)[n - 1] + s == n * s < SizeModulus
    ensures n * s < max <==> n < |Stride(0, max, s)|
  {
    var st := Stride(0, max, s);
    StrideAt(0, max, s, n - 1);
    assert (n - 1) * s + s == n * s;
    assert n * s <= |st| * s by {
      assert (|st| - n) * s >= 0;
    }
    if n < |st| {
      StrideAt(0, max, s, n);
    } else {
      StrideComplete(0, max, s);
    }
  }

  /** With a positive step s whose additions never wrap, the next resumption of
      counter(max) after yielding Stride(0, max, s)[..n] yields the next element of
      the stride, or ends when the stride is exhausted. */
  lemma CounterStep(max: Size, s: Size, n: nat)
    requires NoWrap(max, s) && n <= |Stride(0, max, s)|
    ensures var (r, next) := CounterBody(CounterAfter(n, max, s), s);
            && (n < |Stride(0, max, s)| ==> r == Yielded(Stride(0, max, s)[n])
                                            && next == CounterAfter(n + 1, max, s))
            && (n == |Stride(0, max, s)| ==> r == Returned)
  {
    if n < |Stride(0, max, s)| {
      StrideAt(0, max, s, n);
    }
    if 0 < n {
      StrideNext(max, s, n);
    }
  }

  /** `while (gen.Next(s)) out(gen.Get());` over counter<STEP>(max): every multiple of s
      below max, in increasing order.  s must be positive and `i += step` must not
      wrap, or the loop could start over. */
  method NextLoop(max: Size, step: Size, s: Size) returns (out: seq<nat>)
    requires NoWrap(max, s)
    ensures out == Stride(0, max, s)
  {
    var gen := new Generator(CounterBody, step, Start(max));
    out := [];
    while true
      invariant gen.Valid() && gen.body == CounterBody && !gen.done
      invariant gen.promiseException.None? && gen.exception.None?
      invariant |out| <= |Stride(0, max, s)| && out == Stride(0, max, s)[..|out|]
      invariant gen.frame == CounterAfter(|out|, max, s)
      decreases |Stride(0, max, s)| - |out|
    {
      CounterStep(max, s, |out|);
      var more := gen.Next(s);
      if !more {
        break;
      }
      var v := gen.Get();
      out := out + [v.value];
    }
  }

  /** The value an iterator sends: the argument of `begin(send)`, or for `begin()`
      DEFAULT_SEND_VALUE, which counter<STEP> sets to STEP. */
  function SendOf(step: Size, send: Option<Size>): Size
  {
    if send.Some? then send.value else step
  }

  /** The range-for / iterator loop over counter<STEP>(max), started with `begin(s)`
      (send = Some(s)) or `begin()` (send = None): every multiple of the sent value
      below max, in increasing order, and the iterator meets `end()` right after the
      last of them. */
  method IteratorLoop(max: Size, step: Size, send: Option<Size>) returns (out: seq<nat>, atEnd: bool)
    requires NoWrap(max, SendOf(step, send))
    ensures out == Stride(0, max, SendOf(step, send)) && atEnd
  {
    var gen: Generator<CounterFrame, Size, Size> := new Generator(CounterBody, step, Start(max));
    var s := if send.Some? then send.value else gen.defaultSend;    // begin(s) or begin()
    CounterStep(max, s, 0);
    var it := new Iterator(gen, s);
    out := [];
    while !it.AtEnd()
      invariant it.gen == gen && it.send == s
      invariant gen.Valid() && gen.body == CounterBody
      invariant gen.promiseException.None? && gen.exception.None?
      invariant |out| < |Stride(0, max, s)| ==> !gen.done && !gen.consumed && gen.value == Some(Stride(0, max, s)[|out|])
      invariant |out| <= |Stride(0, max, s)| && out == Stride(0, max, s)[..|out|]
      invariant gen.done <==> |out| == |Stride(0, max, s)|
      invariant !gen.done ==> gen.frame == CounterAfter(|out| + 1, max, s)
      decreases |Stride(0, max, s)| - |out|
    {
      var v := it.Deref();
      out := out + [v.value];
      CounterStep(max, s, |out|);
      it.Increment();
    }
    atEnd := it.AtEnd();
  }

  /** Usage 1: `counter(5)` driven by `Next(2)` prints 0, 2, 4. */
  method Usage1() returns (out: seq<nat>)
    ensures out == [0, 2, 4]
  {
    out := NextLoop(5, 1, 2);
    assert Stride(6, 5, 2) == [];
  }

  /** Usage 2: `counter(9)` iterated from `begin(3)` prints 0, 3, 6. */
  method Usage2() returns (out: seq<nat>)
    ensures out == [0, 3, 6]
  {
    var atEnd;
    out, atEnd := IteratorLoop(9, 1, Some(3));
    assert Stride(9, 9, 3) == [];
  }

  /** Usage 3: `for (auto value : counter(3))` starts from `begin()`, so it sends
      DEFAULT_SEND_VALUE = STEP = 1, and prints 0, 1, 2. */
  method Usage3() returns (out: seq<nat>)
    ensures out == [0, 1, 2]
  {
    var atEnd;
    out, atEnd := IteratorLoop(3, 1, None);
    assert Stride(3, 3, 1) == [];
  }
}
