/** coroutine/step4.cpp: `counter()` yields 0, 1, 2, ... for ever; `main` reads the
    promise's `value_` and resumes the handle, three times. */
module EndlessCounter {
  import opened Coroutines

  /** The coroutine made by `counter()`: its frame (the loop variable) and its promise
      (`value_`) in one object.  The body `for (size_t i = 0;; ++i) co_yield i;` has no
      way out of its loop, so the frame has no final state: the handle is always parked
      at the `co_yield`, `done()` never holds and "counter: end" is never reached. */
  class Counter {
    var i: Size       // the frame's loop variable
    var value: Size   // the promise's value_, written by yield_value
    ghost var live: bool  // false once handle_.destroy() has released the frame

    ghost predicate Valid()
      reads this
    {
      value == i
    }

    /** `counter()`: `initial_suspend` is `suspend_never`, so the body runs at once up to
        its first `co_yield 0`, whose `yield_value` stores 0. */
    constructor ()
      ensures Valid() && live && value == 0
    {
      i := 0;
      value := i;
      live := true;
    }

    /** `handle_()`: one more turn of the loop, `++i` wrapping as size_t does, then
        `co_yield i`.  Resuming a destroyed handle is undefined, so the caller must not. */
    method Resume()
      requires Valid() && live
      modifies this
      ensures Valid() && live
      ensures value == (old(value) + 1) % SizeModulus
    {
      i := (i + 1) % SizeModulus;
      value := i;
    }

    /** `handle_.destroy()`: the frame and its promise are released; nothing else
        changes. */
    method Destroy()
      requires live
      modifies this`live
      ensures !live
    {
      live := false;
    }
  }

  lemma WrapStep(k: nat)
    ensures (k % SizeModulus + 1) % SizeModulus == (k + 1) % SizeModulus
  {
    var q := k / SizeModulus;
    assert k == q * SizeModulus + k % SizeModulus;
    if k % SizeModulus + 1 == SizeModulus {
      assert k + 1 == (q + 1) * SizeModulus;
    } else {
      assert k + 1 == q * SizeModulus + (k % SizeModulus + 1);
    }
  }

  /** `main`, with the bound 3 of its loop made a parameter: print `value_`, resume,
      then destroy the handle.  The n-th value seen is n modulo 2^64; the loop can go
      on for any n because the handle never becomes done, and the coroutine is
      released at the end. */
  method Observe(n: nat) returns (seen: seq<nat>, counter: Counter)
    ensures |seen| == n
    ensures forall k :: 0 <= k < n ==> seen[k] == k % SizeModulus
    ensures !counter.live
  {
    counter := new Counter();
    seen := [];
    var k := 0;
    while k < n
      invariant k <= n && |seen| == k
      invariant counter.Valid() && counter.live && counter.value == k % SizeModulus
      invariant forall j :: 0 <= j < k ==> seen[j] == j % SizeModulus
    {
      seen := seen + [counter.value];
      counter.Resume();
      WrapStep(k);
      k := k + 1;
    }
    counter.Destroy();
  }

  /** `main`: three rounds print 0, 1 and 2, and the handle is destroyed. */
  method RunMain() returns (seen: seq<nat>)
    ensures seen == [0, 1, 2]
  {
    var counter;
    seen, counter := Observe(3);
  }
}
