/** coroutine/step7.cpp: `counter(num)` yields 0 .. num-1 and then ends; `main` resumes
    the handle until `done()` and destroys it. */
module BoundedCounter {
  import opened Coroutines

  /** The coroutine made by `counter(num)`: its frame (the argument and the loop index)
      and its promise (`value_`).  `final_suspend` is `suspend_always`, so once the body
      ends the frame stays parked at its final suspension point, `done()` holds, and the
      promise stays readable until `destroy()`. */
  class Counter {
    const num: Size
    var i: Size              // the frame's loop index
    var value: Option<Size>  // the promise's value_; None until the first yield_value
    var done: bool           // handle_.done(): parked at final_suspend
    ghost var live: bool     // false once handle_.destroy() has released the frame

    /** The loop index counts the resumes, the promise holds the latest yielded index,
        and the body has ended exactly when the index reached num. */
    ghost predicate Valid()
      reads this
    {
      && i <= num
      && (done <==> i == num)
      && (i < num ==> value == Some(i))
      && (i == num && num > 0 ==> value == Some(num - 1))
      && (num == 0 ==> value == None)
    }

    /** `counter(num)`: `initial_suspend` is `suspend_never`, so the body runs at once:
        with num > 0 up to `co_yield 0`; with num == 0 straight through `return_void` to
        the final suspension point. */
    constructor (num: Size)
      ensures Valid() && live && this.num == num && i == 0
      ensures done <==> num == 0
      ensures !done ==> value == Some(0)
    {
      this.num := num;
      i := 0;
      live := true;
      if 0 < num {
        value := Some(0);   // yield_value(0)
        done := false;
      } else {
        value := None;      // return_void; final_suspend
        done := true;
      }
    }

    /** `handle_()`: `++i`, then either `co_yield i` (overwriting value_) or, when the
        loop test fails, `return_void` and the final suspension point.  Resuming a done
        or destroyed handle is undefined, so the caller must not. */
    method Resume()
      requires Valid() && live && !done
      modifies this
      ensures Valid() && live
      ensures i == old(i) + 1
      ensures done <==> i == num
      ensures !done ==> value == Some(i)
      ensures done ==> value == old(value)
    {
      i := i + 1;
      if i < num {
        value := Some(i);   // yield_value(i)
      } else {
        done := true;       // return_void; final_suspend
      }
    }

    /** `handle_.destroy()`: the frame and its promise are released. */
    method Destroy()
      requires live
      modifies this`live
      ensures !live
    {
      live := false;
    }
  }

  /** The loop of `main` for any num: while the handle is not done, print `value_` and
      resume.  It prints 0 .. num-1, each once, resumes exactly num times, and the handle
      is done after the last resume. */
  method DriveToEnd(num: Size) returns (printed: seq<nat>, resumes: nat)
    ensures printed == Range(0, num)
    ensures resumes == num
  {
    var counter := new Counter(num);
    printed, resumes := [], 0;
    while !counter.done
      invariant counter.Valid() && counter.live && counter.num == num
      invariant resumes == counter.i
      invariant printed == Range(0, resumes)
      decreases num - counter.i
    {
      printed := printed + [counter.value.value];
      RangeSnoc(0, resumes);
      counter.Resume();
      resumes := resumes + 1;
    }
    counter.Destroy();
  }

  /** `main` with counter(3): prints 0, 1, 2 and then the body prints "counter: end". */
  method RunMain() returns (printed: seq<nat>)
    ensures printed == [0, 1, 2]
  {
    var resumes;
    printed, resumes := DriveToEnd(3);
    RangeAt(0, 3);
  }

  /** counter(0): the body ends during creation, so the loop of `main` prints nothing
      and never resumes. */
  method RunEmpty() returns (printed: seq<nat>, resumes: nat)
    ensures printed == [] && resumes == 0
  {
    printed, resumes := DriveToEnd(0);
  }
}
