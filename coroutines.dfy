/** Vocabulary shared by the coroutine models: failure-carrying results, what one
    resumption of a coroutine body reports, the width of `size_t`, and the
    arithmetic sequences the counter coroutines produce. */
module Coroutines {

  datatype Option<+T> = None | Some(value: T)

  /** An exception object captured by `std::current_exception()`. */
  datatype Error = Error(what: string)

  /** A value, or the exception a call rethrows instead of returning it. */
  datatype Result<+T> = Ok(value: T) | Err(error: Error)

  /** What one resumption of a generator body reports when control comes back to
      the resumer: the body stopped at a `co_yield v`; it ran off its end
      (`return_void`, then `final_suspend`); or an exception escaped the body and
      was stored by `unhandled_exception` before `final_suspend`. */
  datatype Resumed<+Y> = Yielded(value: Y) | Returned | Threw(error: Error)

  /** `size_t` is 64 bits wide: arithmetic on it wraps modulo this. */
  const SizeModulus: nat := 0x1_0000_0000_0000_0000

  type Size = x: nat | x < SizeModulus

  /** lo, lo + s, lo + 2s, ... strictly below hi. */
  function Stride(lo: nat, hi: nat, s: nat): seq<nat>
    requires s > 0
    decreases hi - lo
  {
    if lo < hi then [lo] + Stride(lo + s, hi, s) else []
  }

  /** lo, lo + 1, ..., hi - 1. */
  function Range(lo: nat, hi: nat): seq<nat>
  {
    Stride(lo, hi, 1)
  }

  /** The k-th element of a stride is lo + k * s, and nothing lies at or beyond hi. */
  lemma {:induction false} StrideAt(lo: nat, hi: nat, s: nat, k: nat)
    requires s > 0 && k < |Stride(lo, hi, s)|
    ensures Stride(lo, hi, s)[k] == lo + k * s < hi
    decreases hi - lo
  {
    if k > 0 {
      StrideAt(lo + s, hi, s, k - 1);
      assert Stride(lo, hi, s)[k] == Stride(lo + s, hi, s)[k - 1];
    }
  }

  /** A stride stops at the first step that reaches hi: one more step would not be below hi. */
  lemma {:induction false} StrideComplete(lo: nat, hi: nat, s: nat)
    requires s > 0
    ensures lo + |Stride(lo, hi, s)| * s >= hi
    decreases hi - lo
  {
    if lo < hi {
      StrideComplete(lo + s, hi, s);
      var n := |Stride(lo + s, hi, s)|;
      assert (n + 1) * s == n * s + s;
    }
  }

  /** A stride is strictly increasing, so every number in it occurs once. */
  lemma StrideIncreasing(lo: nat, hi: nat, s: nat, i: nat, j: nat)
    requires s > 0 && i < j < |Stride(lo, hi, s)|
    ensures Stride(lo, hi, s)[i] < Stride(lo, hi, s)[j]
  {
    StrideAt(lo, hi, s, i);
    StrideAt(lo, hi, s, j);
    assert i * s < j * s by {
      assert (j - i) * s > 0;
    }
  }

  /** Range(lo, hi) lists the hi - lo numbers from lo upwards. */
  lemma {:induction false} RangeAt(lo: nat, hi: nat)
    requires lo <= hi
    ensures |Range(lo, hi)| == hi - lo
    ensures forall k :: 0 <= k < hi - lo ==> Range(lo, hi)[k] == lo + k
    decreases hi - lo
  {
    if lo < hi {
      RangeAt(lo + 1, hi);
    }
  }

  /** Extending a range by its next number. */
  lemma RangeSnoc(lo: nat, hi: nat)
    requires lo <= hi
    ensures Range(lo, hi + 1) == Range(lo, hi) + [hi]
  {
    RangeAt(lo, hi);
    RangeAt(lo, hi + 1);
  }
}
