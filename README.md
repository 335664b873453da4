# Coroutine tutorial core, modelled in Dafny

This project models the runtime logic in five files of a C++20 coroutine tutorial:

- **`coroutine/step4.cpp`**: an eagerly started counter that never finishes.
- **`coroutine/step7.cpp`**: an eagerly started counter that ends after `num` values and is resumed by hand until `done()`.
- **`coroutine/step8.cpp`**: a lazily started generator whose `consumed_` flag lets `operator bool` and `operator()` advance the body at most once per value.
- **`coroutine/step9.cpp`**: a generator that sends a value back into each `co_yield`, with an input iterator and a sentinel.
- **`coroutine/step10.cpp`**: a toy single-threaded task executor. It has:
  - eagerly started `awaitable<int>` tasks, each with a result cell and one caller link;
  - a global ready list `waiting_handles`, onto which a finishing task pushes its caller;
  - a callback bridge, `await_callback`, through which a worker thread resumes a parked task;
  - the polling loop of `main`, which drains the ready list until `complex_func()` is done.

The compiler-generated coroutine frames cannot be seen, so each coroutine body is written as an explicit resumable state machine: a frame datatype and a step function.

- **Generators** (`Generator` in `step8_lazy.dfy` and `step9_send.dfy`) are classes. Their fields are the handle's `done()` state and the promise's cells. In step8 the promise holds `value_` and `exception_`, and the generator owns only `consumed_`. In step9 the promise holds `send_value_`, `return_value_` and `exception_`, and the generator owns `consumed_`, `value_` and `exception_`. The methods mutate these fields as the C++ member functions do.
- **Executor.** step10's tasks live in a frame table indexed by handle (`AsyncQueue.Executor`). That table, `waiting_handles` and the detached workers are fields of the executor.
  - The single-step methods (SetCaller through Resume, Fire and RunNext) are specified by functions on the whole state: `Finish`, `Await`, `Resumption` and `Pop`. `Spawn` is specified by `Started` and `Threads`.
  - The loops (`FireBatch`, `Drain`, `Turn`) and the fixed scenario `LosingTurn` are specified by invariants (`Coherent`, `NoLost`, `RootLost`) and by what they leave behind: the frames that finished and the ready list.
  - The program `main` runs is then proved against the invariant `Coherent`, and against `NoLost`: no task is suspended on a finished task without being ready.
- **Shared pieces** are in `coroutines.dfy`:
  - the `Option` and `Result` datatypes;
  - the `Resumed` outcome of one resumption: yielded, returned or threw;
  - `size_t` as `Size`, with explicit wrap-around modulo 2^64;
  - the sequences `Range` and `Stride` that the counters produce.

Worker threads and sleeps are not modelled as such. Each moment a callback runs is an external event. `AsyncQueue.RunMain` takes these events as a schedule: batch t holds the callbacks that run during the (t+1)-th `sleep_for(10ms)` in which anything happens.

`waiting_handles` is used as a stack: the handle pushed last (`back()` / `pop_back()`) runs first.

## Model

| member | source | states |
|---|---|---|
| EndlessCounter.Counter.constructor | coroutine/step4.cpp:31 | `initial_suspend` never suspends, so creating `counter()` runs the body to its first `co_yield` and the promise holds 0 |
| EndlessCounter.Counter.Resume | coroutine/step4.cpp:27-30 | one resume sets `value_` to the previous value plus one, modulo 2^64 as `size_t` wraps; the counter stays valid, with no final state to reach |
| EndlessCounter.Counter.Destroy | coroutine/step4.cpp:58 | `destroy()` releases the frame; a destroyed handle can no longer be resumed |
| EndlessCounter.Observe | coroutine/step4.cpp:43-58 | for any number n of rounds of print-then-resume, the k-th value seen is k mod 2^64: the handle never becomes done, so the loop can continue for any n; afterwards the handle is destroyed |
| EndlessCounter.RunMain | coroutine/step4.cpp:51-68 | `main`'s three rounds observe 0, 1, 2, as in the expected output |
| BoundedCounter.Counter.constructor | coroutine/step7.cpp:32 | eager start: with num > 0 the body stops at `co_yield 0` and `value_` is 0; with num == 0 it runs to the final suspension point at once, so `done()` holds exactly when num == 0 |
| BoundedCounter.Counter.Resume | coroutine/step7.cpp:28-35 | each resume advances the loop index by one and overwrites `value_` with it; `done()` holds exactly when the index reaches num; at the end `value_` keeps the last yielded value, since `final_suspend` keeps the promise alive |
| BoundedCounter.Counter.Destroy | coroutine/step7.cpp:60 | `destroy()` releases the frame; a destroyed handle can no longer be resumed |
| BoundedCounter.DriveToEnd | coroutine/step7.cpp:45-59 | `main`'s `while (!done())` loop prints 0 .. num-1, each exactly once and in order, and resumes exactly num times |
| BoundedCounter.RunMain | coroutine/step7.cpp:53-73 | counter(3) prints 0, 1, 2, as in the expected output |
| BoundedCounter.RunEmpty | coroutine/step7.cpp:45-56 | counter(0) is done on creation: the loop prints nothing and never resumes |
| LazyGenerator.Generator.constructor | coroutine/step8.cpp:22 | `initial_suspend` is `suspend_always`: nothing of the body has run, the handle is not done, and `consumed_` starts true |
| LazyGenerator.Generator.Resume | coroutine/step8.cpp:23-31 | one resumption of the body: a `co_yield` stores its value in `value_`; an escaping exception is stored in `exception_`; a body that returns or throws is parked at `final_suspend` and done |
| LazyGenerator.Generator.Next | coroutine/step8.cpp:53-61 | resumes only when the current value has been consumed, and then marks the new one unconsumed; an unconsumed generator is left entirely unchanged; a captured exception is rethrown and leaves `consumed_` true |
| LazyGenerator.Generator.Test | coroutine/step8.cpp:41-44 | `operator bool` is `Next()` and then `!done()`; asked again before `operator()`, it does not advance the body; an exception from `Next` propagates |
| LazyGenerator.Generator.Call | coroutine/step8.cpp:46-50 | `operator()` advances the body only if the last value was consumed, then marks the value consumed and returns the promise's current `value_`, or propagates a rethrown exception |
| LazyGenerator.CounterBody | coroutine/step8.cpp:73-77 | one resumption of counter(num) never throws; a yielded value is below num, and the body then stays parked at that value |
| LazyGenerator.CounterStep | coroutine/step8.cpp:73-77 | after k values, the next resumption of counter(num) yields k if k < num, and otherwise leaves the loop |
| LazyGenerator.CounterYieldsFrom | coroutine/step8.cpp:73-77 | from where it stands after k values, counter(num) yields exactly k, ..., num-1 and then ends |
| LazyGenerator.CounterYields | coroutine/step8.cpp:73-77 | counter(num) yields exactly 0, ..., num-1 and then ends |
| LazyGenerator.DrainCounter | coroutine/step8.cpp:79-84 | `while (gen) gen();` over counter(num) reads every value exactly once, in order, and stops when the body ends |
| LazyGenerator.RunMain | coroutine/step8.cpp:79-92 | counter(3) prints 0, 1, 2, as in the expected output |
| SendGenerator.Generator.constructor | coroutine/step9.cpp:28 | lazy start: the body has not run, the handle is not done, `consumed_` starts true and all cells are empty |
| SendGenerator.Generator.Truthy | coroutine/step9.cpp:104 | `operator bool` is `!done() && !consumed_`; when true, `Get` has a value to return or an exception to rethrow |
| SendGenerator.Generator.Get | coroutine/step9.cpp:106-112 | `Get` always sets `consumed_`, then rethrows a captured exception in preference to returning `value_` |
| SendGenerator.Generator.Next | coroutine/step9.cpp:116-143 | on a running body: stores the send value in the promise, resumes, and then (1) after a yield returns true with the yielded value unconsumed; (2) after a throw returns true with `value_` empty and the exception kept for `Get`; (3) after the body ends returns false with `consumed_` set. On a done body: returns false, sets `consumed_` and clears `value_`, without resuming |
| SendGenerator.Generator.Done | coroutine/step9.cpp:145 | `Done()` is the handle's `done()`: a done generator is false as a bool, and a body that threw is done |
| SendGenerator.Generator.NextDefault | coroutine/step9.cpp:114 | `Next()` has exactly the effect of `Next(DEFAULT_SEND_VALUE)` |
| SendGenerator.Iterator.constructor | coroutine/step9.cpp:71-73 | constructing an iterator (`begin(send)`) performs one `Next(send)` on its generator |
| SendGenerator.Iterator.Increment | coroutine/step9.cpp:82-85 | `operator++` is `Next` with the iterator's send value |
| SendGenerator.Iterator.Deref | coroutine/step9.cpp:89 | `operator*` is `Get`: it consumes the value, or rethrows the captured exception |
| SendGenerator.CounterBody | coroutine/step9.cpp:163-169 | one resumption of counter<STEP>(max) never throws; it continues from `co_yield i` with i + send value, wrapping modulo 2^64 as `size_t` does; a yielded value is below max, and the body then stays parked at it |
| SendGenerator.StrideNext | coroutine/step9.cpp:165-167 | when no step wraps, `i += step` from the (n-1)-th value lands on n * s, which is below max exactly when counter(max) has an n-th value to yield |
| SendGenerator.CounterStep | coroutine/step9.cpp:163-169 | the value of each `co_yield` is the send value of the resumption that continues it; with a step s > 0 and when no step wraps, after n values counter(max) yields the next multiple of s below max, or ends when there is none |
| SendGenerator.NextLoop | coroutine/step9.cpp:176-179 | `while (gen.Next(s)) gen.Get();` over counter(max) produces exactly the multiples of s below max, in increasing order |
| SendGenerator.IteratorLoop | coroutine/step9.cpp:185-195 | the iterator loop from `begin(s)` or `begin()` to `end()` produces exactly the multiples of the sent value below max, in increasing order, and the iterator equals the sentinel when the loop ends |
| SendGenerator.Usage1 | coroutine/step9.cpp:176-179 | counter(5) driven by `Next(2)` prints 0, 2, 4 |
| SendGenerator.Usage2 | coroutine/step9.cpp:184-187 | counter(9) iterated from `begin(3)` prints 0, 3, 6 |
| SendGenerator.Usage3 | coroutine/step9.cpp:192-195 | the range-for over counter(3) starts from `begin()`, so it sends the default step 1, and prints 0, 1, 2 |
| Coroutines.StrideAt | coroutine/step9.cpp:165-167 | the n-th value of counter<STEP>(max) with step s is n * s, and every value lies below max |
| Coroutines.StrideComplete | coroutine/step9.cpp:165 | the loop stops exactly at the first multiple of s that is not below max |
| Coroutines.StrideIncreasing | coroutine/step9.cpp:165-167 | with a positive step the counter's values strictly increase, so none is produced twice |
| Coroutines.RangeAt | coroutine/step8.cpp:74-76 | the k-th value of a counter from 0 is k |
| AsyncQueue.Executor.constructor | coroutine/step10.cpp:36 | `auto await = complex_func();`: the eager start runs complex_func, its four simple_func calls and their mock_heavy_func calls up to their first suspensions. complex_func awaits its first simple task, every heavy task is parked for its callback, nothing is ready, and the program is coherent with no lost wakeup |
| AsyncQueue.Executor.SetCaller | coroutine/step10.cpp:53 | records (overwriting) the caller link of one task; nothing else changes |
| AsyncQueue.Executor.ReturnValue | coroutine/step10.cpp:48-51 | stores the task's value in its result cell; nothing else changes |
| AsyncQueue.Executor.UnhandledException | coroutine/step10.cpp:46 | stores the escaping exception in the result cell; nothing else changes |
| AsyncQueue.Executor.FinalSuspend | coroutine/step10.cpp:38-44 | appends exactly the registered caller to `waiting_handles`, or nothing when there is none; the task stays suspended at its final point (done) rather than destroyed |
| AsyncQueue.Executor.Complete | coroutine/step10.cpp:38-51 | `co_return` or an escaping exception writes the result cell once, then `final_suspend` wakes the caller |
| AsyncQueue.Executor.AwaitSuspend | coroutine/step10.cpp:73-78 | as written, awaiting never completes at once and only records the caller link, enqueuing nothing; with the correction, an awaiter of a finished task is put on the ready list instead |
| AsyncQueue.Executor.Spawn | coroutine/step10.cpp:125-136 | calling a coroutine function appends exactly its frames and its worker threads, each body standing at its first real suspension point; `await_callback` never suspends and its callback targets the heavy task itself |
| AsyncQueue.Executor.SpawnSimple | coroutine/step10.cpp:141-143 | simple_func(x) calls mock_heavy_func(x) and suspends on it as its caller |
| AsyncQueue.Executor.SpawnComplex | coroutine/step10.cpp:148-155 | complex_func calls simple_func on 100, 500, 1000 and 2000 (eagerly), then suspends on the first |
| AsyncQueue.Executor.Done | coroutine/step10.cpp:86 | `done()` holds when the task is at its final suspension point, from where no resumption picks it up again |
| AsyncQueue.Executor.Resume | coroutine/step10.cpp:80-94 | resuming a task runs it to its next suspension point. `await_resume` reads the callee through `value()`, which rethrows a stored exception in preference to the value; since both are `noexcept`, that ends the program (`std::terminate`): Resume then reports terminated and changes nothing. Otherwise mock_heavy_func returns x; simple_func returns value + 1; complex_func adds the awaited value and awaits the next task, or returns the sum after the fourth |
| AsyncQueue.Executor.Fire | coroutine/step10.cpp:117-136 | a worker's callback resumes exactly the heavy task it captured |
| AsyncQueue.Executor.RunNext | coroutine/step10.cpp:174-176 | the handle at the back of `waiting_handles` is removed and resumed; it reports when that resumption ends in `std::terminate` |
| AsyncQueue.Executor.Drain | coroutine/step10.cpp:173-177 | the inner loop terminates with the ready list empty. It keeps the program coherent and never resumes a heavy task. It loses no wakeup with the correction, or as written while complex_func never comes to await an already finished task. A complex_func already lost stays lost |
| AsyncQueue.Executor.FireBatch | coroutine/step10.cpp:164 | the callbacks that run during one sleep finish exactly their heavy tasks and change no other frame; the ready list gains their simple_func tasks, in the order the callbacks ran; complex_func does not move and no wakeup is lost |
| AsyncQueue.Executor.Turn | coroutine/step10.cpp:163-178 | one outer iteration of main ends the loop exactly when complex_func is done after the sleep (the callbacks never move it), leaving the woken simple_func tasks on the ready list, and otherwise drains. No wakeup is lost with the correction, nor as written when each callback comes after those of all smaller delays. A lost complex_func is never reported done |
| AsyncQueue.Executor.LosingTurn | coroutine/step10.cpp:73-78 | as written, when callbacks 0 and 1 run in the same sleep, the drain leaves complex_func suspended on a finished task with nothing ready |
| AsyncQueue.RunMain | coroutine/step10.cpp:158-178 | any value `main` prints is 3604, whatever the order and grouping of the callbacks. Once every callback has run, 3604 is always reached: with the correction, for every schedule; as written, when every callback runs in a later sleep than those of all smaller delays |
| AsyncQueue.OnTimeRun | coroutine/step10.cpp:163-209 | the code as written, with the callbacks one per sleep in the order of their delays (the timing of the expected output), prints 3604 |
| AsyncQueue.StuckRun | coroutine/step10.cpp:73-78 | as written, with callbacks 0 and 1 in one sleep and 2 and 3 in a later one, every callback has run and nothing is ready, yet complex_func is not done: `main` polls for ever |
| AsyncQueue.ResumeHeavy | coroutine/step10.cpp:136-138 | a callback completes mock_heavy_func(x) with x and puts exactly its simple_func on the ready list; coherence, no-lost-wakeup and a lost complex_func are preserved, and the work left drops by one |
| AsyncQueue.ResumeSimpleQuiet | coroutine/step10.cpp:143-145 | simple_func completes with its heavy value + 1; when complex_func has not awaited it yet, nothing is woken |
| AsyncQueue.ResumeSimpleWakes | coroutine/step10.cpp:143-145 | simple_func awaited by complex_func completes with value + 1 and puts complex_func on the ready list |
| AsyncQueue.ResumeRootAwaits | coroutine/step10.cpp:155 | complex_func adds the awaited value to its sum and awaits the next simple task. As written, if that task is already done, complex_func is lost |
| AsyncQueue.ResumeRootRouted | coroutine/step10.cpp:155 | with the correction, complex_func awaiting a finished simple task goes straight back on the ready list, and no wakeup is lost |
| AsyncQueue.ResumeRootFinishes | coroutine/step10.cpp:155 | after the fourth value complex_func completes with the whole sum and wakes nobody (it has no caller) |
| AsyncQueue.ResumeReady | coroutine/step10.cpp:173-176 | any handle on the ready list can be resumed. Resuming it keeps the program coherent and decreases the work left, which makes the drain loop terminate. No wakeup is lost with the correction, or as written while complex_func has already reached every simple task whose heavy task ran |
| AsyncQueue.NoRethrow | coroutine/step10.cpp:88-94 | in `main`'s program no task ever stores an exception, so `value()` never rethrows and no resumption reaches `std::terminate` |
| AsyncQueue.PopKeeps | coroutine/step10.cpp:174-175 | the popped handle is suspended on a finished task and no longer on the list; nothing else is lost |
| AsyncQueue.TimelyReach | coroutine/step10.cpp:163-177 | between two sleeps, with nothing ready and no wakeup lost, complex_func has reached the first simple task whose callback has not run |
| AsyncQueue.ComplexSum | coroutine/step10.cpp:166 | (100+1) + (500+1) + (1000+1) + (2000+1) = 3604 |
| AsyncQueue.Quiescent | coroutine/step10.cpp:165-169 | once every callback has run, nothing is ready and no wakeup is lost, complex_func is done and its value is 3604 |
| AsyncQueue.StartCoherent | coroutine/step10.cpp:148-160 | the frames complex_func leaves behind are coherent with no lost wakeup |
| AsyncQueue.DrainTakesSecond | coroutine/step10.cpp:173-176 | with simple_func(100) and simple_func(500) both ready, the back of the list, simple_func(500), runs first and wakes nobody |
| AsyncQueue.DrainTakesFirst | coroutine/step10.cpp:173-176 | then simple_func(100) completes and wakes complex_func |
| AsyncQueue.DrainTakesComplex | coroutine/step10.cpp:73-78 | then complex_func awaits the already finished simple_func(500): it is recorded as its caller, nothing is enqueued, and complex_func is lost |

## Left out

- Memory and lifetime are not modelled for the destructors that call `handle_.destroy()` (coroutine/step10.cpp:64, step9.cpp:102, step8.cpp:39), nor for the moved-from null handle (coroutine/step10.cpp:68). The explicit `destroy()` calls in `main` (coroutine/step4.cpp:58, step7.cpp:60) are kept, as a ghost flag.
- All `std::cout` output is left out; the printed values are the methods' results.
- Worker threads, `sleep_for` durations and the 10 ms poll are not modelled. A callback runs atomically between steps of `main`, at a moment chosen by the schedule.
- AsyncQueue.RunMain: the schedule places callbacks only during the sleeps of `main`, before its `done()` test. It never places one during the eager start (between a worker thread's start at coroutine/step10.cpp:129-135 and the `set_caller` at coroutine/step10.cpp:77), nor between two pops of the drain.
- The unsynchronised `waiting_handles.emplace_back` from a worker thread is a data race and is not modelled. In the code, `callback()` resumes the heavy task on the worker thread, so `final_suspend` pushes from that thread.
- The order in which the four `co_await` operands of `+` are evaluated is unspecified in C++. The model assumes left to right.
- step10 tasks hold `int` only: the template `awaitable<T>` is modelled for T = int, and `value()` returns a copy rather than a reference.
- step10 bodies never throw in `main`'s program. A stored exception is modelled up to `value()`: since `value()` and `await_resume` are `noexcept`, the rethrow ends the program, which `Executor.Resume` reports as terminated. `Coherent` rules out stored exceptions.
- AsyncQueue.Coherent and the AsyncQueue lemmas describe the one program `main` runs (complex_func with delays 100, 500, 1000, 2000). The single-step Executor methods (SetCaller through Resume, and RunNext) are general. `Fire`, `FireBatch`, `Drain` and `Turn` require `Coherent`, that is, this one program, and `Fire`, `FireBatch` and `Turn` also require its worker threads. `LosingTurn` is one fixed scenario.
- AsyncQueue.RunMain returns `None` when the schedule is exhausted and complex_func is not done, rather than looping. This is a hang (the outer loop polling for ever) only when the schedule lists all four callbacks; otherwise the schedule just stopped early.
- SendGenerator.NextLoop: requires a positive send value s such that no yielded value plus s reaches 2^64 (`NoWrap`). With s = 0 and max > 0 the loop never ends, and once `i += step` wraps the counter may start over below max; neither case is covered.
- SendGenerator.IteratorLoop: the same restriction on the value sent, for the same reason.
- LazyGenerator.Generator.Next: requires that a consumed generator is not done, because resuming a finished coroutine is undefined behaviour in C++.
- step8's promise `value_` is a default-constructed `T` before the first yield; the model holds `None` there.
- SendGenerator.Iterator.AtEnd has no contract of its own: `operator==(iterator, sentinel)` is `Done()` by definition (coroutine/step9.cpp:77-80). IteratorLoop states what it means for the loop.
- coroutine/step0.cpp to step3.cpp, step5.cpp and `type-traits/` are not part of this model. They print around suspension points, show language-level promise access, demonstrate undefined behaviour, or are compile-time dispatch.

## Findings

| source | as written | input that shows it | evidently intended | confidence | as-written member | corrected member |
|---|---|---|---|---|---|---|
| coroutine/step10.cpp:73-78 | `await_ready` is always false and `await_suspend` only records the caller, so a task that awaits a task that has already finished is never put back on `waiting_handles` | the callbacks of mock_heavy_func(100) and mock_heavy_func(500) both run during the same `sleep_for(10ms)` (e.g. main is descheduled for half a second); those of 1000 and 2000 come later. The drain runs simple_func(500), then simple_func(100), which wakes complex_func; complex_func adds 101 and awaits the finished simple_func(500), and `main` polls for ever | 3604 for every interleaving of the callbacks: an await on a finished task still goes through the ready list | not executed | AsyncQueue.StuckRun | AsyncQueue.RunMain |
