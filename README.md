# descent: first-order descent iterators and their drivers, in Dafny

This project models the iteration machinery of the Python package `descent`:

- the two descent generators of `descent/algorithms.py`: `gd` (plain gradient
  descent, `xk -= eta * df(xk)`) and `agd` (accelerated descent with a velocity
  `vk`);
- the bounded driver `loop`, which advances a generator `int(maxiter)` times,
  hands each callback a metadata record per iteration and returns the last
  iterate; it is modelled twice: over `gd` and `agd` with their arrays
  updated in place (`Loop`), and over any generator function, its values
  taken as values, including one that raises `StopIteration` early
  (`LoopOver`);
- the entry point `optimize` of `descent/main.py`, which checks the
  algorithm's name against a whitelist chosen by whether `minibatches` is
  empty, drives the algorithm's generator until it is exhausted, calls every
  callback once per iterate and returns the last iterate.

Parameters are finite vectors of reals (`seq<real>`, or `array<real>` where
the source works on a numpy array in place). The gradient and the objective
are arbitrary functions passed in. The model requires that, on parameter
vectors of the iterate's length, the gradient returns a vector of that same
length (`ShapePreserving`). numpy is more lenient: a gradient of another
shape either raises or is broadcast (a scalar or a length-1 gradient is
broadcast against the iterate), and the model does not cover those cases.

Files:

- `common.dfy` (module `Common`): outcomes, the Python errors that can escape
  the code (`AssertionError`, `UnboundLocalError`, `StopIteration`), the pair `(obj, grad)`
  returned by `wrap(f_df)`, callback calls (`Broadcast`, `Fanout`), Python's
  `int()` on numbers (`Truncate`) and `", ".join` (`Join`).
- `algorithms.dfy` (module `Algorithms`): the reference recurrences
  (`GdStep`, `GdIterate`, `AgdRun`, `Iterate`) with lemmas about them; the
  class `Generator`, a running `gd` or `agd` generator object whose `Next`
  is one pass of the generator's loop body; `Loop`; and `LoopOver` with the
  generator functions it accepts (`GeneratorFunction`, `Yields`).
- `main_routines.dfy` (module `MainRoutines`): the whitelist check and
  `Optimize`.

A Python generator object is modelled as one class, `Generator`: its
`algorithm` field says which body runs (`Gd` or `Agd`, with the keyword
arguments bound by `curry`), and its fields `xk` and `vk` are the body's
locals. `gd` overwrites the caller's array in place, so after `n` steps the
caller's `x0` holds the `n`-th iterate and every value yielded is that same
array (`Next` ensures `xk == old(xk)`). `agd` rebinds `xk` to a fresh array
each step and never writes the caller's array (`Next` ensures `fresh(xk)`).
`agd`'s `vk` starts as the Python scalar `0`, broadcast against the iterate
(`Velocity.Scalar`), and becomes an array after the first step.
`Generator.OnSchedule` says that no one else has written into the array the
generator holds; while it holds, `xk` is the `count`-th iterate of the
reference recurrence, and `Next` preserves it.

## Model

| member | source | states |
|---|---|---|
| `Common.Broadcast` | descent/algorithms.py:67-76 | every callback of the list is called once, in list order, with the same record (callbacks are `do`-wrapped and pass it on unchanged) |
| `Common.FanoutAt` | descent/main.py:57-63 | over a run, the calls number (records × callbacks); call `k·|callbacks| + j` is callback `j` on record `k`, so records go out in order and each record reaches all callbacks in list order |
| `Common.Truncate` | descent/algorithms.py:69 | `int(maxiter)` truncates toward zero: for `x ≥ 0` it is the largest integer not above `x`, for `x < 0` the smallest not below it |
| `Algorithms.GdIterateAdditive` | descent/algorithms.py:14-16 | `m + n` gradient steps from `x0` equal `n` steps from the `m`-th iterate |
| `Algorithms.GdStationaryPoint` | descent/algorithms.py:14-16 | if the gradient vanishes at `x0`, every iterate of `gd` equals `x0` |
| `Algorithms.AgdFirstYield` | descent/algorithms.py:23-28 | the first value `agd` yields is `(1−gamma)·(x0 − eta·df(x0))` componentwise |
| `Algorithms.AgdMovesStationaryStart` | descent/algorithms.py:24-28 | with `gamma ≠ 0`, a start where the gradient vanishes is moved on the first step in every nonzero component (unlike `gd`), because `vk` starts at 0 |
| `Algorithms.AgdWithoutMomentumIsGd` | descent/algorithms.py:13-31 | with `gamma = 0`, `agd` yields at every step exactly the values of `gd` with the same `eta` |
| `Algorithms.AgdVelocityWithoutMomentum` | descent/algorithms.py:23-29 | with `gamma = 0`, after step `k ≥ 1` the velocity `vk` is the `k`-th iterate of `gd`, and so equals the value `agd` has just yielded |
| `Algorithms.Generator.constructor` | descent/algorithms.py:66 | creating the generator runs nothing: `xk` is the caller's array itself, `vk` is 0, no value yielded yet |
| `Algorithms.Generator.Next` | descent/algorithms.py:72 | one pass of the body: for `gd` the same array now holds `x − eta·df(x)`; for `agd` a fresh array holds `(1−gamma)·vnext + gamma·vk`, `vk` becomes `vnext` and the previous array is untouched; the count of yields goes up by one and the iterate stays the `count`-th of the recurrence |
| `Algorithms.Generator.StepGd` | descent/algorithms.py:13-16 | `xk -= eta * df(xk)` overwrites the array in place with `x − eta·df(x)`, the gradient taken before any element is written |
| `Algorithms.Generator.StepAgd` | descent/algorithms.py:25-31 | `vnext = xk − eta·df(xk)`; `xk` is rebound to a fresh array `(1−gamma)·vnext + gamma·vk`; `vk` is rebound to `vnext` |
| `Algorithms.RecordsAt` | descent/algorithms.py:69-75 | the `k`-th record of `loop` (0-based) is `{f: obj(x), grad: grad(x), iter: k}` at the `(k+1)`-th iterate |
| `Algorithms.RecordsWithoutMomentum` | descent/algorithms.py:69-76 | with `gamma = 0`, `loop` over `agd` hands the callbacks exactly the records it hands them over `gd` |
| `Algorithms.Advance` | descent/algorithms.py:69-76 | the `for` loop calls `next` exactly `max(n, 0)` times, leaves `xk` unbound when `n ≤ 0` and otherwise bound to the last value yielded, and makes exactly the callback calls of the records in order |
| `Algorithms.Loop` | descent/algorithms.py:34-78 | exactly `int(maxiter)` steps; returns the `int(maxiter)`-th iterate of the recurrence, fails with `UnboundLocalError` when `int(maxiter) ≤ 0` (and then leaves `x0` untouched); with `gd` the result is the caller's `x0` array itself, with `agd` a fresh array and `x0` is never written; the callback trace is the records `iter = 0 … int(maxiter)−1` handed to each callback in order |
| `Algorithms.YieldsAt` | descent/algorithms.py:69-72 | the values `loop` receives are the longest run before the first `StopIteration`: the `k`-th is the value of the `(k+1)`-th `next` call, and when fewer than `n` arrive the next call raised |
| `Algorithms.YieldsStopped` | descent/algorithms.py:72 | once a generator has stopped, further calls of `next` add no value |
| `Algorithms.BuiltinYields` | descent/algorithms.py:13-75 | a generator function yielding the `gd` or `agd` recurrence never stops, and `loop` over it gets `n` values, ending at the `n`-th iterate, with exactly the records of `Loop` |
| `Algorithms.LoopOver` | descent/algorithms.py:34-78 | over any generator function: at most `int(maxiter)` calls of `next`; the callback trace is the record of each value received, handed to every callback in order; the result is `StopIteration` when the generator stops before `int(maxiter)` values (after the earlier callbacks ran), `UnboundLocalError` when `int(maxiter) ≤ 0`, and otherwise the last value |
| `MainRoutines.AcceptedNames` | descent/main.py:42-51 | with minibatches exactly `sag`, `adam`, `adagrad` pass, without exactly `gdm`, `rmsprop` |
| `MainRoutines.RejectionMessages` | descent/main.py:44-51 | a rejected name raises `AssertionError` with the message `Minibatch algorithm must be one of: sag, adam, adagrad` or `Full batch algorithm must be one of: gdm, rmsprop` |
| `MainRoutines.NoNameServesBothModes` | descent/main.py:43-51 | no algorithm name passes both with and without minibatches |
| `MainRoutines.TrailAt` | descent/main.py:60-63 | one record per iterate; the `k`-th is `{obj: obj(xk), grad: grad(xk), params: xk, iter: k}` for the `k`-th iterate (0-based) |
| `MainRoutines.Optimize` | descent/main.py:9-66 | a rejected name fails with its `AssertionError` and no callback is called; otherwise the generator `algorithm(grad, x0, maxiter)` sets the number of iterations, the callback trace is each iterate's record handed to every callback in order, and the result is the last iterate, or `UnboundLocalError` when nothing was yielded |

## Left out

- `utils.wrap` is not part of this model: `Objective` takes the `(obj, grad)` pair it returns as given.
- The `toolz` machinery (`curry`, `do`, `pipe`, `juxt`, `map`) is modelled by what it does here: `curry` binding keyword arguments is the `Algorithm` value, and `do`/`pipe`/`juxt` are `Broadcast`.
- Callback side effects (logging, plotting) are not modelled; a callback call is an entry appended to a trace.
- Python 2's `func_name` attribute: an algorithm's identity is a plain name string.
- Assertions stripped by `python -O`: the model assumes assertions are enabled.
- Floating point: values are reals, so rounding, `NaN` and infinities are not modelled (nor the `OverflowError` of `int(inf)`); nothing is claimed about convergence.
- numpy broadcasting beyond the scalar `vk = 0`: a gradient must return a vector of its argument's length (`ShapePreserving`), where numpy would raise or broadcast.
- Algorithms.Loop: covers only the generators of `gd` and `agd`, whose arrays it follows in place; `loop` over any other generator function, including one that raises `StopIteration` at `next(opt)` before `int(maxiter)` steps, is `Algorithms.LoopOver`, which treats the yielded values as values, so it does not capture a generator that later overwrites an array it already yielded.
- `gd` on a plain Python number: `-=` would then rebind instead of writing in place; the model covers array parameters only.
- The algorithms `optimize` accepts (`sag`, `adam`, `adagrad`, `gdm`, `rmsprop`) are not in the modelled files: `ExternalAlgorithm.run` gives the finite list of values such a generator yields. A generator that never stops, on which `optimize` would never return, is not modelled.
- MainRoutines.Optimize: iterates are values, so a record's `params` cannot alias an array the external generator later overwrites in place (as `gd` would); the generator is also run to completion before the callbacks, which is equivalent here because callbacks only append to the trace.
- `minibatches` is only tested for emptiness; `optimize` never passes it on, and its contents are not modelled.
- descent/__init__.py only re-exports names, and `metadata`, `objectives`, `proxops` and `utils` are not part of this model.
