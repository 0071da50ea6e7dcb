/** First-order descent iterators (`gd`, `agd`) and the bounded driver `loop`
    of descent/algorithms.py. Parameters are finite vectors of reals; the
    gradient `df` is any function that returns, for a parameter vector, a
    vector of the same length. */
module Algorithms {
  import opened Common

  /** On parameter vectors of length `n`, the only ones the generators ever
      pass it, the gradient returns a vector of that same length. */
  ghost predicate ShapePreserving(df: seq<real> -> seq<real>, n: nat)
  {
    forall v: seq<real> :: |v| == n ==> |df(v)| == n
  }

  /** A generator function together with its keyword arguments, i.e. what
      `loop` receives as `algorithm` and calls as `algorithm(grad, x0)`. The
      defaults are those of the source. */
  datatype Algorithm =
    | Gd(eta: real := 0.1)
    | Agd(eta: real := 0.1, gamma: real := 0.1)

  /** The value of `agd`'s local `vk`: the Python scalar `0` before the first
      step, an array afterwards. */
  datatype Velocity = Scalar(c: real) | Vector(v: seq<real>)

  predicate Fits(vk: Velocity, n: nat)
  {
    vk.Vector? ==> |vk.v| == n
  }

  /** Component `i` of `vk` once numpy has broadcast it to the iterate's shape. */
  function Component(vk: Velocity, i: nat): real
    requires vk.Vector? ==> i < |vk.v|
  {
    match vk
    case Scalar(c) => c
    case Vector(v) => v[i]
  }

  /** One gradient step `x - eta * df(x)`. */
  function GdStep(eta: real, df: seq<real> -> seq<real>, x: seq<real>): (y: seq<real>)
    requires |df(x)| == |x|
  {
    seq(|x|, i requires 0 <= i < |x| => x[i] - eta * df(x)[i])
  }

  /** `(1 - gamma) * vnext + gamma * vk`, elementwise after broadcasting. */
  function Blend(gamma: real, vnext: seq<real>, vk: Velocity): seq<real>
    requires Fits(vk, |vnext|)
  {
    seq(|vnext|, i requires 0 <= i < |vnext| => (1.0 - gamma) * vnext[i] + gamma * Component(vk, i))
  }

  /** The gradient step applied `k` times to `x0`. */
  function GdIterate(eta: real, df: seq<real> -> seq<real>, x0: seq<real>, k: nat): (x: seq<real>)
    requires ShapePreserving(df, |x0|)
    ensures |x| == |x0|
  {
    if k == 0 then x0 else GdStep(eta, df, GdIterate(eta, df, x0, k - 1))
  }

  /** The locals `(xk, vk)` of an `agd` generator. */
  datatype AgdFrame = AgdFrame(x: seq<real>, v: Velocity)

  /** The locals of `agd` after `k` passes of its loop body. */
  function AgdRun(eta: real, gamma: real, df: seq<real> -> seq<real>, x0: seq<real>, k: nat): (fr: AgdFrame)
    requires ShapePreserving(df, |x0|)
    ensures |fr.x| == |x0| && Fits(fr.v, |x0|)
  {
    if k == 0 then AgdFrame(x0, Scalar(0.0))
    else
      var prev := AgdRun(eta, gamma, df, x0, k - 1);
      var vnext := GdStep(eta, df, prev.x);
      AgdFrame(Blend(gamma, vnext, prev.v), Vector(vnext))
  }

  /** The contents of the `k`-th value (1-based) the generator yields; `x0` for `k == 0`. */
  function Iterate(algorithm: Algorithm, df: seq<real> -> seq<real>, x0: seq<real>, k: nat): (x: seq<real>)
    requires ShapePreserving(df, |x0|)
  {
    match algorithm
    case Gd(eta) => GdIterate(eta, df, x0, k)
    case Agd(eta, gamma) => AgdRun(eta, gamma, df, x0, k).x
  }

  /** k-fold stepping composes: `m + n` steps from `x0` are `n` steps from the
      `m`-th iterate, so `gd` can be restarted from any iterate it yields. */
  lemma {:induction false} GdIterateAdditive(eta: real, df: seq<real> -> seq<real>, x0: seq<real>, m: nat, n: nat)
    requires ShapePreserving(df, |x0|)
    ensures GdIterate(eta, df, x0, m + n) == GdIterate(eta, df, GdIterate(eta, df, x0, m), n)
  {
    if n > 0 {
      GdIterateAdditive(eta, df, x0, m, n - 1);
    }
  }

  /** A point where the gradient vanishes is never moved by `gd`. */
  lemma {:induction false} GdStationaryPoint(eta: real, df: seq<real> -> seq<real>, x0: seq<real>, k: nat)
    requires ShapePreserving(df, |x0|)
    requires forall i :: 0 <= i < |x0| ==> df(x0)[i] == 0.0
    ensures GdIterate(eta, df, x0, k) == x0
  {
    if k > 0 {
      GdStationaryPoint(eta, df, x0, k - 1);
      assert GdStep(eta, df, x0) == x0;
    }
  }

  /** The first value `agd` yields is `(1 - gamma) * (x0 - eta * df(x0))`: the
      initial velocity 0 contributes nothing. */
  lemma AgdFirstYield(eta: real, gamma: real, df: seq<real> -> seq<real>, x0: seq<real>)
    requires ShapePreserving(df, |x0|)
    ensures var y := AgdRun(eta, gamma, df, x0, 1).x;
      |y| == |x0| &&
      forall i :: 0 <= i < |x0| ==> y[i] == (1.0 - gamma) * (x0[i] - eta * df(x0)[i])
  {
  }

  /** Unlike `gd`, `agd` with `gamma != 0` moves a nonzero stationary starting
      point on its first step, because its velocity starts at 0 rather than at `x0`. */
  lemma AgdMovesStationaryStart(eta: real, gamma: real, df: seq<real> -> seq<real>, x0: seq<real>, i: nat)
    requires ShapePreserving(df, |x0|)
    requires forall j :: 0 <= j < |x0| ==> df(x0)[j] == 0.0
    requires gamma != 0.0 && i < |x0| && x0[i] != 0.0
    ensures AgdRun(eta, gamma, df, x0, 1).x[i] != x0[i]
  {
    var first := AgdRun(eta, gamma, df, x0, 0);
    assert first == AgdFrame(x0, Scalar(0.0));
    var vnext := GdStep(eta, df, x0);
    assert vnext[i] == x0[i];
    var y := AgdRun(eta, gamma, df, x0, 1).x;
    assert y == Blend(gamma, vnext, Scalar(0.0));
    assert y[i] == (1.0 - gamma) * x0[i];
    assert y[i] - x0[i] == -(gamma * x0[i]);
    assert gamma * x0[i] != 0.0;
  }

  /** With `gamma = 0`, `agd` computes exactly the iterates of `gd` with the same `eta`. */
  lemma {:induction false} AgdWithoutMomentumIsGd(eta: real, df: seq<real> -> seq<real>, x0: seq<real>, k: nat)
    requires ShapePreserving(df, |x0|)
    ensures Iterate(Agd(eta, 0.0), df, x0, k) == Iterate(Gd(eta), df, x0, k)
  {
    if k > 0 {
      AgdWithoutMomentumIsGd(eta, df, x0, k - 1);
      var prev := AgdRun(eta, 0.0, df, x0, k - 1);
      var vnext := GdStep(eta, df, prev.x);
      assert Blend(0.0, vnext, prev.v) == vnext;
    }
  }

  /** With `gamma = 0`, `agd`'s velocity after step `k >= 1` is the `k`-th
      iterate of `gd`, so `vk` always equals the value just yielded. */
  lemma {:induction false} AgdVelocityWithoutMomentum(eta: real, df: seq<real> -> seq<real>, x0: seq<real>, k: nat)
    requires ShapePreserving(df, |x0|) && k >= 1
    ensures AgdRun(eta, 0.0, df, x0, k).v == Vector(GdIterate(eta, df, x0, k))
    ensures AgdRun(eta, 0.0, df, x0, k).v == Vector(AgdRun(eta, 0.0, df, x0, k).x)
  {
    AgdWithoutMomentumIsGd(eta, df, x0, k - 1);
    AgdWithoutMomentumIsGd(eta, df, x0, k);
  }

  /** A running generator object of `gd` or `agd`: which body runs
      (`algorithm`), the gradient it was given, and its locals `xk` and `vk`.
      `gd` never reads or writes `vk`. `start` and `count` are bookkeeping:
      the contents of `x0` when the generator was made, and how many values
      it has yielded. */
  class Generator {
    const algorithm: Algorithm
    const df: seq<real> -> seq<real>
    var xk: array<real>
    var vk: Velocity
    ghost var start: seq<real>
    ghost var count: nat

    ghost predicate Valid()
      reads this
    {
      ShapePreserving(df, xk.Length) && Fits(vk, xk.Length)
    }

    /** Nothing outside the generator has written into the array it holds
        since it started: `xk` holds the `count`-th iterate from `start`. */
    ghost predicate OnSchedule()
      reads this, xk
    {
      && Valid()
      && |start| == xk.Length
      && xk[..] == Iterate(algorithm, df, start, count)
      && (algorithm.Agd? ==> vk == AgdRun(algorithm.eta, algorithm.gamma, df, start, count).v)
    }

    /** `algorithm(grad, x0)`: the body does not run yet; `xk` is bound to
        the caller's array itself and `vk` to 0. */
    constructor (algorithm: Algorithm, df: seq<real> -> seq<real>, x0: array<real>)
      requires ShapePreserving(df, x0.Length)
      ensures this.algorithm == algorithm && this.df == df
      ensures xk == x0 && vk == Scalar(0.0)
      ensures start == x0[..] && count == 0
      ensures OnSchedule()
    {
      this.algorithm := algorithm;
      this.df := df;
      xk := x0;
      vk := Scalar(0.0);
      start := x0[..];
      count := 0;
    }

    /** `next(opt)`: one pass of the generator's loop body, up to its `yield`. */
    method Next() returns (y: array<real>)
      requires Valid()
      modifies this, xk
      ensures Valid() && y == xk && start == old(start) && count == old(count) + 1
      ensures algorithm.Gd? ==>
        && xk == old(xk)
        && xk[..] == GdStep(algorithm.eta, df, old(xk[..]))
        && vk == old(vk)
      ensures algorithm.Agd? ==>
        var vnext := GdStep(algorithm.eta, df, old(xk[..]));
        && fresh(xk)
        && old(xk)[..] == old(xk[..])
        && vk == Vector(vnext)
        && xk[..] == Blend(algorithm.gamma, vnext, old(vk))
      ensures old(OnSchedule()) ==> OnSchedule()
    {
      if algorithm.Gd? {
        StepGd();
      } else {
        StepAgd();
      }
      count := count + 1;
      y := xk;
    }

    /** `gd`'s body: `xk -= eta * df(xk)` overwrites the array in place, so
        the caller's `x0` holds the newest iterate and every yield is that
        same array. */
    method StepGd()
      requires Valid() && algorithm.Gd?
      modifies xk
      ensures xk[..] == GdStep(algorithm.eta, df, old(xk[..]))
    {
      var g := df(xk[..]);
      ghost var before := xk[..];
      var i := 0;
      while i < xk.Length
        invariant 0 <= i <= xk.Length
        invariant forall j :: 0 <= j < i ==> xk[j] == before[j] - algorithm.eta * g[j]
        invariant forall j :: i <= j < xk.Length ==> xk[j] == before[j]
      {
        xk[i] := xk[i] - algorithm.eta * g[i];
        i := i + 1;
      }
      assert |g| == |before|;
      assert forall j :: 0 <= j < |before| ==> xk[..][j] == GdStep(algorithm.eta, df, before)[j];
    }

    /** `agd`'s body: `vnext = xk - eta * df(xk)`, then `xk` is rebound to the
        new array `(1 - gamma) * vnext + gamma * vk` and `vk` to `vnext`; the
        array the caller holds is not written. */
    method StepAgd()
      requires Valid() && algorithm.Agd?
      modifies this
      ensures Valid()
      ensures var vnext := GdStep(algorithm.eta, df, old(xk[..]));
        && fresh(xk)
        && vk == Vector(vnext)
        && xk[..] == Blend(algorithm.gamma, vnext, old(vk))
      ensures start == old(start) && count == old(count)
    {
      var vnext := GdStep(algorithm.eta, df, xk[..]);
      var blended := Blend(algorithm.gamma, vnext, vk);
      xk := new real[|blended|](i requires 0 <= i < |blended| => blended[i]);
      vk := Vector(vnext);
    }
  }

  /** The record `loop` hands its callbacks: `{'f': ..., 'grad': ..., 'iter': k}`. */
  datatype Record = Record(f: real, grad: seq<real>, iter: nat)

  /** The record built for iterate `x` of iteration `k`. */
  function RecordOf(f_df: Objective, x: seq<real>, k: nat): Record
  {
    Record(f_df.obj(x), f_df.grad(x), k)
  }

  /** The records of the first `n` iterations of `loop`. */
  function Records(algorithm: Algorithm, f_df: Objective, x0: seq<real>, n: nat): seq<Record>
    requires ShapePreserving(f_df.grad, |x0|)
  {
    if n == 0 then []
    else
      var x := Iterate(algorithm, f_df.grad, x0, n);
      Records(algorithm, f_df, x0, n - 1) + [RecordOf(f_df, x, n - 1)]
  }

  /** The `k`-th record (0-based) is taken at the `(k+1)`-th iterate and carries `iter == k`. */
  lemma {:induction false} RecordsAt(algorithm: Algorithm, f_df: Objective, x0: seq<real>, n: nat, k: nat)
    requires ShapePreserving(f_df.grad, |x0|) && k < n
    ensures |Records(algorithm, f_df, x0, n)| == n
    ensures var x := Iterate(algorithm, f_df.grad, x0, k + 1);
      Records(algorithm, f_df, x0, n)[k] == Record(f_df.obj(x), f_df.grad(x), k)
  {
    if k < n - 1 {
      RecordsAt(algorithm, f_df, x0, n - 1, k);
    } else if n > 1 {
      RecordsAt(algorithm, f_df, x0, n - 1, 0);
    }
  }

  /** With `gamma = 0`, `loop` over `agd` hands its callbacks the same records as over `gd`. */
  lemma {:induction false} RecordsWithoutMomentum(eta: real, f_df: Objective, x0: seq<real>, n: nat)
    requires ShapePreserving(f_df.grad, |x0|)
    ensures Records(Agd(eta, 0.0), f_df, x0, n) == Records(Gd(eta), f_df, x0, n)
  {
    if n > 0 {
      RecordsWithoutMomentum(eta, f_df, x0, n - 1);
      AgdWithoutMomentumIsGd(eta, f_df.grad, x0, n);
    }
  }

  /** The `for k in range(n)` loop of `loop`: `n` calls of `next(opt)`, each
      followed by the record of the new iterate handed to every callback.
      `last` is `None` while the loop variable `xk` is still unbound. */
  method Advance<C>(opt: Generator, f_df: Objective, callbacks: seq<C>, n: int)
    returns (last: Option<array<real>>, trace: seq<Call<C, Record>>)
    requires opt.OnSchedule() && opt.count == 0 && opt.df == f_df.grad
    modifies opt, opt.xk
    ensures opt.OnSchedule() && opt.start == old(opt.start)
    ensures opt.count == (if n <= 0 then 0 else n)
    ensures last == (if n <= 0 then None else Some(opt.xk))
    ensures opt.algorithm.Gd? ==> opt.xk == old(opt.xk)
    ensures opt.algorithm.Agd? ==> old(opt.xk)[..] == old(opt.xk[..]) && (n > 0 ==> fresh(opt.xk))
    ensures trace == Fanout(callbacks, Records(opt.algorithm, f_df, opt.start, opt.count))
  {
    ghost var records: seq<Record> := [];
    ghost var first, start, algorithm := opt.xk, opt.start, opt.algorithm;
    last := None;
    trace := [];
    var k := 0;
    while k < n
      invariant 0 <= k && (n > 0 ==> k <= n) && (n <= 0 ==> k == 0)
      invariant opt.start == start && opt.count == k && opt.OnSchedule()
      invariant last == (if k == 0 then None else Some(opt.xk))
      invariant k == 0 || opt.algorithm.Gd? ==> opt.xk == first
      invariant opt.algorithm.Agd? ==> first[..] == old(first[..]) && (k > 0 ==> fresh(opt.xk))
      invariant records == Records(algorithm, f_df, start, k)
      invariant trace == Fanout(callbacks, records)
    {
      var xk := opt.Next();
      var data := RecordOf(f_df, xk[..], k);
      FanoutSnoc(callbacks, records, data);
      trace := trace + Broadcast(callbacks, data);
      records := records + [data];
      last := Some(xk);
      k := k + 1;
    }
  }

  /** `loop(algorithm, f_df, x0, callbacks, maxiter)`: advances a fresh
      generator exactly `int(maxiter)` times, hands every callback each
      record in order, and returns the last iterate; with no iteration the
      final `return xk` reads an unbound local. */
  method Loop<C>(algorithm: Algorithm, f_df: Objective, x0: array<real>,
                 callbacks: seq<C> := [], maxiter: real := 10000.0)
    returns (result: Result<array<real>, Error>, trace: seq<Call<C, Record>>, ghost steps: nat)
    requires ShapePreserving(f_df.grad, x0.Length)
    modifies x0
    ensures var n := Truncate(maxiter);
      && steps == (if n <= 0 then 0 else n)
      && (n <= 0 ==> result == Failure(UnboundLocalError("xk")) && x0[..] == old(x0[..]))
      && (n > 0 ==> result.Success? && result.value[..] == Iterate(algorithm, f_df.grad, old(x0[..]), n))
      && (n > 0 && algorithm.Gd? ==> result.value == x0)
      && (n > 0 && algorithm.Agd? ==> fresh(result.value))
    ensures algorithm.Agd? ==> x0[..] == old(x0[..])
    ensures trace == Fanout(callbacks, Records(algorithm, f_df, old(x0[..]), steps))
  {
    var obj, grad := f_df.obj, f_df.grad;
    var opt := new Generator(algorithm, grad, x0);
    var n := Truncate(maxiter);
    var last;
    last, trace := Advance(opt, Objective(obj, grad), callbacks, n);
    steps := opt.count;
    if last.Some? {
      result := Success(last.value);
    } else {
      result := Failure(UnboundLocalError("xk"));
    }
  }

  /** Any other function that `loop` may be given as `algorithm`, called as
      `algorithm(grad, x0)`: `next(grad, x0, k)` is the value the `(k+1)`-th
      call of `next` yields, or `None` when that call raises `StopIteration`. */
  datatype GeneratorFunction = GeneratorFunction(
    next: (seq<real> -> seq<real>, seq<real>, nat) -> Option<seq<real>>)

  /** The values the first `n` calls of `next` yield, up to the first
      `StopIteration`. */
  function Yields(gen: GeneratorFunction, df: seq<real> -> seq<real>, x0: seq<real>, n: nat): (ys: seq<seq<real>>)
    ensures |ys| <= n
  {
    if n == 0 then []
    else
      var ys := Yields(gen, df, x0, n - 1);
      if |ys| < n - 1 then ys
      else match gen.next(df, x0, n - 1)
        case None => ys
        case Some(y) => ys + [y]
  }

  /** `Yields` is the longest run of values before the first `StopIteration`:
      the `k`-th of them is the `(k+1)`-th call's value, and when fewer than
      `n` were yielded the next call raised. */
  lemma {:induction false} YieldsAt(gen: GeneratorFunction, df: seq<real> -> seq<real>, x0: seq<real>, n: nat)
    ensures var ys := Yields(gen, df, x0, n);
      && (forall k :: 0 <= k < |ys| ==> gen.next(df, x0, k) == Some(ys[k]))
      && (|ys| < n ==> gen.next(df, x0, |ys|) == None)
  {
    if n > 0 {
      YieldsAt(gen, df, x0, n - 1);
      var ys := Yields(gen, df, x0, n - 1);
      if |ys| == n - 1 && gen.next(df, x0, n - 1).Some? {
        assert Yields(gen, df, x0, n) == ys + [gen.next(df, x0, n - 1).value];
      }
    }
  }

  lemma YieldsSnoc(gen: GeneratorFunction, df: seq<real> -> seq<real>, x0: seq<real>, n: nat, y: seq<real>)
    requires n > 0 && |Yields(gen, df, x0, n - 1)| == n - 1 && gen.next(df, x0, n - 1) == Some(y)
    ensures Yields(gen, df, x0, n) == Yields(gen, df, x0, n - 1) + [y]
  {
  }

  /** Once a generator has raised `StopIteration`, further calls yield nothing more. */
  lemma {:induction false} YieldsStopped(gen: GeneratorFunction, df: seq<real> -> seq<real>, x0: seq<real>, k: nat, m: nat)
    requires k <= m && |Yields(gen, df, x0, k)| < k
    ensures Yields(gen, df, x0, m) == Yields(gen, df, x0, k)
  {
    if k < m {
      YieldsStopped(gen, df, x0, k, m - 1);
    }
  }

  /** The records `loop` builds for the values `ys`, in order. */
  function Stamp(f_df: Objective, ys: seq<seq<real>>): seq<Record>
  {
    seq(|ys|, k requires 0 <= k < |ys| => RecordOf(f_df, ys[k], k))
  }

  lemma StampSnoc(f_df: Objective, ys: seq<seq<real>>, y: seq<real>)
    ensures Stamp(f_df, ys + [y]) == Stamp(f_df, ys) + [RecordOf(f_df, y, |ys|)]
  {
    assert forall k :: 0 <= k < |ys| ==> (ys + [y])[k] == ys[k];
  }

  /** A generator function whose calls of `next` yield the `gd` or `agd`
      recurrence never stops, and `loop` over it builds exactly the records
      of `Records`, ending at the `n`-th iterate: `LoopOver` agrees with `Loop`. */
  lemma {:induction false} BuiltinYields(algorithm: Algorithm, f_df: Objective, x0: seq<real>, gen: GeneratorFunction, n: nat)
    requires ShapePreserving(f_df.grad, |x0|)
    requires forall k: nat :: gen.next(f_df.grad, x0, k) == Some(Iterate(algorithm, f_df.grad, x0, k + 1))
    ensures |Yields(gen, f_df.grad, x0, n)| == n
    ensures n > 0 ==> Yields(gen, f_df.grad, x0, n)[n - 1] == Iterate(algorithm, f_df.grad, x0, n)
    ensures Stamp(f_df, Yields(gen, f_df.grad, x0, n)) == Records(algorithm, f_df, x0, n)
  {
    if n > 0 {
      BuiltinYields(algorithm, f_df, x0, gen, n - 1);
      var ys := Yields(gen, f_df.grad, x0, n - 1);
      var x := Iterate(algorithm, f_df.grad, x0, n);
      YieldsSnoc(gen, f_df.grad, x0, n, x);
      StampSnoc(f_df, ys, x);
    }
  }

  /** `loop(algorithm, f_df, x0, callbacks, maxiter)` over any generator
      function, its values taken as values: `next` is called up to
      `int(maxiter)` times, each value's record is handed to every callback;
      a `StopIteration` before the last call escapes from `loop` after the
      callbacks of the earlier values have run. */
  method LoopOver<C>(algorithm: GeneratorFunction, f_df: Objective, x0: seq<real>,
                     callbacks: seq<C> := [], maxiter: real := 10000.0)
    returns (result: Result<seq<real>, Error>, trace: seq<Call<C, Record>>)
    ensures var n := Truncate(maxiter);
      var ys := Yields(algorithm, f_df.grad, x0, if n <= 0 then 0 else n);
      && trace == Fanout(callbacks, Stamp(f_df, ys))
      && result == (if n > 0 && |ys| < n then Failure(StopIteration)
                    else if ys == [] then Failure(UnboundLocalError("xk"))
                    else Success(ys[|ys| - 1]))
  {
    var obj, grad := f_df.obj, f_df.grad;
    var n := Truncate(maxiter);
    var last: Option<seq<real>> := None;
    trace := [];
    ghost var ys: seq<seq<real>> := [];
    ghost var records: seq<Record> := [];
    var k := 0;
    while k < n
      invariant 0 <= k && (n > 0 ==> k <= n) && (n <= 0 ==> k == 0)
      invariant ys == Yields(algorithm, grad, x0, k) && |ys| == k
      invariant last == (if k == 0 then None else Some(ys[k - 1]))
      invariant records == Stamp(f_df, ys)
      invariant trace == Fanout(callbacks, records)
    {
      var y := algorithm.next(grad, x0, k);
      if y.None? {
        YieldsStopped(algorithm, grad, x0, k + 1, n);
        return Failure(StopIteration), trace;
      }
      var xk := y.value;
      var data := RecordOf(f_df, xk, k);
      YieldsSnoc(algorithm, grad, x0, k + 1, xk);
      StampSnoc(f_df, ys, xk);
      FanoutSnoc(callbacks, records, data);
      trace := trace + Broadcast(callbacks, data);
      records := records + [data];
      ys := ys + [xk];
      last := Some(xk);
      k := k + 1;
    }
    if last.Some? {
      result := Success(last.value);
    } else {
      result := Failure(UnboundLocalError("xk"));
    }
  }
}
