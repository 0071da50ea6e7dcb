/** The entry point `optimize` of descent/main.py: it checks the algorithm's
    name against a whitelist, then drives the algorithm's generator to
    exhaustion, handing every callback one metadata record per iterate. */
module MainRoutines {
  import opened Common

  /** Names accepted when `minibatches` is non-empty. */
  const MinibatchAlgorithms: seq<string> := ["sag", "adam", "adagrad"]

  /** Names accepted when `minibatches` is empty. */
  const FullBatchAlgorithms: seq<string> := ["gdm", "rmsprop"]

  /** An algorithm defined outside this model, known by its name and by the
      finite list of values its generator yields when called as
      `algorithm(grad, x0, maxiter)`. */
  datatype ExternalAlgorithm = ExternalAlgorithm(
    name: string,
    run: (seq<real> -> seq<real>, seq<real>, real) -> seq<seq<real>>)

  /** The record `optimize` hands its callbacks:
      `{'obj': ..., 'grad': ..., 'params': xk, 'iter': k}`. */
  datatype Metadata = Metadata(obj: real, grad: seq<real>, params: seq<real>, iter: nat)

  function Whitelist(minibatch: bool): seq<string>
  {
    if minibatch then MinibatchAlgorithms else FullBatchAlgorithms
  }

  /** The assertion at the top of `optimize`: `None` when the name passes,
      otherwise the `AssertionError` it raises. */
  function CheckAlgorithm(name: string, minibatch: bool): Option<Error>
  {
    var valid := Whitelist(minibatch);
    if name in valid then None
    else if minibatch then Some(AssertionError("Minibatch algorithm must be one of: " + Join(", ", valid)))
    else Some(AssertionError("Full batch algorithm must be one of: " + Join(", ", valid)))
  }

  /** Exactly `sag`, `adam` and `adagrad` pass with minibatches, exactly
      `gdm` and `rmsprop` without. */
  lemma AcceptedNames(name: string)
    ensures CheckAlgorithm(name, true).None? <==> name == "sag" || name == "adam" || name == "adagrad"
    ensures CheckAlgorithm(name, false).None? <==> name == "gdm" || name == "rmsprop"
  {
  }

  /** A rejected name raises an `AssertionError` whose message lists the
      whitelist that applies. */
  lemma RejectionMessages(name: string)
    ensures CheckAlgorithm(name, true).Some? ==>
      CheckAlgorithm(name, true).value == AssertionError("Minibatch algorithm must be one of: " + "sag, adam, adagrad")
    ensures CheckAlgorithm(name, false).Some? ==>
      CheckAlgorithm(name, false).value == AssertionError("Full batch algorithm must be one of: " + "gdm, rmsprop")
  {
    WhitelistMessages();
  }

  lemma WhitelistMessages()
    ensures Join(", ", MinibatchAlgorithms) == "sag, adam, adagrad"
    ensures Join(", ", FullBatchAlgorithms) == "gdm, rmsprop"
  {
    assert Join(", ", ["adagrad"]) == "adagrad";
    assert Join(", ", ["adam", "adagrad"]) == "adam" + ", " + "adagrad";
    assert Join(", ", ["rmsprop"]) == "rmsprop";
  }

  /** No name is accepted both with and without minibatches. */
  lemma NoNameServesBothModes(name: string)
    ensures CheckAlgorithm(name, true).Some? || CheckAlgorithm(name, false).Some?
  {
    AcceptedNames(name);
  }

  /** The record built for iterate `x` at position `k`. */
  function MetadataOf(f_df: Objective, x: seq<real>, k: nat): Metadata
  {
    Metadata(f_df.obj(x), f_df.grad(x), x, k)
  }

  /** The records of the iterates `ys`, in order. */
  function Trail(f_df: Objective, ys: seq<seq<real>>): seq<Metadata>
  {
    if ys == [] then []
    else Trail(f_df, ys[..|ys| - 1]) + [MetadataOf(f_df, ys[|ys| - 1], |ys| - 1)]
  }

  lemma TrailSnoc(f_df: Objective, ys: seq<seq<real>>, k: nat)
    requires k < |ys|
    ensures Trail(f_df, ys[..k + 1]) == Trail(f_df, ys[..k]) + [MetadataOf(f_df, ys[k], k)]
  {
    assert ys[..k + 1][..k] == ys[..k];
  }

  /** One record per iterate, the `k`-th holding the `k`-th iterate (0-based)
      with its objective and gradient, and `iter == k`. */
  lemma {:induction false} TrailAt(f_df: Objective, ys: seq<seq<real>>, k: nat)
    requires k < |ys|
    ensures |Trail(f_df, ys)| == |ys|
    ensures Trail(f_df, ys)[k] == Metadata(f_df.obj(ys[k]), f_df.grad(ys[k]), ys[k], k)
  {
    var init := ys[..|ys| - 1];
    if k < |ys| - 1 {
      TrailAt(f_df, init, k);
    } else if |init| > 0 {
      TrailAt(f_df, init, 0);
    }
  }

  /** `optimize(algorithm, f_df, x0, callbacks, maxiter, minibatches)`. A
      rejected name raises before anything runs. Otherwise the generator
      `algorithm(grad, x0, maxiter)` is driven until it is exhausted, every
      callback is called once per iterate, and the last iterate is returned;
      when the generator yields nothing, `return xk` reads an unbound local. */
  method Optimize<C, B>(algorithm: ExternalAlgorithm, f_df: Objective, x0: seq<real>,
                        callbacks: seq<C> := [], maxiter: real := 1000.0, minibatches: seq<B> := [])
    returns (result: Result<seq<real>, Error>, trace: seq<Call<C, Metadata>>)
    ensures var rejection := CheckAlgorithm(algorithm.name, |minibatches| > 0);
      rejection.Some? ==> result == Failure(rejection.value) && trace == []
    ensures CheckAlgorithm(algorithm.name, |minibatches| > 0).None? ==>
      var ys := algorithm.run(f_df.grad, x0, maxiter);
      && trace == Fanout(callbacks, Trail(f_df, ys))
      && result == (if ys == [] then Failure(UnboundLocalError("xk")) else Success(ys[|ys| - 1]))
  {
    var rejection := CheckAlgorithm(algorithm.name, |minibatches| > 0);
    if rejection.Some? {
      return Failure(rejection.value), [];
    }
    var obj, grad := f_df.obj, f_df.grad;
    var ys := algorithm.run(grad, x0, maxiter);
    var last: Option<seq<real>> := None;
    trace := [];
    ghost var records: seq<Metadata> := [];
    var k := 0;
    while k < |ys|
      invariant 0 <= k <= |ys|
      invariant last == (if k == 0 then None else Some(ys[k - 1]))
      invariant records == Trail(f_df, ys[..k])
      invariant trace == Fanout(callbacks, records)
    {
      var xk := ys[k];
      var data := MetadataOf(f_df, xk, k);
      TrailSnoc(f_df, ys, k);
      FanoutSnoc(callbacks, records, data);
      trace := trace + Broadcast(callbacks, data);
      records := records + [data];
      last := Some(xk);
      k := k + 1;
    }
    assert ys[..k] == ys;
    if last.Some? {
      result := Success(last.value);
    } else {
      result := Failure(UnboundLocalError("xk"));
    }
  }
}
