/** Values shared by the bounded driver `loop` and the entry point `optimize`:
    outcomes, Python's errors, the pair of functions `wrap(f_df)` hands back,
    and the calls made on a list of callbacks. */
module Common {

  datatype Option<T> = None | Some(value: T)

  datatype Result<T, E> = Success(value: T) | Failure(error: E)

  /** The exceptions that escape the core. */
  datatype Error =
    | AssertionError(message: string)       // a failed `assert cond, message`
    | UnboundLocalError(variable: string)   // a local read before any assignment
    | StopIteration                         // `next` on a generator that has finished

  /** What `wrap(f_df)` returns: the objective and the gradient as two functions
      of the parameters. `utils.wrap` is not part of this model, so both are
      taken as given. */
  datatype Objective = Objective(obj: seq<real> -> real, grad: seq<real> -> seq<real>)

  /** One call of one callback on one metadata record. */
  datatype Call<C, R> = Call(callback: C, record: R)

  /** Handing a record to every callback of the list, first to last, each
      receiving that same record: `pipe(data, *map(do, callbacks))` (each
      callback `do`-wrapped, so it passes the record on unchanged) and
      `juxt(*callbacks)(data)` both behave this way. */
  function Broadcast<C, R>(callbacks: seq<C>, record: R): (calls: seq<Call<C, R>>)
    ensures |calls| == |callbacks|
    ensures forall j :: 0 <= j < |callbacks| ==> calls[j] == Call(callbacks[j], record)
  {
    if callbacks == [] then []
    else [Call(callbacks[0], record)] + Broadcast(callbacks[1..], record)
  }

  /** The calls made when the records are handed out one after the other. */
  function Fanout<C, R>(callbacks: seq<C>, records: seq<R>): seq<Call<C, R>>
  {
    if records == [] then []
    else Fanout(callbacks, records[..|records| - 1]) + Broadcast(callbacks, records[|records| - 1])
  }

  lemma FanoutSnoc<C, R>(callbacks: seq<C>, records: seq<R>, record: R)
    ensures Fanout(callbacks, records + [record]) == Fanout(callbacks, records) + Broadcast(callbacks, record)
  {
    assert (records + [record])[..|records|] == records;
  }

  /** Every callback is called exactly once per record, records in order and,
      within one record, callbacks in list order. */
  lemma {:induction false} FanoutAt<C, R>(callbacks: seq<C>, records: seq<R>, k: nat, j: nat)
    requires k < |records| && j < |callbacks|
    ensures |Fanout(callbacks, records)| == |records| * |callbacks|
    ensures k * |callbacks| + j < |Fanout(callbacks, records)|
    ensures Fanout(callbacks, records)[k * |callbacks| + j] == Call(callbacks[j], records[k])
  {
    var n, c := |records|, |callbacks|;
    var init := records[..n - 1];
    var front := Fanout(callbacks, init);
    var last := Broadcast(callbacks, records[n - 1]);
    assert Fanout(callbacks, records) == front + last;
    FanoutLength(callbacks, init);
    MulStep(n - 1, c);
    if k < n - 1 {
      FanoutAt(callbacks, init, k, j);
      assert init[k] == records[k];
    } else {
      assert k * c + j == |front| + j;
    }
  }

  lemma MulStep(a: nat, c: nat)
    ensures a * c + c == (a + 1) * c
  {
  }

  lemma {:induction false} FanoutLength<C, R>(callbacks: seq<C>, records: seq<R>)
    ensures |Fanout(callbacks, records)| == |records| * |callbacks|
  {
    if records != [] {
      var n := |records|;
      FanoutLength(callbacks, records[..n - 1]);
      MulStep(n - 1, |callbacks|);
    }
  }

  /** Python's `int(x)` on a number: truncation toward zero. */
  function Truncate(x: real): (n: int)
    ensures x >= 0.0 ==> 0 <= n && n as real <= x < (n + 1) as real
    ensures x < 0.0 ==> n <= 0 && (n - 1) as real < x <= n as real
  {
    if x >= 0.0 then x.Floor else -((-x).Floor)
  }

  /** `", ".join(parts)`. */
  function Join(sep: string, parts: seq<string>): string
  {
    if |parts| == 0 then ""
    else if |parts| == 1 then parts[0]
    else parts[0] + sep + Join(sep, parts[1..])
  }
}
