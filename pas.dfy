/**
 * The promise type of the `pas` package and the entry points that run a
 * function once the promises among its arguments are ready.
 *
 * Blocking on the `ready` channel is modelled by a precondition that the
 * promise is already ready; a Go panic becomes a `Failure` result.
 */
module Pas {
  import opened Wrappers

  /** The conditions under which the package panics. */
  datatype PasError =
    | TooManyValues(got: nat)          // New was given more than one initial value
    | NotAFunction                      // executeFunction: f is not of kind Func
    | WrongResultCount(declared: nat)   // executeFunction: f does not declare exactly one result
    | WrongReturnedCount(got: nat)      // executeFunction: the call returned other than one value
    | ReturnTypeMismatch                // executeFunction: the result is not of type T
    | CallPanicked                      // reflect's Call rejected the arguments, or f itself panicked
    | SliceLenOutOfRange                // make([]E, len, cap) with len < 0
    | SliceCapOutOfRange                // make([]E, len, cap) with len > cap

  /**
   * A single-assignment future. `ready` stands for the `ready` channel having
   * been closed, `once` for the `sync.Once` guard having run its function.
   */
  class Promise<T> {
    var value: T
    var ready: bool
    var once: bool

    /** Both constructors and Resolve close the channel exactly when they spend the guard. */
    ghost predicate Valid()
      reads this
    {
      once == ready
    }

    /** The struct literal `&Promise[T]{ready: make(chan struct{})}`: pending, zero-valued. */
    constructor (zero: T)
      ensures Valid() && !ready && !once && value == zero
    {
      value := zero;
      ready := false;
      once := false;
    }

    /** Returns the stored value; the caller must wait until the promise is ready. */
    method Get() returns (v: T)
      requires ready
      ensures v == value
    {
      v := value;
    }

    /** Stores `v` and marks the promise ready, unless the guard was already spent. */
    method Resolve(v: T)
      requires Valid()
      modifies this
      ensures Valid() && ready
      ensures !old(ready) ==> value == v
      ensures old(ready) ==> value == old(value)
    {
      if !once {
        once := true;
        value := v;
        ready := true;
      }
    }
  }

  /**
   * `New(values...)`: a promise that is ready at once, holding the single
   * given value or the zero value; more than one value is a usage error.
   */
  method New<T>(values: seq<T>, zero: T) returns (r: Result<Promise<T>, PasError>)
    ensures r.Failure? <==> |values| > 1
    ensures r.Failure? ==> r.error == TooManyValues(|values|)
    ensures r.Success? ==> fresh(r.value) && r.value.Valid() && r.value.ready && r.value.once
    ensures r.Success? ==> r.value.value == if |values| == 0 then zero else values[0]
  {
    var p := new Promise(zero);
    if |values| == 1 {
      p.value := values[0];
    } else if |values| > 1 {
      return Failure(TooManyValues(|values|));
    }
    if !p.once {
      p.once := true;
      p.ready := true;
    }
    return Success(p);
  }

  /** `NewPending()`: a promise that is not ready yet. */
  method NewPending<T>(zero: T) returns (p: Promise<T>)
    ensures fresh(p) && p.Valid() && !p.ready && p.value == zero
  {
    p := new Promise(zero);
  }

  /**
   * A Go slice: the backing array (its length is the capacity) and the
   * slice length.
   */
  datatype Slice<E> = Slice(data: array<E>, len: nat)
  {
    predicate Valid()
    {
      len <= data.Length
    }

    function Cap(): (c: nat)
    {
      data.Length
    }
  }

  /** The capacity `make` is given: the first optional argument, else the length. */
  function CapacityArg(length: int, capacity: seq<int>): (c: int)
    ensures |capacity| == 0 ==> c == length
    ensures |capacity| > 0 ==> c == capacity[0]
  {
    if |capacity| > 0 then capacity[0] else length
  }

  /**
   * `MakePendingSlice(length, capacity...)`: a slice of `length` fresh,
   * pairwise distinct pending promises.
   */
  method MakePendingSlice<T>(length: int, capacity: seq<int>, zero: T)
    returns (r: Result<Slice<Promise?<T>>, PasError>)
    ensures r.Failure? <==> length < 0 || length > CapacityArg(length, capacity)
    ensures r.Failure? ==> r.error == if length < 0 then SliceLenOutOfRange else SliceCapOutOfRange
    ensures r.Success? ==> var s := r.value;
      && fresh(s.data) && s.Valid()
      && s.len == length && s.Cap() == CapacityArg(length, capacity)
      && (forall k :: 0 <= k < s.len ==>
            s.data[k] != null && fresh(s.data[k]) && s.data[k].Valid()
            && !s.data[k].ready && s.data[k].value == zero)
      && (forall k :: s.len <= k < s.data.Length ==> s.data[k] == null)
      && (forall j, k :: 0 <= j < k < s.len ==> s.data[j] != s.data[k])
  {
    var capVal := CapacityArg(length, capacity);
    if length < 0 {
      return Failure(SliceLenOutOfRange);
    }
    if length > capVal {
      return Failure(SliceCapOutOfRange);
    }
    var data := new Promise?<T>[capVal](_ => null);
    var i := 0;
    while i < length
      invariant 0 <= i <= length
      invariant forall k :: 0 <= k < i ==>
        data[k] != null && fresh(data[k]) && data[k].Valid() && !data[k].ready && data[k].value == zero
      invariant forall k :: i <= k < data.Length ==> data[k] == null
      invariant forall j, k :: 0 <= j < k < i ==> data[j] != data[k]
    {
      var p := NewPending(zero);
      data[i] := p;
      i := i + 1;
    }
    return Success(Slice(data, length));
  }

  /** A call argument: a promise, which is unwrapped, or any other value. */
  datatype Arg<V> = Plain(v: V) | Prom(p: Promise<V>)

  /** Every promise among the arguments is ready, so that resolving them does not block. */
  predicate AllReady<V>(args: seq<Arg<V>>)
    reads set i | 0 <= i < |args| && args[i].Prom? :: args[i].p
    ensures (forall i :: 0 <= i < |args| ==> args[i].Plain?) ==> AllReady(args)
    ensures |args| == 1 && args[0].Prom? ==> (AllReady(args) <==> args[0].p.ready)
  {
    forall i :: 0 <= i < |args| && args[i].Prom? ==> args[i].p.ready
  }

  /** What one argument resolves to: a promise's payload, or the argument itself. */
  function ArgValue<V>(a: Arg<V>): (v: V)
    reads if a.Prom? then {a.p} else {}
    requires a.Prom? ==> a.p.ready
    ensures a.Prom? ==> v == a.p.value
    ensures a.Plain? ==> v == a.v
  {
    match a
    case Plain(v) => v
    case Prom(p) => p.value
  }

  /** The values the function is called with, one per argument and in order. */
  function ResolvedArgs<V>(args: seq<Arg<V>>): (r: seq<V>)
    reads set i | 0 <= i < |args| && args[i].Prom? :: args[i].p
    requires AllReady(args)
    ensures |r| == |args|
  {
    if args == [] then []
    else
      [ArgValue(args[0])] + ResolvedArgs(args[1..])
  }

  /** Argument i resolves to the payload if it is a promise, and to itself otherwise. */
  lemma {:induction false} ResolvedArgsAt<V>(args: seq<Arg<V>>, i: nat)
    requires AllReady(args)
    requires i < |args|
    ensures ResolvedArgs(args)[i] == match args[i] case Plain(v) => v case Prom(p) => p.value
  {
    if i > 0 {
      ResolvedArgsAt(args[1..], i - 1);
    }
  }

  /**
   * `resolveArgs`: fills a fresh array with one entry per argument, a
   * promise replaced by its payload and anything else passed through.
   */
  method ResolveArgs<V(0)>(args: seq<Arg<V>>) returns (resolved: array<V>)
    requires AllReady(args)
    ensures fresh(resolved)
    ensures resolved[..] == ResolvedArgs(args)
  {
    resolved := new V[|args|];
    for i := 0 to |args|
      invariant forall k :: 0 <= k < i ==> resolved[k] == ArgValue(args[k])
    {
      match args[i]
      case Prom(p) =>
        var value := p.Get();
        resolved[i] := value;
      case Plain(v) =>
        resolved[i] := v;
    }
    forall k | 0 <= k < |args|
      ensures resolved[k] == ResolvedArgs(args)[k]
    {
      ResolvedArgsAt(args, k);
    }
  }

  /** The reflect kinds that matter here. */
  datatype Kind = FuncKind | OtherKind

  /**
   * `reflect.ValueOf(f)`: its kind, the number of results its type
   * declares, and its `Call`, which yields `None` when it panics.
   */
  datatype FuncValue<!V> = FuncValue(kind: Kind, numOut: nat, call: seq<V> -> Option<seq<V>>)

  /**
   * The outcome of validating `f`, calling it on the resolved values and
   * asserting the single result to T (`assertT` is that type assertion).
   */
  function Invoke<V, T>(f: FuncValue<V>, assertT: V -> Option<T>, vals: seq<V>): (r: Result<T, PasError>)
    ensures f.kind != FuncKind ==> r == Failure(NotAFunction)
    ensures f.kind == FuncKind && f.numOut != 1 ==> r == Failure(WrongResultCount(f.numOut))
    ensures r.Success? ==> f.call(vals).Some? && |f.call(vals).value| == 1
                           && assertT(f.call(vals).value[0]) == Some(r.value)
    ensures r == Failure(CallPanicked) <==> f.kind == FuncKind && f.numOut == 1 && f.call(vals).None?
  {
    if f.kind != FuncKind then Failure(NotAFunction)
    else if f.numOut != 1 then Failure(WrongResultCount(f.numOut))
    else match f.call(vals)
      case None => Failure(CallPanicked)
      case Some(results) =>
        if |results| != 1 then Failure(WrongReturnedCount(|results|))
        else match assertT(results[0])
          case None => Failure(ReturnTypeMismatch)
          case Some(output) => Success(output)
  }

  /**
   * reflect's Call returns as many values as the type declares, so once
   * `numOut` has been checked to be 1 the second count check cannot fail.
   */
  lemma ReturnedCountCheckIsDead<V, T>(f: FuncValue<V>, assertT: V -> Option<T>, vals: seq<V>)
    requires forall ins :: f.call(ins).Some? ==> |f.call(ins).value| == f.numOut
    ensures Invoke(f, assertT, vals).Failure? ==> !Invoke(f, assertT, vals).error.WrongReturnedCount?
    ensures Invoke(f, assertT, vals).Success? <==>
              f.kind == FuncKind && f.numOut == 1 && f.call(vals).Some?
              && assertT(f.call(vals).value[0]).Some?
  {
  }

  /**
   * `executeFunction`: resolves the arguments first (waiting on every
   * promise), then validates `f`, calls it and asserts its result type.
   * The body follows pas.go statement by statement; `Invoke` states the
   * same outcome as one expression.
   */
  method ExecuteFunction<V(0), T>(f: FuncValue<V>, assertT: V -> Option<T>, args: seq<Arg<V>>)
    returns (r: Result<T, PasError>)
    requires AllReady(args)
    ensures r == Invoke(f, assertT, ResolvedArgs(args))
  {
    var resolvedArgs := ResolveArgs(args);
    if f.kind != FuncKind {
      return Failure(NotAFunction);
    }
    if f.numOut != 1 {
      return Failure(WrongResultCount(f.numOut));
    }
    var results := f.call(resolvedArgs[..]);
    if results.None? {
      return Failure(CallPanicked);
    }
    if |results.value| != 1 {
      return Failure(WrongReturnedCount(|results.value|));
    }
    var output := assertT(results.value[0]);
    if output.None? {
      return Failure(ReturnTypeMismatch);
    }
    return Success(output.value);
  }

  /** `Sync`: runs `f` on the caller's side and returns its output. */
  method Sync<V(0), T>(f: FuncValue<V>, assertT: V -> Option<T>, args: seq<Arg<V>>)
    returns (r: Result<T, PasError>)
    requires AllReady(args)
    ensures r == Invoke(f, assertT, ResolvedArgs(args))
  {
    r := ExecuteFunction(f, assertT, args);
  }

  /**
   * The goroutine `Async` starts: run `f`, then resolve `p` with its output.
   * When the run fails the goroutine panics before reaching Resolve.
   */
  method AsyncTask<V(0), T>(p: Promise<T>, f: FuncValue<V>, assertT: V -> Option<T>, args: seq<Arg<V>>)
    requires p.Valid() && AllReady(args)
    modifies p
    ensures p.Valid()
    ensures old(Invoke(f, assertT, ResolvedArgs(args))).Failure? ==> unchanged(p)
    ensures old(Invoke(f, assertT, ResolvedArgs(args))).Success? ==>
      p.ready && p.value == if old(p.ready) then old(p.value) else old(Invoke(f, assertT, ResolvedArgs(args))).value
  {
    var output := ExecuteFunction(f, assertT, args);
    if output.Success? {
      p.Resolve(output.value);
    }
  }

  /**
   * `Async`: a fresh pending promise, which the task then resolves with the
   * output of `f`; a failed task leaves it pending for good.
   */
  method Async<V(0), T>(f: FuncValue<V>, assertT: V -> Option<T>, args: seq<Arg<V>>, zero: T)
    returns (p: Promise<T>)
    requires AllReady(args)
    ensures fresh(p) && p.Valid()
    ensures Invoke(f, assertT, ResolvedArgs(args)).Success? ==>
      p.ready && p.value == Invoke(f, assertT, ResolvedArgs(args)).value
    ensures Invoke(f, assertT, ResolvedArgs(args)).Failure? ==> !p.ready && p.value == zero
  {
    p := NewPending(zero);
    AsyncTask(p, f, assertT, args);
  }
}
