/**
 * Client programs that use the package the way its tests do, and what the
 * contracts above let a caller conclude about them.
 */
module Scenarios {
  import opened Wrappers
  import opened Pas

  /** Resolve on a pending promise stores the first value; a second Resolve is ignored. */
  method FirstWriterWins(v1: int, v2: int) returns (first: int, second: int)
    ensures first == v1 && second == v1
  {
    var p := NewPending(0);
    p.Resolve(v1);
    p.Resolve(v2);
    first := p.Get();
    second := p.Get();
  }

  /** A promise made by New has spent its guard, so Resolve cannot overwrite it. */
  method ReadyPromiseIgnoresResolve(v: int, w: int) returns (got: int)
    ensures got == v
  {
    var r := New([v], 0);
    var p := r.value;
    p.Resolve(w);
    got := p.Get();
  }

  /** `New(10).Get()` is 10 and `New[int]().Get()` is the zero value; New(1, 2) is refused. */
  method NewAndGet() returns (given: int, defaulted: int, refused: Result<Promise<int>, PasError>)
    ensures given == 10 && defaulted == 0
    ensures refused == Failure(TooManyValues(2))
  {
    var p := New([10], 0);
    given := p.value.Get();
    var pEmpty := New([], 0);
    defaulted := pEmpty.value.Get();
    refused := New([1, 2], 0);
  }

  function SquareCall(ins: seq<int>): Option<seq<int>>
  {
    if |ins| == 1 then Some([ins[0] * ins[0]]) else None
  }

  function AddCall(ins: seq<int>): Option<seq<int>>
  {
    if |ins| == 2 then Some([ins[0] + ins[1]]) else None
  }

  /** The type assertion `.(int)` on a value that is already an int. */
  function AsInt(v: int): Option<int>
  {
    Some(v)
  }

  const Square: FuncValue<int> := FuncValue(FuncKind, 1, SquareCall)
  const Add: FuncValue<int> := FuncValue(FuncKind, 1, AddCall)

  /** 1*1 + 2*2 + ... + n*n */
  function SumOfSquares(n: nat): nat
  {
    if n == 0 then 0 else SumOfSquares(n - 1) + n * n
  }

  /** A chain of Async calls, each adding the square of i to the previous promise. */
  method AsyncChain() returns (total: int)
    ensures total == 14
  {
    var r := New([0], 0);
    var p := r.value;
    var i := 1;
    while i <= 3
      invariant 1 <= i <= 4
      invariant p.ready && p.value == SumOfSquares(i - 1)
    {
      var sq := Async(Square, AsInt, [Plain(i)], 0);
      p := Async(Add, AsInt, [Prom(p), Prom(sq)], 0);
      i := i + 1;
    }
    total := p.Get();
  }

  /** The same sum with Sync, feeding each Async square into a synchronous Add. */
  method SyncChain() returns (total: int)
    ensures total == 14
  {
    total := 0;
    var i := 1;
    while i <= 3
      invariant 1 <= i <= 4
      invariant total == SumOfSquares(i - 1)
    {
      var sq := Async(Square, AsInt, [Plain(i)], 0);
      var r := Sync(Add, AsInt, [Plain(total), Prom(sq)]);
      total := r.value;
      i := i + 1;
    }
  }

  /** Values of a dynamically typed argument list: integers, or slices of promises. */
  datatype GoValue = Int(n: int) | PromiseSlice(elems: seq<Promise<GoValue>>)

  /**
   * Argument resolution is shallow: a top-level promise is unwrapped, but a
   * slice holding a pending promise is passed on as it is, and resolving the
   * arguments does not wait for that inner promise.
   */
  method ShallowResolution() returns (vals: seq<GoValue>, inner: Promise<GoValue>)
    ensures vals == [Int(7), PromiseSlice([inner])]
    ensures !inner.ready
  {
    var outer := New([Int(7)], Int(0));
    inner := NewPending(Int(0));
    var resolved := ResolveArgs([Prom(outer.value), Plain(PromiseSlice([inner]))]);
    vals := resolved[..];
  }
}
