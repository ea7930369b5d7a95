# pas — promises for Go functions, modelled in Dafny

`pas` is a small Go library of futures. A `Promise[T]` is a single-assignment
cell: it is created either ready (`New`, with zero or one initial value) or
pending (`NewPending`), it becomes ready at most once through `Resolve` (the
first writer wins), and `Get` waits until it is ready and returns its value.
`Sync(f, args...)` and `Async(f, args...)` call an ordinary function `f` after
replacing every argument that is a promise by that promise's value; `Sync`
returns the function's single result, `Async` returns a pending promise that
a goroutine resolves with it. `MakeSlice`, `MakePendingSlice` and `MakeMap`
pre-allocate containers of promises.

This project models that behaviour sequentially:

- `wrappers.dfy` — `Option` and `Result`.
- `pas.dfy` (module `Pas`, from `pas.go`) — the `Promise` class with fields
  `value`, `ready` (the `ready` channel is closed) and `once` (the
  `sync.Once` guard has run), and the invariant `Valid()` that the two flags
  agree; `New`, `NewPending`, `MakePendingSlice`; argument resolution
  (`ResolveArgs`, a loop over a fresh array, proved against the function
  `ResolvedArgs`); `ExecuteFunction`, `Sync`, `Async` and the goroutine body
  `AsyncTask`, proved against the pure function `Invoke`.
- `utils.dfy` (module `Utils`, from `utils.go`) — `MakeSlice` and `MakeMap`.
- `scenarios.dfy` (module `Scenarios`) — client programs mirroring the
  package's tests and its single-assignment promise.

Modelling conventions:

- Waiting on the `ready` channel becomes a precondition: `Get` requires
  `ready`, and argument resolution requires every promise argument to be
  ready (`AllReady`).
- A Go panic becomes a `Failure(PasError)` result.
- Go's zero value of `T` has no counterpart for a Dafny type parameter. It is
  passed in explicitly as `zero`.
- `reflect.ValueOf(f)` becomes a `FuncValue`. It holds the value's kind, the
  number of results its type declares, and its `Call` as a function that
  yields `None` when reflect panics (the arguments do not fit) or `f` itself
  panics.
- The type assertion `.(T)` becomes the parameter `assertT`.
- A call argument is an `Arg`: a promise `Prom(p)` or any other value
  `Plain(v)`. The value type `V` is opaque, so a plain argument comes out
  identical even when it is a container that holds promises.
- A Go slice becomes `Slice(data, len)`. `data` is the backing array, whose
  length is the capacity. `make([]E, len, cap)` panics when `len < 0` or
  `len > cap`, and the model returns `SliceLenOutOfRange` or
  `SliceCapOutOfRange` in those cases.

What the code does not do:

- It resolves only top-level promises and never descends into containers.
  The nested-container tests at pas_test.go:111-1037 need a later resolver.
- It has no argument-count check of its own; a call with the wrong number of arguments fails inside reflect's `Call`.
- `Async` validates `f` inside the goroutine.

## Model

| member | source | states |
|---|---|---|
| `Pas.Promise.constructor` | pas.go:15-20 | a fresh promise is pending, its once-guard unspent, its value the zero value |
| `Pas.Promise.Get` | pas.go:22-26 | only callable once the promise is ready; returns the stored value and modifies nothing, so repeated calls agree |
| `Pas.Promise.Resolve` | pas.go:28-35 | on a pending promise stores the value and marks it ready; on a ready promise leaves value and readiness as they were; keeps `once == ready` |
| `Pas.New` | pas.go:44-58 | with no value: a fresh ready promise holding the zero value; with one value: a ready promise holding it; its once-guard is spent; with more than one value: the arity error and no promise |
| `Pas.NewPending` | pas.go:60-63 | a fresh promise that is not ready |
| `Pas.MakePendingSlice` | pas.go:79-91 | fails exactly when `length < 0` or `length` exceeds the capacity; otherwise length `length`, capacity the first capacity argument or `length`, every slot a fresh distinct pending promise, slots past the length nil |
| `Pas.CapacityArg` | utils.go:11-14 | the capacity passed to `make`: the first optional capacity argument when there is one (later ones ignored), otherwise the length |
| `Pas.AllReady` | pas.go:39-42 | the wait on the `ready` channel in `get`, over the whole argument list: a list without promises never waits, and a single promise argument waits exactly until that promise is ready |
| `Pas.ArgValue` | pas.go:178-185 | one argument resolves to the payload of a promise, and to itself otherwise |
| `Pas.ResolvedArgs` | pas.go:173-176 | one resolved value per argument |
| `Pas.ResolvedArgsAt` | pas.go:176-186 | the value at index i is the payload of a promise argument at i, and any other argument at i unchanged |
| `Pas.ResolveArgs` | pas.go:171-189 | fills a fresh array equal, index by index, to the resolved argument list |
| `Pas.Invoke` | pas.go:145-168 | not a function gives the not-a-function error, a declared result count other than 1 gives the result-count error, whatever the arguments; success means the call returned exactly one value whose assertion to T is the result; a panic inside the call gives its own error exactly when f passed both checks |
| `Pas.ReturnedCountCheckIsDead` | pas.go:150-159 | when the call returns as many values as declared, the second result-count check never fails, and success is exactly: a function, one declared result, a call that does not panic, a result of type T |
| `Pas.ExecuteFunction` | pas.go:140-169 | resolves all arguments first, then validates and calls f; its outcome is `Invoke` on the resolved argument list |
| `Pas.Sync` | pas.go:132-138 | returns exactly the outcome of executing f on the resolved arguments |
| `Pas.AsyncTask` | pas.go:121-127 | when execution succeeds, resolves the promise with the output (first writer wins); when it fails, leaves the promise untouched |
| `Pas.Async` | pas.go:115-130 | a fresh promise, created pending, that ends up ready with f's output when execution succeeds and stays pending with the zero value when it fails |
| `Utils.MakeSlice` | utils.go:10-20 | fails exactly when `length < 0` or `length` exceeds the capacity; otherwise length `length`, capacity the first capacity argument or `length`, every slot a fresh, pairwise distinct, ready promise holding the zero value, slots past the length nil |
| `Utils.MakeMap` | utils.go:22-35 | an empty map whatever size hint is given |
| `Scenarios.FirstWriterWins` | pas.go:28-35 | after `Resolve(v1)` then `Resolve(v2)` on a pending promise, two `Get`s both return `v1` |
| `Scenarios.ReadyPromiseIgnoresResolve` | pas.go:54-56 | a promise made by `New(v)` still holds `v` after a later `Resolve(w)` |
| `Scenarios.NewAndGet` | pas_test.go:63-73 | `New(10).Get()` is 10, `New[int]().Get()` is 0, `New(1, 2)` fails with the arity error |
| `Scenarios.AsyncChain` | pas_test.go:86-96 | chaining `Async(Add, p, Async(Square, i))` for i = 1..3 from `New(0)` yields 14 |
| `Scenarios.SyncChain` | pas_test.go:99-109 | feeding `Async(Square, i)` into `Sync(Add, p, ·)` for i = 1..3 from 0 yields 14 |
| `Scenarios.ShallowResolution` | pas.go:176-186 | a top-level promise is unwrapped, while a slice holding a pending promise passes through unchanged and the inner promise stays pending |

## Left out

- Goroutines, channels and `sync.Once` are not modelled as concurrency. The channel and the guard become the flags `ready` and `once`, and blocking becomes a `ready` precondition. A `Get` on a promise that never becomes ready (it would block forever in Go) is a call the model does not admit.
- `Pas.Async`: the goroutine runs to completion before `Async` returns, so the interleaving of the caller with the goroutine is not captured. The separate `AsyncTask` shows that the task resolves a promise that may in the meantime have been resolved by someone else. Every promise argument must therefore already be ready when `Async` is called, so a Go program that starts `Async` on a pending promise and resolves that promise afterwards has no counterpart in the model.
- `Pas.Async`: nothing recovers a panic in the goroutine, so in Go a failing task ends the whole process. The model shows only that the promise is never resolved.
- The unexported `get` (pas.go:37-42) is `Get` with the result boxed into `interface{}`. `Pas.Promise.Get` models both, and `ResolveArgs` calls it.
- The marker interface `promiseTypeContract` (pas.go:9-13) is the `Prom` constructor of `Arg`. Go recognises a `*Promise[X]` for any payload type X; here every promise argument, every plain argument and every result of a call share one value type `V`, so chaining promises of different payload types is modelled only through a common value type (as `Scenarios.GoValue` does). A nil `*Promise` passed as an argument, which Go would dereference and panic on, is not representable.
- `reflect` is abstracted. `fv.Call` is an uninterpreted function of the resolved values. Its argument-count and argument-type checks, and any panic of `f`, appear only as `CallPanicked`.
- `MakeChan` (pas.go:106-113) creates a channel and belongs to the concurrency layer.
- The copies of `MakeSlice` and `MakeMap` at pas.go:65-77 and pas.go:93-104 behave exactly like those in utils.go and are modelled once, by `Utils.MakeSlice` and `Utils.MakeMap`.
- `Utils.MakeMap`: the size hint is treated as affecting allocation only, for every value. What the Go runtime does with a negative hint computed at run time is not part of this model.
- `Utils.MakeSlice` and `Pas.MakePendingSlice`: Go's `int` is unbounded here, and the "len out of range" or "cap out of range" panic for a length or capacity too large to allocate is not modelled (so `MakeSlice(5, [1 << 62], zero)` succeeds here).
- The recursive, shape-driven resolver over pointers, slices, maps and arrays, and the tests that exercise it (pas_test.go:111-1037), belong to a later version of the library and are not part of this code.
- The tests' timing checks and worker helpers are not library logic.
