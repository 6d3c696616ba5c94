# go-promise: the settle-once Promise, modelled in Dafny

This project models the `Promise` type of `main.go`. A promise settles once, either
fulfilled with a value or rejected with an error. It hands that settlement over through
two one-slot buffered channels. `resolve` flattens a nested promise by awaiting it.
`Then`, `Catch` and `Finally` each drain their parent and settle a new child promise.
A panic inside an executor is recovered and becomes a rejection.

How the model is built:

- Each channel is an `Option` slot on the class `Promises.Promise`. A send requires an
  empty slot. A receive requires a full one. Nothing blocks.
- Goroutines are gone. An executor runs as an explicit method call.
  - A user executor is `Run`, given the calls of `resolve`/`reject` it makes, in order,
    ending in a normal return or a panic.
  - The executors that the combinators build are `RunThen`, `RunCatch` and `RunFinally`.
    They run on the child and are given its parent.
- A handler is a function parameter returning an `Outcome`: it either returns a value or
  panics with something `recover()` will see.
- A handler's side effects (the demo prints) appear as the list of handler calls that
  each combinator returns.
- PENDING, FULFILLED and REJECTED (0, 1, 2) are the datatype `State`.
- A Go `error` is `Option<string>`, with `None` for nil.
- An `interface{}` value is `Value = Nil | Int | Str | PromiseVal(Promise)`.

The pure functions in module `Promises` say what one operation does to one promise's
fields (a `Snapshot`). Each method of `Promise` is proved to change its fields exactly as
the matching function says. `Inv` is the invariant that every operation keeps, except
`resetState`, which keeps it only where `Then` calls it, on a parent it has just drained
and that was never awaited (`Promises.ResetStep`, `Settlement.ResetOutsideThenBreaksInv`):

- a pending promise has both slots empty;
- a full slot agrees with the state, so at most one slot is ever full;
- the resolve slot never holds a promise;
- `result` and `err` stay nil until the one `Await` that drains the promise for good.

Three behaviours are modelled exactly as the code has them, even where a reader might
expect otherwise:

- On the nested-rejection path, `resolve` calls `reject` and returns before main.go:108.
  The outer promise therefore ends REJECTED. It does not end FULFILLED.
- The `case nil` arm of `handlePanic` is dead, because main.go:49 has already ruled nil
  out. `PanicMessage` requires a non-nil recovered value, and that arm is `assert false`.
- A rejection handler that returns nil does not bring the chain back to "fulfilled". It
  leaves the child REJECTED with a nil error, and `Await` reports `(nil, nil)`. The demo
  shows this: with any input other than 3, the last promise ends REJECTED.

`Then` resets a fulfilled parent to PENDING (main.go:119). The model keeps this.
`Demo.SecondSettlementAfterThen` shows the consequence: the same promise can then be
settled and delivered a second time.

## Model

| member | source | states |
|---|---|---|
| `Panics.PanicMessage` | main.go:50-57 | a recovered error becomes "panic recovery with error: " followed by its message; any other recovered value becomes "panic recovery with unknown error: " followed by its text; nil is excluded, so the `case nil` arm cannot run |
| `Panics.PanicMessageRoundTrip` | main.go:54-56 | the two message shapes never collide: parsing a panic message gives back exactly the recovered value it came from |
| `Panics.ParsedMessageIsPanicMessage` | main.go:54-56 | the converse: every message that parses as a panic message is the panic message of what it parses to |
| `Panics.NilPanicMessageUnreachable` | main.go:49-52 | no reachable arm of the type switch produces the "panic recovery with nil error" message |
| `Promises.Fresh` | main.go:29-36 | a new promise is PENDING with both slots empty, and satisfies the invariant |
| `Promises.AwaitStep` | main.go:160-165 | a receive empties the full slot, keeps the state, and keeps the invariant |
| `Promises.Awaited` | main.go:159-167 | `Await` returns `(v, nil)` when the resolve slot held `v` and `(nil, e)` when the reject slot held `e`; leftover `result`/`err` values never leak in |
| `Promises.Drain` | main.go:117-123 | the receive done by `Then`/`Catch`/`Finally` empties the parent's slot, keeps its state, and writes neither `result` nor `err` |
| `Promises.ResetStep` | main.go:79-81 | only the state changes, to PENDING; the invariant survives only on a drained, never-awaited promise |
| `Promises.RejectStep` | main.go:69-76 | a non-PENDING promise is unchanged; a PENDING one becomes REJECTED, and a consumer then receives `(nil, e)` |
| `Promises.Deliver` | main.go:103-108 | a send of a non-promise value plus `state = FULFILLED`; a consumer then receives `(v, nil)` |
| `Promises.ResolveStep` | main.go:91-109 | a non-PENDING promise is unchanged; a plain value (nil included) makes the promise FULFILLED with exactly that value; a promise value is replaced by what its `Await` returned: REJECTED exactly when the inner error is non-nil, otherwise FULFILLED with the inner value |
| `Promises.PanicStep` | main.go:46-58 | nothing happens when nothing was recovered or the promise is already settled; otherwise the promise becomes REJECTED with the panic message |
| `Promises.ActionStep` | main.go:38-41 | one callback call of an executor keeps the invariant, is ignored by a settled promise, and settles a pending one, unless the call is a panic |
| `Promises.RunSpec` | main.go:38-41 | running an executor's calls in order, stopping at a panic, keeps the invariant |
| `Promises.RunSpecSplit` | main.go:38-41 | running a panic-free prefix and then the rest gives the same result as running the whole executor |
| `Promises.SettleByResolve` | main.go:119-120 | settling a child by `resolve(onFulfill(v))`, or by a panic of the handler, keeps the invariant and leaves a settled child alone |
| `Promises.SettleByReject` | main.go:121-122 | settling a child by `reject(onRejection(e))` makes a pending child REJECTED with the handler's error; a handler panic goes to `handlePanic` |
| `Promises.Forward` | main.go:148-153 | passing a settlement on leaves the child in the parent's state, delivering exactly what the parent held |
| `Promises.InnerResult` | main.go:96-98 | for a settled inner promise, this is what its `Await` returns, and it is never a promise |
| `Promises.Promise.New` | main.go:28-36 | the constructor's state initialisation: PENDING, both slots empty, `result` and `err` nil |
| `Promises.Promise.SendResolve` | main.go:103-105 | the send needs an empty resolve slot; it fills the slot and changes nothing else |
| `Promises.Promise.SendReject` | main.go:75 | the send needs an empty reject slot; it fills the slot and changes nothing else |
| `Promises.Promise.TakeResolved` | main.go:161 | the receive needs a full resolve slot; it returns the item and empties the slot |
| `Promises.Promise.TakeRejected` | main.go:163 | the receive needs a full reject slot; it returns the item and empties the slot |
| `Promises.Promise.RejectWith` | main.go:69-76 | `reject` changes the fields as `RejectStep` says and keeps the invariant; the guard guarantees the send finds its slot empty |
| `Promises.Promise.ResetState` | main.go:79-81 | changes the fields as `ResetStep` says; it keeps `Valid()` when the promise was drained and never awaited, as in `Then` |
| `Promises.Promise.ResolveWith` | main.go:91-109 | `resolve` changes the fields as `ResolveStep` says, given what the inner `Await` returned; the inner promise, if one was awaited, is drained and stays valid |
| `Promises.Promise.Await` | main.go:159-167 | drains exactly the full slot, writes only the matching field, keeps the state, and returns `Awaited` of the old fields |
| `Promises.Promise.HandlePanic` | main.go:46-58 | changes the fields as `PanicStep` says |
| `Promises.Promise.Run` | main.go:38-41 | executing a user executor changes the promise as `RunSpec` says; an inner promise resolved by the first call is drained |
| `Promises.Promise.Then` | main.go:114-126 | a fulfilled parent is drained and reset to a fresh PENDING promise, `onFulfill` is called once, and the child is settled by `resolve(onFulfill(v))` with flattening; a rejected parent is drained but stays REJECTED, only `onRejection` is called, and the child is settled by `reject(onRejection(e))` |
| `Promises.Promise.RunThen` | main.go:115-125 | the executor built by `Then`, stated for any valid child: the same handler routing, parent reset and child settlement |
| `Promises.Promise.Catch` | main.go:131-141 | a fulfilment is passed on unchanged and no handler is called; a rejection `e` makes the child `reject(onRejection(e))`; the parent's state is untouched |
| `Promises.Promise.RunCatch` | main.go:132-140 | the executor built by `Catch`, stated for any valid child |
| `Promises.Promise.Finally` | main.go:146-156 | either outcome is passed on unchanged, the callback is called exactly once, and neither its result nor its panic changes the child |
| `Promises.Promise.RunFinally` | main.go:147-155 | the executor built by `Finally`, stated for any valid child |
| `Promises.Resolve` | main.go:84-88 | a fresh valid promise settled as `resolve(v)` |
| `Promises.Reject` | main.go:62-66 | a fresh valid promise settled as `reject(e)` |
| `Settlement.SettledRunIsIdle` | main.go:69-109 | no call of an executor changes a promise that has left PENDING |
| `Settlement.FirstSettlementWins` | main.go:69-109 | an executor's effect is the effect of its first call alone |
| `Settlement.SettleOnceFromFresh` | main.go:69-109 | on a new promise, an executor leaves at most one slot full; the promise stays PENDING exactly when the executor made no call or panicked with nil; the reject slot is the full one exactly when the first call rejected, panicked, or resolved with a promise that failed with a non-nil error |
| `Settlement.FlattenIsTransparent` | main.go:96-103 | resolving with a settled promise delivers exactly what that promise delivers; the state follows the inner promise's, except that a nil-error rejection turns into a fulfilment |
| `Settlement.ResolvedInnerFlattens` | main.go:97-103 | `Resolve(Resolve(v))` settles exactly as `Resolve(v)` does |
| `Settlement.RejectedInnerRejects` | main.go:98-101 | `Resolve(Reject(e))` with a non-nil `e` settles exactly as `Reject(e)` does |
| `Settlement.NilRejectedInnerFulfils` | main.go:98-103 | `Resolve(Reject(nil))` settles exactly as `Resolve(nil)` does |
| `Settlement.PanickingHandlerRejects` | main.go:46-58 | a panicking handler makes the child REJECTED with a message from which the recovered value can be read back |
| `Settlement.ResetOutsideThenBreaksInv` | main.go:79-81 | outside `Then`, `resetState` breaks the invariant: on a promise that was fulfilled with a non-nil value and awaited, and on one whose slot is still full |
| `Settlement.ResolveThenAwait` | main.go:84-88 | a client calling `Resolve(v)` and then `Await` gets `(v, nil)` for a non-promise `v`, and the promise stays FULFILLED |
| `Settlement.RejectThenAwait` | main.go:62-66 | a client calling `Reject(e)` and then `Await` gets `(nil, e)`, including `(nil, nil)` for a nil `e`, and the promise stays REJECTED |
| `Settlement.ThenMapsValue` | main.go:114-126 | `Resolve(n).Then(add one, pass on)` and then `Await` gives `(n + 1, nil)` on a FULFILLED child, and only the fulfilment handler is called, with `n` |
| `Settlement.NilHandlerErrorStaysRejected` | main.go:121-122 | `Reject(e).Then(f, g)` with `g` returning nil leaves the child REJECTED, its `Await` gives `(nil, nil)`, and only `g` is called, with `e` |
| `Settlement.CatchKeepsFulfilment` | main.go:133-135 | `Resolve(v).Catch(g)` hands on the fulfilment unchanged and never calls `g` |
| `Settlement.FinallyKeepsSettlement` | main.go:146-156 | `Finally(f)` on a fulfilled and on a rejected promise hands on exactly the parent's state and delivered pair, whatever `f` does, and calls `f` once each time |
| `Demo.NatToString` | main.go:186 | the `%d` text of a natural number is a non-empty string of digits that denotes the number |
| `Demo.IntToString` | main.go:186 | the `%d` text of an integer starts with a minus sign exactly when it is negative, and its digits denote the magnitude |
| `Demo.IntToStringInjective` | main.go:186 | two integers with the same `%d` text are equal |
| `Demo.NotThreeMessage` | main.go:186 | the rejection message is the number's decimal text followed by " is not equal to 3" |
| `Demo.NotThreeMessageInjective` | main.go:186 | the rejection message determines the flag's value |
| `Demo.AddOne` | main.go:190-193 | on a 64-bit int it returns a 64-bit int equal to the input plus one modulo 2^64, so the maximum wraps to the minimum; on any other value it panics with an error (the failed type assertion) |
| `Demo.ReturnNil` | main.go:197-200 | never panics and returns nil |
| `Demo.PassError` | main.go:194-196 | returns the error it was given, nil included, and never panics |
| `Demo.HealError` | main.go:204-208 | returns nil exactly when the error is non-nil; on a nil error the `Error()` call panics with a runtime error |
| `Demo.FinallyNil` | main.go:209-212 | never panics and returns nil |
| `Demo.Scenario` | main.go:175-215 | the demo chain ends with `Await` giving `(nil, nil)` for every input. With input 3 the final state is FULFILLED and the handler calls are onFulfill(3), onFulfill(4), onFinally. With any other input the final state is REJECTED and the calls are three rejection-handler calls with the message "N is not equal to 3", then onFinally |
| `Demo.SecondSettlementAfterThen` | main.go:118-120 | after `Then` has forwarded a fulfilment `v` and reset the parent, a late `reject(e)` settles the parent again, and its `Await` then gives `(nil, e)` |

## Left out

- Goroutines and scheduling (main.go:38-41). Each executor runs to its end when the model
  calls it. `Then`, `Catch` and `Finally` build the child and run its executor in that one call.
- Blocking on channels and the liveness of sends and receives. A receive (`Await`, the
  combinators, and the inner `Await` of flattening) requires a full slot instead. A send
  is proved to find its slot empty.
- The random choice of `select` between two ready cases. The invariant proves that at
  most one case is ever ready.
- The unsynchronised read and write of `state`. It is a data race and has no sequential
  meaning.
- The `executor` field (main.go:20). The executor is passed to `Run` instead of being
  stored.
- `main`'s printing, `init` and flag parsing (main.go:169-215). `Demo.Scenario` takes the
  flag's value as a parameter, and it returns the handler calls in place of the printed
  lines.
- `fmt.Sprint` of arbitrary values. A recovered non-error value carries its ready-made
  text.
- Go's dynamic typing of `interface{}`, beyond the four `Value` cases. A typed nil
  `*Promise` is not represented.
- Go 1.21's conversion of `panic(nil)` into a runtime error. Following the source,
  `recover()` returning nil means nothing to handle.
- The exact texts of the demo handlers' panics. `Demo.AddOne` panics on a non-int value and
  `Demo.HealError` on a nil error, both modelled with Go's runtime message texts. Their
  contracts say only that each panic carries an error. No demo run reaches either panic,
  so nothing more is proved about them.
