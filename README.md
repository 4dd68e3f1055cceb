# godic service container, modelled in Dafny

Package godic keeps a lazy, memoising table of services. `Get(ctx, c, name,
builder, tags, callbacks)` looks up `name` in `Container.storage`:

- a built record of the requested type is returned as it is;
- a record that is still being built means the request is part of a
  dependency cycle, and the call fails with "circular dependency detected
  with service <name>";
- a built record of another type fails with "unable to assert type";
- a missing record is first inserted as a placeholder (not built, zero
  instance, the given tags), then the builder runs, and may request other
  services on the same container. If the builder fails, the record is deleted
  and the builder's error and instance are returned. If it succeeds, the
  record becomes built and holds the builder's instance.

A deferred block then runs the first post-build callback whenever the call
is about to return no error, on memoised hits as well as fresh builds. The
callback's error becomes the call's error, and the record stays built.
`GetStrict` panics with `Get`'s error, or returns its instance.

The model has four modules:

- `Types` (types.dfy) holds the records, the errors and the values. A value
  carries its Go type as a tag, so the type assertion at container.go:77 is a
  tag comparison. It also holds builders and callbacks written as data. A
  builder is a list of nested requests, each of which propagates or ignores
  a nested error, followed by a return or a failure. A callback is the error
  it returns.
- `Protocol` (protocol.dfy) states `Get` as a function from the table before a
  call to an `Outcome`. The outcome holds the instance, the error, the new
  table, and the trace of builders and callbacks the call invoked. The trace
  plays the part of the tests' invocation counters. The lemmas about that
  function are there too.
- `Godic` (container.dfy) holds `Container`, a class whose `storage` map the
  methods `Get`, `RunBuilder` and `GetStrict` update in place. Each of them is
  proved to produce exactly what the `Protocol` functions describe.
- `Scenarios` (scenarios.dfy) holds concrete request chains in the shape of
  container_test.go and of the intended cycle and type-mismatch behaviour.

Behaviour of container.go that the model keeps as written:

- Only the first callback runs. The loop at container.go:64-67 returns in
  its first iteration, so later callbacks never run.
- That callback also runs on memoised hits, since the deferred block is set
  up (container.go:61-70) before the lookup.
- There is no cycle-tolerant mode. `hasCircularDependency` is written
  `false` at container.go:88 and never read.
- There is no inject/`SetService` operation.

On a failed build, `Get` returns whatever instance the builder returned with
its error (container.go:95), not the zero value. container_test.go:147
expects nil there, but that test calls `TryBuild`, which container.go does
not define.

When a build succeeds, `Protocol.Acquire` writes the record as the
placeholder with its instance and its built flag set. `PlaceholderKept`
proves that the placeholder is still in the table, unchanged, when the
builder returns. So this is the same record the Go code updates in place at
container.go:98-99, and `Godic.Container.Get` updates the stored record
itself.

## Model

| member | source | states |
|---|---|---|
| `Protocol.Placeholder` | container.go:84-90 | The record inserted before the builder runs is filed under its own name with the given tags and not marked circular. Until it is promoted, every lookup of it reports a circular dependency on that name, whatever type is requested. |
| `Protocol.Lookup` | container.go:72-81 | A lookup of an existing record succeeds exactly when the record is built and of the requested type, and then returns the stored instance. Otherwise it returns the zero instance of the requested type. The error is circular exactly when the record is not built. |
| `Protocol.Deferred` | container.go:61-70 | The deferred block keeps the instance and the table. The call ends without error exactly when the body did and there is either no callback or the first one accepts. A body error is passed through untouched. Otherwise, when callbacks were given, the first callback's error becomes the call's error and exactly one callback event is appended to the trace. |
| `Protocol.Get` | container.go:47-102 | Whatever the outcome, the returned instance has the type the caller asked for. |
| `Protocol.Acquire` | container.go:72-101 | The lookup-or-build part of `Get`, before the deferred block. Its instance always has the requested type. |
| `Protocol.RunSteps` | container.go:92 | The builder invocation. A builder of a `T` returns a `T`, including the zero `T` when it propagates a nested error. |
| `Protocol.StrictOf` | container.go:39-44 | `GetStrict` returns exactly when `Get`'s error is nil, and then returns `Get`'s instance. Otherwise it panics with `Get`'s error. |
| `Protocol.GetExtends` | container.go:72-101 | A call never changes or removes a record that existed before it, and adds only built records filed under their own name with `hasCircularDependency` false. On no error, the key holds a built record with the returned instance. |
| `Protocol.AcquireExtends` | container.go:84-101 | The same two facts for the lookup-or-build part. |
| `Protocol.StepsExtend` | container.go:92-96 | A builder run, with all its nested requests, changes no existing record and adds only built ones. |
| `Protocol.PlaceholderKept` | container.go:84-99 | The placeholder inserted before the builder runs is still present and unchanged when the builder returns. So lines 98-99 always find it and never revert a record to building. |
| `Protocol.Memoised` | container.go:61-82 | On a built record of the requested type: returns the stored instance, leaves the table unchanged and runs no builder. Only the first callback, if any, runs, and its error is the result. |
| `Protocol.CycleDetected` | container.go:74-76 | A record that is not built yet makes the request fail with a circular-dependency error naming the key. The zero instance is returned, the table is unchanged, and neither the builder nor any callback runs. |
| `Protocol.TypeMismatch` | container.go:77-80 | A built record of another type makes the request fail with the type-assertion error. The zero instance is returned, the table is unchanged and nothing runs. |
| `Protocol.FreshBuild` | container.go:84-101 | For a key with no record, the call ends one of two ways. Either the key has no record and an error was reported (rollback), or the key holds `Service(name, instance, built, not circular, tags)` with the returned instance. The call always returns the builder's instance. When the builder succeeds, the table is the builder's table with the key promoted to that record, and the call reports no error unless its first callback rejects. |
| `Protocol.Rollback` | container.go:93-96 | When the builder fails, the table is exactly the one the builder left, less the requested key. So every record the nested requests built stays, and the builder's error and instance are returned. |
| `Protocol.BuildsOnlyAbsent` | container.go:72-92 | Every builder a call invokes, nested ones included, belongs to a key that had no record when the call began. |
| `Protocol.AcquireBuildsOnlyAbsent` | container.go:72-92 | The same for the lookup-or-build part. |
| `Protocol.StepsBuildOnlyAbsent` | container.go:92 | The same for a builder run: its builders belong to keys absent from the table it started on. |
| `Protocol.NotReentered` | container.go:74-92 | For a key with no record, the call runs that key's builder first and never enters it again while it runs. |
| `Protocol.CircularIsGenuine` | container.go:74-76 | A circular-dependency error for key k is reported only if k was already building when the call began, or this call invoked k's builder. |
| `Protocol.AcquireCircularIsGenuine` | container.go:74-76 | The same for the lookup-or-build part. |
| `Protocol.StepsCircularIsGenuine` | container.go:74-76 | The same for a builder run. |
| `Protocol.TopLevelCycle` | container.go:84-99 | A table with no record under construction keeps that property across a call. From such a table, a circular error always names a key whose builder the call itself invoked. |
| `Protocol.BuiltOnce` | container_test.go:116-130 | After any request that left its key built, a later request for the same key and type returns the identical instance, leaves the table unchanged and does not run that key's builder. This includes a build whose first callback rejected: the record is promoted (container.go:98-99) before the deferred block runs. |
| `Protocol.RetryAfterFailure` | container_test.go:138-152 | A request whose build left no record has reported an error. The next request for that key runs its builder again. |
| `Protocol.CallbackEffect` | container.go:61-70 | Compared with the same request without callbacks, the instance and the table are the same. Only when that request reports no error does the first callback run, and its error becomes the result. Otherwise nothing differs. |
| `Protocol.OnlyFirstCallback` | container.go:64-67 | Dropping every callback after the first changes nothing about the call. |
| `Protocol.StrictAgrees` | container.go:39-44 | Whether `GetStrict` returns or panics, the existing records are unchanged and only built records are added. When it returns, the instance is the one now stored, built, under the requested key. |
| `Godic.Container.constructor` | container.go:22-27 | `NewContainer` starts with an empty table and no invocations. |
| `Godic.Container.Get` | container.go:47-102 | The in-place `Get` returns `Protocol.Get`'s instance and error, leaves `Protocol.Get`'s table, and appends its trace to the invocation log. The new table extends the old one. |
| `Godic.Container.RunBuilder` | container.go:92 | The builder loop leaves what `Protocol.RunSteps` describes: instance, error, table and invocations. |
| `Godic.Container.GetStrict` | container.go:31-45 | Returns `Protocol.StrictOf` of `Get`'s outcome, with `Get`'s effect on the table and the log. |
| `Scenarios.CreateService` | container_test.go:101-130 | Requests for "a" and then "b" (which needs "a") both succeed. Each builder runs once, neither instance is the zero (nil) value, and the `*B` holds the identical `*A` value. |
| `Scenarios.CreateServiceWithErr` | container_test.go:133-154 | Two requests with a failing builder both fail and both run the builder. Afterwards the table is empty. Both calls return the builder's own instance (datum 5), which differs from the zero (nil) `*B`. |
| `Scenarios.Cycle` | container.go:74-76 | "b" needs "a" and "a" needs "b": the inner request for "b" fails as circular, and both placeholders are rolled back. |
| `Scenarios.WrongType` | container.go:77-80 | A key built as `int` and requested as `string` fails the type assertion, with the zero `string` and the table unchanged. |
| `Scenarios.Callbacks` | container.go:61-70 | A rejecting first callback becomes the error, but the record stays built. A later hit runs only its own first callback. |
| `Scenarios.TestCreateService` | container_test.go:101-130 | The same sequence as `CreateService`, on a `Container` object: both calls succeed, and "b"'s instance holds "a"'s. |

## Left out

- The `sync.RWMutex` and the context-key reentrancy marker (container.go:10-11, 55-59) are left out. They only serialise whole request chains across goroutines, so the model is one sequential chain.
- The concurrency test (container_test.go:168-189) is left out: it is only about goroutines.
- `Build`, `TryBuild` and `SetService`, which container_test.go calls, are not in container.go. They are not part of this model. The scenarios use `Get` instead.
- Inject and the cycle-tolerant mode are not modelled, because container.go implements neither.
- Termination of `Get` is proved from the finite size of the builder tree, not from the argument container.go relies on (every nested `Get` that builds inserts a fresh key, so a fixed, finite set of builders can only nest so deep). That argument is not proved here.
- Builders and callbacks are data, not Go closures. A builder's instance is its returned datum plus the instances its nested requests returned. It cannot compute anything else from them. A recursive Go builder is represented by its unrolled, finite call tree.
- Callbacks do not see `ctx`, the container or the instance, and cannot call `Get`.
- A panic inside a builder or a callback is left out. A panic would skip the rollback at line 94 and leave the placeholder in place. Builders request dependencies only through the error-returning `Get`.
- The type assertion is an exact comparison of type tags. Go's assertion to an interface type (satisfied by every implementing type) is not modelled. Nor is a nil result of an interface type `T`: Go stores it as a nil `any`, so every later assertion at container.go:77 fails, whereas `Memoised` returns it as the stored instance.
- `tags` are stored and never interpreted, as in the code. Error texts are structured values (`Circular(name)`, `TypeAssertion`, `Custom(msg)`) rather than formatted strings.
- Go strings are byte strings. The model uses `string` and only compares keys for equality.
