/**
 The values the service container of package godic works on: the records of
 its storage table, the requests a caller makes, and the builders and
 callbacks a request carries, written as data rather than as Go closures.
 */
module Types {

  datatype Option<+T> = None | Some(value: T)

  /** The name of the Go type `T` a caller instantiates `Get[T]` with. */
  type Tag = string

  /**
   A type-erased instance (Go `any`) together with its dynamic type. `deps`
   holds the instances the builder obtained from its nested requests, the way
   a `*B` holds the `*A` it was built from.
   */
  datatype Value = Value(tag: Tag, datum: int, deps: seq<Value>)

  /** The zero value of type `tag`. */
  function Zero(tag: Tag): Value
  {
    Value(tag, 0, [])
  }

  /** Errors `Get` reports on its own, plus the ones builders and callbacks return. */
  datatype Error =
    | Circular(name: string)    // "circular dependency detected with service <name>"
    | TypeAssertion             // "unable to assert type"
    | Custom(msg: string)       // an error value returned by a builder or a callback

  /** One entry of `Container.storage` (Go struct `service`). */
  datatype Service = Service(
    name: string,
    instance: Value,
    isBuild: bool,
    hasCircularDependency: bool,
    tags: seq<string>)

  type Storage = map<string, Service>

  /** What a builder does when one of its nested requests reports an error. */
  datatype Policy = Propagate | Ignore

  /** A nested `Get` issued by a builder on the same container. */
  datatype Step = Step(request: Request, onError: Policy)

  /** How a builder finishes once its nested requests are done. */
  datatype Finish = Return(datum: int) | Fail(datum: int, msg: string)

  /** A builder function: nested requests in order, then its own return. */
  datatype Builder = Builder(steps: seq<Step>, finish: Finish)

  /** A post-build callback and the error it returns (Accept for nil). */
  datatype Callback = Accept | Reject(msg: string)

  /** The arguments of one call `Get[tag](ctx, c, name, builder, tags, callbacks)`. */
  datatype Request = Request(
    name: string,
    tag: Tag,
    builder: Builder,
    tags: seq<string>,
    callbacks: seq<Callback>)

  /** Observable side effects of user code: a builder or a callback being invoked. */
  datatype Event = BuilderRun(key: string) | CallbackRun(key: string)

  /** Everything one `Get` produces: its two results, the new table and what it invoked. */
  datatype Outcome = Outcome(
    instance: Value,
    err: Option<Error>,
    storage: Storage,
    trace: seq<Event>)

  /** The outcome of `GetStrict`: its instance, or the error it panics with. */
  datatype Strict = Returned(instance: Value) | Panicked(err: Error)
}
