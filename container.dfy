/**
 The container of package godic: a table of service records that `Get`
 updates in place, proved to do what `Protocol.Get` describes.
 */
module Godic {
  import opened Types
  import Protocol

  class Container {
    /** The service records by name (Go `map[string]*service`). */
    var storage: Storage
    /** Every builder and callback this container has invoked, in order. */
    ghost var invocations: seq<Event>

    /** `NewContainer`: a container with an empty table. */
    constructor ()
      ensures storage == map[] && invocations == []
    {
      storage := map[];
      invocations := [];
    }

    /**
     `Get[r.tag](ctx, c, r.name, r.builder, r.tags, r.callbacks)`: the memoised
     instance, a circular-dependency or type-assertion error, or a fresh build
     with rollback on failure; then the first callback when there is no error.
     */
    method Get(r: Request) returns (instance: Value, err: Option<Error>)
      modifies this
      decreases r.builder, 2
      ensures var o := Protocol.Get(old(storage), r);
        && instance == o.instance && err == o.err
        && storage == o.storage
        && invocations == old(invocations) + o.trace
      ensures Protocol.Extends(old(storage), storage)
    {
      ghost var st := storage;
      ghost var acquired := Protocol.Acquire(st, r.name, r.tag, r.builder, r.tags);
      if r.name in storage {
        var s := storage[r.name];
        if !s.isBuild {
          instance, err := Zero(r.tag), Some(Circular(r.name));
        } else if s.instance.tag != r.tag {
          instance, err := Zero(r.tag), Some(TypeAssertion);
        } else {
          instance, err := s.instance, None;
        }
      } else {
        storage := storage[r.name := Service(r.name, Zero(r.tag), false, false, r.tags)];
        invocations := invocations + [BuilderRun(r.name)];
        ghost var run := Protocol.RunSteps(storage, r.tag, r.builder, 0, [], []);
        Protocol.PlaceholderKept(st, r);
        instance, err := RunBuilder(r.tag, r.builder);
        if err.Some? {
          storage := storage - {r.name};
        } else {
          storage := storage[r.name := storage[r.name].(instance := instance, isBuild := true)];
        }
        assert acquired.trace == [BuilderRun(r.name)] + run.trace;
      }
      assert instance == acquired.instance && err == acquired.err && storage == acquired.storage;
      assert invocations == old(invocations) + acquired.trace;
      Protocol.GetExtends(st, r);
      // The deferred block: its loop over the callbacks returns after the first.
      if err.None? && |r.callbacks| > 0 {
        err := Protocol.Verdict(r.callbacks[0]);
        invocations := invocations + [CallbackRun(r.name)];
      }
    }

    /** Invokes builder `b` of a `tag` instance: its nested requests in order, then its return. */
    method RunBuilder(tag: Tag, b: Builder) returns (instance: Value, err: Option<Error>)
      modifies this
      decreases b, 1
      ensures var o := Protocol.RunSteps(old(storage), tag, b, 0, [], []);
        && instance == o.instance && err == o.err
        && storage == o.storage
        && invocations == old(invocations) + o.trace
    {
      var acc: seq<Value> := [];
      ghost var done: seq<Event> := [];
      var i := 0;
      while i < |b.steps|
        invariant i <= |b.steps|
        invariant invocations == old(invocations) + done
        invariant Protocol.RunSteps(old(storage), tag, b, 0, [], []) == Protocol.RunSteps(storage, tag, b, i, acc, done)
      {
        var step := b.steps[i];
        ghost var here := Protocol.RunSteps(storage, tag, b, i, acc, done);
        ghost var o := Protocol.Get(storage, step.request);
        var v, e := Get(step.request);
        done := done + o.trace;
        if e.Some? && step.onError == Propagate {
          instance, err := Zero(tag), e;
          assert here == Outcome(instance, err, storage, done);
          return;
        }
        assert here == Protocol.RunSteps(storage, tag, b, i + 1, acc + [v], done);
        acc := acc + [v];
        i := i + 1;
      }
      instance := Value(tag, b.finish.datum, acc);
      err := if b.finish.Fail? then Some(Custom(b.finish.msg)) else None;
    }

    /** `GetStrict`: `Get`, with every error turned into a panic. */
    method GetStrict(r: Request) returns (s: Strict)
      modifies this
      ensures var o := Protocol.Get(old(storage), r);
        && s == Protocol.StrictOf(o)
        && storage == o.storage
        && invocations == old(invocations) + o.trace
    {
      var instance, err := Get(r);
      if err.Some? {
        s := Panicked(err.value);
      } else {
        s := Returned(instance);
      }
    }
  }
}
