/**
 The acquire protocol of `Get` in container.go, as functions from the table
 before a call to everything the call produces. `Get` runs the deferred
 callback block over `Acquire`; `Acquire` is the lookup (memoised value,
 circular dependency, failed type assertion) or, for a key with no record,
 the placeholder insert, the builder run by `RunSteps`, and then either the
 rollback or the promotion of the record to built.
 */
module Protocol {
  import opened Types

  /**
   `st'` is a table `st` can evolve into: no existing record is changed or
   removed, and every record added is built, filed under its own name and
   not marked circular.
   */
  ghost predicate Extends(st: Storage, st': Storage)
  {
    && (forall k :: k in st ==> k in st' && st'[k] == st[k])
    && (forall k :: k in st' && k !in st ==>
          st'[k].isBuild && st'[k].name == k && !st'[k].hasCircularDependency)
  }

  /** No record in the table is under construction. */
  ghost predicate AllBuilt(st: Storage)
  {
    forall k :: k in st ==> st[k].isBuild
  }

  /**
   The record inserted for `name` before its builder runs: filed under its
   own name with the given tags, and, until it is promoted, every lookup of
   it reports a circular dependency on `name`, whatever type is asked for.
   */
  function Placeholder(name: string, tag: Tag, tags: seq<string>): (p: Service)
    ensures p.name == name && p.tags == tags && !p.hasCircularDependency
    ensures forall t: Tag :: Lookup(p, name, t) == (Zero(t), Some(Circular(name)))
  {
    Service(name, Zero(tag), false, false, tags)
  }

  /** What a lookup of an existing record for `name` as type `tag` returns. */
  function Lookup(s: Service, name: string, tag: Tag): (r: (Value, Option<Error>))
    ensures r.0.tag == tag
    ensures r.1.None? <==> s.isBuild && s.instance.tag == tag
    ensures r.1.None? ==> r.0 == s.instance
    ensures r.1.Some? ==> r.0 == Zero(tag)
    ensures r.1 == Some(Circular(name)) <==> !s.isBuild
  {
    if !s.isBuild then (Zero(tag), Some(Circular(name)))
    else if s.instance.tag != tag then (Zero(tag), Some(TypeAssertion))
    else (s.instance, None)
  }

  /** The error a callback returns. */
  function Verdict(c: Callback): Option<Error>
  {
    match c
    case Accept => None
    case Reject(msg) => Some(Custom(msg))
  }

  /** The first `n` callbacks, or all of them when there are fewer. */
  function Take(cbs: seq<Callback>, n: nat): seq<Callback>
  {
    if |cbs| <= n then cbs else cbs[..n]
  }

  /**
   The deferred block: when the call is about to return no error and some
   callbacks were given, the first one runs and its error becomes the call's
   error. The loop over the callbacks returns in its first iteration, so no
   later callback ever runs.
   */
  function Deferred(o: Outcome, name: string, cbs: seq<Callback>): (d: Outcome)
    ensures d.instance == o.instance && d.storage == o.storage
    ensures d.err.None? <==> o.err.None? && (|cbs| == 0 || cbs[0].Accept?)
    ensures o.err.Some? ==> d == o
    ensures o.err.None? && |cbs| > 0 ==> d.err == Verdict(cbs[0]) && d.trace == o.trace + [CallbackRun(name)]
    ensures |o.trace| <= |d.trace| <= |o.trace| + 1 && d.trace[..|o.trace|] == o.trace
  {
    if o.err.None? && |cbs| > 0 then
      o.(err := Verdict(cbs[0]), trace := o.trace + [CallbackRun(name)])
    else
      o
  }

  /** One call `Get[r.tag](ctx, c, r.name, r.builder, r.tags, r.callbacks)` on table `st`. */
  function Get(st: Storage, r: Request): (o: Outcome)
    decreases r.builder, 2
    ensures o.instance.tag == r.tag
  {
    Deferred(Acquire(st, r.name, r.tag, r.builder, r.tags), r.name, r.callbacks)
  }

  /** The body of `Get` without its deferred callback block. */
  function Acquire(st: Storage, name: string, tag: Tag, b: Builder, tags: seq<string>): (o: Outcome)
    decreases b, 1
    ensures o.instance.tag == tag
  {
    if name in st then
      var (v, e) := Lookup(st[name], name, tag);
      Outcome(v, e, st, [])
    else
      var run := RunSteps(st[name := Placeholder(name, tag, tags)], tag, b, 0, [], []);
      var trace := [BuilderRun(name)] + run.trace;
      if run.err.Some? then
        Outcome(run.instance, run.err, run.storage - {name}, trace)
      else
        // The builder leaves the placeholder as it was (StepsExtend), so
        // setting its instance and its built flag gives this record.
        var built := Placeholder(name, tag, tags).(instance := run.instance, isBuild := true);
        Outcome(run.instance, None, run.storage[name := built], trace)
  }

  /**
   The builder `b` of a `tag` instance, from its step `i` on, on table `st`,
   with `acc` the instances its earlier steps obtained and `log` what they
   invoked. A propagated nested error makes the builder return the zero value
   with that error.
   */
  function RunSteps(st: Storage, tag: Tag, b: Builder, i: nat, acc: seq<Value>, log: seq<Event>): (o: Outcome)
    requires i <= |b.steps|
    decreases b, 0, |b.steps| - i
    ensures o.instance.tag == tag
  {
    if i == |b.steps| then
      match b.finish
      case Return(d) => Outcome(Value(tag, d, acc), None, st, log)
      case Fail(d, msg) => Outcome(Value(tag, d, acc), Some(Custom(msg)), st, log)
    else
      var step := b.steps[i];
      var o := Get(st, step.request);
      if o.err.Some? && step.onError == Propagate then
        Outcome(Zero(tag), o.err, o.storage, log + o.trace)
      else
        RunSteps(o.storage, tag, b, i + 1, acc + [o.instance], log + o.trace)
  }

  /** `GetStrict`: the instance of `Get`, or a panic with its error. */
  function StrictOf(o: Outcome): (s: Strict)
    ensures s.Returned? <==> o.err.None?
    ensures s.Returned? ==> s.instance == o.instance
    ensures s.Panicked? ==> o.err == Some(s.err)
  {
    if o.err.None? then Returned(o.instance) else Panicked(o.err.value)
  }

  // ---------------------------------------------------------------------
  // What a call can do to the table

  /**
   A call changes no record that existed before it and adds only built
   records; when it reports no error, the requested key holds a built record
   with the returned instance.
   */
  lemma {:induction false} GetExtends(st: Storage, r: Request)
    decreases r.builder, 2
    ensures Extends(st, Get(st, r).storage)
    ensures Get(st, r).err.None? ==>
      var o := Get(st, r);
      r.name in o.storage && o.storage[r.name].isBuild && o.storage[r.name].instance == o.instance
  {
    AcquireExtends(st, r.name, r.tag, r.builder, r.tags);
  }

  lemma {:induction false} AcquireExtends(st: Storage, name: string, tag: Tag, b: Builder, tags: seq<string>)
    decreases b, 1
    ensures Extends(st, Acquire(st, name, tag, b, tags).storage)
    ensures Acquire(st, name, tag, b, tags).err.None? ==>
      var o := Acquire(st, name, tag, b, tags);
      name in o.storage && o.storage[name].isBuild && o.storage[name].instance == o.instance
  {
    if name !in st {
      StepsExtend(st[name := Placeholder(name, tag, tags)], tag, b, 0, [], []);
    }
  }

  /** A builder run changes no record that existed before it and adds only built records. */
  lemma {:induction false} StepsExtend(st: Storage, tag: Tag, b: Builder, i: nat, acc: seq<Value>, log: seq<Event>)
    requires i <= |b.steps|
    decreases b, 0, |b.steps| - i
    ensures Extends(st, RunSteps(st, tag, b, i, acc, log).storage)
  {
    if i < |b.steps| {
      var step := b.steps[i];
      var o := Get(st, step.request);
      GetExtends(st, step.request);
      if !(o.err.Some? && step.onError == Propagate) {
        StepsExtend(o.storage, tag, b, i + 1, acc + [o.instance], log + o.trace);
      }
    }
  }

  /** The placeholder of a key stays in place while its builder runs. */
  lemma PlaceholderKept(st: Storage, r: Request)
    requires r.name !in st
    ensures var st1 := st[r.name := Placeholder(r.name, r.tag, r.tags)];
      var run := RunSteps(st1, r.tag, r.builder, 0, [], []);
      r.name in run.storage && run.storage[r.name] == Placeholder(r.name, r.tag, r.tags)
  {
    StepsExtend(st[r.name := Placeholder(r.name, r.tag, r.tags)], r.tag, r.builder, 0, [], []);
  }

  // ---------------------------------------------------------------------
  // Lookups of an existing record

  /** A built record of the requested type is returned as is; no builder runs. */
  lemma Memoised(st: Storage, r: Request)
    requires r.name in st && st[r.name].isBuild && st[r.name].instance.tag == r.tag
    ensures Get(st, r).instance == st[r.name].instance
    ensures Get(st, r).storage == st
    ensures Get(st, r).err == if |r.callbacks| > 0 then Verdict(r.callbacks[0]) else None
    ensures Get(st, r).trace == if |r.callbacks| > 0 then [CallbackRun(r.name)] else []
  {
  }

  /** A record still under construction makes any request for it circular. */
  lemma CycleDetected(st: Storage, r: Request)
    requires r.name in st && !st[r.name].isBuild
    ensures Get(st, r) == Outcome(Zero(r.tag), Some(Circular(r.name)), st, [])
  {
  }

  /** A built record of another type fails the type assertion. */
  lemma TypeMismatch(st: Storage, r: Request)
    requires r.name in st && st[r.name].isBuild && st[r.name].instance.tag != r.tag
    ensures Get(st, r) == Outcome(Zero(r.tag), Some(TypeAssertion), st, [])
  {
  }

  // ---------------------------------------------------------------------
  // Fresh builds

  /**
   For a key with no record, the call either leaves no record for the key
   and reports an error, or leaves it built with the returned instance and
   the tags given. The call returns the builder's instance, and when the
   builder succeeds the record is promoted to built with that instance; the
   call then reports no error unless its first callback rejects.
   */
  lemma FreshBuild(st: Storage, r: Request)
    requires r.name !in st
    ensures var o := Get(st, r);
      && (r.name !in o.storage ==> o.err.Some?)
      && (r.name in o.storage ==>
            o.storage[r.name] == Service(r.name, o.instance, true, false, r.tags))
    ensures var run := RunSteps(st[r.name := Placeholder(r.name, r.tag, r.tags)], r.tag, r.builder, 0, [], []);
      var o := Get(st, r);
      && o.instance == run.instance
      && (run.err.None? ==>
            && o.storage == run.storage[r.name := Service(r.name, run.instance, true, false, r.tags)]
            && (o.err.None? <==> |r.callbacks| == 0 || r.callbacks[0].Accept?))
  {
  }

  /**
   When the builder fails only the requested key is removed again: the table
   is the one the builder left, less that key, so the records built by its
   nested requests stay.
   */
  lemma Rollback(st: Storage, r: Request)
    requires r.name !in st
    requires RunSteps(st[r.name := Placeholder(r.name, r.tag, r.tags)], r.tag, r.builder, 0, [], []).err.Some?
    ensures var run := RunSteps(st[r.name := Placeholder(r.name, r.tag, r.tags)], r.tag, r.builder, 0, [], []);
      var o := Get(st, r);
      && r.name !in o.storage
      && o.err == run.err && o.instance == run.instance
      && o.storage == run.storage - {r.name}
  {
  }

  /**
   The builders a call invokes are those of keys that had no record when the
   call began; in particular a built record is never rebuilt.
   */
  lemma {:induction false} BuildsOnlyAbsent(st: Storage, r: Request)
    decreases r.builder, 2
    ensures forall k :: BuilderRun(k) in Get(st, r).trace ==> k !in st
  {
    AcquireBuildsOnlyAbsent(st, r.name, r.tag, r.builder, r.tags);
  }

  lemma {:induction false} AcquireBuildsOnlyAbsent(st: Storage, name: string, tag: Tag, b: Builder, tags: seq<string>)
    decreases b, 1
    ensures forall k :: BuilderRun(k) in Acquire(st, name, tag, b, tags).trace ==> k !in st
  {
    if name !in st {
      StepsBuildOnlyAbsent(st[name := Placeholder(name, tag, tags)], tag, b, 0, [], []);
    }
  }

  lemma {:induction false} StepsBuildOnlyAbsent(st: Storage, tag: Tag, b: Builder, i: nat, acc: seq<Value>, log: seq<Event>)
    requires i <= |b.steps|
    decreases b, 0, |b.steps| - i
    ensures forall k :: BuilderRun(k) in RunSteps(st, tag, b, i, acc, log).trace ==>
      BuilderRun(k) in log || k !in st
  {
    if i < |b.steps| {
      var step := b.steps[i];
      var o := Get(st, step.request);
      BuildsOnlyAbsent(st, step.request);
      GetExtends(st, step.request);
      if !(o.err.Some? && step.onError == Propagate) {
        StepsBuildOnlyAbsent(o.storage, tag, b, i + 1, acc + [o.instance], log + o.trace);
      }
    }
  }

  /**
   For a key with no record the call runs its builder first, and does not
   enter that builder again: while it runs, every nested request for the key
   meets the placeholder and fails as circular.
   */
  lemma NotReentered(st: Storage, r: Request)
    requires r.name !in st
    ensures var t := Get(st, r).trace;
      |t| > 0 && t[0] == BuilderRun(r.name) && BuilderRun(r.name) !in t[1..]
  {
    var st1 := st[r.name := Placeholder(r.name, r.tag, r.tags)];
    var run := RunSteps(st1, r.tag, r.builder, 0, [], []);
    StepsBuildOnlyAbsent(st1, r.tag, r.builder, 0, [], []);
    var a := Acquire(st, r.name, r.tag, r.builder, r.tags);
    assert a.trace == [BuilderRun(r.name)] + run.trace;
    var t := Get(st, r).trace;
    assert t == a.trace || t == a.trace + [CallbackRun(r.name)];
    assert t[1..] == run.trace || t[1..] == run.trace + [CallbackRun(r.name)];
  }

  /**
   A circular-dependency error is reported only for a key that really was
   under construction: one that was already building when the call began,
   or one whose builder this call started.
   */
  lemma {:induction false} CircularIsGenuine(st: Storage, r: Request, k: string)
    decreases r.builder, 2
    ensures Get(st, r).err == Some(Circular(k)) ==>
      (k in st && !st[k].isBuild) || BuilderRun(k) in Get(st, r).trace
  {
    AcquireCircularIsGenuine(st, r.name, r.tag, r.builder, r.tags, k);
  }

  lemma {:induction false} AcquireCircularIsGenuine(st: Storage, name: string, tag: Tag, b: Builder, tags: seq<string>, k: string)
    decreases b, 1
    ensures Acquire(st, name, tag, b, tags).err == Some(Circular(k)) ==>
      (k in st && !st[k].isBuild) || BuilderRun(k) in Acquire(st, name, tag, b, tags).trace
  {
    if name !in st {
      StepsCircularIsGenuine(st[name := Placeholder(name, tag, tags)], tag, b, 0, [], [], k);
    }
  }

  lemma {:induction false} StepsCircularIsGenuine(st: Storage, tag: Tag, b: Builder, i: nat, acc: seq<Value>, log: seq<Event>, k: string)
    requires i <= |b.steps|
    decreases b, 0, |b.steps| - i
    ensures RunSteps(st, tag, b, i, acc, log).err == Some(Circular(k)) ==>
      (k in st && !st[k].isBuild) || BuilderRun(k) in RunSteps(st, tag, b, i, acc, log).trace
  {
    if i < |b.steps| {
      var step := b.steps[i];
      var o := Get(st, step.request);
      CircularIsGenuine(st, step.request, k);
      GetExtends(st, step.request);
      if !(o.err.Some? && step.onError == Propagate) {
        StepsCircularIsGenuine(o.storage, tag, b, i + 1, acc + [o.instance], log + o.trace, k);
      }
    }
  }

  /**
   Between top-level calls no record is under construction, so a circular
   error there always names a key on the call's own build chain.
   */
  lemma TopLevelCycle(st: Storage, r: Request, k: string)
    requires AllBuilt(st)
    ensures AllBuilt(Get(st, r).storage)
    ensures Get(st, r).err == Some(Circular(k)) ==> BuilderRun(k) in Get(st, r).trace
  {
    CircularIsGenuine(st, r, k);
    GetExtends(st, r);
  }

  // ---------------------------------------------------------------------
  // Repeated requests

  /**
   After a request that left its key built (a success, or a build whose first
   callback rejected, since the record is promoted before the callback runs),
   a later request for the same key and type returns the identical instance,
   leaves the table alone and runs no builder.
   */
  lemma BuiltOnce(st: Storage, r1: Request, r2: Request)
    requires var o1 := Get(st, r1); r1.name in o1.storage && o1.storage[r1.name].isBuild
    requires r2.name == r1.name && r2.tag == r1.tag
    ensures var o1 := Get(st, r1); var o2 := Get(o1.storage, r2);
      && o2.instance == o1.instance
      && o2.storage == o1.storage
      && BuilderRun(r1.name) !in o2.trace
  {
  }

  /**
   After a request whose build failed, the key has no record, so the next
   request for it runs its builder again.
   */
  lemma RetryAfterFailure(st: Storage, r1: Request, r2: Request)
    requires r1.name !in Get(st, r1).storage
    requires r2.name == r1.name
    ensures Get(st, r1).err.Some?
    ensures var o2 := Get(Get(st, r1).storage, r2); |o2.trace| > 0 && o2.trace[0] == BuilderRun(r1.name)
  {
  }

  // ---------------------------------------------------------------------
  // Callbacks

  /**
   Relative to the same request without callbacks, callbacks change only the
   error and the trace: the first one runs when and only when there was no
   error, its error becomes the result, and the record stays built.
   */
  lemma CallbackEffect(st: Storage, r: Request)
    ensures var o := Get(st, r); var plain := Get(st, r.(callbacks := []));
      && o.instance == plain.instance
      && o.storage == plain.storage
      && (plain.err.None? && |r.callbacks| > 0 ==>
            o.err == Verdict(r.callbacks[0]) && o.trace == plain.trace + [CallbackRun(r.name)])
      && (plain.err.Some? || |r.callbacks| == 0 ==> o == plain)
  {
  }

  /** Only the first callback can matter. */
  lemma OnlyFirstCallback(st: Storage, r: Request)
    ensures Get(st, r) == Get(st, r.(callbacks := Take(r.callbacks, 1)))
  {
  }

  // ---------------------------------------------------------------------
  // GetStrict

  /**
   A `GetStrict` that returns hands back the instance the table now holds,
   built, under the requested key; and the table it leaves, returning or
   panicking, only extends the one it started from.
   */
  lemma {:induction false} StrictAgrees(st: Storage, r: Request)
    ensures var o := Get(st, r); var s := StrictOf(o);
      && Extends(st, o.storage)
      && (s.Returned? ==>
            r.name in o.storage && o.storage[r.name].isBuild && o.storage[r.name].instance == s.instance)
  {
    GetExtends(st, r);
  }
}
