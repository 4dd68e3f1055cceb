/**
 Concrete request chains in the shape of the repository's tests and of the
 behaviour the container is meant to have: memoisation across requests, a
 retried failing build, a dependency cycle, a type mismatch and callbacks.
 */
module Scenarios {
  import opened Types
  import Protocol
  import Godic

  /** `GetA`: the service "a" of type `*A`, built without dependencies. */
  function GetA(): Request
  {
    Request("a", "*A", Builder([], Return(1)), [], [])
  }

  /** `GetB`: the service "b" of type `*B`, whose builder asks for "a" first. */
  function GetB(): Request
  {
    Request("b", "*B", Builder([Step(GetA(), Propagate)], Return(2)), [], [])
  }

  /** `GetBWithError`: a builder for "b" that returns a non-nil `*B` (datum 5) with an error. */
  function GetBWithError(): Request
  {
    Request("b", "*B", Builder([], Fail(5, "error")), [], [])
  }

  /**
   "a", then "b" (which asks for "a" again): each builder runs once, and the
   `*B` holds the very `*A` the first request returned.
   */
  lemma CreateService()
    ensures var o1 := Protocol.Get(map[], GetA());
      var o2 := Protocol.Get(o1.storage, GetB());
      && o1.err == None && o2.err == None
      && o2.instance.deps == [o1.instance]
      && o1.instance != Zero("*A") && o2.instance != Zero("*B")
      && o1.trace == [BuilderRun("a")]
      && o2.trace == [BuilderRun("b")]
  {
    var o1 := Protocol.Get(map[], GetA());
    assert o1.storage == map["a" := Service("a", Value("*A", 1, []), true, false, [])];
    var inner := Protocol.Get(o1.storage["b" := Protocol.Placeholder("b", "*B", [])], GetA());
    assert inner.instance == o1.instance && inner.trace == [];
  }

  /**
   Two requests with a failing builder: both report the builder's error, both
   run the builder, since the first left no record behind, and both return
   the builder's own instance rather than the zero (nil) one.
   */
  lemma CreateServiceWithErr()
    ensures var o1 := Protocol.Get(map[], GetBWithError());
      var o2 := Protocol.Get(o1.storage, GetBWithError());
      && o1.err == Some(Custom("error")) && o2.err == Some(Custom("error"))
      && o1.trace == [BuilderRun("b")] && o2.trace == [BuilderRun("b")]
      && o2.storage == map[]
      && o1.instance == Value("*B", 5, []) && o2.instance == Value("*B", 5, [])
      && o2.instance != Zero("*B")
  {
    var o1 := Protocol.Get(map[], GetBWithError());
    assert o1.storage == map[];
  }

  /** "b" needs "a" and "a" needs "b": the inner request for "b" fails as circular. */
  lemma Cycle()
    ensures var a := Request("a", "*A", Builder([Step(Request("b", "*B", Builder([], Return(2)), [], []), Propagate)], Return(1)), [], []);
      var b := Request("b", "*B", Builder([Step(a, Propagate)], Return(2)), [], []);
      var o := Protocol.Get(map[], b);
      && o.err == Some(Circular("b"))
      && o.storage == map[]
      && o.trace == [BuilderRun("b"), BuilderRun("a")]
  {
    var a := Request("a", "*A", Builder([Step(Request("b", "*B", Builder([], Return(2)), [], []), Propagate)], Return(1)), [], []);
    var st1 := map["b" := Protocol.Placeholder("b", "*B", [])];
    var st2 := st1["a" := Protocol.Placeholder("a", "*A", [])];
    var innermost := Protocol.Get(st2, Request("b", "*B", Builder([], Return(2)), [], []));
    assert innermost.err == Some(Circular("b")) && innermost.storage == st2 && innermost.trace == [];
    var midRun := Protocol.RunSteps(st2, "*A", a.builder, 0, [], []);
    assert midRun == Outcome(Zero("*A"), Some(Circular("b")), st2, []);
    assert st2 - {"a"} == st1;
    var mid := Protocol.Get(st1, a);
    assert mid.err == Some(Circular("b")) && mid.storage == st1 && mid.trace == [BuilderRun("a")];
    var b := Request("b", "*B", Builder([Step(a, Propagate)], Return(2)), [], []);
    var run := Protocol.RunSteps(st1, "*B", b.builder, 0, [], []);
    assert run == Outcome(Zero("*B"), Some(Circular("b")), st1, [BuilderRun("a")]);
    assert st1 - {"b"} == map[];
  }

  /** "x" built as an `int` and then requested as a `string` fails the type assertion. */
  lemma WrongType()
    ensures var o1 := Protocol.Get(map[], Request("x", "int", Builder([], Return(7)), [], []));
      var o2 := Protocol.Get(o1.storage, Request("x", "string", Builder([], Return(8)), [], []));
      && o1.err == None
      && o2.err == Some(TypeAssertion)
      && o2.instance == Zero("string")
      && o2.storage == o1.storage
      && o2.trace == []
  {
  }

  /**
   A failing first callback is the call's error but the record stays built;
   a later request runs only its own first callback, on the memoised value.
   */
  lemma Callbacks()
    ensures var r1 := Request("a", "*A", Builder([], Return(1)), [], [Reject("boom"), Accept]);
      var r2 := Request("a", "*A", Builder([], Return(9)), [], [Accept, Reject("never")]);
      var o1 := Protocol.Get(map[], r1);
      var o2 := Protocol.Get(o1.storage, r2);
      && o1.err == Some(Custom("boom"))
      && o1.storage == map["a" := Service("a", Value("*A", 1, []), true, false, [])]
      && o2.err == None && o2.instance == Value("*A", 1, [])
      && o1.trace == [BuilderRun("a"), CallbackRun("a")]
      && o2.trace == [CallbackRun("a")]
  {
  }

  /** The sequence of `TestCreateService`, on a container object. */
  method TestCreateService() returns (a: Value, b: Value, errA: Option<Error>, errB: Option<Error>)
    ensures errA == None && errB == None
    ensures b.deps == [a]
  {
    var c := new Godic.Container();
    a, errA := c.Get(GetA());
    b, errB := c.Get(GetB());
    CreateService();
  }
}
