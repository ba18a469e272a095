/**
  Client scenarios from the emitter's test suite, stated against the
  contracts of `Emitter` alone. Listener and handler references are small
  numbers; a spy never throws, and `Thrower` is a listener that always does.
 */
module EmitterScenarios {
  import opened EventEmitter

  const Thrower: ListenerId := 9

  /** Which listeners throw in these scenarios. */
  predicate Fails(l: ListenerId) { l == Thrower }

  /** A listener on 'test' is called once with ('hello', 'test'). */
  method Basic() returns (trace: seq<Effect<string>>)
    ensures trace == [Call(1, "hello", "test")]
  {
    var e := new Emitter(None);
    e.On(Some("test"), 1);
    trace := e.Emit("test", "hello", l => false);
    assert Called(trace) == [1];
  }

  /** A listener on another name is not called; both listeners of the emitted name are, in registration order. */
  method MultipleListeners() returns (trace: seq<Effect<int>>)
    ensures Called(trace) == [1, 3]
    ensures CarriesArguments(trace, 42, "hello-world")
  {
    var e := new Emitter(None);
    e.On(Some("hello-world"), 1);
    e.On(Some("hello-world1"), 2);
    e.On(Some("hello-world"), 3);
    trace := e.Emit("hello-world", 42, l => false);
  }

  /**
    A listener registered twice that throws does not stop the listener after it;
    with `onError` configured, the handler is called once per failing call.
   */
  method SomeThrow(withHandler: bool) returns (trace: seq<Effect<int>>)
    ensures Called(trace) == [Thrower, Thrower, 3]
    ensures |Reported(trace)| == if withHandler then 2 else 0
  {
    var options := if withHandler then Some(Options(Some(Callable(7)))) else None;
    var e := new Emitter(options);
    e.On(Some("hello-world"), Thrower);
    e.On(Some("hello-world"), Thrower);
    e.On(Some("hello-world"), 3);
    trace := e.Emit("hello-world", 42, Fails);
    assert [Thrower, Thrower, 3][1..] == [Thrower, 3] && [Thrower, 3][1..] == [3];
    assert Throwing([3], Fails) == [];
    assert Throwing([Thrower, Thrower, 3], Fails) == [Thrower, Thrower];
  }

  /** A wildcard listener is called for every emitted name, with that name. */
  method ListenAll() returns (t1: seq<Effect<int>>, t2: seq<Effect<int>>)
    ensures t1 == [Call(1, 10, "hello-world")]
    ensures t2 == [Call(1, 20, "hello-world1")]
  {
    var e := new Emitter(None);
    e.On(None, 1);
    t1 := e.Emit("hello-world", 10, l => false);
    t2 := e.Emit("hello-world1", 20, l => false);
  }

  /** Removing the second of three listeners leaves the first and third, in order. */
  method RemovesTheCorrectOne() returns (trace: seq<Effect<int>>)
    ensures Called(trace) == [1, 3]
  {
    var e := new Emitter(None);
    e.On(Some("hello-world"), 1);
    e.On(Some("hello-world"), 2);
    e.Off(Some("hello-world"), 2);
    e.On(Some("hello-world"), 3);
    trace := e.Emit("hello-world", 42, l => false);
    assert RemoveFirst([1, 2], 2) == [1];
  }

  /** After `off(null, 1)`, only the other wildcard listener is called. */
  method UnlistenAll() returns (trace: seq<Effect<int>>)
    ensures Called(trace) == [2]
  {
    var e := new Emitter(None);
    e.On(None, 1);
    e.On(None, 2);
    e.Off(None, 1);
    trace := e.Emit("hello-world", 42, l => false);
  }
}
