/**
  A synchronous event emitter. An emitter keeps a table from event name to
  the ordered list of listeners registered for that name; the reserved key
  AllEventsName is the wildcard channel, which receives every event. `On`
  appends a listener, `Off` removes the first identical entry, and `Emit`
  calls the exact-name list and then the wildcard list, routing every
  failure of a listener to the optional error handler.

  Listeners and error handlers are opaque references compared by identity;
  whether a listener throws is a predicate given to dispatch, and the
  effect of a dispatch is the trace of calls it makes.
 */
module EventEmitter {

  datatype Option<T> = None | Some(value: T)

  /** A listener reference; equality stands for the identity comparison `===`. */
  type ListenerId = nat

  /** A reference to an error handler. */
  type HandlerId = nat

  /** The reserved key under which wildcard listeners are stored. */
  const AllEventsName: string := "_all_"

  /** A truthy value given as `onError`: a function, or something that is not one. */
  datatype ErrorOption = Callable(handler: HandlerId) | NotCallable

  /** The constructor's options object; `None` stands for an absent or falsy `onError`. */
  datatype Options = Options(onError: Option<ErrorOption>)

  /** One observable step of a dispatch. */
  datatype Effect<D> =
    | Call(listener: ListenerId, data: D, eventName: string)
    | HandleError(handler: HandlerId, culprit: ListenerId)

  /** The `_events` table. */
  type Table = map<string, seq<ListenerId>>

  // ---------------------------------------------------------------------------
  // The listener table

  /** The key an event name is stored under: `null` means the wildcard channel. */
  function KeyOf(eventName: Option<string>): string
  {
    if eventName.None? then AllEventsName else eventName.value
  }

  /** The list stored under `key`, or no listeners when the key is absent. */
  function Listeners(table: Table, key: string): seq<ListenerId>
  {
    if key in table then table[key] else []
  }

  /** `s` without its first entry identical to `fn`. */
  function RemoveFirst(s: seq<ListenerId>, fn: ListenerId): (r: seq<ListenerId>)
    ensures fn !in s ==> r == s
    ensures fn in s ==> |r| == |s| - 1
    ensures multiset(r) == multiset(s) - multiset{fn}
  {
    if s == [] then []
    else
      assert s == [s[0]] + s[1..];
      if s[0] == fn then s[1..] else [s[0]] + RemoveFirst(s[1..], fn)
  }

  /**
    Removal takes out exactly the entry at the first position holding `fn`;
    the entries before and after it keep their relative order.
   */
  lemma {:induction false} RemoveFirstAt(s: seq<ListenerId>, fn: ListenerId, i: nat)
    requires i < |s| && s[i] == fn && fn !in s[..i]
    ensures RemoveFirst(s, fn) == s[..i] + s[i + 1..]
  {
    if i == 0 {
      assert s[..0] + s[1..] == s[1..];
    } else {
      var tail := s[1..];
      assert s[0] == s[..i][0];
      assert s[0] != fn;
      assert tail[..i - 1] == s[1..i];
      assert fn !in tail[..i - 1] by {
        assert s[..i] == [s[0]] + tail[..i - 1];
      }
      RemoveFirstAt(tail, fn, i - 1);
      assert RemoveFirst(s, fn) == [s[0]] + RemoveFirst(tail, fn);
      assert tail[i..] == s[i + 1..];
      assert s[..i] == [s[0]] + tail[..i - 1];
    }
  }

  /** The table after `on(key, fn)`: the key is created with an empty list if absent, then `fn` is pushed. */
  function Register(table: Table, key: string, fn: ListenerId): (r: Table)
    ensures r.Keys == table.Keys + {key}
    ensures Listeners(r, key) == Listeners(table, key) + [fn]
    ensures forall k :: k != key ==> Listeners(r, k) == Listeners(table, k)
  {
    var created := if key in table then table else table[key := []];
    created[key := created[key] + [fn]]
  }

  /** The table after `off(key, fn)`: only an existing key's list changes, losing its first `fn`. */
  function Unregister(table: Table, key: string, fn: ListenerId): (r: Table)
    ensures r.Keys == table.Keys
    ensures Listeners(r, key) == RemoveFirst(Listeners(table, key), fn)
    ensures fn !in Listeners(table, key) ==> r == table
    ensures forall k :: k != key ==> Listeners(r, k) == Listeners(table, k)
  {
    if key in table then table[key := RemoveFirst(table[key], fn)] else table
  }

  /** `on(null, fn)` and `on('_all_', fn)` give the same table; so do the two forms of `off`. */
  lemma NullIsWildcard(table: Table, fn: ListenerId)
    ensures Register(table, KeyOf(None), fn) == Register(table, KeyOf(Some(AllEventsName)), fn)
    ensures Unregister(table, KeyOf(None), fn) == Unregister(table, KeyOf(Some(AllEventsName)), fn)
  {
  }

  /** Removing a reference just pushed onto a list that did not hold it gives the list back. */
  lemma RemoveFirstOfPushed(s: seq<ListenerId>, fn: ListenerId)
    requires fn !in s
    ensures RemoveFirst(s + [fn], fn) == s
  {
    assert (s + [fn])[..|s|] == s;
    RemoveFirstAt(s + [fn], fn, |s|);
  }

  /** Removing a listener right after adding it restores every list; the key stays, possibly empty. */
  lemma RegisterThenUnregister(table: Table, key: string, fn: ListenerId)
    requires fn !in Listeners(table, key)
    ensures Unregister(Register(table, key, fn), key, fn) == table[key := Listeners(table, key)]
  {
    var s := Listeners(table, key);
    var r := Register(table, key, fn);
    RemoveFirstOfPushed(s, fn);
    var u := Unregister(r, key, fn);
    assert u == r[key := s];
    assert u.Keys == table[key := s].Keys;
    forall k | k in u ensures u[k] == table[key := s][k] {
      if k != key {
        assert Listeners(r, k) == Listeners(table, k);
      }
    }
  }

  // ---------------------------------------------------------------------------
  // Dispatch, as the trace of effects it produces

  /** Calling one listener with `(data, eventName)`, and reporting its failure to the handler if there is one. */
  function Attempt<D>(listener: ListenerId, eventName: string, data: D,
                      throws: ListenerId -> bool, handler: Option<HandlerId>): seq<Effect<D>>
  {
    [Call(listener, data, eventName)]
      + if throws(listener) && handler.Some? then [HandleError(handler.value, listener)] else []
  }

  /** `fireEvents`: every listener of `list` is attempted in order. */
  function FirePhase<D>(list: seq<ListenerId>, eventName: string, data: D,
                        throws: ListenerId -> bool, handler: Option<HandlerId>): seq<Effect<D>>
  {
    if list == [] then []
    else Attempt(list[0], eventName, data, throws, handler) + FirePhase(list[1..], eventName, data, throws, handler)
  }

  /** `_emit`: the exact-name phase, then the wildcard phase, both called with the real event name. */
  function EmitTrace<D>(table: Table, eventName: string, data: D,
                        throws: ListenerId -> bool, handler: Option<HandlerId>): seq<Effect<D>>
  {
    FirePhase(Listeners(table, eventName), eventName, data, throws, handler)
      + FirePhase(Listeners(table, AllEventsName), eventName, data, throws, handler)
  }

  /** The listeners a trace calls, in order. */
  function Called<D>(trace: seq<Effect<D>>): seq<ListenerId>
  {
    if trace == [] then []
    else (if trace[0].Call? then [trace[0].listener] else []) + Called(trace[1..])
  }

  /** The failing listeners a trace reports to the error handler, in order. */
  function Reported<D>(trace: seq<Effect<D>>): seq<ListenerId>
  {
    if trace == [] then []
    else (if trace[0].HandleError? then [trace[0].culprit] else []) + Reported(trace[1..])
  }

  /** The entries of `list` that throw, in order. */
  function Throwing(list: seq<ListenerId>, throws: ListenerId -> bool): seq<ListenerId>
  {
    if list == [] then []
    else (if throws(list[0]) then [list[0]] else []) + Throwing(list[1..], throws)
  }

  /** Every call in the trace passes `(data, eventName)`. */
  ghost predicate CarriesArguments<D>(trace: seq<Effect<D>>, data: D, eventName: string)
  {
    forall e :: e in trace && e.Call? ==> e.data == data && e.eventName == eventName
  }

  /** Every handler call goes to the configured handler, right after the call of a listener that threw. */
  ghost predicate ReportsFollowCalls<D>(trace: seq<Effect<D>>, throws: ListenerId -> bool, handler: Option<HandlerId>)
  {
    forall i :: 0 <= i < |trace| && trace[i].HandleError? ==>
      && handler == Some(trace[i].handler)
      && throws(trace[i].culprit)
      && 0 < i && trace[i - 1].Call? && trace[i - 1].listener == trace[i].culprit
  }

  lemma {:induction false} CalledAppend<D>(a: seq<Effect<D>>, b: seq<Effect<D>>)
    ensures Called(a + b) == Called(a) + Called(b)
  {
    if a != [] {
      assert (a + b)[1..] == a[1..] + b;
      CalledAppend(a[1..], b);
    } else {
      assert a + b == b;
    }
  }

  lemma {:induction false} ReportedAppend<D>(a: seq<Effect<D>>, b: seq<Effect<D>>)
    ensures Reported(a + b) == Reported(a) + Reported(b)
  {
    if a != [] {
      assert (a + b)[1..] == a[1..] + b;
      ReportedAppend(a[1..], b);
    } else {
      assert a + b == b;
    }
  }

  lemma {:induction false} ThrowingAppend(a: seq<ListenerId>, b: seq<ListenerId>, throws: ListenerId -> bool)
    ensures Throwing(a + b, throws) == Throwing(a, throws) + Throwing(b, throws)
  {
    if a != [] {
      assert (a + b)[1..] == a[1..] + b;
      ThrowingAppend(a[1..], b, throws);
    } else {
      assert a + b == b;
    }
  }

  /** Firing a list in two pieces is firing it at once: the loop of `fireEvents` builds the trace one entry at a time. */
  lemma {:induction false} FirePhaseAppend<D>(a: seq<ListenerId>, b: seq<ListenerId>, eventName: string, data: D,
                                              throws: ListenerId -> bool, handler: Option<HandlerId>)
    ensures FirePhase(a + b, eventName, data, throws, handler)
         == FirePhase(a, eventName, data, throws, handler) + FirePhase(b, eventName, data, throws, handler)
  {
    if a != [] {
      assert (a + b)[1..] == a[1..] + b;
      FirePhaseAppend(a[1..], b, eventName, data, throws, handler);
    } else {
      assert a + b == b;
    }
  }

  /** A phase calls exactly the entries of its list, each once and in list order, whatever throws. */
  lemma {:induction false} PhaseCalls<D>(list: seq<ListenerId>, eventName: string, data: D,
                                         throws: ListenerId -> bool, handler: Option<HandlerId>)
    ensures Called(FirePhase(list, eventName, data, throws, handler)) == list
  {
    if list != [] {
      var attempt := Attempt(list[0], eventName, data, throws, handler);
      CalledAppend(attempt, FirePhase(list[1..], eventName, data, throws, handler));
      PhaseCalls(list[1..], eventName, data, throws, handler);
      assert Called(attempt) == [list[0]];
    }
  }

  /** A phase reports each throwing entry once, in order, when a handler is configured, and nothing otherwise. */
  lemma {:induction false} PhaseReports<D>(list: seq<ListenerId>, eventName: string, data: D,
                                           throws: ListenerId -> bool, handler: Option<HandlerId>)
    ensures Reported(FirePhase(list, eventName, data, throws, handler))
         == if handler.Some? then Throwing(list, throws) else []
  {
    if list != [] {
      var attempt := Attempt(list[0], eventName, data, throws, handler);
      ReportedAppend(attempt, FirePhase(list[1..], eventName, data, throws, handler));
      PhaseReports(list[1..], eventName, data, throws, handler);
      assert Reported(attempt) == if throws(list[0]) && handler.Some? then [list[0]] else [];
    }
  }

  /** Every call of a phase passes `(data, eventName)`. */
  lemma {:induction false} PhaseArguments<D>(list: seq<ListenerId>, eventName: string, data: D,
                                             throws: ListenerId -> bool, handler: Option<HandlerId>)
    ensures CarriesArguments(FirePhase(list, eventName, data, throws, handler), data, eventName)
  {
    if list != [] {
      PhaseArguments(list[1..], eventName, data, throws, handler);
    }
  }

  /** In a phase, a failure is reported to the configured handler immediately after the call that threw. */
  lemma {:induction false} PhaseReportsFollowCalls<D>(list: seq<ListenerId>, eventName: string, data: D,
                                                      throws: ListenerId -> bool, handler: Option<HandlerId>)
    ensures ReportsFollowCalls(FirePhase(list, eventName, data, throws, handler), throws, handler)
  {
    if list != [] {
      var attempt := Attempt(list[0], eventName, data, throws, handler);
      var rest := FirePhase(list[1..], eventName, data, throws, handler);
      PhaseReportsFollowCalls(list[1..], eventName, data, throws, handler);
      ReportsFollowCallsAppend(attempt, rest, throws, handler);
    }
  }

  /** Gluing two traces keeps reports next to their calls, because neither trace starts with a report. */
  lemma ReportsFollowCallsAppend<D>(a: seq<Effect<D>>, b: seq<Effect<D>>,
                                    throws: ListenerId -> bool, handler: Option<HandlerId>)
    requires ReportsFollowCalls(a, throws, handler) && ReportsFollowCalls(b, throws, handler)
    ensures ReportsFollowCalls(a + b, throws, handler)
  {
    var t := a + b;
    forall i | 0 <= i < |t| && t[i].HandleError?
      ensures handler == Some(t[i].handler) && throws(t[i].culprit)
      ensures 0 < i && t[i - 1].Call? && t[i - 1].listener == t[i].culprit
    {
      if i < |a| {
        assert t[i] == a[i] && t[i - 1] == a[i - 1];
      } else {
        var j := i - |a|;
        assert t[i] == b[j];
        if j == 0 {
          assert false;
        }
        assert t[i - 1] == b[j - 1];
      }
    }
  }

  /** `_emit` calls the exact-name list, then the wildcard list, each in list order, whatever throws. */
  lemma EmitCalls<D>(table: Table, eventName: string, data: D,
                     throws: ListenerId -> bool, handler: Option<HandlerId>)
    ensures Called(EmitTrace(table, eventName, data, throws, handler))
         == Listeners(table, eventName) + Listeners(table, AllEventsName)
  {
    var exact := FirePhase(Listeners(table, eventName), eventName, data, throws, handler);
    var wild := FirePhase(Listeners(table, AllEventsName), eventName, data, throws, handler);
    CalledAppend(exact, wild);
    PhaseCalls(Listeners(table, eventName), eventName, data, throws, handler);
    PhaseCalls(Listeners(table, AllEventsName), eventName, data, throws, handler);
  }

  /** `_emit` reports each throwing call once when a handler is configured, and never calls a handler otherwise. */
  lemma EmitReports<D>(table: Table, eventName: string, data: D,
                       throws: ListenerId -> bool, handler: Option<HandlerId>)
    ensures Reported(EmitTrace(table, eventName, data, throws, handler))
         == if handler.Some?
            then Throwing(Listeners(table, eventName) + Listeners(table, AllEventsName), throws)
            else []
  {
    var exact := FirePhase(Listeners(table, eventName), eventName, data, throws, handler);
    var wild := FirePhase(Listeners(table, AllEventsName), eventName, data, throws, handler);
    ReportedAppend(exact, wild);
    PhaseReports(Listeners(table, eventName), eventName, data, throws, handler);
    PhaseReports(Listeners(table, AllEventsName), eventName, data, throws, handler);
    ThrowingAppend(Listeners(table, eventName), Listeners(table, AllEventsName), throws);
  }

  /** Wildcard listeners, like exact-name ones, receive the real event name, never the wildcard key. */
  lemma EmitArguments<D>(table: Table, eventName: string, data: D,
                         throws: ListenerId -> bool, handler: Option<HandlerId>)
    ensures CarriesArguments(EmitTrace(table, eventName, data, throws, handler), data, eventName)
    ensures ReportsFollowCalls(EmitTrace(table, eventName, data, throws, handler), throws, handler)
  {
    var exact := FirePhase(Listeners(table, eventName), eventName, data, throws, handler);
    var wild := FirePhase(Listeners(table, AllEventsName), eventName, data, throws, handler);
    PhaseArguments(Listeners(table, eventName), eventName, data, throws, handler);
    PhaseArguments(Listeners(table, AllEventsName), eventName, data, throws, handler);
    PhaseReportsFollowCalls(Listeners(table, eventName), eventName, data, throws, handler);
    PhaseReportsFollowCalls(Listeners(table, AllEventsName), eventName, data, throws, handler);
    ReportsFollowCallsAppend(exact, wild, throws, handler);
  }

  /** A throwing listener stops nothing: the calls made do not depend on which listeners throw or on the handler. */
  lemma FailuresDoNotStopDispatch<D>(table: Table, eventName: string, data: D,
                                     throws1: ListenerId -> bool, handler1: Option<HandlerId>,
                                     throws2: ListenerId -> bool, handler2: Option<HandlerId>)
    ensures Called(EmitTrace(table, eventName, data, throws1, handler1))
         == Called(EmitTrace(table, eventName, data, throws2, handler2))
    ensures |Called(EmitTrace(table, eventName, data, throws1, handler1))|
         == |Listeners(table, eventName)| + |Listeners(table, AllEventsName)|
  {
    EmitCalls(table, eventName, data, throws1, handler1);
    EmitCalls(table, eventName, data, throws2, handler2);
  }

  /** Emitting the wildcard key itself runs the wildcard list twice. */
  lemma WildcardNameFiresTwice<D>(table: Table, data: D,
                                  throws: ListenerId -> bool, handler: Option<HandlerId>)
    ensures Called(EmitTrace(table, AllEventsName, data, throws, handler))
         == Listeners(table, AllEventsName) + Listeners(table, AllEventsName)
  {
    EmitCalls(table, AllEventsName, data, throws, handler);
  }

  /**
    Registering the same reference twice under `key` makes one emit of `eventName`
    call it twice more when `key` is that name, and twice more again when `key`
    is the wildcard key.
   */
  lemma DuplicateRegistrationFiresTwice<D>(table: Table, key: string, fn: ListenerId, eventName: string, data: D,
                                           throws: ListenerId -> bool, handler: Option<HandlerId>)
    ensures multiset(Called(EmitTrace(Register(Register(table, key, fn), key, fn), eventName, data, throws, handler)))[fn]
         == multiset(Called(EmitTrace(table, eventName, data, throws, handler)))[fn]
            + (if key == eventName then 2 else 0) + (if key == AllEventsName then 2 else 0)
  {
    var twice := Register(Register(table, key, fn), key, fn);
    var before := Listeners(table, eventName) + Listeners(table, AllEventsName);
    var after := Listeners(twice, eventName) + Listeners(twice, AllEventsName);
    assert Called(EmitTrace(twice, eventName, data, throws, handler)) == after by {
      EmitCalls(twice, eventName, data, throws, handler);
    }
    assert Called(EmitTrace(table, eventName, data, throws, handler)) == before by {
      EmitCalls(table, eventName, data, throws, handler);
    }
    assert multiset(after) == multiset(Listeners(twice, eventName)) + multiset(Listeners(twice, AllEventsName));
    assert multiset(before) == multiset(Listeners(table, eventName)) + multiset(Listeners(table, AllEventsName));
    RegisterTwiceCount(table, key, fn, eventName);
    RegisterTwiceCount(table, key, fn, AllEventsName);
  }

  /** Two registrations of `fn` under `key` add two occurrences of it to that list and none elsewhere. */
  lemma RegisterTwiceCount(table: Table, key: string, fn: ListenerId, k: string)
    ensures multiset(Listeners(Register(Register(table, key, fn), key, fn), k))[fn]
         == multiset(Listeners(table, k))[fn] + if k == key then 2 else 0
  {
    if k == key {
      var s := Listeners(table, k);
      assert Listeners(Register(Register(table, key, fn), key, fn), k) == s + [fn] + [fn];
      assert multiset(s + [fn] + [fn]) == multiset(s) + multiset{fn, fn};
    }
  }

  /**
    Once a wildcard listener registered a single time is removed with `off(null, fn)`,
    no later emit calls it, unless it is also registered under the emitted name.
   */
  lemma UnregisteredWildcardIsSilent<D>(table: Table, fn: ListenerId, eventName: string, data: D,
                                        throws: ListenerId -> bool, handler: Option<HandlerId>)
    requires multiset(Listeners(table, AllEventsName))[fn] == 1
    requires fn !in Listeners(table, eventName)
    ensures fn !in Called(EmitTrace(Unregister(table, KeyOf(None), fn), eventName, data, throws, handler))
  {
    var after := Unregister(table, KeyOf(None), fn);
    EmitCalls(after, eventName, data, throws, handler);
    assert multiset(Listeners(after, AllEventsName))[fn] == 0;
    if eventName != AllEventsName {
      assert Listeners(after, eventName) == Listeners(table, eventName);
    }
  }

  // ---------------------------------------------------------------------------
  // The emitter object

  class Emitter {
    /** `_events`: event name to listener list. */
    var events: Table
    /** `_onEmitError`: set only when `options.onError` is truthy. */
    var onEmitError: Option<ErrorOption>

    /** The handler a failure is reported to: the stored `onError` when it is a function. */
    function Handler(): (h: Option<HandlerId>)
      reads this
      ensures h.Some? <==> onEmitError.Some? && onEmitError.value.Callable?
      ensures h.Some? ==> onEmitError == Some(Callable(h.value))
    {
      match onEmitError
      case Some(Callable(handler)) => Some(handler)
      case _ => None
    }

    /** `new Emitter(options)`: an empty table; `onError` is kept only when truthy. */
    constructor (options: Option<Options>)
      ensures events == map[]
      ensures onEmitError == if options.Some? then options.value.onError else None
      ensures Handler().Some? <==> options.Some? && options.value.onError.Some? && options.value.onError.value.Callable?
    {
      events := map[];
      if options.Some? && options.value.onError.Some? {
        onEmitError := options.value.onError;
      } else {
        onEmitError := None;
      }
    }

    /** `on(eventName, fn)`: append `fn` to the list of the name (the wildcard list for `null`). */
    method On(eventName: Option<string>, fn: ListenerId)
      modifies this
      ensures events == Register(old(events), KeyOf(eventName), fn)
      ensures onEmitError == old(onEmitError)
    {
      var key := KeyOf(eventName);
      if key !in events {
        events := events[key := []];
      }
      events := events[key := events[key] + [fn]];
    }

    /** `off(eventName, fn)`: scan the list of the name and splice out the first entry identical to `fn`. */
    method Off(eventName: Option<string>, fn: ListenerId)
      modifies this
      ensures events == Unregister(old(events), KeyOf(eventName), fn)
      ensures onEmitError == old(onEmitError)
    {
      var key := KeyOf(eventName);
      if key in events {
        var list := events[key];
        var i := 0;
        while i < |list|
          invariant 0 <= i <= |list|
          invariant fn !in list[..i]
          invariant events == old(events)
        {
          if list[i] == fn {
            RemoveFirstAt(list, fn, i);
            events := events[key := list[..i] + list[i + 1..]];
            break;
          }
          assert list[..i + 1] == list[..i] + [list[i]];
          i := i + 1;
        }
        assert fn !in list ==> list[..i] == list;
      }
    }

    /** `fireEvents(eventProp, eventName, data)`: attempt every entry of one list, in order. */
    method FireEvents<D>(eventProp: string, eventName: string, data: D, throws: ListenerId -> bool)
      returns (trace: seq<Effect<D>>)
      requires eventProp in events
      ensures trace == FirePhase(events[eventProp], eventName, data, throws, Handler())
    {
      var list := events[eventProp];
      trace := [];
      var i := 0;
      while i < |list|
        invariant 0 <= i <= |list|
        invariant trace == FirePhase(list[..i], eventName, data, throws, Handler())
      {
        var listener := list[i];
        trace := trace + [Call(listener, data, eventName)];
        if throws(listener) {
          match onEmitError {
            case Some(Callable(handler)) =>
              trace := trace + [HandleError(handler, listener)];
            case _ =>
          }
        }
        assert list[..i + 1] == list[..i] + [listener];
        FirePhaseAppend(list[..i], [listener], eventName, data, throws, Handler());
        i := i + 1;
      }
      assert list[..i] == list;
    }

    /**
      `_emit(eventName, data)`: fire the name's list, then the wildcard list, with the real name.
      The error handler is taken to return; one that throws would end the dispatch.
     */
    method Emit<D>(eventName: string, data: D, throws: ListenerId -> bool) returns (trace: seq<Effect<D>>)
      ensures trace == EmitTrace(events, eventName, data, throws, Handler())
      ensures Called(trace) == Listeners(events, eventName) + Listeners(events, AllEventsName)
      ensures Reported(trace)
           == if Handler().Some?
              then Throwing(Listeners(events, eventName) + Listeners(events, AllEventsName), throws)
              else []
      ensures CarriesArguments(trace, data, eventName)
      ensures ReportsFollowCalls(trace, throws, Handler())
    {
      trace := [];
      if eventName in events {
        trace := FireEvents(eventName, eventName, data, throws);
      }
      if AllEventsName in events {
        var wild := FireEvents(AllEventsName, eventName, data, throws);
        trace := trace + wild;
      }
      EmitCalls(events, eventName, data, throws, Handler());
      EmitReports(events, eventName, data, throws, Handler());
      EmitArguments(events, eventName, data, throws, Handler());
    }
  }
}
