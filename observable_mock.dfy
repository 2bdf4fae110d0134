/**
 * The observer registry of the observable mock: the observers handed out by
 * `subscribe` while subscribe faking is enabled, held weakly and pruned in
 * place by `notify`, and the calls the registry makes into user code.
 *
 * User callbacks are foreign code. What the registry does with them is
 * recorded as a trace of calls: the is-observing callback with `true` or
 * `false`, an observer's observe callback with a value, an observer's
 * exception handler. Which observers their subscribers have dropped (their
 * weak pointers no longer lock) and which observe callbacks throw are given
 * to `notify` by the environment.
 */
module Observables {
  import opened Wrappers
  import opened Types

  /** The exceptions the registry throws. */
  datatype ObserverError =
    | ObserveCallbackEmpty     // "ObserveCallback can not be empty"
    | ExceptionHandlerEmpty    // "ExceptionHandler can not be empty"
    | BadFunctionCall          // the empty is-observing callback was invoked

  /** What `subscribe` has been told to do by `enableSubscribeFaking`. */
  datatype SubscribeMode =
    | NotConfigured   // never enabled: the nice mock returns a null observer
    | Untracked       // enabled with a null callback: a dummy observer nobody notifies
    | Tracking        // enabled with a callback: `attachObserver`

  /**
   * `FakeObserver`: the observer a subscriber holds. It carries the
   * subscriber's observe callback and exception handler, which are foreign
   * code; only its identity matters to the registry.
   */
  class FakeObserver {
    constructor ()
    {
    }
  }

  /** What `subscribe` returns. */
  datatype Subscription =
    | NullObserver                  // a null `ObserverPtr`
    | DummyObserver                 // an `Observer` that no registry knows
    | Tracked(observer: FakeObserver)

  /** A call from the registry into user code. */
  datatype ForeignCall =
    | IsObserving(observing: bool)                         // the is-observing callback
    | Observe(observer: FakeObserver, value: DataVariant)  // the observer's observe callback
    | Handle(observer: FakeObserver)                        // the observer's exception handler

  /**
   * `FakeObserver::dispatch`: call the observe callback with the value; if it
   * throws, pass the exception to the same observer's handler instead of the
   * caller.
   */
  function Dispatch(observer: FakeObserver, value: DataVariant, throws: bool): seq<ForeignCall>
  {
    [Observe(observer, value)] + (if throws then [Handle(observer)] else [])
  }

  /** The calls made by dispatching value to each observer of s in turn. */
  function Deliveries(s: seq<FakeObserver>, value: DataVariant, throwing: set<FakeObserver>): seq<ForeignCall>
  {
    if s == [] then []
    else Deliveries(s[..|s| - 1], value, throwing) + Dispatch(s[|s| - 1], value, s[|s| - 1] in throwing)
  }

  /** The observers of s whose subscribers still hold them, in order. */
  function Live(s: seq<FakeObserver>, released: set<FakeObserver>): seq<FakeObserver>
  {
    if s == [] then []
    else Live(s[..|s| - 1], released) + (if s[|s| - 1] in released then [] else [s[|s| - 1]])
  }

  /** No observer is registered twice. */
  ghost predicate Distinct(s: seq<FakeObserver>)
  {
    forall i, j :: 0 <= i < j < |s| ==> s[i] != s[j]
  }

  /** Live keeps exactly the observers still held, and keeps nothing twice. */
  lemma {:induction false} LiveMembers(s: seq<FakeObserver>, released: set<FakeObserver>)
    ensures forall o :: o in Live(s, released) <==> o in s && o !in released
    ensures |Live(s, released)| <= |s|
    ensures Distinct(s) ==> Distinct(Live(s, released))
  {
    if s != [] {
      var init, last := s[..|s| - 1], s[|s| - 1];
      assert s == init + [last];
      LiveMembers(init, released);
      if Distinct(s) {
        assert Distinct(init);
        assert last !in init;
      }
    }
  }

  /** Pruning keeps the subscription order: it works piece by piece. */
  lemma {:induction false} LiveSplit(a: seq<FakeObserver>, b: seq<FakeObserver>, released: set<FakeObserver>)
    ensures Live(a + b, released) == Live(a, released) + Live(b, released)
    decreases |b|
  {
    if b == [] {
      assert a + b == a;
    } else {
      var init, last := b[..|b| - 1], b[|b| - 1];
      assert (a + b)[..|a + b| - 1] == a + init && (a + b)[|a + b| - 1] == last;
      LiveSplit(a, init, released);
    }
  }

  /** Pruning again without a further release erases nothing more. */
  lemma {:induction false} LiveIdempotent(s: seq<FakeObserver>, released: set<FakeObserver>)
    ensures Live(Live(s, released), released) == Live(s, released)
  {
    if s != [] {
      var init, last := s[..|s| - 1], s[|s| - 1];
      LiveIdempotent(init, released);
      var held := Live(init, released);
      if last !in released {
        var t := held + [last];
        assert t[..|t| - 1] == held && t[|t| - 1] == last;
      } else {
        assert held + [] == held;
      }
    }
  }

  /**
   * Dispatching to a list is dispatching to its first part, then to the rest:
   * every call made for an observer comes before every call made for a later one.
   */
  lemma {:induction false} DeliveriesSplit(a: seq<FakeObserver>, b: seq<FakeObserver>, value: DataVariant, throwing: set<FakeObserver>)
    ensures Deliveries(a + b, value, throwing) == Deliveries(a, value, throwing) + Deliveries(b, value, throwing)
    decreases |b|
  {
    if b == [] {
      assert a + b == a;
    } else {
      var init, last := b[..|b| - 1], b[|b| - 1];
      assert (a + b)[..|a + b| - 1] == a + init && (a + b)[|a + b| - 1] == last;
      DeliveriesSplit(a, init, value, throwing);
    }
  }

  /**
   * Dispatching reaches every observer of s with the value, calls only the
   * callbacks of observers in s, and calls a handler only for an observer
   * whose callback threw: one observer's exception never reaches another.
   */
  lemma {:induction false} DeliveriesReachEach(s: seq<FakeObserver>, value: DataVariant, throwing: set<FakeObserver>)
    ensures forall o :: o in s ==> Observe(o, value) in Deliveries(s, value, throwing)
    ensures forall o :: o in s && o in throwing ==> Handle(o) in Deliveries(s, value, throwing)
    ensures forall c :: c in Deliveries(s, value, throwing) ==>
              !c.IsObserving? && c.observer in s && (c.Observe? ==> c.value == value) && (c.Handle? ==> c.observer in throwing)
  {
    if s != [] {
      var init, last := s[..|s| - 1], s[|s| - 1];
      assert s == init + [last];
      DeliveriesReachEach(init, value, throwing);
    }
  }

  /** Pruning a list is pruning its first observer, then the rest. */
  lemma LiveFront(s: seq<FakeObserver>, released: set<FakeObserver>)
    requires s != []
    ensures Live(s, released) == (if s[0] in released then [] else [s[0]]) + Live(s[1..], released)
  {
    assert s == [s[0]] + s[1..];
    LiveSplit([s[0]], s[1..], released);
    assert [s[0]][..0] == [];
  }

  /**
   * A step of the `notify` loop that keeps the observer under the cursor:
   * the list is the kept observers followed by the unvisited ones, rest.
   */
  lemma KeepStep(kept: seq<FakeObserver>, rest: seq<FakeObserver>, released: set<FakeObserver>, value: DataVariant, throwing: set<FakeObserver>)
    requires rest != [] && rest[0] !in released
    ensures (kept + rest)[|kept|] == rest[0]
    ensures kept + rest == (kept + [rest[0]]) + rest[1..]
    ensures kept + Live(rest, released) == (kept + [rest[0]]) + Live(rest[1..], released)
    ensures Deliveries(kept + [rest[0]], value, throwing) == Deliveries(kept, value, throwing) + Dispatch(rest[0], value, rest[0] in throwing)
  {
    LiveFront(rest, released);
    assert rest == [rest[0]] + rest[1..];
    var t := kept + [rest[0]];
    assert t[..|t| - 1] == kept && t[|t| - 1] == rest[0];
  }

  /** A step of the `notify` loop that erases the released observer under the cursor. */
  lemma EraseStep(kept: seq<FakeObserver>, rest: seq<FakeObserver>, released: set<FakeObserver>)
    requires rest != [] && rest[0] in released
    ensures (kept + rest)[|kept|] == rest[0]
    ensures (kept + rest)[..|kept|] + (kept + rest)[|kept| + 1..] == kept + rest[1..]
    ensures Live(rest, released) == Live(rest[1..], released)
  {
    LiveFront(rest, released);
    assert (kept + rest)[..|kept|] == kept;
    assert (kept + rest)[|kept| + 1..] == rest[1..];
  }

  /** `ObservableMock`, as far as subscriptions and notifications go. */
  class ObservableMock {
    /** `is_observing_`: the callback told when observing starts and stops. */
    var isObserving: Callback
    var mode: SubscribeMode
    /** `observers_`: the observers handed out by `attachObserver`, in order. */
    var observers: seq<FakeObserver>
    /** The calls made into user code so far, in order. */
    var calls: seq<ForeignCall>

    /**
     * Observers are registered only while tracking, each once, and tracking
     * needs an is-observing callback.
     */
    ghost predicate Valid()
      reads this
    {
      (mode.Tracking? ==> isObserving.Given?)
      && (observers != [] ==> isObserving.Given?)
      && Distinct(observers)
    }

    constructor ()
      ensures Valid()
      ensures isObserving == Empty && mode == NotConfigured && observers == [] && calls == []
    {
      isObserving := Empty;
      mode := NotConfigured;
      observers := [];
      calls := [];
    }

    /**
     * `enableSubscribeFaking`: a callback switches `subscribe` to tracking
     * and becomes the is-observing callback; a null one switches `subscribe`
     * to dummy observers and leaves the is-observing callback as it was.
     */
    method EnableSubscribeFaking(callback: Callback)
      requires Valid()
      modifies this`isObserving, this`mode
      ensures Valid()
      ensures callback.Given? ==> isObserving == callback && mode == Tracking
      ensures callback.Empty? ==> isObserving == old(isObserving) && mode == Untracked
    {
      if callback.Given? {
        isObserving := callback;
        mode := Tracking;
      } else {
        mode := Untracked;
      }
    }

    /**
     * `attachObserver`: refuse an empty observe callback, then an empty
     * handler; otherwise append a new observer and, if it is the first,
     * signal that observing has started.
     */
    method AttachObserver(callback: Callback, handler: Callback)
      returns (r: Result<FakeObserver, ObserverError>)
      requires Valid() && mode.Tracking?
      modifies this`observers, this`calls
      ensures Valid()
      ensures callback.Empty? ==> r == Failure(ObserveCallbackEmpty)
      ensures callback.Given? && handler.Empty? ==> r == Failure(ExceptionHandlerEmpty)
      ensures r.Failure? ==> observers == old(observers) && calls == old(calls)
      ensures callback.Given? && handler.Given? ==>
                r.Success? && fresh(r.value)
                && observers == old(observers) + [r.value]
                && calls == old(calls) + (if old(observers) == [] then [IsObserving(true)] else [])
    {
      if callback.Empty? {
        return Failure(ObserveCallbackEmpty);
      }
      if handler.Empty? {
        return Failure(ExceptionHandlerEmpty);
      }
      var wasEmpty := observers == [];
      var observer := new FakeObserver();
      observers := observers + [observer];
      if wasEmpty {
        calls := calls + [IsObserving(true)];
      }
      r := Success(observer);
    }

    /**
     * `subscribe` as `enableSubscribeFaking` configured it: a null observer
     * before any configuration, the dummy observer after a null callback,
     * `attachObserver` after a callback.
     */
    method Subscribe(callback: Callback, handler: Callback) returns (r: Result<Subscription, ObserverError>)
      requires Valid()
      modifies this`observers, this`calls
      ensures Valid()
      ensures mode.NotConfigured? ==> r == Success(NullObserver) && observers == old(observers) && calls == old(calls)
      ensures mode.Untracked? ==> r == Success(DummyObserver) && observers == old(observers) && calls == old(calls)
      ensures mode.Tracking? && callback.Empty? ==> r == Failure(ObserveCallbackEmpty)
      ensures mode.Tracking? && callback.Given? && handler.Empty? ==> r == Failure(ExceptionHandlerEmpty)
      ensures r.Failure? ==> observers == old(observers) && calls == old(calls)
      ensures mode.Tracking? && callback.Given? && handler.Given? ==>
                r.Success? && r.value.Tracked? && fresh(r.value.observer)
                && observers == old(observers) + [r.value.observer]
                && calls == old(calls) + (if old(observers) == [] then [IsObserving(true)] else [])
    {
      match mode
      case NotConfigured =>
        r := Success(NullObserver);
      case Untracked =>
        r := Success(DummyObserver);
      case Tracking =>
        var attached := AttachObserver(callback, handler);
        r := if attached.Success? then Success(Tracked(attached.value)) else Failure(attached.error);
    }

    /**
     * The block of `notify` that walks the observers: erase in place every
     * one whose subscriber has released it and dispatch the value to each one
     * still held, in subscription order.
     */
    method DispatchToLive(value: DataVariant, released: set<FakeObserver>, throwing: set<FakeObserver>)
      modifies this`observers, this`calls
      ensures observers == Live(old(observers), released)
      ensures calls == old(calls) + Deliveries(observers, value, throwing)
    {
      ghost var kept: seq<FakeObserver> := [];
      ghost var rest := observers;
      var i := 0;
      while i < |observers|
        invariant observers == kept + rest && i == |kept|
        invariant Live(old(observers), released) == kept + Live(rest, released)
        invariant calls == old(calls) + Deliveries(kept, value, throwing)
        decreases |rest|
      {
        if observers[i] !in released {
          KeepStep(kept, rest, released, value, throwing);
          calls := calls + Dispatch(observers[i], value, observers[i] in throwing);
          i := i + 1;
          kept := kept + [rest[0]];
        } else {
          EraseStep(kept, rest, released);
          observers := observers[..i] + observers[i + 1..];
        }
        rest := rest[1..];
      }
      assert kept + [] == kept;
    }

    /**
     * `notify`: dispatch the value to the observers still held, erasing the
     * released ones; if none is left, signal that observing has stopped.
     * Invoking an empty is-observing callback throws.
     */
    method Notify(value: DataVariant, released: set<FakeObserver>, throwing: set<FakeObserver>)
      returns (o: Outcome<ObserverError>)
      requires Valid()
      modifies this`observers, this`calls
      ensures Valid()
      ensures observers == Live(old(observers), released)
      ensures observers != [] ==> o == Pass && calls == old(calls) + Deliveries(observers, value, throwing)
      ensures observers == [] && isObserving.Given? ==> o == Pass && calls == old(calls) + [IsObserving(false)]
      ensures observers == [] && isObserving.Empty? ==> o == Fail(BadFunctionCall) && calls == old(calls)
    {
      DispatchToLive(value, released, throwing);
      assert Distinct(observers) && (observers != [] ==> old(observers) != []) by {
        LiveMembers(old(observers), released);
      }
      if observers == [] {
        if isObserving.Empty? {
          return Fail(BadFunctionCall);
        }
        calls := calls + [IsObserving(false)];
      }
      o := Pass;
    }
  }
}
