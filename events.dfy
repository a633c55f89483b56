/** The event handler of lib/events.js: a closed vocabulary of event names and,
    per event, the listeners in subscription order, each with the number of
    calls it has left. Handlers are opaque: a listener names its callback by an
    identifier, and a dispatch reports which callbacks it invoked, in order. */
module Events {
  import opened Wrappers
  import opened Json

  type CallbackId = nat

  /** "Unknown event ...", thrown by subscribe and dispatch. */
  datatype EventError = UnknownEvent(name: string)

  /** A listener's remaining invocations: a count, or `Infinity`. */
  datatype Calls = Finite(n: nat) | Infinite

  /** `[callback, ctx, max_calls]` as stored by `addEventListener`. */
  datatype Listener = Listener(callback: CallbackId, ctx: Json, remaining: Calls)

  /** `callback.apply(ctx, args)`: one call of a listener's callback. */
  datatype Invocation = Invocation(callback: CallbackId, ctx: Json, args: seq<Json>)

  /** `inArray`'s start offset: absent or zero means 0, and a negative offset counts
      from the end, clamped at 0. */
  function StartIndex(len: nat, index: Option<int>): int {
    match index
    case None => 0
    case Some(i) => if i == 0 then 0 else if i < 0 then (if len + i > 0 then len + i else 0) else i
  }

  /** `inArray(value, array, index)`: the first position at or after the start offset
      holding `value`, or -1. */
  method InArray<T(==)>(value: T, xs: seq<T>, index: Option<int>) returns (r: int)
    ensures r == -1 || (StartIndex(|xs|, index) <= r < |xs| && xs[r] == value)
    ensures r != -1 ==> forall j :: StartIndex(|xs|, index) <= j < r ==> xs[j] != value
    ensures r == -1 <==> forall j :: StartIndex(|xs|, index) <= j < |xs| ==> xs[j] != value
  {
    var len := |xs|;
    var i := StartIndex(len, index);
    ghost var start := i;
    while i < len
      invariant start <= i
      invariant 0 <= start
      invariant forall j :: start <= j < i && j < len ==> xs[j] != value
    {
      if xs[i] == value {
        return i;
      }
      i := i + 1;
    }
    return -1;
  }

  /** `parseInt(max_calls) >= 1 ? parseInt(max_calls) : Infinity`, where `None` is
      a `max_calls` that `parseInt` turns into NaN (`undefined`, `Infinity`). */
  function Budget(maxCalls: Option<int>): (c: Calls)
    ensures c.Finite? <==> maxCalls.Some? && maxCalls.value >= 1
    ensures c.Finite? ==> c.n == maxCalls.value
  {
    if maxCalls.Some? && maxCalls.value >= 1 then Finite(maxCalls.value) else Infinite
  }

  predicate Live(l: Listener) {
    l.remaining != Finite(0)
  }

  predicate AllLive(ls: seq<Listener>) {
    forall i :: 0 <= i < |ls| ==> Live(ls[i])
  }

  /** `events[evt][i][2]--`: one call fewer left; `Infinity` stays. */
  function Spend(l: Listener): (r: Listener)
    requires Live(l)
    ensures r.callback == l.callback && r.ctx == l.ctx
    ensures l.remaining.Infinite? ==> r == l
    ensures l.remaining.Finite? ==> r.remaining == Finite(l.remaining.n - 1)
  {
    match l.remaining
    case Finite(n) => l.(remaining := Finite(n - 1))
    case Infinite => l
  }

  /** What one dispatch leaves of a single listener: itself spent once, or nothing
      when it has no calls left. */
  function Keep(l: Listener): (r: seq<Listener>)
    requires Live(l)
    ensures AllLive(r) && |r| <= 1
  {
    var s := Spend(l);
    if Live(s) then [s] else []
  }

  /** What one dispatch leaves of a listener list: every listener spent once, and
      those with no calls left dropped, the rest keeping their order. */
  function Survivors(ls: seq<Listener>): (r: seq<Listener>)
    requires AllLive(ls)
    ensures AllLive(r) && |r| <= |ls|
  {
    if |ls| == 0 then [] else Keep(ls[0]) + Survivors(ls[1..])
  }

  lemma AllLiveConcat(a: seq<Listener>, b: seq<Listener>)
    requires AllLive(a) && AllLive(b)
    ensures AllLive(a + b)
  {
    forall i | 0 <= i < |a + b| ensures Live((a + b)[i]) {
      if i < |a| { assert (a + b)[i] == a[i]; } else { assert (a + b)[i] == b[i - |a|]; }
    }
  }

  /** The calls one dispatch with arguments `args` makes: every listener once, in
      subscription order, with its own context. */
  function Invocations(ls: seq<Listener>, args: seq<Json>): (r: seq<Invocation>)
    ensures |r| == |ls|
    ensures forall i :: 0 <= i < |ls| ==> r[i] == Invocation(ls[i].callback, ls[i].ctx, args)
  {
    seq(|ls|, i requires 0 <= i < |ls| => Invocation(ls[i].callback, ls[i].ctx, args))
  }

  /** Listeners evolve independently: a dispatch of two lists one after the other
      is a dispatch of their concatenation. */
  lemma {:induction false} SurvivorsConcat(a: seq<Listener>, b: seq<Listener>)
    requires AllLive(a) && AllLive(b)
    ensures AllLive(a + b)
    ensures Survivors(a + b) == Survivors(a) + Survivors(b)
    decreases |a|
  {
    AllLiveConcat(a, b);
    if |a| == 0 {
      assert a + b == b;
    } else {
      assert (a + b)[0] == a[0];
      assert (a + b)[1..] == a[1..] + b;
      SurvivorsConcat(a[1..], b);
      calc {
        Survivors(a + b);
        Keep(a[0]) + Survivors(a[1..] + b);
        Keep(a[0]) + (Survivors(a[1..]) + Survivors(b));
        (Keep(a[0]) + Survivors(a[1..])) + Survivors(b);
      }
    }
  }

  /** How many callback invocations `n` consecutive dispatches of an event make. */
  function TimesInvoked(ls: seq<Listener>, n: nat): nat
    requires AllLive(ls)
    decreases n
  {
    if n == 0 then 0 else |ls| + TimesInvoked(Survivors(ls), n - 1)
  }

  lemma {:induction false} NothingToInvoke(n: nat)
    ensures TimesInvoked([], n) == 0
    decreases n
  {
    if n > 0 {
      NothingToInvoke(n - 1);
    }
  }

  /** A listener subscribed with `max_calls = k` runs `min(k, n)` times over `n`
      dispatches; an `Infinity` listener runs every time and is never removed. */
  lemma {:induction false} OneListenerBudget(l: Listener, n: nat)
    requires Live(l)
    ensures l.remaining.Infinite? ==> Survivors([l]) == [l] && TimesInvoked([l], n) == n
    ensures l.remaining.Finite? ==>
      TimesInvoked([l], n) == if n <= l.remaining.n then n else l.remaining.n
    decreases n
  {
    assert [l][1..] == [];
    if n > 0 {
      var s := Spend(l);
      if Live(s) {
        assert Survivors([l]) == [s];
        OneListenerBudget(s, n - 1);
      } else {
        assert Survivors([l]) == [];
        NothingToInvoke(n - 1);
      }
    }
  }

  /** What `max_calls` promises: a listener subscribed with a `max_calls` that parses
      to k >= 1 runs min(k, n) times over n dispatches; any other `max_calls`
      (missing, NaN, zero or negative) makes it run every time. */
  lemma MaxCallsBudget(callback: CallbackId, ctx: Json, maxCalls: Option<int>, n: nat)
    ensures Live(Listener(callback, ctx, Budget(maxCalls)))
    ensures TimesInvoked([Listener(callback, ctx, Budget(maxCalls))], n)
            == if maxCalls.Some? && maxCalls.value >= 1 then (if n <= maxCalls.value then n else maxCalls.value) else n
  {
    OneListenerBudget(Listener(callback, ctx, Budget(maxCalls)), n);
  }

  /** The invocation count of a list is the sum over its parts, so
      `OneListenerBudget` bounds each listener of any list. */
  lemma {:induction false} TimesInvokedConcat(a: seq<Listener>, b: seq<Listener>, n: nat)
    requires AllLive(a) && AllLive(b)
    ensures AllLive(a + b)
    ensures TimesInvoked(a + b, n) == TimesInvoked(a, n) + TimesInvoked(b, n)
    decreases n
  {
    SurvivorsConcat(a, b);
    if n > 0 {
      TimesInvokedConcat(Survivors(a), Survivors(b), n - 1);
    }
  }

  function ListenersOf(events: map<string, seq<Listener>>, evt: string): seq<Listener> {
    if evt in events then events[evt] else []
  }

  /** The source's dispatch loop as written: when a spent listener is spliced out,
      `i` still advances, so the listener that moved into slot `i` is skipped (it
      is neither called nor spent). */
  function DispatchAsWritten(ls: seq<Listener>, args: seq<Json>, i: nat): (res: (seq<Listener>, seq<Invocation>))
    requires AllLive(ls)
    ensures |res.0| <= |ls|
    ensures i <= |ls| ==> i <= |res.0| && res.0[..i] == ls[..i]
    ensures i <= |ls| ==> |res.1| <= |ls| - i
    ensures forall k :: 0 <= k < |res.1| ==> res.1[k].args == args
    decreases |ls| - i
  {
    if i >= |ls| then (ls, [])
    else
      var l := Spend(ls[i]);
      var next := if Live(l) then ls[i := l] else ls[..i] + ls[i + 1..];
      var rest := DispatchAsWritten(next, args, i + 1);
      (rest.0, [Invocation(l.callback, l.ctx, args)] + rest.1)
  }

  /** Two one-shot listeners: as written, only the first runs and the second is
      left untouched; the intended dispatch runs both and removes both. */
  lemma SpliceSkipsNextListener()
    ensures var ls := [Listener(1, Undefined, Finite(1)), Listener(2, Undefined, Finite(1))];
      && DispatchAsWritten(ls, [], 0) == ([Listener(2, Undefined, Finite(1))], [Invocation(1, Undefined, [])])
      && Invocations(ls, []) == [Invocation(1, Undefined, []), Invocation(2, Undefined, [])]
      && Survivors(ls) == []
  {
    var one := Listener(1, Undefined, Finite(1));
    var two := Listener(2, Undefined, Finite(1));
    var ls := [one, two];
    assert ls[0] == one;
    assert Spend(one) == Listener(1, Undefined, Finite(0));
    assert ls[..0] + ls[1..] == [two];
    assert DispatchAsWritten([two], [], 1) == ([two], []);
    var rest := DispatchAsWritten(ls[..0] + ls[1..], [], 0 + 1);
    assert rest.1 == [];
    assert [Invocation(Spend(one).callback, Spend(one).ctx, [])] + rest.1 == [Invocation(1, Undefined, [])];
    assert DispatchAsWritten(ls, [], 0) == ([two], [Invocation(1, Undefined, [])]);
    assert [two][1..] == [];
    assert Survivors([two]) == [];
    assert ls[1..] == [two];
  }

  class EventHandler {
    /** The owning component, used only in diagnostics. */
    const component: string
    /** `valid_events`: the names that may be subscribed to and dispatched. */
    var validEvents: seq<string>
    /** `events`: per event name, its listeners in subscription order. */
    var events: map<string, seq<Listener>>

    /** A listener with no calls left is never kept. */
    ghost predicate Valid()
      reads this
    {
      forall e :: e in events ==> AllLive(events[e])
    }

    /** `new EventHandler(component, list)`: the vocabulary is installed only when a
        list (an object) is given; otherwise it stays empty. */
    constructor (component: string, validEventsList: Option<seq<string>>)
      ensures Valid()
      ensures this.component == component
      ensures validEvents == (if validEventsList.Some? then validEventsList.value else [])
      ensures events == map[]
    {
      this.component := component;
      validEvents := [];
      events := map[];
      new;
      if validEventsList.Some? {
        SetValidEvents(validEventsList.value);
      }
    }

    /** `addEventListener(evt, callback, ctx, max_calls)`. */
    method AddEventListener(evt: string, callback: CallbackId, ctx: Json, maxCalls: Option<int>)
      returns (r: Outcome<EventError>)
      requires Valid()
      modifies this
      ensures Valid()
      ensures validEvents == old(validEvents)
      ensures r.Fail? <==> evt !in validEvents
      ensures r.Fail? ==> r.error == UnknownEvent(evt) && events == old(events)
      ensures r.Pass? ==> events == old(events)[evt := ListenersOf(old(events), evt) + [Listener(callback, ctx, Budget(maxCalls))]]
    {
      var at := InArray(evt, validEvents, None);
      if at != -1 {
        var budget := Budget(maxCalls);
        if evt !in events {
          events := events[evt := []];
        }
        events := events[evt := events[evt] + [Listener(callback, ctx, budget)]];
        return Pass;
      } else {
        return Fail(UnknownEvent(evt));
      }
    }

    /** `dispatchEvent(evt, ...args)` as evidently intended: every listener subscribed at
        the start of the dispatch is spent and invoked once, in subscription order,
        and removed when it has no calls left (see `DispatchAsWritten`). The result
        says whether a listener list exists for the event. */
    method DispatchEvent(evt: string, args: seq<Json>) returns (r: Result<bool, EventError>, invoked: seq<Invocation>)
      requires Valid()
      modifies this
      ensures Valid()
      ensures validEvents == old(validEvents)
      ensures evt !in validEvents ==> r == Err(UnknownEvent(evt)) && invoked == [] && events == old(events)
      ensures evt in validEvents && evt !in old(events) ==> r == Ok(false) && invoked == [] && events == old(events)
      ensures evt in validEvents && evt in old(events) ==>
        && r == Ok(true)
        && invoked == Invocations(old(events)[evt], args)
        && events == old(events)[evt := Survivors(old(events)[evt])]
    {
      invoked := [];
      var at := InArray(evt, validEvents, None);
      if at == -1 {
        return Err(UnknownEvent(evt)), invoked;
      }
      if evt !in events {
        return Ok(false), invoked;
      }
      var ls := events[evt];
      var kept: seq<Listener> := [];
      var i := 0;
      while i < |ls|
        invariant 0 <= i <= |ls|
        invariant events == old(events) && validEvents == old(validEvents)
        invariant kept == Survivors(ls[..i])
        invariant invoked == Invocations(ls[..i], args)
      {
        var l := Spend(ls[i]);
        invoked := invoked + [Invocation(l.callback, l.ctx, args)];
        if Live(l) {
          kept := kept + [l];
        }
        assert ls[..i + 1] == ls[..i] + [ls[i]];
        assert [ls[i]][1..] == [];
        SurvivorsConcat(ls[..i], [ls[i]]);
        i := i + 1;
      }
      assert ls[..i] == ls;
      events := events[evt := kept];
      return Ok(true), invoked;
    }

    /** `setValidEvents(list)` replaces the vocabulary. */
    method SetValidEvents(list: seq<string>)
      modifies this
      ensures validEvents == list
      ensures events == old(events)
    {
      validEvents := list;
    }

    /** `getValidEvents()` returns the current vocabulary. */
    method GetValidEvents() returns (list: seq<string>)
      ensures list == validEvents
    {
      return validEvents;
    }

    /** `addValidEvent(name)` appends one name to the vocabulary. */
    method AddValidEvent(name: string)
      modifies this
      ensures validEvents == old(validEvents) + [name]
      ensures events == old(events)
    {
      validEvents := validEvents + [name];
    }
  }
}
