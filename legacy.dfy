/** The older host-side registry of inmocha/_module.js: lifecycle callbacks kept
    per event with a call budget, the event vocabulary held in a sorted set, and
    the classification of messages arriving from the page. */
module Legacy {
  import opened Wrappers
  import opened Json
  import Events
  import opened SortedSets

  /** `_knownEvents`. */
  const KnownEvents: seq<string> :=
    ["browserStarted", "testsuiteStarted", "beforeScenario", "afterScenario",
     "beforeStep", "afterStep", "consoleMessage", "browserFailed",
     "testsuiteFinished", "browserFinished"]

  /** A handler's remaining calls: a number, which `invokeEventHandlers` counts
      down, or `Infinity`. */
  datatype Count = Bounded(n: int) | Unbounded

  /** `[clbk, max_calls]`. */
  datatype Entry = Entry(callback: Events.CallbackId, remaining: Count)

  datatype LegacyError = UnknownEvent(name: string)

  /** `max_calls || Infinity`: a missing or zero budget is unlimited. */
  function Allowance(maxCalls: Option<int>): (c: Count)
    ensures c.Bounded? <==> maxCalls.Some? && maxCalls.value != 0
    ensures c.Bounded? ==> c.n == maxCalls.value
  {
    if maxCalls.Some? && maxCalls.value != 0 then Bounded(maxCalls.value) else Unbounded
  }

  /** A stored handler never has a count of zero: it is removed when it gets there. */
  predicate Live(e: Entry) {
    e.remaining != Bounded(0)
  }

  predicate AllLive(ls: seq<Entry>) {
    forall i :: 0 <= i < |ls| ==> Live(ls[i])
  }

  /** One call's worth of the budget spent: `Infinity - 1` is `Infinity`. */
  function Spent(e: Entry): (r: Entry)
    ensures r.callback == e.callback
    ensures e.remaining.Unbounded? ==> r == e
    ensures e.remaining.Bounded? ==> r.remaining == Bounded(e.remaining.n - 1)
  {
    match e.remaining
    case Unbounded => e
    case Bounded(n) => Entry(e.callback, Bounded(n - 1))
  }

  /** What is left of one handler after it has been called. */
  function Tick(e: Entry): (r: seq<Entry>)
    ensures AllLive(r) && |r| <= 1
  {
    var s := Spent(e);
    if Live(s) then [s] else []
  }

  /** The handlers left after one `invokeEventHandlers`, in order. */
  function Kept(ls: seq<Entry>): (r: seq<Entry>)
    ensures AllLive(r) && |r| <= |ls|
  {
    if |ls| == 0 then [] else Tick(ls[0]) + Kept(ls[1..])
  }

  /** `clbk.apply(context, params)` for every handler, in registration order. */
  function Calls(ls: seq<Entry>, ctx: Json, params: seq<Json>): (r: seq<Events.Invocation>)
    ensures |r| == |ls|
    ensures forall i :: 0 <= i < |ls| ==> r[i] == Events.Invocation(ls[i].callback, ctx, params)
  {
    seq(|ls|, i requires 0 <= i < |ls| => Events.Invocation(ls[i].callback, ctx, params))
  }

  lemma {:induction false} KeptConcat(a: seq<Entry>, b: seq<Entry>)
    ensures Kept(a + b) == Kept(a) + Kept(b)
    decreases |a|
  {
    if |a| == 0 {
      assert a + b == b;
    } else {
      assert (a + b)[1..] == a[1..] + b;
      KeptConcat(a[1..], b);
    }
  }

  /** How many calls `k` consecutive invocations of an event make. */
  function Rounds(ls: seq<Entry>, k: nat): nat
    decreases k
  {
    if k == 0 then 0 else |ls| + Rounds(Kept(ls), k - 1)
  }

  lemma {:induction false} NoRounds(k: nat)
    ensures Rounds([], k) == 0
    decreases k
  {
    if k > 0 {
      NoRounds(k - 1);
    }
  }

  /** A handler registered with a positive `max_calls` runs at most that many
      times, then is gone; an unlimited one, or one with a negative count that
      never reaches zero, runs every time. */
  lemma {:induction false} HandlerBudget(e: Entry, k: nat)
    requires Live(e)
    ensures e.remaining.Bounded? && e.remaining.n >= 1 ==> Rounds([e], k) == if k <= e.remaining.n then k else e.remaining.n
    ensures (e.remaining.Unbounded? || e.remaining.n < 0) ==> Rounds([e], k) == k
    decreases k
  {
    assert [e][1..] == [];
    if k > 0 {
      var s := Spent(e);
      if Live(s) {
        assert Kept([e]) == [s];
        HandlerBudget(s, k - 1);
      } else {
        assert Kept([e]) == [];
        NoRounds(k - 1);
      }
    }
  }

  /** What `register`'s `max_calls` promises: over k invocations a handler runs
      min(n, k) times when `max_calls` is a number n >= 1, and every time when it
      is missing, zero or negative (a negative count never reaches zero). */
  lemma MaxCallsRounds(callback: Events.CallbackId, maxCalls: Option<int>, k: nat)
    ensures Rounds([Entry(callback, Allowance(maxCalls))], k)
            == if maxCalls.Some? && maxCalls.value >= 1 then (if k <= maxCalls.value then k else maxCalls.value) else k
  {
    HandlerBudget(Entry(callback, Allowance(maxCalls)), k);
  }

  /** The loop of `invokeEventHandlers` as written: after the handler at `i` is
      spliced out, `i` still advances and the handler that moved into its place
      is neither called nor counted down. */
  function InvokeAsWritten(ls: seq<Entry>, ctx: Json, params: seq<Json>, i: nat): (res: (seq<Entry>, seq<Events.Invocation>))
    ensures |res.0| <= |ls|
    ensures i <= |ls| ==> i <= |res.0| && res.0[..i] == ls[..i]
    ensures i <= |ls| ==> |res.1| <= |ls| - i
    ensures forall k :: 0 <= k < |res.1| ==> res.1[k].ctx == ctx && res.1[k].args == params
    decreases |ls| - i
  {
    if i >= |ls| then (ls, [])
    else
      var s := Spent(ls[i]);
      var next := if Live(s) then ls[i := s] else ls[..i] + ls[i + 1..];
      assert next[..i] == ls[..i];
      var rest := InvokeAsWritten(next, ctx, params, i + 1);
      assert i + 1 <= |next| ==> rest.0[..i] == rest.0[..i + 1][..i];
      (rest.0, [Events.Invocation(ls[i].callback, ctx, params)] + rest.1)
  }

  /** Two one-shot handlers: as written, the second is skipped and stays
      registered; the intended loop calls both and removes both. */
  lemma SpliceSkipsNextHandler()
    ensures var ls := [Entry(1, Bounded(1)), Entry(2, Bounded(1))];
      && InvokeAsWritten(ls, Undefined, [], 0) == ([Entry(2, Bounded(1))], [Events.Invocation(1, Undefined, [])])
      && Calls(ls, Undefined, []) == [Events.Invocation(1, Undefined, []), Events.Invocation(2, Undefined, [])]
      && Kept(ls) == []
  {
    var one := Entry(1, Bounded(1));
    var two := Entry(2, Bounded(1));
    var ls := [one, two];
    assert ls[0] == one;
    assert Spent(one) == Entry(1, Bounded(0)) && !Live(Spent(one));
    assert ls[..0] + ls[1..] == [two];
    assert InvokeAsWritten([two], Undefined, [], 1) == ([two], []);
    var rest := InvokeAsWritten(ls[..0] + ls[1..], Undefined, [], 0 + 1);
    assert rest.1 == [];
    assert [Events.Invocation(one.callback, Undefined, [])] + rest.1 == [Events.Invocation(1, Undefined, [])];
    assert InvokeAsWritten(ls, Undefined, [], 0) == ([two], [Events.Invocation(1, Undefined, [])]);
    assert [two][1..] == [];
    assert Kept([two]) == [];
    assert ls[1..] == [two];
  }

  class Registry {
    /** `_knownEvents`, a sorted set. */
    const knownEvents: SortedSet
    /** `_events`: per event, its handlers in registration order. */
    var events: map<string, seq<Entry>>

    ghost predicate Valid()
      reads this, knownEvents
    {
      && knownEvents.Valid()
      && (forall e :: e in knownEvents.Elements() <==> e in KnownEvents)
      && forall e :: e in events ==> AllLive(events[e])
    }

    constructor ()
      ensures Valid() && events == map[]
    {
      knownEvents := new SortedSet(KnownEvents);
      events := map[];
    }

    /** `register(evt, clbk, max_calls)`: a name outside the vocabulary throws;
        otherwise the handler joins the end of the event's list. */
    method Register(evt: string, callback: Events.CallbackId, maxCalls: Option<int>) returns (r: Outcome<LegacyError>)
      requires Valid()
      modifies this
      ensures Valid()
      ensures r.Fail? <==> evt !in KnownEvents
      ensures r.Fail? ==> r.error == UnknownEvent(evt) && events == old(events)
      ensures r.Pass? ==> events == old(events)[evt := (if evt in old(events) then old(events)[evt] else []) + [Entry(callback, Allowance(maxCalls))]]
    {
      var budget := Allowance(maxCalls);
      var known := knownEvents.Has(evt);
      assert known <==> evt in knownEvents.Elements();
      assert evt in knownEvents.Elements() <==> evt in KnownEvents;
      if !known {
        return Fail(UnknownEvent(evt));
      }
      if evt !in events {
        events := events[evt := []];
      }
      events := events[evt := events[evt] + [Entry(callback, budget)]];
      r := Pass;
    }

    /** `invokeEventHandlers(evt, context, params)` as intended: every handler is
        called in order, then counted down, and dropped when its count reaches
        zero. A name outside the vocabulary throws; an event nobody registered for
        does nothing. */
    method InvokeEventHandlers(evt: string, ctx: Json, params: seq<Json>) returns (r: Outcome<LegacyError>, invoked: seq<Events.Invocation>)
      requires Valid()
      modifies this
      ensures Valid()
      ensures r.Fail? <==> evt !in KnownEvents
      ensures r.Fail? ==> r.error == UnknownEvent(evt)
      ensures r.Fail? || evt !in old(events) ==> events == old(events) && invoked == []
      ensures r.Pass? && evt in old(events) ==>
        && invoked == Calls(old(events)[evt], ctx, params)
        && events == old(events)[evt := Kept(old(events)[evt])]
    {
      invoked := [];
      var known := knownEvents.Has(evt);
      assert known <==> evt in knownEvents.Elements();
      assert evt in knownEvents.Elements() <==> evt in KnownEvents;
      if !known {
        return Fail(UnknownEvent(evt)), invoked;
      }
      if evt !in events {
        return Pass, invoked;
      }
      var ls := events[evt];
      var kept: seq<Entry> := [];
      var i := 0;
      while i < |ls|
        invariant 0 <= i <= |ls|
        invariant events == old(events)
        invariant kept == Kept(ls[..i])
        invariant invoked == Calls(ls[..i], ctx, params)
      {
        invoked := invoked + [Events.Invocation(ls[i].callback, ctx, params)];
        KeptConcat(ls[..i], [ls[i]]);
        assert ls[..i + 1] == ls[..i] + [ls[i]];
        assert [ls[i]][1..] == [];
        kept := kept + Tick(ls[i]);
        i := i + 1;
      }
      assert ls[..i] == ls;
      events := events[evt := kept];
      r := Pass;
    }
  }

  /** How `page.onCallback` handles a message from the page. */
  datatype Handling =
    /** `_page.render('screenshot-' + suffix + '.png')`; `None` is the time stamp. */
    | Screenshot(suffix: Option<string>)
    /** `_page.sendEvent.apply(this, msg.action)`. */
    | UserInput(action: Json)
    /** An action that is neither. */
    | Ignored
    /** A test result, logged at `Info` when its state is `'ok'`. */
    | Logged(level: Level)
    /** `resolve("Testsuite terminated.")`. */
    | Finished(message: string)

  datatype Level = Info | Warning

  datatype CallbackError =
    | NotAnObject
    | InvalidMessage
    | UnknownType(tag: Json)

  /** The keys whose actions are replayed as user input. */
  const UserInputEventKeys: seq<string> := ["mousemove", "click", "mousedown", "keydown", "mouseup", "keyup", "keypress"]

  function ActionVerb(msg: Json): Result<Json, CallbackError> {
    var action := Field(msg, "action");
    if action.Err? || Index(action.value, 0).Err? then Err(NotAnObject) else Ok(Index(action.value, 0).value)
  }

  /** `page.onCallback(msg)` classified by `msg.type`. */
  function Classify(msg: Json): (r: Result<Handling, CallbackError>)
    ensures msg == Undefined || msg == Null ==> r == Err(NotAnObject)
    ensures Field(msg, "type") == Ok(Undefined) ==> r == Err(InvalidMessage)
    ensures r.Ok? && r.value.Finished? <==> Field(msg, "type") == Ok(Str("finish"))
    ensures r.Ok? && r.value.Logged? <==> Field(msg, "type") == Ok(Str("test")) && Field(Field(msg, "test").value, "state").Ok?
    ensures r.Ok? && r.value.Logged? ==> (r.value.level == Info <==> Field(Field(msg, "test").value, "state") == Ok(Str("ok")))
    ensures r.Ok? && r.value.UserInput? <==>
      Field(msg, "type") == Ok(Str("action")) && ActionVerb(msg).Ok? && exists k :: k in UserInputEventKeys && ActionVerb(msg).value == Str(k)
    ensures r.Err? && r.error.UnknownType? <==>
      Field(msg, "type").Ok? && Field(msg, "type").value !in {Undefined, Str("action"), Str("test"), Str("finish")}
    ensures r.Err? && r.error.UnknownType? ==> r.error.tag == Field(msg, "type").value
  {
    var tag := Field(msg, "type");
    if tag.Err? then Err(NotAnObject)
    else if tag.value == Undefined then Err(InvalidMessage)
    else if tag.value == Str("action") then
      var verb := ActionVerb(msg);
      if verb.Err? then Err(verb.error)
      else if verb.value == Str("screenshot") then
        var action := Field(msg, "action").value;
        var second := Index(action, 1).value;
        Ok(Screenshot(if Truthy(second) then Some(ToText(second)) else None))
      else if exists k :: k in UserInputEventKeys && verb.value == Str(k) then Ok(UserInput(Field(msg, "action").value))
      else Ok(Ignored)
    else if tag.value == Str("test") then
      var test := Field(msg, "test").value;
      var state := Field(test, "state");
      if state.Err? then Err(NotAnObject)
      else Ok(Logged(if state.value == Str("ok") then Info else Warning))
    else if tag.value == Str("finish") then Ok(Finished("Testsuite terminated."))
    else Err(UnknownType(tag.value))
  }
}
