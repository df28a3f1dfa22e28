/**
  The compiler's signal hook (telco/comp.go).

  `On` subscribes a callback to one of the compiler's signals. For "diagnostics" the callback is
  not subscribed itself: it is stored in the compiler's `fn` field, overwriting any earlier one,
  and the subscription goes to `HijackFn`, which passes the callback only the payload's "text"
  field. `fn` is read when an event is delivered, not when the subscription is made.

  The native signal machinery is reduced to the compiler's list of subscriptions, which the
  engine calls in subscription order when it emits a signal (`Emit`).
*/
module Comp {
  import opened Base
  import opened Native

  const DiagnosticsSignal := "diagnostics"
  const OutputSignal := "output"

  /** A Go func value handed to `On`, known by its identity. */
  type Callback = nat

  /** What a subscription calls: the caller's callback, or the compiler's own hijack hook. */
  datatype Handler = Direct(cb: Callback) | Hijack

  datatype Subscription = Subscription(signal: string, handler: Handler)

  /** How a callback receives an event: the marshalled payload, or explicit arguments. */
  datatype Args = Marshalled(payload: Payload) | Positional(values: seq<Value>)

  datatype Invocation = Invocation(callee: Callback, args: Args)

  /** The callbacks one emitted event reaches, in order, and whether delivery panicked. */
  datatype Delivery = Delivery(invocations: seq<Invocation>, panicked: bool)

  /** The subscriptions to a signal. */
  function CountSignal(subs: seq<Subscription>, signal: string): (n: nat)
    ensures n <= |subs|
  {
    if subs == [] then 0
    else (if subs[0].signal == signal then 1 else 0) + CountSignal(subs[1..], signal)
  }

  /** The callbacks subscribed directly to a signal, in subscription order. */
  function DirectTargets(subs: seq<Subscription>, signal: string): (t: seq<Callback>)
    ensures |t| <= |subs|
    ensures forall cb :: cb in t <==> Subscription(signal, Direct(cb)) in subs
  {
    if subs == [] then []
    else
      assert subs == [subs[0]] + subs[1..];
      (if subs[0].signal == signal && subs[0].handler.Direct? then [subs[0].handler.cb] else [])
      + DirectTargets(subs[1..], signal)
  }

  /** n invocations of the same callback with the same arguments. */
  function Repeat(inv: Invocation, n: nat): (r: seq<Invocation>)
    ensures |r| == n
    ensures forall i :: 0 <= i < n ==> r[i] == inv
  {
    seq(n, _ => inv)
  }

  /** Invocations of each target in turn, each with the marshalled payload. */
  function CallEach(targets: seq<Callback>, payload: Payload): (r: seq<Invocation>)
    ensures |r| == |targets|
    ensures forall i :: 0 <= i < |r| ==> r[i] == Invocation(targets[i], Marshalled(payload))
  {
    seq(|targets|, i requires 0 <= i < |targets| => Invocation(targets[i], Marshalled(payload)))
  }

  lemma CallEachCons(cb: Callback, targets: seq<Callback>, payload: Payload)
    ensures CallEach([cb] + targets, payload) == [Invocation(cb, Marshalled(payload))] + CallEach(targets, payload)
  {
  }

  /** The subscription rule `On` keeps: a hijack hook exactly for "diagnostics". */
  ghost predicate HijackOnlyForDiagnostics(subs: seq<Subscription>)
  {
    forall i :: 0 <= i < |subs| ==> (subs[i].handler.Hijack? <==> subs[i].signal == DiagnosticsSignal)
  }

  /** A payload whose "text" entry is a string, as the hijack hook expects. */
  predicate HasText(diag: Payload)
  {
    "text" in diag && diag["text"].Str?
  }

  class Compiler {
    /** The callback the hijack hook forwards to; none until "diagnostics" is subscribed. */
    var fn: Option<Callback>
    var subscriptions: seq<Subscription>

    /** A hijack hook is only ever subscribed after a callback has been stored. */
    ghost predicate Valid()
      reads this
    {
      && HijackOnlyForDiagnostics(subscriptions)
      && (CountSignal(subscriptions, DiagnosticsSignal) > 0 ==> fn.Some?)
    }

    constructor ()
      ensures fn == None && subscriptions == []
      ensures Valid()
    {
      fn := None;
      subscriptions := [];
    }

    /** "diagnostics" stores the callback and subscribes the hijack hook; any other signal
        subscribes the callback itself and leaves the stored callback alone. */
    method On(sigName: string, cb: Callback)
      requires Valid()
      modifies this
      ensures Valid()
      ensures sigName == DiagnosticsSignal ==>
        fn == Some(cb) && subscriptions == old(subscriptions) + [Subscription(sigName, Hijack)]
      ensures sigName != DiagnosticsSignal ==>
        fn == old(fn) && subscriptions == old(subscriptions) + [Subscription(sigName, Direct(cb))]
    {
      if sigName == DiagnosticsSignal {
        fn := Some(cb);
        subscriptions := subscriptions + [Subscription(sigName, Hijack)];
      } else {
        subscriptions := subscriptions + [Subscription(sigName, Direct(cb))];
      }
      CountSignalAppend(old(subscriptions), Subscription(sigName, if sigName == DiagnosticsSignal then Hijack else Direct(cb)), DiagnosticsSignal);
    }

    /** The hijack hook: the stored callback, called with the payload's text as its single
        argument. None stands for the panic of a missing or non-string "text" entry, or of
        calling an unset callback. A stored callback is one that takes a single string. */
    function HijackFn(diag: Payload): (r: Option<Invocation>)
      reads this
      ensures r.Some? <==> HasText(diag) && fn.Some?
      ensures r.Some? ==> r.value.callee == fn.value && r.value.args == Positional([diag["text"]])
    {
      if HasText(diag) && fn.Some? then Some(Invocation(fn.value, Positional([diag["text"]])))
      else None
    }

    /** What the subscriptions in `subs` do, in order, for one event of `signal`. A panic
        stops the delivery. */
    function Deliver(subs: seq<Subscription>, signal: string, payload: Payload): (d: Delivery)
      reads this
      ensures |d.invocations| <= CountSignal(subs, signal)
    {
      if subs == [] then Delivery([], false)
      else
        var rest := Deliver(subs[1..], signal, payload);
        if subs[0].signal != signal then rest
        else match subs[0].handler
          case Direct(cb) => Delivery([Invocation(cb, Marshalled(payload))] + rest.invocations, rest.panicked)
          case Hijack =>
            match HijackFn(payload)
            case None => Delivery([], true)
            case Some(inv) => Delivery([inv] + rest.invocations, rest.panicked)
    }

    /** One event of `signal` with `payload`, delivered to every subscription. */
    function Emit(signal: string, payload: Payload): (d: Delivery)
      reads this
      ensures |d.invocations| <= CountSignal(subscriptions, signal)
    {
      Deliver(subscriptions, signal, payload)
    }

    /** A diagnostics event reaches only the stored callback, once for every hijack hook,
        each time with the payload's text; without a string "text" it panics at the first. */
    lemma {:induction false} DeliverDiagnostics(subs: seq<Subscription>, payload: Payload)
      requires HijackOnlyForDiagnostics(subs)
      requires CountSignal(subs, DiagnosticsSignal) > 0 ==> fn.Some?
      ensures HasText(payload) && fn.Some? ==>
        Deliver(subs, DiagnosticsSignal, payload) ==
          Delivery(Repeat(Invocation(fn.value, Positional([payload["text"]])),
                          CountSignal(subs, DiagnosticsSignal)), false)
      ensures HasText(payload) && fn.None? ==> Deliver(subs, DiagnosticsSignal, payload) == Delivery([], false)
      ensures !HasText(payload) && CountSignal(subs, DiagnosticsSignal) > 0 ==>
        Deliver(subs, DiagnosticsSignal, payload) == Delivery([], true)
    {
      if subs != [] {
        var tail := subs[1..];
        assert HijackOnlyForDiagnostics(tail) by {
          forall i | 0 <= i < |tail| ensures (tail[i].handler.Hijack? <==> tail[i].signal == DiagnosticsSignal) {
            assert tail[i] == subs[i + 1];
          }
        }
        assert subs[0].handler.Hijack? <==> subs[0].signal == DiagnosticsSignal;
        DeliverDiagnostics(tail, payload);
        if HasText(payload) && fn.Some? && subs[0].signal == DiagnosticsSignal {
          var inv := Invocation(fn.value, Positional([payload["text"]]));
          assert [inv] + Repeat(inv, CountSignal(tail, DiagnosticsSignal)) ==
            Repeat(inv, CountSignal(subs, DiagnosticsSignal));
        }
      }
    }

    /** Any other event reaches every callback subscribed to it, in subscription order, each
        with the whole payload, and never panics. */
    lemma {:induction false} DeliverOther(subs: seq<Subscription>, signal: string, payload: Payload)
      requires HijackOnlyForDiagnostics(subs)
      requires signal != DiagnosticsSignal
      ensures Deliver(subs, signal, payload) == Delivery(CallEach(DirectTargets(subs, signal), payload), false)
    {
      if subs != [] {
        var tail := subs[1..];
        assert HijackOnlyForDiagnostics(tail) by {
          forall i | 0 <= i < |tail| ensures (tail[i].handler.Hijack? <==> tail[i].signal == DiagnosticsSignal) {
            assert tail[i] == subs[i + 1];
          }
        }
        assert subs[0].handler.Hijack? <==> subs[0].signal == DiagnosticsSignal;
        DeliverOther(tail, signal, payload);
        var t := DirectTargets(tail, signal);
        if subs[0].signal == signal {
          var cb := subs[0].handler.cb;
          assert DirectTargets(subs, signal) == [cb] + t;
          CallEachCons(cb, t, payload);
        } else {
          assert DirectTargets(subs, signal) == t;
        }
      }
    }

    /** The two delivery rules for the compiler's own subscriptions. */
    lemma EmitRules(signal: string, payload: Payload)
      requires Valid()
      ensures signal == DiagnosticsSignal && HasText(payload) && fn.Some? ==>
        Emit(signal, payload) ==
          Delivery(Repeat(Invocation(fn.value, Positional([payload["text"]])),
                          CountSignal(subscriptions, DiagnosticsSignal)), false)
      ensures signal == DiagnosticsSignal && HasText(payload) && fn.None? ==>
        Emit(signal, payload) == Delivery([], false)
      ensures signal == DiagnosticsSignal && !HasText(payload) && CountSignal(subscriptions, DiagnosticsSignal) > 0 ==>
        Emit(signal, payload) == Delivery([], true)
      ensures signal != DiagnosticsSignal ==>
        Emit(signal, payload) == Delivery(CallEach(DirectTargets(subscriptions, signal), payload), false)
    {
      DeliverDiagnostics(subscriptions, payload);
      if signal != DiagnosticsSignal {
        DeliverOther(subscriptions, signal, payload);
      }
    }
  }

  lemma {:induction false} CountSignalAppend(subs: seq<Subscription>, s: Subscription, signal: string)
    ensures CountSignal(subs + [s], signal) == CountSignal(subs, signal) + (if s.signal == signal then 1 else 0)
  {
    if subs == [] {
      assert subs + [s] == [s];
      assert CountSignal([s], signal) == (if s.signal == signal then 1 else 0) + CountSignal([], signal);
    } else {
      assert (subs + [s])[0] == subs[0];
      assert (subs + [s])[1..] == subs[1..] + [s];
      CountSignalAppend(subs[1..], s, signal);
    }
  }

  /** Two diagnostics subscriptions: every event reaches the second callback twice and the
      first one never. */
  method TwoDiagnosticsCallbacks(first: Callback, second: Callback, payload: Payload) returns (d: Delivery)
    requires HasText(payload)
    ensures d == Delivery([Invocation(second, Positional([payload["text"]])),
                           Invocation(second, Positional([payload["text"]]))], false)
    ensures first != second ==> forall inv :: inv in d.invocations ==> inv.callee != first
  {
    var c := new Compiler();
    c.On(DiagnosticsSignal, first);
    c.On(DiagnosticsSignal, second);
    c.EmitRules(DiagnosticsSignal, payload);
    assert CountSignal(c.subscriptions, DiagnosticsSignal) == 2 by {
      CountSignalAppend([Subscription(DiagnosticsSignal, Hijack)], Subscription(DiagnosticsSignal, Hijack), DiagnosticsSignal);
      CountSignalAppend([], Subscription(DiagnosticsSignal, Hijack), DiagnosticsSignal);
      assert [] + [Subscription(DiagnosticsSignal, Hijack)] == [Subscription(DiagnosticsSignal, Hijack)];
    }
    d := c.Emit(DiagnosticsSignal, payload);
  }

  /** Two "output" subscriptions: every event reaches both callbacks, in subscription order,
      with the whole payload. */
  method TwoOutputCallbacks(first: Callback, second: Callback, payload: Payload) returns (d: Delivery)
    ensures d == Delivery([Invocation(first, Marshalled(payload)), Invocation(second, Marshalled(payload))], false)
  {
    var c := new Compiler();
    c.On(OutputSignal, first);
    c.On(OutputSignal, second);
    c.EmitRules(OutputSignal, payload);
    var subs := c.subscriptions;
    assert subs == [Subscription(OutputSignal, Direct(first)), Subscription(OutputSignal, Direct(second))];
    assert DirectTargets(subs, OutputSignal) == [first, second] by {
      assert subs[1..] == [Subscription(OutputSignal, Direct(second))];
      assert subs[1..][1..] == [];
    }
    d := c.Emit(OutputSignal, payload);
  }
}
