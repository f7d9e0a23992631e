/**
 * The observable effects of the event bus.
 *
 * Handler callbacks are arbitrary user code and the main looper is an
 * Android scheduler, so neither is executed here: every call of a
 * handler's `on(evt)` and every `MainHandler.post { onMain(evt) }` is
 * recorded as one entry of a trace, in the order the bus performs them.
 */
module Trace {

  datatype Option<+T> = None | Some(value: T)

  /**
   * A handler object. `EventHandler` itself does not override `equals`, so
   * handlers are taken to compare by identity (a subclass overriding
   * `equals` is not modelled).
   */
  type HandlerId = nat

  /** The class of an event (the `KClass` key of the source). */
  type TypeId = nat

  /** `Immediate`: `handler.on(evt)` on the emitting thread; `Posted`: `onMain(evt)` queued on the main looper. */
  datatype Kind = Immediate | Posted

  datatype Effect<V> = Effect(kind: Kind, handler: HandlerId, value: V)

  /** A delivery of one value to one handler. */
  datatype Call<V> = Call(handler: HandlerId, value: V)

  /**
   * The effects of delivering `v` to the handlers `hs`, handler by handler:
   * the immediate call of a handler is followed by the post for that same
   * handler before the next handler is called.
   */
  function Emission<V>(hs: seq<HandlerId>, v: V): (r: seq<Effect<V>>)
    ensures |r| == 2 * |hs|
  {
    if hs == [] then []
    else [Effect(Immediate, hs[0], v), Effect(Posted, hs[0], v)] + Emission(hs[1..], v)
  }

  /** Reference definition: every handler of `hs`, in order, receives `v` exactly once. */
  function Deliveries<V>(hs: seq<HandlerId>, v: V): (r: seq<Call<V>>)
  {
    seq(|hs|, i requires 0 <= i < |hs| => Call(hs[i], v))
  }

  /** The deliveries of kind `k` in a trace, in trace order. */
  function Calls<V>(tr: seq<Effect<V>>, k: Kind): (r: seq<Call<V>>)
    ensures |r| <= |tr|
  {
    if tr == [] then []
    else (if tr[0].kind == k then [Call(tr[0].handler, tr[0].value)] else []) + Calls(tr[1..], k)
  }

  /** Some effect of the trace concerns handler `h`. */
  predicate Mentions<V>(tr: seq<Effect<V>>, h: HandlerId)
  {
    exists i | 0 <= i < |tr| :: tr[i].handler == h
  }

  lemma {:induction false} EmissionAppend<V>(a: seq<HandlerId>, b: seq<HandlerId>, v: V)
    ensures Emission(a + b, v) == Emission(a, v) + Emission(b, v)
  {
    if a == [] {
      assert a + b == b;
    } else {
      assert (a + b)[1..] == a[1..] + b;
      EmissionAppend(a[1..], b, v);
    }
  }

  /** Position `2i` of an emission is the immediate call of the i-th handler, `2i + 1` its post. */
  lemma {:induction false} EmissionAt<V>(hs: seq<HandlerId>, v: V, i: nat)
    requires i < |hs|
    ensures Emission(hs, v)[2 * i] == Effect(Immediate, hs[i], v)
    ensures Emission(hs, v)[2 * i + 1] == Effect(Posted, hs[i], v)
  {
    if i > 0 {
      EmissionAt(hs[1..], v, i - 1);
    }
  }

  lemma {:induction false} CallsAppend<V>(a: seq<Effect<V>>, b: seq<Effect<V>>, k: Kind)
    ensures Calls(a + b, k) == Calls(a, k) + Calls(b, k)
  {
    if a == [] {
      assert a + b == b;
    } else {
      var first := if a[0].kind == k then [Call(a[0].handler, a[0].value)] else [];
      assert (a + b)[0] == a[0];
      assert (a + b)[1..] == a[1..] + b;
      CallsAppend(a[1..], b, k);
      calc {
        Calls(a + b, k);
        first + Calls(a[1..] + b, k);
        first + (Calls(a[1..], k) + Calls(b, k));
        (first + Calls(a[1..], k)) + Calls(b, k);
      }
    }
  }

  /** An emission calls every handler once, in list order, and posts for every handler once, in list order. */
  lemma {:induction false} EmissionCalls<V>(hs: seq<HandlerId>, v: V)
    ensures Calls(Emission(hs, v), Immediate) == Deliveries(hs, v)
    ensures Calls(Emission(hs, v), Posted) == Deliveries(hs, v)
  {
    if hs != [] {
      var head := [Effect(Immediate, hs[0], v), Effect(Posted, hs[0], v)];
      assert head[1..] == [Effect(Posted, hs[0], v)];
      assert head[1..][1..] == [];
      EmissionCalls(hs[1..], v);
      CallsAppend(head, Emission(hs[1..], v), Immediate);
      CallsAppend(head, Emission(hs[1..], v), Posted);
      assert Deliveries(hs, v) == [Call(hs[0], v)] + Deliveries(hs[1..], v);
    }
  }

  /** An emission concerns exactly the handlers of the list it was made from. */
  lemma EmissionMentions<V>(hs: seq<HandlerId>, v: V, h: HandlerId)
    ensures Mentions(Emission(hs, v), h) <==> h in hs
  {
    var tr := Emission(hs, v);
    if h in hs {
      var i :| 0 <= i < |hs| && hs[i] == h;
      EmissionAt(hs, v, i);
      assert tr[2 * i].handler == h;
    }
    if Mentions(tr, h) {
      var j :| 0 <= j < |tr| && tr[j].handler == h;
      EmissionAt(hs, v, j / 2);
      assert j == 2 * (j / 2) || j == 2 * (j / 2) + 1;
    }
  }
}
