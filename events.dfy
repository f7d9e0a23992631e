/**
 * The per-type channel `Event<T>` of Event.kt: a sticky flag fixed at
 * construction, the last emitted value, and an immutable handler list that
 * `on` and `clear` replace wholesale.
 */
module Events {
  import opened Trace

  /** The whole observable state of one channel, with the effects it has caused so far. */
  datatype ChannelState<V> = ChannelState(
    sticky: bool,
    handlers: seq<HandlerId>,
    lastEmit: Option<V>,
    trace: seq<Effect<V>>)

  /** Kotlin's `list - element`: drop the first occurrence of `h`, if any. */
  function RemoveFirst(hs: seq<HandlerId>, h: HandlerId): (r: seq<HandlerId>)
    ensures |r| == if h in hs then |hs| - 1 else |hs|
  {
    if hs == [] then []
    else if hs[0] == h then hs[1..]
    else [hs[0]] + RemoveFirst(hs[1..], h)
  }

  /** The state after `emit(v)`. */
  function Emitted<V>(s: ChannelState<V>, v: V): (r: ChannelState<V>)
    ensures r.sticky == s.sticky && r.handlers == s.handlers && r.lastEmit == Some(v)
    ensures |r.trace| == |s.trace| + 2 * |s.handlers| && r.trace[..|s.trace|] == s.trace
    ensures s.handlers == [] ==> r == s.(lastEmit := Some(v))
  {
    s.(trace := s.trace + Emission(s.handlers, v), lastEmit := Some(v))
  }

  /** The state after `on(h)`: append, then on a sticky channel with a stored value, emit that value again. */
  function Subscribed<V>(s: ChannelState<V>, h: HandlerId): (r: ChannelState<V>)
    ensures r.sticky == s.sticky && r.handlers == s.handlers + [h] && r.lastEmit == s.lastEmit
    ensures !s.sticky || s.lastEmit == None ==> r.trace == s.trace
  {
    var joined := s.(handlers := s.handlers + [h]);
    if s.sticky && s.lastEmit.Some? then Emitted(joined, s.lastEmit.value) else joined
  }

  /** The state after `clear(h)`. */
  function Cleared<V>(s: ChannelState<V>, h: HandlerId): (r: ChannelState<V>)
    ensures r.sticky == s.sticky && r.lastEmit == s.lastEmit && r.trace == s.trace
    ensures multiset(r.handlers) == multiset(s.handlers) - multiset{h}
  {
    RemoveFirstMultiset(s.handlers, h);
    s.(handlers := RemoveFirst(s.handlers, h))
  }

  /** A channel as the source keeps it; `trace` records the handler calls and posts it has made. */
  class Event<V> {
    const sticky: bool
    var handlers: seq<HandlerId>
    var lastEmit: Option<V>
    var trace: seq<Effect<V>>

    function State(): (r: ChannelState<V>)
      reads this
    {
      ChannelState(sticky, handlers, lastEmit, trace)
    }

    constructor (sticky: bool)
      ensures State() == ChannelState(sticky, [], None, [])
    {
      this.sticky := sticky;
      handlers := [];
      lastEmit := None;
      trace := [];
    }

    /** Subscribes `h` and returns it. */
    method On(h: HandlerId) returns (r: HandlerId)
      modifies this
      ensures r == h
      ensures State() == Subscribed(old(State()), h)
    {
      handlers := handlers + [h];
      if sticky {
        match lastEmit
        case None =>
          return h;
        case Some(v) =>
          Emit(v);
      }
      return h;
    }

    /** Unsubscribes the first occurrence of `h`; does nothing when `h` is not subscribed. */
    method Clear(h: HandlerId)
      modifies this
      ensures State() == Cleared(old(State()), h)
    {
      handlers := RemoveFirst(handlers, h);
    }

    /**
     * Calls every handler of the list as it stands on entry, posting each
     * handler's main-thread call right after its immediate call, and then
     * stores `v` as the last emitted value, sticky or not.
     */
    method Emit(v: V)
      modifies this
      ensures State() == Emitted(old(State()), v)
    {
      var snapshot := handlers;
      var i := 0;
      while i < |snapshot|
        invariant 0 <= i <= |snapshot|
        invariant handlers == snapshot && lastEmit == old(lastEmit)
        invariant trace == old(trace) + Emission(snapshot[..i], v)
      {
        var h := snapshot[i];
        assert snapshot[..i + 1] == snapshot[..i] + [h];
        EmissionAppend(snapshot[..i], [h], v);
        trace := trace + [Effect(Immediate, h, v)];
        trace := trace + [Effect(Posted, h, v)];
        i := i + 1;
      }
      assert snapshot[..i] == snapshot;
      lastEmit := Some(v);
    }
  }

  lemma {:induction false} RemoveFirstMultiset(hs: seq<HandlerId>, h: HandlerId)
    ensures multiset(RemoveFirst(hs, h)) == multiset(hs) - multiset{h}
  {
    if hs != [] {
      assert hs == [hs[0]] + hs[1..];
      if hs[0] != h {
        RemoveFirstMultiset(hs[1..], h);
      }
    }
  }

  /** Removing a handler that is not subscribed leaves the list as it is. */
  lemma {:induction false} RemoveFirstAbsent(hs: seq<HandlerId>, h: HandlerId)
    requires h !in hs
    ensures RemoveFirst(hs, h) == hs
  {
    if hs != [] {
      RemoveFirstAbsent(hs[1..], h);
      assert [hs[0]] + hs[1..] == hs;
    }
  }

  /** Only the first occurrence goes; everything before and after it keeps its order. */
  lemma {:induction false} RemoveFirstAt(hs: seq<HandlerId>, h: HandlerId, i: nat)
    requires i < |hs| && hs[i] == h && h !in hs[..i]
    ensures RemoveFirst(hs, h) == hs[..i] + hs[i + 1..]
  {
    if i > 0 {
      assert hs[0] in hs[..i];
      assert hs[1..][..i - 1] == hs[1..i];
      assert h !in hs[1..][..i - 1];
      RemoveFirstAt(hs[1..], h, i - 1);
      assert hs[1..][i..] == hs[i + 1..];
      assert [hs[0]] + hs[1..i] == hs[..i];
    }
  }

  /** Clearing a handler subscribed at most once, a second time, changes nothing. */
  lemma ClearTwice<V>(s: ChannelState<V>, h: HandlerId)
    requires multiset(s.handlers)[h] <= 1
    ensures h !in Cleared(s, h).handlers
    ensures Cleared(Cleared(s, h), h) == Cleared(s, h)
  {
    var once := Cleared(s, h);
    assert multiset(once.handlers)[h] == 0;
    RemoveFirstAbsent(once.handlers, h);
  }

  /**
   * `emit(v)` calls every handler once with `v` and posts for every handler
   * once with `v`, both in list order, each handler's post directly after
   * its call, and adds nothing else to the trace.
   */
  lemma EmitDelivers<V>(s: ChannelState<V>, v: V)
    ensures Calls(Emitted(s, v).trace, Immediate) == Calls(s.trace, Immediate) + Deliveries(s.handlers, v)
    ensures Calls(Emitted(s, v).trace, Posted) == Calls(s.trace, Posted) + Deliveries(s.handlers, v)
    ensures forall i | 0 <= i < |s.handlers| ::
      Emitted(s, v).trace[|s.trace| + 2 * i] == Effect(Immediate, s.handlers[i], v) &&
      Emitted(s, v).trace[|s.trace| + 2 * i + 1] == Effect(Posted, s.handlers[i], v)
  {
    CallsAppend(s.trace, Emission(s.handlers, v), Immediate);
    CallsAppend(s.trace, Emission(s.handlers, v), Posted);
    EmissionCalls(s.handlers, v);
    forall i | 0 <= i < |s.handlers|
      ensures Emitted(s, v).trace[|s.trace| + 2 * i] == Effect(Immediate, s.handlers[i], v)
      ensures Emitted(s, v).trace[|s.trace| + 2 * i + 1] == Effect(Posted, s.handlers[i], v)
    {
      EmissionAt(s.handlers, v, i);
    }
  }

  /**
   * On a sticky channel holding `v`, `on(h)` delivers `v` again to every
   * handler already subscribed and then to `h`, calls and posts alike.
   */
  lemma StickySubscribeReplays<V>(s: ChannelState<V>, h: HandlerId, v: V)
    requires s.sticky && s.lastEmit == Some(v)
    ensures Calls(Subscribed(s, h).trace, Immediate) == Calls(s.trace, Immediate) + Deliveries(s.handlers + [h], v)
    ensures Calls(Subscribed(s, h).trace, Posted) == Calls(s.trace, Posted) + Deliveries(s.handlers + [h], v)
    ensures Subscribed(s, h).lastEmit == Some(v)
  {
    EmitDelivers(s.(handlers := s.handlers + [h]), v);
  }

  /**
   * A handler that joins a non-sticky channel after `emit(v)` sees nothing of
   * that emit nor of its own subscription, even if it was subscribed before
   * and cleared since.
   */
  lemma NonStickyLateSubscriber<V>(s: ChannelState<V>, v: V, h: HandlerId)
    requires !s.sticky && h !in s.handlers
    ensures !Mentions(Subscribed(Emitted(s, v), h).trace[|s.trace|..], h)
  {
    EmissionMentions(s.handlers, v, h);
    assert Subscribed(Emitted(s, v), h).trace[|s.trace|..] == Emission(s.handlers, v);
  }

  /** A handler that joins a sticky channel after `emit(v)` is called and posted with `v` by `on` itself. */
  lemma StickyLateSubscriber<V>(s: ChannelState<V>, v: V, h: HandlerId)
    requires s.sticky
    ensures Call(h, v) in Calls(Subscribed(Emitted(s, v), h).trace[|Emitted(s, v).trace|..], Immediate)
    ensures Call(h, v) in Calls(Subscribed(Emitted(s, v), h).trace[|Emitted(s, v).trace|..], Posted)
  {
    var e := Emitted(s, v);
    assert Subscribed(e, h).trace[|e.trace|..] == Emission(e.handlers + [h], v);
    EmissionCalls(e.handlers + [h], v);
    var ds := Deliveries(e.handlers + [h], v);
    assert ds[|ds| - 1] == Call(h, v);
  }

  /** The channel after a series of emits, in order. */
  function EmitSeries<V>(s: ChannelState<V>, vs: seq<V>): (r: ChannelState<V>)
    ensures r.handlers == s.handlers
    ensures vs != [] ==> r.lastEmit == Some(vs[|vs| - 1])
  {
    if vs == [] then s else Emitted(EmitSeries(s, vs[..|vs| - 1]), vs[|vs| - 1])
  }

  /** `n` emits on a channel with `m` handlers make exactly `n * m` immediate calls and `n * m` posts. */
  lemma {:induction false} EmitSeriesCount<V>(s: ChannelState<V>, vs: seq<V>)
    ensures |Calls(EmitSeries(s, vs).trace, Immediate)| == |Calls(s.trace, Immediate)| + |vs| * |s.handlers|
    ensures |Calls(EmitSeries(s, vs).trace, Posted)| == |Calls(s.trace, Posted)| + |vs| * |s.handlers|
  {
    if vs != [] {
      var prefix, last := vs[..|vs| - 1], vs[|vs| - 1];
      var n, m := |prefix|, |s.handlers|;
      calc {
        |vs| * m;
        (n + 1) * m;
        n * m + m;
      }
      var before := EmitSeries(s, prefix);
      assert EmitSeries(s, vs) == Emitted(before, last);
      EmitSeriesCount(s, prefix);
      EmitDelivers(before, last);
      assert |Deliveries(before.handlers, last)| == m;
    }
  }

  /**
   * A non-sticky channel C: subscribe h1, emit a, subscribe h2, emit b.
   * h1 is called with a, then h1 and h2 in that order with b; the posts follow the same order.
   */
  lemma NonStickyScenario<V>(h1: HandlerId, h2: HandlerId, a: V, b: V)
    ensures
      var s := Emitted(Subscribed(Emitted(Subscribed(ChannelState(false, [], None, []), h1), a), h2), b);
      Calls(s.trace, Immediate) == [Call(h1, a), Call(h1, b), Call(h2, b)] &&
      Calls(s.trace, Posted) == [Call(h1, a), Call(h1, b), Call(h2, b)]
  {
    var s1 := Subscribed(ChannelState(false, [], None, []), h1);
    EmitDelivers(s1, a);
    var s2 := Subscribed(Emitted(s1, a), h2);
    EmitDelivers(s2, b);
  }

  /** A sticky channel D with no handlers: emit x, then subscribe h3; h3 is called and posted with x. */
  lemma StickyScenario<V>(h3: HandlerId, x: V)
    ensures
      var s := Subscribed(Emitted(ChannelState(true, [], None, []), x), h3);
      s.trace == [Effect(Immediate, h3, x), Effect(Posted, h3, x)] && s.lastEmit == Some(x)
  {
  }
}
