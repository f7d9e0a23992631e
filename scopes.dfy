/**
 * `EventScope` of Event.kt: remembers, per event class, the handlers
 * subscribed through it, and unsubscribes them all at once.
 *
 * The source finds a class's channel by looking up, through reflection,
 * the `on` and `clear` members of its companion object. Here a registry
 * maps each event class to its channel; a class missing from the registry
 * is one whose lookup fails, which the source silently skips.
 */
module Scopes {
  import opened Trace
  import opened Events

  /** Each event class has its own companion object, so no two classes share a channel. */
  predicate Distinct<V>(registry: map<TypeId, Event<V>>)
  {
    forall t, u | t in registry && u in registry && t != u :: registry[t] != registry[u]
  }

  /** The channel, if any, that a lookup for class `t` resolves to. */
  function Resolved<V>(registry: map<TypeId, Event<V>>, t: TypeId): (r: set<Event<V>>)
    ensures r <= registry.Values && |r| <= 1
    ensures r == {} <==> t !in registry
    ensures t in registry ==> r == {registry[t]}
  {
    if t in registry then {registry[t]} else {}
  }

  /** One `clear(h)` per recorded handler, in recording order. */
  function RemoveAll(hs: seq<HandlerId>, rs: seq<HandlerId>): (r: seq<HandlerId>)
    ensures |hs| - |rs| <= |r| <= |hs|
    decreases rs
  {
    if rs == [] then hs else RemoveAll(RemoveFirst(hs, rs[0]), rs[1..])
  }

  /** Each recorded occurrence takes away one subscription of that handler, while it has any left. */
  lemma {:induction false} RemoveAllMultiset(hs: seq<HandlerId>, rs: seq<HandlerId>)
    ensures multiset(RemoveAll(hs, rs)) == multiset(hs) - multiset(rs)
    decreases rs
  {
    if rs != [] {
      RemoveFirstMultiset(hs, rs[0]);
      assert rs == [rs[0]] + rs[1..];
      RemoveAllMultiset(RemoveFirst(hs, rs[0]), rs[1..]);
    }
  }

  /** The handlers of `hs` outside `S`, in their order. */
  function Outside(hs: seq<HandlerId>, S: set<HandlerId>): (r: seq<HandlerId>)
  {
    if hs == [] then []
    else (if hs[0] in S then [] else [hs[0]]) + Outside(hs[1..], S)
  }

  /** The channel state after the recorded handlers `rs` are cleared from it. */
  function Released<V>(s: ChannelState<V>, rs: seq<HandlerId>): (r: ChannelState<V>)
    ensures r.sticky == s.sticky && r.lastEmit == s.lastEmit && r.trace == s.trace
    ensures multiset(r.handlers) == multiset(s.handlers) - multiset(rs)
  {
    RemoveAllMultiset(s.handlers, rs);
    s.(handlers := RemoveAll(s.handlers, rs))
  }

  class EventScope {
    var handlers: map<TypeId, seq<HandlerId>>

    constructor ()
      ensures handlers == map[]
    {
      handlers := map[];
    }

    /**
     * Records `h` under class `t` and subscribes it on `t`'s channel when
     * the lookup resolves one; otherwise only the record is made.
     */
    method On<V>(t: TypeId, h: HandlerId, registry: map<TypeId, Event<V>>)
      modifies this, Resolved(registry, t)
      ensures handlers == old(handlers)[t := (if t in old(handlers) then old(handlers)[t] else []) + [h]]
      ensures t in registry ==> registry[t].State() == Subscribed(old(registry[t].State()), h)
      ensures t !in registry ==> forall u | u in registry :: registry[u].State() == old(registry[u].State())
    {
      if t in handlers {
        handlers := handlers[t := handlers[t] + [h]];
      } else {
        assert [] + [h] == [h];
        handlers := handlers[t := [h]];
      }
      if t in registry {
        var subscribed := registry[t].On(h);
      }
    }

    /**
     * Clears every recorded handler from its class's channel, skipping
     * classes whose lookup fails, and then forgets all records.
     */
    method Clear<V>(registry: map<TypeId, Event<V>>)
      requires Distinct(registry)
      modifies this, registry.Values
      ensures handlers == map[]
      ensures forall t | t in registry ::
        registry[t].State() ==
          if t in old(handlers) then Released(old(registry[t].State()), old(handlers)[t])
          else old(registry[t].State())
    {
      var pending := handlers.Keys;
      while pending != {}
        invariant pending <= handlers.Keys
        invariant forall t | t in registry ::
          registry[t].State() ==
            if t in handlers && t !in pending then Released(old(registry[t].State()), handlers[t])
            else old(registry[t].State())
        modifies registry.Values
        decreases pending
      {
        var t :| t in pending;
        if t in registry {
          ReleaseRecorded(registry[t], handlers[t]);
        }
        pending := pending - {t};
      }
      handlers := map[];
    }
  }

  /** The inner loop of `EventScope.clear`: one `clear(h)` on the channel per recorded handler, in order. */
  method ReleaseRecorded<V>(channel: Event<V>, recorded: seq<HandlerId>)
    modifies channel
    ensures channel.State() == Released(old(channel.State()), recorded)
  {
    var j := 0;
    while j < |recorded|
      invariant 0 <= j <= |recorded|
      invariant channel.handlers == RemoveAll(old(channel.handlers), recorded[..j])
      invariant channel.lastEmit == old(channel.lastEmit) && channel.trace == old(channel.trace)
    {
      var done, r := recorded[..j], recorded[j];
      assert recorded[..j + 1] == done + [r];
      RemoveAllSnoc(channel.handlers, old(channel.handlers), done, r);
      channel.Clear(r);
      j := j + 1;
    }
    assert recorded[..j] == recorded;
  }

  /** `EventHandler.clear<T>()`: unsubscribe this handler from `T`'s channel, if the lookup finds one. */
  method HandlerClear<V>(h: HandlerId, t: TypeId, registry: map<TypeId, Event<V>>)
    modifies Resolved(registry, t)
    ensures t in registry ==> registry[t].State() == Cleared(old(registry[t].State()), h)
  {
    if t in registry {
      registry[t].Clear(h);
    }
  }

  /** Clearing one more recorded handler is one more `RemoveFirst`. */
  lemma {:induction false} RemoveAllSnoc(current: seq<HandlerId>, hs: seq<HandlerId>, rs: seq<HandlerId>, r: HandlerId)
    requires current == RemoveAll(hs, rs)
    ensures RemoveAll(hs, rs + [r]) == RemoveFirst(current, r)
    decreases rs
  {
    if rs == [] {
      assert rs + [r] == [r];
      assert RemoveAll(hs, [r]) == RemoveAll(RemoveFirst(hs, r), []);
    } else {
      var longer := rs + [r];
      assert longer[0] == rs[0] && longer[1..] == rs[1..] + [r];
      var next := RemoveFirst(hs, rs[0]);
      assert RemoveAll(hs, longer) == RemoveAll(next, rs[1..] + [r]);
      assert current == RemoveAll(next, rs[1..]);
      RemoveAllSnoc(current, next, rs[1..], r);
    }
  }

  lemma {:induction false} RemoveFirstOutside(hs: seq<HandlerId>, h: HandlerId, S: set<HandlerId>)
    requires h in S
    ensures Outside(RemoveFirst(hs, h), S) == Outside(hs, S)
  {
    if hs != [] && hs[0] != h {
      var rest := RemoveFirst(hs[1..], h);
      assert ([hs[0]] + rest)[1..] == rest;
      RemoveFirstOutside(hs[1..], h, S);
    }
  }

  /**
   * Releasing recorded handlers leaves every handler outside the record
   * exactly where it was: same handlers, same number, same order.
   */
  lemma {:induction false} RemoveAllOutside(hs: seq<HandlerId>, rs: seq<HandlerId>, S: set<HandlerId>)
    requires forall r | r in rs :: r in S
    ensures Outside(RemoveAll(hs, rs), S) == Outside(hs, S)
    decreases rs
  {
    if rs != [] {
      RemoveFirstOutside(hs, rs[0], S);
      assert forall r | r in rs[1..] :: r in rs;
      RemoveAllOutside(RemoveFirst(hs, rs[0]), rs[1..], S);
    }
  }

  /**
   * Handlers subscribed through a scope onto a channel none of them was on
   * are exactly undone by releasing the record, whatever the order.
   */
  lemma {:induction false} RemoveAllUndoesAppend(hs: seq<HandlerId>, rs: seq<HandlerId>)
    requires forall r | r in rs :: r !in hs
    ensures RemoveAll(hs + rs, rs) == hs
  {
    if rs == [] {
      assert hs + rs == hs;
    } else {
      var all := hs + rs;
      assert all[..|hs|] == hs;
      RemoveFirstAt(all, rs[0], |hs|);
      assert all[|hs| + 1..] == rs[1..];
      assert forall r | r in rs[1..] :: r in rs;
      RemoveAllUndoesAppend(hs, rs[1..]);
    }
  }

  /**
   * A handler recorded by the scope at least as often as it is subscribed
   * is neither called nor posted by any emit after the scope is cleared.
   */
  lemma ReleasedHandlerSilenced<V>(s: ChannelState<V>, rs: seq<HandlerId>, h: HandlerId, v: V)
    requires multiset(s.handlers)[h] <= multiset(rs)[h]
    ensures h !in Released(s, rs).handlers
    ensures !Mentions(Emission(Released(s, rs).handlers, v), h)
  {
    assert multiset(Released(s, rs).handlers)[h] == 0;
    EmissionMentions(Released(s, rs).handlers, v, h);
  }

  /** After a scope clear, a handler the scope did not record keeps each of its subscriptions. */
  lemma UnrecordedHandlerKept<V>(s: ChannelState<V>, rs: seq<HandlerId>, h: HandlerId)
    requires h !in rs
    ensures multiset(Released(s, rs).handlers)[h] == multiset(s.handlers)[h]
  {
  }
}
