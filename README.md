# Kev event bus, modelled in Dafny

Kev's event bus (`src/main/java/com/kev/framework/Event.kt`) lets components
exchange typed event values in-process. Every event class `T` has one channel,
an `Event<T>` companion object. A channel holds three things:

- a `sticky` flag, fixed when the channel is built;
- the last emitted value;
- an immutable list of `EventHandler`s, replaced wholesale by `on` and `clear`.

`emit` calls each handler's `on(evt)` on the calling thread and posts its
`onMain(evt)` to the Android main looper. An `EventScope` records the handlers
subscribed through it, per event class, so that a consumer can unsubscribe
them all with one `clear()`.

The model has three modules:

- `Trace` (trace.dfy): handler ids, event-class ids and the effect trace. Every
  handler call and every main-looper post is one trace entry. It also holds
  `Emission`, the effects of one emit.
- `Events` (events.dfy): the channel. It has a value-level specification over
  `ChannelState` (`Emitted`, `Subscribed`, `Cleared`) and the class `Event<V>`.
  The class keeps the source's fields (`sticky`, `handlers`, `lastEmit`) plus
  the trace of effects it has caused. Each method is proved against the
  specification function.
- `Scopes` (scopes.dfy): `EventScope`, a class over a
  `map<TypeId, seq<HandlerId>>`, and `EventHandler.clear`. The source finds a
  channel by a reflective lookup of the companion object's `on`/`clear`
  members. Here a registry map from class id to channel stands in for that
  lookup. A class missing from the registry is a failed lookup.

The model states what the code does in four places where a reader might
expect otherwise:

- Subscribing to a sticky channel that holds a value re-emits that value to
  every subscribed handler, the new one last. It does not deliver to the new
  handler alone. It also reassigns `lastEmit`.
- `emit` interleaves per handler: call, post, call, post. It does not make all
  the calls first and then all the posts.
- `on` appends without checking for duplicates. `clear` removes only the first
  occurrence.
- When the lookup fails, `EventScope.on` records the handler and subscribes
  nothing, and `EventScope.clear` skips that class. No error is raised.

## Model

| member | source | states |
|---|---|---|
| `Trace.Emission` | src/main/java/com/kev/framework/Event.kt:120-127 | one emit over n handlers makes exactly 2n effects |
| `Trace.EmissionAt` | src/main/java/com/kev/framework/Event.kt:120-127 | in an emission, the i-th handler's immediate call is at position 2i and its post at position 2i+1 |
| `Trace.EmissionCalls` | src/main/java/com/kev/framework/Event.kt:120-127 | the immediate calls of an emission, and separately its posts, are exactly one delivery of the value to each handler, in list order |
| `Trace.EmissionMentions` | src/main/java/com/kev/framework/Event.kt:120-127 | an emission concerns a handler if and only if that handler is in the list |
| `Events.RemoveFirst` | src/main/java/com/kev/framework/Event.kt:113 | `handlers - h` shortens the list by one exactly when `h` is subscribed |
| `Events.RemoveFirstMultiset` | src/main/java/com/kev/framework/Event.kt:113 | `handlers - h` takes away exactly one occurrence of `h` when there is one, and touches no other handler |
| `Events.RemoveFirstAbsent` | src/main/java/com/kev/framework/Event.kt:113 | removing an absent handler leaves the list unchanged |
| `Events.RemoveFirstAt` | src/main/java/com/kev/framework/Event.kt:113 | only the first occurrence goes; the handlers before and after it keep their order |
| `Events.Emitted` | src/main/java/com/kev/framework/Event.kt:119-130 | emit keeps the handler list and the sticky flag, sets `lastEmit` to the value whether or not the channel is sticky, only appends to the trace (two effects per handler), and with no handlers only sets `lastEmit` |
| `Events.Subscribed` | src/main/java/com/kev/framework/Event.kt:99-107 | on appends the handler, with no duplicate check, and keeps `lastEmit`; on a non-sticky channel, or a sticky one that never emitted, the trace is unchanged |
| `Events.Cleared` | src/main/java/com/kev/framework/Event.kt:112-114 | clear removes one occurrence of the handler and changes nothing else |
| `Events.Event.constructor` | src/main/java/com/kev/framework/Event.kt:91-94 | a new channel has the given sticky flag, no handlers, no last value and no effects |
| `Events.Event.On` | src/main/java/com/kev/framework/Event.kt:99-107 | returns its argument and leaves the channel as `Subscribed` says |
| `Events.Event.Clear` | src/main/java/com/kev/framework/Event.kt:112-114 | leaves the channel as `Cleared` says |
| `Events.Event.Emit` | src/main/java/com/kev/framework/Event.kt:119-130 | the loop over a snapshot of the handler list leaves the channel as `Emitted` says |
| `Events.ClearTwice` | src/main/java/com/kev/framework/Event.kt:112-114 | after clearing a handler subscribed at most once, it is gone, and clearing it again changes nothing |
| `Events.EmitDelivers` | src/main/java/com/kev/framework/Event.kt:119-129 | emit delivers the value once to each handler in list order, both as an immediate call and as a post, each post right after its call, and adds nothing else |
| `Events.StickySubscribeReplays` | src/main/java/com/kev/framework/Event.kt:102-103 | on a sticky channel holding v, on(h) delivers v again to every old handler and then to h, as calls and as posts, and `lastEmit` stays v |
| `Events.NonStickyLateSubscriber` | src/main/java/com/kev/framework/Event.kt:99-107 | a handler not subscribed when emit(v) runs on a non-sticky channel gets neither a call nor a post from that emit or from its own later `on`, even if it was subscribed and cleared earlier |
| `Events.StickyLateSubscriber` | src/main/java/com/kev/framework/Event.kt:102-103 | a handler that joins a sticky channel after emit(v) gets a call and a post with v among the effects of that `on` itself |
| `Events.EmitSeries` | src/main/java/com/kev/framework/Event.kt:119-130 | a series of emits keeps the handler list and leaves the last value emitted in `lastEmit` |
| `Events.EmitSeriesCount` | src/main/java/com/kev/framework/Event.kt:119-130 | n emits on a channel with m handlers make exactly n*m immediate calls and n*m posts |
| `Events.NonStickyScenario` | src/main/java/com/kev/framework/Event.kt:99-130 | non-sticky: on(h1), emit(a), on(h2), emit(b) calls h1 with a, then h1 and h2 with b, and posts in the same order |
| `Events.StickyScenario` | src/main/java/com/kev/framework/Event.kt:99-130 | sticky and empty: emit(x) then on(h3) calls and posts h3 with x, with no further emit |
| `Scopes.Resolved` | src/main/java/com/kev/framework/Event.kt:28-31 | the reflective companion lookup (here for `on`; the `clear` lookups at lines 40-43 and 84-87 use the same registry) yields the channel registered for that class itself and no other, and yields none exactly when the class has no channel |
| `Scopes.RemoveAll` | src/main/java/com/kev/framework/Event.kt:45-47 | one `clear` per recorded handler shortens the list by at most one per record and never lengthens it |
| `Scopes.RemoveAllMultiset` | src/main/java/com/kev/framework/Event.kt:45-47 | clearing the recorded handlers one by one takes away one subscription per recorded occurrence, while any are left |
| `Scopes.Released` | src/main/java/com/kev/framework/Event.kt:43-48 | releasing a record touches only the handler list of the channel |
| `Scopes.EventScope.constructor` | src/main/java/com/kev/framework/Event.kt:11-12 | a new scope records nothing |
| `Scopes.EventScope.On` | src/main/java/com/kev/framework/Event.kt:17-32 | appends h to the record for class t (creating `[h]` when absent) and keeps the other records; subscribes h on t's channel if the lookup resolves one, otherwise changes no channel |
| `Scopes.EventScope.Clear` | src/main/java/com/kev/framework/Event.kt:37-53 | every channel whose class has a record loses one occurrence per recorded handler; channels of other classes stay as they were; the record ends empty, so a second clear changes nothing |
| `Scopes.ReleaseRecorded` | src/main/java/com/kev/framework/Event.kt:45-47 | the inner loop of clear leaves the channel as `Released` says |
| `Scopes.HandlerClear` | src/main/java/com/kev/framework/Event.kt:83-88 | `EventHandler.clear` is channel clear on the resolved channel, and does nothing when the lookup fails |
| `Scopes.RemoveFirstOutside` | src/main/java/com/kev/framework/Event.kt:113 | removing a handler from a set S leaves the handlers outside S, and their order, unchanged |
| `Scopes.RemoveAllOutside` | src/main/java/com/kev/framework/Event.kt:37-52 | a scope clear leaves the handlers it did not record in place: the same handlers, as many times, in the same order |
| `Scopes.RemoveAllUndoesAppend` | src/main/java/com/kev/framework/Event.kt:17-52 | handlers subscribed through a scope onto a channel where none of them was subscribed are exactly removed again by its clear |
| `Scopes.ReleasedHandlerSilenced` | src/main/java/com/kev/framework/Event.kt:37-52 | a handler recorded at least as often as it is subscribed is gone after clear, so no later emit calls or posts it |
| `Scopes.UnrecordedHandlerKept` | src/main/java/com/kev/framework/Event.kt:37-52 | a handler the scope did not record keeps every one of its subscriptions |

## Left out

- Android main looper (`MainHandler`, `Looper`): a post is one trace entry. The posted `onMain` calls are never run.
- Kotlin reflection (`companionObject`, the `members` lookup, `call`): replaced by the registry map. An absent key is a failed lookup. `Scopes.EventScope.Clear` requires that no two classes share a channel, which holds because each class has its own companion object.
- User callback bodies: the open `on`/`onMain` methods are only recorded. Callbacks that re-enter the bus are not modelled, beyond `emit` iterating a snapshot of the list.
- Thread safety: concurrent emits and list swaps are not modelled. The source has no locking.
- Nullable payload types: `lastEmit` is an `Option` over non-null values, so "emitted null" and "never emitted" are not conflated as `lastEmit ?:` does for a nullable `T`.
- Payload types: one registry holds channels of a single payload type `V`. The source's channels each have their own `T`.
- Global post order: each channel keeps its own trace. The interleaving, on the single main looper, of posts from different channels is not recorded.
- Public fields: the channel's `lastEmit` and `handlers` and the scope's `handlers` map are public `var`s in the source. Writes to them from outside `on`/`clear`/`emit` and the scope's own `on`/`clear` are not modelled.
- Throwing callbacks: every handler's `on(evt)` is assumed to return normally. In the source, a throwing `on` ends `emit` at once: that handler's post, every later handler and the `lastEmit = evt` assignment are skipped, and the exception propagates out of a sticky `on` and out of `EventScope.on`. `Events.Event.Emit` always completes.
- Handler equality: handlers are compared by identity. A handler subclass that overrides `equals` would change which element `handlers - handler` removes; that is not modelled.
- Sample.kt is usage only and has no logic to model.
