# Keep-alive liveness aggregator — a Dafny model

This project models the keep-alive object of NetworkManager
(`src/nm-keep-alive.c`). A keep-alive decides whether an active connection
should stay up. It is alive when it is still *floating* (nobody has taken
ownership yet), when it is *forced*, when its watched settings connection has
the VISIBLE flag, or when a D-Bus client is registered whose presence on the
bus is confirmed lazily by one `GetNameOwner` call. Every entry point funnels
into one re-evaluation (`_notify_alive`). That re-evaluation flips the
published `alive` property, and raises one notification, only when the value
changes.

The model is functional:

- `types.dfy` (module `Types`): the private state as an immutable record
  `KeepAlive`, the client watch `ClientWatch`, and the effects a handler
  issues (connect/disconnect the flags-changed handler, issue a
  `GetNameOwner` call, cancel a call, subscribe/unsubscribe
  `NameOwnerChanged`). It also holds the effect-free liveness rule
  `ComputeAlive`, which the code's `_is_alive` is proved to agree with.
- `liveness.dfy` (module `Liveness`): one pure function per C function. Each
  returns the new state, the number of notifications (0 or 1) and the
  effects in issue order. The VISIBLE flags are an oracle: every function that
  re-evaluates takes the set of currently visible connections.
- `world.dfy` (module `World`): the keep-alive together with what its
  collaborators hold for it: connected handlers, live subscriptions,
  outstanding calls and cancelled calls. Events are delivered the way GLib
  delivers them. A flags-changed signal reaches only a connected handler. A
  `NameOwnerChanged` signal reaches only a live subscription whose name
  matches. Each call completes exactly once, and with a CANCELLED error when
  its cancellable was cancelled first. `Inv` is the invariant kept between
  events: the published bit equals the liveness rule; exactly the attached
  connection carries a handler; exactly the registered watch holds a
  subscription, for its name; every outstanding call that was not cancelled
  is the current registration's call; and a registration is confirmed
  exactly when its one call has been issued. The last clause also shows that
  the cancellable slot overwritten at src/nm-keep-alive.c:234 is always empty
  at that point, so no call escapes cancellation.
- `properties.dfy` (module `Properties`): every event keeps `Inv`, so after
  any history the published bit equals the liveness rule. It also proves
  that stale answers are ignored, that at most one call is live, that at
  most one call is issued per registration, that the setters are idempotent,
  and that disposal releases everything.
- `scenarios.dfy` (module `Scenarios`): concrete histories (sink, force,
  visibility change, client confirmed then leaving, client not on the bus,
  name held by another owner, replacement with a stale answer, empty name, lazy confirmation).

Three behaviours of the code that are easy to misread, which the model follows:

- `confirmed` is set when the `GetNameOwner` call is *issued*, not when it
  succeeds (src/nm-keep-alive.c:233).
- Only an absent client address clears the watch. The empty string is
  registered like any other name (src/nm-keep-alive.c:303).
- Attaching a settings connection re-evaluates only when `emit_signal` is
  set, and re-attaching the same connection is a complete no-op
  (src/nm-keep-alive.c:156-157, 174-175).

## Model

| member | source | states |
|---|---|---|
| Liveness.IsAlive | src/nm-keep-alive.c:75-96 | the answer equals the liveness rule; floating, forced or a visible attached connection short-circuit with no state change and no effect; a `GetNameOwner` call is issued iff all earlier checks fail and the registered client is unconfirmed |
| Liveness.IsAliveDbusClient | src/nm-keep-alive.c:221-250 | true iff a client is registered; with no client nothing changes; the only change is marking the watch confirmed, storing a fresh cancellable and issuing one call for the registered name, and this happens iff the watch was unconfirmed; afterwards the watch is confirmed |
| Liveness.NotifyAlive | src/nm-keep-alive.c:98-107 | the cached bit becomes the liveness rule's value; one notification iff it flipped; the liveness sources are unchanged; the only other change is the confirmation step of the check, and a call is issued iff nothing else keeps the object alive and the client is registered but unconfirmed |
| Liveness.Sink | src/nm-keep-alive.c:117-126 | floating is cleared; on an already sunk object it is a no-op; otherwise the bit agrees with the rule, a notification is raised iff it flipped, and the only other change is the confirmation step of the liveness check, which issues the call iff, with floating cleared, nothing else keeps the object alive and the client is unconfirmed |
| Liveness.SetForced | src/nm-keep-alive.c:128-137 | forced takes the new value; the same value is a no-op; a change re-evaluates with one notification iff the bit flipped, changing nothing else but the confirmation step, which issues the call iff, with the new flag, nothing else keeps the object alive and the client is unconfirmed (so forcing never issues one, and unforcing with only an unconfirmed client always does) |
| Liveness.ConnectionFlagsChanged | src/nm-keep-alive.c:141-146 | re-evaluates against the current visibility without changing any liveness source; the only other change is the confirmation step, which issues the call iff nothing else keeps the object alive and the client is unconfirmed |
| Liveness.SetConnectionWatch | src/nm-keep-alive.c:148-176 | the same connection is a no-op; otherwise the old handler is disconnected before the new one is connected; without `emit` nothing else changes and nothing is notified; with `emit` the bit agrees with the rule and the effects after the handler swap are exactly the confirmation step, which issues the call iff, with the new connection, nothing else keeps the object alive and the client is unconfirmed |
| Liveness.SetSettingsConnectionWatchVisible | src/nm-keep-alive.c:178-183 | the public setter always asks for re-evaluation: a different connection swaps the handler, then leaves the bit agreeing with the rule with only the confirmation step as further change, issuing the call iff nothing else keeps the object alive and the client is unconfirmed |
| Liveness.CleanupDbusWatch | src/nm-keep-alive.c:252-269 | the watch is gone, its call cancelled and its subscription released; with no client it is a no-op |
| Liveness.GetNameOwnerCb | src/nm-keep-alive.c:187-219 | a cancelled call changes nothing; an owner equal to the registered name changes nothing; an error or another owner tears the watch down (cancel, then unsubscribe) and re-evaluates, changing nothing else |
| Liveness.NameOwnerChangedCb | src/nm-keep-alive.c:271-292 | a non-empty new owner is ignored; an empty one tears the watch down and re-evaluates, changing nothing else |
| Liveness.ClientGone | src/nm-keep-alive.c:216-218 | the tail both callbacks share (also src/nm-keep-alive.c:289-291): the watch is gone, its teardown is the only effect, nothing else but the cached bit changes, and one notification is raised iff the bit flipped |
| Liveness.SetDbusClientWatch | src/nm-keep-alive.c:294-322 | the old watch's teardown comes first in the effects; an absent name leaves no watch; a present name (empty included) is registered with a fresh subscription, and is confirmed afterwards iff nothing else kept the object alive; after the teardown and the subscription the effects and state change are exactly the confirmation step from the freshly registered state; the bit always agrees with the rule |
| Liveness.New | src/nm-keep-alive.c:352-362 | a new object has the given floating flag, nothing attached, and a cached bit that agrees with the rule under any visibility |
| Liveness.NewAsWritten | src/nm-keep-alive.c:352-362 | the object as the code builds it: its cached bit disagrees with the rule exactly when it is created non-floating |
| Liveness.Dispose | src/nm-keep-alive.c:364-371 | the connection and the watch are dropped with the handler disconnected, the call cancelled and the subscription released; the cached bit is not re-evaluated and nothing is notified |
| World.Deliver | src/nm-keep-alive.c:98-107 | for every event, one notification is raised exactly when the published bit flips, and none otherwise |
| Properties.SinkKeepsInv | src/nm-keep-alive.c:117-126 | after sinking, the published bit equals the rule and handlers, subscriptions and calls stay in step with the state (`Inv`) |
| Properties.SetForcedKeepsInv | src/nm-keep-alive.c:128-137 | after forcing or unforcing, `Inv` still holds |
| Properties.SetConnectionKeepsInv | src/nm-keep-alive.c:148-183 | attaching or detaching a connection keeps the invariant; the handler follows the attachment |
| Properties.FlagsChangedKeepsInv | src/nm-keep-alive.c:141-146 | a flags change on any connection keeps the invariant; a change on an unwatched connection cannot affect liveness |
| Properties.CleanupReleasesWatch | src/nm-keep-alive.c:252-269 | after a teardown no subscription is live and every outstanding call is cancelled |
| Properties.GetNameOwnerReplyKeepsInv | src/nm-keep-alive.c:187-219 | every completion of a call (cancelled, confirming, failing) keeps the invariant |
| Properties.NameOwnerChangedKeepsInv | src/nm-keep-alive.c:271-292 | an owner-changed signal keeps the invariant |
| Properties.SetDbusClientWatchKeepsInv | src/nm-keep-alive.c:294-322 | registering or clearing a client keeps the invariant: the old subscription and call are released before the new subscription exists |
| Properties.DeliverKeepsInv | src/nm-keep-alive.c:98-107 | every event keeps the invariant |
| Properties.RunKeepsInv | src/nm-keep-alive.c:98-107 | every sequence of events keeps the invariant |
| Properties.InitialInv | src/nm-keep-alive.c:352-362 | a newly created object satisfies the invariant |
| Properties.AliveAgreesAfterAnyHistory | src/nm-keep-alive.c:349-360 | after any history from creation by `Liveness.New`, the published bit equals the liveness rule on the current state and visibility |
| Properties.NewAsWrittenFloatingIsNew | src/nm-keep-alive.c:352-362 | for a floating object the constructor as written equals `Liveness.New`, so the history theorem covers the code's own `nm_keep_alive_new(TRUE)` |
| Properties.NewAsWrittenBreaksInv | src/nm-keep-alive.c:358-360 | the object as the code builds it with floating FALSE violates the invariant the code asserts |
| Properties.StaleReplyIsIgnored | src/nm-keep-alive.c:201-203 | the answer to a cancelled call changes nothing: no state change, no notification, no effect |
| Properties.LiveReplyConcernsCurrentWatch | src/nm-keep-alive.c:229-234 | an outstanding call that was not cancelled is the current registration's call |
| Properties.AtMostOneLiveCall | src/nm-keep-alive.c:229-234 | at most one call is outstanding and not cancelled |
| Properties.NoSecondCall | src/nm-keep-alive.c:229-233 | once a registration is confirmed, no event other than a new registration issues a call |
| Properties.NoCallWhileOtherwiseAlive | src/nm-keep-alive.c:80-93 | an event after which the object is floating, forced or attached to a visible connection issued no `GetNameOwner` call |
| Properties.ConfirmationCalls | src/nm-keep-alive.c:229-249 | a liveness check issues at most one call, only for an unconfirmed registration, and that call confirms it |
| Properties.SettledPersists | src/nm-keep-alive.c:229-233 | a confirmed registration (or none) stays so under every event except a new registration |
| Properties.StepCalls | src/nm-keep-alive.c:229-233 | one event other than a registration issues no call for a confirmed registration, at most one for an unconfirmed one, and a call leaves it confirmed |
| Properties.CallsWithoutRegistration | src/nm-keep-alive.c:229-233 | over any history without a new registration, a confirmed registration causes no call and an unconfirmed one at most one |
| Properties.AtMostOneCallPerRegistration | src/nm-keep-alive.c:301-321 | a registration followed by any history without another one issues at most one `GetNameOwner` call in all |
| Properties.SinkIdempotent | src/nm-keep-alive.c:122-125 | a second sink is a no-op with no notification |
| Properties.SetForcedIdempotent | src/nm-keep-alive.c:133-136 | repeating the same forced value is a no-op with no notification |
| Properties.SetSameConnectionIsNoOp | src/nm-keep-alive.c:156-157 | re-attaching the attached connection is a complete no-op |
| Properties.OwnerChangeToOwnerIsIgnored | src/nm-keep-alive.c:286-287 | an owner change to a non-empty owner is ignored |
| Properties.DisposeReleasesEverything | src/nm-keep-alive.c:364-371 | after disposal no handler is connected, no subscription is live, and every outstanding call is cancelled |
| Properties.DisposeIdempotent | src/nm-keep-alive.c:364-371 | a second disposal does nothing |
| Scenarios.SinkWithNothingAttached | src/nm-keep-alive.c:117-126 | a floating object is alive; sinking it with nothing attached makes it dead with one notification |
| Scenarios.ForceAndUnforce | src/nm-keep-alive.c:128-137 | forcing a sunk object flips it alive, unforcing flips it back, one notification each |
| Scenarios.ConnectionBecomesVisible | src/nm-keep-alive.c:141-176 | an invisible connection keeps the object dead; its becoming visible makes it alive through the handler |
| Scenarios.OtherConnectionIsNotWatched | src/nm-keep-alive.c:166-172 | a flags change on another connection does not reach the object |
| Scenarios.ClientConfirmedThenLeaves | src/nm-keep-alive.c:205-213 | a registered client makes the object alive with one call; the matching answer changes nothing; the name losing its owner makes it dead |
| Scenarios.ClientNotOnBus | src/nm-keep-alive.c:216-218 | a failed call tears the watch down and makes the object dead |
| Scenarios.ClientOwnedByOther | src/nm-keep-alive.c:205-218 | an answer naming another owner tears the watch down, releases its subscription and makes the object dead |
| Scenarios.ReplacedWatchIgnoresStaleAnswer | src/nm-keep-alive.c:301-321 | replacing a watch cancels the old call, and its late answer has no effect; only the new subscription is live |
| Scenarios.EmptyNameIsRegistered | src/nm-keep-alive.c:303-307 | the empty name is registered like any other |
| Scenarios.ConfirmationIsLazy | src/nm-keep-alive.c:89-93 | while forced, registering a client issues no call; the call is issued once forcing ends |

## Left out

- src/nm-ip4-config.h: declarations of a value object with no logic.
- GObject plumbing: type registration, the property getter and its installation, reference counting (src/nm-keep-alive.c:32-61, 326-345, 373-388). The property notification is a counter in each result.
- `nm_keep_alive_is_alive` (src/nm-keep-alive.c:109-113) is a field read; it is the `alive` field of the state.
- D-Bus wire details: the `GetNameOwner` message, the match rule of the `NameOwnerChanged` subscription, and GVariant unpacking. A call, a subscription and a signal are abstract events that carry a name or an owner.
- `nm_settings_connection_get_flags` is an external collaborator. It is the oracle "set of visible connections", which may change between events.
- Logging (`_LOGD`) and the `nm_assert` checks themselves. The code is single-threaded, and callbacks are further events.
- Liveness.GetNameOwnerCb: when a non-cancelled answer arrives with no client registered, the C code compares against a NULL name (undefined behaviour). The model treats it as a mismatch. `Properties.LiveReplyConcernsCurrentWatch` shows the case cannot arise.
- Dispose is not an event of `World.Deliver`: the object is dead afterwards, and its cached bit is deliberately not re-evaluated.

## Findings

| source | as written | input that shows it | evidently intended | confidence | as-written member | corrected member |
|---|---|---|---|---|---|---|
| src/nm-keep-alive.c:358-360 | `nm_keep_alive_new` sets the cached bit to TRUE whatever `floating` is, then asserts that it equals `_is_alive` | `nm_keep_alive_new(FALSE)`: nothing keeps the object alive, yet it is published alive (and the debug assertion fails) | the cached bit starts as the liveness rule's value, which is `floating` for a new object | medium, not executed | Liveness.NewAsWritten, Properties.NewAsWrittenBreaksInv | Liveness.New, Properties.InitialInv |
