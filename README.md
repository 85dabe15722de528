# Event view model of the GW2 Personal Assistant Overlay, in Dafny

This project models the event tracker's per-event view model (`EventViewModel`)
of the overlay: how the on-screen visibility of one world event is kept in step
with the event's state and with the user's event settings, which all event view
models share by reference, and what the treasure-obtained setter, the hide
command and the close-notification command do to the shared collections.

Two files, one module each:

- `collections.dfy` (module `Collections`): the two .NET collection operations
  the view model depends on, over sequences. `Any` is the left-to-right scan of
  `Enumerable.Any` with a predicate, a loop that stops at the first hit.
  `RemoveFirst` is `ICollection<T>.Remove`, which deletes the first occurrence
  of an element. Lemmas pin down which occurrence is deleted and show that
  removal undoes an append.
- `event_view_model.dfy` (module `EventViewModels`): the classes.
  - `EventSettings` holds the hidden-event ids and the treasure-obtained ids,
    both as sequences. The original settings class's code is not available;
    the Dafny `EventSettings` is a stand-in assumed from how the view model
    uses it, so this representation is an assumption. The hidden ids are taken to be an
    observable list, because the view model subscribes to their
    `CollectionChanged` event (`GW2PAO/ViewModels/EventViewModel.cs:161`). For
    the treasure ids a sequence covers both a list and a set, because the
    setter never adds an id that is already present (:94). It also holds the inactive-events-visible flag and its `listeners`:
    the view models that subscribed to its change notifications.
  - `DisplayedNotifications` is the externally owned collection of view models
    whose notification is on screen.
  - `EventViewModel` has one method per property setter and command.

The visibility rule itself is the predicate `VisibilityRule`: an event is
invisible when its id is among the hidden events, or when it is `Inactive` and
inactive events are not shown; otherwise it is visible. `RefreshVisibility`
evaluates the source's three-branch `if` and its contract ties the result to
the rule. `VisibilityCurrent()` says that the rule holds for a view model.
`RefreshVisibility`, `OnSettingsChanged`, `AddToHiddenEvents`,
`EventSettings.RaiseChanged` and a changing `SetState` state that they
establish it, and an unchanged `SetState` states that it preserves it.
`SetTimerValue`, `SetIsNotificationShown`, `SetIsRemovingNotification`,
`SetIsTreasureObtained` and `CloseNotification` state only that `isVisible`
(or the whole view model) is unchanged. They preserve the predicate because
their frames exclude the state and the settings fields it reads, but they do
not state that. `SetIsVisible` is the public `IsVisible` setter. It can assign
a value that breaks the predicate, and its contract says nothing about it.

The doc comment on `IsVisible` (`GW2PAO/ViewModels/EventViewModel.cs:73-77`)
also lists the treasure-obtained flag, and whether treasure-obtained events
are shown, as inputs to visibility. `RefreshVisibility` (:176-193) uses
neither, and the model follows the code.

Modelling decisions:

- `SetField`, the setter helper of the view models' base class, is not part
  of this model. It is assumed to assign the field and to report a change
  exactly when the new value differs from the old one. Each setter method
  returns that report as `changed`. A raised `PropertyChanged` event is
  modelled by that boolean.
- The two subscriptions made by the constructor are modelled as one entry
  in `EventSettings.listeners`. One subscription is to the settings'
  `PropertyChanged` event and the other to the hidden collection's
  `CollectionChanged` event. `EventSettings.RaiseChanged` delivers a change
  notification. It calls `OnSettingsChanged`, the subscribed handler, on every
  listener in subscription order. So the hide command refreshes every view
  model over the same settings, not only the one that issued it.
- The original settings class's code is not available, and the Dafny
  `EventSettings` is a stand-in. Its
  `AreInactiveEventsVisible` property is assumed to be a `SetField` property
  that notifies on change (`EventSettings.SetAreInactiveEventsVisible`).
- The default value of the event-state enumeration is not visible in the
  source, so the constructor takes it as the parameter `enumDefault`. The
  constructor first sets `IsVisible = true` and then `State = Unknown`. If the
  default is `Unknown`, that assignment changes nothing and no refresh runs.
  A freshly built view model is then visible even when its event is hidden.
  Its state is `Unknown` in every case, so an event that is not hidden starts
  out visible whatever the default is. The constructor's contract states
  these cases.
- `Id` (a GUID) is an opaque type with equality. `EventState` keeps
  `Unknown` and `Inactive` and folds every other state into `Other(code)`.
  `TimeSpan` is an integer tick count.
- The treasure-obtained setter is not an idempotent toggle. Asking for
  `true` while the id is present takes the `else` branch and removes the id
  (`TreasureAfterSet`, `TreasureSetTrueTwiceRestores`,
  `TreasureSetTrueWhenPresentClears`).
- The hide command appends the id without checking for it. The hidden
  events can therefore hold an id twice.
- `InactiveScenario`, `HideScenario` and `TreasureAndCloseScenario` are
  clients that use only the contracts. In the first, an active event becomes
  inactive and disappears, then reappears once inactive events are shown. In
  the second, an event is hidden through one of two view models of that
  event and disappears from both. In the third, the treasure is ticked twice,
  which clears it again, and a notification is closed.

## Model

| member | source | states |
|---|---|---|
| `Collections.Any` | GW2PAO/ViewModels/EventViewModel.cs:179 | the scan answers true exactly when some element of the collection satisfies the predicate |
| `Collections.RemoveFirst` | GW2PAO/ViewModels/EventViewModel.cs:103 | `Remove`: an absent element leaves the collection as it was; a present one shortens it by one, and exactly one occurrence of that element leaves the multiset |
| `Collections.RemoveFirstDeletesFirstOccurrence` | GW2PAO/ViewModels/EventViewModel.cs:103 | the occurrence removed is the first one, and the other elements keep their order |
| `Collections.RemoveFirstUndoesAppend` | GW2PAO/ViewModels/EventViewModel.cs:97-103 | removing an id just appended to a collection that lacked it gives back the original collection |
| `EventViewModels.TreasureAfterSet` | GW2PAO/ViewModels/EventViewModel.cs:92-106 | setting the flag: `true` on an absent id appends it at the end (count 1); otherwise one occurrence of the id is removed if there is one (even for `true`); the counts of all other ids are unchanged |
| `EventViewModels.TreasureSetTrueTwiceRestores` | GW2PAO/ViewModels/EventViewModel.cs:94-104 | the setter is not idempotent for `true`: from "not obtained", setting `true` twice restores the original collection |
| `EventViewModels.TreasureSetTrueWhenPresentClears` | GW2PAO/ViewModels/EventViewModel.cs:94-104 | setting `true` while the id is present once deletes that occurrence and leaves the id absent |
| `EventViewModels.EventSettings.RaiseChanged` | GW2PAO/ViewModels/EventViewModel.cs:160-161 | a settings change notification leaves every subscribed view model's visibility following the rule against the current settings; only their `isVisible` fields change |
| `EventViewModels.EventSettings.SetAreInactiveEventsVisible` | GW2PAO/ViewModels/EventViewModel.cs:160 | changing the inactive-visible flag notifies every subscriber, which refreshes its visibility; setting the same value notifies nobody and leaves every visibility as it was |
| `EventViewModels.DisplayedNotifications.Remove` | GW2PAO/ViewModels/EventViewModel.cs:209 | deletes the first occurrence of the view model and reports whether it was present |
| `EventViewModels.EventViewModel.constructor` | GW2PAO/ViewModels/EventViewModel.cs:149-162 | the state is `Unknown`, the timer zero and both notification flags false; the view model is visible if the enumeration's default is `Unknown`, and otherwise follows the visibility rule; an event that is not hidden is visible and follows the rule either way, and a hidden one breaks the rule when the default is `Unknown`; it is appended to the settings' listeners |
| `EventViewModels.TreasureGetAfterSet` | GW2PAO/ViewModels/EventViewModel.cs:91-106 | the getter read after the setter, with the id held at most once: it is `true` exactly when `true` was asked for and the id was absent; `false` clears it, `true` on an absent id sets it, and `true` on a present id clears it |
| `EventViewModels.EventViewModel.SetState` | GW2PAO/ViewModels/EventViewModel.cs:56-60 | assigning the current state leaves `isVisible` untouched; assigning a different one re-establishes the visibility rule; the rule, once holding, keeps holding |
| `EventViewModels.EventViewModel.SetTimerValue` | GW2PAO/ViewModels/EventViewModel.cs:66-70 | assigns the timer, reports whether it changed, and leaves `isVisible` untouched |
| `EventViewModels.EventViewModel.SetIsVisible` | GW2PAO/ViewModels/EventViewModel.cs:79-83 | assigns the flag and reports whether it changed |
| `EventViewModels.EventViewModel.SetIsNotificationShown` | GW2PAO/ViewModels/EventViewModel.cs:112-116 | assigns the flag, reports whether it changed, and leaves `isVisible` untouched |
| `EventViewModels.EventViewModel.SetIsRemovingNotification` | GW2PAO/ViewModels/EventViewModel.cs:122-126 | assigns the flag, reports whether it changed, and leaves `isVisible` untouched |
| `EventViewModels.EventViewModel.SetIsTreasureObtained` | GW2PAO/ViewModels/EventViewModel.cs:89-107 | the treasure collection becomes `TreasureAfterSet` of the old one. A notification is raised exactly when the value is `true` or the id was present, which is exactly when the collection changed. With the id held at most once, the getter afterwards reads `true` exactly when `true` was asked for and the id was absent. `true` on an absent id makes it obtained. `false` on an absent id changes nothing. `true` on a single present id clears it. The hidden events, the flag and the visibility are unchanged |
| `EventViewModels.EventViewModel.OnSettingsChanged` | GW2PAO/ViewModels/EventViewModel.cs:160-161 | the subscribed handler re-establishes the visibility rule |
| `EventViewModels.EventViewModel.AddToHiddenEvents` | GW2PAO/ViewModels/EventViewModel.cs:167-171 | appends the event's id to the hidden events; afterwards this view model is invisible and every subscriber follows the visibility rule; the treasure collection, the inactive flag and the listeners are unchanged |
| `EventViewModels.EventViewModel.RefreshVisibility` | GW2PAO/ViewModels/EventViewModel.cs:176-193 | a hidden id makes the event invisible whatever its state and the flag. Otherwise it is invisible exactly when it is `Inactive` and inactive events are not shown |
| `EventViewModels.EventViewModel.CloseNotification` | GW2PAO/ViewModels/EventViewModel.cs:207-210 | removes the first occurrence of this view model from the displayed notifications, lowering its count there by one; none of the view model's own fields change |

## Left out

- Logging through NLog: diagnostics only.
- `CopyWaypointCode` and its command: a write to the system clipboard, with no logic to state.
- `HideCommand`, `CopyWaypointCommand` and `CloseNotificationCommand`: they only wrap methods in `DelegateCommand` objects; the wrapped methods are modelled directly.
- The `EventId`, `EventName` and `ZoneName` getters: they forward fields of the world event (`ZoneName` prefixes "Located in "); the model reads `eventModel.id` directly.
- The UI framework's notification transport: a raised `PropertyChanged` is the `changed`/`raised` result of a setter. Delivery to bindings is not modelled.
- Notifications raised by the settings for properties other than `AreInactiveEventsVisible` are not modelled. Each would be one more `RaiseChanged` call.
- Removing an id from the hidden events, persistence of the settings and the daily treasure reset: these belong to the original settings class and its owner, whose code is not available; the stand-in `EventSettings` holds only what the view model uses.
- The timer subsystem that drives `State` and `TimerValue` is not part of this model; its calls are the setter methods.
- Unsubscribing view models from the settings: the source never unsubscribes, so `listeners` only grows.
