/**
 * The event tracker's per-event view model: the visibility of one world event,
 * kept in step with the event's state and with the user settings shared by all
 * event view models, plus the treasure-obtained flag, the hide command and the
 * close-notification command.
 *
 * Property setters follow the `SetField` pattern of the view models' base
 * class: assign the backing field and report (raise a change notification)
 * exactly when the new value differs from the old one. Each setter method
 * returns that report as `changed`.
 */
module EventViewModels {
  import opened Collections

  /** A world event's identifier (a GUID); only equality is used. */
  type Id(==, !new)

  /** Elapsed or remaining time of an event, in ticks; no arithmetic is done on it here. */
  type TimeSpan = int

  /** The timer subsystem's event states; only `Unknown` and `Inactive` are told apart here. */
  datatype EventState = Unknown | Inactive | Other(code: nat)

  /** The world event the view model presents; owned by the timer subsystem. */
  datatype WorldEvent = WorldEvent(id: Id, name: string, location: string, waypointCode: string)

  /**
   * The visibility rule: an event is hidden when the user has hidden it, or
   * when it is inactive and inactive events are not to be shown.
   */
  ghost predicate VisibilityRule(id: Id, hidden: seq<Id>, inactiveVisible: bool, state: EventState)
  {
    !(id in hidden || (state == Inactive && !inactiveVisible))
  }

  /**
   * The treasure-obtained collection after the `IsTreasureObtained` setter is
   * given `value`: the id is appended when `value` holds and the id is absent;
   * in every other case (including `value` with the id present) the first
   * occurrence of the id, if any, is removed.
   */
  function TreasureAfterSet(s: seq<Id>, id: Id, value: bool): (r: seq<Id>)
    ensures value && id !in s ==> r == s + [id]
    ensures multiset(r)[id] == if value && id !in s then 1 else if id in s then multiset(s)[id] - 1 else 0
    ensures forall other :: other != id ==> multiset(r)[other] == multiset(s)[other]
  {
    if value && id !in s then s + [id] else RemoveFirst(s, id)
  }

  /** Setting the flag to true twice, starting from "not obtained", restores the collection. */
  lemma TreasureSetTrueTwiceRestores(s: seq<Id>, id: Id)
    requires id !in s
    ensures TreasureAfterSet(s, id, true) == s + [id]
    ensures TreasureAfterSet(TreasureAfterSet(s, id, true), id, true) == s
  {
    assert id in s + [id];
    RemoveFirstUndoesAppend(s, id);
  }

  /** Setting the flag to true while the (single) id is present clears it. */
  lemma TreasureSetTrueWhenPresentClears(s: seq<Id>, id: Id, i: nat)
    requires i < |s| && s[i] == id && multiset(s)[id] == 1
    ensures TreasureAfterSet(s, id, true) == s[..i] + s[i + 1..]
    ensures id !in TreasureAfterSet(s, id, true)
  {
    assert s == s[..i] + [id] + s[i + 1..];
    assert multiset(s) == multiset(s[..i]) + multiset{id} + multiset(s[i + 1..]);
    assert multiset(s[..i])[id] == 0;
    RemoveFirstDeletesFirstOccurrence(s, id, i);
  }

  /**
   * Reading the flag back after setting it, while the collection holds the id
   * at most once: it reads `true` only when `true` was asked for and the id
   * was absent, so asking for `true` when it is already obtained clears it.
   */
  lemma TreasureGetAfterSet(s: seq<Id>, id: Id, value: bool)
    requires multiset(s)[id] <= 1
    ensures (id in TreasureAfterSet(s, id, value)) == (value && id !in s)
  {
  }

  /**
   * The user settings of the event tracker, shared by reference among all event
   * view models. `listeners` are the view models that subscribed to the
   * settings' change notifications, in subscription order.
   */
  class EventSettings {
    var hiddenEvents: seq<Id>
    var eventsWithTreasureObtained: seq<Id>
    var areInactiveEventsVisible: bool
    var listeners: seq<EventViewModel>

    constructor (hidden: seq<Id>, treasureObtained: seq<Id>, inactiveVisible: bool)
      ensures hiddenEvents == hidden && eventsWithTreasureObtained == treasureObtained
      ensures areInactiveEventsVisible == inactiveVisible && listeners == []
      ensures Wired()
    {
      hiddenEvents, eventsWithTreasureObtained := hidden, treasureObtained;
      areInactiveEventsVisible, listeners := inactiveVisible, [];
    }

    /** Every listener is a view model over these settings. */
    ghost predicate Wired()
      reads this
    {
      forall k :: 0 <= k < |listeners| ==> listeners[k].settings == this
    }

    /** The visibility rule holds for every listener against the current settings. */
    ghost predicate AllListenersCurrent()
      reads this, listeners
    {
      forall k :: 0 <= k < |listeners| ==>
        listeners[k].isVisible ==
          VisibilityRule(listeners[k].eventModel.id, hiddenEvents, areInactiveEventsVisible, listeners[k].state)
    }

    /**
     * A change notification (a property of the settings changed, or the hidden
     * collection changed): every subscribed view model refreshes its visibility.
     */
    method RaiseChanged()
      requires Wired()
      modifies listeners`isVisible
      ensures AllListenersCurrent()
    {
      var i := 0;
      while i < |listeners|
        invariant 0 <= i <= |listeners|
        invariant forall k :: 0 <= k < i ==>
          listeners[k].isVisible ==
            VisibilityRule(listeners[k].eventModel.id, hiddenEvents, areInactiveEventsVisible, listeners[k].state)
      {
        listeners[i].OnSettingsChanged();
        i := i + 1;
      }
    }

    /** The `AreInactiveEventsVisible` property: a `SetField` setter that notifies the listeners on change. */
    method SetAreInactiveEventsVisible(value: bool) returns (changed: bool)
      requires Wired()
      modifies this`areInactiveEventsVisible, listeners`isVisible
      ensures areInactiveEventsVisible == value
      ensures changed == (old(areInactiveEventsVisible) != value)
      ensures changed ==> AllListenersCurrent()
      ensures !changed ==> forall k :: 0 <= k < |listeners| ==> listeners[k].isVisible == old(listeners[k].isVisible)
    {
      changed := areInactiveEventsVisible != value;
      areInactiveEventsVisible := value;
      if changed {
        RaiseChanged();
      }
    }
  }

  /** The externally owned collection of event view models whose notification is on screen. */
  class DisplayedNotifications {
    var items: seq<EventViewModel>

    constructor (initial: seq<EventViewModel>)
      ensures items == initial
    {
      items := initial;
    }

    /** `ICollection<T>.Remove`: deletes the first occurrence and reports whether there was one. */
    method Remove(item: EventViewModel) returns (removed: bool)
      modifies this
      ensures removed == (item in old(items))
      ensures items == RemoveFirst(old(items), item)
    {
      removed := item in items;
      items := RemoveFirst(items, item);
    }
  }

  /** The view model of one event shown by the event tracker. */
  class EventViewModel {
    const eventModel: WorldEvent
    const settings: EventSettings
    const displayedNotifications: DisplayedNotifications
    var state: EventState
    var timerValue: TimeSpan
    var isVisible: bool
    var isNotificationShown: bool
    var isRemovingNotification: bool

    /** The visibility rule holds for this view model against the current settings. */
    ghost predicate VisibilityCurrent()
      reads this, settings
    {
      isVisible == VisibilityRule(eventModel.id, settings.hiddenEvents, settings.areInactiveEventsVisible, state)
    }

    /** The view model has subscribed to the change notifications of its settings. */
    ghost predicate Subscribed()
      reads settings
    {
      settings.Wired() && this in settings.listeners
    }

    /**
     * Builds the view model and subscribes it to the settings' change
     * notifications. `enumDefault` is the default value of the event-state
     * enumeration, which the `state` field holds before the constructor body
     * runs: assigning `State = Unknown` refreshes the visibility only when
     * `Unknown` differs from it.
     */
    constructor (eventData: WorldEvent, userSettings: EventSettings,
                 displayed: DisplayedNotifications, enumDefault: EventState)
      requires userSettings.Wired()
      modifies userSettings`listeners
      ensures eventModel == eventData && settings == userSettings && displayedNotifications == displayed
      ensures state == Unknown && timerValue == 0
      ensures !isNotificationShown && !isRemovingNotification
      ensures enumDefault == Unknown ==> isVisible
      ensures enumDefault != Unknown ==> VisibilityCurrent()
      ensures eventData.id !in userSettings.hiddenEvents ==> isVisible && VisibilityCurrent()
      ensures enumDefault == Unknown && eventData.id in userSettings.hiddenEvents ==> !VisibilityCurrent()
      ensures userSettings.listeners == old(userSettings.listeners) + [this]
      ensures Subscribed()
    {
      eventModel, settings, displayedNotifications := eventData, userSettings, displayed;
      state, timerValue := enumDefault, 0;
      isVisible, isNotificationShown, isRemovingNotification := false, false, false;
      new;
      var changed := SetIsVisible(true);
      changed := SetIsNotificationShown(false);
      changed := SetIsRemovingNotification(false);
      changed := SetState(Unknown);
      changed := SetTimerValue(0);
      settings.listeners := settings.listeners + [this];
    }

    /** The `IsTreasureObtained` getter. */
    function IsTreasureObtained(): bool
      reads settings
    {
      eventModel.id in settings.eventsWithTreasureObtained
    }

    /** The `State` setter: a change of state refreshes the visibility. */
    method SetState(value: EventState) returns (changed: bool)
      modifies this`state, this`isVisible
      ensures state == value
      ensures changed == (old(state) != value)
      ensures !changed ==> isVisible == old(isVisible)
      ensures changed ==> VisibilityCurrent()
      ensures old(VisibilityCurrent()) ==> VisibilityCurrent()
    {
      changed := state != value;
      state := value;
      if changed {
        RefreshVisibility();
      }
    }

    /** The `TimerValue` setter. */
    method SetTimerValue(value: TimeSpan) returns (changed: bool)
      modifies this`timerValue
      ensures timerValue == value
      ensures changed == (old(timerValue) != value)
      ensures isVisible == old(isVisible)
    {
      changed := timerValue != value;
      timerValue := value;
    }

    /** The `IsVisible` setter. */
    method SetIsVisible(value: bool) returns (changed: bool)
      modifies this`isVisible
      ensures isVisible == value
      ensures changed == (old(isVisible) != value)
    {
      changed := isVisible != value;
      isVisible := value;
    }

    /** The `IsNotificationShown` setter. */
    method SetIsNotificationShown(value: bool) returns (changed: bool)
      modifies this`isNotificationShown
      ensures isNotificationShown == value
      ensures changed == (old(isNotificationShown) != value)
      ensures isVisible == old(isVisible)
    {
      changed := isNotificationShown != value;
      isNotificationShown := value;
    }

    /** The `IsRemovingNotification` setter. */
    method SetIsRemovingNotification(value: bool) returns (changed: bool)
      modifies this`isRemovingNotification
      ensures isRemovingNotification == value
      ensures changed == (old(isRemovingNotification) != value)
      ensures isVisible == old(isVisible)
    {
      changed := isRemovingNotification != value;
      isRemovingNotification := value;
    }

    /**
     * The `IsTreasureObtained` setter. Not an idempotent toggle: asking for
     * `true` while the id is already present removes it.
     */
    method SetIsTreasureObtained(value: bool) returns (raised: bool)
      modifies settings`eventsWithTreasureObtained
      ensures settings.eventsWithTreasureObtained == TreasureAfterSet(old(settings.eventsWithTreasureObtained), eventModel.id, value)
      ensures raised == (value || old(IsTreasureObtained()))
      ensures raised <==> settings.eventsWithTreasureObtained != old(settings.eventsWithTreasureObtained)
      ensures multiset(old(settings.eventsWithTreasureObtained))[eventModel.id] <= 1 ==>
        IsTreasureObtained() == (value && !old(IsTreasureObtained()))
      ensures settings.hiddenEvents == old(settings.hiddenEvents)
      ensures settings.areInactiveEventsVisible == old(settings.areInactiveEventsVisible)
      ensures isVisible == old(isVisible)
      ensures value && !old(IsTreasureObtained()) ==> IsTreasureObtained()
      ensures !value && !old(IsTreasureObtained()) ==> settings.eventsWithTreasureObtained == old(settings.eventsWithTreasureObtained)
      ensures value && old(IsTreasureObtained()) && multiset(old(settings.eventsWithTreasureObtained))[eventModel.id] == 1 ==> !IsTreasureObtained()
    {
      if value && eventModel.id !in settings.eventsWithTreasureObtained {
        settings.eventsWithTreasureObtained := settings.eventsWithTreasureObtained + [eventModel.id];
        raised := true;
      } else {
        raised := eventModel.id in settings.eventsWithTreasureObtained;
        settings.eventsWithTreasureObtained := RemoveFirst(settings.eventsWithTreasureObtained, eventModel.id);
      }
    }

    /** The handler subscribed to the settings' change notifications. */
    method OnSettingsChanged()
      modifies this`isVisible
      ensures VisibilityCurrent()
    {
      RefreshVisibility();
    }

    /** The hide command: adds the event to the hidden events, which notifies every listener. */
    method AddToHiddenEvents()
      requires Subscribed()
      modifies settings`hiddenEvents, settings.listeners`isVisible
      ensures settings.hiddenEvents == old(settings.hiddenEvents) + [eventModel.id]
      ensures settings.eventsWithTreasureObtained == old(settings.eventsWithTreasureObtained)
      ensures settings.areInactiveEventsVisible == old(settings.areInactiveEventsVisible)
      ensures settings.listeners == old(settings.listeners)
      ensures settings.AllListenersCurrent()
      ensures !isVisible
    {
      settings.hiddenEvents := settings.hiddenEvents + [eventModel.id];
      settings.RaiseChanged();
    }

    /** Recomputes `IsVisible`: hidden first, then inactive-and-not-shown, otherwise visible. */
    method RefreshVisibility()
      modifies this`isVisible
      ensures VisibilityCurrent()
      ensures eventModel.id in settings.hiddenEvents ==> !isVisible
      ensures eventModel.id !in settings.hiddenEvents ==>
        (!isVisible <==> state == Inactive && !settings.areInactiveEventsVisible)
    {
      var me := eventModel.id;
      var hidden := Any(settings.hiddenEvents, id => id == me);
      var changed;
      if hidden {
        changed := SetIsVisible(false);
      } else if !settings.areInactiveEventsVisible && state == Inactive {
        changed := SetIsVisible(false);
      } else {
        changed := SetIsVisible(true);
      }
    }

    /** The close-notification command: takes this view model off the displayed notifications. */
    method CloseNotification()
      modifies displayedNotifications
      ensures displayedNotifications.items == RemoveFirst(old(displayedNotifications.items), this)
      ensures multiset(displayedNotifications.items)[this] == if this in old(displayedNotifications.items) then multiset(old(displayedNotifications.items))[this] - 1 else 0
      ensures unchanged(this)
    {
      var removed := displayedNotifications.Remove(this);
    }
  }

  /**
   * A client of the contracts above: an active event becomes inactive and
   * disappears, then reappears once the user shows inactive events.
   */
  method InactiveScenario(e: WorldEvent, enumDefault: EventState)
  {
    var settings := new EventSettings([], [], false);
    var notes := new DisplayedNotifications([]);
    var vm := new EventViewModel(e, settings, notes, enumDefault);
    var changed := vm.SetState(Other(1));
    assert vm.isVisible;
    changed := vm.SetState(Inactive);
    assert !vm.isVisible;
    changed := settings.SetAreInactiveEventsVisible(true);
    assert settings.listeners[0] == vm;
    assert vm.isVisible;
  }

  /**
   * A client of the contracts above: two view models of one event share the
   * settings; hiding the event through one hides it in both.
   */
  method HideScenario(e: WorldEvent, enumDefault: EventState)
  {
    var settings := new EventSettings([], [], true);
    var notes := new DisplayedNotifications([]);
    var vm := new EventViewModel(e, settings, notes, enumDefault);
    var twin := new EventViewModel(e, settings, notes, enumDefault);
    twin.AddToHiddenEvents();
    assert settings.listeners[0] == vm && e.id in settings.hiddenEvents;
    assert !vm.isVisible && !twin.isVisible;
  }

  /**
   * A client of the contracts above: ticking the treasure twice clears it
   * again; closing a notification takes the view model off the display.
   */
  method TreasureAndCloseScenario(e: WorldEvent)
  {
    var settings := new EventSettings([], [], true);
    var notes := new DisplayedNotifications([]);
    var vm := new EventViewModel(e, settings, notes, Unknown);
    var raised := vm.SetIsTreasureObtained(true);
    assert raised && vm.IsTreasureObtained();
    assert settings.eventsWithTreasureObtained == [e.id];
    assert multiset(settings.eventsWithTreasureObtained)[e.id] == 1;
    raised := vm.SetIsTreasureObtained(true);
    assert raised && !vm.IsTreasureObtained();

    notes.items := [vm];
    vm.CloseNotification();
    assert notes.items == [];
  }
}
