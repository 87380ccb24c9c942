/** Handling of USB notification bursts: the iterator the notification
    subsystem hands to a callback, draining it, and the two callbacks that
    turn a burst into at most one keyboard event. */
module Notifications {
  import opened Wrappers
  import opened Classifier
  import opened Arbitration

  /** The two subscriptions registered on USB devices. */
  datatype Subscription = Matched | Terminated

  /** A notification iterator over one burst. `handles` holds, per device
      handle in delivery order, the outcome of its registry-name lookup;
      `cursor` counts the handles already taken. The subsystem re-arms the
      subscription only once the iterator is exhausted. */
  class DeviceIterator {
    const handles: seq<Option<string>>
    var cursor: nat

    ghost predicate Valid()
      reads this
    {
      cursor <= |handles|
    }

    /** The handles not yet taken. */
    ghost function Remaining(): seq<Option<string>>
      reads this
      requires Valid()
    {
      handles[cursor..]
    }

    constructor (handles: seq<Option<string>>)
      ensures Valid() && this.handles == handles && cursor == 0
    {
      this.handles := handles;
      cursor := 0;
    }

    /** Takes the next handle, or yields the null object once exhausted. */
    method Next() returns (service: Service)
      requires Valid()
      modifies this
      ensures Valid()
      ensures old(cursor) < |handles| ==> service == Device(handles[old(cursor)]) && cursor == old(cursor) + 1
      ensures old(cursor) == |handles| ==> service == NullService && cursor == old(cursor)
    {
      if cursor < |handles| {
        service := Device(handles[cursor]);
        cursor := cursor + 1;
      } else {
        service := NullService;
      }
    }
  }

  /** The event a callback on `subscription` emits for a burst: only the
      first handle is classified (the null object when the burst is empty);
      a match emits an external-keyboard event carrying its name, a
      termination the name-less internal-keyboard event. */
  function BurstEvent(subscription: Subscription, burst: seq<Option<string>>): (e: Option<Event>)
    ensures e.Some? <==> burst != [] && KeyboardName(Device(burst[0])).Some?
    ensures e.Some? && subscription == Matched ==> e.value == ExternalKeyboard(burst[0].value)
    ensures e.Some? && subscription == Terminated ==> e.value == InternalKeyboard
  {
    var first := if burst == [] then NullService else Device(burst[0]);
    match KeyboardName(first)
    case None => None
    case Some(name) =>
      match subscription
      case Matched => Some(ExternalKeyboard(name))
      case Terminated => Some(InternalKeyboard)
  }

  /** Keyboards after the first handle of a burst are ignored: whatever
      follows the first handle, the callback emits the same event. */
  lemma OnlyFirstHandleClassified(subscription: Subscription, first: Option<string>, rest: seq<Option<string>>, rest': seq<Option<string>>)
    ensures BurstEvent(subscription, [first] + rest) == BurstEvent(subscription, [first] + rest')
    ensures KeyboardName(Device(first)).None? ==> BurstEvent(subscription, [first] + rest).None?
  {
  }

  /** A burst whose first device is named `prefix + "Keyboard"` switches
      layout: to external on a match, to internal on a termination. */
  lemma {:induction false} SuffixedFirstDeviceEmits(prefix: string, rest: seq<Option<string>>)
    ensures BurstEvent(Matched, [Some(prefix + KeyboardSuffix)] + rest) == Some(ExternalKeyboard(prefix + KeyboardSuffix))
    ensures BurstEvent(Terminated, [Some(prefix + KeyboardSuffix)] + rest) == Some(InternalKeyboard)
  {
    SuffixedNameIsKeyboard(prefix);
  }

  /** Empties the iterator, which re-arms its subscription. */
  method Drain(it: DeviceIterator)
    requires it.Valid()
    modifies it
    ensures it.Valid() && it.cursor == |it.handles|
  {
    var service := it.Next();
    while service != NullService
      invariant it.Valid()
      invariant service == NullService ==> it.cursor == |it.handles|
      decreases |it.handles| - it.cursor + (if service == NullService then 0 else 1)
    {
      service := it.Next();
    }
  }

  /** Callback for the match subscription. */
  method DeviceAdded(it: DeviceIterator, layouts: Layouts, actuator: Actuator) returns (e: Option<Event>)
    requires it.Valid()
    modifies it, actuator
    ensures e == BurstEvent(Matched, old(it.Remaining()))
    ensures it.Valid() && it.cursor == |it.handles|
    ensures actuator.log == old(actuator.log) + (if e.Some? then [layouts.externalLayout] else [])
  {
    var service := it.Next();
    var name := KeyboardName(service);
    if name.Some? {
      e := Some(ExternalKeyboard(name.value));
      OnChange(layouts, e.value, actuator);
      assert actuator.log == old(actuator.log) + [layouts.externalLayout];
    } else {
      e := None;
    }
    Drain(it);
  }

  /** Callback for the termination subscription. */
  method DeviceRemoved(it: DeviceIterator, layouts: Layouts, actuator: Actuator) returns (e: Option<Event>)
    requires it.Valid()
    modifies it, actuator
    ensures e == BurstEvent(Terminated, old(it.Remaining()))
    ensures it.Valid() && it.cursor == |it.handles|
    ensures actuator.log == old(actuator.log) + (if e.Some? then [layouts.internalLayout] else [])
  {
    var service := it.Next();
    if KeyboardName(service) != None {
      e := Some(InternalKeyboard);
      OnChange(layouts, e.value, actuator);
      assert actuator.log == old(actuator.log) + [layouts.internalLayout];
    } else {
      e := None;
    }
    Drain(it);
  }

  /** Registration hands back one iterator per subscription, enumerating the
      devices already present; both are drained without classifying anything,
      so no layout is selected at startup. */
  method StartMonitoring(matched: DeviceIterator, terminated: DeviceIterator)
    requires matched.Valid() && terminated.Valid()
    modifies matched, terminated
    ensures matched.Valid() && matched.cursor == |matched.handles|
    ensures terminated.Valid() && terminated.cursor == |terminated.handles|
  {
    Drain(matched);
    Drain(terminated);
  }
}
