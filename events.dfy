/** The lifecycle vocabulary of the public header (the low-memory enum and the table of
    optional callbacks) and the pure part of the inbound-message handler `register_cb`:
    what an acknowledgement is, and which callback, if any, one message selects. */
module Events {
  import opened Json

  /** `enum webos_applocation_low_memory_state`. */
  datatype LowMemoryState = Normal | Low | Critical

  /** `struct webos_application_event_handlers`: one flag per callback slot, true when the
      slot holds a non-NULL function pointer. */
  datatype EventHandlers = EventHandlers(
    activate: bool, deactivate: bool, suspend: bool, relaunch: bool, lowmemory: bool)

  /** The five slots of the handler table. */
  datatype Slot = ActivateSlot | DeactivateSlot | SuspendSlot | RelaunchSlot | LowMemorySlot

  /** One callback invocation together with the argument it receives (besides user_data). */
  datatype Callback =
    | Activate
    | Deactivate
    | Suspend
    | Relaunch(parameters: string)
    | LowMemory(state: LowMemoryState)

  function SlotOf(c: Callback): Slot
  {
    match c
    case Activate => ActivateSlot
    case Deactivate => DeactivateSlot
    case Suspend => SuspendSlot
    case Relaunch(_) => RelaunchSlot
    case LowMemory(_) => LowMemorySlot
  }

  /** The value of the `event` field that selects each slot. */
  function EventName(slot: Slot): string
  {
    match slot
    case ActivateSlot => "activating"
    case DeactivateSlot => "deactivating"
    case SuspendSlot => "suspending"
    case RelaunchSlot => "relaunched"
    case LowMemorySlot => "lowmemory"
  }

  /** The table pointer is non-NULL and the slot holds a function. */
  predicate Installed(handlers: Option<EventHandlers>, slot: Slot)
  {
    match handlers
    case None => false
    case Some(h) =>
      match slot
      case ActivateSlot => h.activate
      case DeactivateSlot => h.deactivate
      case SuspendSlot => h.suspend
      case RelaunchSlot => h.relaunch
      case LowMemorySlot => h.lowmemory
  }

  /** The wire spelling of each low-memory state. */
  function StateName(state: LowMemoryState): string
  {
    match state
    case Normal => "normal"
    case Low => "low"
    case Critical => "critical"
  }

  /** The mapping of the `state` field of a low-memory event: the three known names map to
      their state and every other string falls back to the initial value, NORMAL. */
  function LowMemoryStateOf(state: string): (r: LowMemoryState)
    ensures r == Low <==> state == "low"
    ensures r == Critical <==> state == "critical"
    ensures r == Normal <==> state != "low" && state != "critical"
  {
    if state == "normal" then Normal
    else if state == "low" then Low
    else if state == "critical" then Critical
    else Normal
  }

  /** Decoding the wire spelling of a state gives the state back. */
  lemma LowMemoryStateRoundTrip(state: LowMemoryState)
    ensures LowMemoryStateOf(StateName(state)) == state
  {
  }

  /** A message received before registration completes the handshake exactly when it has
      a boolean `returnValue` and a boolean `subscribed` and both are true. */
  function AckAccepted(obj: JObject): (accepted: bool)
    ensures accepted <==>
      "returnValue" in obj && obj["returnValue"] == JBool(true) &&
      "subscribed" in obj && obj["subscribed"] == JBool(true)
  {
    match GetBool(obj, "returnValue")
    case None => false
    case Some(returnValue) =>
      match GetBool(obj, "subscribed")
      case None => false
      case Some(subscribed) => returnValue && subscribed
  }

  /** The one case in which the handler dereferences a NULL handler table: the event is
      "relaunched" and the table pointer is NULL. */
  predicate DerefsNullTable(handlers: Option<EventHandlers>, obj: JObject)
  {
    handlers.None? && GetString(obj, "event") == Some("relaunched")
  }

  /** The slot a registered context's message reaches: the `event` field names it, the slot
      is installed, and the field the callback is given is present as a string. */
  predicate Deliverable(handlers: Option<EventHandlers>, obj: JObject, slot: Slot)
  {
    GetString(obj, "event") == Some(EventName(slot)) &&
    Installed(handlers, slot) &&
    (slot == RelaunchSlot ==> GetString(obj, "parameters").Some?) &&
    (slot == LowMemorySlot ==> GetString(obj, "state").Some?)
  }

  /** The callback that one message fires once the context is registered: at most one,
      exactly the deliverable slot, with the `parameters` string or the mapped `state`. */
  function Classify(handlers: Option<EventHandlers>, obj: JObject): (r: Option<Callback>)
    requires !DerefsNullTable(handlers, obj)
    ensures forall slot :: Deliverable(handlers, obj, slot) <==> r.Some? && SlotOf(r.value) == slot
    ensures r.Some? && r.value.Relaunch? ==> GetString(obj, "parameters") == Some(r.value.parameters)
    ensures r.Some? && r.value.LowMemory? ==>
      GetString(obj, "state").Some? && r.value.state == LowMemoryStateOf(GetString(obj, "state").value)
  {
    match GetString(obj, "event")
    case None => None
    case Some(event) =>
      if event == "relaunched" && handlers.value.relaunch then
        match GetString(obj, "parameters")
        case None => None
        case Some(parameters) =>
          if Installed(handlers, RelaunchSlot) then Some(Relaunch(parameters)) else None
      else if event == "activating" then
        if Installed(handlers, ActivateSlot) then Some(Activate) else None
      else if event == "deactivating" then
        if Installed(handlers, DeactivateSlot) then Some(Deactivate) else None
      else if event == "suspending" then
        if Installed(handlers, SuspendSlot) then Some(Suspend) else None
      else if event == "lowmemory" then
        match GetString(obj, "state")
        case None => None
        case Some(state) =>
          if Installed(handlers, LowMemorySlot) then Some(LowMemory(LowMemoryStateOf(state))) else None
      else
        None
  }

  /** An event name outside the five known ones fires nothing. */
  lemma UnknownEventFiresNothing(handlers: Option<EventHandlers>, obj: JObject)
    requires GetString(obj, "event").Some?
    requires forall slot :: GetString(obj, "event").value != EventName(slot)
    ensures !DerefsNullTable(handlers, obj)
    ensures Classify(handlers, obj).None?
  {
    var event := GetString(obj, "event").value;
    assert event != EventName(RelaunchSlot) && event != EventName(ActivateSlot);
    assert event != EventName(DeactivateSlot) && event != EventName(SuspendSlot);
    assert event != EventName(LowMemorySlot);
  }

  /** What one call of the handler leaves behind: the new `registered` flag and the
      callback it fired, if any. */
  datatype Outcome = Outcome(registered: bool, fired: Option<Callback>)

  /** The handler runs to completion on this message (no NULL dereference). */
  predicate HandlerDefined(registered: bool, handlers: Option<EventHandlers>, parsed: Option<JObject>)
  {
    !(registered && parsed.Some? && DerefsNullTable(handlers, parsed.value))
  }

  /** `register_cb` on the value of the context: an unparsable payload changes nothing;
      before registration a message is only ever an acknowledgement candidate; after it,
      the message is classified and the flag stays set. */
  function Receive(registered: bool, handlers: Option<EventHandlers>, parsed: Option<JObject>): (r: Outcome)
    requires HandlerDefined(registered, handlers, parsed)
    ensures r.fired.Some? ==> registered
    ensures registered ==> r.registered
    ensures !registered ==> (r.registered <==> parsed.Some? && AckAccepted(parsed.value))
    ensures parsed.None? ==> r == Outcome(registered, None)
    ensures registered && parsed.Some? ==> r.fired == Classify(handlers, parsed.value)
  {
    match parsed
    case None => Outcome(registered, None)
    case Some(obj) =>
      if !registered then Outcome(AckAccepted(obj), None)
      else Outcome(true, Classify(handlers, obj))
  }
}
