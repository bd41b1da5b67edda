/** Concrete runs of the registration state machine: the handshake followed by lifecycle
    events, a refused acknowledgement, dispatch with a partly filled handler table, and the
    low-memory mapping on the wire. */
module Scenarios {
  import opened Json
  import opened Events
  import opened Application

  const AppName: string := "org.example.app"
  const Token: UserData := 7

  const Ack: JObject := map["returnValue" := JBool(true), "subscribed" := JBool(true)]
  const RefusedAck: JObject := map["returnValue" := JBool(false), "subscribed" := JBool(true)]

  function EventMessage(name: string): JObject
  {
    map["event" := JStr(name)]
  }

  /** A message whose `event` names a slot without payload fires that slot iff it is installed. */
  lemma ClassifyEventOnly(handlers: Option<EventHandlers>, obj: JObject, slot: Slot)
    requires handlers.Some? && slot != RelaunchSlot && slot != LowMemorySlot
    requires GetString(obj, "event") == Some(EventName(slot))
    ensures var r := Classify(handlers, obj);
      (r.Some? <==> Installed(handlers, slot)) && (r.Some? ==> SlotOf(r.value) == slot)
  {
    assert Installed(handlers, slot) <==> Deliverable(handlers, obj, slot);
  }

  /** One message delivered to an active context with a non-NULL table appends what
      `Classify` selects. */
  lemma ActiveStep(s: State, obj: JObject, c: Option<Callback>)
    requires Active(s) && s.config.value.handlers.Some?
    requires Classify(s.config.value.handlers, obj) == c
    ensures CanDeliver(s, Some(obj))
    ensures Deliver(s, Some(obj)) == s.(fired := s.fired + (if c.Some? then [Invocation(c.value, s.config.value.userData)] else []))
  {
  }

  /** Init with no service name and both bus calls succeeding on handle 1. */
  function StartOp(handlers: EventHandlers): Op
  {
    InitOp(Some(AppName), None, Some(handlers), Token, Some(1), true)
  }

  /** A successful init registers the identifier as the service name, sends the subscription
      body, and leaves a context that is still registering. */
  lemma InitThenRegistering(handlers: EventHandlers)
    ensures Runnable(Initial, [StartOp(handlers)])
    ensures var s := Exec(Initial, [StartOp(handlers)]);
      Registering(s) && s.fired == [] &&
      s.bus == [Register(AppName),
                Call(1, RegisterApplicationUri, "{\"subscribe\":true,\"appId\":\"org.example.app\"}")]
  {
    var s := Apply(Initial, StartOp(handlers));
    assert SubscribeBody(AppName) == "{\"subscribe\":true,\"appId\":\"org.example.app\"}";
    ExecStep(Initial, StartOp(handlers), []);
    assert [StartOp(handlers)] + [] == [StartOp(handlers)];
  }

  /** The acknowledgement activates the context; a relaunch message then reaches `relaunch`
      with its parameters and the user data. */
  lemma AckThenRelaunch(handlers: EventHandlers, relaunch: JObject, parameters: string)
    requires handlers.relaunch
    requires GetString(relaunch, "event") == Some("relaunched")
    requires GetString(relaunch, "parameters") == Some(parameters)
    ensures var ops := [StartOp(handlers), MessageOp(Some(Ack)), MessageOp(Some(relaunch))];
      Runnable(Initial, ops) &&
      Active(Exec(Initial, ops)) &&
      Exec(Initial, ops).fired == [Invocation(Relaunch(parameters), Token)]
  {
    var s0 := Apply(Initial, StartOp(handlers));
    assert AckAccepted(Ack);
    var s1 := Deliver(s0, Some(Ack));
    assert Active(s1);
    assert Deliverable(Some(handlers), relaunch, RelaunchSlot);
    ActiveStep(s1, relaunch, Some(Relaunch(parameters)));
    ExecStep(s1, MessageOp(Some(relaunch)), []);
    ExecStep(s0, MessageOp(Some(Ack)), [MessageOp(Some(relaunch))]);
    ExecStep(Initial, StartOp(handlers), [MessageOp(Some(Ack)), MessageOp(Some(relaunch))]);
  }

  /** A refused acknowledgement keeps the context registering, and a lifecycle-shaped message
      after it is read as another (failed) acknowledgement: nothing fires. */
  lemma RefusedAckKeepsRegistering(handlers: EventHandlers)
    ensures var ops := [StartOp(handlers), MessageOp(Some(RefusedAck)), MessageOp(Some(EventMessage("activating")))];
      Runnable(Initial, ops) &&
      Registering(Exec(Initial, ops)) &&
      Exec(Initial, ops).fired == []
  {
    var ops := [StartOp(handlers), MessageOp(Some(RefusedAck)), MessageOp(Some(EventMessage("activating")))];
    var s0 := Apply(Initial, StartOp(handlers));
    assert !AckAccepted(RefusedAck);
    assert !AckAccepted(EventMessage("activating"));
    var s1 := Deliver(s0, Some(RefusedAck));
    var s2 := Deliver(s1, Some(EventMessage("activating")));
    ExecStep(s1, ops[2], []);
    ExecStep(s0, ops[1], [ops[2]]);
    ExecStep(Initial, ops[0], [ops[1], ops[2]]);
    assert [ops[0]] + [ops[1], ops[2]] == ops;
  }

  /** With `suspend` installed and `activate` and `deactivate` not, any three messages whose
      `event` fields are "activating", "suspending" and "deactivating" fire `suspend` exactly
      once and nothing else, whatever other fields they carry. */
  lemma OnlySuspendInstalled(s: State, activating: JObject, suspending: JObject, deactivating: JObject)
    requires Active(s) && s.config.value.handlers.Some?
    requires var h := s.config.value.handlers.value; !h.activate && h.suspend && !h.deactivate
    requires GetString(activating, "event") == Some("activating")
    requires GetString(suspending, "event") == Some("suspending")
    requires GetString(deactivating, "event") == Some("deactivating")
    ensures var ops := [MessageOp(Some(activating)), MessageOp(Some(suspending)), MessageOp(Some(deactivating))];
      Runnable(s, ops) &&
      Exec(s, ops).fired == s.fired + [Invocation(Suspend, s.config.value.userData)]
  {
    var handlers := s.config.value.handlers;
    var ops := [MessageOp(Some(activating)), MessageOp(Some(suspending)), MessageOp(Some(deactivating))];
    ClassifyEventOnly(handlers, activating, ActivateSlot);
    ClassifyEventOnly(handlers, suspending, SuspendSlot);
    ClassifyEventOnly(handlers, deactivating, DeactivateSlot);
    ActiveStep(s, activating, None);
    var s1 := Deliver(s, Some(activating));
    ActiveStep(s1, suspending, Some(Suspend));
    var s2 := Deliver(s1, Some(suspending));
    ActiveStep(s2, deactivating, None);
    ExecStep(s2, ops[2], []);
    ExecStep(s1, ops[1], [ops[2]]);
    ExecStep(s, ops[0], [ops[1], ops[2]]);
    assert [ops[0]] + [ops[1], ops[2]] == ops;
  }

  /** The two fields of a low-memory message, read as C strings. */
  lemma LowMemoryFields(obj: JObject, text: string)
    requires obj == map["event" := JStr("lowmemory"), "state" := JStr(text)]
    ensures GetString(obj, "event") == Some(EventName(LowMemorySlot))
    ensures GetString(obj, "state") == Some(CString(text))
  {
    CStringOfNulFree("lowmemory");
  }

  /** A low-memory message reaches an installed `lowmemory` slot with its mapped state. */
  lemma ClassifyLowMemory(handlers: EventHandlers, obj: JObject, text: string)
    requires handlers.lowmemory
    requires GetString(obj, "event") == Some(EventName(LowMemorySlot))
    requires GetString(obj, "state") == Some(text)
    ensures Classify(Some(handlers), obj) == Some(LowMemory(LowMemoryStateOf(text)))
  {
    assert Deliverable(Some(handlers), obj, LowMemorySlot);
  }

  /** A low-memory event carries its state through the mapping; any other state, read up to
      its first NUL, is NORMAL. */
  lemma LowMemoryOnTheWire(handlers: EventHandlers, state: LowMemoryState, other: string)
    requires handlers.lowmemory
    requires CString(other) != "low" && CString(other) != "critical"
    ensures Classify(Some(handlers), map["event" := JStr("lowmemory"), "state" := JStr(StateName(state))])
      == Some(LowMemory(state))
    ensures Classify(Some(handlers), map["event" := JStr("lowmemory"), "state" := JStr(other)])
      == Some(LowMemory(Normal))
  {
    var known := map["event" := JStr("lowmemory"), "state" := JStr(StateName(state))];
    LowMemoryFields(known, StateName(state));
    CStringOfNulFree(StateName(state));
    ClassifyLowMemory(handlers, known, StateName(state));
    LowMemoryStateRoundTrip(state);
    var unknown := map["event" := JStr("lowmemory"), "state" := JStr(other)];
    LowMemoryFields(unknown, other);
    ClassifyLowMemory(handlers, unknown, CString(other));
  }
}
