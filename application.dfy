/** The process-wide application context of `webos_application.c` as a value, one function
    per entry point (`webos_application_init`, `register_cb`, `webos_application_attach`,
    `webos_application_get_handle`, `webos_application_cleanup`), and the properties of the
    registration state machine over single calls and over any sequence of calls.

    The bus is a collaborator: what the library asks of it is appended to a log of
    requests, and what it answers (the handle `LSRegister` yields, whether `LSCall` and
    `LSGmainAttach` succeed) is an input of each operation. Callback invocations are
    appended to a trace. */
module Application {
  import opened Json
  import opened Events

  /** `LSHandle *`; 0 is NULL. */
  type Handle = nat
  const NullHandle: Handle := 0

  /** The opaque `void *user_data` passed back to every callback. */
  type UserData = int

  /** The opaque `GMainLoop *` given to attach. */
  type MainLoop = nat

  /** `struct webos_application_config`. */
  datatype ConfigView = ConfigView(
    registered: bool,
    appId: string,
    handlers: Option<EventHandlers>,
    userData: UserData,
    serviceHandle: Handle)

  /** A request the library makes of the bus. */
  datatype BusRequest =
    | Register(serviceName: string)
    | Call(handle: Handle, uri: string, payload: string)
    | GmainAttach(handle: Handle, loop: MainLoop)
    | Unregister(handle: Handle)

  /** A callback invocation with the user data it was given. */
  datatype Invocation = Invocation(callback: Callback, userData: UserData)

  /** The global `app_config` (None is NULL), the bus requests so far, the callbacks fired so far. */
  datatype State = State(config: Option<ConfigView>, bus: seq<BusRequest>, fired: seq<Invocation>)

  /** A new state and the boolean an entry point returns. */
  datatype After = After(state: State, ok: bool)

  /** The process before any call. */
  const Initial: State := State(None, [], [])

  const RegisterApplicationUri: string := "luna://com.palm.applicationManager/registerApplication"

  const SubscribePrefix: string := "{\"subscribe\":true,\"appId\":\""
  const SubscribeSuffix: string := "\"}"

  /** The three phases: no context, registering, active. */
  predicate Registering(s: State) { s.config.Some? && !s.config.value.registered }
  predicate Active(s: State) { s.config.Some? && s.config.value.registered }

  /** The subscription request body, the identifier interpolated without escaping. */
  function SubscribeBody(appId: string): (body: string)
    ensures |body| == |SubscribePrefix| + |appId| + |SubscribeSuffix|
    ensures body[..|SubscribePrefix|] == SubscribePrefix
    ensures body[|SubscribePrefix|..|body| - |SubscribeSuffix|] == appId
    ensures body[|body| - |SubscribeSuffix|..] == SubscribeSuffix
  {
    var body := SubscribePrefix + appId + SubscribeSuffix;
    assert body[..|SubscribePrefix|] == SubscribePrefix;
    assert body[|SubscribePrefix|..|body| - |SubscribeSuffix|] == appId;
    body
  }

  /** The identifier a subscription body carries, if it has the body's shape. */
  function AppIdOfBody(body: string): (appId: Option<string>)
    ensures appId.Some? ==> SubscribeBody(appId.value) == body
  {
    if |body| >= |SubscribePrefix| + |SubscribeSuffix|
       && body[..|SubscribePrefix|] == SubscribePrefix
       && body[|body| - |SubscribeSuffix|..] == SubscribeSuffix
    then
      var appId := body[|SubscribePrefix|..|body| - |SubscribeSuffix|];
      assert body == body[..|SubscribePrefix|] + appId + body[|body| - |SubscribeSuffix|..];
      Some(appId)
    else None
  }

  /** The identifier is recovered from the body sent, so distinct identifiers send distinct bodies. */
  lemma SubscribeBodyRoundTrip(appId: string)
    ensures AppIdOfBody(SubscribeBody(appId)) == Some(appId)
  {
  }

  /** The name registered on the bus: the service name, or the identifier when it is NULL. */
  function ServiceNameFor(appId: string, serviceName: Option<string>): (name: string)
    ensures serviceName.Some? ==> name == serviceName.value
    ensures serviceName.None? ==> name == appId
  {
    match serviceName
    case Some(n) => n
    case None => appId
  }

  /** The bus requests cleanup makes for a context: it unregisters a non-NULL handle. */
  function Releases(config: Option<ConfigView>): seq<BusRequest>
  {
    match config
    case None => []
    case Some(c) => if c.serviceHandle != NullHandle then [Unregister(c.serviceHandle)] else []
  }

  /** `webos_application_cleanup`: afterwards there is no context; the handle of the context
      it found, if non-NULL, was unregistered; nothing else was asked of the bus. */
  function Cleanup(s: State): (r: State)
    ensures r.config.None?
    ensures r.fired == s.fired
    ensures s.config.None? ==> r == s
    ensures s.config.Some? && s.config.value.serviceHandle != NullHandle ==>
      r.bus == s.bus + [Unregister(s.config.value.serviceHandle)]
    ensures s.config.Some? && s.config.value.serviceHandle == NullHandle ==> r.bus == s.bus
  {
    State(None, s.bus + Releases(s.config), s.fired)
  }

  /** A second cleanup finds no context and releases nothing again. */
  lemma CleanupIdempotent(s: State)
    ensures Cleanup(Cleanup(s)) == Cleanup(s)
    ensures |Cleanup(Cleanup(s)).bus| <= |s.bus| + 1
  {
  }

  /** `webos_application_init`. `registerReply` is what `LSRegister` yields (None: it
      failed) and `callAccepted` whether `LSCall` succeeded. */
  function Init(
    s: State, appId: Option<string>, serviceName: Option<string>,
    handlers: Option<EventHandlers>, userData: UserData,
    registerReply: Option<Handle>, callAccepted: bool): (r: After)
    // An existing context makes init fail and stay untouched.
    ensures s.config.Some? ==> r == After(s, false)
    // Init succeeds exactly when there was no context, the identifier is non-empty and both bus calls succeed.
    ensures r.ok <==>
      s.config.None? && appId.Some? && |appId.value| > 0 && registerReply.Some? && callAccepted
    // A failing init leaves the context as it was (none, unless one already existed).
    ensures !r.ok ==> r.state.config == s.config
    // A successful init creates an unregistered context from the arguments.
    ensures r.ok ==>
      r.state.config == Some(ConfigView(false, appId.value, handlers, userData, registerReply.value))
    // The bus is asked to register the service name, then to subscribe with the identifier.
    ensures r.ok ==>
      r.state.bus == s.bus + [Register(ServiceNameFor(appId.value, serviceName)),
                              Call(registerReply.value, RegisterApplicationUri, SubscribeBody(appId.value))]
    // When registration fails, only the registration request was made.
    ensures s.config.None? && appId.Some? && |appId.value| > 0 && registerReply.None? ==>
      r.state.bus == s.bus + [Register(ServiceNameFor(appId.value, serviceName))]
    // When the subscription call fails, the handle just obtained is released.
    ensures s.config.None? && appId.Some? && |appId.value| > 0 && registerReply.Some? && !callAccepted ==>
      r.state.bus == s.bus + [Register(ServiceNameFor(appId.value, serviceName)),
                              Call(registerReply.value, RegisterApplicationUri, SubscribeBody(appId.value))]
                           + Releases(Some(ConfigView(false, appId.value, handlers, userData, registerReply.value)))
    // An invalid identifier is rejected before the bus is used.
    ensures appId.None? || |appId.value| == 0 ==> r.state == s
    ensures r.state.fired == s.fired
  {
    if s.config.Some? then After(s, false)
    else if appId.None? || |appId.value| == 0 then After(s, false)
    else
      var name := ServiceNameFor(appId.value, serviceName);
      var registering := s.(bus := s.bus + [Register(name)]);
      match registerReply
      case None => After(registering, false)
      case Some(handle) =>
        var created := State(
          Some(ConfigView(false, appId.value, handlers, userData, handle)),
          registering.bus + [Call(handle, RegisterApplicationUri, SubscribeBody(appId.value))],
          s.fired);
        if callAccepted then After(created, true) else After(Cleanup(created), false)
  }

  /** A message can be handed to `register_cb` without it dereferencing NULL. */
  predicate CanDeliver(s: State, parsed: Option<JObject>)
  {
    s.config.Some? && HandlerDefined(s.config.value.registered, s.config.value.handlers, parsed)
  }

  /** The callbacks one outcome appends to the trace. */
  function Fired(o: Outcome, userData: UserData): seq<Invocation>
  {
    if o.fired.Some? then [Invocation(o.fired.value, userData)] else []
  }

  /** `register_cb` on the whole state: the flag moves as `Receive` says, the callback it
      selects is fired with the stored user data, and nothing else changes. */
  function Deliver(s: State, parsed: Option<JObject>): (r: State)
    requires CanDeliver(s, parsed)
    ensures r.config.Some? && r.bus == s.bus
    ensures r.config.value == s.config.value.(registered := r.config.value.registered)
    ensures Active(s) ==> Active(r)
    ensures Registering(s) ==> r.fired == s.fired
    ensures Registering(s) ==> (Active(r) <==> parsed.Some? && AckAccepted(parsed.value))
    ensures parsed.None? ==> r == s
    ensures Active(s) && parsed.Some? && GetString(parsed.value, "event").None? ==> r == s
    ensures Active(s) && parsed.Some? ==>
      r.fired == s.fired + (match Classify(s.config.value.handlers, parsed.value)
                            case None => []
                            case Some(c) => [Invocation(c, s.config.value.userData)])
  {
    var c := s.config.value;
    var o := Receive(c.registered, c.handlers, parsed);
    State(Some(c.(registered := o.registered)), s.bus, s.fired + Fired(o, c.userData))
  }

  /** `webos_application_attach`: fails without a context or with a NULL handle; otherwise
      asks the bus to attach and returns its answer. The context is never changed. */
  function Attach(s: State, loop: MainLoop, attachAccepted: bool): (r: After)
    ensures r.state.config == s.config && r.state.fired == s.fired
    ensures r.ok <==> s.config.Some? && s.config.value.serviceHandle != NullHandle && attachAccepted
    ensures s.config.None? || s.config.value.serviceHandle == NullHandle ==> r.state == s
    ensures s.config.Some? && s.config.value.serviceHandle != NullHandle ==>
      r.state.bus == s.bus + [GmainAttach(s.config.value.serviceHandle, loop)]
  {
    match s.config
    case None => After(s, false)
    case Some(c) =>
      if c.serviceHandle == NullHandle then After(s, false)
      else After(s.(bus := s.bus + [GmainAttach(c.serviceHandle, loop)]), attachAccepted)
  }

  /** What `webos_application_get_handle` leaves in its two out-pointers. */
  datatype OutSlots = Untouched | Written(appId: Option<string>, handle: Handle)

  datatype HandleQuery = HandleQuery(ok: bool, outputs: OutSlots)

  /** `webos_application_get_handle`, given whether each out-pointer is non-NULL. */
  function GetHandle(config: Option<ConfigView>, appIdOutGiven: bool, handleOutGiven: bool): (r: HandleQuery)
    ensures r.ok <==> appIdOutGiven && handleOutGiven && config.Some?
    ensures r.outputs.Untouched? <==> !appIdOutGiven || !handleOutGiven
    ensures appIdOutGiven && handleOutGiven && config.None? ==> r.outputs == Written(None, NullHandle)
    ensures r.ok ==> r.outputs == Written(Some(config.value.appId), config.value.serviceHandle)
  {
    if !appIdOutGiven || !handleOutGiven then HandleQuery(false, Untouched)
    else match config
      case None => HandleQuery(false, Written(None, NullHandle))
      case Some(c) => HandleQuery(true, Written(Some(c.appId), c.serviceHandle))
  }

  /** One call into the library, with the bus's answers it receives. */
  datatype Op =
    | InitOp(appId: Option<string>, serviceName: Option<string>, handlers: Option<EventHandlers>,
             userData: UserData, registerReply: Option<Handle>, callAccepted: bool)
    | MessageOp(parsed: Option<JObject>)
    | AttachOp(loop: MainLoop, attachAccepted: bool)
    | GetHandleOp(appIdOutGiven: bool, handleOutGiven: bool)
    | CleanupOp

  predicate Allowed(s: State, op: Op)
  {
    op.MessageOp? ==> CanDeliver(s, op.parsed)
  }

  function Apply(s: State, op: Op): State
    requires Allowed(s, op)
  {
    match op
    case InitOp(appId, serviceName, handlers, userData, registerReply, callAccepted) =>
      Init(s, appId, serviceName, handlers, userData, registerReply, callAccepted).state
    case MessageOp(parsed) => Deliver(s, parsed)
    case AttachOp(loop, attachAccepted) => Attach(s, loop, attachAccepted).state
    case GetHandleOp(_, _) => s
    case CleanupOp => Cleanup(s)
  }

  /** Every call of the sequence runs without a NULL dereference. */
  predicate Runnable(s: State, ops: seq<Op>)
    decreases |ops|
  {
    |ops| == 0 || (Allowed(s, ops[0]) && Runnable(Apply(s, ops[0]), ops[1..]))
  }

  function Exec(s: State, ops: seq<Op>): State
    requires Runnable(s, ops)
    decreases |ops|
  {
    if |ops| == 0 then s else Exec(Apply(s, ops[0]), ops[1..])
  }

  /** Running a call and then a sequence is running the sequence that starts with that call. */
  lemma ExecStep(s: State, op: Op, ops: seq<Op>)
    requires Allowed(s, op) && Runnable(Apply(s, op), ops)
    ensures Runnable(s, [op] + ops)
    ensures Exec(s, [op] + ops) == Exec(Apply(s, op), ops)
  {
  }

  /** The context invariant: a stored identifier is never empty. */
  predicate Valid(s: State)
  {
    s.config.Some? ==> |s.config.value.appId| > 0
  }

  lemma {:induction false} ExecPreservesValid(s: State, ops: seq<Op>)
    requires Runnable(s, ops) && Valid(s)
    ensures Valid(Exec(s, ops))
    decreases |ops|
  {
    if |ops| > 0 {
      ExecPreservesValid(Apply(s, ops[0]), ops[1..]);
    }
  }

  /** From process start, whatever calls were made, a successful `get_handle` hands out a
      non-empty identifier. */
  lemma GetHandleGivesIdentifier(ops: seq<Op>)
    requires Runnable(Initial, ops)
    ensures var q := GetHandle(Exec(Initial, ops).config, true, true);
      q.ok ==> q.outputs.appId.Some? && |q.outputs.appId.value| > 0
  {
    ExecPreservesValid(Initial, ops);
  }

  /** Once active, a context stays exactly as it is, flag included, until a cleanup. */
  lemma {:induction false} ActiveUntilCleanup(s: State, ops: seq<Op>)
    requires Runnable(s, ops) && Active(s)
    requires forall i :: 0 <= i < |ops| ==> !ops[i].CleanupOp?
    ensures Exec(s, ops).config == s.config
    decreases |ops|
  {
    if |ops| > 0 {
      var next := Apply(s, ops[0]);
      assert next.config == s.config;
      ActiveUntilCleanup(next, ops[1..]);
    }
  }

  /** A message that would complete the handshake. */
  predicate IsAck(op: Op)
  {
    op.MessageOp? && op.parsed.Some? && AckAccepted(op.parsed.value)
  }

  /** Without an accepted acknowledgement no context becomes active and no callback fires. */
  lemma {:induction false} NothingFiresBeforeAck(s: State, ops: seq<Op>)
    requires Runnable(s, ops) && !Active(s)
    requires forall i :: 0 <= i < |ops| ==> !IsAck(ops[i])
    ensures !Active(Exec(s, ops))
    ensures Exec(s, ops).fired == s.fired
    decreases |ops|
  {
    if |ops| > 0 {
      var next := Apply(s, ops[0]);
      assert !Active(next) && next.fired == s.fired;
      NothingFiresBeforeAck(next, ops[1..]);
    }
  }

  /** The number of messages in a sequence of calls. */
  function Messages(ops: seq<Op>): nat
  {
    if |ops| == 0 then 0 else (if ops[0].MessageOp? then 1 else 0) + Messages(ops[1..])
  }

  /** The trace only grows, and by at most one invocation per message. */
  lemma {:induction false} AtMostOneCallbackPerMessage(s: State, ops: seq<Op>)
    requires Runnable(s, ops)
    ensures |s.fired| <= |Exec(s, ops).fired| <= |s.fired| + Messages(ops)
    ensures Exec(s, ops).fired[..|s.fired|] == s.fired
    decreases |ops|
  {
    if |ops| > 0 {
      var next := Apply(s, ops[0]);
      assert |next.fired| <= |s.fired| + (if ops[0].MessageOp? then 1 else 0);
      assert next.fired[..|s.fired|] == s.fired;
      AtMostOneCallbackPerMessage(next, ops[1..]);
    }
  }

  /** A second init after a successful one fails and leaves the first context untouched. */
  lemma SecondInitRejected(
    s: State, appId: Option<string>, serviceName: Option<string>, handlers: Option<EventHandlers>,
    userData: UserData, registerReply: Option<Handle>, callAccepted: bool, op: Op)
    requires Init(s, appId, serviceName, handlers, userData, registerReply, callAccepted).ok
    requires op.InitOp?
    ensures var first := Init(s, appId, serviceName, handlers, userData, registerReply, callAccepted).state;
      Init(first, op.appId, op.serviceName, op.handlers, op.userData, op.registerReply, op.callAccepted)
        == After(first, false)
  {
  }
}
