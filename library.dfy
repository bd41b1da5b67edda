/** The library as the C code runs it: the global pointer `app_config` to a heap record
    whose `registered` field the inbound-message handler sets in place, and
    `webos_application_get_handle` writing through two out-pointers. Each entry point is
    proved against its function in `Application`, through `Abstract()`. */
module Library {
  import opened Json
  import opened Events
  import opened Application

  /** `struct webos_application_config`. */
  class Config {
    var registered: bool
    var appId: string
    var eventHandlers: Option<EventHandlers>
    var userData: UserData
    var serviceHandle: Handle

    /** `g_new0`: every field zeroed. */
    constructor ()
      ensures !registered && appId == [] && eventHandlers == None
      ensures userData == 0 && serviceHandle == NullHandle
    {
      registered, appId, eventHandlers, userData, serviceHandle := false, [], None, 0, NullHandle;
    }

    function View(): ConfigView
      reads this
    {
      ConfigView(registered, appId, eventHandlers, userData, serviceHandle)
    }
  }

  /** The `char **app_id` out-pointer's target: a fresh copy of the identifier, or NULL. */
  class AppIdSlot {
    var value: Option<string>
  }

  /** The `LSHandle **service_handle` out-pointer's target. */
  class HandleSlot {
    var value: Handle
  }

  /** The library's process-wide state: `app_config`, and, as ghost state, the requests made
      of the bus and the callbacks fired so far. */
  class Process {
    var appConfig: Config?
    ghost var bus: seq<BusRequest>
    ghost var fired: seq<Invocation>

    /** Process start: `app_config` is NULL. */
    constructor ()
      ensures Abstract() == Initial
    {
      appConfig := null;
      bus, fired := [], [];
    }

    ghost function Abstract(): State
      reads this, appConfig
    {
      State(if appConfig == null then None else Some(appConfig.View()), bus, fired)
    }

    /** `webos_application_get_handle`. */
    method GetHandle(appIdOut: AppIdSlot?, handleOut: HandleSlot?) returns (ok: bool)
      modifies appIdOut, handleOut
      ensures var q := Application.GetHandle(Abstract().config, appIdOut != null, handleOut != null);
        ok == q.ok &&
        (q.outputs.Untouched? ==> (appIdOut != null ==> appIdOut.value == old(appIdOut.value)) &&
                                  (handleOut != null ==> handleOut.value == old(handleOut.value))) &&
        (q.outputs.Written? ==> appIdOut.value == q.outputs.appId && handleOut.value == q.outputs.handle)
    {
      if appIdOut == null || handleOut == null {
        return false;
      }
      appIdOut.value := None;
      handleOut.value := NullHandle;
      if appConfig != null {
        appIdOut.value := Some(appConfig.appId);
        handleOut.value := appConfig.serviceHandle;
        return true;
      }
      return false;
    }

    /** `register_cb`: the handler of every reply to the subscribing call. It returns true
        for every message. */
    method RegisterCallback(parsed: Option<JObject>) returns (handled: bool)
      requires CanDeliver(Abstract(), parsed)
      modifies appConfig, this`fired
      ensures handled
      ensures appConfig == old(appConfig)
      ensures Abstract() == Deliver(old(Abstract()), parsed)
    {
      handled := true;
      if parsed.None? {
        return;
      }
      var obj := parsed.value;

      if !appConfig.registered {
        var returnValue := GetBool(obj, "returnValue");
        if returnValue.None? {
          return;
        }
        var subscribed := GetBool(obj, "subscribed");
        if subscribed.None? {
          return;
        }
        if returnValue.value && subscribed.value {
          appConfig.registered := true;
        }
        return;
      }

      appConfig.registered := true;

      var event := GetString(obj, "event");
      if event.None? {
        return;
      }
      var handlers := appConfig.eventHandlers;

      if event.value == "relaunched" && handlers.value.relaunch {
        var parameters := GetString(obj, "parameters");
        if parameters.None? {
          return;
        }
        if Installed(handlers, RelaunchSlot) {
          fired := fired + [Invocation(Relaunch(parameters.value), appConfig.userData)];
        }
      } else if event.value == "activating" {
        if Installed(handlers, ActivateSlot) {
          fired := fired + [Invocation(Activate, appConfig.userData)];
        }
      } else if event.value == "deactivating" {
        if Installed(handlers, DeactivateSlot) {
          fired := fired + [Invocation(Deactivate, appConfig.userData)];
        }
      } else if event.value == "suspending" {
        if Installed(handlers, SuspendSlot) {
          fired := fired + [Invocation(Suspend, appConfig.userData)];
        }
      } else if event.value == "lowmemory" {
        var state := GetString(obj, "state");
        if state.None? {
          return;
        }
        var lowMemoryState := Normal;
        if state.value == "normal" {
          lowMemoryState := Normal;
        } else if state.value == "low" {
          lowMemoryState := Low;
        } else if state.value == "critical" {
          lowMemoryState := Critical;
        }
        if Installed(handlers, LowMemorySlot) {
          fired := fired + [Invocation(LowMemory(lowMemoryState), appConfig.userData)];
        }
      }
    }

    /** `webos_application_init`, given the bus's answers to `LSRegister` and `LSCall`. */
    method Init(
      appId: Option<string>, serviceName: Option<string>, eventHandlers: Option<EventHandlers>,
      userData: UserData, registerReply: Option<Handle>, callAccepted: bool) returns (ok: bool)
      modifies this
      ensures var r := Application.Init(old(Abstract()), appId, serviceName, eventHandlers, userData,
                                        registerReply, callAccepted);
        Abstract() == r.state && ok == r.ok
      ensures ok ==> fresh(appConfig)
      ensures !ok ==> appConfig == old(appConfig) || appConfig == null
    {
      if appConfig != null {
        return false;
      }
      if appId.None? || |appId.value| == 0 {
        return false;
      }
      var name := ServiceNameFor(appId.value, serviceName);
      bus := bus + [Register(name)];
      if registerReply.None? {
        return false;
      }

      var config := new Config();
      config.appId := appId.value;
      config.eventHandlers := eventHandlers;
      config.userData := userData;
      config.serviceHandle := registerReply.value;
      appConfig := config;

      var payload := SubscribeBody(appConfig.appId);
      bus := bus + [Call(appConfig.serviceHandle, RegisterApplicationUri, payload)];
      if !callAccepted {
        Cleanup();
        return false;
      }
      return true;
    }

    /** `webos_application_attach`, given the bus's answer to `LSGmainAttach`. */
    method Attach(loop: MainLoop, attachAccepted: bool) returns (ok: bool)
      modifies this`bus
      ensures var r := Application.Attach(old(Abstract()), loop, attachAccepted);
        Abstract() == r.state && ok == r.ok
    {
      if appConfig == null {
        return false;
      }
      if appConfig.serviceHandle == NullHandle {
        return false;
      }
      bus := bus + [GmainAttach(appConfig.serviceHandle, loop)];
      return attachAccepted;
    }

    /** `webos_application_cleanup`. */
    method Cleanup()
      modifies this`appConfig, this`bus
      ensures Abstract() == Application.Cleanup(old(Abstract()))
    {
      if appConfig == null {
        return;
      }
      if appConfig.serviceHandle != NullHandle {
        bus := bus + [Unregister(appConfig.serviceHandle)];
      }
      appConfig := null;
    }
  }
}
