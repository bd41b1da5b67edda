# libwebos-application: the application context and its registration state machine

This project models, in Dafny, the process-wide application context of
libwebos-application (`src/webos_application.c`) and proves properties of it. The
library registers an application with the webOS Application Manager over the Luna bus,
waits for the acknowledgement of its subscription, and then turns each reply on that
subscription into at most one call of the application's lifecycle callbacks
(activate, deactivate, suspend, relaunch, low memory).

The context has three phases:

- no context (`app_config == NULL`);
- registering (a context exists, `registered == false`);
- active (`registered == true`).

Layout, one module per file:

- `json.dfy`, module `Json`. The parsed payload: `Option<JObject>`, where `JObject` is a map from field names to `JBool`, `JStr` or `JOther`. It also holds the two typed field lookups the handler uses, and `CString`, which reads a string up to its first NUL as C does.
- `events.dfy`, module `Events`. The low-memory enum and the handler table from `include/public/webos_application.h`, and the pure part of `register_cb`. That part is the acknowledgement test (`AckAccepted`), the choice of callback (`Classify`), the low-memory mapping (`LowMemoryStateOf`), and one handler step on the value of the context (`Receive`).
- `application.dfy`, module `Application`. The context as a value (`State`: the global record, a log of bus requests, a trace of fired callbacks). It has one function per entry point (`Init`, `Deliver`, `Attach`, `GetHandle`, `Cleanup`), execution of any sequence of calls (`Exec`), and the lemmas about single calls and call sequences.
- `library.dfy`, module `Library`. The imperative form of the C code. `Config` is `struct webos_application_config`. `Process` holds the global `app_config` pointer and ghost bus and callback logs. Its methods mirror the C functions branch by branch and are proved against the functions of `Application` through `Abstract()`. `AppIdSlot` and `HandleSlot` are the targets of `get_handle`'s out-pointers.
- `scenarios.dfy`, module `Scenarios`. Concrete runs: handshake then relaunch, a refused acknowledgement, a table with only `suspend` installed, and low-memory states on the wire.

Bus calls are inputs. `LSRegister`'s result is `registerReply: Option<Handle>` (None means it failed). `LSCall` and `LSGmainAttach` succeed according to `callAccepted` and `attachAccepted`. Every request made of the bus (`Register`, `Call`, `GmainAttach`, `Unregister`) is appended to the bus log. A handle is a `nat`, and 0 stands for NULL. A handler table pointer is `Option<EventHandlers>` (None is NULL). Each slot is a boolean meaning "the function pointer is non-NULL".

On these points the model follows the code:

- A `state` string other than `"normal"`, `"low"` or `"critical"` yields NORMAL (line 65). It is not a validation failure.
- The acknowledgement fields are `returnValue` and `subscribed`.
- `attach` also fails when the stored handle is NULL (lines 205-206).
- A `"relaunched"` event with a NULL `relaunch` slot falls through to the unknown-event branch (line 100).
- A parsed message needs a context, because `register_cb` reads `app_config` without a check (line 74). An unparsable one returns earlier (lines 71-72). The callback is only installed while a context exists, so the model requires a context for every message.
- String fields of a message are C strings: `g_strcmp0` and `%s` read them up to their first NUL (lines 100-133). `GetString` truncates there.

## Model

| member | source | states |
|---|---|---|
| Events.LowMemoryStateOf | src/webos_application.c:129-134 | Of the three states, starting from NORMAL (line 65): LOW exactly for "low", CRITICAL exactly for "critical", NORMAL for every other string, "normal" included |
| Events.LowMemoryStateRoundTrip | src/webos_application.c:129-134 | Decoding the wire name of each low-memory state gives that state back |
| Events.AckAccepted | src/webos_application.c:75-87 | A message is an accepted acknowledgement iff `returnValue` and `subscribed` are both present, both booleans, and both true |
| Events.Classify | src/webos_application.c:94-141 | At most one callback fires. A slot fires iff `event` names it as a string, the slot is non-NULL, and relaunch has a string `parameters` / lowmemory a string `state`. Relaunch carries `parameters`, and lowmemory carries the mapped `state` |
| Events.UnknownEventFiresNothing | src/webos_application.c:139-141 | An `event` string that names none of the five events fires nothing and never touches the table pointer |
| Events.Receive | src/webos_application.c:69-92 | An unparsable payload changes nothing. Before registration nothing fires, and the flag becomes exactly `AckAccepted`. After registration the flag stays true and the fired callback is `Classify`'s |
| Application.SubscribeBody | src/webos_application.c:182-182 | The subscription body is `{"subscribe":true,"appId":"`, then the identifier unescaped, then `"}` |
| Application.AppIdOfBody | src/webos_application.c:182-182 | An identifier read back from a body re-encodes to that same body |
| Application.SubscribeBodyRoundTrip | src/webos_application.c:182-182 | The identifier is recovered from the body it produced, so distinct identifiers send distinct bodies |
| Application.ServiceNameFor | src/webos_application.c:162-163 | The registered name is the service name, or the identifier when the service name is NULL |
| Application.Cleanup | src/webos_application.c:219-232 | No context is left afterwards. With no context, nothing changes. Otherwise exactly one `Unregister` of a non-NULL stored handle is added, and the trace is unchanged |
| Application.CleanupIdempotent | src/webos_application.c:219-232 | A second cleanup changes nothing, so two calls release at most one handle |
| Application.Init | src/webos_application.c:150-196 | An existing context makes init fail and stay untouched. Init succeeds iff there was no context, the identifier is non-empty, and both bus calls succeed. Failure leaves the context as it was, and an invalid identifier never reaches the bus. A failed `LSRegister` adds only the `Register` request. Success leaves an unregistered context holding the arguments and the handle, after `Register(name)` and the subscribe `Call`. A failed `LSCall` unregisters the new non-NULL handle |
| Application.Deliver | src/webos_application.c:52-148 | Only the flag and the trace change. Active stays active. While registering, nothing fires and the context becomes active iff the message is an accepted acknowledgement. When active, a message without a string `event` changes nothing, and otherwise the callback `Classify` selects is appended with the stored user data |
| Application.Attach | src/webos_application.c:198-217 | The context and trace never change. Attach succeeds iff a context with a non-NULL handle exists and the bus accepts. Only then is the attach request logged, for the stored handle |
| Application.GetHandle | src/webos_application.c:35-50 | True iff both out-pointers are non-NULL and a context exists. A NULL out-pointer leaves both untouched. With no context both are set to NULL. On success they hold the identifier and the stored handle |
| Application.ExecPreservesValid | src/webos_application.c:159-177 | Over any sequence of calls, a stored identifier is never empty |
| Application.GetHandleGivesIdentifier | src/webos_application.c:35-50 | From process start, after any sequence of calls, a successful `get_handle` hands out a non-empty identifier |
| Application.ActiveUntilCleanup | src/webos_application.c:74-92 | Once active, the context (its flag included) stays unchanged over any sequence of calls without a cleanup |
| Application.NothingFiresBeforeAck | src/webos_application.c:74-90 | With no accepted acknowledgement in a sequence of calls, no context becomes active and no callback fires |
| Application.AtMostOneCallbackPerMessage | src/webos_application.c:100-141 | The trace only grows: its old contents stay a prefix, and it gains at most one invocation per message |
| Application.SecondInitRejected | src/webos_application.c:156-157 | After a successful init, any further init fails and leaves the state exactly as the first one left it |
| Library.Config.constructor | src/webos_application.c:173-173 | The new record is zeroed: unregistered, NULL identifier (the empty sequence stands for NULL), NULL table and handle |
| Library.Process.constructor | src/webos_application.c:33-33 | At process start there is no context, no bus request and no fired callback |
| Library.Process.GetHandle | src/webos_application.c:35-50 | The return value and what it writes through the out-pointers are those of `Application.GetHandle`. The context is not in its frame |
| Library.Process.RegisterCallback | src/webos_application.c:52-148 | Returns true for every message, keeps the same record, and leaves the state that `Application.Deliver` gives |
| Library.Process.Init | src/webos_application.c:150-196 | State and result are those of `Application.Init`, and a successful init allocates a fresh record |
| Library.Process.Attach | src/webos_application.c:198-217 | State and result are those of `Application.Attach`. Only the bus log may change |
| Library.Process.Cleanup | src/webos_application.c:219-232 | The new state is `Application.Cleanup` of the old one |
| Scenarios.InitThenRegistering | src/webos_application.c:162-185 | Init with a NULL service name registers the identifier, sends the exact subscription body, and leaves the context registering with nothing fired |
| Scenarios.AckThenRelaunch | src/webos_application.c:86-108 | After init, an acknowledgement activates the context. Then any message whose `event` is `relaunched` and whose `parameters` string is p fires `relaunch(p)` once, with the user data |
| Scenarios.RefusedAckKeepsRegistering | src/webos_application.c:74-89 | After an acknowledgement with `returnValue` false, a later event-shaped message is still read as an acknowledgement. The context stays registering and nothing fires |
| Scenarios.OnlySuspendInstalled | src/webos_application.c:110-121 | On an active context with `suspend` installed and `activate` and `deactivate` not, messages naming activating, suspending and deactivating (whatever else they carry) fire `suspend` exactly once and nothing else |
| Scenarios.LowMemoryOnTheWire | src/webos_application.c:122-137 | A lowmemory event with a known state name fires that state. Any other string, read up to its first NUL, fires NORMAL |

## Left out

- `src/luna_service_utils.c` is not part of this model. Its reply helpers and subscription helpers are formatting plus bus calls. Of `luna_service_message_parse_and_validate` (parsing against an accept-all schema), only its result is modelled, as the optional parsed map given to the handler.
- A well-formed payload that is not a JSON object is modelled as the empty map. Every field lookup on it fails, exactly as `jobject_get_exists` does on a non-object.
- The Luna bus transport (`LSRegister`, `LSCall`, `LSGmainAttach`, `LSUnregister`) and the GLib main loop are left out. Their answers are inputs, and their requests are a ghost log. The `LSHandle *` and `user_data` arguments of `register_cb` are unused by the code and not modelled.
- Memory management and logging are left out: `g_strdup`, `g_free`, `j_release` and `g_warning`. So is the NULL check after `g_new0` (lines 174-175), which cannot fire because GLib aborts when out of memory.
- Callbacks are not executable. A non-NULL slot is a boolean, and an invocation is an entry in the ghost trace, so what a callback itself does is not modelled. `user_data` and the main loop are opaque numbers.
- The identifier is interpolated into the request body without JSON escaping (line 182), and the model keeps that plain concatenation.
- NULL dereferences are preconditions, not modelled crashes. `register_cb` reads `app_config` without a check (line 74), so a parsed message needs a context; an unparsable one returns at lines 71-72, before that read. The callback is only installed while a context exists, so the model requires a context for every message. It reads the table pointer without a check when the event is `"relaunched"` (line 100), which is `DerefsNullTable`.
- `Application.Init` / `Events.Classify`: the handler table is held by reference and re-read on every message. The model takes its slots at init, so slot changes the application makes after init are not seen.
- `Application.Init`: the `app_id` and `service_name` arguments are taken as the C strings they point to. A `string` argument holding a NUL is not cut at it, so the model does not capture `strlen` and `g_strdup` stopping there.
