# x730-script daemon and Makefile, modelled in Dafny

The x730 script controls an X730 power board through a small daemon. The
daemon has three parts:

- The `API` decorator tags the daemon operations (`reboot`, `poweroff`) that
  can be called remotely.
- A `Server` accepts one connection at a time on a socket. It decodes one
  `ApiRequest`, calls the operation, and answers with one `ApiResponse`.
- A `Client` sends a request and turns the response back into a return value
  or an `IOError`.

The repository also ships a `Makefile.py` in which build steps are declared
as `Target`s. The target decorator wraps each step with a call counter and a
call limit, and it stores the last result. The module-level `targets` dict
registers every target; at most one may be the default. `make(name)` runs the
target it finds.

The Dafny modules follow that structure:

| file | module | what it holds |
|---|---|---|
| runtime.dfy | `PyRuntime` | values, exceptions (an `Exception` or another `BaseException`), `Result`, callables |
| api.dfy | `Api` | the `API` marker, `set_api`/`get_api`, the decorator, `get_apis`, the `Daemon` class |
| protocol.dfy | `Protocol` | `ApiRequest`/`ApiResponse`, `Server._client_handler`, `Client._api_call` |
| serve.dfy | `ServeLoop` | `Server.serve` and `Server.serve_until` |
| lifecycle.dfy | `ServerLifecycle` | `Server.open` and `Server.close` |
| target.dfy | `Targets` | the `Target` wrapper and its call limit |
| registry.dfy | `TargetRegistry` | the `targets` dict, `get_target`, `make`, the Makefile's five targets |

An exception is an `Exc` with a kind:

- `Error` is a subclass of `Exception`, so `except Exception` catches it.
- `Interrupt` is any other `BaseException`, such as `KeyboardInterrupt` or
  `SystemExit`, which escapes those handlers.

Whatever the model cannot see is an input:

- Sockets, the JSON codec and the operating system become parameters. Each
  says which step raises, what was received, or how a payload decodes.
- The server's lookup from an API id to a function is a map.

## Model

| member | source | states |
|---|---|---|
| Api.ApiId | src/x730/daemon.py:50-57 | the id `API.api_id` generates for a function is its `__qualname__` (no contract of its own; `Decorate` and `SetApi` state that wrapping and marking keep it) |
| Api.GetApi | src/x730/daemon.py:77-88 | the marker attribute of a function, absent when it was never set (no contract of its own; `SetApi` states the read-back) |
| Api.SetApi | src/x730/daemon.py:90-102 | after `set_api`, `get_api` reads the marker back; the function's name and behaviour are unchanged |
| Api.Decorate | src/x730/daemon.py:107-116 | the wrapper keeps the function's qualified name and carries the decorator as its marker; with a non-empty id the marker's `api` is that id, with the empty default id it is the marker the function already had; the wrapper yields `None` when the function returns and re-raises exactly what it raises |
| Api.GetApis | src/x730/daemon.py:59-75 | every marker of a function member appears in `get_apis`, everything in it is the marker of some member, and there are at most as many markers as members |
| Api.GetApisSnoc | src/x730/daemon.py:70-75 | listing one more member extends `get_apis` by exactly that member's marker, or by nothing if it has none; with `GetApisAppend` this fixes the result: one marker per marked member, in member order |
| Api.GetApisAppend | src/x730/daemon.py:70-75 | the markers of two member lists joined are the markers of each, in member order |
| Api.GetApisOfUnmarked | src/x730/daemon.py:70-75 | a class none of whose function members carries a marker has no APIs |
| Api.DefaultDecoratedMarker | src/x730/daemon.py:109 | decorating an unmarked function with the empty default id gives a marker whose `api` is `None`, not an id |
| Api.DaemonApis | src/x730/daemon.py:168-180 | class `Daemon` exposes exactly two APIs, `poweroff` then `reboot` (name order); both were decorated with the empty default id, so neither marker carries an id of its own |
| Protocol.ApiCall | src/x730/daemon.py:240-242 | the call `self._api_call(api_id, *args, **kwargs)` from the handler: a keyword argument named `api_id` or `self` makes binding raise a `TypeError`; otherwise an unknown id raises and a known one runs its function on the request's arguments |
| Protocol.Respond | src/x730/daemon.py:250-256 | the `try` is always entered; it gets a response exactly when the call (as `ApiCall` models it, binding included) returns or raises an `Exception`; the response echoes the request's id; `exception` is set exactly when the call raised, with the message as the response, and otherwise the return value is the response; any other exception escapes unchanged |
| Protocol.Handle | src/x730/daemon.py:244-257 | the handler returns normally without responding exactly for an empty payload; a receive failure or a payload that does not decode escapes before any call; a decoded payload is handled as `Respond` handles its request; the `try` around the call is entered exactly when the payload is non-empty and decodes |
| Protocol.ClientCall | src/x730/daemon.py:325-334 | keyword arguments naming `api_id` or `self` make binding `Client._api_call` raise its own `TypeError`, before any exchange; otherwise the client fails exactly when the exchange fails, with the same exception; a response flagged as an exception raises `IOError` carrying the response, and any other response is returned as is |
| Protocol.ClientServerRoundTrip | src/x730/daemon.py:325-334 | client and server composed: an operation's return value reaches the caller; an `Exception` reaches the caller as an `IOError` with its message, and so does an unknown id; keyword arguments that clash with `api_id` or `self` fail at the client with its binding `TypeError`; an exception that kills the handler leaves the client failing to decode an empty reply |
| Protocol.ConflictingKeywordsNeverSent | src/x730/daemon.py:325-327 | the client's binding failure happens before `_connect`: with clashing keyword arguments the outcome is a failure and does not depend on the exchange at all |
| Protocol.ConflictingKeywordsAnswered | src/x730/daemon.py:253-256 | a request whose keyword arguments name `api_id` or `self` is answered with an exception response carrying the `TypeError` message, whatever operations are registered |
| ServeLoop.ServeOneOutcome | src/x730/daemon.py:259-261 | one `serve()`: a failed `accept` propagates; a handled connection sends the handler's response unless `sendall` raises; `serve` returns normally without sending exactly for an empty payload; what escapes the handler escapes `serve`; a sent response answers the request the connection carried |
| ServeLoop.OneResponsePerConnection | src/x730/daemon.py:254-261 | each `serve()` sends at most one response, so the loop never sends more responses than it served connections |
| ServeLoop.DeliveredAnswersRequests | src/x730/daemon.py:254-257 | every response the loop sends carries the id of a request one of the served connections delivered |
| ServeLoop.ServeUntil | src/x730/daemon.py:263-271 | the event is cleared on entry, so only a stop set afterwards ends the loop; the loop stops exactly at the first check that sees the event set; an `Exception` from a connection is swallowed and serving goes on, with the responses sent and the exceptions logged listed in order; only a non-`Exception` from a connection ends the loop otherwise; without an event it never stops |
| ServeLoop.SwallowedAreExceptions | src/x730/daemon.py:268-271 | everything the loop logged and swallowed is an `Exception`, given no served connection raised anything else |
| ServerLifecycle.Open | src/x730/daemon.py:273-281 | with a socket present `open` does nothing; otherwise a complete `open` leaves a listening socket; a failure before the socket is created leaves the server as it was; a socket that was stored but is not listening comes with an exception |
| ServerLifecycle.Close | src/x730/daemon.py:283-292 | `close` always ends with no socket; it raises nothing when there was no socket, and when there was one it raises exactly what closing raised |
| ServerLifecycle.OpenIsIdempotent | src/x730/daemon.py:275 | once `open` stored a socket, a further `open` changes nothing and raises nothing |
| ServerLifecycle.CloseIsIdempotent | src/x730/daemon.py:284-291 | a second `close` raises nothing and the server stays without a socket |
| ServerLifecycle.FailedSetupNeedsClose | src/x730/daemon.py:278-281 | if binding or listening fails, the half-set-up socket stays and no later `open` repairs it; after `close`, `open` starts again from scratch |
| Targets.Bind | Makefile.py:51 | a target's name is the declared name, or the function's name when none was declared; the counter starts at 0 and the stored result at `None` |
| Targets.Invoke | Makefile.py:41-49 | the step runs exactly when the counter is below the limit; then its outcome is passed on, and only a step that returns is counted and stored; at the limit the state is unchanged and the call raises the call-limit error or yields the stored result |
| Targets.CompletedRunsBounded | Makefile.py:42-48 | the counter counts exactly the runs that returned, and over any sequence of calls the completed runs never exceed the limit |
| Targets.NonPositiveLimitNeverRuns | Makefile.py:42-46 | a fresh target whose limit is zero or less never runs: every call raises or yields `None` |
| Targets.RaisingStepRunsEveryTime | Makefile.py:47-48 | a step that keeps raising is re-run on every call and never counted |
| Targets.ResultCachedAfterLimit | Makefile.py:42-46 | at the limit, a non-raising target yields its stored result on every call without running the step |
| Targets.CallOnceThenCached | Makefile.py:28-49 | a fresh target with the default limit of one and no raising, whose step first returns `v`, runs once, and every call yields `v` |
| TargetRegistry.Put | Makefile.py:53 | storing a target maps its name to it and leaves every other entry alone; a new name goes last and a known one keeps its place |
| TargetRegistry.PutKeepsOneDefault | Makefile.py:38-39 | storing a default target where no other default exists keeps at most one default |
| TargetRegistry.FirstDefault | Makefile.py:63 | the result is the first key in insertion order whose target is a default, or none when no key has one |
| TargetRegistry.GetTarget | Makefile.py:60-66 | with a name, the entry stored under it; without one, the first default in insertion order, found exactly when some default exists |
| TargetRegistry.Register | Makefile.py:37-54 | a default target is refused exactly when `get_target()` already finds a default; otherwise the target is stored under its name, keeping an existing key's place in insertion order or appending a new key last, and no other entry changes; the registry stays well formed and keeps at most one default |
| TargetRegistry.RegistrationKeepsOneDefault | Makefile.py:38-39 | whatever targets are declared, in whatever order, the registry never holds two defaults |
| TargetRegistry.Make | Makefile.py:69-75 | with no matching target nothing runs or changes; otherwise the target's wrapper is called and its new state stored, its exception propagates, and `make` yields `None`; key order and the single default are preserved |
| TargetRegistry.MakeTwiceRunsOnce | Makefile.py:69-75 | making a fresh target with the default limit twice runs its step once; the second `make` changes nothing |
| TargetRegistry.AppendedDefaultFound | Makefile.py:60-63 | a default target declared under a new name into a registry without a default is the target `get_target()` then finds |
| TargetRegistry.MakefileRegistry | Makefile.py:81-174 | importing the Makefile registers `test`, `build`, `install` and `uninstall` as plain targets with the default limit, then `all` as the default target, each under a new name |
| TargetRegistry.MakefileDefaultIsAll | Makefile.py:170-171 | in the resulting registry the keys are `test`, `build`, `install`, `uninstall`, `all` in that order; `get_target()` finds `all`; declaring another default target would be refused |

## Left out

- The socket layer is not modelled: addresses, `_create_socket`, binding, timeouts, `_sock_receive_all`, `sendall`, the unix-socket path helpers and `_DEFAULT_ADDR`. These helpers are called in `src/x730/daemon.py` but not defined there, so they are not part of this model. Each appears only as an input saying what it yields or raises.
- `API.get`, the lookup `Server._api_call` uses, is not defined in `src/x730/daemon.py` either. The model uses a map from id to callable. A missing id raises an `Exception` whose message the model chooses (`UnknownApi`).
- Protocol.Handle: a request is typed (`args` a list of values, `kwargs` a map from strings, `api_id` a string), while `ApiRequest.from_json` checks only the field names. A payload with, say, `"args": null` decodes in the source and then fails with a `TypeError` inside the `try`, getting an exception response; in the model such a payload can only be a decoding failure, which escapes without a response. A non-string `api_id` echoed in the response is likewise not modelled.
- Protocol.ClientCall: when a caller's keyword arguments name both `api_id` and `self`, the client's binding `TypeError` names whichever comes first in the call; the model's map keeps no order and always names `api_id`.
- Protocol.ApiCall: when a request's keyword arguments name both `api_id` and `self`, Python's `TypeError` names whichever comes first in the payload; the model's map keeps no order and always names `api_id`.
- Floating-point JSON numbers are not among the modelled values (`Value` has `null`, booleans, integers, strings, lists and objects).
- JSON encoding and decoding (`to_json`/`from_json`) are left out. The server takes a decoding function as a parameter. The client takes an exchange function standing for connecting, sending, receiving and `ApiResponse.from_json`.
- `Deliver` assumes a server that sends nothing leaves the client with an empty reply, and gives that failure a fixed `json` decoding message.
- Threading is not modelled. The stop event's other thread is represented by the loop check at which the event is first seen set.
- Logging is not modelled: `_LOG.debug`, `_LOG.warning` and the `print` calls in `make`.
- ServeLoop.ServeUntil: covers at most as many iterations as connections it is given. A loop still running after them ends as `StillServing`, because the real loop without an event does not terminate.
- ServerLifecycle.Open: a socket's identity is an abstract number, and binding, listening and setting the timeout are folded into one step that may raise. The `listen(backlog)` / `listen()` distinction is not modelled.
- ServerLifecycle.Close: an error from closing the socket and one from cleaning the path are one optional exception. In either case the source skips the rest and clears the socket in `finally`.
- `Daemon.open`/`close`, `__enter__`/`__exit__`, the pid file and the `DEFAULT_RUN_DIR` search are left out: they hold no logic beyond delegation or touch the file system.
- Api.DaemonClass: `inspect.getmembers` sorting by name is written out for class `Daemon`, not computed.
- Api.Decorate: one application of a fresh `API` instance. `API.__call__` stores the function and the marker on the instance itself, so applying one instance twice leaves both wrappers sharing one marker whose function is the second; every use in `src/x730/daemon.py` applies a fresh instance, and the model does not cover reuse.
- Targets.Bind: one application of a fresh `Target` instance. `Target.__call__` writes the resolved name and function back to the instance, so a reused instance keeps its first name and its counter; every decorator in `Makefile.py` is a fresh instance, and the model does not cover reuse.
- Api.Decorate: function bodies are pure callables, so positional and keyword arguments are one `(Args, Kwargs)` pair. Binding `self` is not modelled.
- The Makefile targets' bodies (subprocesses, systemd unit files, `shutil.which`) and `main` are left out. A step's outcome on each call is an input.
- TargetRegistry.Make: a step's own calls into other targets' wrappers (`target_install` calls `target_build`, `_all` calls `target_test` and `target_build`) are not modelled, since a step is an outcome and not a function of the registry. The frame "only the made target's entry changes" therefore holds only for steps that call no other target; in the source, `make("all")` also advances the counters of `test` and `build`.
- Targets.CompletedRunsBounded: the call limit bounds completed runs, not attempts. The source stores the result and counts only after the step returns, so a step that raises is run again on the next call (see `Targets.RaisingStepRunsEveryTime`).
- The client never checks that a response's `api_id` matches its request, and neither does the model.
- `src/x730/x730.py`, `src/x730/cli.py` and the tests are not part of this model.
