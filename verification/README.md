# konsul core, modelled in Dafny

This project models the core of konsul, a small Go library on top of the
Consul API:

- **Instancer** (`instancer.go`): a client-side round-robin load balancer.
  It keeps a snapshot of the `address:port` endpoints of one Consul service.
  A watch plan's change handler replaces that snapshot wholesale and notifies
  the registered listeners in registration order. `Instance` picks an
  endpoint with a 64-bit counter taken modulo the snapshot length.
  `RegisterListener` notifies a new listener once, at once. `Close` clears the
  state and stops the instancer.
- **Watch** (`watch.go`): keeps a value refreshed from one Consul key. The
  model covers the plan set-up and the change handler's decision table: a nil
  payload, a payload of the wrong type, an unmarshal failure and a success.
- **The zap and zerolog logging adapters** (`log/zap/zap.go`,
  `log/zerolog/zerolog.go`). The model covers how they route hclog levels and
  how they compose logger names. It also covers zap's conversion of hclog's
  variadic key/value arguments into fields.

Files and modules:

| file | module | models |
|---|---|---|
| `results.dfy` | `Results` | `Option` and `Result`, for nil values, error returns and panics |
| `text.dfy` | `Text` | `%d` formatting of integers and its inverse; `strings.TrimSpace` |
| `hclog.dfy` | `Hclog` | hclog levels (`int32`), variadic arguments, fields, logger handles |
| `consul.dfy` | `ConsulApi` | the fields of `api.ServiceEntry` the core reads; watch-plan parameters |
| `instancer.dfy` | `Konsul` | `Instancer` as a class, its configuration, endpoints, selection |
| `watch.dfy` | `KonsulWatch` | `Watch`'s set-up and change handler |
| `zap.dfy` | `ZapAdapter` | `convertArgsToZapFields` and the zap `Wrapper` |
| `zerolog.dfy` | `ZerologAdapter` | the zerolog `Wrapper` |

How the model represents the source:

- The `Instancer` is a class with the fields `instances: seq<string>`,
  `listeners: seq<L>` and `counter: u64`. `u64` is a newtype for Go's
  `uint64`, and the increment wraps explicitly at 2^64. The class also has a
  field `stopped` that `Close` sets; it stands for the watch plan's
  `IsStopped()`.
- A call to a listener's `OnChange` is returned as a `Notice`. A notice holds
  the listener's position in the list, the listener and the snapshot copy.
- A panic on a closed instancer becomes `requires !stopped`. The panics of
  `InstancerConfig.validate` are the `Failure` results of `Validate`.
  `NewInstancer` requires a configuration that validates.
- Foreign results are parameters: the error of `watch.Parse` and the outcome
  of `cfg.UnmarshalBinary`.
- The zap and zerolog loggers under the adapters are foreign. Each is modelled
  by what the adapter does to it: the fields attached with `With`, and, for
  zap, the names passed to `Named`.

## Model

| member | source | states |
|---|---|---|
| `Text.NatToDecimal` | instancer.go:218 | decimal digits only, at least one, no leading zero |
| `Text.IntToDecimal` | instancer.go:218 | `%d` of an int: a leading `-` exactly for negatives, never a colon |
| `Text.ParseIntToDecimal` | instancer.go:218 | parsing the `%d` text gives back the integer, so the port is recoverable |
| `Text.TrimSpace` | instancer.go:49 | the result is the input with its leading and trailing white space (Go's `unicode.IsSpace` set) removed: a contiguous slice with only white space around it and none at its ends; it is empty exactly when every character is white space |
| `Konsul.Advance` | instancer.go:186 | the counter grows by one, and wraps to 0 after 2^64 - 1 |
| `Konsul.Validate` | instancer.go:45-55 | fails exactly when the client is nil or the service is only white space, with the source's panic message for each; otherwise only the logger changes, to the default if it was nil |
| `Konsul.ServiceParams` | instancer.go:88-97 | keys `type=service`, `service`, `passingonly` and `stale` are always present; `tag` is present exactly when the tag is non-empty |
| `Konsul.EndpointSplits` | instancer.go:213-218 | splitting an endpoint at its last colon gives back the chosen host and the port, even when the host holds colons |
| `Konsul.Select` | instancer.go:183-188 | an endpoint is found exactly when the snapshot is non-empty; it is `instances[c mod N]`, a member of the snapshot, and the counter advances; otherwise `""` and the counter is unchanged |
| `Konsul.RoundsAt` | instancer.go:186-188 | with no wrap-around, the i-th of k consecutive selections is `instances[(c + i) mod N]` |
| `Konsul.CyclicFairness` | instancer.go:186-188 | N consecutive selections over a stable snapshot of length N return the snapshot rotated to start at `c mod N`: every position exactly once, same multiset |
| `Konsul.WrapRepeats` | instancer.go:186-187 | across the counter's wrap-around the cycle breaks: with three endpoints, counters 2^64 - 1 and 0 both pick the first |
| `Konsul.BuildInstances` | instancer.go:212-220 | one endpoint per entry, same order; entry j gives (service address if non-empty, else node address) + `:` + decimal port |
| `Konsul.NotifyAll` | instancer.go:226-233 | each listener is notified exactly once, in registration order, with the same snapshot |
| `Konsul.Instancer.constructor` | instancer.go:103-112 | a new instancer has no endpoints, no listeners, counter 0, and is running |
| `Konsul.Instancer.Close` | instancer.go:139-143 | snapshot and listeners are empty and the instancer is stopped; the counter is kept |
| `Konsul.Instancer.RegisterListener` | instancer.go:155-169 | needs a running instancer; appends the listener without deduplication, leaves snapshot and counter alone, and notifies the new listener once with the current snapshot, even an empty one |
| `Konsul.Instancer.Instance` | instancer.go:176-189 | needs a running instancer; `("", false)` exactly when the snapshot is empty, counter unchanged; otherwise the endpoint at the pre-increment counter modulo the length, counter advanced by one modulo 2^64 |
| `Konsul.Instancer.Instances` | instancer.go:194-203 | needs a running instancer; returns the snapshot and changes nothing |
| `Konsul.Instancer.Handler` | instancer.go:205-241 | a service-entry batch replaces the snapshot with its endpoints, in order, and notifies every listener once, in order, with the new snapshot; any other payload changes nothing and notifies no one; listeners, counter and lifecycle are untouched |
| `Konsul.NewInstancer` | instancer.go:83-114 | a parse failure is returned as the wrapped error; otherwise a fresh, empty, running instancer with the validated logger and the service parameters |
| `KonsulWatch.HandleChange` | watch.go:91-120 | at most one notification, always for the watched key, and none without a callback; nil payload: nothing at all; wrong type: no unmarshal, no panic, a type error; unmarshal failure: that error, and a panic exactly when `PanicOnUnmarshalFailure`; success: a nil error |
| `KonsulWatch.NoticeErrorIffFailure` | watch.go:104-119 | a notification carries a nil error exactly when the value was refreshed |
| `KonsulWatch.PlanWatch` | watch.go:72-89 | the logger defaults when nil; a parse failure is returned wrapped; otherwise the plan watches `type=key` for the key |
| `ZapAdapter.ConvertArgsToZapFields` | log/zap/zap.go:128-152 | the backwards, step-by-two walk produces exactly the fields `ZapFields` describes |
| `ZapAdapter.FieldsBelowLength` | log/zap/zap.go:130-148 | each chunk gives one field per element, except a string-keyed pair, which gives one |
| `ZapAdapter.ZapFieldsLength` | log/zap/zap.go:128-152 | no arguments give no fields; n arguments give n fields minus the string-keyed pairs, so between ⌈n/2⌉ and n |
| `ZapAdapter.NothingLost` | log/zap/zap.go:136-148 | every argument appears exactly once, as a field value or as a key |
| `ZapAdapter.KeyedPairsReversed` | log/zap/zap.go:130-141 | for an even list with string keys, one named field per pair, in reverse pair order |
| `ZapAdapter.LastPairFirst` | log/zap/zap.go:130-145 | the last pair comes first: a string key names one field; any other key gives `arg{n-1}` (the value) then `arg{n-2}` (the key) |
| `ZapAdapter.OddEndsWithArg0` | log/zap/zap.go:146-147 | an odd list ends with the field `arg0` holding the first argument |
| `ZapAdapter.Route` | log/zap/zap.go:32-43 | NoLevel, Trace and Debug go to Debug; Info, Warn and Error to their namesakes; other levels to nothing |
| `ZapAdapter.WrapRules` | log/zap/zap.go:19-30 | a nil logger panics with the source's message; any other is wrapped with no name, and its entries go to that logger with the converted arguments |
| `ZapAdapter.RouteMonotone` | log/zap/zap.go:32-43 | routing keeps the order of levels |
| `ZapAdapter.AdaptersRouteAlike` | log/zap/zap.go:32-43 | both adapters accept the same levels and agree from Debug up; only NoLevel and Trace differ, going to Debug in zap and Trace in zerolog |
| `ZapAdapter.Wrapper.Log` | log/zap/zap.go:32-43 | emits exactly for NoLevel to Error, through the routing table |
| `ZapAdapter.TraceIsDebug` | log/zap/zap.go:45-67 | `IsTrace` is always false and `Trace` emits at Debug |
| `ZapAdapter.NamingRules` | log/zap/zap.go:90-114 | `Named` composes by dots; `ResetNamed` then `Named` gives `a.b`; `With` keeps the name and does not affect later naming; `ResetNamed` overrides |
| `ZapAdapter.NamedLeadingDot` | log/zap/zap.go:101-107 | a wrapper without a name gets `"." + n`, which differs from the intended name |
| `ZapAdapter.NamedIntendedRules` | log/zap/zap.go:101-107 | corrected naming adds no leading dot, composes by dots, and matches the zerolog adapter |
| `ZapAdapter.NoOps` | log/zap/zap.go:85-118 | `ImpliedArgs` is empty and `SetLevel` changes nothing |
| `ZerologAdapter.Route` | log/zerolog/zerolog.go:28-41 | NoLevel and Trace go to Trace; Debug, Info, Warn and Error to their namesakes; other levels to nothing |
| `ZerologAdapter.RouteMonotone` | log/zerolog/zerolog.go:28-41 | routing keeps the order of levels |
| `ZerologAdapter.Wrapper.Log` | log/zerolog/zerolog.go:28-41 | emits exactly for NoLevel to Error, at the routed level |
| `ZerologAdapter.LoggerFieldRule` | log/zerolog/zerolog.go:21-112 | any wrapper adds a `logger` field exactly when its name is non-empty, and then it holds the name; `Wrap` starts unnamed, so adds none; a non-empty reset name adds `logger=<name>`; `With` keeps the name and attaches its arguments to the context; `Named` adds none only when both names are empty |
| `ZerologAdapter.NamedComposes` | log/zerolog/zerolog.go:118-129 | naming `a` then `b` is naming `a.b`, unless both the old name and `a` are empty |
| `ZerologAdapter.NamedEmptyThenName` | log/zerolog/zerolog.go:118-129 | the exception: for an unnamed wrapper, naming `""` then `b` gives `b`, but naming `.b` gives `.b` |
| `ZerologAdapter.NoOps` | log/zerolog/zerolog.go:103-140 | `ImpliedArgs` is empty and `SetLevel` changes nothing |

## Findings

| source | as written | input that shows it | evidently intended | confidence | as-written member | corrected member |
|---|---|---|---|---|---|---|
| log/zap/zap.go:101-107 | `Named` always joins with a dot, so an unnamed wrapper gets a name that starts with `.` | `Wrap(l).Named("consul.instancer")` gives `.consul.instancer`; the repository's instancer demo names its logger this way | join with a dot only when the old name is non-empty, as the zerolog adapter (log/zerolog/zerolog.go:118-129) does | medium, not executed | `ZapAdapter.NamedLeadingDot` | `ZapAdapter.NamedIntendedRules` |

`ZapAdapter.Wrapper.Named` keeps the behaviour as written, since that is what
callers see. `ZapAdapter.Wrapper.NamedIntended` is the corrected definition,
and its properties are proved.

## Left out

- The goroutine in `NewInstancer` (instancer.go:116-132) is not modelled. It runs the watch plan against Consul, which is long-lived network I/O. It panics if the plan stops with an error, which aborts the process and leaves no state to describe.
- `sync.RWMutex` and `atomic.AddUint64` are not modelled. Operations run one at a time. The race between the counter and a snapshot replacement is accepted weak fairness and is not asserted.
- `Close` in the source does not take the lock. That race is outside a sequential model.
- `watch.Parse`, `plan.Stop` and `plan.IsStopped` are Consul watch APIs. Parsing is a `parseError` parameter. Stopping is the `stopped` field.
- `plan.RunWithClientAndHclog` in `Watch` (watch.go:122) is not modelled. It runs the plan and returns its error, which is network I/O.
- All logger calls inside the core (`Info`, `Debug`, `Error`, `Warn`) are not modelled. They are a side channel. This includes the warnings zap's `ImpliedArgs` and `SetLevel` write.
- The reflection check in `Watch` (watch.go:79-81) is not modelled. It only logs a warning.
- `cfg.UnmarshalBinary` is foreign code. Its outcome is an input to `HandleChange`.
- `HandleChange` does not model a typed nil `*api.KVPair`. Consul's key watch never delivers one; the source would dereference it and crash.
- `Konsul.Instancer.Handler` ignores the plan's index argument, as the source does.
- `Konsul.NotifyAll` passes each listener the snapshot as a value. The source hands one shared slice to every listener (instancer.go:227-232), so a listener that writes into or sorts its argument changes what later listeners receive; the promise that every listener gets the new snapshot holds only for listeners that leave their argument alone.
- `Konsul.BuildInstances` does not model nil pointers in a service entry. The source dereferences `entry.Node` and `entry.Service` (instancer.go:214-218), so a nil entry, Node or Service would panic; the flat `ServiceEntry` always has both addresses and the port.
- `Konsul.NotifyAll` treats listeners as always returning. A listener that panics would unwind the handler in the source; that is not modelled.
- `CyclicFairness` is stated only for a window that does not cross the counter's wrap-around at 2^64. The source promises nothing more, and `WrapRepeats` shows the cycle breaking there.
- The zap and zerolog libraries are not modelled: `zap.Any`, zerolog's event builders and its interpretation of `Fields(args)`. A zap field is a (key, value) pair; a zerolog event keeps its arguments as given.
- The level queries that read the foreign logger's level are not modelled: `IsDebug`, `IsInfo`, `IsWarn` and `IsError` in both adapters, and zerolog's `IsTrace`. Neither are `StandardLogger` and `StandardWriter`, which return library objects.
- `kv.go` is not part of this model. It holds accessors and thin wrappers over the Consul KV HTTP client and JSON/YAML codecs.
- The repository's example programs and its two test files are not part of this model. The examples are network demos. The tests make no assertions.
- `Konsul.Validate` rejects a service name that is only white space (`strings.TrimSpace`, instancer.go:49), not just an empty one.
- `Konsul.Instancer.Close` has no guard in the source (instancer.go:139-143), so a second call clears the state again; the model's `Close` does the same.
- `ZapAdapter.NamingRules` speaks of the wrapper's own `name` field. The name zap attaches to entries is not modelled: the source passes the wrapper's full name to zap's own `Logger.Named` (zap.go:104, 111), which appends it to the name the zap logger already has. So `ResetNamed` does not reset the emitted name, and `Named` after `Named` repeats segments there. The model records each such call as a `NamedAs` step of the zap logger and does not compose them.
