# telco device front-end, release dispatch and compiler hook, in Dafny

This project models three parts of the Go binding `telco`:

- The `Device` front-end (`telco/device.go`).
- The release dispatch it relies on (`telco/cleanups.go`).
- The compiler's signal hook (`telco/comp.go`).

It then proves what these parts promise their callers.

Modules:

- `Base`: `Option` and `Result`.
- `Native`: the native engine behind a device handle, reduced to a value (`Engine`). It holds:
  - the device's properties, its process table and its application list;
  - its pending spawns and children;
  - the values the engine hands out;
  - a table of faults. Each boundary call in that table fails with the `EngineError` listed for it.

  `ToGuint` models Go's `C.guint(x)` conversion: it keeps the low 32 bits.
- `Cleanups`: the `cleanups` table and `clean` (`Dispatch`, and `HandleTable.Clean`), plus `freeCharArray` (`HandleTable.FreeCharArray`, an index loop over an `array`). The native side is seen only through the release primitives it is asked to run (`g_error_free`, `g_object_unref`, C `free`). A handle's Live/Released state is derived from that log.
- `Devices`: each `Device` method.
  - Getters return a `Read`. The other methods return a `Reply` holding Go's value, Go's error and the ordered trace of boundary events the call caused.
  - A trace event is either a call into the engine (`Invoke`) or a call of `clean` (`CleanCall`).
  - A nil handle gives the method's local error and an empty trace: the engine is never called.
  - `Releases` maps a trace's clean calls through `Cleanups.Dispatch` to the primitives they run. That is how option release is counted.
  - The four enumerations are methods. They build their result with an index loop into a fresh array, as the Go code builds its slice.
  - `EnumerateApplications` sorts that array in place by descending pid.
- `Comp`: the `Compiler` class.
  - It has the `fn` field and the list of signal subscriptions that `On` builds.
  - `HijackFn` is the diagnostics hook.
  - `Emit` delivers one event to the subscriptions in subscription order. It reads `fn` at delivery time, as the Go method value `c.hijackFn` does.

Behaviours of the code the model states as they are:

- **Sorting:** `EnumerateApplications` sorts with Go's `sort.Slice`, which is not stable. The model proves non-increasing pids and a permutation of the engine's list. It claims no order among equal pids.
- **Repeated `clean`:** `clean` keeps no record of earlier releases. Cleaning the same non-nil handle twice releases it twice (`Cleanups.CleanTwiceReleasesTwice`, `Devices.CleanTwiceReleasesTwice`). It is a no-op only for nil handles and unknown kinds.
- **Two diagnostics callbacks:** subscribing two callbacks to "diagnostics" does not reach both. The second registration overwrites `fn`, so each event calls the second callback twice and the first never (`Comp.TwoDiagnosticsCallbacks`). Other signals do reach each callback once, in order (`Comp.TwoOutputCallbacks`).
- **Attach's options:** `Attach` takes ownership of non-nil session options only after the target resolves. A failed name lookup or an unsupported target leaves them unreleased.
- **EnumerateApplications on error:** it releases its query options only on success.
- **FrontmostApplication:** it never releases its query options.
- **Spawn on a nil device:** it does not release the options it is given, since the release is registered only inside the handle check.

## Model

| member | source | states |
|---|---|---|
| Cleanups.Strategy | telco/cleanups.go:9-23 | the table maps "*GError" to g_error_free and both "telco types" and "GObject*" to g_object_unref; no other tag has a strategy |
| Cleanups.Dispatch | telco/cleanups.go:33-40 | clean runs nothing for a nil pointer or an unknown tag, and otherwise exactly one action, on that pointer, with the table's primitive |
| Cleanups.CleanReleasesOnce | telco/cleanups.go:33-40 | clean of a non-nil pointer with a known tag adds exactly one release of it, makes it Released, and releases no other pointer |
| Cleanups.CleanTwiceReleasesTwice | telco/cleanups.go:33-40 | a second clean of the same pointer releases it again: clean is not idempotent on live pointers |
| Cleanups.HandleTable.Clean | telco/cleanups.go:33-40 | the release log grows by exactly the dispatched actions, stays unchanged for nil or unknown tags, and marks the pointer Released otherwise |
| Cleanups.HandleTable.FreeCharArray | telco/cleanups.go:42-48 | elements 0 .. size-1 are freed in index order and then the container; a size of zero or less frees only the container |
| Cleanups.FreesCount | telco/cleanups.go:43-46 | freeing the elements frees each pointer as often as it occurs among them |
| Cleanups.FreeCharArrayOnceEach | telco/cleanups.go:42-48 | with distinct elements other than the container, every element and the container are freed exactly once |
| Native.ToGuint | telco/device.go:172 | the C.guint conversion is the identity on 0 .. 2^32-1 and otherwise keeps the value modulo 2^32 |
| Native.LookupProcess | telco/device.go:172-176 | the engine's answer to a process lookup: the call's fault if it has one; otherwise a matching process when one exists, else the miss error; a nil process without an error is never answered (see Left out) |
| Native.ApplicationList | telco/device.go:128-140 | with no identifier selected the engine lists every application; with one selected, exactly those with that identifier |
| Devices.ID | telco/device.go:19-24 | "" and no engine call for a nil handle, otherwise the engine's id from one call |
| Devices.Name | telco/device.go:27-32 | "" and no engine call for a nil handle, otherwise the engine's name |
| Devices.DeviceIcon | telco/device.go:35-42 | nil and no engine call for a nil handle, otherwise the engine's icon |
| Devices.DeviceType | telco/device.go:45-51 | -1 and no engine call for a nil handle, otherwise the engine's type |
| Devices.Bus | telco/device.go:54-62 | nil and no engine call for a nil handle, otherwise the engine's bus |
| Devices.Manager | telco/device.go:65-71 | nil and no engine call for a nil handle, otherwise the engine's manager |
| Devices.IsLost | telco/device.go:74-80 | lost exactly when the handle is non-nil and the engine reports 1 |
| Devices.NilDeviceGetterDefaults | telco/device.go:19-80 | every getter on a nil device answers its default without crossing the boundary |
| Devices.Params | telco/device.go:83-96 | local error for a nil handle; otherwise one call whose fault is returned as an FError with a nil map, else the parameters |
| Devices.FrontmostApplication | telco/device.go:100-123 | never a nil application without an error; an engine fault is surfaced; a missing application is the "Is any application started?" error; the query options are never released |
| Devices.EnumerateApplications | telco/device.go:126-161 | a permutation of the engine's (filtered) list in non-increasing pid order; on success the options and the list are released, on an engine error neither |
| Devices.BuildList | telco/device.go:144-149 | the index loop yields a fresh slice whose element i is list element i |
| Devices.InsertByPid | telco/device.go:151-153 | one insertion step extends the sorted prefix by one, keeps the multiset and leaves the rest alone |
| Devices.SortByPidDescending | telco/device.go:151-153 | the array ends in non-increasing pid order and is a permutation of its old contents |
| Devices.ApplicationQuery | telco/device.go:128-134 | the identifier selector is set exactly when the identifier is not empty |
| Devices.ProcessByPID | telco/device.go:164-179 | for an engine that reports every miss as an error: succeeds iff the call does not fault and some process has the (32-bit) pid; the result matches; the match options are released after the call on both paths |
| Devices.ProcessByName | telco/device.go:182-200 | for an engine that reports every miss as an error: succeeds iff the call does not fault and some process has the name; the match options are released on both paths |
| Devices.FindProcessByPID | telco/device.go:203-218 | as ProcessByPID, with a time-out error when no process matches |
| Devices.FindProcessByName | telco/device.go:221-239 | as ProcessByName, with a time-out error when no process matches |
| Devices.EnumerateProcesses | telco/device.go:242-266 | the engine's processes in the engine's order; the list is released on success, the query options on both paths |
| Devices.EnableSpawnGating | telco/device.go:269-279 | local error for a nil handle; otherwise the engine's fault, if any, is surfaced |
| Devices.DisableSpawnGating | telco/device.go:282-292 | local error for a nil handle; otherwise the engine's fault, if any, is surfaced |
| Devices.EnumeratePendingSpawn | telco/device.go:295-315 | the engine's pending spawns in order, the list released on success only |
| Devices.EnumeratePendingChildren | telco/device.go:318-338 | the engine's pending children in order, the list released on success only |
| Devices.Spawn | telco/device.go:341-361 | -1 with the fault on error, else the spawned pid; the options are handed to clean after the call on both paths |
| Devices.SpawnReleasesOptions | telco/device.go:341-361 | with a handle, spawn releases non-nil options exactly once whether or not the engine call fails, and releases nothing for nil options |
| Devices.Input | telco/device.go:364-380 | the bytes go to the 32-bit pid; a fault is surfaced |
| Devices.Resume | telco/device.go:383-393 | the 32-bit pid is resumed; a fault is surfaced |
| Devices.Kill | telco/device.go:396-406 | the 32-bit pid is killed; a fault is surfaced |
| Devices.Resolve | telco/device.go:414-425 | a name is looked up at minimal scope and its error passed on unchanged, otherwise the pid is that of the very process the lookup returned (so it belongs to a process of that name); a pid is taken as is; any other target gives "expected name of app/process or PID" with no engine call |
| Devices.Attach | telco/device.go:411-441 | a failed resolution is returned without attaching or releasing the options; otherwise one attach call with the 32-bit pid, followed by the release of non-nil options |
| Devices.AttachByNameAgreesWithPid | telco/device.go:414-424 | attaching by a name that matches exactly one process gives the same session, error and attach call as attaching by its pid |
| Devices.AttachReleasesOptions | telco/device.go:427-431 | the options are released exactly once when they are non-nil and the target resolves, and never otherwise |
| Devices.NullIfEmpty | telco/device.go:473-481 | an empty entrypoint or data string is passed as null, any other as itself |
| Devices.InjectLibraryFile | telco/device.go:446-498 | the target is resolved before the empty-path check; a resolution error wins; an empty path is refused; otherwise one injection whose fault gives 0, else the injection id |
| Devices.InjectLibraryBlob | telco/device.go:503-557 | as InjectLibraryFile, with a zero-length blob refused after resolution |
| Devices.EmptyLibraryNeverInjected | telco/device.go:462-464 | with an empty path (this check) or an empty blob (the check at telco/device.go:519-521) no injection call reaches the engine |
| Devices.OpenChannel | telco/device.go:560-573 | local error for a nil handle; otherwise the fault or the stream |
| Devices.Clean | telco/device.go:576-580 | a nil device cleans nothing; otherwise the device object is handed to clean once |
| Devices.CleanTwiceReleasesTwice | telco/device.go:576-580 | cleaning a device twice releases its object twice |
| Devices.On | telco/device.go:594-598 | a signal is connected only when the handle is non-nil |
| Comp.Compiler.constructor | telco/comp.go:18-25 | a new compiler has no stored callback and no subscriptions |
| Comp.Compiler.On | telco/comp.go:69-77 | "diagnostics" overwrites the stored callback and subscribes the hook; any other signal subscribes the callback itself and keeps the stored one; the class invariant is kept |
| Comp.Compiler.HijackFn | telco/comp.go:79-83 | the hook calls the stored callback with exactly one argument, the payload's text; it panics when "text" is missing or not a string, or no callback is stored |
| Comp.Compiler.Deliver | telco/comp.go:69-83 | an event reaches at most one callback per subscription to its signal |
| Comp.Compiler.Emit | telco/comp.go:69-83 | one event of a signal reaches at most one callback per subscription the compiler holds for that signal; which callbacks, in which order, is stated by EmitRules |
| Comp.Compiler.DeliverDiagnostics | telco/comp.go:72-82 | a diagnostics event calls only the stored callback, once per hook, always with the text; without a string "text" it panics |
| Comp.Compiler.DeliverOther | telco/comp.go:74-76 | any other event calls each directly subscribed callback once, in subscription order, with the whole payload |
| Comp.Compiler.EmitRules | telco/comp.go:69-83 | the two delivery rules hold for the compiler's own subscriptions under its invariant |
| Comp.TwoDiagnosticsCallbacks | telco/comp.go:72-82 | after two diagnostics registrations, an event calls the second callback twice and never the first |
| Comp.TwoOutputCallbacks | telco/comp.go:75 | after two "output" registrations, an event calls both callbacks, in order |

## Left out

- Options construction and setters (scope, timeout, identifier selection), `list_size`/`list_get`, and the `PID()` reads are not logged as boundary calls. Their effect is folded into the calls that consume them.
- The query scope is passed through to the engine call, but the abstract engine's answers do not depend on it.
- `defaultProcessTimeout` is not part of this model. Polling lookups that give up are reported as a time-out error.
- The 64-bit Go `int` carrying pids and the result of `Spawn` is an unbounded integer. Only the 32-bit `C.guint` conversion is modelled (`ToGuint`).
- Devices.NullIfEmpty, Devices.ProcessByName, Devices.FindProcessByName, Devices.Resolve, Devices.InjectLibraryFile, Devices.InjectLibraryBlob, Devices.Spawn, Devices.OpenChannel, Devices.EnumerateApplications: strings are Dafny strings (sequences of characters), not Go's raw bytes, and each call records the Go string the front-end passes. The engine sees each `C.CString` argument cut at its first NUL. The local checks (empty identifier, empty path, empty entrypoint and data) test the Go string, so a string that starts with NUL passes them and reaches the engine as "" (a non-null empty C string); a name with an embedded NUL is looked up by its prefix.
- C string allocation and `C.free` of the arguments are not modelled: they are memory bookkeeping, not decisions of the front-end.
- `connectClosure`'s marshalling of native signal arguments into Go values, and its reflection-based call, are not modelled. A direct subscription receives the payload as a whole.
- `gHashTableToMap`, `gPointerToGo`, `NewIOStream` and the buffer finalizers are not part of this model. The engine's parameters and streams are opaque values.
- `NewCompiler`'s engine object, and `Compiler.Build`, `Compiler.Watch` and `Compiler.Clean`, are not modelled. They are plain calls into the engine with the usual error wrapping.
- Devices.EnumerateApplications: no order is claimed among applications with equal pids. `sort.Slice` gives none.
- Devices.Spawn, Devices.SpawnReleasesOptions, Devices.Attach, Devices.AttachReleasesOptions: non-nil options always carry a native object in the model. A `SpawnOptions` or `SessionOptions` whose inner pointer is nil makes the Go code call `clean` on nil, which releases nothing; the model does not distinguish that case, so "released once" holds only for options with a native object.
- Devices.ProcessByPID, Devices.ProcessByName, Devices.FindProcessByPID, Devices.FindProcessByName: the engine is assumed to report every miss as an error. The Go code has no nil check of its own here, unlike FrontmostApplication. An engine answering a nil process without an error would make these methods return a `Process` over nil with no error, which the model does not represent.
- Devices.Resolve, Devices.Attach, Devices.InjectLibraryFile, Devices.InjectLibraryBlob: the target switch tests the value's reflect kind and then asserts the exact types `string` and `int`. A value of a named type whose kind is string or int (such as `type Name string`) takes that branch and panics on the assertion. `Target` has no case for such values.
- Comp.Compiler.HijackFn, Comp.Compiler.DeliverDiagnostics, Comp.Compiler.EmitRules, Comp.TwoDiagnosticsCallbacks: `Callback` stands only for a callback that can be called as `func(string)`. Go stores any value handed to `On("diagnostics", …)`, and `c.fn.Call` panics for one that cannot take a single string (a `func()` or a `func(int)`, say); the model does not represent such callbacks, so the hook panics only for a missing or non-string "text" or an unset callback.
- Comp.Compiler.On: a nil callback is not representable (`Callback` is a callback's identity). `On("diagnostics", nil)` in Go stores the zero `reflect.Value`, and every later diagnostics event then panics when the hook calls it.
- Delivery of signals from the engine's own thread and the concurrency this implies are not modelled. `Emit` delivers one event at a time.
- A panic inside a callback is a stop of delivery (`panicked`). What the Go runtime then does to the process is not modelled.
