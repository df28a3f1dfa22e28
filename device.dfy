/**
  The device front-end (telco/device.go).

  Every Device method first checks its native handle: with a nil handle it returns a local
  error (or a fixed default, for the getters) and never calls the engine. With a handle it
  makes its engine call, turns an engine error into an `FError`, and releases what it owns.

  Each operation returns a `Reply`: Go's value and error, together with the ordered events the
  call caused at the boundary, namely calls into the engine (`Invoke`) and calls of `clean`
  (`CleanCall`). "The engine is never called" is then "no `Invoke` in the trace", and "the
  options are released" is "a `clean` of them in the trace". `Releases` turns the clean calls
  into the release primitives they run through the table of telco/cleanups.go.
*/
module Devices {
  import opened Base
  import opened Native
  import Cleanups

  /** The target of Attach and of the two injections: a name, a pid, or any other value. */
  datatype Target = ByName(name: string) | ByPid(pid: int) | Other

  /** The errors a Device method returns: a local one, or the engine's, wrapped in an FError. */
  datatype Error = Local(message: string) | FError(cause: EngineError)

  /** Spawn or session options handed in by the caller: nil, or a native options object. */
  datatype Options = NilOptions | Options(id: nat)

  /** One event at the boundary: a call into the engine, or a call of `clean`. */
  datatype Event = Invoke(call: Call) | CleanCall(target: Ptr, kind: Cleanups.CleanupKind)

  /** What a Device method returns (Go's value and error), with the events it caused. */
  datatype Reply<T> = Reply(value: T, err: Option<Error>, trace: seq<Event>)

  /** What a getter returns, with the events it caused. */
  datatype Read<T> = Read(value: T, trace: seq<Event>)

  /** A Device: its native handle is nil, or stands for the state of one device's engine. */
  datatype Device = Device(handle: Option<Engine>)

  const NilParams := "could not obtain params for nil device"
  const NoFrontmost := "could not obtain frontmost application! Is any application started?"
  const NilFrontmost := "could not obtain frontmost app for nil device"
  const NilEnumerateApplications := "could not enumerate applications for nil device"
  const NilObtainProcess := "could not obtain process for nil device"
  const NilFindProcess := "could not find process for nil device"
  const NilEnumerateProcesses := "could not enumerate processes for nil device"
  const NilEnableSpawnGating := "could not enable spawn gating for nil device"
  const NilDisableSpawnGating := "could not disable spawn gating for nil device"
  const NilEnumeratePendingSpawn := "could not enumerate pending spawn for nil device"
  const NilEnumeratePendingChildren := "could not enumerate pending children for nil device"
  const NilSpawn := "could not spawn for nil device"
  const NilInput := "could not input bytes into nil device"
  const NilResume := "could not resume for nil device"
  const NilKill := "could not kill for nil device"
  const ExpectedTarget := "expected name of app/process or PID"
  const NilAttach := "could not attach for nil device"
  const NeedPath := "you need to provide path to library"
  const NilInjectLibrary := "could not inject library for nil device"
  const NeedBlob := "you need to provide byteData"
  const NilInjectLibraryBlob := "could not inject library blob for nil device"
  const NilOpenChannel := "could not open channel for nil device"

  /** The native pointer behind options handed in by the caller (nil for nil options). */
  function OptionsPtr(o: Options): (p: Ptr)
    ensures p.Nil? <==> o.NilOptions?
    ensures o.Options? ==> p == Cleanups.At(CallerOptions(o.id))
  {
    match o
    case NilOptions => Cleanups.Nil
    case Options(id) => Cleanups.At(CallerOptions(id))
  }

  /** The C string passed for an optional argument: null for "". */
  function NullIfEmpty(s: string): (r: Option<string>)
    ensures r.None? <==> s == ""
    ensures r.Some? ==> r.value == s
  {
    if s == "" then None else Some(s)
  }

  /** Whether a trace asks the engine to inject a library. */
  ghost predicate Injects(trace: seq<Event>)
  {
    exists i :: 0 <= i < |trace| && trace[i].Invoke? &&
      (trace[i].call.InjectLibraryFileSync? || trace[i].call.InjectLibraryBlobSync?)
  }

  /** The guard every Device method opens with. */
  ghost predicate NilGuarded<T>(d: Device, r: Reply<T>, default: T, message: string)
  {
    d.handle.None? ==> r == Reply(default, Some(Local(message)), [])
  }

  /** An engine error is surfaced verbatim, with the method's failure value. */
  ghost predicate Surfaced<T>(e: Engine, call: Call, r: Reply<T>, ok: T, failed: T)
  {
    if call in e.faults then r.value == failed && r.err == Some(FError(e.faults[call]))
    else r.value == ok && r.err.None?
  }

  /** One engine call whose answer is passed back; `after` are the clean calls that follow. */
  function Forward<T>(e: Engine, call: Call, ok: T, failed: T, after: seq<Event>): (r: Reply<T>)
    ensures Surfaced(e, call, r, ok, failed)
    ensures r.trace == [Invoke(call)] + after
  {
    match Answer(e, call, ok)
    case Ok(v) => Reply(v, None, [Invoke(call)] + after)
    case Err(x) => Reply(failed, Some(FError(x)), [Invoke(call)] + after)
  }

  /** The release primitives the clean calls of a trace run, in order. */
  function Releases(trace: seq<Event>): seq<Cleanups.Action<Obj>>
  {
    if trace == [] then []
    else
      (match trace[0]
       case Invoke(_) => []
       case CleanCall(p, k) => Cleanups.Dispatch(p, k))
      + Releases(trace[1..])
  }

  lemma {:induction false} ReleasesAppend(a: seq<Event>, b: seq<Event>)
    ensures Releases(a + b) == Releases(a) + Releases(b)
  {
    if a == [] {
      assert a + b == b;
    } else {
      assert (a + b)[0] == a[0];
      assert (a + b)[1..] == a[1..] + b;
      ReleasesAppend(a[1..], b);
    }
  }

  // ---------------------------------------------------------------- getters

  function ID(d: Device): (r: Read<string>)
    ensures d.handle.None? ==> r == Read("", [])
    ensures d.handle.Some? ==> r == Read(d.handle.value.info.id, [Invoke(DeviceGetId)])
  {
    match d.handle
    case None => Read("", [])
    case Some(e) => Read(e.info.id, [Invoke(DeviceGetId)])
  }

  function Name(d: Device): (r: Read<string>)
    ensures d.handle.None? ==> r == Read("", [])
    ensures d.handle.Some? ==> r == Read(d.handle.value.info.name, [Invoke(DeviceGetName)])
  {
    match d.handle
    case None => Read("", [])
    case Some(e) => Read(e.info.name, [Invoke(DeviceGetName)])
  }

  function DeviceIcon(d: Device): (r: Read<Option<Value>>)
    ensures d.handle.None? ==> r == Read(None, [])
    ensures d.handle.Some? ==> r == Read(Some(d.handle.value.info.icon), [Invoke(DeviceGetIcon)])
  {
    match d.handle
    case None => Read(None, [])
    case Some(e) => Read(Some(e.info.icon), [Invoke(DeviceGetIcon)])
  }

  function DeviceType(d: Device): (r: Read<int>)
    ensures d.handle.None? ==> r == Read(-1, [])
    ensures d.handle.Some? ==> r == Read(d.handle.value.info.dtype, [Invoke(DeviceGetDtype)])
  {
    match d.handle
    case None => Read(-1, [])
    case Some(e) => Read(e.info.dtype, [Invoke(DeviceGetDtype)])
  }

  function Bus(d: Device): (r: Read<Option<nat>>)
    ensures d.handle.None? ==> r == Read(None, [])
    ensures d.handle.Some? ==> r == Read(Some(d.handle.value.info.bus), [Invoke(DeviceGetBus)])
  {
    match d.handle
    case None => Read(None, [])
    case Some(e) => Read(Some(e.info.bus), [Invoke(DeviceGetBus)])
  }

  function Manager(d: Device): (r: Read<Option<nat>>)
    ensures d.handle.None? ==> r == Read(None, [])
    ensures d.handle.Some? ==> r == Read(Some(d.handle.value.info.manager), [Invoke(DeviceGetManager)])
  {
    match d.handle
    case None => Read(None, [])
    case Some(e) => Read(Some(e.info.manager), [Invoke(DeviceGetManager)])
  }

  /** A device is lost only when it has a handle and the engine reports exactly 1. */
  function IsLost(d: Device): (r: Read<bool>)
    ensures r.value <==> d.handle.Some? && d.handle.value.info.lost == 1
    ensures r.trace == if d.handle.Some? then [Invoke(DeviceIsLost)] else []
  {
    match d.handle
    case None => Read(false, [])
    case Some(e) => Read(e.info.lost == 1, [Invoke(DeviceIsLost)])
  }

  /** With a nil handle every getter answers its default and calls nothing. */
  lemma NilDeviceGetterDefaults(d: Device)
    requires d.handle.None?
    ensures ID(d) == Read("", []) && Name(d) == Read("", [])
    ensures DeviceIcon(d) == Read(None, []) && DeviceType(d) == Read(-1, [])
    ensures Bus(d) == Read(None, []) && Manager(d) == Read(None, [])
    ensures IsLost(d) == Read(false, [])
  {
  }

  // ---------------------------------------------------------------- queries

  function Params(d: Device): (r: Reply<Option<Payload>>)
    ensures NilGuarded(d, r, None, NilParams)
    ensures d.handle.Some? ==> r.trace == [Invoke(QuerySystemParametersSync)]
    ensures d.handle.Some? ==>
      Surfaced(d.handle.value, QuerySystemParametersSync, r, Some(d.handle.value.params), None)
  {
    match d.handle
    case None => Reply(None, Some(Local(NilParams)), [])
    case Some(e) => Forward(e, QuerySystemParametersSync, Some(e.params), None, [])
  }

  /** Never a nil application without an error. The query options are not released. */
  function FrontmostApplication(d: Device, scope: Scope): (r: Reply<Option<Application>>)
    ensures NilGuarded(d, r, None, NilFrontmost)
    ensures r.err.None? ==> r.value.Some?
    ensures r.err.Some? ==> r.value.None?
    ensures d.handle.Some? ==> r.trace == [Invoke(GetFrontmostApplicationSync(scope))]
    ensures d.handle.Some? && GetFrontmostApplicationSync(scope) in d.handle.value.faults ==>
      r.err == Some(FError(d.handle.value.faults[GetFrontmostApplicationSync(scope)]))
    ensures d.handle.Some? && GetFrontmostApplicationSync(scope) !in d.handle.value.faults ==>
      (r.err.None? <==> d.handle.value.frontmost.Some?) &&
      (r.err.Some? ==> r.err == Some(Local(NoFrontmost))) &&
      (r.err.None? ==> r.value == d.handle.value.frontmost)
  {
    match d.handle
    case None => Reply(None, Some(Local(NilFrontmost)), [])
    case Some(e) =>
      var call := GetFrontmostApplicationSync(scope);
      match Answer(e, call, e.frontmost)
      case Err(x) => Reply(None, Some(FError(x)), [Invoke(call)])
      case Ok(app) =>
        if app.None? then Reply(None, Some(Local(NoFrontmost)), [Invoke(call)])
        else Reply(app, None, [Invoke(call)])
  }

  /** A process lookup, as the four lookups make it: one engine call, then the match options
      released; success iff the engine has a matching process and does not fault. */
  ghost predicate LookedUp(e: Engine, call: Call, k: ProcessKey, absent: EngineError, r: Reply<Option<Process>>)
  {
    && r.trace == [Invoke(call), CleanCall(Cleanups.At(MatchOptions), Cleanups.UnrefTelco)]
    && (r.err.None? <==> call !in e.faults && exists p :: p in e.processes && Matches(p, k))
    && (r.err.None? ==> r.value.Some? && r.value.value in e.processes && Matches(r.value.value, k))
    && (r.err.Some? ==> r.value.None? && r.err.value == FError(if call in e.faults then e.faults[call] else absent))
  }

  function Lookup(e: Engine, call: Call, k: ProcessKey, absent: EngineError): (r: Reply<Option<Process>>)
    ensures LookedUp(e, call, k, absent, r)
  {
    var trace := [Invoke(call), CleanCall(Cleanups.At(MatchOptions), Cleanups.UnrefTelco)];
    match LookupProcess(e, call, k, absent)
    case Ok(p) => Reply(Some(p), None, trace)
    case Err(x) => Reply(None, Some(FError(x)), trace)
  }

  function ProcessByPID(d: Device, pid: int, scope: Scope): (r: Reply<Option<Process>>)
    ensures NilGuarded(d, r, None, NilObtainProcess)
    ensures d.handle.Some? ==>
      LookedUp(d.handle.value, GetProcessByPidSync(ToGuint(pid), scope), PidKey(ToGuint(pid)), NotFound, r)
  {
    match d.handle
    case None => Reply(None, Some(Local(NilObtainProcess)), [])
    case Some(e) => Lookup(e, GetProcessByPidSync(ToGuint(pid), scope), PidKey(ToGuint(pid)), NotFound)
  }

  function ProcessByName(d: Device, name: string, scope: Scope): (r: Reply<Option<Process>>)
    ensures NilGuarded(d, r, None, NilObtainProcess)
    ensures d.handle.Some? ==>
      LookedUp(d.handle.value, GetProcessByNameSync(name, scope), NameKey(name), NotFound, r)
  {
    match d.handle
    case None => Reply(None, Some(Local(NilObtainProcess)), [])
    case Some(e) => Lookup(e, GetProcessByNameSync(name, scope), NameKey(name), NotFound)
  }

  function FindProcessByPID(d: Device, pid: int, scope: Scope): (r: Reply<Option<Process>>)
    ensures NilGuarded(d, r, None, NilFindProcess)
    ensures d.handle.Some? ==>
      LookedUp(d.handle.value, FindProcessByPidSync(ToGuint(pid), scope), PidKey(ToGuint(pid)), TimedOut, r)
  {
    match d.handle
    case None => Reply(None, Some(Local(NilFindProcess)), [])
    case Some(e) => Lookup(e, FindProcessByPidSync(ToGuint(pid), scope), PidKey(ToGuint(pid)), TimedOut)
  }

  function FindProcessByName(d: Device, name: string, scope: Scope): (r: Reply<Option<Process>>)
    ensures NilGuarded(d, r, None, NilFindProcess)
    ensures d.handle.Some? ==>
      LookedUp(d.handle.value, FindProcessByNameSync(name, scope), NameKey(name), TimedOut, r)
  {
    match d.handle
    case None => Reply(None, Some(Local(NilFindProcess)), [])
    case Some(e) => Lookup(e, FindProcessByNameSync(name, scope), NameKey(name), TimedOut)
  }

  // ---------------------------------------------------------------- enumerations

  /** Applications ordered by non-increasing pid. */
  predicate DescendingByPid(s: seq<Application>)
  {
    forall k, l :: 0 <= k < l < |s| ==> s[k].pid >= s[l].pid
  }

  /** The index loop that copies an engine list into a fresh slice: element i of the result
      is element i of the list. */
  method BuildList<T(0)>(list: seq<T>) returns (out: array<T>)
    ensures fresh(out)
    ensures out[..] == list
  {
    out := new T[|list|];
    for i := 0 to |list|
      invariant forall k :: 0 <= k < i ==> out[k] == list[k]
    {
      out[i] := list[i];
    }
  }

  /** One insertion step: a[i] moves left past every element with a smaller pid. */
  method InsertByPid(a: array<Application>, i: nat)
    requires i < a.Length
    requires forall k, l :: 0 <= k < l < i ==> a[k].pid >= a[l].pid
    modifies a
    ensures forall k, l :: 0 <= k < l <= i ==> a[k].pid >= a[l].pid
    ensures forall k :: i < k < a.Length ==> a[k] == old(a[k])
    ensures multiset(a[..]) == multiset(old(a[..]))
  {
    var j := i;
    while j > 0 && a[j - 1].pid < a[j].pid
      invariant 0 <= j <= i
      invariant forall k, l :: 0 <= k < l <= i && k != j && l != j ==> a[k].pid >= a[l].pid
      invariant forall l :: j < l <= i ==> a[j].pid > a[l].pid
      invariant forall k :: i < k < a.Length ==> a[k] == old(a[k])
      invariant multiset(a[..]) == multiset(old(a[..]))
    {
      SwapDown(a, j);
      j := j - 1;
    }
  }

  /** Exchanges a[j-1] and a[j], leaving every other element where it was. */
  method SwapDown(a: array<Application>, j: nat)
    requires 0 < j < a.Length
    modifies a
    ensures a[j - 1] == old(a[j]) && a[j] == old(a[j - 1])
    ensures forall k :: 0 <= k < a.Length && k != j - 1 && k != j ==> a[k] == old(a[k])
    ensures multiset(a[..]) == multiset(old(a[..]))
  {
    a[j - 1], a[j] := a[j], a[j - 1];
  }

  /** The in-place sort of EnumerateApplications (no stability is claimed). */
  method SortByPidDescending(a: array<Application>)
    modifies a
    ensures DescendingByPid(a[..])
    ensures multiset(a[..]) == multiset(old(a[..]))
  {
    var i := 0;
    while i < a.Length
      invariant 0 <= i <= a.Length
      invariant forall k, l :: 0 <= k < l < i ==> a[k].pid >= a[l].pid
      invariant multiset(a[..]) == multiset(old(a[..]))
    {
      InsertByPid(a, i);
      i := i + 1;
    }
  }

  /** The identifier filter is selected only when the identifier is not empty. */
  function ApplicationQuery(identifier: string, scope: Scope): (c: Call)
    ensures c == EnumerateApplicationsSync(scope, NullIfEmpty(identifier))
    ensures c.identifier.None? <==> identifier == ""
  {
    EnumerateApplicationsSync(scope, NullIfEmpty(identifier))
  }

  /** The result is a permutation of the engine's list, ordered by non-increasing pid. The
      query options and the list are released on success only. */
  method EnumerateApplications(d: Device, identifier: string, scope: Scope) returns (r: Reply<seq<Application>>)
    ensures NilGuarded(d, r, [], NilEnumerateApplications)
    ensures d.handle.Some? ==>
      var call := ApplicationQuery(identifier, scope);
      var listed := ApplicationList(d.handle.value, call);
      && (listed.Err? ==> r == Reply([], Some(FError(listed.error)), [Invoke(call)]))
      && (listed.Ok? ==>
            && r.err.None?
            && r.trace == [Invoke(call),
                           CleanCall(Cleanups.At(QueryOptions), Cleanups.UnrefTelco),
                           CleanCall(Cleanups.At(ResultList), Cleanups.UnrefTelco)]
            && DescendingByPid(r.value)
            && multiset(r.value) == multiset(listed.value))
  {
    if d.handle.None? {
      return Reply([], Some(Local(NilEnumerateApplications)), []);
    }
    var e := d.handle.value;
    var call := ApplicationQuery(identifier, scope);
    var listed := ApplicationList(e, call);
    if listed.Err? {
      return Reply([], Some(FError(listed.error)), [Invoke(call)]);
    }
    var apps := BuildList(listed.value);
    SortByPidDescending(apps);
    r := Reply(apps[..], None,
               [Invoke(call),
                CleanCall(Cleanups.At(QueryOptions), Cleanups.UnrefTelco),
                CleanCall(Cleanups.At(ResultList), Cleanups.UnrefTelco)]);
  }

  /** The result keeps the engine's order. The list is released on success, the query
      options on both paths. */
  method EnumerateProcesses(d: Device, scope: Scope) returns (r: Reply<seq<Process>>)
    ensures NilGuarded(d, r, [], NilEnumerateProcesses)
    ensures d.handle.Some? ==>
      var call := EnumerateProcessesSync(scope);
      var e := d.handle.value;
      var options := CleanCall(Cleanups.At(QueryOptions), Cleanups.UnrefTelco);
      && (call in e.faults ==> r == Reply([], Some(FError(e.faults[call])), [Invoke(call), options]))
      && (call !in e.faults ==>
            && r.err.None?
            && r.trace == [Invoke(call), CleanCall(Cleanups.At(ResultList), Cleanups.UnrefTelco), options]
            && |r.value| == |e.processes|
            && forall i :: 0 <= i < |r.value| ==> r.value[i] == e.processes[i])
  {
    if d.handle.None? {
      return Reply([], Some(Local(NilEnumerateProcesses)), []);
    }
    var e := d.handle.value;
    var call := EnumerateProcessesSync(scope);
    var options := CleanCall(Cleanups.At(QueryOptions), Cleanups.UnrefTelco);
    var listed := Answer(e, call, e.processes);
    if listed.Err? {
      return Reply([], Some(FError(listed.error)), [Invoke(call), options]);
    }
    var procs := BuildList(listed.value);
    r := Reply(procs[..], None,
               [Invoke(call), CleanCall(Cleanups.At(ResultList), Cleanups.UnrefTelco), options]);
  }

  method EnumeratePendingSpawn(d: Device) returns (r: Reply<seq<Native.Spawn>>)
    ensures NilGuarded(d, r, [], NilEnumeratePendingSpawn)
    ensures d.handle.Some? ==>
      var e := d.handle.value;
      && (EnumeratePendingSpawnSync in e.faults ==>
            r == Reply([], Some(FError(e.faults[EnumeratePendingSpawnSync])), [Invoke(EnumeratePendingSpawnSync)]))
      && (EnumeratePendingSpawnSync !in e.faults ==>
            && r.err.None?
            && r.trace == [Invoke(EnumeratePendingSpawnSync), CleanCall(Cleanups.At(ResultList), Cleanups.UnrefTelco)]
            && |r.value| == |e.pendingSpawn|
            && forall i :: 0 <= i < |r.value| ==> r.value[i] == e.pendingSpawn[i])
  {
    if d.handle.None? {
      return Reply([], Some(Local(NilEnumeratePendingSpawn)), []);
    }
    var e := d.handle.value;
    var listed := Answer(e, EnumeratePendingSpawnSync, e.pendingSpawn);
    if listed.Err? {
      return Reply([], Some(FError(listed.error)), [Invoke(EnumeratePendingSpawnSync)]);
    }
    var spawns := BuildList(listed.value);
    r := Reply(spawns[..], None,
               [Invoke(EnumeratePendingSpawnSync), CleanCall(Cleanups.At(ResultList), Cleanups.UnrefTelco)]);
  }

  method EnumeratePendingChildren(d: Device) returns (r: Reply<seq<Child>>)
    ensures NilGuarded(d, r, [], NilEnumeratePendingChildren)
    ensures d.handle.Some? ==>
      var e := d.handle.value;
      && (EnumeratePendingChildrenSync in e.faults ==>
            r == Reply([], Some(FError(e.faults[EnumeratePendingChildrenSync])), [Invoke(EnumeratePendingChildrenSync)]))
      && (EnumeratePendingChildrenSync !in e.faults ==>
            && r.err.None?
            && r.trace == [Invoke(EnumeratePendingChildrenSync), CleanCall(Cleanups.At(ResultList), Cleanups.UnrefTelco)]
            && |r.value| == |e.pendingChildren|
            && forall i :: 0 <= i < |r.value| ==> r.value[i] == e.pendingChildren[i])
  {
    if d.handle.None? {
      return Reply([], Some(Local(NilEnumeratePendingChildren)), []);
    }
    var e := d.handle.value;
    var listed := Answer(e, EnumeratePendingChildrenSync, e.pendingChildren);
    if listed.Err? {
      return Reply([], Some(FError(listed.error)), [Invoke(EnumeratePendingChildrenSync)]);
    }
    var children := BuildList(listed.value);
    r := Reply(children[..], None,
               [Invoke(EnumeratePendingChildrenSync), CleanCall(Cleanups.At(ResultList), Cleanups.UnrefTelco)]);
  }

  // ---------------------------------------------------------------- spawn control

  function EnableSpawnGating(d: Device): (r: Reply<()>)
    ensures NilGuarded(d, r, (), NilEnableSpawnGating)
    ensures d.handle.Some? ==>
      r.trace == [Invoke(EnableSpawnGatingSync)] && Surfaced(d.handle.value, EnableSpawnGatingSync, r, (), ())
  {
    match d.handle
    case None => Reply((), Some(Local(NilEnableSpawnGating)), [])
    case Some(e) => Forward(e, EnableSpawnGatingSync, (), (), [])
  }

  function DisableSpawnGating(d: Device): (r: Reply<()>)
    ensures NilGuarded(d, r, (), NilDisableSpawnGating)
    ensures d.handle.Some? ==>
      r.trace == [Invoke(DisableSpawnGatingSync)] && Surfaced(d.handle.value, DisableSpawnGatingSync, r, (), ())
  {
    match d.handle
    case None => Reply((), Some(Local(NilDisableSpawnGating)), [])
    case Some(e) => Forward(e, DisableSpawnGatingSync, (), (), [])
  }

  /** The options are handed to `clean` after the call on both paths; -1 on engine error. */
  function Spawn(d: Device, name: string, opts: Options): (r: Reply<int>)
    ensures NilGuarded(d, r, -1, NilSpawn)
    ensures d.handle.Some? ==>
      var call := SpawnSync(name, OptionsPtr(opts));
      && r.trace == [Invoke(call), CleanCall(OptionsPtr(opts), Cleanups.UnrefTelco)]
      && Surfaced(d.handle.value, call, r, d.handle.value.spawnedPid, -1)
  {
    match d.handle
    case None => Reply(-1, Some(Local(NilSpawn)), [])
    case Some(e) =>
      var opt := OptionsPtr(opts);
      Forward(e, SpawnSync(name, opt), e.spawnedPid as int, -1, [CleanCall(opt, Cleanups.UnrefTelco)])
  }

  /** Spawn with a handle releases non-nil options exactly once, whether the engine call
      succeeds or fails, and releases nothing when the options are nil. */
  lemma SpawnReleasesOptions(d: Device, name: string, opts: Options)
    requires d.handle.Some?
    ensures Releases(Spawn(d, name, opts).trace) ==
      if opts.Options? then [Cleanups.Action(Cleanups.GObjectUnref, OptionsPtr(opts))] else []
  {
    var r := Spawn(d, name, opts);
    var call := SpawnSync(name, OptionsPtr(opts));
    ReleasesAppend([Invoke(call)], [CleanCall(OptionsPtr(opts), Cleanups.UnrefTelco)]);
    assert Releases([CleanCall(OptionsPtr(opts), Cleanups.UnrefTelco)]) ==
      Cleanups.Dispatch(OptionsPtr(opts), Cleanups.UnrefTelco) + Releases([]);
  }

  function Input(d: Device, pid: int, data: seq<Byte>): (r: Reply<()>)
    ensures NilGuarded(d, r, (), NilInput)
    ensures d.handle.Some? ==>
      r.trace == [Invoke(InputSync(ToGuint(pid), data))]
      && Surfaced(d.handle.value, InputSync(ToGuint(pid), data), r, (), ())
  {
    match d.handle
    case None => Reply((), Some(Local(NilInput)), [])
    case Some(e) => Forward(e, InputSync(ToGuint(pid), data), (), (), [])
  }

  function Resume(d: Device, pid: int): (r: Reply<()>)
    ensures NilGuarded(d, r, (), NilResume)
    ensures d.handle.Some? ==>
      r.trace == [Invoke(ResumeSync(ToGuint(pid)))] && Surfaced(d.handle.value, ResumeSync(ToGuint(pid)), r, (), ())
  {
    match d.handle
    case None => Reply((), Some(Local(NilResume)), [])
    case Some(e) => Forward(e, ResumeSync(ToGuint(pid)), (), (), [])
  }

  function Kill(d: Device, pid: int): (r: Reply<()>)
    ensures NilGuarded(d, r, (), NilKill)
    ensures d.handle.Some? ==>
      r.trace == [Invoke(KillSync(ToGuint(pid)))] && Surfaced(d.handle.value, KillSync(ToGuint(pid)), r, (), ())
  {
    match d.handle
    case None => Reply((), Some(Local(NilKill)), [])
    case Some(e) => Forward(e, KillSync(ToGuint(pid)), (), (), [])
  }

  // ---------------------------------------------------------------- target resolution

  /** The switch on the target's shape that opens Attach and both injections. A name is
      looked up with ProcessByName at minimal scope and its error is passed on unchanged;
      a pid is taken as it is; any other shape is refused before anything is called. */
  function Resolve(e: Engine, t: Target): (r: Reply<int>)
    ensures t.ByName? ==>
      var lookup := ProcessByName(Device(Some(e)), t.name, ScopeMinimal);
      r.trace == lookup.trace && r.err == lookup.err
    ensures t.ByName? && r.err.None? ==>
      var lookup := ProcessByName(Device(Some(e)), t.name, ScopeMinimal);
      lookup.value.Some? && r.value == lookup.value.value.pid as int
    ensures t.ByName? && r.err.None? ==>
      exists p :: p in e.processes && p.name == t.name && p.pid == r.value
    ensures t.ByPid? ==> r == Reply(t.pid, None, [])
    ensures t.Other? ==> r == Reply(0, Some(Local(ExpectedTarget)), [])
  {
    match t
    case ByName(n) =>
      var proc := ProcessByName(Device(Some(e)), n, ScopeMinimal);
      if proc.err.Some? then Reply(0, proc.err, proc.trace)
      else Reply(proc.value.value.pid as int, None, proc.trace)
    case ByPid(pid) => Reply(pid, None, [])
    case Other => Reply(0, Some(Local(ExpectedTarget)), [])
  }

  /** The clean call Attach makes for its options: only when they are not nil. */
  function ReleaseIfSet(opts: Options): (t: seq<Event>)
    ensures opts.NilOptions? ==> t == []
    ensures opts.Options? ==> t == [CleanCall(OptionsPtr(opts), Cleanups.UnrefTelco)]
  {
    if opts.Options? then [CleanCall(OptionsPtr(opts), Cleanups.UnrefTelco)] else []
  }

  // ---------------------------------------------------------------- attach and inject

  /** A failed resolution is returned as it is, before the options are taken over: neither
      the attach call nor the release of the options happens then. */
  function Attach(d: Device, target: Target, opts: Options): (r: Reply<Option<Session>>)
    ensures NilGuarded(d, r, None, NilAttach)
    ensures d.handle.Some? && target.Other? ==> r == Reply(None, Some(Local(ExpectedTarget)), [])
    ensures d.handle.Some? ==>
      var res := Resolve(d.handle.value, target);
      && (res.err.Some? ==> r == Reply(None, res.err, res.trace))
      && (res.err.None? ==>
            var call := AttachSync(ToGuint(res.value), OptionsPtr(opts));
            && r.trace == res.trace + [Invoke(call)] + ReleaseIfSet(opts)
            && Surfaced(d.handle.value, call, r, Some(Session(ToGuint(res.value))), None))
  {
    match d.handle
    case None => Reply(None, Some(Local(NilAttach)), [])
    case Some(e) =>
      var res := Resolve(e, target);
      if res.err.Some? then Reply(None, res.err, res.trace)
      else
        var pid := ToGuint(res.value);
        var call := AttachSync(pid, OptionsPtr(opts));
        var attached := Forward(e, call, Some(Session(pid)), None, ReleaseIfSet(opts));
        Reply(attached.value, attached.err, res.trace + attached.trace)
  }

  /** Attaching by a name that matches exactly one process does what attaching by that
      process's pid does, after the name lookup. */
  lemma AttachByNameAgreesWithPid(d: Device, name: string, opts: Options, p: Process)
    requires d.handle.Some?
    requires GetProcessByNameSync(name, ScopeMinimal) !in d.handle.value.faults
    requires p in d.handle.value.processes && p.name == name
    requires forall q :: q in d.handle.value.processes && q.name == name ==> q == p
    ensures Attach(d, ByName(name), opts).value == Attach(d, ByPid(p.pid), opts).value
    ensures Attach(d, ByName(name), opts).err == Attach(d, ByPid(p.pid), opts).err
    ensures Attach(d, ByName(name), opts).trace ==
      ProcessByName(d, name, ScopeMinimal).trace + Attach(d, ByPid(p.pid), opts).trace
  {
    var e := d.handle.value;
    FirstMatchUnique(e.processes, NameKey(name), p);
    var res := Resolve(e, ByName(name));
    assert res.value == p.pid;
    assert Resolve(e, ByPid(p.pid)).trace == [];
  }

  /** Attach releases the caller's options once when they are not nil and the target
      resolves, and never otherwise. */
  lemma AttachReleasesOptions(d: Device, target: Target, opts: Options)
    requires d.handle.Some?
    ensures var r := Attach(d, target, opts);
      Cleanups.ReleaseCount(Releases(r.trace), OptionsPtr(opts)) ==
        if opts.Options? && Resolve(d.handle.value, target).err.None? then 1 else 0
  {
    var e := d.handle.value;
    var res := Resolve(e, target);
    var r := Attach(d, target, opts);
    var o := OptionsPtr(opts);
    var prefix := res.trace;
    // the resolution only ever releases the lookup's match options
    assert Cleanups.ReleaseCount(Releases(prefix), o) == 0 by {
      if target.ByName? {
        var m := CleanCall(Cleanups.At(MatchOptions), Cleanups.UnrefTelco);
        var i := Invoke(GetProcessByNameSync(target.name, ScopeMinimal));
        assert prefix == [i, m];
        ReleasesAppend([i], [m]);
        assert Releases([m]) == Cleanups.Dispatch(Cleanups.At(MatchOptions), Cleanups.UnrefTelco) + Releases([]);
        assert Releases(prefix) == [Cleanups.Action(Cleanups.GObjectUnref, Cleanups.At(MatchOptions))];
        assert Releases(prefix)[1..] == [];
      }
    }
    if res.err.None? {
      var call := AttachSync(ToGuint(res.value), o);
      var tail := ReleaseIfSet(opts);
      ReleasesAppend(prefix + [Invoke(call)], tail);
      ReleasesAppend(prefix, [Invoke(call)]);
      assert Releases([Invoke(call)]) == [];
      Cleanups.ReleaseCountAppend(Releases(prefix), Releases(tail), o);
      if opts.Options? {
        assert Releases(tail) == Cleanups.Dispatch(o, Cleanups.UnrefTelco) + Releases([]);
        assert Releases(tail) == [Cleanups.Action(Cleanups.GObjectUnref, o)];
        assert Releases(tail)[1..] == [];
      }
    }
  }

  /** The target is resolved first, then the path is checked, then the library is injected
      with an empty entrypoint or data passed as null. */
  function InjectLibraryFile(d: Device, target: Target, path: string, entrypoint: string, data: string): (r: Reply<nat>)
    ensures NilGuarded(d, r, 0, NilInjectLibrary)
    ensures d.handle.Some? ==>
      var res := Resolve(d.handle.value, target);
      && (res.err.Some? ==> r == Reply(0, res.err, res.trace))
      && (res.err.None? && path == "" ==> r == Reply(0, Some(Local(NeedPath)), res.trace))
      && (res.err.None? && path != "" ==>
            var call := InjectLibraryFileSync(ToGuint(res.value), path, NullIfEmpty(entrypoint), NullIfEmpty(data));
            && r.trace == res.trace + [Invoke(call)]
            && Surfaced(d.handle.value, call, r, d.handle.value.injectionId as nat, 0))
  {
    match d.handle
    case None => Reply(0, Some(Local(NilInjectLibrary)), [])
    case Some(e) =>
      var res := Resolve(e, target);
      if res.err.Some? then Reply(0, res.err, res.trace)
      else if path == "" then Reply(0, Some(Local(NeedPath)), res.trace)
      else
        var call := InjectLibraryFileSync(ToGuint(res.value), path, NullIfEmpty(entrypoint), NullIfEmpty(data));
        var injected := Forward(e, call, e.injectionId as nat, 0, []);
        Reply(injected.value, injected.err, res.trace + injected.trace)
  }

  /** A zero-length blob is refused after the target is resolved and before any injection. */
  function InjectLibraryBlob(d: Device, target: Target, blob: seq<Byte>, entrypoint: string, data: string): (r: Reply<nat>)
    ensures NilGuarded(d, r, 0, NilInjectLibraryBlob)
    ensures d.handle.Some? ==>
      var res := Resolve(d.handle.value, target);
      && (res.err.Some? ==> r == Reply(0, res.err, res.trace))
      && (res.err.None? && |blob| == 0 ==> r == Reply(0, Some(Local(NeedBlob)), res.trace))
      && (res.err.None? && |blob| > 0 ==>
            var call := InjectLibraryBlobSync(ToGuint(res.value), blob, NullIfEmpty(entrypoint), NullIfEmpty(data));
            && r.trace == res.trace + [Invoke(call)]
            && Surfaced(d.handle.value, call, r, d.handle.value.injectionId as nat, 0))
  {
    match d.handle
    case None => Reply(0, Some(Local(NilInjectLibraryBlob)), [])
    case Some(e) =>
      var res := Resolve(e, target);
      if res.err.Some? then Reply(0, res.err, res.trace)
      else if |blob| == 0 then Reply(0, Some(Local(NeedBlob)), res.trace)
      else
        var call := InjectLibraryBlobSync(ToGuint(res.value), blob, NullIfEmpty(entrypoint), NullIfEmpty(data));
        var injected := Forward(e, call, e.injectionId as nat, 0, []);
        Reply(injected.value, injected.err, res.trace + injected.trace)
  }

  /** With an empty path or blob, no injection reaches the engine: the only calls are those
      of the target's lookup, if any. */
  lemma EmptyLibraryNeverInjected(d: Device, target: Target, entrypoint: string, data: string)
    requires d.handle.Some?
    ensures !Injects(InjectLibraryFile(d, target, "", entrypoint, data).trace)
    ensures !Injects(InjectLibraryBlob(d, target, [], entrypoint, data).trace)
  {
    var res := Resolve(d.handle.value, target);
    assert !Injects(res.trace) by {
      if target.ByName? {
        assert res.trace == [Invoke(GetProcessByNameSync(target.name, ScopeMinimal)),
                             CleanCall(Cleanups.At(MatchOptions), Cleanups.UnrefTelco)];
      }
    }
  }

  // ---------------------------------------------------------------- channel, clean, signals

  function OpenChannel(d: Device, address: string): (r: Reply<Option<Stream>>)
    ensures NilGuarded(d, r, None, NilOpenChannel)
    ensures d.handle.Some? ==>
      r.trace == [Invoke(OpenChannelSync(address))]
      && Surfaced(d.handle.value, OpenChannelSync(address), r, Some(d.handle.value.stream), None)
  {
    match d.handle
    case None => Reply(None, Some(Local(NilOpenChannel)), [])
    case Some(e) => Forward(e, OpenChannelSync(address), Some(e.stream), None, [])
  }

  /** Clean releases the device when it has a handle; the handle is not cleared. */
  function Clean(d: Device): (trace: seq<Event>)
    ensures d.handle.None? ==> trace == []
    ensures d.handle.Some? ==> trace == [CleanCall(Cleanups.At(DeviceObject), Cleanups.UnrefTelco)]
  {
    if d.handle.Some? then [CleanCall(Cleanups.At(DeviceObject), Cleanups.UnrefTelco)] else []
  }

  /** Cleaning a device twice releases it twice: Clean is not idempotent. */
  lemma CleanTwiceReleasesTwice(d: Device)
    requires d.handle.Some?
    ensures Cleanups.ReleaseCount(Releases(Clean(d) + Clean(d)), Cleanups.At(DeviceObject)) == 2
  {
    var c := Clean(d);
    var once := Cleanups.Dispatch(Cleanups.At(DeviceObject), Cleanups.UnrefTelco);
    assert Releases(c) == once + Releases([]);
    ReleasesAppend(c, c);
    Cleanups.CleanTwiceReleasesTwice([], Cleanups.At(DeviceObject), Cleanups.UnrefTelco);
    assert [] + once + once == Releases(c + c);
  }

  /** On subscribes only when the device has a handle. */
  function On(d: Device, signal: string): (trace: seq<Event>)
    ensures d.handle.None? ==> trace == []
    ensures d.handle.Some? ==> trace == [Invoke(ConnectSignal(signal))]
  {
    if d.handle.Some? then [Invoke(ConnectSignal(signal))] else []
  }
}
