/**
  The native instrumentation engine behind the device handle, reduced to what the Go
  front-end's decisions depend on.

  The engine itself is not part of this model. It is replaced by a value: a device's
  properties, its process table (pid, name), its application list, its pending spawns and
  children, the values it hands out for spawn, attach, inject and open-channel, and a table of
  faults giving, for each boundary call that is to fail, the error the engine reports for it.
  The functions at the end say what the engine answers to each call.
*/
module Native {
  import opened Base
  import Cleanups

  /** A C `guint`: the engine's unsigned 32-bit pids and ids. */
  type Guint = x: int | 0 <= x < 0x1_0000_0000

  /** Go's conversion `C.guint(x)` of an int: it keeps the low 32 bits. */
  function ToGuint(x: int): (r: Guint)
    ensures 0 <= x < 0x1_0000_0000 ==> r == x
    ensures (x - r) % 0x1_0000_0000 == 0
  {
    x % 0x1_0000_0000
  }

  type Byte = bv8

  /** The detail level asked of a query. */
  datatype Scope = ScopeMinimal | ScopeMetadata | ScopeFull

  /** A field of a payload the engine delivers or returns (parameters, signal records). */
  datatype Value = Str(s: string) | Int(i: int) | Bool(b: bool) | Blob(bytes: seq<Byte>)

  type Payload = map<string, Value>

  /** An error reported by the engine (a GError): faults carry code and message; a lookup
      that finds nothing reports NotFound, a polling lookup that gives up reports TimedOut. */
  datatype EngineError = Failed(code: int, message: string) | NotFound | TimedOut

  datatype Process = Process(pid: Guint, name: string)
  datatype Application = Application(identifier: string, name: string, pid: Guint)
  datatype Spawn = Spawn(pid: Guint, identifier: string)
  datatype Child = Child(pid: Guint, parentPid: Guint, path: string)
  datatype Session = Session(pid: Guint)
  datatype Stream = Stream(id: nat)

  /** What the device's getters report. */
  datatype DeviceInfo = DeviceInfo(
    id: string, name: string, icon: Value, dtype: int, bus: nat, manager: nat, lost: int)

  /** The native objects the front-end may hand to `clean`. */
  datatype Obj =
    | DeviceObject            // the device itself
    | CallerOptions(id: nat)  // spawn or session options built by the caller
    | QueryOptions            // the query options an enumeration builds for itself
    | MatchOptions            // the match options a process lookup builds for itself
    | ResultList              // the list container an enumeration returns

  type Ptr = Cleanups.Ptr<Obj>

  /** The synchronous calls the front-end makes across the boundary, with the Go values the
      front-end passes (options are flattened into the call that consumes them). */
  datatype Call =
    | DeviceGetId | DeviceGetName | DeviceGetIcon | DeviceGetDtype | DeviceGetBus
    | DeviceGetManager | DeviceIsLost
    | QuerySystemParametersSync
    | GetFrontmostApplicationSync(scope: Scope)
    | EnumerateApplicationsSync(scope: Scope, identifier: Option<string>)
    | GetProcessByPidSync(pid: Guint, scope: Scope)
    | GetProcessByNameSync(name: string, scope: Scope)
    | FindProcessByPidSync(pid: Guint, scope: Scope)
    | FindProcessByNameSync(name: string, scope: Scope)
    | EnumerateProcessesSync(scope: Scope)
    | EnableSpawnGatingSync | DisableSpawnGatingSync
    | EnumeratePendingSpawnSync | EnumeratePendingChildrenSync
    | SpawnSync(program: string, options: Ptr)
    | InputSync(pid: Guint, bytes: seq<Byte>)
    | ResumeSync(pid: Guint)
    | KillSync(pid: Guint)
    | AttachSync(pid: Guint, options: Ptr)
    | InjectLibraryFileSync(pid: Guint, path: string, entrypoint: Option<string>, data: Option<string>)
    | InjectLibraryBlobSync(pid: Guint, blob: seq<Byte>, entrypoint: Option<string>, data: Option<string>)
    | OpenChannelSync(address: string)
    | ConnectSignal(signal: string)

  datatype Engine = Engine(
    info: DeviceInfo,
    params: Payload,
    processes: seq<Process>,
    applications: seq<Application>,
    frontmost: Option<Application>,
    pendingSpawn: seq<Spawn>,
    pendingChildren: seq<Child>,
    spawnedPid: Guint,
    injectionId: Guint,
    stream: Stream,
    faults: map<Call, EngineError>)

  /** The engine's answer to a call that cannot miss: the value, unless the call faults. */
  function Answer<T>(e: Engine, call: Call, v: T): (r: Result<T, EngineError>)
    ensures r.Err? <==> call in e.faults
    ensures r.Err? ==> r.error == e.faults[call]
    ensures r.Ok? ==> r.value == v
  {
    if call in e.faults then Err(e.faults[call]) else Ok(v)
  }

  datatype ProcessKey = PidKey(pid: Guint) | NameKey(name: string)

  predicate Matches(p: Process, k: ProcessKey)
  {
    match k
    case PidKey(x) => p.pid == x
    case NameKey(n) => p.name == n
  }

  /** The first process of the table that matches the key. */
  function FirstMatch(ps: seq<Process>, k: ProcessKey): (r: Option<Process>)
    ensures r.Some? ==> r.value in ps && Matches(r.value, k)
    ensures r.None? ==> forall p :: p in ps ==> !Matches(p, k)
    ensures r.Some? && |ps| > 0 && Matches(ps[0], k) ==> r.value == ps[0]
  {
    if ps == [] then None
    else if Matches(ps[0], k) then Some(ps[0])
    else FirstMatch(ps[1..], k)
  }

  /** When exactly one process of the table matches, that is the one found. */
  lemma FirstMatchUnique(ps: seq<Process>, k: ProcessKey, p: Process)
    requires p in ps && Matches(p, k)
    requires forall q :: q in ps && Matches(q, k) ==> q == p
    ensures FirstMatch(ps, k) == Some(p)
  {
  }

  /** The engine's answer to a process lookup: the call's fault if it has one, otherwise the
      first match, otherwise `absent`. The engine is taken to report every miss as an error;
      it never answers a nil process without one. */
  function LookupProcess(e: Engine, call: Call, k: ProcessKey, absent: EngineError): (r: Result<Process, EngineError>)
    ensures call in e.faults ==> r == Err(e.faults[call])
    ensures r.Ok? ==> r.value in e.processes && Matches(r.value, k)
    ensures call !in e.faults ==> (r.Ok? <==> exists p :: p in e.processes && Matches(p, k))
    ensures call !in e.faults && r.Err? ==> r.error == absent
  {
    if call in e.faults then Err(e.faults[call])
    else match FirstMatch(e.processes, k)
      case Some(p) => Ok(p)
      case None => Err(absent)
  }

  /** The applications whose identifier is `id`, in the engine's order. */
  function WithIdentifier(apps: seq<Application>, id: string): (r: seq<Application>)
    ensures forall a :: a in r <==> a in apps && a.identifier == id
    ensures multiset(r) <= multiset(apps)
  {
    if apps == [] then []
    else
      assert apps == [apps[0]] + apps[1..];
      (if apps[0].identifier == id then [apps[0]] else []) + WithIdentifier(apps[1..], id)
  }

  /** The engine's answer to an application enumeration: every application, or only those
      with the selected identifier. */
  function ApplicationList(e: Engine, call: Call): (r: Result<seq<Application>, EngineError>)
    requires call.EnumerateApplicationsSync?
    ensures call in e.faults <==> r.Err?
    ensures r.Err? ==> r.error == e.faults[call]
    ensures r.Ok? && call.identifier.None? ==> r.value == e.applications
    ensures r.Ok? && call.identifier.Some? ==>
      forall a :: a in r.value <==> a in e.applications && a.identifier == call.identifier.value
  {
    if call in e.faults then Err(e.faults[call])
    else match call.identifier
      case None => Ok(e.applications)
      case Some(id) => Ok(WithIdentifier(e.applications, id))
  }
}
