/** Many callers at once: the executor as a transition system over the steps between its awaits.
    Each action is one step of one call, of the environment, or of a caller; a run is any sequence of
    enabled actions, so it covers every interleaving, failure and cancellation. */
module Lifecycle {
  import opened Uuids
  import opened Firecracker

  /** What a new process is for: `spawn`, `execute_command` or `restore`. */
  datatype Goal = Boot(config: VmConfig) | Execute(config: VmConfig) | Load(snap: Uuid)

  /** The requests a new process gets before it is handed on. */
  function Requests(goal: Goal): (qs: seq<Request>)
    ensures |qs| == if goal.Load? then 1 else 4
  {
    match goal
    case Boot(config) => BootRequests(config)
    case Execute(config) => BootRequests(config)
    case Load(snap) => [LoadSnapshot(StateFile(snap), MemFile(snap))]
  }

  /** A call in flight, by what it does next. */
  datatype Task =
    | Launching(vm: Uuid, goal: Goal)                       // exec the process
    | Configuring(vm: Uuid, goal: Goal, acks: nat)          // send the next request to it
    | Registering(vm: Uuid, goal: Goal)                     // take the lock and insert the id
    | Reading(vm: Uuid)                                     // read the console to the end
    | SnapCheck(vm: Uuid)                                   // take the lock and look the id up
    | SnapPause(vm: Uuid, snap: Uuid)
    | SnapCreate(vm: Uuid, snap: Uuid)
    | SnapResume(vm: Uuid, snap: Uuid, created: bool)
    | TermCheck(vm: Uuid)                                   // take the lock and look the id up
    | TermKill(vm: Uuid)
    | TermUnregister(vm: Uuid)                              // take the lock and remove the id

  /** Snapshots borrow a handle; every other call has its VM to itself. */
  predicate Borrows(task: Task) { task.SnapCheck? || task.SnapPause? || task.SnapCreate? || task.SnapResume? }

  predicate Terminates(task: Task) { task.TermCheck? || task.TermKill? || task.TermUnregister? }

  /** The call holds the child process: dropping the call kills it. */
  predicate OwnsProcess(task: Task) {
    task.Configuring? || task.Registering? || task.Reading? || task.TermCheck? || task.TermKill?
  }

  /** Past its pause and before its resume. */
  predicate Midway(task: Task) { task.SnapCreate? || task.SnapResume? }

  datatype State = State(
    servers: map<Uuid, Server>,  // live processes
    disk: Disk,
    active: set<Uuid>,           // the registry
    held: set<Uuid>,             // handles in the hands of callers
    tasks: map<nat, Task>,
    drawn: set<Uuid>,            // identifiers drawn so far
    stray: set<Uuid>)            // ids left registered by a failed or cancelled terminate or a dropped handle

  const INIT: State := State(map[], map[], {}, {}, map[], {}, {})

  datatype Action =
    // environment
    | GuestStep(vm: Uuid, guest: Guest)
    | ProcessExit(vm: Uuid)
    // callers
    | CallSpawn(t: nat, vm: Uuid, config: VmConfig)
    | CallExecute(t: nat, vm: Uuid, config: VmConfig)
    | CallRestore(t: nat, vm: Uuid, snap: Uuid)
    | CallSnapshot(t: nat, vm: Uuid)
    | CallTerminate(t: nat, vm: Uuid)
    | DropHandle(vm: Uuid)
    // steps of a call; `ok` is whether the operating system or the connection plays along
    | Launch(t: nat, ok: bool)
    | SendNext(t: nat, ok: bool)
    | Register(t: nat)
    | FinishReading(t: nat)
    | CheckSnapshot(t: nat, snap: Uuid)
    | SendPause(t: nat, ok: bool)
    | SendCreate(t: nat, ok: bool)
    | SendResume(t: nat, ok: bool)
    | CheckTerminate(t: nat)
    | Kill(t: nat, ok: bool)
    | Unregister(t: nat)
    | Cancel(t: nat)

  /** The environment or a caller acts, not a call in flight. */
  predicate FromOutside(a: Action) {
    || a.GuestStep? || a.ProcessExit? || a.CallSpawn? || a.CallExecute? || a.CallRestore? || a.CallSnapshot?
    || a.CallTerminate? || a.DropHandle?
  }

  /** A step of a call that prepares a process of its own. */
  predicate OfNewProcess(a: Action) { a.Launch? || a.SendNext? || a.Register? || a.FinishReading? }

  predicate OfSnapshot(a: Action) { a.CheckSnapshot? || a.SendPause? || a.SendCreate? || a.SendResume? }

  ghost predicate Borrowed(s: State, vm: Uuid) {
    exists t :: t in s.tasks && Borrows(s.tasks[t]) && s.tasks[t].vm == vm
  }

  ghost predicate Enabled(s: State, a: Action) {
    match a
    case GuestStep(vm, _) => vm in s.servers && s.servers[vm].phase == Running
    case ProcessExit(vm) => vm in s.servers
    case CallSpawn(t, vm, _) => t !in s.tasks && vm !in s.drawn
    case CallExecute(t, vm, _) => t !in s.tasks && vm !in s.drawn
    case CallRestore(t, vm, _) => t !in s.tasks && vm !in s.drawn
    case CallSnapshot(t, vm) => t !in s.tasks && vm in s.held
    case CallTerminate(t, vm) => t !in s.tasks && vm in s.held && !Borrowed(s, vm)
    case DropHandle(vm) => vm in s.held && !Borrowed(s, vm)
    case Launch(t, _) => t in s.tasks && s.tasks[t].Launching?
    case SendNext(t, _) => t in s.tasks && s.tasks[t].Configuring? && s.tasks[t].acks < |Requests(s.tasks[t].goal)|
    case Register(t) => t in s.tasks && s.tasks[t].Registering?
    case FinishReading(t) => t in s.tasks && s.tasks[t].Reading?
    case CheckSnapshot(t, snap) => t in s.tasks && s.tasks[t].SnapCheck? && snap !in s.drawn
    case SendPause(t, _) => t in s.tasks && s.tasks[t].SnapPause?
    case SendCreate(t, _) => t in s.tasks && s.tasks[t].SnapCreate?
    case SendResume(t, _) => t in s.tasks && s.tasks[t].SnapResume?
    case CheckTerminate(t) => t in s.tasks && s.tasks[t].TermCheck?
    case Kill(t, _) => t in s.tasks && s.tasks[t].TermKill?
    case Unregister(t) => t in s.tasks && s.tasks[t].TermUnregister?
    case Cancel(t) => t in s.tasks
  }

  function Put(s: State, t: nat, task: Task): State { s.(tasks := s.tasks[t := task]) }
  function End(s: State, t: nat): State { s.(tasks := s.tasks - {t}) }

  /** The process is killed, by request or by being dropped. */
  function Dies(s: State, vm: Uuid): State { s.(servers := s.servers - {vm}) }

  /** The request gets through to a live process that accepts it. */
  predicate Delivered(s: State, vm: Uuid, q: Request, ok: bool) {
    ok && vm in s.servers && Api(s.servers[vm], s.disk, q).Some?
  }

  function Send(s: State, vm: Uuid, q: Request): State
    requires vm in s.servers && Api(s.servers[vm], s.disk, q).Some?
  {
    var (server, disk) := Api(s.servers[vm], s.disk, q).value;
    s.(servers := s.servers[vm := server], disk := disk)
  }

  predicate FilesExist(s: State, snap: Uuid) { MemFile(snap) in s.disk && StateFile(snap) in s.disk }

  function CreateRequest(snap: Uuid): Request { CreateSnapshot(StateFile(snap), MemFile(snap)) }

  ghost function Apply(s: State, a: Action): State
    requires Enabled(s, a)
  {
    if FromOutside(a) then ApplyOutside(s, a)
    else if OfNewProcess(a) then ApplyNewProcess(s, a)
    else if OfSnapshot(a) then ApplySnapshot(s, a)
    else ApplyEnding(s, a)
  }

  ghost function ApplyOutside(s: State, a: Action): State
    requires Enabled(s, a) && FromOutside(a)
  {
    match a
    case GuestStep(vm, guest) => s.(servers := s.servers[vm := s.servers[vm].(guest := guest)])
    case ProcessExit(vm) => Dies(s, vm)
    case CallSpawn(t, vm, config) => Put(s, t, Launching(vm, Boot(config))).(drawn := s.drawn + {vm})
    case CallExecute(t, vm, config) => Put(s, t, Launching(vm, Execute(config))).(drawn := s.drawn + {vm})
    case CallRestore(t, vm, snap) =>
      if FilesExist(s, snap) then Put(s, t, Launching(vm, Load(snap))).(drawn := s.drawn + {vm}) else s
    case CallSnapshot(t, vm) => Put(s, t, SnapCheck(vm))
    case CallTerminate(t, vm) => Put(s, t, TermCheck(vm)).(held := s.held - {vm})
    case DropHandle(vm) => Dies(s, vm).(held := s.held - {vm}, stray := s.stray + {vm})
  }

  ghost function ApplyNewProcess(s: State, a: Action): State
    requires Enabled(s, a) && OfNewProcess(a)
  {
    match a
    case Launch(t, ok) =>
      var task := s.tasks[t];
      if ok then Put(s, t, Configuring(task.vm, task.goal, 0)).(servers := s.servers[task.vm := FRESH]) else End(s, t)
    case SendNext(t, ok) =>
      var task := s.tasks[t];
      var q := Requests(task.goal)[task.acks];
      if Delivered(s, task.vm, q, ok) then Put(Send(s, task.vm, q), t, Acknowledged(task)) else Dies(End(s, t), task.vm)
    case Register(t) =>
      var vm := s.tasks[t].vm;
      End(s, t).(active := s.active + {vm}, held := s.held + {vm})
    case FinishReading(t) => Dies(End(s, t), s.tasks[t].vm)
  }

  ghost function ApplySnapshot(s: State, a: Action): State
    requires Enabled(s, a) && OfSnapshot(a)
  {
    match a
    case CheckSnapshot(t, snap) =>
      var vm := s.tasks[t].vm;
      if vm in s.active then Put(s, t, SnapPause(vm, snap)).(drawn := s.drawn + {snap}) else End(s, t)
    case SendPause(t, ok) =>
      var task := s.tasks[t];
      if Delivered(s, task.vm, Pause, ok) then Put(Send(s, task.vm, Pause), t, SnapCreate(task.vm, task.snap)) else End(s, t)
    case SendCreate(t, ok) =>
      var task := s.tasks[t];
      if Delivered(s, task.vm, CreateRequest(task.snap), ok)
      then Put(Send(s, task.vm, CreateRequest(task.snap)), t, SnapResume(task.vm, task.snap, true))
      else Put(s, t, SnapResume(task.vm, task.snap, false))
    case SendResume(t, ok) =>
      var task := s.tasks[t];
      if Delivered(s, task.vm, Resume, ok) then End(Send(s, task.vm, Resume), t) else End(s, t)
  }

  ghost function ApplyEnding(s: State, a: Action): State
    requires Enabled(s, a) && !FromOutside(a) && !OfNewProcess(a) && !OfSnapshot(a)
  {
    match a
    case CheckTerminate(t) =>
      var vm := s.tasks[t].vm;
      if vm in s.active then Put(s, t, TermKill(vm)) else Dies(End(s, t), vm)
    case Kill(t, ok) =>
      var vm := s.tasks[t].vm;
      if ok then Put(Dies(s, vm), t, TermUnregister(vm)) else Dies(End(s, t), vm).(stray := s.stray + {vm})
    case Unregister(t) => End(s, t).(active := s.active - {s.tasks[t].vm})
    case Cancel(t) => Cancelled(s, t)
  }

  /** The call after its next request has been acknowledged. */
  function Acknowledged(task: Task): Task
    requires task.Configuring?
  {
    if task.acks + 1 < |Requests(task.goal)| then task.(acks := task.acks + 1)
    else if task.goal.Execute? then Reading(task.vm)
    else Registering(task.vm, task.goal)
  }

  /** A dropped future: what it owned dies, what it had registered stays registered, and a guest it
      had paused stays paused. */
  function Cancelled(s: State, t: nat): State
    requires t in s.tasks
  {
    var task := s.tasks[t];
    State(if OwnsProcess(task) then s.servers - {task.vm} else s.servers,
          s.disk, s.active, s.held, s.tasks - {t}, s.drawn,
          if Terminates(task) then s.stray + {task.vm} else s.stray)
  }

  /** What the caller sees in a step; `Silent` while the call goes on. */
  datatype Reply =
    | Silent
    | Spawned(vm: Uuid)
    | Restored(vm: Uuid, snap: Uuid)
    | SnapshotDone(vm: Uuid, snap: Uuid)
    | TerminateDone(vm: Uuid)
    | ExecuteEnded(vm: Uuid)
    | VmNotFound(vm: Uuid)
    | FilesNotFound(snap: Uuid)
    | CallFailed

  ghost function ReplyOf(s: State, a: Action): Reply
    requires Enabled(s, a)
  {
    match a
    case CallRestore(_, _, snap) => if FilesExist(s, snap) then Silent else FilesNotFound(snap)
    case Launch(_, ok) => if ok then Silent else CallFailed
    case SendNext(t, ok) =>
      if Delivered(s, s.tasks[t].vm, Requests(s.tasks[t].goal)[s.tasks[t].acks], ok) then Silent else CallFailed
    case Register(t) => if s.tasks[t].goal.Load? then Restored(s.tasks[t].vm, s.tasks[t].goal.snap) else Spawned(s.tasks[t].vm)
    case FinishReading(t) => ExecuteEnded(s.tasks[t].vm)
    case CheckSnapshot(t, _) => if s.tasks[t].vm in s.active then Silent else VmNotFound(s.tasks[t].vm)
    case SendPause(t, ok) => if Delivered(s, s.tasks[t].vm, Pause, ok) then Silent else CallFailed
    case SendResume(t, _) => if s.tasks[t].created then SnapshotDone(s.tasks[t].vm, s.tasks[t].snap) else CallFailed
    case CheckTerminate(t) => if s.tasks[t].vm in s.active then Silent else VmNotFound(s.tasks[t].vm)
    case Kill(_, ok) => if ok then Silent else CallFailed
    case Unregister(t) => TerminateDone(s.tasks[t].vm)
    case _ => Silent
  }

  /** Action `i` of the sequence is enabled and leads from state `i` to state `i + 1`. */
  ghost predicate StepAt(tr: seq<State>, acts: seq<Action>, i: nat)
    requires |tr| == |acts| + 1 && i < |acts|
  {
    Enabled(tr[i], acts[i]) && tr[i + 1] == Apply(tr[i], acts[i])
  }

  /** A run from the empty host: `tr[i]` is the state before `acts[i]`. */
  ghost predicate Run(tr: seq<State>, acts: seq<Action>) {
    |tr| == |acts| + 1 && tr[0] == INIT && forall i: nat :: i < |acts| ==> StepAt(tr, acts, i)
  }

  /** A run goes on with any enabled action. */
  lemma Extend(tr: seq<State>, acts: seq<Action>, a: Action) returns (tr': seq<State>, acts': seq<Action>)
    requires Run(tr, acts) && Enabled(tr[|acts|], a)
    ensures acts' == acts + [a] && tr' == tr + [Apply(tr[|acts|], a)] && Run(tr', acts')
  {
    tr', acts' := tr + [Apply(tr[|acts|], a)], acts + [a];
    forall i: nat | i < |acts'|
      ensures StepAt(tr', acts', i)
    {
      if i < |acts| {
        assert StepAt(tr, acts, i);
      }
    }
  }

  ghost function ReplyAt(tr: seq<State>, acts: seq<Action>, i: nat): Reply
    requires Run(tr, acts) && i < |acts|
  {
    assert StepAt(tr, acts, i);
    ReplyOf(tr[i], acts[i])
  }

  /** The reply gives a caller a handle to `vm`. */
  predicate HandsOut(r: Reply, vm: Uuid) { r == Spawned(vm) || (r.Restored? && r.vm == vm) }
}
