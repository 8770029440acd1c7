/** The Firecracker backend, call by call. Whether each request is delivered, whether the process can
    be executed and whether its socket appears are parameters; identifiers are drawn by the caller. */
module Backend {
  import opened Bytes
  import opened Uuids
  import opened Firecracker
  import SerialFrame
  import SerialStream

  /** The snapshot directory. */
  class Host {
    var disk: Disk

    constructor ()
      ensures disk == map[]
    {
      disk := map[];
    }
  }

  /** A child process behind its API socket, with the requests sent to it. */
  class Process {
    var server: Server
    var alive: bool
    var sent: seq<Request>

    constructor ()
      ensures server == FRESH && alive && sent == []
    {
      server, alive, sent := FRESH, true, [];
    }

    /** `kill`, and equally the `kill_on_drop` of a child that goes out of scope. */
    method Kill()
      modifies this`alive
      ensures !alive
    {
      alive := false;
    }

    /** One API request: it is sent, and it succeeds when it is delivered to a live process that
        accepts it. A request that fails leaves the server and the disk alone. */
    method ApiRequest(host: Host, q: Request, delivered: bool) returns (ok: bool)
      modifies this`server, this`sent, host
      ensures sent == old(sent) + [q]
      ensures ok <==> delivered && alive && Api(old(server), old(host.disk), q).Some?
      ensures ok ==> (server, host.disk) == Api(old(server), old(host.disk), q).value
      ensures !ok ==> server == old(server) && host.disk == old(host.disk)
    {
      sent := sent + [q];
      var effect := Api(server, host.disk, q);
      if !delivered || !alive || effect.None? {
        return false;
      }
      server, host.disk := effect.value.0, effect.value.1;
      ok := true;
    }
  }

  /** A handle owns its process. */
  class VmHandle {
    const id: Uuid
    const process: Process

    constructor (id: Uuid, process: Process)
      ensures this.id == id && this.process == process
    {
      this.id := id;
      this.process := process;
    }
  }

  /** The number of requests that reach the server before the first that is not delivered. */
  function Accepted(up: seq<bool>): (k: nat)
    ensures k <= |up| && (forall i :: 0 <= i < k ==> up[i]) && (k < |up| ==> !up[k])
  {
    if up == [] || !up[0] then 0 else 1 + Accepted(up[1..])
  }

  /** `configure_and_boot`: the four requests in order, stopping at the first that fails. Whatever
      fails, what was sent is a prefix of the four, each sent only after the one before it was
      acknowledged; success means a running guest with exactly the given configuration. */
  method ConfigureAndBoot(process: Process, host: Host, config: VmConfig, up: seq<bool>) returns (ok: bool)
    requires |up| == 4 && process.alive && process.server == FRESH
    modifies process`server, process`sent, host
    ensures ok <==> Accepted(up) == 4
    ensures process.sent == old(process.sent) +
              [PutBootSource(config.kernelPath, config.bootArgs), PutRootDrive(config.rootfsPath),
               PutMachineConfig(config.vcpuCount, config.memSizeMib), InstanceStart][..if ok then 4 else Accepted(up) + 1]
    ensures process.server == BootedBy(config, Accepted(up))
    ensures ok ==> process.server.phase == Running && Configured(process.server, config)
    ensures !ok ==> process.server.phase == NotStarted
    ensures host.disk == old(host.disk)
  {
    ghost var qs := BootRequests(config);
    BootStep(config, 0, host.disk);
    BootStep(config, 1, host.disk);
    BootStep(config, 2, host.disk);
    BootStep(config, 3, host.disk);
    ok := process.ApiRequest(host, PutBootSource(config.kernelPath, config.bootArgs), up[0]);
    assert process.sent == old(process.sent) + qs[..1];
    if !ok {
      return;
    }
    ok := process.ApiRequest(host, PutRootDrive(config.rootfsPath), up[1]);
    assert process.sent == old(process.sent) + qs[..2];
    if !ok {
      return;
    }
    ok := process.ApiRequest(host, PutMachineConfig(config.vcpuCount, config.memSizeMib), up[2]);
    assert process.sent == old(process.sent) + qs[..3];
    if !ok {
      return;
    }
    ok := process.ApiRequest(host, InstanceStart, up[3]);
    assert process.sent == old(process.sent) + qs[..4];
  }

  /** What the environment provides for starting a process. */
  datatype Env = Env(kvm: bool, binary: bool, dir: bool, exec: bool, socket: bool)

  datatype Error =
    | KvmUnavailable
    | BinaryNotFound
    | Io
    | SpawnFailed
    | SnapshotFailed(vm: Uuid)
    | RestoreFailed(snap: Uuid, filesMissing: bool)
    | VmNotFound(vm: Uuid)

  /** The process gets started. */
  predicate Starts(env: Env) { env.kvm && env.binary && env.dir && env.exec }

  /** Start a process and boot it. A process that fails on the way is dropped and dies. */
  method Boot(host: Host, config: VmConfig, env: Env, up: seq<bool>) returns (r: Result<Process, Error>, ghost child: Process?)
    requires |up| == 4
    modifies host
    ensures host.disk == old(host.disk)
    ensures child != null <==> Starts(env)
    ensures r.Ok? <==> Starts(env) && env.socket && Accepted(up) == 4
    ensures r.Ok? ==> fresh(r.value) && child == r.value && r.value.alive && r.value.server == BootedBy(config, 4)
    ensures !env.kvm ==> r == Err(KvmUnavailable)
    ensures env.kvm && !env.binary ==> r == Err(BinaryNotFound)
    ensures env.kvm && env.binary && !env.dir ==> r == Err(Io)
    ensures env.kvm && env.binary && env.dir && r.Err? ==> r == Err(SpawnFailed)
    ensures r.Err? && child != null ==> fresh(child) && !child.alive
  {
    child := null;
    if !env.kvm {
      return Err(KvmUnavailable), null;
    }
    if !env.binary {
      return Err(BinaryNotFound), null;
    }
    if !env.dir {
      return Err(Io), null;
    }
    if !env.exec {
      return Err(SpawnFailed), null;
    }
    var process := new Process();
    child := process;
    if !env.socket {
      process.Kill();
      return Err(SpawnFailed), child;
    }
    var booted := ConfigureAndBoot(process, host, config, up);
    if !booted {
      process.Kill();
      return Err(SpawnFailed), child;
    }
    r := Ok(process);
  }

  /** `spawn`. */
  method Spawn(host: Host, config: VmConfig, id: Uuid, env: Env, up: seq<bool>)
    returns (r: Result<VmHandle, Error>, ghost child: Process?)
    requires |up| == 4
    modifies host
    ensures host.disk == old(host.disk)
    ensures child != null <==> Starts(env)
    ensures r.Ok? <==> Starts(env) && env.socket && forall i :: 0 <= i < 4 ==> up[i]
    ensures r.Ok? ==>
              && fresh(r.value) && r.value.id == id && fresh(r.value.process) && child == r.value.process && r.value.process.alive
              && r.value.process.server == BootedBy(config, 4)
              && r.value.process.server.phase == Running
              && r.value.process.server.bootSource == Some((config.kernelPath, config.bootArgs))
              && r.value.process.server.rootDrive == Some(config.rootfsPath)
              && r.value.process.server.machine == Some((config.vcpuCount, config.memSizeMib))
    ensures !env.kvm ==> r == Err(KvmUnavailable)
    ensures env.kvm && !env.binary ==> r == Err(BinaryNotFound)
    ensures env.kvm && env.binary && !env.dir ==> r == Err(Io)
    ensures env.kvm && env.binary && env.dir && r.Err? ==> r == Err(SpawnFailed)
    ensures r.Err? && child != null ==> fresh(child) && !child.alive
  {
    var booted;
    booted, child := Boot(host, config, env, up);
    if booted.Err? {
      return Err(booted.error), child;
    }
    var handle := new VmHandle(id, booted.value);
    r := Ok(handle);
  }

  /** The pause of a snapshot takes effect. */
  predicate PauseTakes(alive: bool, server: Server, pauseOk: bool) { pauseOk && alive && server.phase != NotStarted }

  /** The server after a snapshot on its own: the guest is left paused exactly when the pause took and
      the resume did not. */
  function SnapshotServer(alive: bool, server: Server, pauseOk: bool, resumeOk: bool): Server {
    if !PauseTakes(alive, server, pauseOk) then server else server.(phase := if resumeOk then Running else Paused)
  }

  /** `snapshot`: pause, create, and resume even when the creation failed. */
  method Snapshot(host: Host, handle: VmHandle, snap: Uuid, dirOk: bool, pauseOk: bool, createOk: bool, resumeOk: bool)
    returns (r: Result<Uuid, Error>)
    modifies host, handle.process
    ensures handle.process.alive == old(handle.process.alive)
    ensures r == if !dirOk then Err(Io)
                 else if PauseTakes(old(handle.process.alive), old(handle.process.server), pauseOk) && createOk then Ok(snap)
                 else Err(SnapshotFailed(handle.id))
    ensures handle.process.server == SnapshotServer(old(handle.process.alive), old(handle.process.server), dirOk && pauseOk, resumeOk)
    ensures handle.process.server.phase
         == if dirOk && pauseOk && old(handle.process.alive) && old(handle.process.server.phase) != NotStarted
            then if resumeOk then Running else Paused else old(handle.process.server.phase)
    ensures host.disk == if r.Ok? then Written(old(host.disk), snap, old(handle.process.server.guest)) else old(host.disk)
    ensures r.Ok? ==> MemFile(snap) in host.disk && host.disk[MemFile(snap)] == old(handle.process.server.guest.memory)
    ensures r.Ok? ==> StateFile(snap) in host.disk && host.disk[StateFile(snap)] == old(handle.process.server.guest.devices)
  {
    if !dirOk {
      return Err(Io);
    }
    var paused := handle.process.ApiRequest(host, Pause, pauseOk);
    if !paused {
      return Err(SnapshotFailed(handle.id));
    }
    var created := handle.process.ApiRequest(host, CreateSnapshot(StateFile(snap), MemFile(snap)), createOk);
    var _ := handle.process.ApiRequest(host, Resume, resumeOk);
    if !created {
      return Err(SnapshotFailed(handle.id));
    }
    r := Ok(snap);
  }

  /** `restore`: a new process takes up the guest that the two files hold. It looks at neither KVM nor
      the binary beforehand. */
  method Restore(host: Host, snap: Uuid, id: Uuid, env: Env, loadOk: bool)
    returns (r: Result<VmHandle, Error>, ghost child: Process?)
    modifies host
    ensures host.disk == old(host.disk)
    ensures r == Err(RestoreFailed(snap, true)) <==> MemFile(snap) !in host.disk || StateFile(snap) !in host.disk
    ensures r == Err(Io) <==> MemFile(snap) in host.disk && StateFile(snap) in host.disk && !env.dir
    ensures r.Ok? <==>
              MemFile(snap) in host.disk && StateFile(snap) in host.disk && env.dir && env.exec && env.socket && loadOk
    ensures r.Err? ==> r.error == Io || (r.error.RestoreFailed? && r.error.snap == snap)
    ensures r.Ok? ==>
              && fresh(r.value) && r.value.id == id && fresh(r.value.process) && child == r.value.process && r.value.process.alive
              && r.value.process.server == Loaded(host.disk, snap) && r.value.process.server.phase == Running
              && r.value.process.server.guest == Guest(host.disk[MemFile(snap)], host.disk[StateFile(snap)])
    ensures r.Err? && child != null ==> fresh(child) && !child.alive
  {
    child := null;
    if MemFile(snap) !in host.disk || StateFile(snap) !in host.disk {
      return Err(RestoreFailed(snap, true)), null;
    }
    if !env.dir {
      return Err(Io), null;
    }
    if !env.exec {
      return Err(RestoreFailed(snap, false)), null;
    }
    var process := new Process();
    child := process;
    if !env.socket {
      process.Kill();
      return Err(RestoreFailed(snap, false)), child;
    }
    var loaded := process.ApiRequest(host, LoadSnapshot(StateFile(snap), MemFile(snap)), loadOk);
    if !loaded {
      process.Kill();
      return Err(RestoreFailed(snap, false)), child;
    }
    var handle := new VmHandle(id, process);
    r := Ok(handle);
  }

  /** `terminate`: the process is dead afterwards whether or not the kill is reported to succeed,
      because the handle is dropped either way. */
  method Terminate(handle: VmHandle, killOk: bool) returns (r: Result<(), Error>)
    modifies handle.process
    ensures r == if killOk then Ok(()) else Err(Io)
    ensures !handle.process.alive && handle.process.server == old(handle.process.server)
  {
    handle.process.Kill();
    if !killOk {
      return Err(Io);
    }
    r := Ok(());
  }

  /** What reading the console to its end under the time limit comes to. */
  datatype Console = Stream(raw: seq<byte>) | TimedOut | ReadError

  /** `execute_command`: boot with the init script on the kernel command line, read the console to its
      end, parse it. Running out of time is a `SpawnFailed`, not an `Io`. Whatever happens, no process
      survives the call. */
  method ExecuteCommand(host: Host, config: VmConfig, command: string, env: Env, up: seq<bool>, console: Console)
    returns (r: Result<SerialFrame.Output, Error>, ghost child: Process?)
    requires |up| == 4
    modifies host
    ensures host.disk == old(host.disk)
    ensures r.Ok? <==> Starts(env) && env.socket && Accepted(up) == 4 && console.Stream?
    ensures r.Ok? ==> r.value == SerialFrame.Parse(console.raw)
    ensures !env.kvm ==> r == Err(KvmUnavailable)
    ensures env.kvm && !env.binary ==> r == Err(BinaryNotFound)
    ensures env.kvm && env.binary && !env.dir ==> r == Err(Io)
    ensures env.kvm && env.binary && env.dir && (!env.exec || !env.socket || Accepted(up) < 4) ==> r == Err(SpawnFailed)
    ensures Starts(env) && env.socket && Accepted(up) == 4 && console.TimedOut? ==> r == Err(SpawnFailed)
    ensures Starts(env) && env.socket && Accepted(up) == 4 && console.ReadError? ==> r == Err(Io)
    ensures child != null <==> Starts(env)
    ensures child != null ==> fresh(child) && !child.alive
    ensures r.Ok? ==> Configured(child.server, config.(bootArgs := SerialStream.BootArgs(command)))
  {
    var booted;
    booted, child := Boot(host, config.(bootArgs := SerialStream.BootArgs(command)), env, up);
    if booted.Err? {
      return Err(booted.error), child;
    }
    var process := booted.value;
    if console.TimedOut? {
      process.Kill();
      return Err(SpawnFailed), child;
    }
    if console.ReadError? {
      process.Kill();
      return Err(Io), child;
    }
    // The console has ended because the guest powered off and the process exited.
    process.Kill();
    r := Ok(SerialFrame.Parse(console.raw));
  }

  /** The lifecycle test: snapshot a VM, terminate it, restore. The restored VM has a new identity and
      the guest of the one that is gone. */
  method SnapshotTerminateRestore(host: Host, original: VmHandle, snap: Uuid, id: Uuid) returns (restored: VmHandle)
    requires original.process.alive && original.process.server.phase == Running && id != original.id
    modifies host, original.process
    ensures restored.id != original.id && restored.process != original.process
    ensures !original.process.alive && restored.process.alive
    ensures restored.process.server.phase == Running
    ensures restored.process.server.guest == old(original.process.server.guest)
  {
    var s := Snapshot(host, original, snap, true, true, true, true);
    var _ := Terminate(original, true);
    var r, _ := Restore(host, s.value, id, Env(true, true, true, true, true), true);
    restored := r.value;
  }
}
