/** The Firecracker management API, as far as the executor uses it: what one process accepts in each
    phase, and what it does to its guest and to the snapshot files. */
module Firecracker {
  import opened Bytes
  import opened Uuids

  type Image = seq<byte>

  /** Guest memory and the state of the devices; a full snapshot writes one file for each. */
  datatype Guest = Guest(memory: Image, devices: Image)

  const RESET: Guest := Guest([], [])

  datatype Phase = NotStarted | Running | Paused

  datatype VmConfig = VmConfig(kernelPath: string, rootfsPath: string, vcpuCount: nat, memSizeMib: nat, bootArgs: string)

  datatype Server = Server(
    phase: Phase,
    guest: Guest,
    bootSource: Option<(string, string)>,
    rootDrive: Option<string>,
    machine: Option<(nat, nat)>)

  const FRESH: Server := Server(NotStarted, RESET, None, None, None)

  /** `<id>.mem` and `<id>.state` in the snapshot directory. */
  datatype Path = MemFile(id: Uuid) | StateFile(id: Uuid)

  type Disk = map<Path, Image>

  /** The two files of a snapshot hold this guest. */
  predicate Holds(disk: Disk, snap: Uuid, guest: Guest) {
    && MemFile(snap) in disk && disk[MemFile(snap)] == guest.memory
    && StateFile(snap) in disk && disk[StateFile(snap)] == guest.devices
  }

  /** The files after writing a guest to them. */
  function Written(disk: Disk, snap: Uuid, guest: Guest): (r: Disk)
    ensures Holds(r, snap, guest)
  {
    disk[MemFile(snap) := guest.memory][StateFile(snap) := guest.devices]
  }

  datatype Request =
    | PutBootSource(kernel: string, args: string)
    | PutRootDrive(path: string)
    | PutMachineConfig(vcpus: nat, mem: nat)
    | InstanceStart
    | Pause
    | Resume
    | CreateSnapshot(statePath: Path, memPath: Path)
    | LoadSnapshot(statePath: Path, memPath: Path)

  /** The server and disk after an accepted request; `None` when the request is refused, which
      changes nothing. Configuration is fixed at the start, a snapshot needs a paused guest, and a
      load needs a process that has not started and both files. */
  function Api(server: Server, disk: Disk, q: Request): (r: Option<(Server, Disk)>)
  {
    match q
    case PutBootSource(kernel, args) =>
      if server.phase == NotStarted then Some((server.(bootSource := Some((kernel, args))), disk)) else None
    case PutRootDrive(path) =>
      if server.phase == NotStarted then Some((server.(rootDrive := Some(path)), disk)) else None
    case PutMachineConfig(vcpus, mem) =>
      if server.phase == NotStarted then Some((server.(machine := Some((vcpus, mem))), disk)) else None
    case InstanceStart =>
      if server.phase == NotStarted && server.bootSource.Some? then Some((server.(phase := Running), disk)) else None
    case Pause =>
      if server.phase != NotStarted then Some((server.(phase := Paused), disk)) else None
    case Resume =>
      if server.phase != NotStarted then Some((server.(phase := Running), disk)) else None
    case CreateSnapshot(statePath, memPath) =>
      if server.phase == Paused
      then Some((server, disk[memPath := server.guest.memory][statePath := server.guest.devices]))
      else None
    case LoadSnapshot(statePath, memPath) =>
      if server.phase == NotStarted && memPath in disk && statePath in disk
      then Some((server.(phase := Running, guest := Guest(disk[memPath], disk[statePath])), disk))
      else None
  }

  /** The requests of `configure_and_boot`, in order. */
  function BootRequests(config: VmConfig): (qs: seq<Request>)
    ensures |qs| == 4
  {
    [PutBootSource(config.kernelPath, config.bootArgs),
     PutRootDrive(config.rootfsPath),
     PutMachineConfig(config.vcpuCount, config.memSizeMib),
     InstanceStart]
  }

  predicate Configured(server: Server, config: VmConfig) {
    && server.bootSource == Some((config.kernelPath, config.bootArgs))
    && server.rootDrive == Some(config.rootfsPath)
    && server.machine == Some((config.vcpuCount, config.memSizeMib))
  }

  /** A fresh process after the first `k` boot requests have been accepted. */
  function BootedBy(config: VmConfig, k: nat): Server
    requires k <= 4
  {
    Server(if k == 4 then Running else NotStarted, RESET,
           if k >= 1 then Some((config.kernelPath, config.bootArgs)) else None,
           if k >= 2 then Some(config.rootfsPath) else None,
           if k >= 3 then Some((config.vcpuCount, config.memSizeMib)) else None)
  }

  /** A fresh process that has taken up the guest in the files of a snapshot. */
  function Loaded(disk: Disk, snap: Uuid): (server: Server)
    requires MemFile(snap) in disk && StateFile(snap) in disk
    ensures server.phase == Running && Holds(disk, snap, server.guest)
  {
    FRESH.(phase := Running, guest := Guest(disk[MemFile(snap)], disk[StateFile(snap)]))
  }

  /** The boot sequence is accepted step by step and ends in a running guest with that configuration. */
  lemma BootStep(config: VmConfig, k: nat, disk: Disk)
    requires k < 4
    ensures Api(BootedBy(config, k), disk, BootRequests(config)[k]) == Some((BootedBy(config, k + 1), disk))
    ensures BootedBy(config, 0) == FRESH && Configured(BootedBy(config, 4), config)
  {
  }
}
