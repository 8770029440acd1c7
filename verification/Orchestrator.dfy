/** The orchestrator: the registry of active VMs around the backend's calls. */
module Orchestrator {
  import opened Bytes
  import opened Uuids
  import opened Firecracker
  import opened Backend

  class VmOrchestrator {
    const host: Host
    var activeVms: set<Uuid>

    constructor (host: Host)
      ensures this.host == host && activeVms == {}
    {
      this.host := host;
      activeVms := {};
    }

    /** A VM is registered exactly when it is handed out. */
    method Spawn(config: VmConfig, id: Uuid, env: Env, up: seq<bool>) returns (r: Result<VmHandle, Error>)
      requires |up| == 4
      modifies this`activeVms, host
      ensures host.disk == old(host.disk)
      ensures r.Ok? <==> Starts(env) && env.socket && Accepted(up) == 4
      ensures !env.kvm ==> r == Err(KvmUnavailable)
      ensures env.kvm && !env.binary ==> r == Err(BinaryNotFound)
      ensures env.kvm && env.binary && !env.dir ==> r == Err(Io)
      ensures env.kvm && env.binary && env.dir && r.Err? ==> r == Err(SpawnFailed)
      ensures activeVms == if r.Ok? then old(activeVms) + {r.value.id} else old(activeVms)
      ensures r.Ok? ==> fresh(r.value) && r.value.id == id && fresh(r.value.process) && r.value.process.alive
      ensures r.Ok? ==> r.value.process.server == BootedBy(config, 4) && Configured(r.value.process.server, config)
    {
      var spawned, _ := Backend.Spawn(host, config, id, env, up);
      r := spawned;
      if r.Err? {
        return;
      }
      activeVms := activeVms + {r.value.id};
    }

    method Snapshot(handle: VmHandle, snap: Uuid, dirOk: bool, pauseOk: bool, createOk: bool, resumeOk: bool)
      returns (r: Result<Uuid, Error>)
      modifies host, handle.process
      ensures handle.process.alive == old(handle.process.alive)
      ensures r == Err(VmNotFound(handle.id)) <==> handle.id !in activeVms
      ensures handle.id !in activeVms ==> host.disk == old(host.disk) && handle.process.server == old(handle.process.server)
      ensures handle.id in activeVms ==>
                && (r == if !dirOk then Err(Io)
                         else if PauseTakes(old(handle.process.alive), old(handle.process.server), pauseOk) && createOk then Ok(snap)
                         else Err(SnapshotFailed(handle.id)))
                && handle.process.server
                   == SnapshotServer(old(handle.process.alive), old(handle.process.server), dirOk && pauseOk, resumeOk)
                && host.disk
                   == if r.Ok? then Written(old(host.disk), snap, old(handle.process.server.guest)) else old(host.disk)
    {
      if handle.id !in activeVms {
        return Err(VmNotFound(handle.id));
      }
      r := Backend.Snapshot(host, handle, snap, dirOk, pauseOk, createOk, resumeOk);
    }

    method Restore(snap: Uuid, id: Uuid, env: Env, loadOk: bool) returns (r: Result<VmHandle, Error>)
      modifies this`activeVms, host
      ensures host.disk == old(host.disk)
      ensures r == Err(RestoreFailed(snap, true)) <==> MemFile(snap) !in host.disk || StateFile(snap) !in host.disk
      ensures r == Err(Io) <==> MemFile(snap) in host.disk && StateFile(snap) in host.disk && !env.dir
      ensures r.Ok? <==>
                MemFile(snap) in host.disk && StateFile(snap) in host.disk && env.dir && env.exec && env.socket && loadOk
      ensures r.Err? ==> r.error == Io || (r.error.RestoreFailed? && r.error.snap == snap)
      ensures activeVms == if r.Ok? then old(activeVms) + {r.value.id} else old(activeVms)
      ensures r.Ok? ==> fresh(r.value) && r.value.id == id && fresh(r.value.process) && r.value.process.alive
      ensures r.Ok? ==> r.value.process.server == Loaded(host.disk, snap)
    {
      var restored, _ := Backend.Restore(host, snap, id, env, loadOk);
      r := restored;
      if r.Err? {
        return;
      }
      activeVms := activeVms + {r.value.id};
    }

    /** The id leaves the registry only when the kill succeeds; the process is dead in every case. */
    method Terminate(handle: VmHandle, killOk: bool) returns (r: Result<(), Error>)
      modifies this`activeVms, handle.process
      ensures !handle.process.alive
      ensures r == if handle.id !in old(activeVms) then Err(VmNotFound(handle.id)) else if killOk then Ok(()) else Err(Io)
      ensures activeVms == if r.Ok? then old(activeVms) - {handle.id} else old(activeVms)
    {
      if handle.id !in activeVms {
        handle.process.Kill();
        return Err(VmNotFound(handle.id));
      }
      r := Backend.Terminate(handle, killOk);
      if r.Err? {
        return;
      }
      activeVms := activeVms - {handle.id};
    }

    method ActiveCount() returns (n: nat)
      ensures n == |activeVms|
    {
      n := |activeVms|;
    }
  }
}
