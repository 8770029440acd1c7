/** The orchestrator's methods against the transition system. Each method here makes one call on the
    objects and takes a run whose last state agrees with them; afterwards a longer run, in which the
    steps of that call follow back to back, ends in a state that agrees again. So what is proved of
    every run holds of the objects after any sequence of calls. */
module Simulation {
  import opened Bytes
  import opened Uuids
  import opened Firecracker
  import opened Backend
  import opened Orchestrator
  import opened Lifecycle
  import opened Isolation
  import Ownership

  /** The process behind a handle is alive exactly when the VM has a server, and then it is that server. */
  ghost predicate Tracks(h: VmHandle, servers: map<Uuid, Server>)
    reads h.process
  {
    (h.process.alive <==> h.id in servers) && (h.process.alive ==> h.process.server == servers[h.id])
  }

  /** The handles are those held in the state, each with a process of its own. */
  ghost predicate HandlesAgree(handles: map<Uuid, VmHandle>, s: State)
    reads set id | id in handles :: handles[id].process
  {
    && handles.Keys == s.held
    && (forall id :: id in handles ==> handles[id].id == id && Tracks(handles[id], s.servers))
    && (forall id, other :: id in handles && other in handles && id != other ==> handles[id].process != handles[other].process)
  }

  ghost predicate Agrees(o: VmOrchestrator, handles: map<Uuid, VmHandle>, s: State)
    reads o, o.host, set id | id in handles :: handles[id].process
  {
    o.activeVms == s.active && o.host.disk == s.disk && HandlesAgree(handles, s)
  }

  /** A new orchestrator agrees with the state that every run starts from. */
  method New(host: Host) returns (o: VmOrchestrator)
    requires host.disk == map[]
    ensures o.host == host && Agrees(o, map[], INIT) && Run([INIT], [])
  {
    o := new VmOrchestrator(host);
  }

  /** The connection serves a request only once the socket has appeared. */
  function Behind(socket: bool, up: seq<bool>): (r: seq<bool>)
    ensures |r| == |up| && (Accepted(r) == |r| <==> Accepted(up) == |up| && (socket || up == []))
  {
    if socket || up == [] then up else up[0 := false]
  }

  method Spawn(o: VmOrchestrator, ghost handles: map<Uuid, VmHandle>, ghost tr: seq<State>, ghost acts: seq<Action>,
               ghost t: nat, config: VmConfig, id: Uuid, env: Env, up: seq<bool>)
    returns (r: Result<VmHandle, Error>, ghost tr': seq<State>, ghost acts': seq<Action>)
    requires Run(tr, acts) && Agrees(o, handles, tr[|acts|]) && Enabled(tr[|acts|], CallSpawn(t, id, config)) && |up| == 4
    modifies o`activeVms, o.host
    ensures GoesOn(tr, acts, tr', acts', RunSpawn(tr[|acts|], t, id, config, Starts(env), Behind(env.socket, up)))
    ensures Agrees(o, if r.Ok? then handles[id := r.value] else handles, tr'[|acts'|])
  {
    tr', acts' := SpawnRun(tr, acts, t, id, config, Starts(env), Behind(env.socket, up));
    r := o.Spawn(config, id, env, up);
    if r.Ok? {
      HandedOut(handles, tr[|acts|], r.value);
    } else {
      OnlyDrawn(handles, tr[|acts|], id);
    }
  }

  lemma SpawnRun(tr: seq<State>, acts: seq<Action>, t: nat, id: Uuid, config: VmConfig, execOk: bool, up: seq<bool>)
    returns (tr': seq<State>, acts': seq<Action>)
    requires Run(tr, acts) && Enabled(tr[|acts|], CallSpawn(t, id, config)) && |up| == 4
    ensures GoesOn(tr, acts, tr', acts', RunSpawn(tr[|acts|], t, id, config, execOk, up))
    ensures var s := tr[|acts|];
            && id !in s.servers && id !in s.held
            && tr'[|acts'|] == if execOk && Accepted(up) == 4 then HandOut(s, id, BootedBy(config, 4)) else s.(drawn := s.drawn + {id})
  {
    Ownership.InvRun(tr, acts, |acts|);
    tr', acts' := ReachSpawn(tr, acts, t, id, config, execOk, up);
    UninterruptedSpawn(tr[|acts|], t, id, config, execOk, up);
  }

  /** A handle to a new process keeps the agreement. */
  lemma HandedOut(handles: map<Uuid, VmHandle>, s: State, h: VmHandle)
    requires HandlesAgree(handles, s) && h.id !in s.held && h.process.alive
    requires forall id :: id in handles ==> handles[id].process != h.process
    ensures HandlesAgree(handles[h.id := h], HandOut(s, h.id, h.process.server))
  {
  }

  lemma OnlyDrawn(handles: map<Uuid, VmHandle>, s: State, id: Uuid)
    requires HandlesAgree(handles, s)
    ensures HandlesAgree(handles, s.(drawn := s.drawn + {id}))
  {
  }

  method Restore(o: VmOrchestrator, ghost handles: map<Uuid, VmHandle>, ghost tr: seq<State>, ghost acts: seq<Action>,
                 ghost t: nat, snap: Uuid, id: Uuid, env: Env, loadOk: bool)
    returns (r: Result<VmHandle, Error>, ghost tr': seq<State>, ghost acts': seq<Action>)
    requires Run(tr, acts) && Agrees(o, handles, tr[|acts|]) && Enabled(tr[|acts|], CallRestore(t, id, snap))
    modifies o`activeVms, o.host
    ensures GoesOn(tr, acts, tr', acts', RunRestore(tr[|acts|], t, id, snap, env.dir && env.exec, env.socket && loadOk))
    ensures Agrees(o, if r.Ok? then handles[id := r.value] else handles, tr'[|acts'|])
  {
    tr', acts' := RestoreRun(tr, acts, t, id, snap, env.dir && env.exec, env.socket && loadOk);
    r := o.Restore(snap, id, env, loadOk);
    if r.Ok? {
      HandedOut(handles, tr[|acts|], r.value);
    } else {
      OnlyDrawn(handles, tr[|acts|], id);
    }
  }

  lemma RestoreRun(tr: seq<State>, acts: seq<Action>, t: nat, id: Uuid, snap: Uuid, execOk: bool, loadOk: bool)
    returns (tr': seq<State>, acts': seq<Action>)
    requires Run(tr, acts) && Enabled(tr[|acts|], CallRestore(t, id, snap))
    ensures GoesOn(tr, acts, tr', acts', RunRestore(tr[|acts|], t, id, snap, execOk, loadOk))
    ensures var s := tr[|acts|];
            && id !in s.servers && id !in s.held
            && tr'[|acts'|] == if !FilesExist(s, snap) then s
                               else if execOk && loadOk then HandOut(s, id, Loaded(s.disk, snap))
                               else s.(drawn := s.drawn + {id})
  {
    Ownership.InvRun(tr, acts, |acts|);
    tr', acts' := ReachRestore(tr, acts, t, id, snap, execOk, loadOk);
    UninterruptedRestore(tr[|acts|], t, id, snap, execOk, loadOk);
  }

  method Snapshot(o: VmOrchestrator, ghost handles: map<Uuid, VmHandle>, ghost tr: seq<State>, ghost acts: seq<Action>,
                  ghost t: nat, handle: VmHandle, snap: Uuid, dirOk: bool, pauseOk: bool, createOk: bool, resumeOk: bool)
    returns (r: Result<Uuid, Error>, ghost tr': seq<State>, ghost acts': seq<Action>)
    requires Run(tr, acts) && Agrees(o, handles, tr[|acts|]) && handle.id in handles && handles[handle.id] == handle
    requires Enabled(tr[|acts|], CallSnapshot(t, handle.id)) && snap !in tr[|acts|].drawn
    modifies o.host, handle.process
    ensures GoesOn(tr, acts, tr', acts',
                   RunSnapshot(tr[|acts|], t, handle.id, snap, dirOk && pauseOk, createOk, resumeOk))
    ensures Agrees(o, handles, tr'[|acts'|])
    ensures r.Ok? ==> Holds(tr'[|acts'|].disk, r.value, old(handle.process.server.guest))
    ensures !(r.Err? && r.error.VmNotFound?)
  {
    tr', acts' := SnapshotRun(tr, acts, t, handle.id, snap, dirOk && pauseOk, createOk, resumeOk);
    r := o.Snapshot(handle, snap, dirOk, pauseOk, createOk, resumeOk);
  }

  lemma SnapshotRun(tr: seq<State>, acts: seq<Action>, t: nat, id: Uuid, snap: Uuid, pauseOk: bool, createOk: bool, resumeOk: bool)
    returns (tr': seq<State>, acts': seq<Action>)
    requires Run(tr, acts) && Enabled(tr[|acts|], CallSnapshot(t, id)) && snap !in tr[|acts|].drawn
    ensures GoesOn(tr, acts, tr', acts', RunSnapshot(tr[|acts|], t, id, snap, pauseOk, createOk, resumeOk))
    ensures var s := tr[|acts|];
            && id in s.active
            && tr'[|acts'|] == Snapped(s.(drawn := s.drawn + {snap}), id, snap, pauseOk, createOk, resumeOk)
  {
    Ownership.InvRun(tr, acts, |acts|);
    tr', acts' := ReachSnapshot(tr, acts, t, id, snap, pauseOk, createOk, resumeOk);
    UninterruptedSnapshot(tr[|acts|], t, id, snap, pauseOk, createOk, resumeOk);
  }

  method Terminate(o: VmOrchestrator, ghost handles: map<Uuid, VmHandle>, ghost tr: seq<State>, ghost acts: seq<Action>,
                   ghost t: nat, handle: VmHandle, killOk: bool)
    returns (r: Result<(), Error>, ghost tr': seq<State>, ghost acts': seq<Action>)
    requires Run(tr, acts) && Agrees(o, handles, tr[|acts|]) && handle.id in handles && handles[handle.id] == handle
    requires Enabled(tr[|acts|], CallTerminate(t, handle.id))
    modifies o`activeVms, handle.process
    ensures GoesOn(tr, acts, tr', acts', RunTerminate(tr[|acts|], t, handle.id, killOk))
    ensures Agrees(o, handles - {handle.id}, tr'[|acts'|])
    ensures r.Ok? <==> handle.id !in tr'[|acts'|].active
    ensures !(r.Err? && r.error.VmNotFound?)
  {
    ghost var s := tr[|acts|];
    Ownership.InvRun(tr, acts, |acts|);
    tr', acts' := ReachTerminate(tr, acts, t, handle.id, killOk);
    UninterruptedTerminate(s, t, handle.id, killOk);
    r := o.Terminate(handle, killOk);
  }

  /** `active_count`: the handles that callers hold, the terminations in flight and the ids left behind by
      dropped handles and by terminations that failed or were cancelled. */
  method ActiveCount(o: VmOrchestrator, ghost handles: map<Uuid, VmHandle>, ghost tr: seq<State>, ghost acts: seq<Action>)
    returns (n: nat)
    requires Run(tr, acts) && Agrees(o, handles, tr[|acts|])
    ensures n == |handles| + |Ownership.TerminatingTasks(tr[|acts|])| + |tr[|acts|].stray|
    ensures forall vm :: vm in tr[|acts|].stray <==> Ownership.StrayedBefore(tr, acts, |acts|, vm)
  {
    Ownership.RegistryAccounting(tr, acts, |acts|);
    assert |handles| == |handles.Keys|;
    n := o.ActiveCount();
  }
}
