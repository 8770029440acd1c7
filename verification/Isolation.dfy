/** Calls that nothing interrupts. Each theorem runs the steps of one call back to back, from any state
    whose identifiers have been drawn and whose held handles are registered, as in every reachable one,
    and gives the whole state afterwards. */
module Isolation {
  import opened Uuids
  import opened Firecracker
  import opened Lifecycle
  import Backend
  import Ownership

  /** Send the requests that are left, `up[i]` saying whether the connection serves the i-th of them,
      until one fails. */
  ghost function SendAll(s: State, t: nat, up: seq<bool>): State
    decreases |up|
  {
    if up == [] || !Enabled(s, SendNext(t, up[0])) then s else SendAll(Apply(s, SendNext(t, up[0])), t, up[1..])
  }

  /** Register the VM if the call has got that far. */
  ghost function Finish(s: State, t: nat): State {
    if Enabled(s, Register(t)) then Apply(s, Register(t)) else s
  }

  ghost function LaunchAndFinish(s: State, t: nat, execOk: bool, up: seq<bool>): State
    requires Enabled(s, Launch(t, execOk))
  {
    Finish(SendAll(Apply(s, Launch(t, execOk)), t, up), t)
  }

  ghost function RunSpawn(s: State, t: nat, vm: Uuid, config: VmConfig, execOk: bool, up: seq<bool>): State
    requires Enabled(s, CallSpawn(t, vm, config))
  {
    LaunchAndFinish(Apply(s, CallSpawn(t, vm, config)), t, execOk, up)
  }

  ghost function RunRestore(s: State, t: nat, vm: Uuid, snap: Uuid, execOk: bool, loadOk: bool): State
    requires Enabled(s, CallRestore(t, vm, snap))
  {
    var called := Apply(s, CallRestore(t, vm, snap));
    if FilesExist(s, snap) then LaunchAndFinish(called, t, execOk, [loadOk]) else called
  }

  ghost function RunTerminate(s: State, t: nat, vm: Uuid, killOk: bool): State
    requires Enabled(s, CallTerminate(t, vm))
  {
    KillAndUnregister(Apply(Apply(s, CallTerminate(t, vm)), CheckTerminate(t)), t, killOk)
  }

  ghost function KillAndUnregister(s: State, t: nat, killOk: bool): State {
    if !Enabled(s, Kill(t, killOk)) then s else UnregisterLeft(Apply(s, Kill(t, killOk)), t)
  }

  ghost function UnregisterLeft(s: State, t: nat): State {
    if Enabled(s, Unregister(t)) then Apply(s, Unregister(t)) else s
  }

  ghost function RunSnapshot(s: State, t: nat, vm: Uuid, snap: Uuid, pauseOk: bool, createOk: bool, resumeOk: bool): State
    requires Enabled(s, CallSnapshot(t, vm)) && snap !in s.drawn
  {
    PauseCreateResume(Apply(Apply(s, CallSnapshot(t, vm)), CheckSnapshot(t, snap)), t, pauseOk, createOk, resumeOk)
  }

  ghost function PauseCreateResume(s: State, t: nat, pauseOk: bool, createOk: bool, resumeOk: bool): State {
    if !Enabled(s, SendPause(t, pauseOk)) then s else CreateResume(Apply(s, SendPause(t, pauseOk)), t, createOk, resumeOk)
  }

  ghost function CreateResume(s: State, t: nat, createOk: bool, resumeOk: bool): State {
    if !Enabled(s, SendCreate(t, createOk)) then s else Apply(Apply(s, SendCreate(t, createOk)), SendResume(t, resumeOk))
  }

  /** A new VM in the hands of the caller. */
  function HandOut(s: State, vm: Uuid, server: Server): State {
    s.(servers := s.servers[vm := server], active := s.active + {vm}, held := s.held + {vm}, drawn := s.drawn + {vm})
  }

  /** A spawn on its own hands out a registered VM, running with exactly the configuration, when
      everything it needs is served; otherwise nothing but the drawn identifier remains of it. */
  lemma UninterruptedSpawn(s: State, t: nat, vm: Uuid, config: VmConfig, execOk: bool, up: seq<bool>)
    requires Ownership.Drawn(s) && Enabled(s, CallSpawn(t, vm, config)) && |up| == 4
    ensures RunSpawn(s, t, vm, config, execOk, up)
         == if execOk && Backend.Accepted(up) == 4 then HandOut(s, vm, BootedBy(config, 4)) else s.(drawn := s.drawn + {vm})
    ensures Configured(BootedBy(config, 4), config)
  {
    var called := Apply(s, CallSpawn(t, vm, config));
    assert called == s.(tasks := s.tasks[t := Launching(vm, Boot(config))], drawn := s.drawn + {vm});
    Launched(s, t, vm, Boot(config), execOk);
    if execOk {
      BootAlone(Fresh(s, t, vm, Boot(config)), t, vm, Boot(config), 0, up);
      Finished(s, t, vm, Boot(config), BootedBy(config, 4), SendAll(Fresh(s, t, vm, Boot(config)), t, up));
    }
  }

  /** The call with a fresh process to configure. */
  function Fresh(s: State, t: nat, vm: Uuid, goal: Goal): State {
    s.(servers := s.servers[vm := FRESH], tasks := s.tasks[t := Configuring(vm, goal, 0)], drawn := s.drawn + {vm})
  }

  lemma Launched(s: State, t: nat, vm: Uuid, goal: Goal, execOk: bool)
    requires t !in s.tasks
    ensures var called := s.(tasks := s.tasks[t := Launching(vm, goal)], drawn := s.drawn + {vm});
            Apply(called, Launch(t, execOk)) == if execOk then Fresh(s, t, vm, goal) else s.(drawn := s.drawn + {vm})
  {
    var called := s.(tasks := s.tasks[t := Launching(vm, goal)], drawn := s.drawn + {vm});
    PutDrop(s.tasks, t, Launching(vm, goal));
    assert called.tasks[t := Configuring(vm, goal, 0)] == s.tasks[t := Configuring(vm, goal, 0)];
  }

  /** What the end of the call makes of a process that has accepted all its requests, and of one that
      has not and is dead. */
  lemma Finished(s: State, t: nat, vm: Uuid, goal: Goal, server: Server, sent: State)
    requires Ownership.Drawn(s) && t !in s.tasks && vm !in s.drawn
    requires var ready := Fresh(s, t, vm, goal);
             || sent == Put(ready, t, Registering(vm, goal)).(servers := ready.servers[vm := server])
             || sent == Dies(End(ready, t), vm)
    ensures Finish(sent, t) == if t in sent.tasks then HandOut(s, vm, server) else s.(drawn := s.drawn + {vm})
  {
    NewIsDead(s, vm);
    PutDrop(s.servers, vm, FRESH);
    PutDrop(s.tasks, t, Configuring(vm, goal, 0));
    PutDrop(s.tasks, t, Registering(vm, goal));
    var ready := Fresh(s, t, vm, goal);
    assert ready.servers[vm := server] == s.servers[vm := server];
    assert ready.tasks[t := Registering(vm, goal)] == s.tasks[t := Registering(vm, goal)];
  }

  /** Nothing runs under an identifier that has not been drawn. */
  lemma NewIsDead(s: State, vm: Uuid)
    requires Ownership.Drawn(s) && vm !in s.drawn
    ensures vm !in s.servers
  {
  }

  lemma PutDrop<K, V>(m: map<K, V>, k: K, v: V)
    requires k !in m
    ensures m[k := v] - {k} == m
  {
  }

  /** What a call does once its process is up. */
  function Onward(vm: Uuid, goal: Goal): Task { if goal.Execute? then Reading(vm) else Registering(vm, goal) }

  /** From the k-th boot request on. */
  lemma {:induction false} BootAlone(s: State, t: nat, vm: Uuid, goal: Goal, k: nat, up: seq<bool>)
    requires !goal.Load? && t in s.tasks && s.tasks[t] == Configuring(vm, goal, k) && k < 4 && |up| == 4 - k
    requires vm in s.servers && s.servers[vm] == BootedBy(goal.config, k)
    ensures SendAll(s, t, up)
         == if Backend.Accepted(up) == |up|
            then Put(s, t, Onward(vm, goal)).(servers := s.servers[vm := BootedBy(goal.config, 4)])
            else Dies(End(s, t), vm)
    decreases |up|
  {
    BootStep(goal.config, k, s.disk);
    var s' := Apply(s, SendNext(t, up[0]));
    if up[0] && k < 3 {
      BootAlone(s', t, vm, goal, k + 1, up[1..]);
    }
  }

  /** The steps of `execute_command`, read to the end if it gets that far. */
  ghost function RunExecute(s: State, t: nat, vm: Uuid, config: VmConfig, execOk: bool, up: seq<bool>): State
    requires Enabled(s, CallExecute(t, vm, config))
  {
    Read(SendAll(Apply(Apply(s, CallExecute(t, vm, config)), Launch(t, execOk)), t, up), t)
  }

  ghost function Read(s: State, t: nat): State {
    if Enabled(s, FinishReading(t)) then Apply(s, FinishReading(t)) else s
  }

  /** A command run on its own leaves nothing but the drawn identifier, however it ends. */
  lemma UninterruptedExecute(s: State, t: nat, vm: Uuid, config: VmConfig, execOk: bool, up: seq<bool>)
    requires Ownership.Drawn(s) && Enabled(s, CallExecute(t, vm, config)) && |up| == 4
    ensures RunExecute(s, t, vm, config, execOk, up) == s.(drawn := s.drawn + {vm})
  {
    var goal := Execute(config);
    var called := Apply(s, CallExecute(t, vm, config));
    assert called == s.(tasks := s.tasks[t := Launching(vm, goal)], drawn := s.drawn + {vm});
    Launched(s, t, vm, goal, execOk);
    if execOk {
      BootAlone(Fresh(s, t, vm, goal), t, vm, goal, 0, up);
      ReadAndGone(s, t, vm, goal, BootedBy(config, 4), SendAll(Fresh(s, t, vm, goal), t, up));
    }
  }

  lemma ReadAndGone(s: State, t: nat, vm: Uuid, goal: Goal, server: Server, sent: State)
    requires Ownership.Drawn(s) && t !in s.tasks && vm !in s.drawn
    requires var ready := Fresh(s, t, vm, goal);
             || sent == Put(ready, t, Reading(vm)).(servers := ready.servers[vm := server])
             || sent == Dies(End(ready, t), vm)
    ensures Read(sent, t) == s.(drawn := s.drawn + {vm})
  {
    NewIsDead(s, vm);
    PutDrop(s.servers, vm, FRESH);
    PutDrop(s.servers, vm, server);
    PutDrop(s.tasks, t, Configuring(vm, goal, 0));
    PutDrop(s.tasks, t, Reading(vm));
    var ready := Fresh(s, t, vm, goal);
    assert ready.servers[vm := server] == s.servers[vm := server];
    assert ready.tasks[t := Reading(vm)] == s.tasks[t := Reading(vm)];
  }

  /** A restore on its own finds the files or changes nothing; served, it hands out a registered VM,
      running, with exactly the guest in the files. */
  lemma UninterruptedRestore(s: State, t: nat, vm: Uuid, snap: Uuid, execOk: bool, loadOk: bool)
    requires Ownership.Drawn(s) && Enabled(s, CallRestore(t, vm, snap))
    ensures RunRestore(s, t, vm, snap, execOk, loadOk)
         == if !FilesExist(s, snap) then s
            else if execOk && loadOk
            then HandOut(s, vm, Loaded(s.disk, snap))
            else s.(drawn := s.drawn + {vm})
  {
    if FilesExist(s, snap) {
      var called := Apply(s, CallRestore(t, vm, snap));
      assert called == s.(tasks := s.tasks[t := Launching(vm, Load(snap))], drawn := s.drawn + {vm});
      Launched(s, t, vm, Load(snap), execOk);
      if execOk {
        LoadAlone(Fresh(s, t, vm, Load(snap)), t, vm, snap, loadOk);
        Finished(s, t, vm, Load(snap), Loaded(s.disk, snap), SendAll(Fresh(s, t, vm, Load(snap)), t, [loadOk]));
      }
    }
  }

  lemma LoadAlone(s: State, t: nat, vm: Uuid, snap: Uuid, loadOk: bool)
    requires t in s.tasks && s.tasks[t] == Configuring(vm, Load(snap), 0) && FilesExist(s, snap)
    requires vm in s.servers && s.servers[vm] == FRESH
    ensures SendAll(s, t, [loadOk])
         == if loadOk then Put(s, t, Registering(vm, Load(snap))).(servers := s.servers[vm := Loaded(s.disk, snap)])
            else Dies(End(s, t), vm)
  {
    assert SendAll(s, t, [loadOk]) == SendAll(Apply(s, SendNext(t, loadOk)), t, []);
  }

  /** A terminate on its own always kills the process; the id leaves the registry exactly when the kill
      is reported to succeed and is stray otherwise. */
  lemma UninterruptedTerminate(s: State, t: nat, vm: Uuid, killOk: bool)
    requires Ownership.Registered(s) && Enabled(s, CallTerminate(t, vm))
    ensures RunTerminate(s, t, vm, killOk)
         == (if killOk then s.(active := s.active - {vm}) else s.(stray := s.stray + {vm}))
            .(servers := s.servers - {vm}, held := s.held - {vm})
  {
    TerminateChecked(s, t, vm);
    KilledAndOn(s.(held := s.held - {vm}), t, vm, killOk);
  }

  lemma KilledAndOn(s: State, t: nat, vm: Uuid, killOk: bool)
    requires t !in s.tasks
    ensures KillAndUnregister(Put(s, t, TermKill(vm)), t, killOk)
         == (if killOk then s.(active := s.active - {vm}) else s.(stray := s.stray + {vm})).(servers := s.servers - {vm})
  {
    Killed(s, t, vm, killOk);
    if killOk {
      PutDrop(s.tasks, t, TermUnregister(vm));
    }
  }

  lemma TerminateChecked(s: State, t: nat, vm: Uuid)
    requires Ownership.Registered(s) && Enabled(s, CallTerminate(t, vm))
    ensures Apply(Apply(s, CallTerminate(t, vm)), CheckTerminate(t)) == Put(s.(held := s.held - {vm}), t, TermKill(vm))
  {
    assert s.tasks[t := TermCheck(vm)][t := TermKill(vm)] == s.tasks[t := TermKill(vm)];
  }

  lemma Killed(s: State, t: nat, vm: Uuid, ok: bool)
    requires t !in s.tasks
    ensures Apply(Put(s, t, TermKill(vm)), Kill(t, ok))
         == if ok then Put(Dies(s, vm), t, TermUnregister(vm)) else Dies(s, vm).(stray := s.stray + {vm})
  {
    PutDrop(s.tasks, t, TermKill(vm));
    assert s.tasks[t := TermKill(vm)][t := TermUnregister(vm)] == s.tasks[t := TermUnregister(vm)];
  }

  /** A snapshot on its own writes the guest's files exactly when pause and creation succeed, leaves the
      VM paused exactly when the pause took and the resume did not, and touches nothing else. */
  lemma UninterruptedSnapshot(s: State, t: nat, vm: Uuid, snap: Uuid, pauseOk: bool, createOk: bool, resumeOk: bool)
    requires Ownership.Registered(s) && Enabled(s, CallSnapshot(t, vm)) && snap !in s.drawn
    ensures RunSnapshot(s, t, vm, snap, pauseOk, createOk, resumeOk)
         == Snapped(s.(drawn := s.drawn + {snap}), vm, snap, pauseOk, createOk, resumeOk)
  {
    SnapshotChecked(s, t, vm, snap);
    PausedAndOn(s.(drawn := s.drawn + {snap}), t, vm, snap, pauseOk, createOk, resumeOk);
  }

  lemma PausedAndOn(s: State, t: nat, vm: Uuid, snap: Uuid, pauseOk: bool, createOk: bool, resumeOk: bool)
    requires t !in s.tasks
    ensures PauseCreateResume(Put(s, t, SnapPause(vm, snap)), t, pauseOk, createOk, resumeOk)
         == Snapped(s, vm, snap, pauseOk, createOk, resumeOk)
  {
    SnapshotPaused(s, t, vm, snap, pauseOk);
    if Delivered(s, vm, Pause, pauseOk) {
      var frozen := Frozen(s, vm);
      CreatedAndResumed(frozen, t, vm, snap, createOk, resumeOk);
      SnappedFrozen(s, vm, snap, createOk, resumeOk);
      assert Put(s, t, SnapPause(vm, snap)).tasks[t] == SnapPause(vm, snap);
    }
  }

  function Frozen(s: State, vm: Uuid): State
    requires vm in s.servers
  {
    s.(servers := s.servers[vm := s.servers[vm].(phase := Paused)])
  }

  lemma SnappedFrozen(s: State, vm: Uuid, snap: Uuid, createOk: bool, resumeOk: bool)
    requires vm in s.servers && s.servers[vm].phase != NotStarted
    ensures Snapped(Frozen(s, vm), vm, snap, true, createOk, resumeOk) == Snapped(s, vm, snap, true, createOk, resumeOk)
  {
  }

  /** The effect of a snapshot for each outcome of its requests. */
  function Snapped(s: State, vm: Uuid, snap: Uuid, pauseOk: bool, createOk: bool, resumeOk: bool): State {
    if !(vm in s.servers && Backend.PauseTakes(true, s.servers[vm], pauseOk)) then s
    else s.(servers := s.servers[vm := Backend.SnapshotServer(true, s.servers[vm], pauseOk, resumeOk)],
            disk := if createOk then Written(s.disk, snap, s.servers[vm].guest) else s.disk)
  }

  lemma CreatedAndResumed(s: State, t: nat, vm: Uuid, snap: Uuid, createOk: bool, resumeOk: bool)
    requires t !in s.tasks && vm in s.servers && s.servers[vm].phase == Paused
    ensures CreateResume(Put(s, t, SnapCreate(vm, snap)), t, createOk, resumeOk) == Snapped(s, vm, snap, true, createOk, resumeOk)
  {
    SnapshotCreated(s, t, vm, snap, createOk);
    var written := s.(disk := if createOk then Written(s.disk, snap, s.servers[vm].guest) else s.disk);
    SnapshotResumed(written, t, vm, snap, createOk, resumeOk);
    assert s.servers[vm := s.servers[vm].(phase := Paused)] == s.servers;
  }

  lemma SnapshotChecked(s: State, t: nat, vm: Uuid, snap: Uuid)
    requires Ownership.Registered(s) && Enabled(s, CallSnapshot(t, vm)) && snap !in s.drawn
    ensures Apply(Apply(s, CallSnapshot(t, vm)), CheckSnapshot(t, snap))
         == Put(s.(drawn := s.drawn + {snap}), t, SnapPause(vm, snap))
  {
    assert s.tasks[t := SnapCheck(vm)][t := SnapPause(vm, snap)] == s.tasks[t := SnapPause(vm, snap)];
  }

  lemma SnapshotPaused(s: State, t: nat, vm: Uuid, snap: Uuid, ok: bool)
    requires t !in s.tasks
    ensures Apply(Put(s, t, SnapPause(vm, snap)), SendPause(t, ok))
         == if Delivered(s, vm, Pause, ok)
            then Put(Frozen(s, vm), t, SnapCreate(vm, snap))
            else s
  {
    PutDrop(s.tasks, t, SnapPause(vm, snap));
    assert s.tasks[t := SnapPause(vm, snap)][t := SnapCreate(vm, snap)] == s.tasks[t := SnapCreate(vm, snap)];
  }

  lemma SnapshotCreated(s: State, t: nat, vm: Uuid, snap: Uuid, ok: bool)
    requires vm in s.servers && s.servers[vm].phase == Paused
    ensures Apply(Put(s, t, SnapCreate(vm, snap)), SendCreate(t, ok))
         == Put(s.(disk := if ok then Written(s.disk, snap, s.servers[vm].guest) else s.disk), t, SnapResume(vm, snap, ok))
  {
    assert s.tasks[t := SnapCreate(vm, snap)][t := SnapResume(vm, snap, ok)] == s.tasks[t := SnapResume(vm, snap, ok)];
    assert s.servers[vm := s.servers[vm]] == s.servers;
  }

  lemma SnapshotResumed(s: State, t: nat, vm: Uuid, snap: Uuid, created: bool, ok: bool)
    requires t !in s.tasks && vm in s.servers && s.servers[vm].phase == Paused
    ensures Apply(Put(s, t, SnapResume(vm, snap, created)), SendResume(t, ok))
         == if ok then s.(servers := s.servers[vm := s.servers[vm].(phase := Running)]) else s
  {
    PutDrop(s.tasks, t, SnapResume(vm, snap, created));
  }

  // ---------------------------------------------------------------------------------------------
  // The steps above go on from any run to a longer one
  // ---------------------------------------------------------------------------------------------

  /** `(tr', acts')` is a run that starts with the run `(tr, acts)` and ends in `last`. */
  ghost predicate GoesOn(tr: seq<State>, acts: seq<Action>, tr': seq<State>, acts': seq<Action>, last: State) {
    Run(tr', acts') && tr <= tr' && acts <= acts' && tr'[|acts'|] == last
  }

  lemma Step(tr: seq<State>, acts: seq<Action>, a: Action) returns (tr': seq<State>, acts': seq<Action>)
    requires Run(tr, acts) && Enabled(tr[|acts|], a)
    ensures GoesOn(tr, acts, tr', acts', Apply(tr[|acts|], a))
  {
    tr', acts' := Extend(tr, acts, a);
  }

  lemma {:induction false} ReachSendAll(tr: seq<State>, acts: seq<Action>, t: nat, up: seq<bool>)
    returns (tr': seq<State>, acts': seq<Action>)
    requires Run(tr, acts)
    ensures GoesOn(tr, acts, tr', acts', SendAll(tr[|acts|], t, up))
    decreases |up|
  {
    tr', acts' := tr, acts;
    if up != [] && Enabled(tr[|acts|], SendNext(t, up[0])) {
      tr', acts' := Step(tr', acts', SendNext(t, up[0]));
      tr', acts' := ReachSendAll(tr', acts', t, up[1..]);
    }
  }

  lemma ReachLaunchAndFinish(tr: seq<State>, acts: seq<Action>, t: nat, execOk: bool, up: seq<bool>)
    returns (tr': seq<State>, acts': seq<Action>)
    requires Run(tr, acts) && Enabled(tr[|acts|], Launch(t, execOk))
    ensures GoesOn(tr, acts, tr', acts', LaunchAndFinish(tr[|acts|], t, execOk, up))
  {
    tr', acts' := Step(tr, acts, Launch(t, execOk));
    tr', acts' := ReachSendAll(tr', acts', t, up);
    if Enabled(tr'[|acts'|], Register(t)) {
      tr', acts' := Step(tr', acts', Register(t));
    }
  }

  lemma ReachSpawn(tr: seq<State>, acts: seq<Action>, t: nat, vm: Uuid, config: VmConfig, execOk: bool, up: seq<bool>)
    returns (tr': seq<State>, acts': seq<Action>)
    requires Run(tr, acts) && Enabled(tr[|acts|], CallSpawn(t, vm, config))
    ensures GoesOn(tr, acts, tr', acts', RunSpawn(tr[|acts|], t, vm, config, execOk, up))
  {
    tr', acts' := Step(tr, acts, CallSpawn(t, vm, config));
    tr', acts' := ReachLaunchAndFinish(tr', acts', t, execOk, up);
  }

  lemma ReachRestore(tr: seq<State>, acts: seq<Action>, t: nat, vm: Uuid, snap: Uuid, execOk: bool, loadOk: bool)
    returns (tr': seq<State>, acts': seq<Action>)
    requires Run(tr, acts) && Enabled(tr[|acts|], CallRestore(t, vm, snap))
    ensures GoesOn(tr, acts, tr', acts', RunRestore(tr[|acts|], t, vm, snap, execOk, loadOk))
  {
    tr', acts' := Step(tr, acts, CallRestore(t, vm, snap));
    if FilesExist(tr[|acts|], snap) {
      tr', acts' := ReachLaunchAndFinish(tr', acts', t, execOk, [loadOk]);
    }
  }

  lemma ReachTerminate(tr: seq<State>, acts: seq<Action>, t: nat, vm: Uuid, killOk: bool)
    returns (tr': seq<State>, acts': seq<Action>)
    requires Run(tr, acts) && Enabled(tr[|acts|], CallTerminate(t, vm))
    ensures GoesOn(tr, acts, tr', acts', RunTerminate(tr[|acts|], t, vm, killOk))
  {
    tr', acts' := Step(tr, acts, CallTerminate(t, vm));
    tr', acts' := Step(tr', acts', CheckTerminate(t));
    tr', acts' := ReachKillAndUnregister(tr', acts', t, killOk);
  }

  lemma ReachKillAndUnregister(tr: seq<State>, acts: seq<Action>, t: nat, killOk: bool)
    returns (tr': seq<State>, acts': seq<Action>)
    requires Run(tr, acts)
    ensures GoesOn(tr, acts, tr', acts', KillAndUnregister(tr[|acts|], t, killOk))
  {
    tr', acts' := tr, acts;
    if Enabled(tr[|acts|], Kill(t, killOk)) {
      tr', acts' := Step(tr', acts', Kill(t, killOk));
      if Enabled(tr'[|acts'|], Unregister(t)) {
        tr', acts' := Step(tr', acts', Unregister(t));
      }
    }
  }

  lemma ReachSnapshot(tr: seq<State>, acts: seq<Action>, t: nat, vm: Uuid, snap: Uuid, pauseOk: bool, createOk: bool, resumeOk: bool)
    returns (tr': seq<State>, acts': seq<Action>)
    requires Run(tr, acts) && Enabled(tr[|acts|], CallSnapshot(t, vm)) && snap !in tr[|acts|].drawn
    ensures GoesOn(tr, acts, tr', acts', RunSnapshot(tr[|acts|], t, vm, snap, pauseOk, createOk, resumeOk))
  {
    tr', acts' := Step(tr, acts, CallSnapshot(t, vm));
    tr', acts' := Step(tr', acts', CheckSnapshot(t, snap));
    tr', acts' := ReachPauseCreateResume(tr', acts', t, pauseOk, createOk, resumeOk);
  }

  lemma ReachPauseCreateResume(tr: seq<State>, acts: seq<Action>, t: nat, pauseOk: bool, createOk: bool, resumeOk: bool)
    returns (tr': seq<State>, acts': seq<Action>)
    requires Run(tr, acts)
    ensures GoesOn(tr, acts, tr', acts', PauseCreateResume(tr[|acts|], t, pauseOk, createOk, resumeOk))
  {
    tr', acts' := tr, acts;
    if Enabled(tr[|acts|], SendPause(t, pauseOk)) {
      tr', acts' := Step(tr', acts', SendPause(t, pauseOk));
      tr', acts' := ReachCreateResume(tr', acts', t, createOk, resumeOk);
    }
  }

  lemma ReachCreateResume(tr: seq<State>, acts: seq<Action>, t: nat, createOk: bool, resumeOk: bool)
    returns (tr': seq<State>, acts': seq<Action>)
    requires Run(tr, acts)
    ensures GoesOn(tr, acts, tr', acts', CreateResume(tr[|acts|], t, createOk, resumeOk))
  {
    tr', acts' := tr, acts;
    if Enabled(tr[|acts|], SendCreate(t, createOk)) {
      tr', acts' := Step(tr', acts', SendCreate(t, createOk));
      tr', acts' := Step(tr', acts', SendResume(t, resumeOk));
    }
  }
}
