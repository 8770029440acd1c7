/** Phases of the VMs in every reachable state: why a VM may be paused, and what an Ok spawn gives. */
module ResumeSafety {
  import opened Bytes
  import opened Uuids
  import opened Firecracker
  import opened Lifecycle
  import Ownership

  // ---------------------------------------------------------------------------------------------
  // Steps that pause and resume
  // ---------------------------------------------------------------------------------------------

  /** The step is an accepted pause of `vm`. */
  predicate PauseTaken(s: State, a: Action, vm: Uuid) {
    a.SendPause? && a.t in s.tasks && s.tasks[a.t].vm == vm && Delivered(s, vm, Pause, a.ok)
  }

  /** The step is an accepted resume of `vm`. */
  predicate ResumeTaken(s: State, a: Action, vm: Uuid) {
    a.SendResume? && a.t in s.tasks && s.tasks[a.t].vm == vm && Delivered(s, vm, Resume, a.ok)
  }

  /** The step loses a resume of `vm`: the request fails, or its snapshot is cancelled midway. */
  predicate LosesResume(s: State, a: Action, vm: Uuid) {
    || (a.SendResume? && a.t in s.tasks && s.tasks[a.t].vm == vm && !Delivered(s, vm, Resume, a.ok))
    || (a.Cancel? && a.t in s.tasks && Midway(s.tasks[a.t]) && s.tasks[a.t].vm == vm)
  }

  predicate MidwayOn(s: State, vm: Uuid, t: nat) { t in s.tasks && Midway(s.tasks[t]) && s.tasks[t].vm == vm }

  /** How one step changes whether a live VM is paused. */
  lemma PauseStep(s: State, a: Action, vm: Uuid)
    requires Ownership.Inv(s) && Enabled(s, a) && vm in s.servers && vm in Apply(s, a).servers
    ensures Apply(s, a).servers[vm].phase == Paused
            <==> PauseTaken(s, a, vm) || (s.servers[vm].phase == Paused && !ResumeTaken(s, a, vm))
  {
    if FromOutside(a) {
      PauseOutside(s, a, vm);
    } else if a.Launch? && vm == s.tasks[a.t].vm {
      assert false;
    } else {
      PauseInside(s, a, vm);
    }
  }

  lemma PauseOutside(s: State, a: Action, vm: Uuid)
    requires Enabled(s, a) && FromOutside(a) && vm in s.servers && vm in Apply(s, a).servers
    ensures Apply(s, a).servers[vm].phase == s.servers[vm].phase
  {
  }

  lemma PauseInside(s: State, a: Action, vm: Uuid)
    requires Enabled(s, a) && !FromOutside(a) && vm in s.servers && vm in Apply(s, a).servers
    requires !(a.Launch? && vm == s.tasks[a.t].vm)
    ensures Apply(s, a).servers[vm].phase == Paused
            <==> PauseTaken(s, a, vm) || (s.servers[vm].phase == Paused && !ResumeTaken(s, a, vm))
  {
  }

  lemma OnlyLaunchAdds(s: State, a: Action, vm: Uuid)
    requires Enabled(s, a) && vm !in s.servers && vm in Apply(s, a).servers
    ensures a.Launch? && s.tasks[a.t].vm == vm && Apply(s, a).servers[vm] == FRESH
  {
  }

  /** A snapshot stays midway until its resume is accepted or lost. */
  lemma StillMidway(s: State, a: Action, vm: Uuid, t: nat)
    requires Enabled(s, a) && MidwayOn(s, vm, t) && !ResumeTaken(s, a, vm) && !LosesResume(s, a, vm)
    ensures MidwayOn(Apply(s, a), vm, t)
  {
    if !FromOutside(a) {
      StillMidwayInside(s, a, vm, t);
    }
  }

  lemma StillMidwayInside(s: State, a: Action, vm: Uuid, t: nat)
    requires !FromOutside(a)
    requires Enabled(s, a) && MidwayOn(s, vm, t) && !ResumeTaken(s, a, vm) && !LosesResume(s, a, vm)
    ensures MidwayOn(Apply(s, a), vm, t)
  {
  }

  // ---------------------------------------------------------------------------------------------
  // The invariant
  // ---------------------------------------------------------------------------------------------

  /** What the phase of a new process must be while a call prepares it. */
  predicate Prepared(task: Task, server: Server) {
    match task
    case Configuring(_, goal, acks) =>
      acks < |Requests(goal)| && server == if goal.Load? then FRESH else BootedBy(goal.config, acks)
    case Registering(_, goal) => server.phase == Running && (goal.Boot? ==> Configured(server, goal.config))
    case Reading(_) => server.phase == Running
    case _ => true
  }

  ghost predicate Preparing(s: State) {
    forall t :: t in s.tasks && s.tasks[t].vm in s.servers ==> Prepared(s.tasks[t], s.servers[s.tasks[t].vm])
  }

  /** Only a process that a call is still preparing has not started. */
  ghost predicate Started(s: State) {
    forall vm :: vm in s.servers && vm in s.held ==> s.servers[vm].phase != NotStarted
  }

  ghost predicate Inv(s: State) {
    Ownership.Inv(s) && Preparing(s) && Started(s)
  }

  lemma PreparingStep(s: State, a: Action)
    requires Inv(s) && Enabled(s, a)
    ensures Preparing(Apply(s, a))
  {
    var s' := Apply(s, a);
    forall t | t in s'.tasks && s'.tasks[t].vm in s'.servers
      ensures Prepared(s'.tasks[t], s'.servers[s'.tasks[t].vm])
    {
      if a.SendNext? && a.t == t {
        PreparedNext(s, t, a.ok);
      } else if FromOutside(a) {
        PreparedOutside(s, a, t);
      } else if OfNewProcess(a) {
        PreparedNewProcess(s, a, t);
      } else {
        PreparedStep(s, a, t);
      }
    }
  }

  lemma PreparedNext(s: State, t: nat, ok: bool)
    requires Enabled(s, SendNext(t, ok)) && Preparing(s)
    requires var s' := Apply(s, SendNext(t, ok)); t in s'.tasks && s'.tasks[t].vm in s'.servers
    ensures var s' := Apply(s, SendNext(t, ok)); Prepared(s'.tasks[t], s'.servers[s'.tasks[t].vm])
  {
    var task := s.tasks[t];
    if !task.goal.Load? {
      BootStep(task.goal.config, task.acks, s.disk);
    }
  }

  lemma PreparedOutside(s: State, a: Action, t: nat)
    requires Enabled(s, a) && FromOutside(a) && Ownership.Exclusive(s) && Ownership.Borrowing(s) && Preparing(s)
    requires t in Apply(s, a).tasks && Apply(s, a).tasks[t].vm in Apply(s, a).servers
    ensures Prepared(Apply(s, a).tasks[t], Apply(s, a).servers[Apply(s, a).tasks[t].vm])
  {
  }

  lemma PreparedNewProcess(s: State, a: Action, t: nat)
    requires Enabled(s, a) && OfNewProcess(a) && !(a.SendNext? && a.t == t)
    requires Ownership.Exclusive(s) && Ownership.Borrowing(s) && Preparing(s)
    requires t in Apply(s, a).tasks && Apply(s, a).tasks[t].vm in Apply(s, a).servers
    ensures Prepared(Apply(s, a).tasks[t], Apply(s, a).servers[Apply(s, a).tasks[t].vm])
  {
  }

  lemma PreparedStep(s: State, a: Action, t: nat)
    requires Enabled(s, a) && !FromOutside(a) && !OfNewProcess(a)
    requires Ownership.Exclusive(s) && Ownership.Borrowing(s) && Preparing(s)
    requires t in Apply(s, a).tasks && Apply(s, a).tasks[t].vm in Apply(s, a).servers
    ensures Prepared(Apply(s, a).tasks[t], Apply(s, a).servers[Apply(s, a).tasks[t].vm])
  {
  }

  lemma StartedStep(s: State, a: Action)
    requires Ownership.Borrowing(s) && Preparing(s) && Started(s) && Enabled(s, a)
    ensures Started(Apply(s, a))
  {
  }

  lemma {:induction false} InvRun(tr: seq<State>, acts: seq<Action>, i: nat)
    requires Run(tr, acts) && i <= |acts|
    ensures Inv(tr[i])
  {
    Ownership.InvRun(tr, acts, i);
    if i > 0 {
      assert StepAt(tr, acts, i - 1);
      InvRun(tr, acts, i - 1);
      PreparingStep(tr[i - 1], acts[i - 1]);
      StartedStep(tr[i - 1], acts[i - 1]);
    }
  }

  // ---------------------------------------------------------------------------------------------
  // Pauses and resumes in a run
  // ---------------------------------------------------------------------------------------------

  /** No resume of `vm` is accepted after step `k` and before step `i`. */
  ghost predicate NoResume(tr: seq<State>, acts: seq<Action>, k: int, i: nat, vm: Uuid)
    requires Run(tr, acts) && -1 <= k < i <= |acts|
  {
    forall m :: k < m < i ==> !ResumeTaken(tr[m], acts[m], vm)
  }

  /** Step `k` pauses `vm`, and no resume is accepted from there to step `i`. */
  ghost predicate PausedSince(tr: seq<State>, acts: seq<Action>, k: nat, i: nat, vm: Uuid)
    requires Run(tr, acts) && i <= |acts|
  {
    k < i && PauseTaken(tr[k], acts[k], vm) && NoResume(tr, acts, k, i, vm)
  }

  /** Step `k` loses a resume of `vm`, and none is accepted from there to step `i`. */
  ghost predicate LostSince(tr: seq<State>, acts: seq<Action>, k: nat, i: nat, vm: Uuid)
    requires Run(tr, acts) && i <= |acts|
  {
    k < i && LosesResume(tr[k], acts[k], vm) && NoResume(tr, acts, k, i, vm)
  }

  /** A process that comes up is not paused, and its VM has never been paused before. */
  lemma NewNeverPaused(tr: seq<State>, acts: seq<Action>, i: nat, vm: Uuid)
    requires Run(tr, acts) && i < |acts| && vm !in tr[i].servers && vm in tr[i + 1].servers
    ensures tr[i + 1].servers[vm].phase == NotStarted
    ensures forall k :: 0 <= k <= i ==> !PauseTaken(tr[k], acts[k], vm)
  {
    assert StepAt(tr, acts, i);
    OnlyLaunchAdds(tr[i], acts[i], vm);
    forall k | 0 <= k <= i
      ensures !PauseTaken(tr[k], acts[k], vm)
    {
      if PauseTaken(tr[k], acts[k], vm) {
        assert StepAt(tr, acts, k);
        Ownership.InvRun(tr, acts, k);
        assert Ownership.Past(tr[k], vm);
        Ownership.PastRun(tr, acts, k, i, vm);
      }
    }
  }

  // ---------------------------------------------------------------------------------------------
  // Theorems over every run
  // ---------------------------------------------------------------------------------------------

  /** A live VM is paused exactly when a pause has been accepted and no resume since. */
  lemma {:induction false} PausedIff(tr: seq<State>, acts: seq<Action>, i: nat, vm: Uuid)
    requires Run(tr, acts) && i <= |acts| && vm in tr[i].servers
    ensures tr[i].servers[vm].phase == Paused <==> exists k :: PausedSince(tr, acts, k, i, vm)
  {
    var s, a := tr[i - 1], acts[i - 1];
    assert StepAt(tr, acts, i - 1);
    if vm !in s.servers {
      NewNeverPaused(tr, acts, i - 1, vm);
    } else {
      PausedIff(tr, acts, i - 1, vm);
      Ownership.InvRun(tr, acts, i - 1);
      PauseStep(s, a, vm);
      if PauseTaken(s, a, vm) {
        assert PausedSince(tr, acts, i - 1, i, vm);
      } else if s.servers[vm].phase == Paused && !ResumeTaken(s, a, vm) {
        var k :| PausedSince(tr, acts, k, i - 1, vm);
        assert PausedSince(tr, acts, k, i, vm);
      } else if k: nat :| PausedSince(tr, acts, k, i, vm) {
        assert k < i - 1 && PausedSince(tr, acts, k, i - 1, vm);
      }
    }
  }

  /** As long as no resume is accepted or lost, the snapshot that paused a VM stays midway. */
  lemma {:induction false} PauserFollowed(tr: seq<State>, acts: seq<Action>, k: nat, m: nat, i: nat, vm: Uuid)
    requires Run(tr, acts) && i <= |acts| && PausedSince(tr, acts, k, i, vm) && k < m <= i
    requires forall l :: !LostSince(tr, acts, l, i, vm)
    ensures MidwayOn(tr[m], vm, acts[k].t)
    decreases m
  {
    assert StepAt(tr, acts, m - 1);
    if m - 1 > k {
      PauserFollowed(tr, acts, k, m - 1, i, vm);
      assert !LostSince(tr, acts, m - 1, i, vm);
      StillMidway(tr[m - 1], acts[m - 1], vm, acts[k].t);
    }
  }

  /** Whatever snapshots overlap and whichever of their requests fail, a paused VM has a snapshot
      between its pause and its resume, or has lost a resume and got none since. */
  lemma PausedIsExplained(tr: seq<State>, acts: seq<Action>, i: nat, vm: Uuid)
    requires Run(tr, acts) && i <= |acts| && vm in tr[i].servers && tr[i].servers[vm].phase == Paused
    ensures (exists t :: MidwayOn(tr[i], vm, t)) || exists k :: LostSince(tr, acts, k, i, vm)
  {
    PausedIff(tr, acts, i, vm);
    if forall k :: !LostSince(tr, acts, k, i, vm) {
      var k: nat :| PausedSince(tr, acts, k, i, vm);
      PauserFollowed(tr, acts, k, i, i, vm);
    }
  }

  /** So a caller whose snapshots have all returned holds a running VM, unless a resume has been lost
      and none accepted since. */
  lemma QuiescentIsRunning(tr: seq<State>, acts: seq<Action>, i: nat, vm: Uuid)
    requires Run(tr, acts) && i <= |acts| && vm in tr[i].servers && vm in tr[i].held
    requires (forall t :: !MidwayOn(tr[i], vm, t)) && forall k :: !LostSince(tr, acts, k, i, vm)
    ensures tr[i].servers[vm].phase == Running
  {
    InvRun(tr, acts, i);
    if tr[i].servers[vm].phase == Paused {
      PausedIsExplained(tr, acts, i, vm);
    }
  }

  /** A VM about to be handed out, unless its process has died meanwhile, is running, and after a
      spawn it has exactly the configuration asked for. */
  lemma HandedOutRunning(tr: seq<State>, acts: seq<Action>, i: nat, t: nat, vm: Uuid, goal: Goal)
    requires Run(tr, acts) && i <= |acts| && t in tr[i].tasks && tr[i].tasks[t] == Registering(vm, goal) && vm in tr[i].servers
    ensures tr[i].servers[vm].phase == Running
    ensures goal.Boot? ==>
              && tr[i].servers[vm].bootSource == Some((goal.config.kernelPath, goal.config.bootArgs))
              && tr[i].servers[vm].rootDrive == Some(goal.config.rootfsPath)
              && tr[i].servers[vm].machine == Some((goal.config.vcpuCount, goal.config.memSizeMib))
  {
    InvRun(tr, acts, i);
  }

  /** The start request is only ever the next one for a process that has acknowledged the kernel, the
      drive and the machine configuration of the same call and has not started. */
  lemma StartAfterConfiguration(tr: seq<State>, acts: seq<Action>, i: nat, t: nat, vm: Uuid, goal: Goal, acks: nat)
    requires Run(tr, acts) && i <= |acts| && t in tr[i].tasks && tr[i].tasks[t] == Configuring(vm, goal, acks)
    requires vm in tr[i].servers && acks < |Requests(goal)| && Requests(goal)[acks] == InstanceStart
    ensures !goal.Load? && Configured(tr[i].servers[vm], goal.config) && tr[i].servers[vm].phase == NotStarted
  {
    InvRun(tr, acts, i);
  }
}
