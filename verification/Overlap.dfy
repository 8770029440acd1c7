/** Snapshots of one VM that overlap. All orchestrator operations may be called concurrently; what two
    snapshots then do to each other. */
module Overlap {
  import opened Uuids
  import opened Firecracker
  import opened Lifecycle
  import opened ResumeSafety
  import Ownership

  /** Steps `k`, `j` and `i` are the pause, creation and resume of one snapshot call. */
  ghost predicate SnapshotCall(tr: seq<State>, acts: seq<Action>, t: nat, vm: Uuid, snap: Uuid, k: nat, j: nat, i: nat)
    requires Run(tr, acts)
  {
    && k < j < i < |acts|
    && acts[k].SendPause? && acts[k].t == t && t in tr[k].tasks && tr[k].tasks[t] == SnapPause(vm, snap)
    && acts[j].SendCreate? && acts[j].t == t
    && (forall m :: k < m <= j ==> t in tr[m].tasks && tr[m].tasks[t] == SnapCreate(vm, snap))
    && acts[i].SendResume? && acts[i].t == t
    && t in tr[j + 1].tasks && (forall m :: j < m <= i ==> t in tr[m].tasks && tr[m].tasks[t] == tr[j + 1].tasks[t])
  }

  /** Pause and creation are sent to a live process over a working connection. */
  ghost predicate Served(tr: seq<State>, acts: seq<Action>, vm: Uuid, k: nat, j: nat)
    requires Run(tr, acts) && k < |acts| && acts[k].SendPause? && j < |acts| && acts[j].SendCreate?
  {
    acts[k].ok && vm in tr[k].servers && acts[j].ok && vm in tr[j].servers
  }

  /** The resume of another snapshot is accepted at step `m` and nothing pauses the VM again before
      step `j`. */
  ghost predicate Disturbed(tr: seq<State>, acts: seq<Action>, vm: Uuid, m: nat, j: nat)
    requires Run(tr, acts) && j <= |acts|
  {
    m < j && ResumeTaken(tr[m], acts[m], vm) && forall p :: m < p < j ==> !PauseTaken(tr[p], acts[p], vm)
  }

  ghost predicate Undisturbed(tr: seq<State>, acts: seq<Action>, vm: Uuid, k: nat, j: nat)
    requires Run(tr, acts) && j <= |acts|
  {
    forall m :: k < m ==> !Disturbed(tr, acts, vm, m, j)
  }

  /** After an accepted pause a live VM is paused exactly when its last resume since, if any, has been
      followed by another pause. */
  lemma {:induction false} PausedUnlessDisturbed(tr: seq<State>, acts: seq<Action>, k: nat, j: nat, vm: Uuid)
    requires Run(tr, acts) && k < j <= |acts| && PauseTaken(tr[k], acts[k], vm) && vm in tr[j].servers
    ensures tr[j].servers[vm].phase == Paused <==> Undisturbed(tr, acts, vm, k, j)
    decreases j
  {
    var s, a := tr[j - 1], acts[j - 1];
    assert StepAt(tr, acts, j - 1);
    Ownership.InvRun(tr, acts, j - 1);
    if vm !in s.servers {
      NewNeverPaused(tr, acts, j - 1, vm);
    }
    PauseStep(s, a, vm);
    if ResumeTaken(s, a, vm) {
      assert k < j - 1 && Disturbed(tr, acts, vm, j - 1, j);
    } else if !PauseTaken(s, a, vm) {
      PausedUnlessDisturbed(tr, acts, k, j - 1, vm);
      UndisturbedNext(tr, acts, vm, k, j);
    }
  }

  lemma DisturbedNext(tr: seq<State>, acts: seq<Action>, vm: Uuid, m: nat, j: nat)
    requires Run(tr, acts) && 0 < j <= |acts|
    requires !ResumeTaken(tr[j - 1], acts[j - 1], vm) && !PauseTaken(tr[j - 1], acts[j - 1], vm)
    ensures Disturbed(tr, acts, vm, m, j) <==> Disturbed(tr, acts, vm, m, j - 1)
  {
  }

  lemma UndisturbedNext(tr: seq<State>, acts: seq<Action>, vm: Uuid, k: nat, j: nat)
    requires Run(tr, acts) && 0 < j <= |acts|
    requires !ResumeTaken(tr[j - 1], acts[j - 1], vm) && !PauseTaken(tr[j - 1], acts[j - 1], vm)
    ensures Undisturbed(tr, acts, vm, k, j) <==> Undisturbed(tr, acts, vm, k, j - 1)
  {
    var before := j - 1;
    if m: nat :| k < m && Disturbed(tr, acts, vm, m, j) {
      DisturbedNext(tr, acts, vm, m, j);
    } else if m: nat :| k < m && Disturbed(tr, acts, vm, m, before) {
      DisturbedNext(tr, acts, vm, m, j);
    }
  }

  lemma CreateStep(s: State, t: nat, vm: Uuid, snap: Uuid)
    requires t in s.tasks && s.tasks[t] == SnapCreate(vm, snap) && vm in s.servers
    ensures var s' := Apply(s, SendCreate(t, true));
            t in s'.tasks && s'.tasks[t] == SnapResume(vm, snap, s.servers[vm].phase == Paused)
  {
  }

  /** A snapshot whose requests all reach a live process returns Ok exactly when no other snapshot's
      resume is accepted between its pause and its creation without another pause following it. */
  lemma SnapshotOkIff(tr: seq<State>, acts: seq<Action>, t: nat, vm: Uuid, snap: Uuid, k: nat, j: nat, i: nat)
    requires Run(tr, acts) && SnapshotCall(tr, acts, t, vm, snap, k, j, i) && Served(tr, acts, vm, k, j)
    ensures ReplyAt(tr, acts, i)
         == if Undisturbed(tr, acts, vm, k, j) then SnapshotDone(vm, snap) else CallFailed
  {
    assert StepAt(tr, acts, k) && StepAt(tr, acts, j) && StepAt(tr, acts, i);
    assert tr[k + 1].tasks[t] == SnapCreate(vm, snap);
    PauseWasTaken(tr[k], acts[k], vm, snap);
    PausedUnlessDisturbed(tr, acts, k, j, vm);
    CreateStep(tr[j], t, vm, snap);
  }

  lemma PauseWasTaken(s: State, a: Action, vm: Uuid, snap: Uuid)
    requires Enabled(s, a) && a.SendPause? && s.tasks[a.t] == SnapPause(vm, snap)
    requires a.t in Apply(s, a).tasks
    ensures PauseTaken(s, a, vm)
  {
  }

  // ---------------------------------------------------------------------------------------------
  // Two overlapping snapshots with every request served
  // ---------------------------------------------------------------------------------------------

  /** Two calls on one live VM, by what they do next. */
  predicate Both(s: State, vm: Uuid, t: nat, a: Task, u: nat, b: Task, phase: Phase) {
    && t != u && t in s.tasks && s.tasks[t] == a && u in s.tasks && s.tasks[u] == b
    && vm in s.servers && s.servers[vm].phase == phase
  }

  /** A schedule in which `u` takes its snapshot between the pause and the creation of `t`. */
  function Schedule(t: nat, u: nat): seq<Action> {
    [SendPause(t, true), SendPause(u, true), SendCreate(u, true), SendResume(u, true), SendCreate(t, true), SendResume(t, true)]
  }

  lemma PausedWithOther(s: State, vm: Uuid, t: nat, u: nat, x: Uuid, other: Task, phase: Phase)
    requires Both(s, vm, t, SnapPause(vm, x), u, other, phase) && phase != NotStarted
    ensures Both(Apply(s, SendPause(t, true)), vm, t, SnapCreate(vm, x), u, other, Paused)
  {
  }

  lemma OneCreates(s: State, vm: Uuid, t: nat, u: nat, x: Uuid, y: Uuid)
    requires Both(s, vm, t, SnapCreate(vm, x), u, SnapCreate(vm, y), Paused)
    ensures Both(Apply(s, SendCreate(u, true)), vm, t, SnapCreate(vm, x), u, SnapResume(vm, y, true), Paused)
  {
  }

  lemma OtherRefused(s: State, vm: Uuid, t: nat, u: nat, x: Uuid, y: Uuid)
    requires Both(s, vm, t, SnapCreate(vm, x), u, SnapResume(vm, y, true), Paused)
    ensures var s4 := Apply(s, SendResume(u, true));
            && t in s4.tasks && s4.tasks[t] == SnapCreate(vm, x) && vm in s4.servers && s4.servers[vm].phase == Running
            && var s5 := Apply(s4, SendCreate(t, true)); t in s5.tasks && s5.tasks[t] == SnapResume(vm, x, false)
  {
  }

  lemma PauseWithOther(tr: seq<State>, acts: seq<Action>, vm: Uuid, t: nat, u: nat, x: Uuid, other: Task, phase: Phase)
    returns (tr': seq<State>, acts': seq<Action>)
    requires Run(tr, acts) && Both(tr[|acts|], vm, t, SnapPause(vm, x), u, other, phase) && phase != NotStarted
    ensures acts' == acts + [SendPause(t, true)] && Run(tr', acts')
    ensures Both(tr'[|acts'|], vm, t, SnapCreate(vm, x), u, other, Paused)
  {
    PausedWithOther(tr[|acts|], vm, t, u, x, other, phase);
    tr', acts' := Extend(tr, acts, SendPause(t, true));
  }

  lemma FirstThree(tr: seq<State>, acts: seq<Action>, vm: Uuid, t: nat, u: nat, x: Uuid, y: Uuid)
    returns (tr': seq<State>, acts': seq<Action>)
    requires Run(tr, acts) && Both(tr[|acts|], vm, t, SnapPause(vm, x), u, SnapPause(vm, y), Running)
    ensures acts' == acts + Schedule(t, u)[..3] && Run(tr', acts')
    ensures Both(tr'[|acts'|], vm, t, SnapCreate(vm, x), u, SnapResume(vm, y, true), Paused)
  {
    tr', acts' := PauseWithOther(tr, acts, vm, t, u, x, SnapPause(vm, y), Running);
    tr', acts' := PauseWithOther(tr', acts', vm, u, t, y, SnapCreate(vm, x), Paused);
    OneCreates(tr'[|acts'|], vm, t, u, x, y);
    tr', acts' := Extend(tr', acts', SendCreate(u, true));
  }

  lemma LastThree(tr: seq<State>, acts: seq<Action>, vm: Uuid, t: nat, u: nat, x: Uuid, y: Uuid)
    returns (tr': seq<State>, acts': seq<Action>)
    requires Run(tr, acts) && Both(tr[|acts|], vm, t, SnapCreate(vm, x), u, SnapResume(vm, y, true), Paused)
    ensures acts' == acts + Schedule(t, u)[3..] && Run(tr', acts')
    ensures ReplyAt(tr', acts', |acts|) == SnapshotDone(vm, y) && ReplyAt(tr', acts', |acts| + 2) == CallFailed
  {
    OtherRefused(tr[|acts|], vm, t, u, x, y);
    tr', acts' := Extend(tr, acts, SendResume(u, true));
    tr', acts' := Extend(tr', acts', SendCreate(t, true));
    tr', acts' := Extend(tr', acts', SendResume(t, true));
  }

  /** Wherever two snapshots of a running VM are both about to pause it, some continuation in which
      every request is served lets one succeed and the other fail. */
  lemma OverlapSpoils(tr: seq<State>, acts: seq<Action>, vm: Uuid, t: nat, u: nat, x: Uuid, y: Uuid)
    returns (tr': seq<State>, acts': seq<Action>)
    requires Run(tr, acts) && Both(tr[|acts|], vm, t, SnapPause(vm, x), u, SnapPause(vm, y), Running)
    ensures acts' == acts + Schedule(t, u) && Run(tr', acts')
    ensures ReplyAt(tr', acts', |acts| + 3) == SnapshotDone(vm, y) && ReplyAt(tr', acts', |acts| + 5) == CallFailed
  {
    tr', acts' := FirstThree(tr, acts, vm, t, u, x, y);
    tr', acts' := LastThree(tr', acts', vm, t, u, x, y);
  }
}
