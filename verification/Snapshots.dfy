/** Snapshot files over whole runs: what a restore takes up is what the snapshot froze. */
module Snapshots {
  import opened Uuids
  import opened Firecracker
  import opened Lifecycle
  import Ownership

  /** The snapshot is still to be written. */
  predicate Unwritten(task: Task) { task.SnapPause? || task.SnapCreate? }

  /** Files come in pairs, under drawn ids. */
  ghost predicate Paired(s: State) {
    forall x :: (MemFile(x) in s.disk <==> StateFile(x) in s.disk) && (MemFile(x) in s.disk ==> x in s.drawn)
  }

  /** A snapshot still to be written has no files under its id ... */
  ghost predicate Reserved(s: State) {
    forall t :: t in s.tasks && Unwritten(s.tasks[t]) ==> s.tasks[t].snap in s.drawn && MemFile(s.tasks[t].snap) !in s.disk
  }

  /** ... and shares that id with no other. */
  ghost predicate Separate(s: State) {
    forall t, u :: t in s.tasks && u in s.tasks && t != u && Unwritten(s.tasks[t]) && Unwritten(s.tasks[u])
                   ==> s.tasks[t].snap != s.tasks[u].snap
  }

  ghost predicate Inv(s: State) { Paired(s) && Reserved(s) && Separate(s) }

  lemma PairedStep(s: State, a: Action)
    requires Inv(s) && Enabled(s, a) && !a.SendNext?
    ensures Paired(Apply(s, a))
  {
    if FromOutside(a) {
      PairedOutside(s, a);
    } else {
      PairedInside(s, a);
    }
  }

  lemma PairedOutside(s: State, a: Action)
    requires FromOutside(a)
    requires Inv(s) && Enabled(s, a) && !a.SendNext?
    ensures Paired(Apply(s, a))
  {
  }

  lemma PairedInside(s: State, a: Action)
    requires !FromOutside(a)
    requires Inv(s) && Enabled(s, a) && !a.SendNext?
    ensures Paired(Apply(s, a))
  {
  }

  lemma PairedNext(s: State, a: Action)
    requires Inv(s) && Enabled(s, a) && a.SendNext?
    ensures Paired(Apply(s, a))
  {
  }

  lemma ReservedStep(s: State, a: Action)
    requires Inv(s) && Enabled(s, a) && !a.SendNext?
    ensures Reserved(Apply(s, a))
  {
    if FromOutside(a) {
      ReservedOutside(s, a);
    } else {
      ReservedInside(s, a);
    }
  }

  lemma ReservedOutside(s: State, a: Action)
    requires FromOutside(a)
    requires Inv(s) && Enabled(s, a) && !a.SendNext?
    ensures Reserved(Apply(s, a))
  {
  }

  lemma ReservedInside(s: State, a: Action)
    requires !FromOutside(a)
    requires Inv(s) && Enabled(s, a) && !a.SendNext?
    ensures Reserved(Apply(s, a))
  {
  }

  lemma ReservedNext(s: State, a: Action)
    requires Inv(s) && Enabled(s, a) && a.SendNext?
    ensures Reserved(Apply(s, a))
  {
  }

  lemma SeparateStep(s: State, a: Action)
    requires Inv(s) && Enabled(s, a) && !a.SendNext?
    ensures Separate(Apply(s, a))
  {
    if FromOutside(a) {
      SeparateOutside(s, a);
    } else {
      SeparateInside(s, a);
    }
  }

  lemma SeparateOutside(s: State, a: Action)
    requires FromOutside(a)
    requires Inv(s) && Enabled(s, a) && !a.SendNext?
    ensures Separate(Apply(s, a))
  {
  }

  lemma SeparateInside(s: State, a: Action)
    requires !FromOutside(a)
    requires Inv(s) && Enabled(s, a) && !a.SendNext?
    ensures Separate(Apply(s, a))
  {
  }

  lemma SeparateNext(s: State, a: Action)
    requires Inv(s) && Enabled(s, a) && a.SendNext?
    ensures Separate(Apply(s, a))
  {
  }

  lemma HoldsStep(s: State, a: Action, snap: Uuid, guest: Guest)
    requires Inv(s) && Enabled(s, a) && Holds(s.disk, snap, guest) && !a.SendNext?
    ensures Holds(Apply(s, a).disk, snap, guest)
  {
    if FromOutside(a) {
      HoldsOutside(s, a, snap, guest);
    } else {
      HoldsInside(s, a, snap, guest);
    }
  }

  lemma HoldsOutside(s: State, a: Action, snap: Uuid, guest: Guest)
    requires FromOutside(a)
    requires Inv(s) && Enabled(s, a) && Holds(s.disk, snap, guest) && !a.SendNext?
    ensures Holds(Apply(s, a).disk, snap, guest)
  {
  }

  lemma HoldsInside(s: State, a: Action, snap: Uuid, guest: Guest)
    requires !FromOutside(a)
    requires Inv(s) && Enabled(s, a) && Holds(s.disk, snap, guest) && !a.SendNext?
    ensures Holds(Apply(s, a).disk, snap, guest)
  {
  }

  lemma HoldsNext(s: State, a: Action, snap: Uuid, guest: Guest)
    requires Inv(s) && Enabled(s, a) && Holds(s.disk, snap, guest) && a.SendNext?
    ensures Holds(Apply(s, a).disk, snap, guest)
  {
  }

  /** Every action keeps the invariant. */
  lemma InvStep(s: State, a: Action)
    requires Inv(s) && Enabled(s, a)
    ensures Inv(Apply(s, a))
  {
    if a.SendNext? {
      PairedNext(s, a);
      ReservedNext(s, a);
      SeparateNext(s, a);
    } else {
      PairedStep(s, a);
      ReservedStep(s, a);
      SeparateStep(s, a);
    }
  }

  /** No action touches the files of a snapshot that has been written. */
  lemma FilesKept(s: State, a: Action, snap: Uuid, guest: Guest)
    requires Inv(s) && Enabled(s, a) && Holds(s.disk, snap, guest)
    ensures Holds(Apply(s, a).disk, snap, guest)
  {
    if a.SendNext? {
      HoldsNext(s, a, snap, guest);
    } else {
      HoldsStep(s, a, snap, guest);
    }
  }

  lemma {:induction false} InvRun(tr: seq<State>, acts: seq<Action>, i: nat)
    requires Run(tr, acts) && i <= |acts|
    ensures Inv(tr[i])
  {
    if i > 0 {
      assert StepAt(tr, acts, i - 1);
      InvRun(tr, acts, i - 1);
      InvStep(tr[i - 1], acts[i - 1]);
    }
  }

  /** Once written, the files of a snapshot keep their contents for ever. */
  lemma {:induction false} FilesPersist(tr: seq<State>, acts: seq<Action>, i: nat, j: nat, snap: Uuid, guest: Guest)
    requires Run(tr, acts) && i <= j <= |acts| && Holds(tr[i].disk, snap, guest)
    ensures Holds(tr[j].disk, snap, guest)
    decreases j
  {
    if i < j {
      assert StepAt(tr, acts, j - 1);
      FilesPersist(tr, acts, i, j - 1, snap, guest);
      InvRun(tr, acts, j - 1);
      FilesKept(tr[j - 1], acts[j - 1], snap, guest);
    }
  }

  /** The step is the accepted creation of `snap` from `vm`. */
  predicate Freezes(s: State, a: Action, vm: Uuid, snap: Uuid) {
    a.SendCreate? && a.t in s.tasks && s.tasks[a.t] == SnapCreate(vm, snap) && Delivered(s, vm, CreateRequest(snap), a.ok)
  }

  /** The step is the accepted load of `snap` into the new VM `vm`. */
  predicate Loads(s: State, a: Action, vm: Uuid, snap: Uuid) {
    && a.SendNext? && a.t in s.tasks && s.tasks[a.t] == Configuring(vm, Load(snap), 0)
    && Delivered(s, vm, Requests(Load(snap))[0], a.ok)
  }

  /** A call only learns in its own creation step that its snapshot has been written. */
  lemma WrittenStep(s: State, a: Action, t: nat)
    requires Enabled(s, a)
    requires var s' := Apply(s, a); t in s'.tasks && s'.tasks[t].SnapResume? && s'.tasks[t].created
    ensures var task := Apply(s, a).tasks[t]; t in s.tasks && (s.tasks[t] == task || Freezes(s, a, task.vm, task.snap))
  {
  }

  /** A snapshot that has been written was frozen at some earlier step. */
  lemma {:induction false} WhenFrozen(tr: seq<State>, acts: seq<Action>, i: nat, t: nat) returns (k: nat)
    requires Run(tr, acts) && i <= |acts| && t in tr[i].tasks && tr[i].tasks[t].SnapResume? && tr[i].tasks[t].created
    ensures k < i && Freezes(tr[k], acts[k], tr[i].tasks[t].vm, tr[i].tasks[t].snap)
  {
    var s, a := tr[i - 1], acts[i - 1];
    assert StepAt(tr, acts, i - 1);
    WrittenStep(s, a, t);
    if s.tasks[t] == tr[i].tasks[t] {
      k := WhenFrozen(tr, acts, i - 1, t);
    } else {
      k := i - 1;
    }
  }

  lemma FreezingWrites(s: State, a: Action, vm: Uuid, snap: Uuid)
    requires Enabled(s, a) && Freezes(s, a, vm, snap)
    ensures vm in s.servers && s.servers[vm].phase == Paused && Holds(Apply(s, a).disk, snap, s.servers[vm].guest)
  {
  }

  lemma LoadingReads(s: State, a: Action, vm: Uuid, snap: Uuid, guest: Guest)
    requires Enabled(s, a) && Loads(s, a, vm, snap) && Holds(s.disk, snap, guest)
    ensures vm in Apply(s, a).servers
    ensures Apply(s, a).servers[vm].phase == Running && Apply(s, a).servers[vm].guest == guest
  {
  }

  lemma HeldFilesFound(s: State, a: Action, snap: Uuid, guest: Guest)
    requires Enabled(s, a) && Holds(s.disk, snap, guest)
    ensures ReplyOf(s, a) != FilesNotFound(snap)
  {
  }

  /** What a later step makes of a snapshot with this guest: a restore finds its files, and a load
      that is accepted starts a running VM with this guest. */
  ghost predicate Resumes(tr: seq<State>, acts: seq<Action>, j: nat, snap: Uuid, guest: Guest)
    requires Run(tr, acts) && j < |acts|
  {
    && ReplyAt(tr, acts, j) != FilesNotFound(snap)
    && forall vm :: Loads(tr[j], acts[j], vm, snap) ==>
         vm in tr[j + 1].servers && tr[j + 1].servers[vm].phase == Running && tr[j + 1].servers[vm].guest == guest
  }

  lemma HeldResumes(tr: seq<State>, acts: seq<Action>, j: nat, snap: Uuid, guest: Guest)
    requires Run(tr, acts) && j < |acts| && Holds(tr[j].disk, snap, guest)
    ensures Resumes(tr, acts, j, snap, guest)
  {
    assert StepAt(tr, acts, j);
    HeldFilesFound(tr[j], acts[j], snap, guest);
    forall vm | Loads(tr[j], acts[j], vm, snap)
      ensures vm in tr[j + 1].servers && tr[j + 1].servers[vm].phase == Running && tr[j + 1].servers[vm].guest == guest
    {
      LoadingReads(tr[j], acts[j], vm, snap, guest);
    }
  }

  /** If a snapshot returned Ok(snap), then there is an earlier step that froze the paused guest, and
      at every later point of the run, whatever spawns, snapshots, guest steps, terminations, crashes
      and cancellations came between, a restore of `snap` finds its files and a load that is accepted
      starts a running VM with exactly that guest. */
  lemma RestoreResumesFrozenGuest(tr: seq<State>, acts: seq<Action>, i: nat, vm: Uuid, snap: Uuid) returns (k: nat)
    requires Run(tr, acts) && i < |acts| && ReplyAt(tr, acts, i) == SnapshotDone(vm, snap)
    ensures k < i && Freezes(tr[k], acts[k], vm, snap)
    ensures vm in tr[k].servers && tr[k].servers[vm].phase == Paused
    ensures forall j :: i < j < |acts| ==> Resumes(tr, acts, j, snap, tr[k].servers[vm].guest)
  {
    assert StepAt(tr, acts, i);
    k := WhenFrozen(tr, acts, i, acts[i].t);
    assert StepAt(tr, acts, k);
    FreezingWrites(tr[k], acts[k], vm, snap);
    var guest := tr[k].servers[vm].guest;
    forall j | i < j < |acts|
      ensures Resumes(tr, acts, j, snap, guest)
    {
      FilesPersist(tr, acts, k + 1, j, snap, guest);
      HeldResumes(tr, acts, j, snap, guest);
    }
  }

  // ---------------------------------------------------------------------------------------------
  // Every restore, whether or not its snapshot has returned yet
  // ---------------------------------------------------------------------------------------------

  lemma WritingStep(s: State, a: Action, snap: Uuid)
    requires Inv(s) && Enabled(s, a) && !FilesExist(s, snap) && FilesExist(Apply(s, a), snap)
    ensures a.SendCreate? && Freezes(s, a, s.tasks[a.t].vm, snap)
  {
  }

  /** Snapshot files only come from an accepted creation, and still hold the guest it froze. */
  lemma {:induction false} WhenWritten(tr: seq<State>, acts: seq<Action>, j: nat, snap: Uuid) returns (k: nat, vm: Uuid)
    requires Run(tr, acts) && j <= |acts| && FilesExist(tr[j], snap)
    ensures k < j && Freezes(tr[k], acts[k], vm, snap) && vm in tr[k].servers && Holds(tr[j].disk, snap, tr[k].servers[vm].guest)
  {
    var s, a := tr[j - 1], acts[j - 1];
    assert StepAt(tr, acts, j - 1);
    InvRun(tr, acts, j - 1);
    if FilesExist(s, snap) {
      k, vm := WhenWritten(tr, acts, j - 1, snap);
      FilesKept(s, a, snap, tr[k].servers[vm].guest);
    } else {
      WritingStep(s, a, snap);
      k, vm := j - 1, s.tasks[a.t].vm;
      FreezingWrites(s, a, vm, snap);
    }
  }

  lemma LoadedStep(s: State, a: Action, t: nat, vm: Uuid, snap: Uuid)
    requires Enabled(s, a) && t in Apply(s, a).tasks && Apply(s, a).tasks[t] == Registering(vm, Load(snap))
    ensures t in s.tasks && (s.tasks[t] == Registering(vm, Load(snap)) || Loads(s, a, vm, snap))
  {
  }

  /** A restore about to return has loaded its snapshot at an earlier step. */
  lemma {:induction false} WhenLoaded(tr: seq<State>, acts: seq<Action>, i: nat, t: nat, vm: Uuid, snap: Uuid) returns (j: nat)
    requires Run(tr, acts) && i <= |acts| && t in tr[i].tasks && tr[i].tasks[t] == Registering(vm, Load(snap))
    ensures j < i && Loads(tr[j], acts[j], vm, snap)
  {
    assert StepAt(tr, acts, i - 1);
    LoadedStep(tr[i - 1], acts[i - 1], t, vm, snap);
    if tr[i - 1].tasks[t] == Registering(vm, Load(snap)) {
      j := WhenLoaded(tr, acts, i - 1, t, vm, snap);
    } else {
      j := i - 1;
    }
  }

  /** The VM whose guest was frozen is not the one it is restored into. */
  lemma SourceIsOther(tr: seq<State>, acts: seq<Action>, k: nat, j: nat, source: Uuid, restored: Uuid, snap: Uuid)
    requires Run(tr, acts) && k < j < |acts| && Freezes(tr[k], acts[k], source, snap) && Loads(tr[j], acts[j], restored, snap)
    ensures source != restored
  {
    Ownership.InvRun(tr, acts, k);
    assert Ownership.Past(tr[k], source);
    Ownership.PastRun(tr, acts, k, j, source);
  }

  /** A restore that returns Ok(restored) took up, at some step before, exactly the guest of another VM
      that an accepted creation of that snapshot froze before that; and its id was never registered
      before, not even for a VM that is gone. */
  lemma RestoredFromFrozen(tr: seq<State>, acts: seq<Action>, i: nat, restored: Uuid, snap: Uuid)
    returns (k: nat, source: Uuid, j: nat)
    requires Run(tr, acts) && i < |acts| && ReplyAt(tr, acts, i) == Restored(restored, snap)
    ensures k < j < i && Freezes(tr[k], acts[k], source, snap) && Loads(tr[j], acts[j], restored, snap)
    ensures source != restored && source in tr[k].servers && restored in tr[j + 1].servers
    ensures tr[j + 1].servers[restored].guest == tr[k].servers[source].guest
    ensures forall m :: 0 <= m <= i ==> restored !in tr[m].active
  {
    assert StepAt(tr, acts, i);
    j := WhenLoaded(tr, acts, i, acts[i].t, restored, snap);
    assert StepAt(tr, acts, j);
    LoadNeedsFiles(tr[j], acts[j], restored, snap);
    k, source := WhenWritten(tr, acts, j, snap);
    LoadingReads(tr[j], acts[j], restored, snap, tr[k].servers[source].guest);
    SourceIsOther(tr, acts, k, j, source, restored, snap);
    forall m | 0 <= m <= i
      ensures restored !in tr[m].active
    {
      Ownership.HandedOutIdsAreNew(tr, acts, m, i, restored);
    }
  }

  lemma LoadNeedsFiles(s: State, a: Action, vm: Uuid, snap: Uuid)
    requires Loads(s, a, vm, snap)
    ensures FilesExist(s, snap)
  {
  }
}
