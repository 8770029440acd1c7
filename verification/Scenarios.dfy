/** Concrete runs that the general theorems are about: a snapshot cancelled midway, and two snapshots
    that overlap. No request fails in either. */
module Scenarios {
  import opened Uuids
  import opened Firecracker
  import opened Lifecycle
  import Cancellation
  import Overlap

  const CONFIG: VmConfig := VmConfig("vmlinux", "rootfs.ext4", 1, 128, "console=ttyS0 reboot=k panic=1 pci=off")

  /** No request, process start or kill of these steps fails for want of a connection or a resource. */
  predicate AllServed(acts: seq<Action>) {
    forall i :: 0 <= i < |acts| ==> Served(acts[i])
  }

  predicate Served(a: Action) {
    a.Launch? || a.SendNext? || a.SendPause? || a.SendCreate? || a.SendResume? || a.Kill? ==> a.ok
  }

  /** One more step of a run, to a known state. */
  lemma Go(tr: seq<State>, acts: seq<Action>, a: Action, next: State) returns (tr': seq<State>, acts': seq<Action>)
    requires Run(tr, acts) && AllServed(acts) && Served(a) && Enabled(tr[|acts|], a) && Apply(tr[|acts|], a) == next
    ensures acts' == acts + [a] && AllServed(acts') && Run(tr', acts') && tr'[|acts'|] == next
  {
    tr', acts' := Extend(tr, acts, a);
  }

  // ---------------------------------------------------------------------------------------------
  // Spawning VM 7
  // ---------------------------------------------------------------------------------------------

  function Unregistered(server: Server, task: Task): State {
    State(map[7 := server], map[], {}, {}, map[0 := task], {7}, {})
  }

  /** VM 7 in the hands of its caller. */
  function Handed(tasks: map<nat, Task>, phase: Phase, drawn: set<Uuid>): State {
    State(map[7 := BootedBy(CONFIG, 4).(phase := phase)], map[], {7}, {7}, tasks, drawn, {})
  }

  function Configured(k: nat): State
    requires k <= 4
  {
    Unregistered(BootedBy(CONFIG, k), if k < 4 then Configuring(7, Boot(CONFIG), k) else Registering(7, Boot(CONFIG)))
  }

  lemma ConfiguredStep(k: nat)
    requires k < 4
    ensures Enabled(Configured(k), SendNext(0, true)) && Apply(Configured(k), SendNext(0, true)) == Configured(k + 1)
  {
    BootStep(CONFIG, k, map[]);
  }

  lemma Launched() returns (tr: seq<State>, acts: seq<Action>)
    ensures Run(tr, acts) && AllServed(acts) && tr[|acts|] == Configured(0)
  {
    var called := State(map[], map[], {}, {}, map[0 := Launching(7, Boot(CONFIG))], {7}, {});
    tr, acts := Go([INIT], [], CallSpawn(0, 7, CONFIG), called);
    BootStep(CONFIG, 0, map[]);
    tr, acts := Go(tr, acts, Launch(0, true), Configured(0));
  }

  lemma Booted(k: nat) returns (tr: seq<State>, acts: seq<Action>)
    requires k <= 4
    ensures Run(tr, acts) && AllServed(acts) && tr[|acts|] == Configured(k)
  {
    if k == 0 {
      tr, acts := Launched();
    } else {
      tr, acts := Booted(k - 1);
      ConfiguredStep(k - 1);
      tr, acts := Go(tr, acts, SendNext(0, true), Configured(k));
    }
  }

  lemma Spawned() returns (tr: seq<State>, acts: seq<Action>)
    ensures Run(tr, acts) && AllServed(acts) && tr[|acts|] == Handed(map[], Running, {7})
  {
    tr, acts := Booted(4);
    tr, acts := Go(tr, acts, Register(0), Handed(map[], Running, {7}));
  }

  // ---------------------------------------------------------------------------------------------
  // Snapshots of VM 7
  // ---------------------------------------------------------------------------------------------

  lemma FirstSnapshot() returns (tr: seq<State>, acts: seq<Action>)
    ensures Run(tr, acts) && AllServed(acts) && tr[|acts|] == Handed(map[0 := SnapPause(7, 8)], Running, {7, 8})
  {
    tr, acts := Spawned();
    tr, acts := Go(tr, acts, CallSnapshot(0, 7), Handed(map[0 := SnapCheck(7)], Running, {7}));
    tr, acts := Go(tr, acts, CheckSnapshot(0, 8), Handed(map[0 := SnapPause(7, 8)], Running, {7, 8}));
  }

  /** The backend is not cancel safe: a run without a failed request ends with no call in flight and a
      held VM paused with nobody left to resume it. */
  lemma CancelLeavesPaused() returns (tr: seq<State>, acts: seq<Action>)
    ensures Run(tr, acts) && AllServed(acts) && var s := tr[|acts|]; s.tasks == map[] && 7 in s.held && Cancellation.Stranded(s, 7)
  {
    tr, acts := FirstSnapshot();
    tr, acts := Go(tr, acts, SendPause(0, true), Handed(map[0 := SnapCreate(7, 8)], Paused, {7, 8}));
    tr, acts := Go(tr, acts, Cancel(0), Handed(map[], Paused, {7, 8}));
  }

  lemma SecondSnapshot() returns (tr: seq<State>, acts: seq<Action>)
    ensures Run(tr, acts) && AllServed(acts)
    ensures tr[|acts|] == Handed(map[0 := SnapPause(7, 8), 1 := SnapPause(7, 9)], Running, {7, 8, 9})
  {
    tr, acts := FirstSnapshot();
    tr, acts := Go(tr, acts, CallSnapshot(1, 7), Handed(map[0 := SnapPause(7, 8), 1 := SnapCheck(7)], Running, {7, 8}));
    tr, acts := Go(tr, acts, CheckSnapshot(1, 9),
                   Handed(map[0 := SnapPause(7, 8), 1 := SnapPause(7, 9)], Running, {7, 8, 9}));
  }

  /** Snapshots are not independent: in a run in which everything is served, one snapshot succeeds and
      makes another fail. */
  lemma OverlapFails() returns (tr: seq<State>, acts: seq<Action>, i: nat, j: nat)
    ensures Run(tr, acts) && AllServed(acts) && i < j < |acts|
    ensures ReplyAt(tr, acts, i) == SnapshotDone(7, 9)
    ensures acts[j] == SendResume(0, true) && ReplyAt(tr, acts, j) == CallFailed
  {
    tr, acts := SecondSnapshot();
    i, j := |acts| + 3, |acts| + 5;
    tr, acts := Overlap.OverlapSpoils(tr, acts, 7, 0, 1, 8, 9);
  }
}
