/** What dropping a call does to its VM. The backend's documentation calls every method cancel safe;
    this is when that is so. */
module Cancellation {
  import opened Uuids
  import opened Firecracker
  import opened Lifecycle
  import opened ResumeSafety
  import Ownership

  /** The VM is paused and no snapshot is left to resume it. */
  ghost predicate Stranded(s: State, vm: Uuid) {
    vm in s.servers && s.servers[vm].phase == Paused && forall u :: !MidwayOn(s, vm, u)
  }

  /** A pause of `vm` has been accepted and no resume since. */
  ghost predicate PauseHolds(tr: seq<State>, acts: seq<Action>, i: nat, vm: Uuid)
    requires Run(tr, acts) && i <= |acts|
  {
    exists k :: PausedSince(tr, acts, k, i, vm)
  }

  /** No other call than `t` is a snapshot of `vm` between its pause and its resume. */
  ghost predicate NoOtherMidway(s: State, vm: Uuid, t: nat) {
    forall u :: MidwayOn(s, vm, u) ==> u == t
  }

  lemma CancelStep(s: State, t: nat)
    requires Ownership.Inv(s) && t in s.tasks
    ensures var vm, s' := s.tasks[t].vm, Apply(s, Cancel(t));
            && (vm in s'.servers <==> vm in s.servers && Borrows(s.tasks[t]))
            && (vm in s'.servers ==> s'.servers[vm] == s.servers[vm])
            && forall u :: MidwayOn(s', vm, u) <==> MidwayOn(s, vm, u) && u != t
  {
    assert Apply(s, Cancel(t)) == Cancelled(s, t);
    var vm := s.tasks[t].vm;
    if !Borrows(s.tasks[t]) && vm in s.servers {
      var u :| Ownership.OwnedBy(s, vm, u);
      assert u == t;
    }
  }

  /** At any point of any run, dropping any call strands its VM exactly when the call is a snapshot of
      a live VM that has been paused with no resume accepted since, and no other snapshot of the VM is
      left between its pause and its resume. If the VM was not stranded before, the dropped snapshot is
      itself between its pause and its resume. */
  lemma CancelSafeIff(tr: seq<State>, acts: seq<Action>, i: nat, t: nat, vm: Uuid)
    requires Run(tr, acts) && i < |acts| && acts[i] == Cancel(t) && t in tr[i].tasks && tr[i].tasks[t].vm == vm
    ensures Stranded(tr[i + 1], vm)
            <==> Borrows(tr[i].tasks[t]) && vm in tr[i].servers && PauseHolds(tr, acts, i, vm) && NoOtherMidway(tr[i], vm, t)
    ensures Stranded(tr[i + 1], vm) && !Stranded(tr[i], vm)
            <==> MidwayOn(tr[i], vm, t) && vm in tr[i].servers && PauseHolds(tr, acts, i, vm) && NoOtherMidway(tr[i], vm, t)
  {
    assert StepAt(tr, acts, i);
    Ownership.InvRun(tr, acts, i);
    CancelStep(tr[i], t);
    if vm in tr[i].servers {
      PausedIff(tr, acts, i, vm);
    }
  }

  /** Step `k` is the accepted pause of call `t`, which has been midway since, and no resume of the VM
      has been accepted in between. */
  ghost predicate Holding(tr: seq<State>, acts: seq<Action>, k: nat, i: nat, vm: Uuid, t: nat)
    requires Run(tr, acts) && i <= |acts|
  {
    PausedSince(tr, acts, k, i, vm) && acts[k].t == t && forall m :: k < m <= i ==> MidwayOn(tr[m], vm, t)
  }

  /** With no resume lost, a snapshot with no other midway leaves its VM paused when dropped exactly
      when its own pause still holds the VM. */
  lemma CancelledHolder(tr: seq<State>, acts: seq<Action>, i: nat, t: nat, vm: Uuid)
    requires Run(tr, acts) && i < |acts| && acts[i] == Cancel(t)
    requires t in tr[i].tasks && tr[i].tasks[t].vm == vm && Borrows(tr[i].tasks[t]) && vm in tr[i].servers
    requires NoOtherMidway(tr[i], vm, t) && forall k :: !LostSince(tr, acts, k, i, vm)
    ensures vm in tr[i + 1].servers
    ensures tr[i + 1].servers[vm].phase == Paused <==> exists k :: Holding(tr, acts, k, i, vm, t)
  {
    assert StepAt(tr, acts, i);
    Ownership.InvRun(tr, acts, i);
    CancelStep(tr[i], t);
    PausedIff(tr, acts, i, vm);
    if k: nat :| PausedSince(tr, acts, k, i, vm) {
      forall m | k < m <= i
        ensures MidwayOn(tr[m], vm, acts[k].t)
      {
        PauserFollowed(tr, acts, k, m, i, vm);
      }
      assert MidwayOn(tr[i], vm, acts[k].t);
      assert Holding(tr, acts, k, i, vm, t);
    }
  }

  lemma MidwayFromPause(s: State, a: Action, vm: Uuid, u: nat)
    requires Enabled(s, a) && MidwayOn(Apply(s, a), vm, u)
    ensures MidwayOn(s, vm, u) || PauseTaken(s, a, vm)
  {
  }

  /** A stranded VM stays paused as long as it lives and no further snapshot of it is taken. */
  lemma {:induction false} StrandedStays(tr: seq<State>, acts: seq<Action>, i: nat, j: nat, vm: Uuid)
    requires Run(tr, acts) && i <= j <= |acts| && Stranded(tr[i], vm) && vm in tr[j].servers
    requires forall m :: i <= m < j ==> !PauseTaken(tr[m], acts[m], vm)
    ensures Stranded(tr[j], vm)
    decreases j
  {
    if i < j {
      var s, a := tr[j - 1], acts[j - 1];
      assert StepAt(tr, acts, j - 1);
      Ownership.InvRun(tr, acts, j - 1);
      StillAlive(tr, acts, i, j, vm);
      StrandedStays(tr, acts, i, j - 1, vm);
      PauseStep(s, a, vm);
      assert ResumeTaken(s, a, vm) ==> MidwayOn(s, vm, a.t);
      forall u
        ensures !MidwayOn(tr[j], vm, u)
      {
        if MidwayOn(tr[j], vm, u) {
          MidwayFromPause(s, a, vm, u);
        }
      }
    }
  }

  /** A VM that has been paused and is alive now was alive one step ago: it does not come back. */
  lemma StillAlive(tr: seq<State>, acts: seq<Action>, i: nat, j: nat, vm: Uuid)
    requires Run(tr, acts) && i < j <= |acts| && Stranded(tr[i], vm) && vm in tr[j].servers
    ensures vm in tr[j - 1].servers
  {
    if vm !in tr[j - 1].servers {
      PausedIff(tr, acts, i, vm);
      NewNeverPaused(tr, acts, j - 1, vm);
    }
  }
}
