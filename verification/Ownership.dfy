/** Who owns which VM, and what is in the registry, in every reachable state. */
module Ownership {
  import opened Uuids
  import opened Lifecycle

  /** Two calls that do not merely borrow never work on one VM. */
  ghost predicate Exclusive(s: State) {
    forall t, u :: t in s.tasks && u in s.tasks && t != u && !Borrows(s.tasks[t]) && !Borrows(s.tasks[u])
                   ==> s.tasks[t].vm != s.tasks[u].vm
  }

  /** A borrowed handle is held by its caller; any other call works on a VM nobody holds. */
  ghost predicate Borrowing(s: State) {
    forall t :: t in s.tasks ==> (s.tasks[t].vm in s.held <==> Borrows(s.tasks[t]))
  }

  predicate OwnedBy(s: State, vm: Uuid, t: nat) { t in s.tasks && OwnsProcess(s.tasks[t]) && s.tasks[t].vm == vm }

  predicate TerminatedBy(s: State, vm: Uuid, t: nat) { t in s.tasks && Terminates(s.tasks[t]) && s.tasks[t].vm == vm }

  /** Every live process has an owner: a held handle or a call in flight. */
  ghost predicate Owned(s: State) {
    forall vm :: vm in s.servers ==> vm in s.held || exists t :: OwnedBy(s, vm, t)
  }

  ghost predicate Drawn(s: State) {
    && (forall t :: t in s.tasks ==> s.tasks[t].vm in s.drawn)
    && s.active <= s.drawn && s.servers.Keys <= s.drawn
  }

  /** Held and stray ids are registered, and no id is both. */
  ghost predicate Registered(s: State) {
    s.held <= s.active && s.stray <= s.active && s.held !! s.stray
  }

  /** The VM of a call that does not merely borrow is registered exactly while it is being terminated. */
  ghost predicate Unregistered(s: State) {
    forall t :: t in s.tasks && !Borrows(s.tasks[t]) ==>
      (s.tasks[t].vm in s.active <==> Terminates(s.tasks[t])) && s.tasks[t].vm !in s.stray
  }

  /** Every registered id is accounted for. */
  ghost predicate Accounted(s: State) {
    forall vm :: vm in s.active ==> vm in s.held || vm in s.stray || exists t :: TerminatedBy(s, vm, t)
  }

  ghost predicate Inv(s: State) {
    Exclusive(s) && Borrowing(s) && Owned(s) && Drawn(s) && Registered(s) && Unregistered(s) && Accounted(s)
  }

  lemma ExclusiveOutside(s: State, a: Action)
    requires Exclusive(s) && Borrowing(s) && Drawn(s) && Enabled(s, a) && FromOutside(a)
    ensures Exclusive(Apply(s, a))
  {
  }

  lemma ExclusiveStep(s: State, a: Action)
    requires Exclusive(s) && Borrowing(s) && Drawn(s) && Enabled(s, a) && !FromOutside(a) && !a.SendNext?
    ensures Exclusive(Apply(s, a))
  {
  }

  lemma ExclusiveNext(s: State, a: Action)
    requires Exclusive(s) && Borrowing(s) && Drawn(s) && Enabled(s, a) && a.SendNext?
    ensures Exclusive(Apply(s, a))
  {
  }

  lemma BorrowingOutside(s: State, a: Action)
    requires Exclusive(s) && Borrowing(s) && Drawn(s) && Registered(s) && Enabled(s, a) && FromOutside(a)
    ensures Borrowing(Apply(s, a))
  {
  }

  lemma BorrowingStep(s: State, a: Action)
    requires Exclusive(s) && Borrowing(s) && Drawn(s) && Registered(s) && Enabled(s, a) && !FromOutside(a) && !a.SendNext?
    ensures Borrowing(Apply(s, a))
  {
  }

  lemma BorrowingNext(s: State, a: Action)
    requires Exclusive(s) && Borrowing(s) && Drawn(s) && Registered(s) && Enabled(s, a) && a.SendNext?
    ensures Borrowing(Apply(s, a))
  {
  }

  lemma DrawnStep(s: State, a: Action)
    requires Drawn(s) && Registered(s) && Enabled(s, a) && !a.SendNext?
    ensures Drawn(Apply(s, a))
  {
  }

  lemma DrawnNext(s: State, a: Action)
    requires Drawn(s) && Registered(s) && Enabled(s, a) && a.SendNext?
    ensures Drawn(Apply(s, a))
  {
  }

  lemma OwnedStep(s: State, a: Action)
    requires Exclusive(s) && Borrowing(s) && Owned(s) && Enabled(s, a)
    ensures Owned(Apply(s, a))
  {
    var s' := Apply(s, a);
    forall vm | vm in s'.servers && vm !in s'.held
      ensures exists t :: OwnedBy(s', vm, t)
    {
      var t := OwnerStep(s, a, vm);
    }
  }

  /** The owner of a live process that nobody holds after a step. */
  lemma OwnerStep(s: State, a: Action, vm: Uuid) returns (t: nat)
    requires Exclusive(s) && Borrowing(s) && Owned(s) && Enabled(s, a)
    requires vm in Apply(s, a).servers && vm !in Apply(s, a).held
    ensures OwnedBy(Apply(s, a), vm, t)
  {
    if (a.Launch? && vm == s.tasks[a.t].vm) || (a.CallTerminate? && vm == a.vm) {
      t := a.t;
    } else {
      WasOwned(s, a, vm);
      t :| OwnedBy(s, vm, t);
      if FromOutside(a) {
        StillOwnedOutside(s, a, vm, t);
      } else {
        StillOwned(s, a, vm, t);
      }
    }
  }

  lemma WasOwned(s: State, a: Action, vm: Uuid)
    requires Owned(s) && Enabled(s, a) && vm in Apply(s, a).servers && vm !in Apply(s, a).held
    requires !(a.Launch? && vm == s.tasks[a.t].vm) && !(a.CallTerminate? && vm == a.vm)
    ensures vm !in s.held && exists t :: OwnedBy(s, vm, t)
  {
  }

  lemma StillOwnedOutside(s: State, a: Action, vm: Uuid, t: nat)
    requires Enabled(s, a) && FromOutside(a) && OwnedBy(s, vm, t)
    ensures OwnedBy(Apply(s, a), vm, t)
  {
  }

  lemma StillOwned(s: State, a: Action, vm: Uuid, t: nat)
    requires Exclusive(s) && Borrowing(s) && Enabled(s, a) && !FromOutside(a) && OwnedBy(s, vm, t)
    requires vm in Apply(s, a).servers && vm !in Apply(s, a).held
    ensures OwnedBy(Apply(s, a), vm, t)
  {
  }

  lemma RegisteredStep(s: State, a: Action)
    requires Borrowing(s) && Registered(s) && Unregistered(s) && Enabled(s, a) && !a.SendNext?
    ensures Registered(Apply(s, a))
  {
  }

  lemma RegisteredNext(s: State, a: Action)
    requires Borrowing(s) && Registered(s) && Unregistered(s) && Enabled(s, a) && a.SendNext?
    ensures Registered(Apply(s, a))
  {
  }

  lemma UnregisteredOutside(s: State, a: Action)
    requires Exclusive(s) && Borrowing(s) && Drawn(s) && Registered(s) && Unregistered(s) && Enabled(s, a) && FromOutside(a)
    ensures Unregistered(Apply(s, a))
  {
  }

  lemma UnregisteredStep(s: State, a: Action)
    requires Exclusive(s) && Borrowing(s) && Drawn(s) && Registered(s) && Unregistered(s) && Enabled(s, a) && !FromOutside(a) && !a.SendNext?
    ensures Unregistered(Apply(s, a))
  {
  }

  lemma UnregisteredNext(s: State, a: Action)
    requires Exclusive(s) && Borrowing(s) && Drawn(s) && Registered(s) && Unregistered(s) && Enabled(s, a) && a.SendNext?
    ensures Unregistered(Apply(s, a))
  {
  }

  lemma AccountedStep(s: State, a: Action)
    requires Registered(s) && Accounted(s) && Enabled(s, a)
    ensures Accounted(Apply(s, a))
  {
    var s' := Apply(s, a);
    forall vm | vm in s'.active && vm !in s'.held && vm !in s'.stray
      ensures exists t :: TerminatedBy(s', vm, t)
    {
      if a.CallTerminate? && vm == a.vm {
        assert TerminatedBy(s', vm, a.t);
      } else {
        var t :| TerminatedBy(s, vm, t);
        StillTerminated(s, a, vm, t);
      }
    }
  }

  lemma StillTerminated(s: State, a: Action, vm: Uuid, t: nat)
    requires Enabled(s, a) && TerminatedBy(s, vm, t) && vm in Apply(s, a).active && vm !in Apply(s, a).stray
    ensures TerminatedBy(Apply(s, a), vm, t)
  {
    if FromOutside(a) {
      StillTerminatedOutside(s, a, vm, t);
    } else {
      StillTerminatedInside(s, a, vm, t);
    }
  }

  lemma StillTerminatedOutside(s: State, a: Action, vm: Uuid, t: nat)
    requires FromOutside(a)
    requires Enabled(s, a) && TerminatedBy(s, vm, t) && vm in Apply(s, a).active && vm !in Apply(s, a).stray
    ensures TerminatedBy(Apply(s, a), vm, t)
  {
  }

  lemma StillTerminatedInside(s: State, a: Action, vm: Uuid, t: nat)
    requires !FromOutside(a)
    requires Enabled(s, a) && TerminatedBy(s, vm, t) && vm in Apply(s, a).active && vm !in Apply(s, a).stray
    ensures TerminatedBy(Apply(s, a), vm, t)
  {
  }

  /** Every action keeps the invariant. */
  lemma InvStep(s: State, a: Action)
    requires Inv(s) && Enabled(s, a)
    ensures Inv(Apply(s, a))
  {
    OwnedStep(s, a);
    AccountedStep(s, a);
    if a.SendNext? {
      ExclusiveNext(s, a);
      BorrowingNext(s, a);
      DrawnNext(s, a);
      RegisteredNext(s, a);
      UnregisteredNext(s, a);
    } else {
      DrawnStep(s, a);
      RegisteredStep(s, a);
      if FromOutside(a) {
        ExclusiveOutside(s, a);
        BorrowingOutside(s, a);
        UnregisteredOutside(s, a);
      } else {
        ExclusiveStep(s, a);
        BorrowingStep(s, a);
        UnregisteredStep(s, a);
      }
    }
  }

  lemma {:induction false} InvRun(tr: seq<State>, acts: seq<Action>, i: nat)
    requires Run(tr, acts) && i <= |acts|
    ensures Inv(tr[i])
  {
    if i > 0 {
      assert StepAt(tr, acts, i - 1);
      InvRun(tr, acts, i - 1);
      InvStep(tr[i - 1], acts[i - 1]);
    }
  }

  // ---------------------------------------------------------------------------------------------
  // Theorems over every run
  // ---------------------------------------------------------------------------------------------

  /** Every live process has exactly one owner: the caller who holds its handle, or one call in
      flight. So dropping that owner, in whatever way the call ends, never leaves a process behind. */
  lemma SoleOwner(tr: seq<State>, acts: seq<Action>, i: nat, vm: Uuid)
    requires Run(tr, acts) && i <= |acts| && vm in tr[i].servers
    ensures vm in tr[i].held ==> forall t :: !OwnedBy(tr[i], vm, t)
    ensures vm !in tr[i].held ==> exists t :: OwnedBy(tr[i], vm, t) && forall u :: OwnedBy(tr[i], vm, u) ==> u == t
  {
    InvRun(tr, acts, i);
    if vm !in tr[i].held {
      var t :| OwnedBy(tr[i], vm, t);
      assert forall u :: OwnedBy(tr[i], vm, u) ==> u == t;
    }
  }

  function TerminatingTasks(s: State): set<nat> { set t | t in s.tasks && Terminates(s.tasks[t]) }

  function VmsOf(tasks: map<nat, Task>, ts: set<nat>): set<Uuid>
    requires ts <= tasks.Keys
  {
    set t | t in ts :: tasks[t].vm
  }

  /** The ids of the terminations in flight. */
  function Ending(s: State): set<Uuid> { VmsOf(s.tasks, TerminatingTasks(s)) }

  lemma {:induction false} OneVmEach(tasks: map<nat, Task>, ts: set<nat>)
    requires ts <= tasks.Keys && forall t, u :: t in ts && u in ts && t != u ==> tasks[t].vm != tasks[u].vm
    ensures |VmsOf(tasks, ts)| == |ts|
    decreases |ts|
  {
    if ts != {} {
      var t :| t in ts;
      var rest := ts - {t};
      OneVmEach(tasks, rest);
      assert VmsOf(tasks, ts) == VmsOf(tasks, rest) + {tasks[t].vm};
    }
  }

  /** The step leaves `vm` registered with nobody to terminate it: its handle is dropped, or its
      termination fails or is cancelled. */
  predicate Strays(s: State, a: Action, vm: Uuid) {
    || a == DropHandle(vm)
    || (a.Kill? && !a.ok && a.t in s.tasks && s.tasks[a.t].vm == vm)
    || (a.Cancel? && TerminatedBy(s, vm, a.t))
  }

  ghost predicate StrayedBefore(tr: seq<State>, acts: seq<Action>, i: nat, vm: Uuid)
    requires Run(tr, acts) && i <= |acts|
  {
    exists k :: 0 <= k < i && Strays(tr[k], acts[k], vm)
  }

  lemma StrayStep(s: State, a: Action, vm: Uuid)
    requires Enabled(s, a)
    ensures vm in Apply(s, a).stray <==> vm in s.stray || Strays(s, a, vm)
  {
  }

  lemma {:induction false} StrayIffStrayed(tr: seq<State>, acts: seq<Action>, i: nat, vm: Uuid)
    requires Run(tr, acts) && i <= |acts|
    ensures vm in tr[i].stray <==> StrayedBefore(tr, acts, i, vm)
  {
    if i > 0 {
      assert StepAt(tr, acts, i - 1);
      StrayIffStrayed(tr, acts, i - 1, vm);
      StrayStep(tr[i - 1], acts[i - 1], vm);
    }
  }

  /** The registry is the disjoint union of the held ids, the ids of the terminations in flight and
      the stray ids, those whose handle has been dropped or whose termination has failed or been
      cancelled before; and `active_count` is the sum of the three. */
  lemma RegistryAccounting(tr: seq<State>, acts: seq<Action>, i: nat)
    requires Run(tr, acts) && i <= |acts|
    ensures var s := tr[i];
            && s.active == s.held + Ending(s) + s.stray
            && s.held !! Ending(s) && Ending(s) !! s.stray && s.held !! s.stray
            && |s.active| == |s.held| + |TerminatingTasks(s)| + |s.stray|
    ensures forall vm :: vm in tr[i].stray <==> StrayedBefore(tr, acts, i, vm)
  {
    InvRun(tr, acts, i);
    Accounts(tr[i]);
    forall vm
      ensures vm in tr[i].stray <==> StrayedBefore(tr, acts, i, vm)
    {
      StrayIffStrayed(tr, acts, i, vm);
    }
  }

  lemma Accounts(s: State)
    requires Inv(s)
    ensures s.active == s.held + Ending(s) + s.stray
    ensures s.held !! Ending(s) && Ending(s) !! s.stray && s.held !! s.stray
    ensures |s.active| == |s.held| + |TerminatingTasks(s)| + |s.stray|
  {
    forall vm
      ensures vm in Ending(s) <==> exists t :: TerminatedBy(s, vm, t)
    {
      InEnding(s, vm);
    }
    forall vm
      ensures vm in s.active <==> vm in s.held || vm in Ending(s) || vm in s.stray
      ensures vm in Ending(s) ==> vm !in s.held && vm !in s.stray
    {
      AccountsOne(s, vm);
    }
    OneVmEach(s.tasks, TerminatingTasks(s));
    Sizes(s.active, s.held, Ending(s), s.stray);
  }

  lemma InEnding(s: State, vm: Uuid)
    ensures vm in Ending(s) <==> exists t :: TerminatedBy(s, vm, t)
  {
    if vm in Ending(s) {
      var t :| t in TerminatingTasks(s) && s.tasks[t].vm == vm;
      assert TerminatedBy(s, vm, t);
    }
    if t :| TerminatedBy(s, vm, t) {
      assert t in TerminatingTasks(s);
    }
  }

  lemma AccountsOne(s: State, vm: Uuid)
    requires Inv(s) && (vm in Ending(s) <==> exists t :: TerminatedBy(s, vm, t))
    ensures vm in s.active <==> vm in s.held || vm in Ending(s) || vm in s.stray
    ensures vm in Ending(s) ==> vm !in s.held && vm !in s.stray
  {
  }

  lemma Sizes(whole: set<Uuid>, a: set<Uuid>, b: set<Uuid>, c: set<Uuid>)
    requires forall x :: x in whole <==> x in a || x in b || x in c
    requires a !! b && b !! c && a !! c
    ensures whole == a + b + c && |whole| == |a| + |b| + |c|
  {
    assert whole == a + b + c;
  }

  /** No snapshot or terminate is ever told that its VM is not registered. */
  lemma NeverVmNotFound(tr: seq<State>, acts: seq<Action>, i: nat)
    requires Run(tr, acts) && i < |acts|
    ensures !ReplyAt(tr, acts, i).VmNotFound?
    ensures acts[i].CheckSnapshot? || acts[i].CheckTerminate? ==>
              acts[i].t in tr[i].tasks && tr[i].tasks[acts[i].t].vm in tr[i].active && acts[i].t in tr[i + 1].tasks
  {
    assert StepAt(tr, acts, i);
    InvRun(tr, acts, i);
  }

  /** A call is answered exactly in the step that ends it, unless it is dropped; a restore without its
      files is answered at once, and nothing else is. */
  lemma AnsweredIffEnds(tr: seq<State>, acts: seq<Action>, i: nat)
    requires Run(tr, acts) && i < |acts|
    ensures !FromOutside(acts[i]) && !acts[i].Cancel? ==>
              acts[i].t in tr[i].tasks && (ReplyAt(tr, acts, i) != Silent <==> acts[i].t !in tr[i + 1].tasks)
    ensures FromOutside(acts[i]) || acts[i].Cancel? ==>
              ReplyAt(tr, acts, i) == if acts[i].CallRestore? && !FilesExist(tr[i], acts[i].snap) then FilesNotFound(acts[i].snap)
                                      else Silent
  {
    assert StepAt(tr, acts, i);
  }

  /** A reply hands out a VM exactly when its caller holds it from then on. */
  lemma HandsOutIffHeld(tr: seq<State>, acts: seq<Action>, i: nat, vm: Uuid)
    requires Run(tr, acts) && i < |acts|
    ensures HandsOut(ReplyAt(tr, acts, i), vm) <==> vm !in tr[i].held && vm in tr[i + 1].held
  {
    assert StepAt(tr, acts, i);
    InvRun(tr, acts, i);
  }

  /** A reply reports a termination exactly when the id leaves the registry. */
  lemma TerminateDoneIffUnregistered(tr: seq<State>, acts: seq<Action>, i: nat, vm: Uuid)
    requires Run(tr, acts) && i < |acts|
    ensures ReplyAt(tr, acts, i) == TerminateDone(vm) <==> vm in tr[i].active && vm !in tr[i + 1].active
  {
    assert StepAt(tr, acts, i);
    InvRun(tr, acts, i);
  }

  /** An identifier that has left the system: drawn, and used by nothing. */
  ghost predicate Gone(s: State, vm: Uuid) {
    vm in s.drawn && vm !in s.active && vm !in s.held && forall t :: t in s.tasks ==> s.tasks[t].vm != vm
  }

  lemma GoneStep(s: State, a: Action, vm: Uuid)
    requires Enabled(s, a) && Gone(s, vm)
    ensures Gone(Apply(s, a), vm)
  {
    if FromOutside(a) {
      GoneOutside(s, a, vm);
    } else {
      GoneInside(s, a, vm);
    }
  }

  lemma GoneOutside(s: State, a: Action, vm: Uuid)
    requires FromOutside(a)
    requires Enabled(s, a) && Gone(s, vm)
    ensures Gone(Apply(s, a), vm)
  {
  }

  lemma GoneInside(s: State, a: Action, vm: Uuid)
    requires !FromOutside(a)
    requires Enabled(s, a) && Gone(s, vm)
    ensures Gone(Apply(s, a), vm)
  {
  }

  lemma {:induction false} GoneRun(tr: seq<State>, acts: seq<Action>, i: nat, j: nat, vm: Uuid)
    requires Run(tr, acts) && i <= j <= |acts| && Gone(tr[i], vm)
    ensures Gone(tr[j], vm)
    decreases j
  {
    if i < j {
      assert StepAt(tr, acts, j - 1);
      GoneRun(tr, acts, i, j - 1, vm);
      GoneStep(tr[j - 1], acts[j - 1], vm);
    }
  }

  /** After a successful terminate the id never reappears, in the registry or in anyone's hands, and
      no process of that VM is ever alive again. */
  lemma TerminatedForGood(tr: seq<State>, acts: seq<Action>, i: nat, j: nat, vm: Uuid)
    requires Run(tr, acts) && i < j <= |acts| && ReplyAt(tr, acts, i) == TerminateDone(vm)
    ensures vm !in tr[j].active && vm !in tr[j].held && vm !in tr[j].servers
  {
    assert StepAt(tr, acts, i);
    InvRun(tr, acts, i);
    assert Gone(tr[i + 1], vm);
    GoneRun(tr, acts, i + 1, j, vm);
    InvRun(tr, acts, j);
  }

  /** A handle that is dropped, and a terminate that fails or is cancelled, leave an id that stays
      registered for ever although its process is dead for ever. */
  lemma StrayForever(tr: seq<State>, acts: seq<Action>, i: nat, j: nat, vm: Uuid)
    requires Run(tr, acts) && i < j <= |acts| && Strays(tr[i], acts[i], vm)
    ensures vm in tr[j].active && vm !in tr[j].servers && vm !in tr[j].held
  {
    StrayIffStrayed(tr, acts, j, vm);
    InvRun(tr, acts, j);
  }

  predicate Arriving(task: Task) { task.Launching? || task.Configuring? || task.Registering? }

  /** The identifier is taken and no call is about to bring it in. */
  ghost predicate Past(s: State, vm: Uuid) {
    vm in s.drawn && forall t :: t in s.tasks && Arriving(s.tasks[t]) ==> s.tasks[t].vm != vm
  }

  lemma PastStep(s: State, a: Action, vm: Uuid)
    requires Enabled(s, a) && Past(s, vm)
    ensures Past(Apply(s, a), vm)
  {
  }

  lemma {:induction false} PastRun(tr: seq<State>, acts: seq<Action>, i: nat, j: nat, vm: Uuid)
    requires Run(tr, acts) && i <= j <= |acts| && Past(tr[i], vm)
    ensures Past(tr[j], vm)
    decreases j
  {
    if i < j {
      assert StepAt(tr, acts, j - 1);
      PastRun(tr, acts, i, j - 1, vm);
      PastStep(tr[j - 1], acts[j - 1], vm);
    }
  }

  /** A spawn or restore never hands out an id that was registered at any earlier time. */
  lemma HandedOutIdsAreNew(tr: seq<State>, acts: seq<Action>, k: nat, i: nat, vm: Uuid)
    requires Run(tr, acts) && k <= i < |acts| && HandsOut(ReplyAt(tr, acts, i), vm)
    ensures vm !in tr[k].active
  {
    assert StepAt(tr, acts, i);
    InvRun(tr, acts, k);
    if vm in tr[k].active {
      assert Past(tr[k], vm);
      PastRun(tr, acts, k, i, vm);
    }
  }
}
