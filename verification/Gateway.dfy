/** The gateway's request handlers over the shared pool, and what a history of requests leaves there.
    Each handler touches the pool once, under its lock, so an interleaving of requests is a sequence. */
module Gateway {
  import opened Uuids
  import opened SandboxPool

  /** `id` in a creation is the id drawn when the request gets as far as drawing one. */
  datatype Request =
    | CreateSandbox(runtime: string, id: Uuid)
    | DestroySandbox(id: Uuid)
    | ShellCommand(id: Uuid)
    | ExecuteCode(id: Uuid, runtime: string)

  datatype Response = Created(id: Uuid) | NoContent | Admitted | SandboxNotFound(id: Uuid) | InvalidRequest

  predicate Supported(runtime: string) { runtime == "node" || runtime == "python" }

  // ---------------------------------------------------------------------------------------------
  // Handlers
  // ---------------------------------------------------------------------------------------------

  method CreateSandboxHandler(pool: Pool, runtime: string, id: Uuid) returns (r: Response)
    requires pool.Valid()
    modifies pool
    ensures pool.Valid()
    ensures (pool.entries, r) == Serve(old(pool.entries), CreateSandbox(runtime, id))
  {
    if runtime != "node" && runtime != "python" {
      return InvalidRequest;
    }
    pool.Create(runtime, id);
    r := Created(id);
  }

  method DestroySandboxHandler(pool: Pool, id: Uuid) returns (r: Response)
    requires pool.Valid()
    modifies pool
    ensures pool.Valid()
    ensures (pool.entries, r) == Serve(old(pool.entries), DestroySandbox(id))
  {
    WithoutIfAbsent(pool.entries, id);
    var existed := pool.Remove(id);
    if !existed {
      return SandboxNotFound(id);
    }
    r := NoContent;
  }

  /** Up to the point where the command is started. */
  method ShellCommandHandler(pool: Pool, id: Uuid) returns (r: Response)
    requires pool.Valid()
    ensures (pool.entries, r) == Serve(pool.entries, ShellCommand(id))
  {
    var found := pool.Contains(id);
    if !found {
      return SandboxNotFound(id);
    }
    r := Admitted;
  }

  /** Up to the point where the interpreter is started. */
  method ExecuteCodeHandler(pool: Pool, id: Uuid, runtime: string) returns (r: Response)
    requires pool.Valid()
    ensures (pool.entries, r) == Serve(pool.entries, ExecuteCode(id, runtime))
  {
    var found := pool.Contains(id);
    if !found {
      return SandboxNotFound(id);
    }
    if runtime == "node" || runtime == "python" {
      return Admitted;
    }
    r := InvalidRequest;
  }

  lemma WithoutIfAbsent(entries: seq<Entry>, id: Uuid)
    ensures !Has(entries, id) ==> Without(entries, id) == entries
  {
    if !Has(entries, id) {
      WithoutAbsent(entries, id);
    }
  }

  /** What one request does to the entries and answers. */
  function Serve(entries: seq<Entry>, q: Request): (seq<Entry>, Response) {
    match q
    case CreateSandbox(runtime, id) =>
      if Supported(runtime) then (Inserted(entries, id, runtime), Created(id)) else (entries, InvalidRequest)
    case DestroySandbox(id) =>
      if Has(entries, id) then (Without(entries, id), NoContent) else (entries, SandboxNotFound(id))
    case ShellCommand(id) =>
      (entries, if Has(entries, id) then Admitted else SandboxNotFound(id))
    case ExecuteCode(id, runtime) =>
      (entries, if !Has(entries, id) then SandboxNotFound(id) else if Supported(runtime) then Admitted else InvalidRequest)
  }

  // ---------------------------------------------------------------------------------------------
  // Histories, from an empty pool
  // ---------------------------------------------------------------------------------------------

  /** The entries after the first `n` requests. */
  function EntriesAfter(qs: seq<Request>, n: nat): seq<Entry>
    requires n <= |qs|
  {
    if n == 0 then [] else Serve(EntriesAfter(qs, n - 1), qs[n - 1]).0
  }

  /** The answer to request `i`. */
  function ResponseTo(qs: seq<Request>, i: nat): Response
    requires i < |qs|
  {
    Serve(EntriesAfter(qs, i), qs[i]).1
  }

  predicate Creates(q: Request) { q.CreateSandbox? && Supported(q.runtime) }

  /** Request `k` creates a sandbox that no request before the `n`-th destroys. */
  predicate SurvivesTo(qs: seq<Request>, k: nat, n: nat)
    requires k < n <= |qs|
  {
    Creates(qs[k]) && forall j :: k < j < n ==> qs[j] != DestroySandbox(qs[k].id)
  }

  /** The sandboxes created by the first `m` requests that survive to the `n`-th, oldest first. */
  function Survivors(qs: seq<Request>, m: nat, n: nat): seq<Entry>
    requires m <= n <= |qs|
  {
    if m == 0 then []
    else Survivors(qs, m - 1, n) + Survivor(qs, m - 1, n)
  }

  function Survivor(qs: seq<Request>, k: nat, n: nat): seq<Entry>
    requires k < n <= |qs|
  {
    if SurvivesTo(qs, k, n) then [Entry(qs[k].id, qs[k].runtime)] else []
  }

  /** Drawn ids do not repeat. */
  ghost predicate FreshIds(qs: seq<Request>) {
    forall i, j :: 0 <= i < j < |qs| && Creates(qs[i]) && Creates(qs[j]) ==> qs[i].id != qs[j].id
  }

  lemma {:induction false} SurvivorsKept(qs: seq<Request>, m: nat, n: nat)
    requires m <= n < |qs| && !qs[n].DestroySandbox?
    ensures Survivors(qs, m, n + 1) == Survivors(qs, m, n)
  {
    if m > 0 {
      SurvivorsKept(qs, m - 1, n);
    }
  }

  lemma SurvivorDropped(qs: seq<Request>, k: nat, n: nat)
    requires k < n < |qs| && qs[n].DestroySandbox?
    ensures Survivor(qs, k, n + 1) == Without(Survivor(qs, k, n), qs[n].id)
  {
    if SurvivesTo(qs, k, n) {
      var e := Entry(qs[k].id, qs[k].runtime);
      assert [e][..0] == [];
      assert Without([e], qs[n].id) == if e.id == qs[n].id then [] else [e];
    }
  }

  lemma {:induction false} SurvivorsDropped(qs: seq<Request>, m: nat, n: nat)
    requires m <= n < |qs| && qs[n].DestroySandbox?
    ensures Survivors(qs, m, n + 1) == Without(Survivors(qs, m, n), qs[n].id)
  {
    if m > 0 {
      var id := qs[n].id;
      var older, newest := Survivors(qs, m - 1, n), Survivor(qs, m - 1, n);
      assert Survivors(qs, m, n) == older + newest;
      assert Survivors(qs, m, n + 1) == Without(older, id) + Without(newest, id) by {
        SurvivorsDropped(qs, m - 1, n);
        SurvivorDropped(qs, m - 1, n);
      }
      WithoutAppend(older, newest, id);
    }
  }

  lemma {:induction false} InSurvivors(qs: seq<Request>, m: nat, n: nat, id: Uuid)
    requires m <= n <= |qs|
    ensures Has(Survivors(qs, m, n), id) <==> exists k :: 0 <= k < m && SurvivesTo(qs, k, n) && qs[k].id == id
  {
    if m > 0 {
      InSurvivors(qs, m - 1, n, id);
      var older, all := Survivors(qs, m - 1, n), Survivors(qs, m, n);
      assert forall i :: 0 <= i < |older| ==> all[i] == older[i];
      if SurvivesTo(qs, m - 1, n) {
        assert all[|older|].id == qs[m - 1].id;
      }
    }
  }

  lemma SurvivorsServe(qs: seq<Request>, n: nat)
    requires n < |qs| && FreshIds(qs)
    ensures Survivors(qs, n + 1, n + 1) == Serve(Survivors(qs, n, n), qs[n]).0
  {
    var newest := Survivor(qs, n, n + 1);
    assert newest == if Creates(qs[n]) then [Entry(qs[n].id, qs[n].runtime)] else [];
    if qs[n].DestroySandbox? {
      SurvivorsDropped(qs, n, n);
      WithoutIfAbsent(Survivors(qs, n, n), qs[n].id);
    } else {
      SurvivorsKept(qs, n, n);
      if Creates(qs[n]) {
        InSurvivors(qs, n, n, qs[n].id);
      }
    }
  }

  /** After any history the pool holds exactly the sandboxes created and not destroyed since, in the
      order in which they were created. */
  lemma {:induction false} PoolIsSurvivors(qs: seq<Request>, n: nat)
    requires n <= |qs| && FreshIds(qs)
    ensures EntriesAfter(qs, n) == Survivors(qs, n, n)
  {
    if n > 0 {
      PoolIsSurvivors(qs, n - 1);
      SurvivorsServe(qs, n - 1);
    }
  }

  /** Some earlier request created `id` and none since destroyed it. */
  ghost predicate Present(qs: seq<Request>, n: nat, id: Uuid)
    requires n <= |qs|
  {
    exists k :: 0 <= k < n && SurvivesTo(qs, k, n) && qs[k].id == id
  }

  /** Every answer, in terms of the requests before it. */
  lemma AnswersFromHistory(qs: seq<Request>, i: nat)
    requires i < |qs| && FreshIds(qs)
    ensures match qs[i]
            case CreateSandbox(runtime, id) =>
              ResponseTo(qs, i) == if runtime == "node" || runtime == "python" then Created(id) else InvalidRequest
            case DestroySandbox(id) => ResponseTo(qs, i) == if Present(qs, i, id) then NoContent else SandboxNotFound(id)
            case ShellCommand(id) => ResponseTo(qs, i) == if Present(qs, i, id) then Admitted else SandboxNotFound(id)
            case ExecuteCode(id, runtime) =>
              ResponseTo(qs, i) == if !Present(qs, i, id) then SandboxNotFound(id)
                                   else if runtime == "node" || runtime == "python" then Admitted else InvalidRequest
  {
    PoolIsSurvivors(qs, i);
    if !qs[i].CreateSandbox? {
      InSurvivors(qs, i, i, qs[i].id);
    }
  }

  /** A destroyed sandbox is gone: no later request finds it, so it is destroyed at most once. */
  lemma DestroyedForGood(qs: seq<Request>, i: nat, j: nat)
    requires FreshIds(qs) && i < j < |qs|
    requires qs[i].DestroySandbox? && ResponseTo(qs, i) == NoContent
    requires !qs[j].CreateSandbox? && qs[j].id == qs[i].id
    ensures ResponseTo(qs, j) == SandboxNotFound(qs[i].id)
  {
    var id := qs[i].id;
    AnswersFromHistory(qs, i);
    AnswersFromHistory(qs, j);
    var k :| 0 <= k < i && SurvivesTo(qs, k, i) && qs[k].id == id;
    assert forall k' :: 0 <= k' < j && SurvivesTo(qs, k', j) && qs[k'].id == id ==> k' == k && qs[i] != DestroySandbox(id);
  }

  /** With fresh ids the pool stays a map, and it only ever stores the two runtimes. */
  lemma {:induction false} PoolWellFormed(qs: seq<Request>, n: nat)
    requires n <= |qs| && FreshIds(qs)
    ensures Distinct(EntriesAfter(qs, n))
    ensures forall i :: 0 <= i < |EntriesAfter(qs, n)| ==>
              EntriesAfter(qs, n)[i].runtime == "node" || EntriesAfter(qs, n)[i].runtime == "python"
  {
    PoolIsSurvivors(qs, n);
    SurvivorsWellFormed(qs, n, n);
  }

  lemma {:induction false} SurvivorsWellFormed(qs: seq<Request>, m: nat, n: nat)
    requires m <= n <= |qs| && FreshIds(qs)
    ensures Distinct(Survivors(qs, m, n))
    ensures forall i :: 0 <= i < |Survivors(qs, m, n)| ==> Supported(Survivors(qs, m, n)[i].runtime)
  {
    if m > 0 {
      SurvivorsWellFormed(qs, m - 1, n);
      if SurvivesTo(qs, m - 1, n) {
        InSurvivors(qs, m - 1, n, qs[m - 1].id);
      }
    }
  }
}
