# Forge executor and gateway: a verified model

The executor runs a command in a Firecracker microVM and reads its result back from a serial console
that also carries boot noise; it spawns, snapshots, restores and terminates VMs for many callers at
once; and it hashes what a run printed. The gateway keeps a registry of sandboxes. This project models
those parts in Dafny and proves what they are for, on every input and over every run:

* **Serial frame** (`Bytes`, `Base64`, `Utf8`, `Trim`, `ExitCode`, `SerialFrame`, `SerialEmitter`,
  `SerialStream`). Whatever surrounds a frame on the console, parsing returns exactly the standard output,
  standard error and exit code of the guest. The parser's meaning is also stated without searching, as an
  if-and-only-if over where the markers lie, and the moment from which a parse can no longer change is
  characterised exactly.
* **VM lifecycle** (`Firecracker`, `Backend`, `Orchestrator`, `Lifecycle`, `Ownership`, `Snapshots`,
  `ResumeSafety`, `Cancellation`, `Overlap`, `Scenarios`, `Isolation`, `Simulation`). `Backend` and
  `Orchestrator` are the calls one at a time, on mutable objects. `Lifecycle` is the same code cut at its
  awaits: a transition system whose runs are all interleavings of calls, failures, cancellations, crashes
  and guest steps. The theorems quantify over runs: who owns each process, what is in the registry, when a
  VM is paused, what a restore takes up, what dropping a call does and what overlapping snapshots do to
  each other. `Simulation` ties the two: every call on the objects is matched by a longer run whose last
  state agrees with them.
* **Runner and hashes** (`Words`, `ContentHash`, `BlockRunner`). The digest is a parameter, and every
  statement holds for every digest function. Two runs that print the same hash alike whatever the transport
  did; swapping the streams goes unnoticed exactly for powers of a common word and for collisions.
* **Sandbox pool** (`SandboxPool`, `Gateway`). After any history of requests the pool is the list of
  sandboxes created and not destroyed since, in order of creation, and every answer follows from that.

Assumptions made in the model: identifiers drawn at random do not repeat; a request to the Firecracker
API that fails leaves the process and the files alone; `kill_on_drop` takes effect at once.

Where comments and code disagree, the code is modelled:

* `forge-executor/src/backend.rs:27-29` calls every method cancel safe. `CancelLeavesPaused` is a run in
  which a dropped snapshot leaves its VM paused with nobody to resume it, `CancelSafeIff` says of any call
  at any point of any run whether dropping it does that, and `StrandedStays` that nothing but another
  snapshot helps.
* `forge-executor/src/orchestrator.rs:15-16` says that all operations are safe to call concurrently.
  `OverlapFails` is a run with every request served in which one snapshot makes another fail, and
  `SnapshotOkIff` the exact condition.
* `forge-executor/src/handle.rs:10-11` says that dropping a handle does not terminate the VM; the process
  is started with `kill_on_drop`, so it dies, and `StrayForever` shows that its id stays registered.
* `forge-executor/src/backend.rs:74` announces `Io` on a timeout; `execute_command` returns
  `SpawnFailed`, and so does `Backend.ExecuteCommand`.
* `forge-executor/src/runner.rs:197-198` says that swapping unequal streams must change the hash.
  `SwapUnnoticed` is a counterexample and `SwapIffShareRoot` the exact condition.
* The init script itself contains `FORGE_EXIT:$EC`. A console that shows the kernel command line before
  the script runs therefore always ends in exit code -1 (`EchoedCommandLineFallsBack`); the boot
  arguments pass `quiet`.

## Model

| member | source | states |
|---|---|---|
| `Bytes.FindIff` | forge-executor/src/firecracker.rs:448-456 | The search returns the least offset at which the pattern occurs, and none exactly when it occurs nowhere |
| `Base64.DecodeIffEncode` | forge-executor/src/firecracker.rs:458-465 | A text decodes to some data exactly when it is the canonical padded encoding of that data, so encoding and strict decoding are mutually inverse bijections |
| `Base64.DecodeIffRfc4648` | forge-executor/src/firecracker.rs:458-465 | A text decodes to some data exactly when it is, group by group, the same bits in base 64 over Table 1 of section 4 of RFC 4648, written out, with the last group zero-filled and padded |
| `Base64.AlphabetIsTable1` | forge-executor/src/firecracker.rs:465-465 | The alphabet is A to Z, a to z, 0 to 9, + and /, in that order |
| `Base64.DecodeOfEncode` | forge-executor/src/firecracker.rs:568-581 | Decoding an encoding gives back the data, for every byte string |
| `Base64.EncodeOctets` | forge-executor/src/firecracker.rs:458-465 | Every octet of an encoding is in the alphabet or is padding |
| `ExitCode.ParseTextIffFits` | forge-executor/src/firecracker.rs:479-479 | A text parses exactly when it is an optional + or - and digits 0 to 9, however many, whose decimal value lies between -2147483648 and 2147483647, and yields that value: no intermediate overflow ever rejects a value that fits |
| `ExitCode.ReadIffDenotes` | forge-executor/src/firecracker.rs:476-479 | A line reads as a value exactly when it is the UTF-8 of white space (all of Unicode's), a decimal numeral of that value that fits in an i32, and white space |
| `ExitCode.PrintText` | forge-executor/src/firecracker.rs:559-566 | An exit code is printed as its shortest decimal text: no plus sign, no leading zero |
| `ExitCode.PrintThenRead` | forge-executor/src/firecracker.rs:559-566 | Printing an i32, the minimum included, and reading it back inside any white space is the identity |
| `SerialFrame.ExtractIffCarries` | forge-executor/src/firecracker.rs:445-466 | A section is extracted as some data exactly when the octets between the first start marker with CR LF and the first end marker after it, line breaks deleted, are the encoding of that data |
| `SerialFrame.ExitIffReports` | forge-executor/src/firecracker.rs:471-480 | The exit code is extracted exactly when the rest of the line after the first exit marker denotes it |
| `SerialFrame.StripAt` | forge-executor/src/firecracker.rs:458-463 | The filter deletes CR and LF wherever they stand and keeps every other octet |
| `SerialFrame.ParseExactly` | forge-executor/src/firecracker.rs:430-439 | The parse is the carried triple; a stream that carries none gives exactly itself, an empty standard error and -1, never a mixture; and the two cases can always be told apart |
| `SerialEmitter.TextIsFree` | forge-executor/src/firecracker.rs:458-465 | No marker occurs in base64 text, however it is wrapped |
| `SerialEmitter.SkipFree` | forge-executor/src/firecracker.rs:448-456 | No marker match starts in output that is free of the marker and runs into the marker behind it |
| `SerialEmitter.BehindSection` | forge-executor/src/firecracker.rs:430-433 | The search for one marker skips a whole section delimited by others |
| `SerialEmitter.RoundTrip` | forge-executor/src/firecracker.rs:430-480 | For all payloads (also ones that spell the markers), every i32 exit code, any wrapping, any tail and any noise free of the markers still to come, parsing the emitted stream returns exactly stdout, stderr and exit code |
| `SerialStream.StripWrap` | forge-executor/src/firecracker.rs:458-463 | Deleting CR and LF undoes line wrapping at any width |
| `SerialStream.InitScriptRoundTrip` | forge-executor/src/firecracker.rs:328-336 | The init script's output, markers written out, is such a frame, so it is read back exactly |
| `SerialStream.MakeB64OutputRoundTrip` | forge-executor/src/firecracker.rs:486-496 | The stream of the unit tests, markers written out, is such a frame, so it is read back exactly |
| `SerialStream.StableIffTerminated` | forge-executor/src/firecracker.rs:430-480 | A complete parse is unchanged by every possible continuation of the stream exactly when the exit line has been ended by CR or LF |
| `SerialStream.EchoedCommandLineFallsBack` | forge-executor/src/firecracker.rs:331-338 | A console that shows the boot arguments, whose exit marker is followed by `$EC`, gives back the whole stream, an empty standard error and -1, whatever follows |
| `Firecracker.BootStep` | forge-executor/src/firecracker.rs:92-127 | The boot requests are accepted one after the other and end in exactly the requested configuration |
| `Backend.Process.ApiRequest` | forge-executor/src/unix_client.rs:24-85 | A request succeeds exactly when it is delivered to a live process that accepts it, and changes nothing otherwise |
| `Backend.ConfigureAndBoot` | forge-executor/src/firecracker.rs:92-127 | For every failure pattern the requests sent are a prefix of kernel and boot arguments, root drive, machine, start, each sent only after the one before was acknowledged; success means running with exactly the configuration |
| `Backend.Spawn` | forge-executor/src/firecracker.rs:132-170 | A handle exactly when everything is served, its process running with exactly the kernel, arguments, drive and machine asked for; otherwise KvmUnavailable, BinaryNotFound, Io or SpawnFailed by the first stage that fails, and the process that was started is dead |
| `Backend.Snapshot` | forge-executor/src/firecracker.rs:172-223 | Ok exactly when pause and creation succeed; the files then hold the guest and are untouched otherwise; the phase afterwards is paused exactly when the pause took and the resume did not, also after a failed creation |
| `Backend.Restore` | forge-executor/src/firecracker.rs:225-282 | Missing files are reported exactly when one is missing, before anything is started; success gives a new running process with exactly the guest in the files; after any failure the process is dead |
| `Backend.Terminate` | forge-executor/src/firecracker.rs:284-293 | The process is dead whether or not the kill is reported to succeed |
| `Backend.ExecuteCommand` | forge-executor/src/firecracker.rs:312-394 | Ok exactly when every stage succeeds, with the parsed console; otherwise the error of the first stage that fails: SpawnFailed on a timeout or a lost boot request, Io on a read error; no process survives the call on any path |
| `Backend.SnapshotTerminateRestore` | forge-executor/tests/firecracker_lifecycle.rs:76-108 | Snapshot, terminate, restore gives a new VM with the guest of the one that is gone |
| `Orchestrator.VmOrchestrator.Spawn` | forge-executor/src/orchestrator.rs:33-37 | A VM is registered exactly when it is handed out, and the backend's error for each stage is passed on |
| `Orchestrator.VmOrchestrator.Snapshot` | forge-executor/src/orchestrator.rs:44-49 | VmNotFound exactly for an unregistered handle, and then nothing is touched; otherwise the result, the phase afterwards and the files of the backend's snapshot for every outcome of its requests |
| `Orchestrator.VmOrchestrator.Restore` | forge-executor/src/orchestrator.rs:55-59 | A restored VM is registered exactly when it is handed out, with the guest of the snapshot; errors are passed on, files-not-found exactly when a file is missing |
| `Orchestrator.VmOrchestrator.Terminate` | forge-executor/src/orchestrator.rs:66-74 | The id leaves the registry exactly on success; the process is dead on every path |
| `Ownership.InvStep` | forge-executor/src/orchestrator.rs:33-79 | Every step of every call, of a caller or of the environment keeps the ownership and registry invariant |
| `Ownership.SoleOwner` | forge-executor/src/firecracker.rs:152-169 | In every run each live process has exactly one owner, a held handle or one call in flight, including after errors, timeouts and cancellation |
| `Ownership.StrayIffStrayed` | forge-executor/src/orchestrator.rs:66-74 | The stray ids of a run are exactly those whose handle was dropped or whose terminate failed or was cancelled before |
| `Ownership.RegistryAccounting` | forge-executor/src/orchestrator.rs:33-79 | In every reachable state the registry is the disjoint union of held ids, ids being terminated and ids whose handle was dropped or whose terminate failed or was cancelled before, and the active count is the sum of the three |
| `Ownership.NeverVmNotFound` | forge-executor/src/orchestrator.rs:44-74 | No snapshot or terminate with a handle from the orchestrator is ever told VmNotFound: at its check the id is registered and the call goes on |
| `Ownership.AnsweredIffEnds` | forge-executor/src/orchestrator.rs:33-74 | In every run a call is answered exactly in the step that ends it, unless it is dropped |
| `Ownership.HandsOutIffHeld` | forge-executor/src/orchestrator.rs:33-59 | A spawn or restore replies Ok exactly in the step from which its caller holds the VM |
| `Ownership.TerminateDoneIffUnregistered` | forge-executor/src/orchestrator.rs:66-74 | A terminate replies Ok exactly in the step in which the id leaves the registry |
| `Ownership.TerminatedForGood` | forge-executor/src/orchestrator.rs:66-74 | After a successful terminate the id is never registered or held again and no process of the VM lives again |
| `Ownership.StrayForever` | forge-executor/src/orchestrator.rs:66-74 | A dropped handle and a failed or cancelled terminate leave an id that stays registered at every later point of the run while its process stays dead |
| `Ownership.HandedOutIdsAreNew` | forge-executor/src/orchestrator.rs:33-59 | A spawn or restore never returns an id that was registered at any earlier time |
| `Snapshots.InvStep` | forge-executor/src/firecracker.rs:172-223 | Every step keeps the snapshot files paired and the ids of unwritten snapshots unused and distinct |
| `Snapshots.FilesPersist` | forge-executor/src/firecracker.rs:201-207 | Once written, the files of a snapshot keep their contents through every later step |
| `Snapshots.RestoreResumesFrozenGuest` | forge-executor/src/firecracker.rs:172-282 | After snapshot returned Ok, at every later point of every run a restore finds the files, and an accepted load starts a running VM with exactly the guest frozen when the creation was accepted |
| `Snapshots.RestoredFromFrozen` | forge-executor/src/firecracker.rs:225-282 | Every Ok restore took up the guest of another VM that an accepted creation of that snapshot froze before, under an id never registered before |
| `ResumeSafety.PausedIff` | forge-executor/src/firecracker.rs:186-213 | In every run a live VM is paused exactly when some snapshot's pause was accepted and no resume since |
| `ResumeSafety.PausedIsExplained` | forge-executor/src/firecracker.rs:186-213 | However snapshots of one VM overlap and fail, a paused VM has a snapshot between pause and resume, or has lost a resume with none accepted since |
| `ResumeSafety.QuiescentIsRunning` | forge-executor/src/firecracker.rs:186-218 | With no snapshot midway and no resume lost since the last accepted one, a held live VM is running, even when creations failed |
| `ResumeSafety.HandedOutRunning` | forge-executor/src/firecracker.rs:159-169 | A VM about to be returned and still alive is running, after a spawn with exactly the given configuration |
| `ResumeSafety.StartAfterConfiguration` | forge-executor/src/firecracker.rs:92-127 | In every interleaving the start request only ever goes to a process that has acknowledged the kernel, drive and machine configuration of the same call |
| `Cancellation.CancelSafeIff` | forge-executor/src/backend.rs:26-29 | At any point of any run, dropping any call leaves its VM paused with nobody to resume it exactly when the call is a snapshot of a live VM, a pause of that VM was accepted with no resume since, and no other snapshot of it is between pause and resume |
| `Cancellation.CancelledHolder` | forge-executor/src/backend.rs:26-29 | Where no other snapshot is midway and no resume has been lost, dropping a snapshot leaves the VM paused exactly when that snapshot's own pause still holds it |
| `Cancellation.StrandedStays` | forge-executor/src/firecracker.rs:186-213 | A VM left that way stays paused as long as it lives and nobody takes another snapshot of it |
| `Scenarios.CancelLeavesPaused` | forge-executor/src/backend.rs:26-29 | A run with everything served that ends with a held VM paused and nothing in flight |
| `Overlap.SnapshotOkIff` | forge-executor/src/orchestrator.rs:15-16 | In every run, a snapshot whose requests reach a live process returns Ok exactly when no resume of the VM is accepted between its pause and its creation without another pause after it |
| `Overlap.OverlapSpoils` | forge-executor/src/orchestrator.rs:15-16 | Wherever two snapshots of a running VM are about to pause it, some continuation with every request served lets one succeed and the other fail |
| `Scenarios.OverlapFails` | forge-executor/src/orchestrator.rs:15-16 | A run with everything served in which one snapshot succeeds and another fails |
| `Isolation.UninterruptedSpawn` | forge-executor/src/orchestrator.rs:33-37 | The steps of a spawn, run back to back, hand out and register a VM running exactly the configuration when all is served, and otherwise leave nothing but the drawn id |
| `Isolation.UninterruptedRestore` | forge-executor/src/orchestrator.rs:55-59 | The same for a restore: nothing changes without files; served, the VM runs exactly the guest in the files |
| `Isolation.UninterruptedSnapshot` | forge-executor/src/orchestrator.rs:44-49 | The same for a snapshot, for every pattern of failing requests: files, phase and registry afterwards |
| `Isolation.UninterruptedTerminate` | forge-executor/src/orchestrator.rs:66-74 | The same for a terminate: the process is dead, and the id leaves the registry exactly when the kill is reported to succeed |
| `Isolation.UninterruptedExecute` | forge-executor/src/firecracker.rs:312-394 | The steps of a command execution, run back to back, leave nothing but the drawn id, whatever is served |
| `Simulation.Spawn` | forge-executor/src/orchestrator.rs:33-37 | A spawn on objects that agree with the last state of a run leaves them agreeing with the run continued by the steps of that spawn |
| `Simulation.Snapshot` | forge-executor/src/orchestrator.rs:44-49 | The same for a snapshot, which is never told VmNotFound |
| `Simulation.Restore` | forge-executor/src/orchestrator.rs:55-59 | The same for a restore |
| `Simulation.Terminate` | forge-executor/src/orchestrator.rs:66-74 | The same for a terminate, which is never told VmNotFound; Ok exactly when the id has left the registry |
| `Simulation.ActiveCount` | forge-executor/src/orchestrator.rs:77-79 | The count is that of the handles held, the terminations in flight and the ids left behind in the run so far |
| `Words.CommuteIffShareRoot` | forge-executor/src/runner.rs:188-203 | Two words commute exactly when both are powers of one word |
| `ContentHash.Display` | forge-core/src/id.rs:186-193 | The loop prints 64 digits, two per byte, high half first, from 0123456789abcdef, and they decode to the hash |
| `ContentHash.UnhexOfHex` | forge-core/src/id.rs:186-193 | Base-16 decoding undoes the digits of any byte string |
| `ContentHash.DisplayInjective` | forge-core/src/id.rs:186-193 | Two hashes are displayed alike exactly when they are equal |
| `BlockRunner.ComputeHash` | forge-executor/src/runner.rs:111-117 | The digest of standard output followed by standard error |
| `BlockRunner.Execute` | forge-executor/src/runner.rs:61-101 | Runs the block's command through the backend: each of its errors is passed on; otherwise the record holds the digest of the input and of standard output followed by standard error, whatever the exit code; no process survives |
| `BlockRunner.TransportIndependence` | forge-executor/src/runner.rs:61-117 | For every digest, runs that print the same streams hash alike whatever noise, wrapping, tails, exit codes and inputs; they hash alike exactly when the concatenations agree or collide |
| `BlockRunner.PreimageIffMoved` | forge-executor/src/runner.rs:106-117 | Two pairs of streams share a preimage exactly when one comes from the other by moving octets between the streams |
| `BlockRunner.PreimageDetermines` | forge-executor/src/runner.rs:106-117 | With equal lengths of standard output the preimage determines both streams |
| `BlockRunner.SwapIffShareRoot` | forge-executor/src/runner.rs:188-203 | For every digest, swapping the streams keeps the hash exactly when both are powers of one word or the two concatenations collide, never both |
| `BlockRunner.SwapUnnoticed` | forge-executor/src/runner.rs:195-202 | For every digest some unequal non-empty streams hash alike when swapped |
| `SandboxPool.Pool.Create` | forge-gateway/src/pool.rs:39-47 | Insertion appends a new id, or replaces in place one that is already there |
| `SandboxPool.Pool.Remove` | forge-gateway/src/pool.rs:53-56 | True exactly when the id was there; then that entry alone is gone and the others stay in order |
| `SandboxPool.Pool.Contains` | forge-gateway/src/pool.rs:63-66 | True exactly when the id is there |
| `Gateway.CreateSandboxHandler` | forge-gateway/src/routes.rs:95-107 | Refines the one-request specification: unsupported runtimes are refused and leave the pool alone |
| `Gateway.DestroySandboxHandler` | forge-gateway/src/routes.rs:113-121 | Refines the one-request specification: not found exactly when the id is absent |
| `Gateway.ShellCommandHandler` | forge-gateway/src/routes.rs:132-139 | Refines the one-request specification: not found exactly when the id is absent, and the pool is untouched |
| `Gateway.ExecuteCodeHandler` | forge-gateway/src/routes.rs:153-192 | Refines the one-request specification: the membership check comes before the runtime check |
| `Gateway.PoolIsSurvivors` | forge-gateway/src/pool.rs:39-66 | After any history the pool is exactly the list of sandboxes created and not destroyed since, in order of creation |
| `Gateway.AnswersFromHistory` | forge-gateway/src/routes.rs:95-163 | Every answer in terms of the earlier requests alone |
| `Gateway.DestroyedForGood` | forge-gateway/src/routes.rs:113-121 | A destroyed sandbox is not found by any later request, so it is destroyed at most once |
| `Gateway.PoolWellFormed` | forge-gateway/src/routes.rs:95-107 | Ids in the pool are distinct and every stored runtime is node or python |

## Left out

- Backend.Process.ApiRequest: a request that is processed but whose answer is lost is not a case of its own; a request that fails is taken to leave the process and the files alone.
- Backend.ExecuteCommand: what was read from the console, or that reading failed or ran out of time, is a parameter; the clock and the socket file are not modelled.
- The shell, the kernel command line and the tty behind the init script: only the octets the script is meant to print are modelled, and nothing is proved about quoting in `build_command`.
- Environment probes (`/dev/kvm`, binary lookup, waiting for the socket): stages that may fail; health checks are not modelled.
- SHA-256 itself: the digest is a parameter.
- Running commands in the gateway's handlers, HTTP status codes and JSON: the handlers are modelled up to the point where a process is started.
- `forge-core` blocks, execution metadata, trust scores, timestamps and tracing: plain data without invariants across operations.
