/** Running a block: the hash of what the guest printed, and what that hash determines. */
module BlockRunner {
  import opened Bytes
  import opened ContentHash
  import opened SerialFrame
  import Backend
  import Firecracker
  import SerialEmitter
  import SerialStream
  import Words

  /** The digest function is a parameter: nothing below looks inside SHA-256. */
  type HashFunction = seq<byte> -> Digest

  /** A hasher absorbs octets in place and is finalised once. */
  class Sha256 {
    var absorbed: seq<byte>

    constructor ()
      ensures absorbed == []
    {
      absorbed := [];
    }

    method Update(data: seq<byte>)
      modifies this
      ensures absorbed == old(absorbed) + data
    {
      absorbed := absorbed + data;
    }

    method Finalize(H: HashFunction) returns (digest: Digest)
      ensures digest == H(absorbed)
    {
      digest := H(absorbed);
    }
  }

  method ComputeHash(H: HashFunction, stdout: seq<byte>, stderr: seq<byte>) returns (digest: Digest)
    ensures digest == H(stdout + stderr)
  {
    var hasher := new Sha256();
    hasher.Update(stdout);
    hasher.Update(stderr);
    assert hasher.absorbed == stdout + stderr;
    digest := hasher.Finalize(H);
  }

  datatype Status = Succeeded
  datatype Record = Record(inputHash: Digest, outputHash: Digest, status: Status)

  function BuildCommand(blockName: string): string { "echo '" + blockName + "'" }

  /** `BlockRunner::execute`: hash the input, run the block's command in a VM of its own, hash the
      output. The exit code is parsed but plays no part in the record. */
  method Execute(H: HashFunction, host: Backend.Host, vmConfig: Firecracker.VmConfig, blockName: string, input: seq<byte>,
                 env: Backend.Env, up: seq<bool>, console: Backend.Console)
    returns (r: Result<Record, Backend.Error>, ghost child: Backend.Process?)
    requires |up| == 4
    modifies host
    ensures r.Ok? <==> Backend.Starts(env) && env.socket && Backend.Accepted(up) == 4 && console.Stream?
    ensures r.Ok? ==> var output := Parse(console.raw); r.value == Record(H(input), H(output.stdout + output.stderr), Succeeded)
    ensures !env.kvm ==> r == Err(Backend.KvmUnavailable)
    ensures env.kvm && !env.binary ==> r == Err(Backend.BinaryNotFound)
    ensures env.kvm && env.binary && !env.dir ==> r == Err(Backend.Io)
    ensures env.kvm && env.binary && env.dir && (!env.exec || !env.socket || Backend.Accepted(up) < 4) ==> r == Err(Backend.SpawnFailed)
    ensures Backend.Starts(env) && env.socket && Backend.Accepted(up) == 4 && console.TimedOut? ==> r == Err(Backend.SpawnFailed)
    ensures Backend.Starts(env) && env.socket && Backend.Accepted(up) == 4 && console.ReadError? ==> r == Err(Backend.Io)
    ensures child != null <==> Backend.Starts(env)
    ensures r.Ok? ==>
              Firecracker.Configured(child.server, vmConfig.(bootArgs := SerialStream.BootArgs("echo '" + blockName + "'")))
    ensures host.disk == old(host.disk) && (child != null ==> fresh(child) && !child.alive)
  {
    var inputHash := ComputeHash(H, input, []);
    assert input + [] == input;
    var output;
    output, child := Backend.ExecuteCommand(host, vmConfig, BuildCommand(blockName), env, up, console);
    if output.Err? {
      return Err(output.error), child;
    }
    var outputHash := ComputeHash(H, output.value.stdout, output.value.stderr);
    r := Ok(Record(inputHash, outputHash, Succeeded));
  }

  /** The output hash of a run, as a function of its console stream. */
  function OutputHash(H: HashFunction, raw: seq<byte>): Digest {
    H(Parse(raw).stdout + Parse(raw).stderr)
  }

  /** Two different preimages with one digest. */
  predicate Collision(H: HashFunction, x: seq<byte>, y: seq<byte>) { x != y && H(x) == H(y) }

  /** Two well-formed runs hash alike whenever the guests printed the same streams, whatever their
      boot noise, wrapping, exit codes, tails and inputs. They hash alike exactly when standard output
      followed by standard error is the same, or the two concatenations are a collision. */
  lemma TransportIndependence(H: HashFunction, f: SerialEmitter.Frame, g: SerialEmitter.Frame)
    requires SerialEmitter.WellFormed(f) && SerialEmitter.WellFormed(g)
    ensures f.stdout == g.stdout && f.stderr == g.stderr
            ==> OutputHash(H, SerialEmitter.Emit(f)) == OutputHash(H, SerialEmitter.Emit(g))
    ensures OutputHash(H, SerialEmitter.Emit(f)) == OutputHash(H, SerialEmitter.Emit(g))
            <==> f.stdout + f.stderr == g.stdout + g.stderr || Collision(H, f.stdout + f.stderr, g.stdout + g.stderr)
  {
    SerialEmitter.RoundTrip(f);
    SerialEmitter.RoundTrip(g);
  }

  /** Octets move from the end of one standard output to the start of the standard error behind it. */
  ghost predicate Moved(a: seq<byte>, b: seq<byte>, c: seq<byte>, d: seq<byte>, moved: seq<byte>) {
    a == c + moved && d == moved + b
  }

  /** Two pairs of streams have one preimage exactly when one comes from the other by moving octets
      between the streams. */
  lemma PreimageIffMoved(a: seq<byte>, b: seq<byte>, c: seq<byte>, d: seq<byte>)
    ensures a + b == c + d <==> exists moved :: Moved(a, b, c, d, moved) || Moved(c, d, a, b, moved)
  {
    if a + b == c + d {
      if |a| >= |c| {
        MovedFrom(a, b, c, d);
      } else {
        MovedFrom(c, d, a, b);
      }
    }
    if moved :| Moved(a, b, c, d, moved) || Moved(c, d, a, b, moved) {
      assert Moved(a, b, c, d, moved) ==> a + b == c + (moved + b);
      assert Moved(c, d, a, b, moved) ==> c + d == a + (moved + d);
    }
  }

  lemma MovedFrom(a: seq<byte>, b: seq<byte>, c: seq<byte>, d: seq<byte>)
    requires a + b == c + d && |a| >= |c|
    ensures Moved(a, b, c, d, a[|c|..])
  {
    assert c == (c + d)[..|c|] == (a + b)[..|c|] == a[..|c|];
    assert d == (c + d)[|c|..] == (a + b)[|c|..] == a[|c|..] + b;
  }

  /** So with equal lengths of standard output the preimage determines both streams. */
  lemma PreimageDetermines(a: seq<byte>, b: seq<byte>, c: seq<byte>, d: seq<byte>)
    requires a + b == c + d && |a| == |c|
    ensures a == c && b == d
  {
    MovedFrom(a, b, c, d);
  }

  /** For every digest function: swapping the streams keeps the hash exactly when both are powers of
      one word or the two concatenations are a collision, and never for both reasons. */
  lemma SwapIffShareRoot(H: HashFunction, a: seq<byte>, b: seq<byte>)
    ensures H(a + b) == H(b + a) <==> Words.ShareRoot(a, b) || Collision(H, a + b, b + a)
    ensures !(Words.ShareRoot(a, b) && Collision(H, a + b, b + a))
  {
    Words.CommuteIffShareRoot(a, b);
  }

  /** So unequal streams may be swapped unnoticed, for every digest function. */
  lemma SwapUnnoticed(H: HashFunction)
    ensures exists a, b :: a != [] && b != [] && a != b && H(a + b) == H(b + a)
  {
    var a: seq<byte>, b: seq<byte> := [120], [120, 120];
    assert a + b == b + a;
  }
}
