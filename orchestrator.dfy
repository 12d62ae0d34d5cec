/** The execution engine: one invocation of a deployed function as a strict
    sequence of daemon calls, with the two cleanups that Go's `defer` runs,
    last registered first, on every return after the container exists. */
module Orchestrator {
  import opened Base
  import opened Storage
  import opened Docker
  import Format

  /** The entry command every function container is created with. */
  const FunctionCommand: seq<string> := ["/app/function"]

  /** Why an invocation failed, by the step that failed. */
  datatype ExecError =
    | CreateFailed(cause: string)
    | StartFailed(cause: string)
    | AttachFailed(cause: string)
    | WriteFailed(cause: string)
    | ReadFailed(cause: string)
    | WaitFailed(cause: string)
    | NonZeroExit(code: int)

  /** The text of the error Execute returns. */
  function Message(e: ExecError): (m: string)
    ensures e.NonZeroExit? ==> m == "container exited with code " + Format.IntToDecimal(e.code)
  {
    match e
    case CreateFailed(c) => "failed to create container: " + c
    case StartFailed(c) => "failed to start container: " + c
    case AttachFailed(c) => "failed to attach to container: " + c
    case WriteFailed(c) => "failed to write event: " + c
    case ReadFailed(c) => "failed to read output: " + c
    case WaitFailed(c) => "container wait failed: " + c
    case NonZeroExit(code) => "container exited with code " + Format.IntToDecimal(code)
  }

  // ---------------------------------------------------------------------------
  // Specification of one run

  /** The seven main steps, in source order, for container `id`:
      create, start, attach, write, close-write, read, wait. */
  function MainSteps(image: string, event: seq<byte>, id: ContainerId): (t: seq<Call>)
    ensures |t| == 7
  {
    [Create(image, FunctionCommand), Start(id), Attach(id), Call.Write(id, event),
     Call.CloseWrite(id), Read(id), Wait(id)]
  }

  /** Whether the k-th main step (counting from 0) reports an error under s.
      Close-write (step 4) has its error ignored, so it never fails. */
  predicate StepFails(s: Script, k: nat) {
    match k
    case 0 => s.create.Fail?
    case 1 => s.start.Fail?
    case 2 => s.attach.Fail?
    case 3 => s.write.Fail?
    case 5 => s.read.Failure?
    case 6 => s.wait.Failure?
    case _ => false
  }

  /** How many main steps run under s: every step up to and including the first
      that fails, or all seven. */
  function StepsRun(s: Script): (n: nat)
    ensures 1 <= n <= 7
    ensures forall k: nat :: k < n - 1 ==> !StepFails(s, k)
    ensures n < 7 ==> StepFails(s, n - 1)
  {
    if s.create.Fail? then 1
    else if s.start.Fail? then 2
    else if s.attach.Fail? then 3
    else if s.write.Fail? then 4
    else if s.read.Failure? then 6
    else 7
  }

  /** A cleanup registered with `defer`. */
  datatype Deferred =
    | DeferCleanup(id: ContainerId)  // the forced removal, deferred right after create
    | DeferClose(id: ContainerId)    // the close of the attached stream, deferred after attach

  /** The defer stack when Execute returns, bottom first. */
  function Deferrals(s: Script, id: ContainerId): seq<Deferred> {
    if s.create.Fail? then []
    else if StepsRun(s) < 4 then [DeferCleanup(id)]
    else [DeferCleanup(id), DeferClose(id)]
  }

  /** The call a deferred cleanup makes. */
  function DeferredCall(d: Deferred): Call {
    match d
    case DeferCleanup(id) => Remove(id, true)
    case DeferClose(id) => Call.Close(id)
  }

  /** The calls the deferred cleanups make when the function returns: top of the stack first. */
  function Unwind(stack: seq<Deferred>): (t: seq<Call>)
    ensures |t| == |stack|
    ensures forall i :: 0 <= i < |stack| ==> t[i] == DeferredCall(stack[|stack| - 1 - i])
  {
    if stack == [] then []
    else [DeferredCall(stack[|stack| - 1])] + Unwind(stack[..|stack| - 1])
  }

  /** Containers a defer stack removes. */
  function CleanedUp(stack: seq<Deferred>): (ids: set<ContainerId>)
    ensures forall id :: id in ids <==> DeferCleanup(id) in stack
  {
    if stack == [] then {}
    else (if stack[0].DeferCleanup? then {stack[0].id} else {}) + CleanedUp(stack[1..])
  }

  /** Every call one run makes: the main steps that run, then the deferred cleanups. */
  function ExpectedTrace(image: string, event: seq<byte>, id: ContainerId, s: Script): seq<Call> {
    MainSteps(image, event, id)[..StepsRun(s)] + Unwind(Deferrals(s, id))
  }

  /** What one run returns under s. */
  function ExpectedResult(s: Script): (r: Result<seq<byte>, ExecError>)
    ensures r.Success? <==> StepsRun(s) == 7 && s.wait == Success(0)
    ensures r.Success? ==> r.value == s.read.value
    ensures r.Failure? && StepsRun(s) == 7 && s.wait.Success? ==> r.error == NonZeroExit(s.wait.value)
    ensures r.Failure? ==> (r.error.CreateFailed? <==> s.create.Fail?)
  {
    if s.create.Fail? then Failure(CreateFailed(s.create.cause))
    else if s.start.Fail? then Failure(StartFailed(s.start.cause))
    else if s.attach.Fail? then Failure(AttachFailed(s.attach.cause))
    else if s.write.Fail? then Failure(WriteFailed(s.write.cause))
    else if s.read.Failure? then Failure(ReadFailed(s.read.error))
    else if s.wait.Failure? then Failure(WaitFailed(s.wait.error))
    else if s.wait.value != 0 then Failure(NonZeroExit(s.wait.value))
    else Success(s.read.value)
  }

  // ---------------------------------------------------------------------------
  // The engine

  /** Execute's body up to its return: runs the main steps and hands back the
      defer stack it built. */
  method ExecuteSteps(docker: Daemon, fn: Function, event: seq<byte>)
    returns (r: Result<seq<byte>, ExecError>, defers: seq<Deferred>)
    requires docker.Valid()
    modifies docker`live, docker`nextId, docker`trace
    ensures docker.Valid()
    ensures r == ExpectedResult(docker.script)
    ensures defers == Deferrals(docker.script, old(docker.nextId))
    ensures docker.trace
         == old(docker.trace) + MainSteps(fn.image, event, old(docker.nextId))[..StepsRun(docker.script)]
    ensures docker.live
         == if docker.script.create.Pass? then old(docker.live) + {old(docker.nextId)} else old(docker.live)
    ensures docker.nextId == if docker.script.create.Pass? then old(docker.nextId) + 1 else old(docker.nextId)
  {
    ghost var steps := MainSteps(fn.image, event, docker.nextId);
    defers := [];
    var created := docker.ContainerCreate(fn.image, FunctionCommand);
    if created.Failure? {
      return Failure(CreateFailed(created.error)), defers;
    }
    var id := created.value;
    defers := defers + [DeferCleanup(id)];
    assert docker.trace == old(docker.trace) + steps[..1];

    var started := docker.ContainerStart(id);
    if started.Fail? {
      return Failure(StartFailed(started.cause)), defers;
    }
    assert docker.trace == old(docker.trace) + steps[..2];

    var attached := docker.ContainerAttach(id);
    if attached.Fail? {
      return Failure(AttachFailed(attached.cause)), defers;
    }
    defers := defers + [DeferClose(id)];
    assert docker.trace == old(docker.trace) + steps[..3];

    var written := docker.Write(id, event);
    if written.Fail? {
      return Failure(WriteFailed(written.cause)), defers;
    }
    docker.CloseWrite(id);
    assert docker.trace == old(docker.trace) + steps[..5];

    var output := docker.ReadAll(id);
    if output.Failure? {
      return Failure(ReadFailed(output.error)), defers;
    }
    assert docker.trace == old(docker.trace) + steps[..6];

    var status := docker.ContainerWait(id);
    assert docker.trace == old(docker.trace) + steps[..7];
    if status.Failure? {
      return Failure(WaitFailed(status.error)), defers;
    }
    if status.value != 0 {
      return Failure(NonZeroExit(status.value)), defers;
    }
    r := Success(output.value);
  }

  /** Force-removes a container; a failed removal is only logged and reported to no one. */
  method CleanupContainer(docker: Daemon, id: ContainerId)
    requires docker.Valid()
    modifies docker`live, docker`trace
    ensures docker.Valid()
    ensures docker.trace == old(docker.trace) + [Remove(id, true)]
    ensures docker.live == if docker.script.remove.Pass? then old(docker.live) - {id} else old(docker.live)
  {
    var removed := docker.ContainerRemove(id, true);
    if removed.Fail? {
      // logged as a warning; Execute's result does not change
    }
  }

  /** Runs the deferred cleanups as a Go function return does: last registered first. */
  method RunDeferred(docker: Daemon, defers: seq<Deferred>)
    requires docker.Valid()
    modifies docker`live, docker`trace
    ensures docker.Valid()
    ensures docker.trace == old(docker.trace) + Unwind(defers)
    ensures docker.live
         == if docker.script.remove.Pass? then old(docker.live) - CleanedUp(defers) else old(docker.live)
  {
    var i := |defers|;
    while i > 0
      invariant 0 <= i <= |defers|
      invariant docker.Valid()
      invariant old(docker.trace) + Unwind(defers) == docker.trace + Unwind(defers[..i])
      invariant docker.live
             == if docker.script.remove.Pass? then old(docker.live) - CleanedUp(defers[i..]) else old(docker.live)
    {
      assert defers[..i][..i - 1] == defers[..i - 1];
      assert defers[i - 1..][1..] == defers[i..];
      i := i - 1;
      match defers[i]
      case DeferClose(id) =>
        docker.Close(id);
      case DeferCleanup(id) =>
        CleanupContainer(docker, id);
    }
    assert defers[0..] == defers;
  }

  /** Runs `function` in a fresh container with `event` on its standard input and
      returns what it wrote to standard output, provided it exits with code 0. */
  method Execute(docker: Daemon, fn: Function, event: seq<byte>) returns (r: Result<seq<byte>, ExecError>)
    requires docker.Valid()
    modifies docker`live, docker`nextId, docker`trace
    ensures docker.Valid()
    ensures r == ExpectedResult(docker.script)
    ensures docker.trace == old(docker.trace) + ExpectedTrace(fn.image, event, old(docker.nextId), docker.script)
    ensures docker.live
         == if docker.script.create.Pass? && docker.script.remove.Fail? then old(docker.live) + {old(docker.nextId)}
            else old(docker.live)
    ensures docker.nextId == if docker.script.create.Pass? then old(docker.nextId) + 1 else old(docker.nextId)
  {
    var defers;
    r, defers := ExecuteSteps(docker, fn, event);
    RunDeferred(docker, defers);
  }

  // ---------------------------------------------------------------------------
  // Properties of a run

  /** A failed create ends the run with no other call: no start, no cleanup. */
  lemma CreateFailureMakesNoOtherCall(image: string, event: seq<byte>, id: ContainerId, s: Script)
    requires s.create.Fail?
    ensures ExpectedTrace(image, event, id, s) == [Create(image, FunctionCommand)]
    ensures ExpectedResult(s) == Failure(CreateFailed(s.create.cause))
  {
  }

  /** Once the container exists it is force-removed exactly once, as the very last call. */
  lemma RemovedExactlyOnce(image: string, event: seq<byte>, id: ContainerId, s: Script)
    requires s.create.Pass?
    ensures var t := ExpectedTrace(image, event, id, s);
      t[|t| - 1] == Remove(id, true) && forall i :: 0 <= i < |t| - 1 ==> !t[i].Remove?
  {
  }

  /** Without a container there is nothing to remove: no call of the run is a removal. */
  lemma NoRemovalWithoutContainer(image: string, event: seq<byte>, id: ContainerId, s: Script)
    requires s.create.Fail?
    ensures forall c :: c in ExpectedTrace(image, event, id, s) ==> !c.Remove?
  {
  }

  /** After a successful attach the stream is closed exactly once, right before the removal;
      before that, the stream is never closed. */
  lemma StreamClosedBeforeRemoval(image: string, event: seq<byte>, id: ContainerId, s: Script)
    requires s.create.Pass?
    ensures var t := ExpectedTrace(image, event, id, s);
      (StepsRun(s) >= 4 <==> Call.Close(id) in t) &&
      (StepsRun(s) >= 4 ==>
        t[|t| - 2] == Call.Close(id) && t[|t| - 1] == Remove(id, true) &&
        forall i :: 0 <= i < |t| - 2 ==> !t[i].Close?)
  {
  }

  /** The main steps run in source order and stop at the first failure: the trace starts
      with exactly those steps, and whatever follows is cleanup. */
  lemma StepsInOrder(image: string, event: seq<byte>, id: ContainerId, s: Script)
    ensures var t := ExpectedTrace(image, event, id, s);
      t[..StepsRun(s)] == MainSteps(image, event, id)[..StepsRun(s)] &&
      (forall i :: StepsRun(s) <= i < |t| ==> t[i].Close? || t[i].Remove?) &&
      (forall k: nat :: k < StepsRun(s) - 1 ==> !StepFails(s, k)) &&
      (StepsRun(s) < 7 ==> StepFails(s, StepsRun(s) - 1))
  {
  }

  /** The container is created from the function's image with the fixed entry command, and
      the whole event is written before the input side is closed. */
  lemma CreatesImageAndWritesEventFirst(image: string, event: seq<byte>, id: ContainerId, s: Script)
    ensures var t := ExpectedTrace(image, event, id, s);
      t[0] == Create(image, ["/app/function"]) &&
      (forall i :: 0 <= i < |t| && t[i].CloseWrite? ==> i == 4 && t[3] == Call.Write(id, event) && s.write.Pass?)
  {
  }

  /** A failed removal is only logged: the result is the same whatever the removal answers. */
  lemma CleanupFailureDoesNotMask(s: Script, removal: Outcome)
    ensures ExpectedResult(s.(remove := removal)) == ExpectedResult(s)
  {
  }

  /** A non-zero exit code or a failed wait yields an error and no output. */
  lemma ExitFailureYieldsNoOutput(s: Script)
    requires StepsRun(s) == 7
    requires s.wait.Failure? || s.wait.value != 0
    ensures ExpectedResult(s).Failure?
    ensures s.wait.Failure? ==> ExpectedResult(s) == Failure(WaitFailed(s.wait.error))
  {
  }
}
