/** A stand-in for the Docker daemon and the hijacked attach connection the
    engine drives. What each call answers is fixed by a Script; every call is
    appended to a ghost trace, and the daemon tracks which containers exist. */
module Docker {
  import opened Base

  type ContainerId = nat

  /** One call the engine makes on the daemon or on the attached stream. */
  datatype Call =
    | Create(image: string, cmd: seq<string>)  // ContainerCreate
    | Start(id: ContainerId)                   // ContainerStart
    | Attach(id: ContainerId)                  // ContainerAttach (stdin, stdout, stream)
    | Write(id: ContainerId, data: seq<byte>)  // hijacked.Conn.Write
    | CloseWrite(id: ContainerId)              // hijacked.CloseWrite
    | Read(id: ContainerId)                    // io.Copy from hijacked.Reader to end of stream
    | Wait(id: ContainerId)                    // ContainerWait until not running
    | Close(id: ContainerId)                   // hijacked.Close
    | Remove(id: ContainerId, force: bool)     // ContainerRemove

  /** The answers the daemon gives: one per kind of call. */
  datatype Script = Script(
    create: Outcome,
    start: Outcome,
    attach: Outcome,
    write: Outcome,
    read: Result<seq<byte>, string>,  // everything the container wrote, or the copy error
    wait: Result<int, string>,        // the exit status code, or the error channel's value
    remove: Outcome)

  class Daemon {
    var script: Script
    /** Containers created and not yet removed. */
    var live: set<ContainerId>
    /** The id the next created container gets. */
    var nextId: ContainerId
    /** Every call made so far, in order. */
    ghost var trace: seq<Call>

    /** Ids handed out are never reused. */
    ghost predicate Valid()
      reads this
    {
      forall id :: id in live ==> id < nextId
    }

    constructor (script: Script)
      ensures Valid() && this.script == script && live == {} && nextId == 0 && trace == []
    {
      this.script := script;
      live := {};
      nextId := 0;
      trace := [];
    }

    method ContainerCreate(image: string, cmd: seq<string>) returns (r: Result<ContainerId, string>)
      requires Valid()
      modifies this`live, this`nextId, this`trace
      ensures Valid()
      ensures trace == old(trace) + [Create(image, cmd)]
      ensures r == if script.create.Pass? then Success(old(nextId)) else Failure(script.create.cause)
      ensures r.Success? ==> r.value !in old(live)
      ensures live == if r.Success? then old(live) + {old(nextId)} else old(live)
      ensures nextId == if r.Success? then old(nextId) + 1 else old(nextId)
    {
      trace := trace + [Create(image, cmd)];
      if script.create.Fail? {
        return Failure(script.create.cause);
      }
      r := Success(nextId);
      live := live + {nextId};
      nextId := nextId + 1;
    }

    method ContainerStart(id: ContainerId) returns (r: Outcome)
      modifies this`trace
      ensures trace == old(trace) + [Start(id)] && r == script.start
    {
      trace := trace + [Start(id)];
      r := script.start;
    }

    method ContainerAttach(id: ContainerId) returns (r: Outcome)
      modifies this`trace
      ensures trace == old(trace) + [Attach(id)] && r == script.attach
    {
      trace := trace + [Attach(id)];
      r := script.attach;
    }

    method Write(id: ContainerId, data: seq<byte>) returns (r: Outcome)
      modifies this`trace
      ensures trace == old(trace) + [Call.Write(id, data)] && r == script.write
    {
      trace := trace + [Call.Write(id, data)];
      r := script.write;
    }

    method CloseWrite(id: ContainerId)
      modifies this`trace
      ensures trace == old(trace) + [Call.CloseWrite(id)]
    {
      trace := trace + [Call.CloseWrite(id)];
    }

    method ReadAll(id: ContainerId) returns (r: Result<seq<byte>, string>)
      modifies this`trace
      ensures trace == old(trace) + [Read(id)] && r == script.read
    {
      trace := trace + [Read(id)];
      r := script.read;
    }

    method ContainerWait(id: ContainerId) returns (r: Result<int, string>)
      modifies this`trace
      ensures trace == old(trace) + [Wait(id)] && r == script.wait
    {
      trace := trace + [Wait(id)];
      r := script.wait;
    }

    method Close(id: ContainerId)
      modifies this`trace
      ensures trace == old(trace) + [Call.Close(id)]
    {
      trace := trace + [Call.Close(id)];
    }

    method ContainerRemove(id: ContainerId, force: bool) returns (r: Outcome)
      requires Valid()
      modifies this`live, this`trace
      ensures Valid()
      ensures trace == old(trace) + [Remove(id, force)] && r == script.remove
      ensures live == if r.Pass? then old(live) - {id} else old(live)
    {
      trace := trace + [Remove(id, force)];
      r := script.remove;
      if r.Pass? {
        live := live - {id};
      }
    }
  }
}
