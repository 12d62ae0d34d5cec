/** Concrete runs of the coordinator against a scripted daemon: the example
    function that greets its caller, one that exits with code 1, and a call
    to a function that was never deployed. */
module Scenarios {
  import opened Base
  import opened Storage
  import opened Docker
  import opened Server
  import Format
  import Orchestrator

  /** The bytes of an ASCII string. */
  function Ascii(s: string): (b: seq<byte>)
    requires forall i :: 0 <= i < |s| ==> s[i] as int < 128
    ensures |b| == |s| && forall i :: 0 <= i < |s| ==> b[i] as int == s[i] as int
  {
    seq(|s|, i requires 0 <= i < |s| => s[i] as int as byte)
  }

  /** What the example function writes for an event whose data field is `data`:
      a JSON object greeting it, ended by the newline the JSON encoder adds. */
  function Greeting(data: string): string {
    "{\"result\":\"Hey, " + data + "\"}\n"
  }

  const EchoMetadata := Metadata("echo", "echo:latest", "go")
  const EchoEvent := "{\"data\":\"world\"}"

  /** A daemon whose container runs to completion with the given exit code and output. */
  function RunsToExit(code: int, output: seq<byte>): Script {
    Script(Pass, Pass, Pass, Pass, Success(output), Success(code), Pass)
  }

  /** Deploying `echo` and invoking it answers 200 with exactly the greeting, and the
      container is gone afterwards. The body is the output the script gives the daemon's
      read: the greeting itself, without the frame headers Docker puts on an attach stream
      of a container created without a terminal. */
  method EchoInvocation() returns (resp: Response, leftover: set<ContainerId>)
    ensures resp == Response(200, "application/json", Data(Ascii(Greeting("world"))))
    ensures leftover == {}
  {
    var store := new Store();
    var deployed := HandleDeploy(store, DeployRequest(MethodPost, Success(EchoMetadata)));
    assert deployed.status == 200;
    var docker := new Daemon(RunsToExit(0, Ascii(Greeting("world"))));
    resp := HandleInvoke(store, docker, InvokeRequest(MethodPost, "/invoke/echo", Success(Ascii(EchoEvent))));
    leftover := docker.live;
  }

  /** The response text for an exit with code 1. */
  lemma ExitCodeOneMessage()
    ensures EngineResponse(Failure(Orchestrator.NonZeroExit(1)))
         == HttpError("Function execution failed: " + "container exited with code " + "1", 500)
  {
    assert Format.NatToDecimal(1) == [Format.DigitChar(1)] == "1";
    var exit := "container exited with code ";
    assert Orchestrator.Message(Orchestrator.NonZeroExit(1)) == exit + "1";
    assert "Function execution failed: " + (exit + "1") == "Function execution failed: " + exit + "1";
  }

  /** A function that exits with code 1 answers 500 naming the exit code, and cleanup
      still removed its container. */
  method FailingInvocation() returns (resp: Response, leftover: set<ContainerId>)
    ensures resp == HttpError("Function execution failed: " + "container exited with code " + "1", 500)
    ensures leftover == {}
  {
    var store := new Store();
    var deployed := HandleDeploy(store, DeployRequest(MethodPost, Success(EchoMetadata)));
    var docker := new Daemon(RunsToExit(1, Ascii(Greeting("world"))));
    ExitCodeOneMessage();
    resp := HandleInvoke(store, docker, InvokeRequest(MethodPost, "/invoke/echo", Success(Ascii(EchoEvent))));
    leftover := docker.live;
  }

  /** Invoking a name nobody deployed answers 404 and creates no container. */
  method UnknownInvocation() returns (resp: Response, created: nat)
    ensures resp == Response(404, "text/plain; charset=utf-8", Text("Function not found\n"))
    ensures created == 0
  {
    var store := new Store();
    var docker := new Daemon(RunsToExit(0, []));
    TrimPrefixOfConcat(InvokePrefix, "missing");
    assert InvokePrefix + "missing" == "/invoke/missing";
    resp := HandleInvoke(store, docker, InvokeRequest(MethodPost, "/invoke/missing", Success([])));
    assert "Function not found" + "\n" == "Function not found\n";
    created := docker.nextId;
  }

  /** When the forced removal fails, the invocation still answers 200 with the output, and the
      one container it created stays behind: a failed cleanup is only logged. */
  method FailedRemovalInvocation() returns (resp: Response, leftover: set<ContainerId>, created: nat)
    ensures resp == Response(200, "application/json", Data([]))
    ensures leftover == {0} && created == 1
  {
    var store := new Store();
    var deployed := HandleDeploy(store, DeployRequest(MethodPost, Success(EchoMetadata)));
    var docker := new Daemon(Script(Pass, Pass, Pass, Pass, Success([]), Success(0), Fail("busy")));
    resp := HandleInvoke(store, docker, InvokeRequest(MethodPost, "/invoke/echo", Success([])));
    leftover := docker.live;
    created := docker.nextId;
  }
}
