# Serverless function platform: engine, coordinator and registry

This project models the core of a small serverless platform written in Go.
A user deploys a function (a container image) under a unique name, then
invokes it over HTTP. Each invocation runs the function in a fresh Docker
container: the request body is written to the container's standard input,
and its standard output becomes the response body.

Three parts are modelled:

- **Registry** (`storage.dfy`, module `Storage`): the SQLite table of deployed
  functions, with a unique constraint on the name. `Store` is a class over a
  `map<string, Function>`. `CreateFunction` inserts in place and fails on a
  taken name. `GetFunction` looks a record up and changes nothing. The pure
  functions `Insert` and `Lookup` specify the two operations, and lemmas
  state register-then-lookup, duplicate rejection and that other names are
  left alone.
- **Execution engine** (`orchestrator.dfy`, module `Orchestrator`). `Execute`
  makes daemon calls in a fixed order: create, start, attach, write the
  event, close the write side, read all output, wait. Two cleanups are
  registered with Go's `defer`: force-removing the container and closing the
  attached stream. The model keeps those as an explicit defer stack.
  `ExecuteSteps` is the body up to its return. `RunDeferred` unwinds the
  stack last-in-first-out, as a Go return does. The Docker daemon is a
  scripted stand-in (`docker.dfy`, class `Docker.Daemon`). A `Script` value
  fixes every call's answer. The daemon records each call in a ghost trace
  and tracks the set of live containers. The pure functions `StepsRun`,
  `ExpectedTrace` and `ExpectedResult` give the whole run. Lemmas prove that
  the run is ordered, stops at the first failure, and removes the container
  exactly once as its last call, right after closing the stream when attach
  succeeded. They also
  prove that a failed removal never changes the result.
- **Request coordinator** (`server.dfy`, module `Server`). `HandleDeploy` and
  `HandleInvoke` are the two HTTP handlers. Each is a chain of guards: the
  method check, body decoding and validation, name extraction by trimming
  `/invoke/`, the registry lookup, the event read, and finally the engine
  call. Each guard ends in a status and a body. The pure functions
  `DeployResponse`, `DeployTable`, `InvokeGuards` and `InvokeResponse` state
  the outcome for a given request, table and engine result. The methods are
  proved to write the store and call the engine only when every earlier
  guard passes.

`format.dfy` (module `Format`) renders exit codes in decimal, as Go's `%d`
does in "container exited with code N". `NatDecimalRoundTrip` proves that
the rendering can be read back. `scenarios.dfy` states three concrete
invocations against the scripted daemon and proves their responses: the example greeting function, a
function that exits with code 1, a name that was never deployed, and a run whose
container removal fails.

Facts about the Go code that the model reproduces:

- The code has no invocation deadline. It calls the engine with a
  background context, so there is no timeout outcome.
- An unreadable event gets 400 before the engine runs.
- A redeploy of a taken name is rejected with 500 by the unique constraint.
  It does not overwrite the record.
- After a non-zero exit, the output read so far is dropped and not attached
  to the error.
- Error responses go through net/http's `Error` helper. Its body is the
  message plus a newline, with content type `text/plain; charset=utf-8`.

## Model

| member | source | states |
|---|---|---|
| `Storage.Insert` | pkg/storage/storage.go:43-54 | an insert succeeds iff the name is absent; on success it adds exactly the new record and keeps every old record; on failure it reports the unique-constraint violation |
| `Storage.Lookup` | pkg/storage/storage.go:57-63 | a lookup succeeds iff the name is present, and then yields that name's record; otherwise it reports record-not-found |
| `Storage.InsertKeepsWellKeyed` | pkg/storage/storage.go:14-19 | inserting keeps every record under its own name (the unique index on Name) |
| `Storage.RegisterThenLookup` | pkg/storage/storage.go:43-63 | after inserting (n, i, r) under a new name, looking n up gives exactly Function(n, i, r) |
| `Storage.DuplicateRejected` | pkg/storage/storage.go:49-51 | inserting a taken name fails with the constraint violation and leaves the table and the existing record unchanged |
| `Storage.InsertLeavesOthers` | pkg/storage/storage.go:43-54 | an insert leaves the lookup of every other name unchanged |
| `Storage.InsertAddsOne` | pkg/storage/storage.go:43-54 | a successful insert grows the table by exactly one record |
| `Storage.Store.constructor` | pkg/storage/storage.go:28-40 | a new store starts with an empty table |
| `Storage.Store.CreateFunction` | pkg/storage/storage.go:43-54 | succeeds iff the name was absent; the table becomes the insert's result and stays well keyed; the call is recorded in the ghost `attempts` |
| `Storage.Store.GetFunction` | pkg/storage/storage.go:57-63 | returns the lookup of the name in the current table, a record carrying that name, and modifies nothing |
| `Docker.Daemon.constructor` | pkg/orchestrator/orchestrator.go:27-33 | the scripted stand-in that replaces the Docker client NewOrchestrator opens starts with no containers and an empty call trace |
| `Docker.Daemon.ContainerCreate` | pkg/orchestrator/orchestrator.go:38-44 | records the create call; on success hands out a fresh id that was not live and adds it to the live set |
| `Docker.Daemon.ContainerStart` | pkg/orchestrator/orchestrator.go:48-50 | records the start call and answers the scripted outcome |
| `Docker.Daemon.ContainerAttach` | pkg/orchestrator/orchestrator.go:53-60 | records the attach call and answers the scripted outcome |
| `Docker.Daemon.Write` | pkg/orchestrator/orchestrator.go:63-66 | records the write of the event bytes and answers the scripted outcome |
| `Docker.Daemon.CloseWrite` | pkg/orchestrator/orchestrator.go:67 | records the close of the write side; its error is ignored |
| `Docker.Daemon.ReadAll` | pkg/orchestrator/orchestrator.go:70-74 | records the read and answers the scripted output or copy error |
| `Docker.Daemon.ContainerWait` | pkg/orchestrator/orchestrator.go:77-85 | records the wait and answers the scripted exit code or wait error |
| `Docker.Daemon.Close` | pkg/orchestrator/orchestrator.go:61 | records the close of the attached stream |
| `Docker.Daemon.ContainerRemove` | pkg/orchestrator/orchestrator.go:93 | records the removal; the container leaves the live set iff the removal succeeds |
| `Format.NatToDecimal` | pkg/orchestrator/orchestrator.go:83 | the numeral is non-empty, all digits, and has no leading zero |
| `Format.IntToDecimal` | pkg/orchestrator/orchestrator.go:83 | the numeral is non-empty and starts with '-' iff the integer is negative |
| `Format.NatDecimalRoundTrip` | pkg/orchestrator/orchestrator.go:83 | parsing the decimal rendering of a natural number gives the number back |
| `Format.IntDecimalRoundTrip` | pkg/orchestrator/orchestrator.go:83 | parsing the `%d` rendering of an exit code gives the code back |
| `Format.IntToDecimalInjective` | pkg/orchestrator/orchestrator.go:83 | distinct exit codes give distinct messages |
| `Orchestrator.Message` | pkg/orchestrator/orchestrator.go:78-84 | a non-zero exit's message is "container exited with code " followed by the code in decimal |
| `Orchestrator.MainSteps` | pkg/orchestrator/orchestrator.go:38-85 | the main path has exactly seven calls |
| `Orchestrator.StepsRun` | pkg/orchestrator/orchestrator.go:38-85 | the steps that run are exactly those up to the first failing one: none before it failed, and the last one failed unless all seven ran |
| `Orchestrator.Unwind` | pkg/orchestrator/orchestrator.go:45-61 | deferred cleanups run in reverse order of registration, one call each |
| `Orchestrator.CleanedUp` | pkg/orchestrator/orchestrator.go:45 | the containers a defer stack removes are exactly those with a deferred cleanup on it |
| `Orchestrator.ExpectedResult` | pkg/orchestrator/orchestrator.go:36-89 | success iff all seven steps ran and the exit code is 0; then the output is exactly the bytes read; a non-zero exit yields the exit-code error; a create failure yields the create error |
| `Orchestrator.ExecuteSteps` | pkg/orchestrator/orchestrator.go:36-88 | runs exactly the main steps StepsRun allows, in order, returns ExpectedResult, and returns the defer stack: cleanup after create, and stream close after attach |
| `Orchestrator.CleanupContainer` | pkg/orchestrator/orchestrator.go:92-96 | makes exactly one forced removal call; its failure changes nothing but the live set |
| `Orchestrator.RunDeferred` | pkg/orchestrator/orchestrator.go:45-61 | runs every deferred cleanup, last registered first; removals take their containers out of the live set |
| `Orchestrator.Execute` | pkg/orchestrator/orchestrator.go:36-96 | returns ExpectedResult; the trace grows by ExpectedTrace; the live set is unchanged unless the final removal failed |
| `Orchestrator.CreateFailureMakesNoOtherCall` | pkg/orchestrator/orchestrator.go:38-44 | a failed create is the only call made (no cleanup) and yields the create error |
| `Orchestrator.RemovedExactlyOnce` | pkg/orchestrator/orchestrator.go:45-96 | once the container exists, the last call is its forced removal and no earlier call is a removal, on every return path |
| `Orchestrator.NoRemovalWithoutContainer` | pkg/orchestrator/orchestrator.go:42-45 | when create fails, no call of the run is a removal |
| `Orchestrator.StreamClosedBeforeRemoval` | pkg/orchestrator/orchestrator.go:45-61 | the stream is closed iff attach succeeded; then the close is the second-to-last call, right before the removal, and is not made earlier |
| `Orchestrator.StepsInOrder` | pkg/orchestrator/orchestrator.go:38-85 | the trace starts with the main steps in source order up to the first failure, and only cleanup calls follow |
| `Orchestrator.CreatesImageAndWritesEventFirst` | pkg/orchestrator/orchestrator.go:38-67 | the container is created from the function's image with command /app/function; the write side is closed only right after the whole event was written successfully |
| `Orchestrator.CleanupFailureDoesNotMask` | pkg/orchestrator/orchestrator.go:92-96 | the result is the same whatever the removal answers |
| `Orchestrator.ExitFailureYieldsNoOutput` | pkg/orchestrator/orchestrator.go:76-85 | a wait error or a non-zero exit code yields an error and no output |
| `Server.TrimPrefix` | pkg/server/server.go:135 | with the prefix present, prefix + result is the path; otherwise the path is returned unchanged |
| `Server.TrimPrefixOfConcat` | pkg/server/server.go:135 | trimming "/invoke/" from "/invoke/" + name gives the name |
| `Server.DeployGuards` | pkg/server/server.go:88-111 | the guards pass iff the method is POST, the body decoded and name, image and runtime are all non-empty; otherwise the status is 405 for the method and 400 for the body |
| `Server.DeployResponse` | pkg/server/server.go:87-123 | 200 with an empty body iff the guards pass and the name is new; 500 iff the guards pass and the name is taken |
| `Server.HandleDeploy` | pkg/server/server.go:87-123 | answers DeployResponse; the table becomes DeployTable; CreateFunction is called only when every guard passes |
| `Server.DeployWrongMethod` | pkg/server/server.go:88-92 | a non-POST deploy gets 405 and the table is untouched |
| `Server.DeployUndecodable` | pkg/server/server.go:100-104 | an undecodable body gets 400 and nothing is stored |
| `Server.DeployMissingField` | pkg/server/server.go:107-111 | an empty name, image or runtime gets 400 and nothing is stored |
| `Server.RedeployRejected` | pkg/server/server.go:114-118 | a store error (the name is taken) gets 500 and the table is unchanged |
| `Server.DeploySucceeds` | pkg/server/server.go:114-122 | a valid deploy of a new name gets 200 with an empty body and stores exactly that record |
| `Server.InvokeGuards` | pkg/server/server.go:128-156 | the engine runs iff the method is POST, the trimmed name is non-empty and registered, and the body was read; it then runs on that name's record and the body |
| `Server.EngineResponse` | pkg/server/server.go:159-175 | 200 iff the engine succeeded, then with JSON content type and exactly the output; 500 on any engine error |
| `Server.InvokeResponse` | pkg/server/server.go:127-175 | the status is 200 iff every guard passes and the engine succeeds |
| `Server.HandleInvoke` | pkg/server/server.go:127-176 | answers InvokeResponse; the daemon sees no call and no state change unless every guard passes, and then exactly one run of Execute: its trace, the next id and the live set as Execute gives them (no container left behind unless the removal fails) |
| `Server.InvokeWrongMethod` | pkg/server/server.go:128-132 | a non-POST invoke gets 405 and the engine is not called |
| `Server.InvokeNameRequired` | pkg/server/server.go:135-140 | an empty name after trimming gets 400, whatever the table holds (no lookup matters) |
| `Server.InvokeNotFound` | pkg/server/server.go:143-148 | an unregistered name gets 404, even when the body is unreadable, and the engine is not called |
| `Server.InvokeUnreadableEvent` | pkg/server/server.go:151-156 | an unreadable event gets 400 |
| `Server.InvokeEngineFailure` | pkg/server/server.go:159-164 | an engine error gets 500 with body "Function execution failed: " + the error text + newline |
| `Server.InvokeSucceeds` | pkg/server/server.go:169-175 | engine success gets 200, application/json, and a body equal to the engine's output |
| `Server.DeployThenInvoke` | pkg/server/server.go:114-148 | after deploying a new name, invoking /invoke/ + name runs the engine on exactly the deployed record and the given event |
| `Scenarios.EchoInvocation` | functions/example/main.go:19-35 | deploying echo and invoking it with {"data":"world"} gets 200 with exactly the greeting output, and no container remains |
| `Scenarios.ExitCodeOneMessage` | pkg/orchestrator/orchestrator.go:82-84 | an exit with code 1 becomes 500 "Function execution failed: container exited with code 1" |
| `Scenarios.FailingInvocation` | pkg/server/server.go:159-164 | a function exiting with 1 gets that 500 response, and cleanup removed its container |
| `Scenarios.UnknownInvocation` | pkg/server/server.go:143-148 | invoking a name never deployed gets 404 and creates no container |
| `Scenarios.FailedRemovalInvocation` | pkg/orchestrator/orchestrator.go:92-96 | a failed forced removal leaves the 200 response unchanged and its one container live |

## Left out

- `Server.Run` (the listener goroutine, the shutdown `select` and its 5-second grace period) is concurrency and wall-clock time. The HTTP server's read, write and idle timeouts are left out for the same reason.
- Concurrent invocations are not modelled. Each handler call is one sequential run, so cross-talk between sandboxes is not examined.
- The request context and any deadline are not modelled. The code passes a background context, so no invocation can time out.
- `NewOrchestrator`, `NewServer` and `NewStore` only wrap library setup errors. `NewStore` is modelled only as a store with an empty table. Schema migration is not modelled.
- The CLI, the command wiring and the example function's JSON handling are not modelled. The example function's output appears only as scripted daemon output in `Scenarios`.
- JSON decoding of the deploy body is not modelled. A request carries either the decoded fields or the decoder's error.
- Reading the invoke body is not modelled. A request carries either the bytes or the read error.
- Logging is not modelled: the logrus calls, the `fmt.Println` in the invoke handler, and the warning logged on a failed removal.
- `Storage.Store.CreateFunction`: fails only on the unique constraint. Other SQLite errors, such as disk I/O, are not modelled.
- `Storage.Store.GetFunction`: fails only when no record has the name. Other database errors are not modelled.
- The `gorm.Model` columns (ID, timestamps, soft delete) are not modelled.
- The Docker daemon is a scripted stand-in. One `Script` fixes each call's answer. The model does not cover the wire protocol, the multiplexing of the attach stream, partial writes, or the chunked reads inside `io.Copy`. A read is one step that yields all bytes or an error.
- A failed forced removal is assumed to leave the container in the live set.
- The error from closing the write side is ignored, as in the code.
- A failed write of the success response is ignored, as in the code, so it is not modelled.
- Exit codes are unbounded integers. Docker's 64-bit status code is not bounded.
- Headers other than Content-Type are not modelled, such as the `X-Content-Type-Options` header that net/http's Error helper adds.
