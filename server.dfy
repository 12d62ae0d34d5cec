/** The request coordinator: the deploy and invoke HTTP handlers, each a chain
    of guards that ends either in an error response or in a call to the store
    or the engine. */
module Server {
  import opened Base
  import opened Storage
  import opened Docker
  import opened Orchestrator

  const MethodPost := "POST"
  const InvokePrefix := "/invoke/"
  const ContentTypeJson := "application/json"
  /** The content type net/http's Error helper sets. */
  const ContentTypeText := "text/plain; charset=utf-8"

  const StatusOK := 200
  const StatusBadRequest := 400
  const StatusNotFound := 404
  const StatusMethodNotAllowed := 405
  const StatusInternalServerError := 500

  /** A response body: a line of text written by the Error helper, or raw bytes. */
  datatype Body = Text(text: string) | Data(bytes: seq<byte>)

  /** Status, Content-Type header ("" when the handler sets none) and body. */
  datatype Response = Response(status: int, contentType: string, body: Body)

  /** The fields of a deploy request body. */
  datatype Metadata = Metadata(name: string, image: string, runtime: string)

  /** A request to /functions: its method and its JSON body, decoded or the decoder's error. */
  datatype DeployRequest = DeployRequest(httpMethod: string, body: Result<Metadata, string>)

  /** A request to /invoke/: its method, URL path, and the body as read or the read error. */
  datatype InvokeRequest = InvokeRequest(httpMethod: string, path: string, body: Result<seq<byte>, string>)

  /** net/http's Error: the message and a newline, as plain text, under the given status. */
  function HttpError(msg: string, code: int): Response {
    Response(code, ContentTypeText, Text(msg + "\n"))
  }

  /** strings.TrimPrefix: s without a leading prefix, or s itself when it does not start with it. */
  function TrimPrefix(s: string, prefix: string): (r: string)
    ensures prefix <= s ==> prefix + r == s
    ensures !(prefix <= s) ==> r == s
  {
    if prefix <= s then s[|prefix|..] else s
  }

  /** Trimming a prefix that was just prepended gives back the rest. */
  lemma TrimPrefixOfConcat(prefix: string, rest: string)
    ensures TrimPrefix(prefix + rest, prefix) == rest
  {
  }

  // ---------------------------------------------------------------------------
  // Deploy

  /** The guards of handleDeploy before the store write: the metadata to store, or the
      response that ends the request. */
  function DeployGuards(req: DeployRequest): (r: Result<Metadata, Response>)
    ensures r.Success? <==>
      req.httpMethod == MethodPost && req.body.Success? &&
      req.body.value.name != "" && req.body.value.image != "" && req.body.value.runtime != ""
    ensures r.Success? ==> r.value == req.body.value
    ensures r.Failure? ==> r.error.status == (if req.httpMethod != MethodPost then 405 else 400)
  {
    if req.httpMethod != MethodPost then Failure(HttpError("Method not allowed", StatusMethodNotAllowed))
    else if req.body.Failure? then Failure(HttpError("Invalid request body", StatusBadRequest))
    else
      var m := req.body.value;
      if m.name == "" || m.image == "" || m.runtime == "" then
        Failure(HttpError("Missing required fields", StatusBadRequest))
      else Success(m)
  }

  /** The response handleDeploy writes, given the table before the request. */
  function DeployResponse(req: DeployRequest, table: map<string, Function>): (resp: Response)
    ensures resp.status == 200 <==> DeployGuards(req).Success? && req.body.value.name !in table
    ensures resp.status == 500 <==> DeployGuards(req).Success? && req.body.value.name in table
    ensures resp.status == 200 ==> resp == Response(200, "", Data([]))
  {
    match DeployGuards(req)
    case Failure(guard) => guard
    case Success(m) =>
      if Insert(table, m.name, m.image, m.runtime).Failure? then
        HttpError("Failed to store function", StatusInternalServerError)
      else Response(StatusOK, "", Data([]))
  }

  /** The table after handleDeploy: changed only when every guard passes. */
  function DeployTable(req: DeployRequest, table: map<string, Function>): map<string, Function> {
    match DeployGuards(req)
    case Failure(_) => table
    case Success(m) => AfterInsert(table, m.name, m.image, m.runtime)
  }

  /** Handles POST /functions: validates the metadata and stores the function. */
  method HandleDeploy(store: Store, req: DeployRequest) returns (resp: Response)
    requires store.Valid()
    modifies store
    ensures store.Valid()
    ensures resp == DeployResponse(req, old(store.table))
    ensures store.table == DeployTable(req, old(store.table))
    ensures store.attempts == old(store.attempts) +
      (if DeployGuards(req).Success?
       then [Function(req.body.value.name, req.body.value.image, req.body.value.runtime)] else [])
  {
    if req.httpMethod != MethodPost {
      return HttpError("Method not allowed", StatusMethodNotAllowed);
    }
    if req.body.Failure? {
      return HttpError("Invalid request body", StatusBadRequest);
    }
    var metadata := req.body.value;
    if metadata.name == "" || metadata.image == "" || metadata.runtime == "" {
      return HttpError("Missing required fields", StatusBadRequest);
    }
    var stored := store.CreateFunction(metadata.name, metadata.image, metadata.runtime);
    if stored.Fail? {
      return HttpError("Failed to store function", StatusInternalServerError);
    }
    resp := Response(StatusOK, "", Data([]));
  }

  /** A method other than POST gets 405 and the table is not touched. */
  lemma DeployWrongMethod(req: DeployRequest, table: map<string, Function>)
    requires req.httpMethod != MethodPost
    ensures DeployResponse(req, table) == HttpError("Method not allowed", 405)
    ensures DeployGuards(req).Failure? && DeployTable(req, table) == table
  {
  }

  /** An undecodable body gets 400 and nothing is stored. */
  lemma DeployUndecodable(req: DeployRequest, table: map<string, Function>)
    requires req.httpMethod == MethodPost && req.body.Failure?
    ensures DeployResponse(req, table) == HttpError("Invalid request body", 400)
    ensures DeployGuards(req).Failure? && DeployTable(req, table) == table
  {
  }

  /** An empty name, image or runtime gets 400 and the store is never asked. */
  lemma DeployMissingField(req: DeployRequest, table: map<string, Function>)
    requires req.httpMethod == MethodPost && req.body.Success?
    requires req.body.value.name == "" || req.body.value.image == "" || req.body.value.runtime == ""
    ensures DeployResponse(req, table) == HttpError("Missing required fields", 400)
    ensures DeployGuards(req).Failure? && DeployTable(req, table) == table
  {
  }

  /** Redeploying a taken name is rejected with 500 and the registered record stays. */
  lemma RedeployRejected(req: DeployRequest, table: map<string, Function>)
    requires DeployGuards(req).Success? && req.body.value.name in table
    ensures DeployResponse(req, table) == HttpError("Failed to store function", 500)
    ensures DeployTable(req, table) == table
  {
  }

  /** A valid deploy of a new name answers 200 with an empty body and registers exactly that record. */
  lemma DeploySucceeds(req: DeployRequest, table: map<string, Function>)
    requires DeployGuards(req).Success? && req.body.value.name !in table
    ensures DeployResponse(req, table) == Response(200, "", Data([]))
    ensures var m := req.body.value;
      DeployTable(req, table) == table[m.name := Function(m.name, m.image, m.runtime)]
  {
  }

  // ---------------------------------------------------------------------------
  // Invoke

  /** Where handleInvoke's guards lead: a response, or a call of the engine. */
  datatype InvokePlan = Reply(resp: Response) | Run(fn: Function, event: seq<byte>)

  /** The guards of handleInvoke before the engine call, in source order:
      method, function name, lookup, event read. */
  function InvokeGuards(req: InvokeRequest, table: map<string, Function>): (p: InvokePlan)
    ensures var name := TrimPrefix(req.path, InvokePrefix);
      p.Run? <==> req.httpMethod == MethodPost && name != "" && name in table && req.body.Success?
    ensures p.Run? ==> p.fn == table[TrimPrefix(req.path, InvokePrefix)] && p.event == req.body.value
  {
    if req.httpMethod != MethodPost then Reply(HttpError("Method not allowed", StatusMethodNotAllowed))
    else
      var name := TrimPrefix(req.path, InvokePrefix);
      if name == "" then Reply(HttpError("Function name required", StatusBadRequest))
      else match Lookup(table, name)
        case Failure(_) => Reply(HttpError("Function not found", StatusNotFound))
        case Success(f) =>
          if req.body.Failure? then Reply(HttpError("Failed to read event", StatusBadRequest))
          else Run(f, req.body.value)
  }

  /** The response for what the engine returned. */
  function EngineResponse(outcome: Result<seq<byte>, ExecError>): (resp: Response)
    ensures resp.status == 200 <==> outcome.Success?
    ensures outcome.Success? ==> resp.contentType == ContentTypeJson && resp.body == Data(outcome.value)
    ensures outcome.Failure? ==> resp.status == 500
  {
    match outcome
    case Failure(e) => HttpError("Function execution failed: " + Message(e), StatusInternalServerError)
    case Success(output) => Response(StatusOK, ContentTypeJson, Data(output))
  }

  /** The response handleInvoke writes, given the table and what the engine would return. */
  function InvokeResponse(req: InvokeRequest, table: map<string, Function>, outcome: Result<seq<byte>, ExecError>)
    : (resp: Response)
    ensures resp.status == 200 <==> InvokeGuards(req, table).Run? && outcome.Success?
  {
    match InvokeGuards(req, table)
    case Reply(r) => r
    case Run(_, _) => EngineResponse(outcome)
  }

  /** The daemon calls one invocation makes: none unless every guard passes. */
  function EngineCalls(req: InvokeRequest, table: map<string, Function>, id: ContainerId, s: Script): seq<Call> {
    match InvokeGuards(req, table)
    case Reply(_) => []
    case Run(f, event) => ExpectedTrace(f.image, event, id, s)
  }

  /** Handles POST /invoke/{name}: looks the function up and runs it on the request body. */
  method HandleInvoke(store: Store, docker: Daemon, req: InvokeRequest) returns (resp: Response)
    requires store.Valid() && docker.Valid()
    modifies docker`live, docker`nextId, docker`trace
    ensures docker.Valid()
    ensures resp == InvokeResponse(req, store.table, ExpectedResult(docker.script))
    ensures docker.trace == old(docker.trace) + EngineCalls(req, store.table, old(docker.nextId), docker.script)
    ensures InvokeGuards(req, store.table).Reply? ==>
      docker.live == old(docker.live) && docker.nextId == old(docker.nextId)
    ensures InvokeGuards(req, store.table).Run? ==>
      docker.nextId == (if docker.script.create.Pass? then old(docker.nextId) + 1 else old(docker.nextId)) &&
      docker.live == (if docker.script.create.Pass? && docker.script.remove.Fail?
                      then old(docker.live) + {old(docker.nextId)} else old(docker.live))
  {
    if req.httpMethod != MethodPost {
      return HttpError("Method not allowed", StatusMethodNotAllowed);
    }
    var name := TrimPrefix(req.path, InvokePrefix);
    if name == "" {
      return HttpError("Function name required", StatusBadRequest);
    }
    var found := store.GetFunction(name);
    if found.Failure? {
      return HttpError("Function not found", StatusNotFound);
    }
    if req.body.Failure? {
      return HttpError("Failed to read event", StatusBadRequest);
    }
    var result := Execute(docker, found.value, req.body.value);
    if result.Failure? {
      return HttpError("Function execution failed: " + Message(result.error), StatusInternalServerError);
    }
    resp := Response(StatusOK, ContentTypeJson, Data(result.value));
  }

  /** A method other than POST gets 405 and the engine is never called. */
  lemma InvokeWrongMethod(req: InvokeRequest, table: map<string, Function>, outcome: Result<seq<byte>, ExecError>)
    requires req.httpMethod != MethodPost
    ensures InvokeResponse(req, table, outcome) == HttpError("Method not allowed", 405)
    ensures InvokeGuards(req, table).Reply?
  {
  }

  /** A path that leaves no name after the prefix gets 400, whatever the table holds. */
  lemma InvokeNameRequired(req: InvokeRequest, table: map<string, Function>, outcome: Result<seq<byte>, ExecError>)
    requires req.httpMethod == MethodPost && TrimPrefix(req.path, InvokePrefix) == ""
    ensures InvokeResponse(req, table, outcome) == HttpError("Function name required", 400)
    ensures InvokeGuards(req, table) == InvokeGuards(req, map[])
  {
  }

  /** A name that is not registered gets 404, even when the body cannot be read,
      and no sandbox is created. */
  lemma InvokeNotFound(req: InvokeRequest, table: map<string, Function>, outcome: Result<seq<byte>, ExecError>)
    requires req.httpMethod == MethodPost
    requires TrimPrefix(req.path, InvokePrefix) != "" && TrimPrefix(req.path, InvokePrefix) !in table
    ensures InvokeResponse(req, table, outcome) == HttpError("Function not found", 404)
    ensures InvokeGuards(req, table).Reply?
  {
  }

  /** An event that cannot be read gets 400 and the engine is not called. */
  lemma InvokeUnreadableEvent(req: InvokeRequest, table: map<string, Function>, outcome: Result<seq<byte>, ExecError>)
    requires req.httpMethod == MethodPost
    requires TrimPrefix(req.path, InvokePrefix) != "" && TrimPrefix(req.path, InvokePrefix) in table
    requires req.body.Failure?
    ensures InvokeResponse(req, table, outcome) == HttpError("Failed to read event", 400)
  {
  }

  /** An engine error gets 500 with the body "Function execution failed: " and the error's text. */
  lemma InvokeEngineFailure(req: InvokeRequest, table: map<string, Function>, e: ExecError)
    requires InvokeGuards(req, table).Run?
    ensures InvokeResponse(req, table, Failure(e))
         == Response(500, ContentTypeText, Text("Function execution failed: " + Message(e) + "\n"))
  {
  }

  /** Engine success gets 200, JSON content type, and exactly the engine's output as body. */
  lemma InvokeSucceeds(req: InvokeRequest, table: map<string, Function>, output: seq<byte>)
    requires InvokeGuards(req, table).Run?
    ensures InvokeResponse(req, table, Success(output)) == Response(200, "application/json", Data(output))
  {
  }

  /** Deploy then invoke: after a successful deploy of a name, invoking "/invoke/" + name runs
      the engine on exactly the deployed record and the request's event. */
  lemma DeployThenInvoke(table: map<string, Function>, m: Metadata, event: seq<byte>)
    requires m.name !in table && m.name != "" && m.image != "" && m.runtime != ""
    ensures var deploy := DeployRequest(MethodPost, Success(m));
      var invoke := InvokeRequest(MethodPost, InvokePrefix + m.name, Success(event));
      DeployResponse(deploy, table).status == 200 &&
      InvokeGuards(invoke, DeployTable(deploy, table)) == Run(Function(m.name, m.image, m.runtime), event)
  {
  }
}
