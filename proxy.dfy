/**
 * `proxy_chat_completions` (webservices/llama-proxy.py): the handler of
 * POST /v1/chat/completions. It checks the tenant policy, attaches the tool
 * schemas, forwards the body to the backend and, while the latest reply asks
 * for declared tools, authorises and runs each call, appends the assistant
 * message and the tool result, and forwards the whole body again.
 *
 * The backend, the policy files, `json.loads` and the tool bodies are oracles
 * held in an `Env`. The source loop has no bound; `fuel` counts tool rounds
 * only so that the definitions terminate, and `FuelExhausted` is not an
 * outcome of the source.
 */
module Proxy {
  import opened Wrappers
  import opened ChatModel
  import opened ToolMatcher
  import opened Policy

  const DefaultUser := "default_user"

  /**
   * The handler's collaborators: `llama_request` followed by nothing else
   * (`None` when the POST raises), the policy files, `json.loads` (`None` when
   * it raises) and the bodies of the registered tool functions.
   */
  datatype Env = Env(
    backend: Body -> Option<BackendResponse>,
    policies: PolicyStore,
    parseJson: string -> Option<Json>,
    runTool: (string, Option<Json>) -> Raising<Json>)

  /** The inbound request: `await request.json()` (`None` when it raises) and the `authorization` header. */
  datatype Request = Request(body: Option<Body>, authorization: Option<string>)

  /** What the handler returns: a backend response relayed verbatim, or a `JSONResponse`. */
  datatype HttpReply = Relay(status: int, content: string) | JsonReply(status: int, body: Json)

  const ServerError := JsonReply(500, JStr("Server error"))

  function TenantDenied(reason: string): HttpReply {
    JsonReply(403, JObj([("error", JStr(reason))]))
  }

  /** `f"{reason}"` for the user-policy reason (None prints as "None"). */
  function ReasonText(reason: Option<string>): string {
    reason.GetOr("None")
  }

  function Forbidden(reason: Option<string>): HttpReply {
    JsonReply(403, JStr("Forbidden + " + ReasonText(reason)))
  }

  function RelayOf(response: BackendResponse): HttpReply {
    Relay(response.status, response.content)
  }

  datatype Outcome = Replied(reply: HttpReply) | FuelExhausted

  /** The handler's reply together with every body it forwarded to the backend, in order. */
  datatype Run = Run(outcome: Outcome, forwarded: seq<Body>)

  function Prepend(bodies: seq<Body>, run: Run): Run {
    Run(run.outcome, bodies + run.forwarded)
  }

  /** The caller id: the `authorization` header, "default_user" without one. */
  function CallerId(request: Request): string {
    request.authorization.GetOr(DefaultUser)
  }

  /**
   * Calling a registered tool function: TypeError when the number of arguments
   * does not fit the function, otherwise the tool body.
   */
  function Invoke(name: string, args: Option<Json>, env: Env): Raising<Json>
    requires name in Registry
  {
    match Registry[name]
    case NoArguments => if args.Some? then Raised("TypeError") else env.runTool(name, None)
    case OneArgument => if args.None? then Raised("TypeError") else env.runTool(name, args)
  }

  /**
   * One tool call: `tool_registry[name]` is looked up first (KeyError for an
   * unregistered name); arguments exactly "{}" call the tool with no argument,
   * anything else is parsed by `json.loads` and passed as the one argument.
   */
  function ExecuteTool(call: ToolCall, env: Env): Raising<Json> {
    if call.name !in Registry then Raised("KeyError")
    else if call.arguments != "{}" then
      match env.parseJson(call.arguments)
      case None => Raised("JSONDecodeError")
      case Some(args) => Invoke(call.name, Some(args), env)
    else Invoke(call.name, None, env)
  }

  /** How the `for` loop over one round's matched calls ends. */
  datatype RoundEnd = AllRan(body: Body) | Denied(reason: Option<string>) | Swallowed

  /**
   * The `for tool_call in tools_called` loop: per call, the user policy (a
   * raise is swallowed by the enclosing handler, a denial ends the request),
   * the tool run, then the assistant message and the tool message appended.
   */
  function RunCalls(calls: seq<ToolCall>, assistant: Message, body: Body, userId: string, env: Env): RoundEnd
    decreases |calls|
  {
    if |calls| == 0 then AllRan(body)
    else
      match EnforceUserPolicy(env.policies, userId, calls[0].name)
      case Raised(_) => Swallowed
      case Returned(verdict) =>
        if !verdict.allowed then Denied(verdict.reason)
        else
          match ExecuteTool(calls[0], env)
          case Raised(_) => Swallowed
          case Returned(result) =>
            match body.messages
            case None => Swallowed
            case Some(messages) =>
              RunCalls(calls[1..], assistant,
                body.(messages := Some(messages + [assistant, ToolMessage(calls[0].name, result)])), userId, env)
  }

  /** The `while` test: `tools_matched` returns (does not raise) a non-empty list. */
  predicate HasMatches(response: BackendResponse)
    requires response.json.Some?
  {
    var matched := ToolsMatched(Tools, response.json.value);
    matched.Returned? && |matched.value| > 0
  }

  /** Where one pass of the `while` loop's body leaves the handler: finished, or at the next backend response. */
  datatype Step = Finish(run: Run) | Next(body: Body, response: BackendResponse)

  /**
   * The `while` loop's body: run the round's matched calls, forward the grown
   * body and parse the new response. Any exception ends the request with the
   * latest response relayed; a policy denial ends it with 403.
   */
  function Round(body: Body, response: BackendResponse, userId: string, env: Env): (step: Step)
    requires response.json.Some? && HasMatches(response)
    ensures step.Next? ==> step.response.json.Some?
  {
    var completion := response.json.value;
    match RunCalls(ToolsMatched(Tools, completion).value, completion.topMessage.value, body, userId, env)
    case Denied(reason) => Finish(Run(Replied(Forbidden(reason)), []))
    case Swallowed => Finish(Run(Replied(RelayOf(response)), []))
    case AllRan(next) =>
      match env.backend(next)
      case None => Finish(Run(Replied(RelayOf(response)), [next]))
      case Some(nextResponse) =>
        if nextResponse.json.None? then Finish(Run(Replied(RelayOf(nextResponse)), [next]))
        else Next(next, nextResponse)
  }

  /** The `while tools_matched(tools, llama_response_json)` loop from the latest backend response on. */
  function ToolLoop(body: Body, response: BackendResponse, userId: string, env: Env, fuel: nat): Run
    requires response.json.Some?
    decreases fuel
  {
    if !HasMatches(response) then Run(Replied(RelayOf(response)), [])
    else if fuel == 0 then Run(FuelExhausted, [])
    else
      match Round(body, response, userId, env)
      case Finish(run) => run
      case Next(next, nextResponse) => Prepend([next], ToolLoop(next, nextResponse, userId, env, fuel - 1))
  }

  /** The whole handler; exceptions outside the tool loop become 500 "Server error". */
  function Handle(request: Request, env: Env, fuel: nat): Run {
    match request.body
    case None => Run(Replied(ServerError), [])
    case Some(body) =>
      match TenantVerdict(body.messages.GetOr([]))
      case Raised(_) => Run(Replied(ServerError), [])
      case Returned(decision) =>
        if !decision.allowed then Run(Replied(TenantDenied(decision.reason)), [])
        else
          var first := body.(tools := Some(Tools));
          match env.backend(first)
          case None => Run(Replied(ServerError), [first])
          case Some(response) =>
            if response.json.None? then Run(Replied(ServerError), [first])
            else Prepend([first], ToolLoop(first, response, CallerId(request), env, fuel))
  }

  lemma PrependNothing(run: Run)
    ensures Prepend([], run) == run
  {
    assert [] + run.forwarded == run.forwarded;
  }

  lemma PrependTwice(a: seq<Body>, b: seq<Body>, run: Run)
    ensures Prepend(a, Prepend(b, run)) == Prepend(a + b, run)
  {
    assert a + (b + run.forwarded) == (a + b) + run.forwarded;
  }

  /** Once the first backend reply parses, the handler is the tool loop behind that first forward. */
  lemma HandleReachesLoop(request: Request, env: Env, fuel: nat, first: Body, response: BackendResponse)
    requires request.body.Some?
    requires TenantVerdict(request.body.value.messages.GetOr([])).Returned?
    requires TenantVerdict(request.body.value.messages.GetOr([])).value.allowed
    requires first == request.body.value.(tools := Some(Tools))
    requires env.backend(first) == Some(response) && response.json.Some?
    ensures Handle(request, env, fuel) == Prepend([first], ToolLoop(first, response, CallerId(request), env, fuel))
  {
  }

  /** One pass of the `for tool_call in tools_called` loop, as the source runs it. */
  method RunToolCalls(toolsCalled: seq<ToolCall>, assistant: Message, roundBody: Body, userId: string, env: Env)
    returns (end: RoundEnd)
    ensures end == RunCalls(toolsCalled, assistant, roundBody, userId, env)
  {
    var body := roundBody;
    var i := 0;
    while i < |toolsCalled|
      invariant 0 <= i <= |toolsCalled|
      invariant RunCalls(toolsCalled, assistant, roundBody, userId, env)
                == RunCalls(toolsCalled[i..], assistant, body, userId, env)
    {
      var toolCall := toolsCalled[i];
      var policy := EnforceUserPolicy(env.policies, userId, toolCall.name);
      if policy.Raised? {
        return Swallowed;
      }
      if !policy.value.allowed {
        return Denied(policy.value.reason);
      }
      if toolCall.name !in Registry {
        return Swallowed;
      }
      var result: Raising<Json>;
      if toolCall.arguments != "{}" {
        var parsed := env.parseJson(toolCall.arguments);
        if parsed.None? {
          return Swallowed;
        }
        result := Invoke(toolCall.name, parsed, env);
      } else {
        result := Invoke(toolCall.name, None, env);
      }
      if result.Raised? || body.messages.None? {
        return Swallowed;
      }
      body := body.(messages := Some(body.messages.value + [assistant, ToolMessage(toolCall.name, result.value)]));
      assert toolsCalled[i..][1..] == toolsCalled[i + 1..];
      i := i + 1;
    }
    return AllRan(body);
  }

  /** The `while` loop's body, as the source runs it. */
  method ToolRound(body: Body, llamaResponse: BackendResponse, userId: string, env: Env) returns (step: Step)
    requires llamaResponse.json.Some? && HasMatches(llamaResponse)
    ensures step == Round(body, llamaResponse, userId, env)
  {
    var llamaResponseJson := llamaResponse.json.value;
    var toolsCalled := ToolsMatched(Tools, llamaResponseJson).value;
    var end := RunToolCalls(toolsCalled, llamaResponseJson.topMessage.value, body, userId, env);
    if end.Denied? {
      return Finish(Run(Replied(Forbidden(end.reason)), []));
    }
    if end.Swallowed? {
      return Finish(Run(Replied(RelayOf(llamaResponse)), []));
    }
    var sent := env.backend(end.body);
    if sent.None? {
      return Finish(Run(Replied(RelayOf(llamaResponse)), [end.body]));
    }
    if sent.value.json.None? {
      return Finish(Run(Replied(RelayOf(sent.value)), [end.body]));
    }
    return Next(end.body, sent.value);
  }

  /** The loop ends at once when the test fails, and (in the model) when fuel runs out. */
  lemma ToolLoopStops(body: Body, response: BackendResponse, userId: string, env: Env, fuel: nat)
    requires response.json.Some?
    ensures !HasMatches(response) ==> ToolLoop(body, response, userId, env, fuel) == Run(Replied(RelayOf(response)), [])
    ensures HasMatches(response) && fuel == 0 ==> ToolLoop(body, response, userId, env, fuel) == Run(FuelExhausted, [])
  {
  }

  /** A round that passes the `while` test and has fuel left decides the loop, or hands it the next response. */
  lemma ToolLoopUnfolds(body: Body, response: BackendResponse, userId: string, env: Env, fuel: nat, left: nat, step: Step)
    requires response.json.Some? && HasMatches(response) && left + 1 == fuel
    requires step == Round(body, response, userId, env)
    ensures step.Finish? ==> ToolLoop(body, response, userId, env, fuel) == step.run
    ensures step.Next? ==> step.response.json.Some?
    ensures step.Next? ==>
              ToolLoop(body, response, userId, env, fuel)
              == Prepend([step.body], ToolLoop(step.body, step.response, userId, env, left))
  {
    match step
    case Finish(run) =>
    case Next(next, nextResponse) =>
      ToolLoopContinues(body, response, userId, env, fuel, left, next, nextResponse);
  }

  /** A round that hands the loop a new body and response continues it from them. */
  lemma ToolLoopContinues(body: Body, response: BackendResponse, userId: string, env: Env, fuel: nat, left: nat,
                          next: Body, nextResponse: BackendResponse)
    requires response.json.Some? && HasMatches(response) && left + 1 == fuel
    requires Round(body, response, userId, env) == Next(next, nextResponse)
    ensures nextResponse.json.Some?
    ensures ToolLoop(body, response, userId, env, fuel) == Prepend([next], ToolLoop(next, nextResponse, userId, env, left))
  {
    assert fuel - 1 == left;
  }

  /**
   * The `while` test followed by one pass of its body, as the source runs them;
   * `left` is the fuel still available for the rounds after this one.
   */
  method TestAndRound(body: Body, llamaResponse: BackendResponse, userId: string, env: Env, rounds: nat)
    returns (step: Step, left: nat)
    requires llamaResponse.json.Some?
    ensures step.Finish? ==> step.run == ToolLoop(body, llamaResponse, userId, env, rounds)
    ensures step.Next? ==> left < rounds && step.response.json.Some?
    ensures step.Next? ==> ToolLoop(body, llamaResponse, userId, env, rounds)
                           == Prepend([step.body], ToolLoop(step.body, step.response, userId, env, left))
  {
    left := 0;
    var matched := ToolsMatched(Tools, llamaResponse.json.value);
    if matched.Raised? || |matched.value| == 0 {
      return Finish(Run(Replied(RelayOf(llamaResponse)), [])), left;
    }
    if rounds == 0 {
      return Finish(Run(FuelExhausted, [])), left;
    }
    left := rounds - 1;
    step := ToolRound(body, llamaResponse, userId, env);
    ToolLoopUnfolds(body, llamaResponse, userId, env, rounds, left, step);
  }

  /** The loop invariant of `ToolRounds` survives one more forwarded body. */
  lemma LoopAdvances(firstBody: Body, firstResponse: BackendResponse, userId: string, env: Env, fuel: nat,
                     forwarded: seq<Body>, body: Body, response: BackendResponse, rounds: nat,
                     next: Body, nextResponse: BackendResponse, left: nat)
    requires firstResponse.json.Some? && response.json.Some? && nextResponse.json.Some?
    requires ToolLoop(firstBody, firstResponse, userId, env, fuel)
             == Prepend(forwarded, ToolLoop(body, response, userId, env, rounds))
    requires ToolLoop(body, response, userId, env, rounds)
             == Prepend([next], ToolLoop(next, nextResponse, userId, env, left))
    ensures ToolLoop(firstBody, firstResponse, userId, env, fuel)
            == Prepend(forwarded + [next], ToolLoop(next, nextResponse, userId, env, left))
  {
    PrependTwice(forwarded, [next], ToolLoop(next, nextResponse, userId, env, left));
  }

  /** The `while tools_matched(tools, llama_response_json)` loop, as the source runs it. */
  method ToolRounds(firstBody: Body, firstResponse: BackendResponse, userId: string, env: Env, fuel: nat)
    returns (run: Run)
    requires firstResponse.json.Some?
    ensures run == ToolLoop(firstBody, firstResponse, userId, env, fuel)
  {
    var body := firstBody;
    var llamaResponse := firstResponse;
    var forwarded: seq<Body> := [];
    var rounds := fuel;
    PrependNothing(ToolLoop(body, llamaResponse, userId, env, rounds));
    while true
      invariant llamaResponse.json.Some?
      invariant ToolLoop(firstBody, firstResponse, userId, env, fuel)
                == Prepend(forwarded, ToolLoop(body, llamaResponse, userId, env, rounds))
      decreases rounds
    {
      var step, left := TestAndRound(body, llamaResponse, userId, env, rounds);
      if step.Finish? {
        return Prepend(forwarded, step.run);
      }
      LoopAdvances(firstBody, firstResponse, userId, env, fuel, forwarded, body, llamaResponse, rounds, step.body, step.response, left);
      forwarded := forwarded + [step.body];
      body := step.body;
      llamaResponse := step.response;
      rounds := left;
    }
  }

  /** `proxy_chat_completions(request)`, step by step as the source runs it. */
  method ProxyChatCompletions(request: Request, env: Env, fuel: nat) returns (run: Run)
    ensures run == Handle(request, env, fuel)
  {
    if request.body.None? {
      return Run(Replied(ServerError), []);
    }
    var body := request.body.value;
    var userId := request.authorization.GetOr(DefaultUser);
    var tenant := EnforceTenantPolicy(body);
    if tenant.Raised? {
      return Run(Replied(ServerError), []);
    }
    if !tenant.value.allowed {
      return Run(Replied(TenantDenied(tenant.value.reason)), []);
    }
    body := body.(tools := Some(Tools));
    var sent := env.backend(body);
    if sent.None? {
      return Run(Replied(ServerError), [body]);
    }
    var llamaResponse := sent.value;
    if llamaResponse.json.None? {
      return Run(Replied(ServerError), [body]);
    }
    HandleReachesLoop(request, env, fuel, body, llamaResponse);
    var rest := ToolRounds(body, llamaResponse, userId, env, fuel);
    return Prepend([body], rest);
  }
}
