/**
 * What `proxy_chat_completions` (webservices/llama-proxy.py) guarantees across
 * tool rounds: which calls run and what they append, when a round is refused,
 * which replies the handler can give, and how the forwarded bodies grow.
 */
module ProxyProperties {
  import opened Wrappers
  import opened ChatModel
  import opened ToolMatcher
  import opened Policy
  import opened Proxy

  /** The user may run the call and the call returned a result. */
  predicate Permitted(call: ToolCall, userId: string, env: Env) {
    ExplicitlyAllowed(env.policies, userId, call.name) && ExecuteTool(call, env).Returned?
  }

  /** Handling the call raises: in the user's policy check, or in the tool the user may run. */
  predicate CallRaises(call: ToolCall, userId: string, env: Env) {
    PolicyException(env.policies, userId, call.name).Some?
    || (ExplicitlyAllowed(env.policies, userId, call.name) && ExecuteTool(call, env).Raised?)
  }

  /** `b` is `a` with at least one more message appended and the same tool schemas. */
  predicate Grows(a: Body, b: Body) {
    a.tools == b.tools && a.messages.Some? && b.messages.Some?
    && |a.messages.value| < |b.messages.value| && a.messages.value <= b.messages.value
  }

  /** Each body of `fw` extends the one before it, `base` first, and keeps `base`'s tool schemas. */
  predicate GrowsFrom(base: Body, fw: seq<Body>) {
    && (|fw| > 0 ==> Grows(base, fw[0]))
    && (forall i :: 0 < i < |fw| ==> Grows(fw[i - 1], fw[i]))
    && (forall i :: 0 <= i < |fw| ==> fw[i].tools == base.tools)
  }

  lemma GrowsFromCons(base: Body, next: Body, rest: seq<Body>)
    requires Grows(base, next) && GrowsFrom(next, rest)
    ensures GrowsFrom(base, [next] + rest)
  {
  }

  /**
   * The messages a round appends when all its calls ran: per call, in order,
   * the assistant message and then a "tool" message with the call's result.
   */
  function Pairs(calls: seq<ToolCall>, assistant: Message, env: Env): (pairs: seq<Message>)
    requires forall j :: 0 <= j < |calls| ==> ExecuteTool(calls[j], env).Returned?
    decreases |calls|
  {
    if |calls| == 0 then []
    else [assistant, ToolMessage(calls[0].name, ExecuteTool(calls[0], env).value)] + Pairs(calls[1..], assistant, env)
  }

  /** `Pairs` holds two messages per call: the assistant message at even offsets, the call's result after it. */
  lemma {:induction false} PairsLayout(calls: seq<ToolCall>, assistant: Message, env: Env)
    requires forall j :: 0 <= j < |calls| ==> ExecuteTool(calls[j], env).Returned?
    ensures |Pairs(calls, assistant, env)| == 2 * |calls|
    ensures forall j :: 0 <= j < |calls| ==>
              Pairs(calls, assistant, env)[2 * j] == assistant
              && Pairs(calls, assistant, env)[2 * j + 1] == ToolMessage(calls[j].name, ExecuteTool(calls[j], env).value)
    decreases |calls|
  {
    if |calls| > 0 {
      var rest := Pairs(calls[1..], assistant, env);
      PairsLayout(calls[1..], assistant, env);
      var pairs := Pairs(calls, assistant, env);
      assert pairs == [assistant, ToolMessage(calls[0].name, ExecuteTool(calls[0], env).value)] + rest;
      forall j | 0 < j < |calls|
        ensures pairs[2 * j] == assistant
        ensures pairs[2 * j + 1] == ToolMessage(calls[j].name, ExecuteTool(calls[j], env).value)
      {
        assert calls[1..][j - 1] == calls[j];
        assert pairs[2 * j] == rest[2 * (j - 1)];
        assert pairs[2 * j + 1] == rest[2 * (j - 1) + 1];
      }
    }
  }

  /** A round whose calls all ran ran its first call, and went on with the two messages it appended. */
  lemma AllRanStep(calls: seq<ToolCall>, assistant: Message, body: Body, userId: string, env: Env)
    requires |calls| > 0 && body.messages.Some?
    requires RunCalls(calls, assistant, body, userId, env).AllRan?
    ensures Permitted(calls[0], userId, env)
    ensures RunCalls(calls, assistant, body, userId, env)
            == RunCalls(calls[1..], assistant,
                 body.(messages := Some(body.messages.value
                   + [assistant, ToolMessage(calls[0].name, ExecuteTool(calls[0], env).value)])), userId, env)
  {
  }

  /**
   * When every call of a round ran, each call was allowed and returned, and
   * the body gained exactly the round's `Pairs` at its end; nothing else changed.
   */
  lemma {:induction false} AllRanAppendsPairs(calls: seq<ToolCall>, assistant: Message, body: Body, userId: string, env: Env)
    requires body.messages.Some?
    requires RunCalls(calls, assistant, body, userId, env).AllRan?
    ensures forall j :: 0 <= j < |calls| ==>
              ExplicitlyAllowed(env.policies, userId, calls[j].name) && ExecuteTool(calls[j], env).Returned?
    ensures RunCalls(calls, assistant, body, userId, env).body
            == body.(messages := Some(body.messages.value + Pairs(calls, assistant, env)))
    decreases |calls|
  {
    if |calls| > 0 {
      var messages := body.messages.value;
      var pair := [assistant, ToolMessage(calls[0].name, ExecuteTool(calls[0], env).value)];
      AllRanStep(calls, assistant, body, userId, env);
      var next := body.(messages := Some(messages + pair));
      AllRanAppendsPairs(calls[1..], assistant, next, userId, env);
      forall j | 0 < j < |calls|
        ensures ExplicitlyAllowed(env.policies, userId, calls[j].name) && ExecuteTool(calls[j], env).Returned?
      {
        assert calls[1..][j - 1] == calls[j];
      }
      assert Pairs(calls, assistant, env) == pair + Pairs(calls[1..], assistant, env);
      assert messages + pair + Pairs(calls[1..], assistant, env) == messages + Pairs(calls, assistant, env);
      assert RunCalls(calls[1..], assistant, next, userId, env).body
             == next.(messages := Some(messages + pair + Pairs(calls[1..], assistant, env)));
      assert next.(messages := Some(messages + Pairs(calls, assistant, env)))
             == body.(messages := Some(messages + Pairs(calls, assistant, env)));
      assert RunCalls(calls, assistant, body, userId, env) == RunCalls(calls[1..], assistant, next, userId, env);
    } else {
      assert body.messages.value + Pairs(calls, assistant, env) == body.messages.value;
    }
  }

  /** Every call of a round runs exactly when each one is allowed by the user's policy and returns. */
  lemma {:induction false} AllRanIffPermitted(calls: seq<ToolCall>, assistant: Message, body: Body, userId: string, env: Env)
    requires body.messages.Some?
    ensures RunCalls(calls, assistant, body, userId, env).AllRan?
            <==> forall j :: 0 <= j < |calls| ==> Permitted(calls[j], userId, env)
    decreases |calls|
  {
    if |calls| > 0 {
      if Permitted(calls[0], userId, env) {
        var messages := body.messages.value;
        var next := body.(messages := Some(messages + [assistant, ToolMessage(calls[0].name, ExecuteTool(calls[0], env).value)]));
        assert RunCalls(calls, assistant, body, userId, env) == RunCalls(calls[1..], assistant, next, userId, env);
        AllRanIffPermitted(calls[1..], assistant, next, userId, env);
        if forall j :: 0 <= j < |calls[1..]| ==> Permitted(calls[1..][j], userId, env) {
          forall j | 0 <= j < |calls| ensures Permitted(calls[j], userId, env) {
            if j > 0 {
              assert calls[1..][j - 1] == calls[j];
            }
          }
        } else {
          var j :| 0 <= j < |calls[1..]| && !Permitted(calls[1..][j], userId, env);
          assert calls[j + 1] == calls[1..][j];
        }
      }
    }
  }

  /** A round is refused only by the user policy, and always with its fixed reason. */
  lemma {:induction false} DenialReason(calls: seq<ToolCall>, assistant: Message, body: Body, userId: string, env: Env)
    requires RunCalls(calls, assistant, body, userId, env).Denied?
    ensures RunCalls(calls, assistant, body, userId, env).reason == Some(UserDeniedReason)
    ensures exists j :: 0 <= j < |calls| && !ExplicitlyAllowed(env.policies, userId, calls[j].name)
    decreases |calls|
  {
    var verdict := EnforceUserPolicy(env.policies, userId, calls[0].name);
    if verdict.value.allowed {
      var next := body.(messages := Some(body.messages.value
                          + [assistant, ToolMessage(calls[0].name, ExecuteTool(calls[0], env).value)]));
      assert RunCalls(calls, assistant, body, userId, env) == RunCalls(calls[1..], assistant, next, userId, env);
      DenialReason(calls[1..], assistant, next, userId, env);
      var j :| 0 <= j < |calls[1..]| && !ExplicitlyAllowed(env.policies, userId, calls[1..][j].name);
      assert calls[1..][j] == calls[j + 1];
    } else {
      assert !ExplicitlyAllowed(env.policies, userId, calls[0].name);
    }
  }

  /**
   * The first call the user's policy refuses ends the round with 403, once the
   * calls before it ran; the calls after it do not matter and never run.
   */
  lemma {:induction false} FirstRefusalDenies(calls: seq<ToolCall>, k: nat, assistant: Message, body: Body,
                                              userId: string, env: Env)
    requires k < |calls| && (k == 0 || body.messages.Some?)
    requires forall j :: 0 <= j < k ==> Permitted(calls[j], userId, env)
    requires PolicyException(env.policies, userId, calls[k].name).None?
    requires !ExplicitlyAllowed(env.policies, userId, calls[k].name)
    ensures RunCalls(calls, assistant, body, userId, env) == Denied(Some(UserDeniedReason))
    decreases k
  {
    if k > 0 {
      assert Permitted(calls[0], userId, env);
      var next := body.(messages := Some(body.messages.value
                          + [assistant, ToolMessage(calls[0].name, ExecuteTool(calls[0], env).value)]));
      assert RunCalls(calls, assistant, body, userId, env) == RunCalls(calls[1..], assistant, next, userId, env);
      forall j | 0 <= j < k - 1 ensures Permitted(calls[1..][j], userId, env) {
        assert calls[1..][j] == calls[j + 1];
      }
      assert calls[1..][k - 1] == calls[k];
      FirstRefusalDenies(calls[1..], k - 1, assistant, next, userId, env);
    }
  }

  /**
   * A user without a policy file, or whose file cannot be indexed (an empty
   * document, or a `tools` value that is not a mapping), makes
   * `enforce_user_policy` raise for every tool, and the loop's handler
   * swallows it: the latest backend response is relayed and nothing more is
   * forwarded, where a denial might have been expected.
   */
  lemma MissingPolicyFileRelays(body: Body, response: BackendResponse, userId: string, env: Env, fuel: nat)
    requires response.json.Some? && HasMatches(response) && fuel > 0
    requires userId !in env.policies || env.policies[userId] == Unindexable
    ensures ToolLoop(body, response, userId, env, fuel) == Run(Replied(RelayOf(response)), [])
  {
  }

  /**
   * A call whose policy check raises (no policy file, a malformed file or
   * entry), or which the user may run but whose tool raises (an unknown tool,
   * arguments that do not parse, a failure inside the tool), ends the round
   * unfinished once the calls before it ran; the calls after it never run.
   */
  lemma {:induction false} CallErrorSwallowed(calls: seq<ToolCall>, k: nat, assistant: Message, body: Body,
                                                userId: string, env: Env)
    requires k < |calls|
    requires forall j :: 0 <= j < k ==> Permitted(calls[j], userId, env)
    requires CallRaises(calls[k], userId, env)
    ensures RunCalls(calls, assistant, body, userId, env) == Swallowed
    decreases k
  {
    if k > 0 && body.messages.Some? {
      assert Permitted(calls[0], userId, env);
      var next := body.(messages := Some(body.messages.value
                          + [assistant, ToolMessage(calls[0].name, ExecuteTool(calls[0], env).value)]));
      assert RunCalls(calls, assistant, body, userId, env) == RunCalls(calls[1..], assistant, next, userId, env);
      forall j | 0 <= j < k - 1 ensures Permitted(calls[1..][j], userId, env) {
        assert calls[1..][j] == calls[j + 1];
      }
      assert calls[1..][k - 1] == calls[k];
      CallErrorSwallowed(calls[1..], k - 1, assistant, next, userId, env);
    } else if k > 0 {
      assert Permitted(calls[0], userId, env);
    }
  }

  /**
   * When a call's policy check or its tool raises, the loop's handler
   * swallows the exception: the latest backend response is relayed and nothing more is
   * forwarded.
   */
  lemma CallErrorRelays(body: Body, response: BackendResponse, userId: string, env: Env, fuel: nat, k: nat)
    requires response.json.Some? && HasMatches(response) && fuel > 0
    requires var calls := ToolsMatched(Tools, response.json.value).value;
             && k < |calls|
             && (forall j :: 0 <= j < k ==> Permitted(calls[j], userId, env))
             && CallRaises(calls[k], userId, env)
    ensures Round(body, response, userId, env) == Finish(Run(Replied(RelayOf(response)), []))
    ensures ToolLoop(body, response, userId, env, fuel) == Run(Replied(RelayOf(response)), [])
  {
    var completion := response.json.value;
    CallErrorSwallowed(ToolsMatched(Tools, completion).value, k, completion.topMessage.value, body, userId, env);
    var left: nat := fuel - 1;
    ToolLoopUnfolds(body, response, userId, env, fuel, left, Round(body, response, userId, env));
  }

  /**
   * A call the user's policy refuses ends the request with 403 and the fixed
   * reason, once the calls before it ran; the round's grown body is never
   * forwarded.
   */
  lemma ToolDenialForwardsNothing(body: Body, response: BackendResponse, userId: string, env: Env, fuel: nat, k: nat)
    requires response.json.Some? && HasMatches(response) && fuel > 0
    requires var calls := ToolsMatched(Tools, response.json.value).value;
             && k < |calls| && (k == 0 || body.messages.Some?)
             && (forall j :: 0 <= j < k ==> Permitted(calls[j], userId, env))
             && PolicyException(env.policies, userId, calls[k].name).None?
             && !ExplicitlyAllowed(env.policies, userId, calls[k].name)
    ensures Round(body, response, userId, env) == Finish(Run(Replied(Forbidden(Some(UserDeniedReason))), []))
    ensures ToolLoop(body, response, userId, env, fuel) == Run(Replied(Forbidden(Some(UserDeniedReason))), [])
  {
    var completion := response.json.value;
    FirstRefusalDenies(ToolsMatched(Tools, completion).value, k, completion.topMessage.value, body, userId, env);
    var left: nat := fuel - 1;
    ToolLoopUnfolds(body, response, userId, env, fuel, left, Round(body, response, userId, env));
  }

  /**
   * After a round whose calls all ran, a failed re-forward relays the previous
   * backend response and an unparsable new response is relayed as it is; in
   * both cases the grown body was forwarded once and the request ends.
   */
  lemma ReforwardFailureRelays(body: Body, response: BackendResponse, userId: string, env: Env, fuel: nat)
    requires response.json.Some? && HasMatches(response) && fuel > 0
    requires var completion := response.json.value;
             RunCalls(ToolsMatched(Tools, completion).value, completion.topMessage.value, body, userId, env).AllRan?
    ensures var completion := response.json.value;
            var next := RunCalls(ToolsMatched(Tools, completion).value, completion.topMessage.value, body, userId, env).body;
            && (env.backend(next) == None ==>
                  Round(body, response, userId, env) == Finish(Run(Replied(RelayOf(response)), [next]))
                  && ToolLoop(body, response, userId, env, fuel) == Run(Replied(RelayOf(response)), [next]))
            && (env.backend(next).Some? && env.backend(next).value.json == None ==>
                  ToolLoop(body, response, userId, env, fuel) == Run(Replied(RelayOf(env.backend(next).value)), [next]))
  {
    var left: nat := fuel - 1;
    ToolLoopUnfolds(body, response, userId, env, fuel, left, Round(body, response, userId, env));
  }

  /** An answer reached with some fuel is the same with any more fuel: the bound only cuts runs short. */
  lemma {:induction false} MoreFuelSameLoop(body: Body, response: BackendResponse, userId: string, env: Env,
                                            fuel: nat, more: nat)
    requires response.json.Some? && fuel <= more
    requires ToolLoop(body, response, userId, env, fuel).outcome.Replied?
    ensures ToolLoop(body, response, userId, env, more) == ToolLoop(body, response, userId, env, fuel)
    decreases fuel
  {
    ToolLoopStops(body, response, userId, env, fuel);
    ToolLoopStops(body, response, userId, env, more);
    if HasMatches(response) {
      var step := Round(body, response, userId, env);
      var fuelLeft: nat, moreLeft: nat := fuel - 1, more - 1;
      ToolLoopUnfolds(body, response, userId, env, fuel, fuelLeft, step);
      ToolLoopUnfolds(body, response, userId, env, more, moreLeft, step);
      if step.Next? {
        MoreFuelSameLoop(step.body, step.response, userId, env, fuelLeft, moreLeft);
      }
    }
  }

  lemma MoreFuelSameHandle(request: Request, env: Env, fuel: nat, more: nat)
    requires fuel <= more
    requires Handle(request, env, fuel).outcome.Replied?
    ensures Handle(request, env, more) == Handle(request, env, fuel)
  {
    if request.body.Some? {
      var verdict := TenantVerdict(request.body.value.messages.GetOr([]));
      var first := request.body.value.(tools := Some(Tools));
      if verdict.Returned? && verdict.value.allowed && env.backend(first).Some? && env.backend(first).value.json.Some? {
        var response := env.backend(first).value;
        HandleReachesLoop(request, env, fuel, first, response);
        HandleReachesLoop(request, env, more, first, response);
        MoreFuelSameLoop(first, response, CallerId(request), env, fuel, more);
      }
    }
  }

  /** One round that ran its calls forwards a body grown by the round's messages. */
  lemma RoundForwardsGrownBody(body: Body, response: BackendResponse, userId: string, env: Env)
    requires response.json.Some? && HasMatches(response)
    ensures Round(body, response, userId, env).Next? ==> Grows(body, Round(body, response, userId, env).body)
    ensures Round(body, response, userId, env).Finish? ==>
              var fw := Round(body, response, userId, env).run.forwarded;
              |fw| <= 1 && forall i :: 0 <= i < |fw| ==> Grows(body, fw[i])
  {
    var completion := response.json.value;
    var calls := ToolsMatched(Tools, completion).value;
    var end := RunCalls(calls, completion.topMessage.value, body, userId, env);
    if end.AllRan? {
      assert body.messages.Some?;
      AllRanAppendsPairs(calls, completion.topMessage.value, body, userId, env);
      PairsLayout(calls, completion.topMessage.value, env);
      assert end.body.messages.value[..|body.messages.value|] == body.messages.value;
    }
  }

  /**
   * Across the tool loop, each forwarded body extends the one before it (the
   * loop's starting body first) and keeps its tool schemas.
   */
  lemma {:induction false} LoopForwardsGrowingBodies(body: Body, response: BackendResponse, userId: string, env: Env,
                                                     fuel: nat)
    requires response.json.Some?
    ensures GrowsFrom(body, ToolLoop(body, response, userId, env, fuel).forwarded)
    decreases fuel
  {
    if HasMatches(response) && fuel > 0 {
      var step := Round(body, response, userId, env);
      var left: nat := fuel - 1;
      ToolLoopUnfolds(body, response, userId, env, fuel, left, step);
      RoundForwardsGrownBody(body, response, userId, env);
      if step.Next? {
        LoopForwardsGrowingBodies(step.body, step.response, userId, env, left);
        GrowsFromCons(body, step.body, ToolLoop(step.body, step.response, userId, env, left).forwarded);
      }
    }
  }

  /** How a round that passes the `while` test can finish the request. */
  lemma RoundOutcomes(body: Body, response: BackendResponse, userId: string, env: Env)
    requires response.json.Some? && HasMatches(response)
    ensures Round(body, response, userId, env).Finish? ==>
              Round(body, response, userId, env).run.outcome == Replied(Forbidden(Some(UserDeniedReason)))
              || Round(body, response, userId, env).run.outcome.reply.Relay?
  {
    var completion := response.json.value;
    var calls := ToolsMatched(Tools, completion).value;
    if RunCalls(calls, completion.topMessage.value, body, userId, env).Denied? {
      DenialReason(calls, completion.topMessage.value, body, userId, env);
    }
  }

  /**
   * The loop ends in one of three ways: relaying a backend response, 403
   * "Forbidden + Tool not allowed by user policy.", or (only in the model) out
   * of fuel. It never answers "Server error": exceptions in the loop are swallowed.
   */
  lemma {:induction false} LoopOutcomes(body: Body, response: BackendResponse, userId: string, env: Env, fuel: nat)
    requires response.json.Some?
    ensures var outcome := ToolLoop(body, response, userId, env, fuel).outcome;
            outcome == FuelExhausted || outcome == Replied(Forbidden(Some(UserDeniedReason)))
            || (outcome.Replied? && outcome.reply.Relay?)
    ensures ToolLoop(body, response, userId, env, fuel).outcome != Replied(ServerError)
    decreases fuel
  {
    if HasMatches(response) && fuel > 0 {
      var step := Round(body, response, userId, env);
      var left: nat := fuel - 1;
      ToolLoopUnfolds(body, response, userId, env, fuel, left, step);
      RoundOutcomes(body, response, userId, env);
      if step.Next? {
        LoopOutcomes(step.body, step.response, userId, env, left);
      }
    }
  }

  /** A first reply that asks for no declared tool is relayed as it is, after exactly one forward. */
  lemma NoMatchesRelaysFirst(request: Request, env: Env, fuel: nat, response: BackendResponse)
    requires request.body.Some?
    requires TenantVerdict(request.body.value.messages.GetOr([])).Returned?
    requires TenantVerdict(request.body.value.messages.GetOr([])).value.allowed
    requires env.backend(request.body.value.(tools := Some(Tools))) == Some(response)
    requires response.json.Some? && !HasMatches(response)
    ensures Handle(request, env, fuel)
            == Run(Replied(Relay(response.status, response.content)), [request.body.value.(tools := Some(Tools))])
  {
  }

  /**
   * The handler's replies: 500 "Server error" only before any tool round (at
   * most the first body forwarded), 403 with one of the two tenant reasons and
   * nothing forwarded, 403 for a tool the user may not run, or a relayed
   * backend response.
   */
  lemma HandleReplies(request: Request, env: Env, fuel: nat)
    ensures var run := Handle(request, env, fuel);
            run.outcome == FuelExhausted
            || run.outcome == Replied(ServerError)
            || run.outcome == Replied(TenantDenied(KeywordReason))
            || run.outcome == Replied(TenantDenied(TooLongReason))
            || run.outcome == Replied(Forbidden(Some(UserDeniedReason)))
            || (run.outcome.Replied? && run.outcome.reply.Relay?)
    ensures Handle(request, env, fuel).outcome == Replied(ServerError) ==> |Handle(request, env, fuel).forwarded| <= 1
    ensures (Handle(request, env, fuel).outcome.Replied? && Handle(request, env, fuel).outcome.reply.JsonReply?
             && Handle(request, env, fuel).outcome.reply.body.JObj?)
            ==> Handle(request, env, fuel).forwarded == []
  {
    if request.body.Some? {
      var verdict := TenantVerdict(request.body.value.messages.GetOr([]));
      if verdict.Returned? {
        VerdictReasons(request.body.value.messages.GetOr([]));
        var first := request.body.value.(tools := Some(Tools));
        if verdict.value.allowed && env.backend(first).Some? && env.backend(first).value.json.Some? {
          var response := env.backend(first).value;
          HandleReachesLoop(request, env, fuel, first, response);
          LoopOutcomes(first, response, CallerId(request), env, fuel);
        }
      }
    }
  }

  /**
   * Every body the handler forwards carries the three tool schemas; the first
   * is the request body with them attached, and each later one extends the
   * body forwarded before it.
   */
  lemma HandleForwards(request: Request, env: Env, fuel: nat)
    ensures var fw := Handle(request, env, fuel).forwarded;
            |fw| > 0 ==> request.body.Some? && fw[0] == request.body.value.(tools := Some(Tools))
                         && GrowsFrom(fw[0], fw[1..])
  {
    if request.body.Some? {
      var verdict := TenantVerdict(request.body.value.messages.GetOr([]));
      var first := request.body.value.(tools := Some(Tools));
      if verdict.Returned? && verdict.value.allowed && env.backend(first).Some? && env.backend(first).value.json.Some? {
        var response := env.backend(first).value;
        HandleReachesLoop(request, env, fuel, first, response);
        var loop := ToolLoop(first, response, CallerId(request), env, fuel);
        LoopForwardsGrowingBodies(first, response, CallerId(request), env, fuel);
        assert ([first] + loop.forwarded)[1..] == loop.forwarded;
      }
    }
  }

  /**
   * Arguments must fit the tool: "{}" runs a no-argument tool and can never
   * run `file_content`; any other text (even "{ }") can never run `time_now`
   * or `list_directory`.
   */
  lemma ArgumentsMustFit(call: ToolCall, env: Env)
    requires call.name in Registry
    ensures call.arguments == "{}" && Registry[call.name] == OneArgument ==> ExecuteTool(call, env) == Raised("TypeError")
    ensures call.arguments == "{}" && Registry[call.name] == NoArguments ==> ExecuteTool(call, env) == env.runTool(call.name, None)
    ensures call.arguments != "{}" && Registry[call.name] == NoArguments ==> ExecuteTool(call, env).Raised?
    ensures call.arguments != "{}" && Registry[call.name] == OneArgument ==>
              ExecuteTool(call, env) == match env.parseJson(call.arguments)
                                        case None => Raised("JSONDecodeError")
                                        case Some(args) => env.runTool(call.name, Some(args))
  {
  }
}
