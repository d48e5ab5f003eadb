/**
 * `tools_matched` (webservices/llama-proxy.py): which of the tool calls the
 * backend asked for name a declared tool, in the backend's order.
 */
module ToolMatcher {
  import opened Wrappers
  import opened ChatModel

  /** `{tool["function"]["name"] for tool in tool_calls}`. */
  function CalledNames(calls: seq<ToolCall>): set<string> {
    set c | c in calls :: c.name
  }

  /** `[call["function"] for call in tool_calls if call["function"]["name"] in names]`. */
  function KeepNamed(calls: seq<ToolCall>, names: set<string>): seq<ToolCall>
    decreases |calls|
  {
    if |calls| == 0 then []
    else (if calls[0].name in names then [calls[0]] else []) + KeepNamed(calls[1..], names)
  }

  /**
   * `tools_matched(tools, response_json)`: raises KeyError when the top choice
   * has no message or the message has no `tool_calls`; otherwise intersects the
   * called names with the declared names and keeps the calls carrying them.
   */
  function ToolsMatched(tools: seq<ToolDef>, response: Completion): (r: Raising<seq<ToolCall>>)
    ensures r.Returned? <==> response.topMessage.Some? && response.topMessage.value.toolCalls.Some?
    ensures r.Returned? ==> r.value == KeepNamed(response.topMessage.value.toolCalls.value, ToolNames(tools))
  {
    match response.topMessage
    case None => Raised("KeyError")
    case Some(message) =>
      match message.toolCalls
      case None => Raised("KeyError")
      case Some(calls) =>
        var matched := CalledNames(calls) * ToolNames(tools);
        KeepCalledNames(calls, CalledNames(calls), ToolNames(tools));
        Returned(KeepNamed(calls, matched))
  }

  /**
   * Intersecting with the called names first changes nothing: filtering by
   * `called & declared` is filtering by `declared`.
   */
  lemma {:induction false} KeepCalledNames(calls: seq<ToolCall>, called: set<string>, declared: set<string>)
    requires CalledNames(calls) <= called
    ensures KeepNamed(calls, called * declared) == KeepNamed(calls, declared)
    decreases |calls|
  {
    if |calls| > 0 {
      assert calls[0] in calls;
      assert CalledNames(calls[1..]) <= CalledNames(calls) by {
        forall n | n in CalledNames(calls[1..]) ensures n in CalledNames(calls) {
          var c :| c in calls[1..] && c.name == n;
          assert c in calls;
        }
      }
      KeepCalledNames(calls[1..], called, declared);
    }
  }

  /** A call is kept exactly when it was requested and its name is declared. */
  lemma {:induction false} KeepNamedMembers(calls: seq<ToolCall>, names: set<string>)
    ensures forall c :: c in KeepNamed(calls, names) <==> c in calls && c.name in names
    decreases |calls|
  {
    if |calls| > 0 {
      KeepNamedMembers(calls[1..], names);
      assert calls == [calls[0]] + calls[1..];
    }
  }

  /** Filtering distributes over concatenation: the backend's order is kept. */
  lemma {:induction false} KeepNamedAppend(a: seq<ToolCall>, b: seq<ToolCall>, names: set<string>)
    ensures KeepNamed(a + b, names) == KeepNamed(a, names) + KeepNamed(b, names)
    decreases |a|
  {
    if |a| == 0 {
      assert a + b == b;
    } else {
      var head := if a[0].name in names then [a[0]] else [];
      assert (a + b)[0] == a[0];
      assert (a + b)[1..] == a[1..] + b;
      calc {
        KeepNamed(a + b, names);
        head + KeepNamed(a[1..] + b, names);
        { KeepNamedAppend(a[1..], b, names); }
        head + (KeepNamed(a[1..], names) + KeepNamed(b, names));
        (head + KeepNamed(a[1..], names)) + KeepNamed(b, names);
        KeepNamed(a, names) + KeepNamed(b, names);
      }
    }
  }

  /** Each call is kept as often as the backend issued it (duplicates survive) when its name is declared. */
  lemma {:induction false} KeepNamedCounts(calls: seq<ToolCall>, names: set<string>, c: ToolCall)
    ensures multiset(KeepNamed(calls, names))[c] == if c.name in names then multiset(calls)[c] else 0
    decreases |calls|
  {
    if |calls| > 0 {
      KeepNamedCounts(calls[1..], names, c);
      assert calls == [calls[0]] + calls[1..];
    }
  }

  /** When the backend names only undeclared tools (or none), nothing is matched and the tool loop does not run. */
  lemma {:induction false} UndeclaredOnlyMatchesNothing(calls: seq<ToolCall>, names: set<string>)
    requires forall c :: c in calls ==> c.name !in names
    ensures KeepNamed(calls, names) == []
    decreases |calls|
  {
    if |calls| > 0 {
      assert calls[0] in calls;
      UndeclaredOnlyMatchesNothing(calls[1..], names);
    }
  }

  /**
   * A call is matched exactly when the backend requested it and its name is
   * declared; with the proxy's own `tools` list every matched name is a
   * registered tool function, so the registry lookup never misses.
   */
  lemma MatchedCalls(tools: seq<ToolDef>, response: Completion)
    requires ToolsMatched(tools, response).Returned?
    ensures forall c :: c in ToolsMatched(tools, response).value <==>
              c in response.topMessage.value.toolCalls.value && c.name in ToolNames(tools)
    ensures tools == Tools ==> forall c :: c in ToolsMatched(tools, response).value ==> c.name in Registry
  {
    KeepNamedMembers(response.topMessage.value.toolCalls.value, ToolNames(tools));
    SchemasMatchRegistry();
  }
}
