/**
 * The two policy checks of webservices/llama-proxy.py: the tenant content
 * filter `enforce_tenant_policy` and the per-user tool authorisation
 * `enforce_user_policy`.
 */
module Policy {
  import opened Wrappers
  import opened Text
  import opened ChatModel

  const Keyword := "password"
  const KeywordReason := "Policy violation: request contains sensitive keyword 'password'."
  const TooLongReason := "Policy violation: input too long."
  const AllowedReason := "Allowed"
  const MaxContentLength := 20000

  /** `(allowed, message)` as returned by `enforce_tenant_policy`. */
  datatype Decision = Decision(allowed: bool, reason: string)

  /**
   * `msg.get("content", "").lower()`: a missing content reads as "", a string
   * is lower-cased, and any other JSON value (null, list, number, ...) has no
   * `lower` and raises AttributeError.
   */
  function LoweredContent(m: Message): Raising<string> {
    match m.content
    case None => Returned("")
    case Some(JStr(s)) => Returned(Lower(s))
    case Some(_) => Raised("AttributeError")
  }

  /** The loop body for one message: the keyword test first, then the length test. */
  function MessageViolation(m: Message): Raising<Option<string>> {
    match LoweredContent(m)
    case Raised(e) => Raised(e)
    case Returned(content) =>
      if Contains(content, Keyword) then Returned(Some(KeywordReason))
      else if |content| > MaxContentLength then Returned(Some(TooLongReason))
      else Returned(None)
  }

  /** A message passes the tenant filter. */
  predicate Clean(m: Message) {
    MessageViolation(m) == Returned(None)
  }

  /** What `enforce_tenant_policy` returns (or raises) for a message list, scanning in order. */
  function TenantVerdict(messages: seq<Message>): Raising<Decision>
    decreases |messages|
  {
    if |messages| == 0 then Returned(Decision(true, AllowedReason))
    else
      match MessageViolation(messages[0])
      case Raised(e) => Raised(e)
      case Returned(Some(reason)) => Returned(Decision(false, reason))
      case Returned(None) => TenantVerdict(messages[1..])
  }

  /** `enforce_tenant_policy(payload)`: a missing `messages` key scans an empty list. */
  method EnforceTenantPolicy(payload: Body) returns (verdict: Raising<Decision>)
    ensures verdict == TenantVerdict(payload.messages.GetOr([]))
  {
    var messages := payload.messages.GetOr([]);
    var i := 0;
    while i < |messages|
      invariant 0 <= i <= |messages|
      invariant TenantVerdict(messages) == TenantVerdict(messages[i..])
    {
      var msg := messages[i];
      var lowered := LoweredContent(msg);
      if lowered.Raised? {
        return Raised(lowered.exception);
      }
      var content := lowered.value;
      if Contains(content, Keyword) {
        return Returned(Decision(false, KeywordReason));
      }
      if |content| > MaxContentLength {
        return Returned(Decision(false, TooLongReason));
      }
      assert messages[i..][1..] == messages[i + 1..];
      i := i + 1;
    }
    return Returned(Decision(true, AllowedReason));
  }

  /** The request is allowed (with reason "Allowed") exactly when every message is clean. */
  lemma {:induction false} AllowedIffAllClean(messages: seq<Message>)
    ensures TenantVerdict(messages) == Returned(Decision(true, AllowedReason))
            <==> forall i :: 0 <= i < |messages| ==> Clean(messages[i])
    decreases |messages|
  {
    if |messages| > 0 {
      AllowedIffAllClean(messages[1..]);
      if forall i :: 0 <= i < |messages| ==> Clean(messages[i]) {
        assert Clean(messages[0]);
        forall i | 0 <= i < |messages| - 1 ensures Clean(messages[1..][i]) {
          assert messages[1..][i] == messages[i + 1];
        }
      }
      if TenantVerdict(messages) == Returned(Decision(true, AllowedReason)) {
        forall i | 0 <= i < |messages| ensures Clean(messages[i]) {
          if i > 0 {
            assert messages[i] == messages[1..][i - 1];
          }
        }
      }
    }
  }

  /**
   * The first message that is not clean decides the result: its reason (or its
   * exception), whatever the later messages hold.
   */
  lemma {:induction false} FirstOffenderDecides(messages: seq<Message>, k: nat)
    requires k < |messages|
    requires forall j :: 0 <= j < k ==> Clean(messages[j])
    requires !Clean(messages[k])
    ensures TenantVerdict(messages) == match MessageViolation(messages[k])
                                       case Raised(e) => Raised(e)
                                       case Returned(r) => Returned(Decision(false, r.GetOr("")))
    ensures TenantVerdict(messages).Returned? ==> !TenantVerdict(messages).value.allowed
    decreases k
  {
    if k > 0 {
      assert Clean(messages[0]);
      assert messages[1..][k - 1] == messages[k];
      forall j | 0 <= j < k - 1 ensures Clean(messages[1..][j]) {
        assert messages[1..][j] == messages[j + 1];
      }
      FirstOffenderDecides(messages[1..], k - 1);
    }
  }

  /** A returned verdict carries "Allowed" exactly when it allows, and otherwise one of the two violation reasons. */
  lemma {:induction false} VerdictReasons(messages: seq<Message>)
    requires TenantVerdict(messages).Returned?
    ensures TenantVerdict(messages).value.allowed <==> TenantVerdict(messages).value.reason == AllowedReason
    ensures !TenantVerdict(messages).value.allowed ==>
              TenantVerdict(messages).value.reason in {KeywordReason, TooLongReason}
    decreases |messages|
  {
    if |messages| > 0 && MessageViolation(messages[0]) == Returned(None) {
      VerdictReasons(messages[1..]);
    }
  }

  /**
   * Within one string-content message: the keyword reason exactly when
   * "password" occurs in the lower-cased content (checked first), the length
   * reason exactly when it does not and the content exceeds 20000 characters.
   */
  lemma MessageViolationMeaning(m: Message, s: string)
    requires m.content == Some(JStr(s))
    ensures MessageViolation(m) == Returned(Some(KeywordReason))
            <==> exists i :: OccursAt(Lower(s), Keyword, i)
    ensures MessageViolation(m) == Returned(Some(TooLongReason))
            <==> (!exists i :: OccursAt(Lower(s), Keyword, i)) && |s| > MaxContentLength
    ensures MessageViolation(m) == Returned(None)
            <==> (!exists i :: OccursAt(Lower(s), Keyword, i)) && |s| <= MaxContentLength
  {
    ContainsIffOccurs(Lower(s), Keyword);
    LowerAt(s);
  }

  /** The keyword test ignores case: upper-casing the content changes no verdict. */
  lemma CaseInsensitive(m: Message, s: string)
    requires m.content == Some(JStr(s))
    ensures MessageViolation(m.(content := Some(JStr(Upper(s))))) == MessageViolation(m)
  {
    LowerOfUpper(s);
  }

  /** A message with no `content` key is clean; one whose content is not a string raises. */
  lemma ContentShapes(m: Message)
    ensures m.content.None? ==> Clean(m)
    ensures m.content.Some? && !m.content.value.JStr? ==> MessageViolation(m) == Raised("AttributeError")
  {
  }

  const UserDeniedReason := "Tool not allowed by user policy."

  /**
   * A tool's entry in a policy file: a mapping with an optional `allowed`
   * value, or anything else (null, a list, a scalar), which has no `.get`.
   */
  datatype ToolEntry = EntryMapping(allowed: Option<bool>) | EntryNotMapping

  /**
   * One user's policy file once `yaml.safe_load` has read it: a document that
   * cannot be indexed by a string (an empty document, a list, a scalar) or
   * whose `tools` value cannot (null, a list, a scalar); a mapping without a
   * `tools` key; or a `tools` mapping from tool name to entry.
   */
  datatype PolicyFile = Unindexable | NoToolsSection | ToolsSection(entries: map<string, ToolEntry>)

  /** The policy files under /app/policies/, by user id. */
  type PolicyStore = map<string, PolicyFile>

  /** `(tool_allowed, reason)` as returned by `enforce_user_policy`. */
  datatype UserVerdict = UserVerdict(allowed: bool, reason: Option<string>)

  /** The user's policy lists the tool with `allowed: true`. */
  predicate ExplicitlyAllowed(store: PolicyStore, userId: string, toolName: string) {
    userId in store && store[userId].ToolsSection? && toolName in store[userId].entries
    && store[userId].entries[toolName] == EntryMapping(Some(true))
  }

  /**
   * The exception `enforce_user_policy` lets escape, if any: UnboundLocalError
   * without a policy file, TypeError when `user_policy["tools"][tool_name]`
   * indexes something that is not a mapping, AttributeError when the tool's
   * entry has no `.get`. Only KeyError is caught.
   */
  function PolicyException(store: PolicyStore, userId: string, toolName: string): Option<string> {
    if userId !in store then Some("UnboundLocalError")
    else match store[userId]
      case Unindexable => Some("TypeError")
      case NoToolsSection => None
      case ToolsSection(entries) =>
        if toolName in entries && entries[toolName].EntryNotMapping? then Some("AttributeError") else None
  }

  /**
   * `enforce_user_policy(user_id, tool_name)`. Without a policy file
   * `tool_allowed` is never bound and the test of it raises UnboundLocalError;
   * indexing a non-mapping raises TypeError and calling `.get` on a non-mapping
   * entry raises AttributeError; a missing `tools` section or tool entry is the
   * KeyError the function catches (deny); a missing `allowed` key defaults to False.
   */
  function EnforceUserPolicy(store: PolicyStore, userId: string, toolName: string): (r: Raising<UserVerdict>)
    ensures r.Raised? <==> PolicyException(store, userId, toolName).Some?
    ensures r.Raised? ==> r.exception == PolicyException(store, userId, toolName).value
    ensures r.Returned? ==> (r.value.allowed <==> ExplicitlyAllowed(store, userId, toolName))
    ensures r.Returned? ==> (r.value.reason == if r.value.allowed then None else Some(UserDeniedReason))
  {
    if userId !in store then Raised("UnboundLocalError")
    else
      match store[userId]
      case Unindexable => Raised("TypeError")
      case NoToolsSection => Returned(UserVerdict(false, Some(UserDeniedReason)))
      case ToolsSection(entries) =>
        if toolName !in entries then Returned(UserVerdict(false, Some(UserDeniedReason)))
        else
          match entries[toolName]
          case EntryNotMapping => Raised("AttributeError")
          case EntryMapping(allowed) =>
            var toolAllowed := allowed.GetOr(false);
            Returned(UserVerdict(toolAllowed, if !toolAllowed then Some(UserDeniedReason) else None))
  }
}
