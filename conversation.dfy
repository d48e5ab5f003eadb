/**
 * `add_system_message` (webservices/llama-proxy.py): merges new system text
 * into a chat's message list in place. The handler never calls it; the model
 * follows its code, including what happens when a message is malformed.
 */
module Conversation {
  import opened Wrappers
  import opened ChatModel

  const Separator := " \n"

  predicate IsSystem(m: Message) {
    m.role == Some("system")
  }

  /** `{"role": "system", "content": content}`. */
  function SystemMessage(content: string): Message {
    TextMessage("system", content)
  }

  /** `[c for c in suffix]` as JSON strings: what `list += str` appends. */
  function CharItems(suffix: string): seq<Json> {
    seq(|suffix|, i requires 0 <= i < |suffix| => JStr([suffix[i]]))
  }

  /**
   * `message["content"] += suffix`: KeyError without a content key; a string
   * is concatenated; a list is extended by the suffix's characters; any other
   * value (null, number, object, boolean) raises TypeError.
   */
  function AppendContent(content: Option<Json>, suffix: string): Raising<Json> {
    match content
    case None => Raised("KeyError")
    case Some(JStr(s)) => Returned(JStr(s + suffix))
    case Some(JArr(items)) => Returned(JArr(items + CharItems(suffix)))
    case Some(_) => Raised("TypeError")
  }

  /** One pass of the loop body over one message: `None` when it raises. */
  function UpdateMessage(m: Message, newContent: string): Raising<Message> {
    match m.role
    case None => Raised("KeyError")
    case Some(role) =>
      if role != "system" then Returned(m)
      else
        match AppendContent(m.content, Separator + newContent)
        case Raised(e) => Raised(e)
        case Returned(c) => Returned(m.(content := Some(c)))
  }

  /** Where the `for` loop ends: after the last message, or at a raising one. */
  datatype LoopEnd = Finished(messages: seq<Message>, updated: bool) | Interrupted(messages: seq<Message>, error: string)

  /** The `for` loop from position `i` on, with the `updated` flag so far. */
  function UpdateFrom(messages: seq<Message>, i: nat, updated: bool, newContent: string): LoopEnd
    requires i <= |messages|
    decreases |messages| - i
  {
    if i == |messages| then Finished(messages, updated)
    else
      match UpdateMessage(messages[i], newContent)
      case Raised(e) => Interrupted(messages, e)
      case Returned(m) => UpdateFrom(messages[i := m], i + 1, updated || IsSystem(messages[i]), newContent)
  }

  /** The list after `add_system_message`, and the exception it raised if any. */
  datatype Merge = Merge(messages: seq<Message>, error: Option<string>)

  /** `add_system_message(messages, new_content)`: the loop, then the insert when nothing was updated. */
  function AddSystem(messages: seq<Message>, newContent: string): Merge {
    match UpdateFrom(messages, 0, false, newContent)
    case Finished(ms, updated) =>
      if updated then Merge(ms, None) else Merge([SystemMessage(newContent)] + ms, None)
    case Interrupted(ms, e) => Merge(ms, Some(e))
  }

  /** A chat's message list, which `add_system_message` mutates in place. */
  class MessageList {
    var messages: seq<Message>

    constructor (initial: seq<Message>)
      ensures messages == initial
    {
      messages := initial;
    }

    /**
     * `add_system_message(self.messages, new_content)`. On an exception the
     * messages already visited stay updated and nothing is inserted.
     */
    method AddSystemMessage(newContent: string) returns (error: Option<string>)
      modifies this
      ensures Merge(messages, error) == AddSystem(old(messages), newContent)
    {
      var msg := SystemMessage(newContent);
      var updated := false;
      var i := 0;
      while i < |messages|
        invariant 0 <= i <= |messages|
        invariant UpdateFrom(messages, i, updated, newContent) == UpdateFrom(old(messages), 0, false, newContent)
      {
        var message := messages[i];
        if message.role.None? {
          return Some("KeyError");
        }
        if message.role.value == "system" {
          var content := AppendContent(message.content, Separator + newContent);
          if content.Raised? {
            return Some(content.exception);
          }
          messages := messages[i := message.(content := Some(content.value))];
          updated := true;
        } else {
          assert messages[i := message] == messages;
        }
        i := i + 1;
      }
      if !updated {
        messages := [msg] + messages;
      }
      return None;
    }
  }

  /** The message would not make the loop raise. */
  predicate Mergeable(m: Message, newContent: string) {
    UpdateMessage(m, newContent).Returned?
  }

  /**
   * When no message from `i` on raises, the loop visits them all: it updates
   * each of them, leaves those before `i` alone, and sets the flag exactly
   * when one of them is a system message.
   */
  lemma {:induction false} UpdateFromMergeable(messages: seq<Message>, i: nat, updated: bool, newContent: string)
    requires i <= |messages|
    requires forall j :: i <= j < |messages| ==> Mergeable(messages[j], newContent)
    ensures UpdateFrom(messages, i, updated, newContent).Finished?
    ensures |UpdateFrom(messages, i, updated, newContent).messages| == |messages|
    ensures forall j :: 0 <= j < i ==> UpdateFrom(messages, i, updated, newContent).messages[j] == messages[j]
    ensures forall j :: i <= j < |messages| && Mergeable(messages[j], newContent) ==>
              UpdateFrom(messages, i, updated, newContent).messages[j] == UpdateMessage(messages[j], newContent).value
    ensures UpdateFrom(messages, i, updated, newContent).updated
            <==> updated || exists j :: i <= j < |messages| && IsSystem(messages[j])
    decreases |messages| - i
  {
    if i < |messages| {
      var m := UpdateMessage(messages[i], newContent).value;
      var next := messages[i := m];
      assert m.role == messages[i].role;
      forall j | i + 1 <= j < |messages| ensures Mergeable(next[j], newContent) {
        assert next[j] == messages[j];
      }
      UpdateFromMergeable(next, i + 1, updated || IsSystem(messages[i]), newContent);
      var u := UpdateFrom(next, i + 1, updated || IsSystem(messages[i]), newContent).updated;
      if u && !updated && !IsSystem(messages[i]) {
        var j :| i + 1 <= j < |messages| && IsSystem(next[j]);
        assert IsSystem(messages[j]);
      }
    }
  }

  /**
   * When the message at `k` is the first from `i` on that raises, the loop stops
   * there with its exception: messages from `i` to `k` are updated, the rest
   * are unchanged.
   */
  lemma {:induction false} UpdateFromInterrupted(messages: seq<Message>, i: nat, updated: bool, newContent: string, k: nat)
    requires i <= k < |messages|
    requires forall j :: i <= j < k ==> Mergeable(messages[j], newContent)
    requires !Mergeable(messages[k], newContent)
    ensures UpdateFrom(messages, i, updated, newContent)
            == Interrupted(UpdateFrom(messages, i, updated, newContent).messages,
                           UpdateMessage(messages[k], newContent).exception)
    ensures |UpdateFrom(messages, i, updated, newContent).messages| == |messages|
    ensures forall j :: i <= j < k && Mergeable(messages[j], newContent) ==>
              UpdateFrom(messages, i, updated, newContent).messages[j] == UpdateMessage(messages[j], newContent).value
    ensures forall j :: (0 <= j < i || k <= j < |messages|) ==>
              UpdateFrom(messages, i, updated, newContent).messages[j] == messages[j]
    decreases k - i
  {
    if i < k {
      var m := UpdateMessage(messages[i], newContent).value;
      var next := messages[i := m];
      forall j | i + 1 <= j < k ensures Mergeable(next[j], newContent) {
        assert next[j] == messages[j];
      }
      assert next[k] == messages[k];
      UpdateFromInterrupted(next, i + 1, updated || IsSystem(messages[i]), newContent, k);
    }
  }

  /** No message is a system message, and every message has a role. */
  predicate NoSystemWellFormed(messages: seq<Message>) {
    forall j :: 0 <= j < |messages| ==> messages[j].role.Some? && !IsSystem(messages[j])
  }

  /** Without a system message, `{"role": "system", "content": new}` is inserted at index 0 and the rest keep their order. */
  lemma InsertsWhenNoSystem(messages: seq<Message>, newContent: string)
    requires NoSystemWellFormed(messages)
    ensures AddSystem(messages, newContent) == Merge([SystemMessage(newContent)] + messages, None)
  {
    UpdateFromMergeable(messages, 0, false, newContent);
    var ms := UpdateFrom(messages, 0, false, newContent).messages;
    assert ms == messages;
  }

  /**
   * With at least one system message and every message well formed, each
   * system message's content gets " \n" + new appended; the length, the order
   * and every other message are unchanged.
   */
  lemma AppendsToEverySystemMessage(messages: seq<Message>, newContent: string, k: nat)
    requires k < |messages| && IsSystem(messages[k])
    requires forall j :: 0 <= j < |messages| ==> Mergeable(messages[j], newContent)
    ensures AddSystem(messages, newContent).error == None
    ensures |AddSystem(messages, newContent).messages| == |messages|
    ensures forall j :: 0 <= j < |messages| && !IsSystem(messages[j]) ==>
              AddSystem(messages, newContent).messages[j] == messages[j]
    ensures forall j, s :: 0 <= j < |messages| && IsSystem(messages[j]) && messages[j].content == Some(JStr(s)) ==>
              AddSystem(messages, newContent).messages[j] == messages[j].(content := Some(JStr(s + Separator + newContent)))
  {
    UpdateFromMergeable(messages, 0, false, newContent);
    var ms := UpdateFrom(messages, 0, false, newContent).messages;
    assert UpdateFrom(messages, 0, false, newContent).updated;
    assert AddSystem(messages, newContent).messages == ms;
    forall j, s | 0 <= j < |messages| && IsSystem(messages[j]) && messages[j].content == Some(JStr(s))
      ensures ms[j] == messages[j].(content := Some(JStr(s + Separator + newContent)))
    {
      assert Mergeable(messages[j], newContent);
      assert ms[j] == UpdateMessage(messages[j], newContent).value;
      assert AppendContent(messages[j].content, Separator + newContent) == Returned(JStr(s + (Separator + newContent)));
      assert s + (Separator + newContent) == s + Separator + newContent;
    }
  }

  /** Number of system messages in a list. */
  function SystemCount(messages: seq<Message>): nat
    decreases |messages|
  {
    if |messages| == 0 then 0
    else (if IsSystem(messages[0]) then 1 else 0) + SystemCount(messages[1..])
  }

  lemma {:induction false} SystemCountSameRoles(a: seq<Message>, b: seq<Message>)
    requires |a| == |b|
    requires forall j :: 0 <= j < |a| ==> a[j].role == b[j].role
    ensures SystemCount(a) == SystemCount(b)
    decreases |a|
  {
    if |a| > 0 {
      SystemCountSameRoles(a[1..], b[1..]);
    }
  }

  lemma {:induction false} SystemCountZero(messages: seq<Message>)
    ensures SystemCount(messages) == 0 <==> forall j :: 0 <= j < |messages| ==> !IsSystem(messages[j])
    decreases |messages|
  {
    if |messages| > 0 {
      SystemCountZero(messages[1..]);
      assert forall j :: 1 <= j < |messages| ==> messages[j] == messages[1..][j - 1];
    }
  }

  /**
   * A successful merge leaves max(1, n) system messages where there were n:
   * it never adds a second system message next to an existing one.
   */
  lemma SystemMessagesNotDuplicated(messages: seq<Message>, newContent: string)
    requires AddSystem(messages, newContent).error == None
    ensures SystemCount(AddSystem(messages, newContent).messages)
            == if SystemCount(messages) == 0 then 1 else SystemCount(messages)
  {
    var k: nat := 0;
    while k < |messages| && Mergeable(messages[k], newContent)
      invariant k <= |messages|
      invariant forall j :: 0 <= j < k ==> Mergeable(messages[j], newContent)
    {
      k := k + 1;
    }
    if k < |messages| {
      UpdateFromInterrupted(messages, 0, false, newContent, k);
      assert false;
    }
    UpdateFromMergeable(messages, 0, false, newContent);
    var ms := UpdateFrom(messages, 0, false, newContent).messages;
    forall j | 0 <= j < |messages| ensures ms[j].role == messages[j].role {
      assert ms[j] == UpdateMessage(messages[j], newContent).value;
    }
    SystemCountSameRoles(ms, messages);
    SystemCountZero(messages);
    if SystemCount(messages) == 0 {
      assert AddSystem(messages, newContent).messages == [SystemMessage(newContent)] + ms;
      assert ([SystemMessage(newContent)] + ms)[1..] == ms;
    }
  }
}
