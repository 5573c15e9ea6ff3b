/**
 * The cortex chat session (`CortexChatSession`): the admin's persistent
 * conversation with the cortex. One send saves the admin's message, builds
 * the prompt history from the stored thread, asks the language model, and
 * saves its reply (or the error) as the assistant's message.
 */
module ChatSession {
  import opened Wrappers
  import opened ChatStore

  /** Number of stored messages a send loads back as history. */
  const HistoryLimit := 100

  /** Prefix of the text saved and returned when the language model call fails. */
  const ErrorPrefix := "Cortex chat error: "

  /** `empty_to_none`: an empty string becomes no value, any other string is kept. */
  function EmptyToNone(s: string): (r: Option<string>)
    ensures r.None? <==> s == ""
    ensures r.Some? ==> r.value == s
  {
    if |s| == 0 then None else Some(s)
  }

  /** Mapping back with `""` for no value undoes `EmptyToNone`. */
  lemma EmptyToNoneInverse(s: string, o: Option<string>)
    ensures EmptyToNone(s).GetOr("") == s
    ensures o != Some("") ==> EmptyToNone(o.GetOr("")) == o
  {
  }

  /** A message of the prompt history handed to the language model. */
  datatype PromptMessage = UserPrompt(text: string) | AssistantPrompt(text: string)

  /** The roles a stored message may have to take part in the prompt history. */
  predicate IsPromptRole(role: string)
  {
    role == "user" || role == "assistant"
  }

  /** The prompt message of a stored message, or nothing for any other role. */
  function AsPrompt(m: ChatMessage): (r: Option<PromptMessage>)
    ensures r.Some? <==> IsPromptRole(m.role)
  {
    if m.role == "user" then Some(UserPrompt(m.content))
    else if m.role == "assistant" then Some(AssistantPrompt(m.content))
    else None
  }

  /** What one stored message adds to the prompt history: its prompt form, or nothing. */
  function Prompts(m: ChatMessage): seq<PromptMessage>
  {
    match AsPrompt(m)
    case Some(p) => [p]
    case None => []
  }

  /** `n.saturating_sub(1)` on a `usize`. */
  function SaturatingPred(n: nat): (r: nat)
    ensures r <= n && (n > 0 ==> r + 1 == n)
  {
    if n == 0 then 0 else n - 1
  }

  /** The prompt history of stored messages: the user and assistant messages among them, in order. */
  function PromptHistory(messages: seq<ChatMessage>): (h: seq<PromptMessage>)
    ensures |h| <= |messages|
  {
    if messages == [] then []
    else
      Prompts(messages[0]) + PromptHistory(messages[1..])
  }

  /** The prompt history distributes over concatenation. */
  lemma {:induction false} PromptHistoryConcat(a: seq<ChatMessage>, b: seq<ChatMessage>)
    ensures PromptHistory(a + b) == PromptHistory(a) + PromptHistory(b)
  {
    if a == [] {
      assert a + b == b;
    } else {
      assert (a + b)[0] == a[0] && (a + b)[1..] == a[1..] + b;
      PromptHistoryConcat(a[1..], b);
      calc {
        PromptHistory(a + b);
        Prompts(a[0]) + PromptHistory(a[1..] + b);
        Prompts(a[0]) + (PromptHistory(a[1..]) + PromptHistory(b));
        (Prompts(a[0]) + PromptHistory(a[1..])) + PromptHistory(b);
      }
    }
  }

  /**
   * The prompt history is a subsequence of the messages: `idx` lists, in
   * increasing order, the positions it was taken from; each entry is the
   * prompt form of the message there, and every user or assistant message
   * is among them. So order is kept and every other role is dropped.
   */
  lemma {:induction false} PromptHistorySubsequence(messages: seq<ChatMessage>) returns (idx: seq<nat>)
    ensures |idx| == |PromptHistory(messages)|
    ensures forall k :: 0 <= k < |idx| ==>
      idx[k] < |messages| && AsPrompt(messages[idx[k]]) == Some(PromptHistory(messages)[k])
    ensures forall k, l :: 0 <= k < l < |idx| ==> idx[k] < idx[l]
    ensures forall j :: 0 <= j < |messages| && IsPromptRole(messages[j].role) ==> j in idx
  {
    if messages == [] {
      return [];
    }
    var n := |messages|;
    var init, last := messages[..n - 1], messages[n - 1];
    var rest := PromptHistorySubsequence(init);
    assert messages == init + [last];
    PromptHistoryConcat(init, [last]);
    var h, hi := PromptHistory(messages), PromptHistory(init);
    var tail: seq<nat> := if IsPromptRole(last.role) then [n - 1] else [];
    idx := rest + tail;
    assert h == hi + Prompts(last);
    assert |Prompts(last)| == |tail|;
    forall k | 0 <= k < |idx|
      ensures idx[k] < n && AsPrompt(messages[idx[k]]) == Some(h[k])
    {
      if k < |rest| {
        assert idx[k] == rest[k] && messages[rest[k]] == init[rest[k]] && h[k] == hi[k];
      } else {
        assert idx[k] == n - 1 && h[k] == Prompts(last)[0];
      }
    }
    forall k, l | 0 <= k < l < |idx|
      ensures idx[k] < idx[l]
    {
      assert idx[k] == rest[k] < n - 1;
    }
    forall j | 0 <= j < n && IsPromptRole(messages[j].role)
      ensures j in idx
    {
      if j < n - 1 {
        assert init[j] == messages[j];
        assert j in rest;
      } else {
        assert idx[|rest|] == j;
      }
    }
  }

  /**
   * Builds the prompt history from a thread's loaded messages: every message
   * but the last (the one just saved, which is sent as the prompt itself),
   * keeping user and assistant messages in order and skipping other roles.
   */
  method BuildHistory(chatMessages: seq<ChatMessage>) returns (history: seq<PromptMessage>)
    ensures history == PromptHistory(chatMessages[..SaturatingPred(|chatMessages|)])
    ensures |history| <= SaturatingPred(|chatMessages|)
    ensures chatMessages == [] ==> history == []
  {
    var prior := chatMessages[..SaturatingPred(|chatMessages|)];
    history := [];
    for i := 0 to |prior|
      invariant history == PromptHistory(prior[..i])
    {
      var message := prior[i];
      match message.role {
        case "user" =>
          history := history + [UserPrompt(message.content)];
        case "assistant" =>
          history := history + [AssistantPrompt(message.content)];
        case _ =>
      }
      assert prior[..i + 1] == prior[..i] + [message];
      PromptHistoryConcat(prior[..i], [message]);
    }
    assert prior[..|prior|] == prior;
  }

  /** The assistant message a send saves for the language model's outcome: the reply, or the prefixed error. */
  function AssistantText(outcome: Result<string, string>): string
  {
    match outcome
    case Success(response) => response
    case Failure(error) => ErrorPrefix + error
  }

  /** What a send returns for the language model's outcome once the assistant message is saved. */
  function SendReply(outcome: Result<string, string>): (r: Result<string, string>)
    ensures r.Success? <==> outcome.Success?
    ensures outcome.Success? ==> r.value == outcome.value
    ensures r.Failure? ==> r.error == AssistantText(outcome)
  {
    match outcome
    case Success(response) => Success(response)
    case Failure(error) => Failure(ErrorPrefix + error)
  }

  /** Whatever the outcome, the returned reply or error is exactly the saved assistant text. */
  lemma ReplyIsSavedText(outcome: Result<string, string>)
    ensures match SendReply(outcome)
            case Success(text) => text == AssistantText(outcome)
            case Failure(text) => text == AssistantText(outcome)
  {
  }

  /** The history loaded right after saving `m`, without its last message, is the thread's latest `k` messages before `m`. */
  lemma {:induction false} HistoryBeforeSaved(thread: seq<ChatMessage>, m: ChatMessage, k: nat)
    ensures var loaded := Latest(thread + [m], k + 1);
            loaded[..SaturatingPred(|loaded|)] == Latest(thread, k)
  {
    var s := thread + [m];
    var loaded := Latest(s, k + 1);
    if k < |thread| {
      assert loaded == s[|thread| - k..];
      assert loaded[..|loaded| - 1] == thread[|thread| - k..];
    } else {
      assert loaded == s;
      assert loaded[..|loaded| - 1] == thread;
    }
  }

  /** Database outcomes of the three store calls a send makes: the error of each one that fails. */
  datatype StoreFaults = StoreFaults(saveUser: Option<string>, loadHistory: Option<string>, saveAssistant: Option<string>)

  /** The cortex chat session of one agent. */
  class CortexChatSession {
    const store: CortexChatStore

    /** A session over `store`. */
    constructor (store: CortexChatStore)
      ensures this.store == store
    {
      this.store := store;
    }

    /**
     * Sends the admin's `userText` on thread `threadId` (`send_message`).
     * `userId` and `assistantId` are the ids the store generates for the two
     * saved messages, `faults` the database outcomes of the store calls, and
     * `outcome` the language model's reply or error; `history` is the prompt
     * history the model is given. A failing store call ends the send with
     * its error; otherwise the user message and then exactly one assistant
     * message are saved, and no other thread changes.
     */
    method SendMessage(threadId: string, userText: string, channelContextId: Option<string>,
                       userId: string, assistantId: string, faults: StoreFaults,
                       outcome: Result<string, string>)
      returns (reply: Result<string, string>, history: seq<PromptMessage>)
      modifies store
      ensures var user := ChatMessage(userId, threadId, "user", userText, channelContextId);
        && (faults.saveUser.Some? ==>
             reply == Failure(faults.saveUser.value) && history == [] && store.rows == old(store.rows))
        && (faults.saveUser.None? && faults.loadHistory.Some? ==>
             reply == Failure(faults.loadHistory.value) && history == [] && store.rows == old(store.rows) + [user])
        && (faults.saveUser.None? && faults.loadHistory.None? ==>
             history == PromptHistory(Latest(ThreadOf(old(store.rows), threadId), HistoryLimit - 1)))
        && (faults.saveUser.None? && faults.loadHistory.None? && faults.saveAssistant.Some? ==>
             reply == Failure(faults.saveAssistant.value) && store.rows == old(store.rows) + [user])
      ensures var user := ChatMessage(userId, threadId, "user", userText, channelContextId);
              var assistant := ChatMessage(assistantId, threadId, "assistant", AssistantText(outcome), channelContextId);
        faults == StoreFaults(None, None, None) ==>
          && reply == SendReply(outcome)
          && store.rows == old(store.rows) + [user, assistant]
          && ThreadOf(store.rows, threadId) == ThreadOf(old(store.rows), threadId) + [user, assistant]
          && forall t :: t != threadId ==> ThreadOf(store.rows, t) == ThreadOf(old(store.rows), t)
    {
      ghost var before := store.rows;
      history := [];
      var saved := store.SaveMessage(userId, threadId, "user", userText, channelContextId, faults.saveUser);
      if saved.Failure? {
        return Failure(saved.error), history;
      }
      var user := ChatMessage(userId, threadId, "user", userText, channelContextId);
      AppendToThread(before, [user], threadId);

      var loaded := store.LoadHistory(threadId, HistoryLimit, faults.loadHistory);
      if loaded.Failure? {
        return Failure(loaded.error), history;
      }
      history := BuildHistory(loaded.value);
      HistoryBeforeSaved(ThreadOf(before, threadId), user, HistoryLimit - 1);

      var text := AssistantText(outcome);
      saved := store.SaveMessage(assistantId, threadId, "assistant", text, channelContextId, faults.saveAssistant);
      if saved.Failure? {
        return Failure(saved.error), history;
      }
      var assistant := ChatMessage(assistantId, threadId, "assistant", text, channelContextId);
      assert store.rows == before + [user, assistant];
      AppendToThread(before, [user, assistant], threadId);
      match outcome
      case Success(response) =>
        reply := Success(response);
      case Failure(error) =>
        reply := Failure(text);
    }
  }
}
